# Running-challenge vision core, modelled in Dafny

This project models the deterministic core of the vision program that a
humanoid robot uses in the running challenge. The program segments the track
and the challenge markers by colour and steers the robot from what it sees.
Four parts are modelled:

- **Colour-range store and calibration** (`calibration.dfy`, module
  `Calibration`). Class `RunVision` holds six 3-channel HSV bound arrays, a
  lower and an upper one for each of the main track, the step marker and the
  swerve marker. `Reset` restores the inverted, empty box of one target.
  `Click` is the click branch of the mouse callback `Segment`. It widens one
  target's box around the weighted mean of the clicked neighbourhood.
  Lemmas over any sequence of clicks prove four facts. Upper bounds never
  decrease and lower bounds never increase. Bounds stay within [0, 255]. The
  final box is exactly the hull of the starting box and every sample's own
  interval. The first click after a reset sets exactly the sample's interval.
- **Scanline boundary scanner** (`scanline.dfy`, module `Scanline`). This is
  `SwerveRunning` on a mask given as a 2-D integer array. Seven columns are
  spread over the width. In each column a binary search over rows narrows a
  window. A linear scan of that window then records the first foreground row
  whose lower neighbour is background. The heading is the mean of the column
  positions, weighted by those rows, or -1 when no weight is found.
- **Largest-region selection** (`region.dfy`, module `RegionTracker`). This
  is `MainRunning` and `StepRunning`. Each contour is given by its area and
  its moments. The result is the truncated centroid of the first contour of
  largest area (what `np.argmax` selects), or the sentinel (-1, -1).
- **Decision cycle** (`decision.dfy`, module `Decision`). This is the loop of
  `vision.py`. Class `Controller` holds `STATE` (0, 1 or 2) and the
  blackboard, modelled as a map from key names to values. `Cycle` runs one
  pass of the loop body: state changes, blackboard writes and key handling.
  `Loop` runs the loop over a finite sequence of cycle inputs.

`numerics.dfy` (module `Numerics`) holds the Python arithmetic the model
needs. `Trunc` is `int()` on a float. `FloorDiv` is Python 2 integer
division, which rounds toward minus infinity. `Min` and `Max` are the
builtins on two numbers.

The system was designed with a few behaviours that the code does not
have. The model follows the code. The differences are these:

- The scanner assumes foreground at the top of a column and background
  below it. A foreground probe moves `up` down to the probe row, and a
  boundary is a foreground row whose lower neighbour is background. The
  intended design has the track rising from the bottom edge: background
  above, foreground below. On such a column no row is foreground above
  background, so the scan records 0 (`Scanline.BottomUpColumnRecordsZero`).
  On a frame where every scanline looks like that, `SwerveRunning` returns
  -1 (`Scanline.BottomUpMaskHeading`).
- The steering value is `60 * (W/2 - cx) / W`. For W = 640 and cx = 0 this
  is 30. The intended design gives a full turn of 60 at the left edge. For
  even W and cx inside the frame the value lies in [-30, 30]
  (`Decision.SteeringRange`).
- The intended calibration clips `max(mean + T, upper)` to [0, 255]. The
  code clamps only the sample's bound, as in `max(min(m + T, 255), upper)`.
  The two agree while the stored bounds are in range, and
  `Calibration.ClicksStayInRange` proves that they always are.
- The navigation state machine in the code has three states: 0 (start),
  1 (walking) and 2 (stopped). The intended design also has approach,
  step-up and ramp states with smoothing. None of these are in the code.
- The region tracker returns its sentinel when `m00 == 0`. The intended
  design tests the contour area instead. Area and `m00` are separate
  inputs here.

## Model

| member | source | states |
|---|---|---|
| `Numerics.Trunc` | AI/Vision/src/runningvision.py:358-359 | `int()` on a float rounds toward zero: the result lies between 0 and the float, less than 1 away from it |
| `Numerics.FloorDiv` | AI/Vision/src/vision.py:99 | Python 2 `/` on integers: the quotient q satisfies `q*b <= a < q*b + b` for a positive divisor, and the mirrored bounds for a negative one |
| `Calibration.TargetOfParam` | AI/Vision/src/runningvision.py:116-134 | `'MAIN'`, `'STEP'` and `'SWERVE'` select their own target, each if and only if the parameter is that string; any other parameter selects none |
| `Calibration.TargetOfIndex` | AI/Vision/src/runningvision.py:47-56 | `reset` indices 0, 1, 2 select main, step, swerve, each if and only if; any other index selects nothing |
| `Calibration.WidenUpper` | AI/Vision/src/runningvision.py:117 | the new upper bound is at least the old one and at least the sample's `int(min(m+thrs,255))`, equals one of the two, and stays in [0,255] when the old bound is in range |
| `Calibration.WidenLower` | AI/Vision/src/runningvision.py:118 | the new lower bound is at most the old one and at most the sample's `int(max(m-thrs,0))`, equals one of the two, and stays in [0,255] when the old bound is in range |
| `Calibration.ClickBox` | AI/Vision/src/runningvision.py:117-122 | one click gives a box that contains the old box and the sample's own interval in every channel |
| `Calibration.ClicksWiden` | AI/Vision/src/runningvision.py:116-140 | after any sequence of clicks on a target, the box contains the box it started from |
| `Calibration.ClicksMonotone` | AI/Vision/src/runningvision.py:116-140 | along a click history, each upper channel never decreases and each lower channel never increases from one prefix to a longer one |
| `Calibration.ClicksStayInRange` | AI/Vision/src/runningvision.py:12-19 | bounds that start in [0,255] (as `__init__` and `reset` set them) stay in [0,255] for any means and any threshold |
| `Calibration.ClicksCover` | AI/Vision/src/runningvision.py:117-122 | the final box contains every clicked sample's truncated interval `[max(m-thrs,0), min(m+thrs,255)]` |
| `Calibration.ClicksAttained` | AI/Vision/src/runningvision.py:117-122 | each final bound is the starting bound or one sample's bound, so with `ClicksCover` the box is exactly the union hull |
| `Calibration.ClickAfterReset` | AI/Vision/src/runningvision.py:47-56 | with mean in [0,255] and thrs >= 0, one click after reset gives upper = `int(min(m+thrs,255))` and lower = `int(max(m-thrs,0))` per channel |
| `Calibration.RunVision.constructor` | AI/Vision/src/runningvision.py:9-19 | all three boxes start as the empty box `[255,255,255]`/`[0,0,0]` in six distinct new arrays, and the threshold is stored |
| `Calibration.RunVision.Reset` | AI/Vision/src/runningvision.py:47-56 | target `x` gets new arrays holding the empty box, the other two targets keep their boxes, and any other `x` changes nothing |
| `Calibration.RunVision.Click` | AI/Vision/src/runningvision.py:77-140 | only the target named by `param` changes, to the one-click box; an unknown `param` or an empty neighbourhood (no mean) changes no bound |
| `Calibration.RunVision.Widen` | AI/Vision/src/runningvision.py:117-122 | the six in-place assignments leave the pair of arrays equal to the one-click box of their old contents |
| `Scanline.Columns` | AI/Vision/src/runningvision.py:410-412 | the seven scanline positions are non-negative and non-decreasing, lie in [0, W) for W >= 1, and are strictly increasing for W >= 7 |
| `Scanline.FirstTransition` | AI/Vision/src/runningvision.py:433-436 | the linear scan returns the first row j in [lo, hi) with mask[j]=255 and mask[j+1]=0, or 0 when there is none |
| `Scanline.Bisect` | AI/Vision/src/runningvision.py:422-432 | the binary search keeps up <= down inside the starting window, ends with a window narrower than 30, and never loses the boundary row of a column that is foreground above and background below |
| `Scanline.ColumnRow` | AI/Vision/src/runningvision.py:417-437 | the recorded `lj[i]` is 0 or a foreground/background transition row inside the frame, and on a column that is foreground down to row b and background below it, it is exactly b |
| `Scanline.ScanColumn` | AI/Vision/src/runningvision.py:417-437 | the `while True` search and the `for j` scan with their breaks compute `ColumnRow` |
| `Scanline.ScannedRows` | AI/Vision/src/runningvision.py:414-437 | `lj` has one entry per scanline and entry k is the row recorded for column `li[k]` |
| `Scanline.WeightedMean` | AI/Vision/src/runningvision.py:447-455 | `s/n` is -1 when `n` is 0 (the caught ZeroDivisionError), and otherwise the floor quotient of `s` by `n`, for either sign of `n` |
| `Scanline.DotBetween` | AI/Vision/src/runningvision.py:439-445 | with non-negative rows, `n` is non-negative and `s` lies between `li_min*n` and `li_max*n` |
| `Scanline.WeightedMeanBetween` | AI/Vision/src/runningvision.py:439-453 | when `n > 0`, `s/n` lies between the first and the last scanline position |
| `Scanline.EqualRowsGiveMeanColumn` | AI/Vision/src/runningvision.py:439-453 | when all columns record the same row b > 0, the weights cancel and the heading is the plain mean of the positions |
| `Scanline.LevelBoundaryHeading` | AI/Vision/src/runningvision.py:404-455 | for a mask whose seven columns all change from foreground to background at the same row b > 0, the heading is the mean of the seven positions |
| `Scanline.BottomUpColumnRecordsZero` | AI/Vision/src/runningvision.py:417-437 | a column that is background from the top down to some row and foreground below it gets 0 as its recorded row |
| `Scanline.BottomUpMaskHeading` | AI/Vision/src/runningvision.py:404-455 | when all seven scanlines are background above and foreground below, the heading is -1 |
| `Scanline.SwerveHeading` | AI/Vision/src/runningvision.py:404-455 | the result is -1 for an empty mask, and otherwise -1 exactly when every recorded row is 0; any other result lies in [li[0], li[6]] |
| `Scanline.ScanColumns` | AI/Vision/src/runningvision.py:414-437 | the loop over the scanlines fills `lj` with the row recorded for each column, in order |
| `Scanline.Accumulate` | AI/Vision/src/runningvision.py:439-445 | the accumulator loop leaves `s` = sum of `li[i] * lj[i]` and `n` = sum of `lj[i]` |
| `Scanline.SwerveRunning` | AI/Vision/src/runningvision.py:404-455 | the column loop, the accumulator loop and the guarded division compute `SwerveHeading` |
| `RegionTracker.ArgMax` | AI/Vision/src/runningvision.py:352 | the index returned holds the largest area and every earlier index holds a strictly smaller one, as `np.argmax` does |
| `RegionTracker.Areas` | AI/Vision/src/runningvision.py:350 | the area list has one entry per contour, equal to that contour's area |
| `RegionTracker.Centroid` | AI/Vision/src/runningvision.py:358-370 | `m00 == 0` gives (-1,-1), the caught ZeroDivisionError; otherwise each coordinate is the moment quotient rounded toward zero |
| `RegionTracker.Track` | AI/Vision/src/runningvision.py:343-370 | no contours give (-1,-1); otherwise the result is the centroid of the first contour of largest area, or (-1,-1) when its `m00` is 0 (`StepRunning`, lines 374-400, is the same) |
| `RegionTracker.TrackInFrame` | AI/Vision/src/runningvision.py:356-359 | when the selected contour's moments describe pixels inside a W x H frame, the truncated centroid lies in [0,W] x [0,H] |
| `Decision.Steering` | AI/Vision/src/vision.py:99 | the steering value is the floor of `60 * (W/2 - cx) / W`, with `W/2` also floored |
| `Decision.SteeringRange` | AI/Vision/src/vision.py:99 | steering is 0 for cx = W/2, non-negative exactly when cx <= W/2, and in [-30,30] for even W and 0 <= cx <= W |
| `Decision.SteeringMonotone` | AI/Vision/src/vision.py:99 | a centroid further right never gives a larger steering value |
| `Decision.Decide` | AI/Vision/src/vision.py:89-94 | from state 0 or 1 the cycle ends in 2 exactly when M[0] = -1 and in 1 otherwise; state 2 is kept |
| `Decision.Publish` | AI/Vision/src/vision.py:96-104 | a walking cycle writes OPP01 = OPP02 = 0 and OPP03 = the steering value; the action key ends as 0 when the cycle ends stopped and 21 otherwise; no other key changes |
| `Decision.AfterKey` | AI/Vision/src/vision.py:108-112 | key 'r' restarts from state 0; any other key leaves the state as it is |
| `Decision.CycleStates` | AI/Vision/src/vision.py:89-112 | from a valid state the cycle ends in a valid state, and in state 0 exactly when the key is 'r' |
| `Decision.StartWalksAtOnce` | AI/Vision/src/vision.py:89-92 | a cycle that begins in state 0 decides and writes exactly as one that begins in state 1 |
| `Decision.RunKeepsValidState` | AI/Vision/src/vision.py:53-112 | `STATE` is 0, 1 or 2 after any number of cycles |
| `Decision.StoppedNeverReadsWidth` | AI/Vision/src/vision.py:89-112 | a stopped robot that gets no key 'r' never runs the walking branch, so it never reads the frame width |
| `Decision.StoppedUntilReset` | AI/Vision/src/vision.py:102-112 | once stopped, without a key 'r' the state stays 2 and the last action written is 0 |
| `Decision.LostTrackStops` | AI/Vision/src/vision.py:70-104 | with no contour, or a largest contour with `m00` = 0, a walking cycle ends stopped with action 0 |
| `Decision.Controller.constructor` | AI/Vision/src/vision.py:38-53 | before the loop, the action key holds 0 and `STATE` is 0 |
| `Decision.Controller.Cycle` | AI/Vision/src/vision.py:88-112 | one pass of the loop body: state and blackboard as `Step` gives them, and the loop ends exactly when the key is 'q' |
| `Decision.Controller.Loop` | AI/Vision/src/vision.py:59-112 | the loop over a sequence of inputs ends after the cycle whose key is 'q', with state and blackboard as `Run` gives them |

## Left out

- The Gaussian-weighted mean of the clicked neighbourhood (runningvision.py:79-113) is float `exp` arithmetic and relies on Python's negative-index wrapping. It is an input to `Click` as exact reals. An empty neighbourhood (normaliser 0) becomes `None`: the source computes NaN there and the first `int()` raises before any bound is written.
- Floats are modelled as exact reals. Rounding, NaN and infinities are not modelled, apart from the empty-neighbourhood case above.
- The mouse-move branch of `Segment` (runningvision.py:73-74) only moves the on-screen cursor.
- Frame capture, blur and HSV conversion (runningvision.py:42, 60-67) are camera and library calls. `inRange`, `findContours`, `contourArea` and `moments` are library calls too. The mask is an input array, and each contour is an input record of area and moments.
- The mask may hold any integer. `inRange` only produces 0 and 255, and the tests against 255 and 0 are kept as written.
- The calibration windows (runningvision.py:144-339) and `Run` (runningvision.py:466-515) are display and keyboard loops. Their only effect on the store is `reset`, which is modelled. The scan repeated in `SwerveCalibration` only draws, and it is modelled once as `SwerveRunning`.
- Drawing (`cv2.circle`, `cv2.line`), `imshow`, `resize`, `waitKey` and the prints are display and I/O. The key code is an input of each cycle.
- In vision.py, the shared-memory blackboard, `Servo`, `argparse`, the `os.system` camera call and the calibration calls (vision.py:5-51) are foreign calls or set-up. Blackboard writes are updates of a key-to-value map.
- Decision.Controller.Cycle: requires a frame width above 0 only on a cycle that begins in state 0 or 1. Only those cycles run vision.py:99, which divides by the width without a guard. A zero-width or missing frame there ends the program with an uncaught exception, and that crash is not modelled. A stopped cycle never reads the width and runs on any frame. `Publish` and `Step` require the same. `Run` and `Loop` require a positive width or a run in which no cycle walks.
- Decision.Controller.Loop: runs over a finite sequence of cycle inputs. The source loop runs until 'q' is pressed.
- RegionTracker.TrackInFrame: states that the centroid lies in the frame when the moments are consistent with it, not that it lies inside the region's bounding box, because pixel geometry is not modelled.
