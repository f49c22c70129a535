/** The decision process of the running program (`vision.py`).

    Every cycle the main-track centroid `M` is computed; then the state
    `STATE` is advanced (0 starts walking, 1 walks while the track is seen,
    2 stands still), the steering value and the action code are written to
    the blackboard, and the key read last decides whether the loop ends
    ('q') or starts again from state 0 ('r').  The blackboard is a map from
    key names to the values last written. */
module Decision {
  import opened Numerics
  import RegionTracker

  /** The values of `STATE`. */
  const Start: int := 0
  const Walking: int := 1
  const Stopped: int := 2

  /** Action codes written to `DECISION_ACTION_A`. */
  const WalkAction: int := 21
  const StandAction: int := 0

  /** Key codes `ord('q')` and `ord('r')`. */
  const QuitKey: int := 113
  const RunKey: int := 114

  /** Steering gain of the proportional correction. */
  const Gain: int := 60

  const ActionKey: string := "DECISION_ACTION_A"
  const Opp01Key: string := "VISION_OPP01_DIST"
  const Opp02Key: string := "VISION_OPP02_DIST"
  const Opp03Key: string := "VISION_OPP03_DIST"

  /** A blackboard entry, written with `write_int` or `write_float`. */
  datatype Value = IntValue(i: int) | FloatValue(f: real)

  /** One cycle's inputs: the x coordinate `M[0]` of the main-track
      centroid and the key code `waitKey(20) & 0xFF`. */
  datatype Input = Input(cx: int, key: int)

  /** The loop's state: `STATE` and the blackboard. */
  datatype Snapshot = Snapshot(state: int, board: map<string, Value>)

  predicate ValidState(state: int) {
    state == Start || state == Walking || state == Stopped
  }

  /** `60 * (W / 2 - cx) / W` in Python 2 integer arithmetic, where `W` is
      the frame width. */
  function Steering(width: int, cx: int): (steer: int)
    requires width > 0
    ensures steer * width <= Gain * (FloorDiv(width, 2) - cx) < (steer + 1) * width
  {
    FloorDiv(Gain * (FloorDiv(width, 2) - cx), width)
  }

  /** The steering value is 0 for a centred track, non-negative exactly
      when the track is at or left of the centre, and for an even width and
      a centroid inside the frame it lies in [-30, 30]. */
  lemma SteeringRange(width: int, cx: int)
    requires width > 0
    ensures cx == width / 2 ==> Steering(width, cx) == 0
    ensures Steering(width, cx) >= 0 <==> cx <= width / 2
    ensures width % 2 == 0 && 0 <= cx <= width ==> -30 <= Steering(width, cx) <= 30
  {
    var a := Gain * (width / 2 - cx);
    FloorDivBetween(a, width, -30, 30);
    if width % 2 == 0 && 0 <= cx <= width {
      assert -30 * width <= a <= 30 * width;
    }
  }

  /** A centroid further right never steers further left. */
  lemma SteeringMonotone(width: int, cx1: int, cx2: int)
    requires width > 0 && cx1 <= cx2
    ensures Steering(width, cx2) <= Steering(width, cx1)
  {
    var q1 := Steering(width, cx1);
    assert Gain * (width / 2 - cx2) < (q1 + 1) * width;
    FloorDivBetween(Gain * (width / 2 - cx2), width, q1, q1);
  }

  /** `STATE` after the decision block: state 0 becomes 1 in the same
      cycle, and state 1 becomes 2 when the track is lost (`M[0] == -1`). */
  function Decide(state: int, cx: int): (next: int)
    ensures state == Start || state == Walking ==> (next == Stopped <==> cx == -1)
    ensures state == Start || state == Walking ==> (next == Walking <==> cx != -1)
    ensures state != Start && state != Walking ==> next == state
  {
    var s := if state == Start then Walking else state;
    if s == Walking && cx == -1 then Stopped else s
  }

  /** `STATE` after the key of the cycle: 'r' restarts from state 0. */
  function AfterKey(state: int, key: int): (next: int)
    ensures key == RunKey ==> next == Start
    ensures key != RunKey ==> next == state
  {
    if key == RunKey then Start else state
  }

  predicate Walks(state: int) {
    state == Start || state == Walking
  }

  /** The blackboard after the writes of one cycle that begins in `state`.
      A cycle that walks writes the three distances and action 21; a cycle
      that ends stopped writes action 0 last, also on the cycle where the
      track is lost.  No other key is touched.  Only a cycle that walks
      reads the frame width. */
  function Publish(board: map<string, Value>, state: int, cx: int, width: int): (after: map<string, Value>)
    requires Walks(state) ==> width > 0
    ensures ValidState(state) ==> (ActionKey in after &&
              after[ActionKey] == IntValue(if Decide(state, cx) == Stopped then StandAction else WalkAction))
    ensures Walks(state) ==>
              && Opp01Key in after && after[Opp01Key] == FloatValue(0.0)
              && Opp02Key in after && after[Opp02Key] == FloatValue(0.0)
              && Opp03Key in after && after[Opp03Key] == FloatValue(Steering(width, cx) as real)
    ensures forall k :: k in after <==> (k in board || (k == ActionKey && ValidState(state))
                                         || (Walks(state) && (k == Opp01Key || k == Opp02Key || k == Opp03Key)))
    ensures forall k :: k in board && k != ActionKey && (!Walks(state) || (k != Opp01Key && k != Opp02Key && k != Opp03Key))
              ==> after[k] == board[k]
  {
    var b1 := if Walks(state) then
                board[Opp01Key := FloatValue(0.0)][Opp02Key := FloatValue(0.0)]
                     [Opp03Key := FloatValue(Steering(width, cx) as real)][ActionKey := IntValue(WalkAction)]
              else board;
    if Decide(state, cx) == Stopped then b1[ActionKey := IntValue(StandAction)] else b1
  }

  /** One pass of the `while True` body on a snapshot. */
  function Step(s: Snapshot, input: Input, width: int): Snapshot
    requires Walks(s.state) ==> width > 0
  {
    Snapshot(AfterKey(Decide(s.state, input.cx), input.key),
             Publish(s.board, s.state, input.cx, width))
  }

  /** No cycle of the run begins in state 0 or 1, so the frame width is
      never read: the robot stays stopped until the loop ends. */
  predicate NeverReadsWidth(state: int, inputs: seq<Input>)
    decreases |inputs|
  {
    inputs == [] ||
    (!Walks(state) &&
     (inputs[0].key == QuitKey ||
      NeverReadsWidth(AfterKey(Decide(state, inputs[0].cx), inputs[0].key), inputs[1..])))
  }

  /** The loop over a sequence of cycles; the cycle whose key is 'q' is the last. */
  function Run(s: Snapshot, inputs: seq<Input>, width: int): Snapshot
    requires width > 0 || NeverReadsWidth(s.state, inputs)
    decreases |inputs|
  {
    if inputs == [] then s
    else
      var s1 := Step(s, inputs[0], width);
      if inputs[0].key == QuitKey then s1 else Run(s1, inputs[1..], width)
  }

  /** The cycle ends in state 0 exactly when its key is 'r'; otherwise it
      ends walking or stopped. */
  lemma CycleStates(state: int, input: Input)
    requires ValidState(state)
    ensures ValidState(AfterKey(Decide(state, input.cx), input.key))
    ensures AfterKey(Decide(state, input.cx), input.key) == Start <==> input.key == RunKey
  {
  }

  /** A cycle that begins in state 0 behaves exactly as one that begins in
      state 1: the state-1 logic runs in the same cycle. */
  lemma StartWalksAtOnce(cx: int, width: int)
    requires width > 0
    ensures Decide(Start, cx) == Decide(Walking, cx)
    ensures forall board :: Publish(board, Start, cx, width) == Publish(board, Walking, cx, width)
  {
  }

  /** `STATE` is always 0, 1 or 2, however many cycles run. */
  lemma {:induction false} RunKeepsValidState(s: Snapshot, inputs: seq<Input>, width: int)
    requires width > 0 || NeverReadsWidth(s.state, inputs)
    requires ValidState(s.state)
    ensures ValidState(Run(s, inputs, width).state)
    decreases |inputs|
  {
    if inputs != [] {
      CycleStates(s.state, inputs[0]);
      var s1 := Step(s, inputs[0], width);
      if inputs[0].key != QuitKey {
        RunKeepsValidState(s1, inputs[1..], width);
      }
    }
  }

  /** A stopped robot that gets no key 'r' never reads the frame width, so
      it keeps running on an empty or missing frame. */
  lemma {:induction false} StoppedNeverReadsWidth(inputs: seq<Input>)
    requires forall i :: 0 <= i < |inputs| ==> inputs[i].key != RunKey
    ensures NeverReadsWidth(Stopped, inputs)
    decreases |inputs|
  {
    if inputs != [] && inputs[0].key != QuitKey {
      StoppedNeverReadsWidth(inputs[1..]);
    }
  }

  /** Once stopped, the robot stays stopped and keeps writing action 0 until
      a key 'r' arrives. */
  lemma {:induction false} StoppedUntilReset(s: Snapshot, inputs: seq<Input>, width: int)
    requires width > 0 || NeverReadsWidth(s.state, inputs)
    requires s.state == Stopped
    requires forall i :: 0 <= i < |inputs| ==> inputs[i].key != RunKey
    ensures Run(s, inputs, width).state == Stopped
    ensures inputs != [] ==> (ActionKey in Run(s, inputs, width).board &&
                              Run(s, inputs, width).board[ActionKey] == IntValue(StandAction))
    decreases |inputs|
  {
    if inputs != [] {
      var s1 := Step(s, inputs[0], width);
      assert s1.state == Stopped;
      assert s1.board[ActionKey] == IntValue(StandAction);
      if inputs[0].key != QuitKey {
        StoppedUntilReset(s1, inputs[1..], width);
      }
    }
  }

  /** A lost main track stops the robot in the same cycle: when there are
      no contours, or the largest one has no mass, the tracker returns the
      sentinel and a walking cycle ends stopped with action 0. */
  lemma LostTrackStops(state: int, contours: seq<RegionTracker.Contour>, width: int)
    requires width > 0 && (state == Start || state == Walking)
    requires contours == [] ||
             contours[RegionTracker.ArgMax(RegionTracker.Areas(contours))].m00 == 0.0
    ensures Decide(state, RegionTracker.Track(contours).0) == Stopped
    ensures forall board :: Publish(board, state, RegionTracker.Track(contours).0, width)[ActionKey] == IntValue(StandAction)
  {
    if contours != [] {
      var k := RegionTracker.ArgMax(RegionTracker.Areas(contours));
      assert RegionTracker.Track(contours) == RegionTracker.Missing;
    }
  }

  /** The decision loop of the program. */
  class Controller {
    var state: int
    var board: map<string, Value>

    ghost predicate Valid()
      reads this
    {
      ValidState(state)
    }

    /** The set-up before the loop: action 0 is written and `STATE = 0`. */
    constructor ()
      ensures Valid() && state == Start
      ensures board == map[ActionKey := IntValue(StandAction)]
    {
      board := map[ActionKey := IntValue(StandAction)];
      state := Start;
    }

    /** One cycle: the decision block and the key handling.  Returns true
        when the key is 'q' and the loop ends. */
    method Cycle(cx: int, width: int, key: int) returns (quit: bool)
      requires Valid() && (Walks(state) ==> width > 0)
      modifies this
      ensures Valid()
      ensures quit <==> key == QuitKey
      ensures Snapshot(state, board) == Step(old(Snapshot(state, board)), Input(cx, key), width)
    {
      if state == Start {
        state := Walking;
      }
      if state == Walking {
        if cx == -1 {
          state := Stopped;
        }
        board := board[Opp01Key := FloatValue(0.0)][Opp02Key := FloatValue(0.0)]
                      [Opp03Key := FloatValue(Steering(width, cx) as real)][ActionKey := IntValue(WalkAction)];
      }
      if state == Stopped {
        board := board[ActionKey := IntValue(StandAction)];
      }
      if key == QuitKey {
        return true;
      }
      if key == RunKey {
        state := Start;
      }
      quit := false;
    }

    /** The `while True` loop over the cycles' inputs, ending after the
        cycle whose key is 'q' (or when the inputs run out). */
    method Loop(inputs: seq<Input>, width: int)
      requires Valid() && (width > 0 || NeverReadsWidth(state, inputs))
      modifies this
      ensures Valid()
      ensures Snapshot(state, board) == Run(old(Snapshot(state, board)), inputs, width)
    {
      var i := 0;
      while i < |inputs|
        invariant 0 <= i <= |inputs| && Valid()
        invariant width > 0 || NeverReadsWidth(state, inputs[i..])
        invariant Run(old(Snapshot(state, board)), inputs, width) == Run(Snapshot(state, board), inputs[i..], width)
      {
        var quit := Cycle(inputs[i].cx, width, inputs[i].key);
        if quit {
          return;
        }
        i := i + 1;
      }
    }
  }
}
