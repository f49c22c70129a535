/** The scanline boundary scanner of `SwerveRunning` (its code is repeated in
    `SwerveCalibration`).

    The mask is the binary image `inRange` produces for the swerve target:
    rows count from the top, a pixel is foreground when it is 255.  Seven
    columns evenly spread over the width are probed; in each one a binary
    search over rows narrows a window that is then scanned row by row for
    the first foreground pixel whose lower neighbour is background (0).  The
    heading is the mean of the column positions weighted by the rows found. */
module Scanline {
  import opened Numerics

  const ColumnCount: nat := 7
  const Foreground: int := 255
  const Background: int := 0
  /** Below this window height the binary search gives way to a linear scan. */
  const Resolution: int := 30

  /** The x coordinates `li[k] = k * dx + dx / 2`, `dx = W / 7`, of the
      seven scanlines of a frame `w` pixels wide. */
  function Columns(w: nat): (li: seq<int>)
    ensures |li| == ColumnCount
    ensures forall k :: 0 <= k < ColumnCount ==> 0 <= li[k] && (w >= 1 ==> li[k] < w)
    ensures forall k, l :: 0 <= k < l < ColumnCount ==> li[k] <= li[l]
    ensures w >= ColumnCount ==> forall k, l :: 0 <= k < l < ColumnCount ==> li[k] < li[l]
  {
    var dx := w / 7;
    [dx / 2, dx + dx / 2, 2 * dx + dx / 2, 3 * dx + dx / 2,
     4 * dx + dx / 2, 5 * dx + dx / 2, 6 * dx + dx / 2]
  }

  /** Row `j` of column `x` is foreground and the row below it is background. */
  predicate IsTransition(mask: array2<int>, x: int, j: int)
    requires 0 <= x < mask.Length1
    reads mask
  {
    0 <= j && j + 1 < mask.Length0 && mask[j, x] == Foreground && mask[j + 1, x] == Background
  }

  /** Column `x` is the shape the binary search is written for: foreground
      from the top row down to row `b`, background below it. */
  ghost predicate StepBoundary(mask: array2<int>, x: int, b: int)
    requires 0 <= x < mask.Length1
    reads mask
  {
    && 0 <= b < mask.Length0 - 1
    && (forall r :: 0 <= r <= b ==> mask[r, x] == Foreground)
    && (forall r :: b < r < mask.Length0 ==> mask[r, x] == Background)
  }

  /** The linear scan over rows `[lo, hi)`: the first transition row, or 0
      when there is none. */
  function FirstTransition(mask: array2<int>, x: int, lo: int, hi: int): (j: int)
    requires 0 <= x < mask.Length1 && 0 <= lo && hi < mask.Length0
    reads mask
    ensures j == 0 || (lo <= j < hi && IsTransition(mask, x, j))
    ensures forall k :: lo <= k < hi && IsTransition(mask, x, k) ==>
              lo <= j <= k && IsTransition(mask, x, j)
    ensures (forall k :: lo <= k < hi ==> !IsTransition(mask, x, k)) ==> j == 0
    decreases hi - lo
  {
    if lo >= hi then 0
    else if mask[lo, x] == Foreground && mask[lo + 1, x] == Background then lo
    else FirstTransition(mask, x, lo + 1, hi)
  }

  /** The `while True` binary search: from the window `[up, down]` it probes
      the middle row, moves `up` there on foreground and `down` there
      otherwise, and stops once the window is narrower than `Resolution`.
      Each step strictly shrinks a window of height at least 2, and on a
      column of the expected shape the boundary row never leaves the window. */
  function Bisect(mask: array2<int>, x: int, up: int, down: int): (w: (int, int))
    requires 0 <= x < mask.Length1 && 0 <= up <= down < mask.Length0
    reads mask
    ensures up <= w.0 <= w.1 <= down
    ensures w.1 - w.0 < Resolution
    ensures forall b :: up <= b < down && StepBoundary(mask, x, b) ==> w.0 <= b < w.1
    decreases down - up
  {
    var p := (down + up) / 2;
    var u := if mask[p, x] == Foreground then p else up;
    var d := if mask[p, x] == Foreground then down else p;
    if d - u < Resolution then (u, d) else Bisect(mask, x, u, d)
  }

  /** The boundary row `lj[i]` that the scan records for column `x`.  It is
      0 or a transition row, and on a column of the expected shape it is
      exactly that column's boundary. */
  function ColumnRow(mask: array2<int>, x: int): (row: int)
    requires 0 <= x < mask.Length1 && 0 < mask.Length0
    reads mask
    ensures row == 0 || IsTransition(mask, x, row)
    ensures 0 <= row < mask.Length0
    ensures forall b :: StepBoundary(mask, x, b) ==> row == b
  {
    var w := Bisect(mask, x, 0, mask.Length0 - 1);
    var row := FirstTransition(mask, x, w.0, w.1);
    assert forall b :: StepBoundary(mask, x, b) ==> row == b by {
      forall b | StepBoundary(mask, x, b) ensures row == b {
        assert IsTransition(mask, x, b);
        StepHasOneTransition(mask, x, b, row);
      }
    }
    row
  }

  /** A column of the expected shape has exactly one transition row. */
  lemma StepHasOneTransition(mask: array2<int>, x: int, b: int, j: int)
    requires 0 <= x < mask.Length1
    requires StepBoundary(mask, x, b) && IsTransition(mask, x, j)
    ensures j == b
  {
  }

  /** The scan of one column, as the source writes it. */
  method ScanColumn(mask: array2<int>, x: int) returns (row: int)
    requires 0 <= x < mask.Length1 && 0 < mask.Length0
    ensures row == ColumnRow(mask, x)
  {
    var up, down := 0, mask.Length0 - 1;
    ghost var window := Bisect(mask, x, up, down);
    row := 0;
    while true
      invariant 0 <= up <= down < mask.Length0
      invariant Bisect(mask, x, up, down) == window
      decreases down - up
    {
      var p := (down + up) / 2;
      if mask[p, x] == Foreground {
        up := p;
      } else {
        down := p;
      }
      if down - up < Resolution {
        assert (up, down) == window;
        for j := up to down
          invariant row == 0
          invariant forall k :: up <= k < j ==> !IsTransition(mask, x, k)
        {
          if mask[j, x] == Foreground && mask[j + 1, x] == Background {
            row := j;
            assert IsTransition(mask, x, row);
            assert row == FirstTransition(mask, x, up, down);
            break;
          }
        }
        assert row == FirstTransition(mask, x, up, down);
        break;
      }
    }
  }

  function Sum(lj: seq<int>): int
  {
    if lj == [] then 0 else Sum(lj[..|lj| - 1]) + lj[|lj| - 1]
  }

  function Dot(li: seq<int>, lj: seq<int>): int
    requires |li| == |lj|
  {
    if lj == [] then 0
    else Dot(li[..|li| - 1], lj[..|lj| - 1]) + li[|li| - 1] * lj[|lj| - 1]
  }

  /** `s / n` with `s = sum li[i] * lj[i]` and `n = sum lj[i]`, or -1 when
      `n` is 0 (the ZeroDivisionError is caught). */
  function WeightedMean(li: seq<int>, lj: seq<int>): (m: int)
    requires |li| == |lj|
    ensures Sum(lj) == 0 ==> m == -1
    ensures Sum(lj) > 0 ==> m * Sum(lj) <= Dot(li, lj) < (m + 1) * Sum(lj)
    ensures Sum(lj) < 0 ==> (m + 1) * Sum(lj) < Dot(li, lj) <= m * Sum(lj)
  {
    if Sum(lj) == 0 then -1 else FloorDiv(Dot(li, lj), Sum(lj))
  }

  /** The rows `lj` found for the columns `li`. */
  function ScannedRows(mask: array2<int>, li: seq<int>): (lj: seq<int>)
    requires 0 < mask.Length0
    requires forall k :: 0 <= k < |li| ==> 0 <= li[k] < mask.Length1
    reads mask
    ensures |lj| == |li|
    ensures forall k :: 0 <= k < |li| ==> lj[k] == ColumnRow(mask, li[k])
  {
    if li == [] then []
    else ScannedRows(mask, li[..|li| - 1]) + [ColumnRow(mask, li[|li| - 1])]
  }

  /** Non-negative weights keep a weighted sum between the smallest and
      the largest value times the total weight. */
  lemma {:induction false} DotBetween(li: seq<int>, lj: seq<int>, lo: int, hi: int)
    requires |li| == |lj|
    requires forall k :: 0 <= k < |li| ==> lo <= li[k] <= hi && 0 <= lj[k]
    ensures 0 <= Sum(lj)
    ensures lo * Sum(lj) <= Dot(li, lj) <= hi * Sum(lj)
  {
    if lj != [] {
      var n := |lj| - 1;
      var li0, lj0 := li[..n], lj[..n];
      DotBetween(li0, lj0, lo, hi);
      var w, d := Sum(lj0), Dot(li0, lj0);
      assert Sum(lj) == w + lj[n];
      assert Dot(li, lj) == d + li[n] * lj[n];
      MulMonotone(lo, li[n], lj[n]);
      MulMonotone(li[n], hi, lj[n]);
      Distribute(lo, w, lj[n]);
      Distribute(hi, w, lj[n]);
    }
  }

  /** Multiplication distributes over a sum. */
  lemma Distribute(a: int, x: int, y: int)
    ensures a * (x + y) == a * x + a * y
  {
  }

  /** The weighted mean of non-negative weights is -1 exactly when every
      weight is 0, and otherwise lies between the first and the last of
      non-decreasing positions. */
  lemma WeightedMeanBetween(li: seq<int>, lj: seq<int>)
    requires |li| == |lj| > 0
    requires forall k :: 0 <= k < |lj| ==> 0 <= lj[k]
    requires forall k :: 0 <= k < |li| ==> li[0] <= li[k] <= li[|li| - 1]
    ensures Sum(lj) > 0 ==> li[0] <= WeightedMean(li, lj) <= li[|li| - 1]
  {
    var lo, hi := li[0], li[|li| - 1];
    DotBetween(li, lj, lo, hi);
    if Sum(lj) > 0 {
      FloorDivBetween(Dot(li, lj), Sum(lj), lo, hi);
    }
  }

  /** Equal weights factor out of the weighted sum. */
  lemma {:induction false} DotEqualWeights(li: seq<int>, lj: seq<int>, b: int)
    requires |li| == |lj|
    requires forall k :: 0 <= k < |lj| ==> lj[k] == b
    ensures Dot(li, lj) == b * Sum(li)
    ensures Sum(lj) == b * |lj|
  {
    if lj != [] {
      var n := |lj| - 1;
      DotEqualWeights(li[..n], lj[..n], b);
    }
  }

  /** When every column reports the same row, the weights cancel and the
      heading is the plain mean of the column positions. */
  lemma EqualRowsGiveMeanColumn(li: seq<int>, lj: seq<int>, b: int)
    requires |li| == |lj| > 0 && b > 0
    requires forall k :: 0 <= k < |lj| ==> lj[k] == b
    ensures WeightedMean(li, lj) == FloorDiv(Sum(li), |li|)
  {
    DotEqualWeights(li, lj, b);
    FloorDivCancel(Sum(li), |li|, b);
  }

  /** What `SwerveRunning` returns for a mask: -1 when the mask is empty
      (the first probe raises IndexError) or when every column's row is 0,
      and otherwise the weighted mean, which lies between the first and the
      last scanline. */
  function SwerveHeading(mask: array2<int>): (heading: int)
    reads mask
    ensures mask.Length0 == 0 || mask.Length1 == 0 ==> heading == -1
    ensures mask.Length0 > 0 && mask.Length1 > 0 ==>
              (heading == -1 <==> Sum(ScannedRows(mask, Columns(mask.Length1))) == 0)
    ensures heading == -1 ||
              Columns(mask.Length1)[0] <= heading <= Columns(mask.Length1)[ColumnCount - 1]
  {
    if mask.Length0 == 0 || mask.Length1 == 0 then -1
    else
      var li := Columns(mask.Length1);
      var lj := ScannedRows(mask, li);
      WeightedMeanBetween(li, lj);
      DotBetween(li, lj, li[0], li[ColumnCount - 1]);
      WeightedMean(li, lj)
  }

  /** A level boundary: when every scanline sees foreground down to the same
      row `b > 0` and background below it, the heading is the mean of the
      seven column positions. */
  lemma LevelBoundaryHeading(mask: array2<int>, b: int)
    requires mask.Length0 > 0 && mask.Length1 > 0 && b > 0
    requires forall k :: 0 <= k < ColumnCount ==> StepBoundary(mask, Columns(mask.Length1)[k], b)
    ensures SwerveHeading(mask) == FloorDiv(Sum(Columns(mask.Length1)), ColumnCount)
  {
    var li := Columns(mask.Length1);
    EqualRowsGiveMeanColumn(li, ScannedRows(mask, li), b);
  }

  /** The column loop of `SwerveRunning`: one scan per scanline. */
  method ScanColumns(mask: array2<int>, li: seq<int>) returns (lj: seq<int>)
    requires 0 < mask.Length0
    requires forall k :: 0 <= k < |li| ==> 0 <= li[k] < mask.Length1
    ensures lj == ScannedRows(mask, li)
  {
    lj := seq(|li|, k => 0);
    for i := 0 to |li|
      invariant |lj| == |li|
      invariant forall k :: 0 <= k < i ==> lj[k] == ColumnRow(mask, li[k])
    {
      var row := ScanColumn(mask, li[i]);
      lj := lj[i := row];
    }
  }

  /** The accumulator loop of `SwerveRunning`: `s` is the weighted sum of
      the positions and `n` the total weight. */
  method Accumulate(li: seq<int>, lj: seq<int>) returns (s: int, n: int)
    requires |li| == |lj|
    ensures s == Dot(li, lj) && n == Sum(lj)
  {
    s, n := 0, 0;
    for i := 0 to |li|
      invariant s == Dot(li[..i], lj[..i])
      invariant n == Sum(lj[..i])
    {
      assert li[..i + 1][..i] == li[..i] && lj[..i + 1][..i] == lj[..i];
      s := s + li[i] * lj[i];
      n := n + lj[i];
    }
    assert li[..|li|] == li && lj[..|lj|] == lj;
  }

  /** Column `x` rises from the bottom edge: background from the top row
      down to row `b` and foreground below it (`b = -1`: all foreground). */
  ghost predicate RisesFromBottom(mask: array2<int>, x: int, b: int)
    requires 0 <= x < mask.Length1
    reads mask
  {
    && -1 <= b < mask.Length0
    && (forall r :: 0 <= r <= b ==> mask[r, x] == Background)
    && (forall r :: b < r < mask.Length0 ==> mask[r, x] == Foreground)
  }

  /** A column that rises from the bottom edge has no foreground row above
      a background row, so the scan records 0 for it. */
  lemma BottomUpColumnRecordsZero(mask: array2<int>, x: int, b: int)
    requires 0 <= x < mask.Length1 && 0 < mask.Length0
    requires RisesFromBottom(mask, x, b)
    ensures ColumnRow(mask, x) == 0
  {
  }

  /** On a mask whose seven scanlines all rise from the bottom edge, every
      recorded row is 0 and the heading is -1 on every such frame. */
  lemma BottomUpMaskHeading(mask: array2<int>, bs: seq<int>)
    requires mask.Length0 > 0 && mask.Length1 > 0 && |bs| == ColumnCount
    requires forall k :: 0 <= k < ColumnCount ==> RisesFromBottom(mask, Columns(mask.Length1)[k], bs[k])
    ensures SwerveHeading(mask) == -1
  {
    var li := Columns(mask.Length1);
    var lj := ScannedRows(mask, li);
    forall k | 0 <= k < ColumnCount
      ensures lj[k] == 0
    {
      BottomUpColumnRecordsZero(mask, li[k], bs[k]);
    }
    DotEqualWeights(li, lj, 0);
  }

  /** `SwerveRunning`: scan the seven columns, then take the weighted mean. */
  method SwerveRunning(mask: array2<int>) returns (heading: int)
    ensures heading == SwerveHeading(mask)
  {
    var h, w := mask.Length0, mask.Length1;
    if h == 0 || w == 0 {
      return -1;
    }
    var li := Columns(w);
    var lj := ScanColumns(mask, li);
    var s, n := Accumulate(li, lj);
    if n == 0 {
      heading := -1;
    } else {
      heading := FloorDiv(s, n);
    }
  }
}
