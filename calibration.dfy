/** The colour-range store of `RunVision` and its calibration update.

    Each of the three targets (the main track, the step marker and the swerve
    marker) has an HSV box: a lower and an upper bound per channel.  A click
    during calibration widens the box of one target around the Gaussian
    weighted mean of the clicked neighbourhood; `reset` restores the inverted,
    empty box.  The mean itself (a float computation over the frame) is an
    input here. */
module Calibration {
  import opened Numerics

  const Channels: nat := 3
  const ChannelMax: int := 255

  datatype Target = Main | Step | Swerve

  /** An HSV box: `lower` and `upper` hold one bound per channel. */
  datatype Box = Box(lower: seq<int>, upper: seq<int>)

  /** The box `reset` installs: lower `[255,255,255]`, upper `[0,0,0]`. */
  const Empty: Box := Box([ChannelMax, ChannelMax, ChannelMax], [0, 0, 0])

  predicate WellFormed(b: Box) {
    |b.lower| == Channels && |b.upper| == Channels
  }

  /** A calibration mean has one float per channel. */
  predicate IsMean(m: seq<real>) {
    |m| == Channels
  }

  predicate AllMeans(ms: seq<seq<real>>) {
    forall i :: 0 <= i < |ms| ==> IsMean(ms[i])
  }

  /** Every bound of the box is a valid 8-bit channel value. */
  predicate InRange(b: Box)
    requires WellFormed(b)
  {
    forall c :: 0 <= c < Channels ==>
      0 <= b.lower[c] <= ChannelMax && 0 <= b.upper[c] <= ChannelMax
  }

  /** `outer` contains `inner`, channel by channel. */
  predicate Within(inner: Box, outer: Box)
    requires WellFormed(inner) && WellFormed(outer)
  {
    forall c :: 0 <= c < Channels ==>
      outer.lower[c] <= inner.lower[c] && inner.upper[c] <= outer.upper[c]
  }

  /** Target selected by the `param` of the mouse callback. */
  function TargetOfParam(param: string): (t: Option<Target>)
    ensures t == Some(Main) <==> param == "MAIN"
    ensures t == Some(Step) <==> param == "STEP"
    ensures t == Some(Swerve) <==> param == "SWERVE"
  {
    if param == "MAIN" then Some(Main)
    else if param == "STEP" then Some(Step)
    else if param == "SWERVE" then Some(Swerve)
    else None
  }

  /** Target selected by the argument of `reset`. */
  function TargetOfIndex(x: int): (t: Option<Target>)
    ensures t.None? <==> !(0 <= x <= 2)
    ensures t == Some(Main) <==> x == 0
    ensures t == Some(Step) <==> x == 1
    ensures t == Some(Swerve) <==> x == 2
  {
    if x == 0 then Some(Main)
    else if x == 1 then Some(Step)
    else if x == 2 then Some(Swerve)
    else None
  }

  /** The sample's own upper bound: `min(m + thrs, 255)`, truncated. */
  function SampleUpper(m: real, thrs: int): int {
    Trunc(Min(m + thrs as real, ChannelMax as real))
  }

  /** The sample's own lower bound: `max(m - thrs, 0)`, truncated. */
  function SampleLower(m: real, thrs: int): int {
    Trunc(Max(m - thrs as real, 0.0))
  }

  /** New upper bound of one channel, `int(max(min(m + thrs, 255), upper))`:
      the larger of the old bound and the sample's own upper bound. */
  function WidenUpper(m: real, thrs: int, upper: int): (r: int)
    ensures upper <= r
    ensures SampleUpper(m, thrs) <= r
    ensures r == upper || r == SampleUpper(m, thrs)
    ensures 0 <= upper <= ChannelMax ==> 0 <= r <= ChannelMax
  {
    TruncMaxInt(Min(m + thrs as real, ChannelMax as real), upper);
    Trunc(Max(Min(m + thrs as real, ChannelMax as real), upper as real))
  }

  /** New lower bound of one channel, `int(min(max(m - thrs, 0), lower))`:
      the smaller of the old bound and the sample's own lower bound. */
  function WidenLower(m: real, thrs: int, lower: int): (r: int)
    ensures r <= lower
    ensures r <= SampleLower(m, thrs)
    ensures r == lower || r == SampleLower(m, thrs)
    ensures 0 <= lower <= ChannelMax ==> 0 <= r <= ChannelMax
  {
    TruncMinInt(Max(m - thrs as real, 0.0), lower);
    Trunc(Min(Max(m - thrs as real, 0.0), lower as real))
  }

  /** The box after one click with mean `m`: it contains the old box and
      the sample's own interval, channel by channel. */
  function ClickBox(b: Box, m: seq<real>, thrs: int): (r: Box)
    requires WellFormed(b) && IsMean(m)
    ensures WellFormed(r)
    ensures Within(b, r)
    ensures forall c :: 0 <= c < Channels ==>
              r.lower[c] <= SampleLower(m[c], thrs) && SampleUpper(m[c], thrs) <= r.upper[c]
  {
    Box([WidenLower(m[0], thrs, b.lower[0]),
         WidenLower(m[1], thrs, b.lower[1]),
         WidenLower(m[2], thrs, b.lower[2])],
        [WidenUpper(m[0], thrs, b.upper[0]),
         WidenUpper(m[1], thrs, b.upper[1]),
         WidenUpper(m[2], thrs, b.upper[2])])
  }

  /** The box after a sequence of clicks on the same target, in order. */
  function Clicks(b: Box, ms: seq<seq<real>>, thrs: int): (r: Box)
    requires WellFormed(b) && AllMeans(ms)
    ensures WellFormed(r)
    decreases |ms|
  {
    if ms == [] then b else Clicks(ClickBox(b, ms[0], thrs), ms[1..], thrs)
  }

  /** Across any sequence of clicks every upper bound only grows and every
      lower bound only shrinks. */
  lemma {:induction false} ClicksWiden(b: Box, ms: seq<seq<real>>, thrs: int)
    requires WellFormed(b) && AllMeans(ms)
    ensures Within(b, Clicks(b, ms, thrs))
    decreases |ms|
  {
    if ms != [] {
      ClicksWiden(ClickBox(b, ms[0], thrs), ms[1..], thrs);
    }
  }

  /** Clicking `ms1` and then `ms2` is clicking their concatenation. */
  lemma {:induction false} ClicksAppend(b: Box, ms1: seq<seq<real>>, ms2: seq<seq<real>>, thrs: int)
    requires WellFormed(b) && AllMeans(ms1) && AllMeans(ms2)
    ensures AllMeans(ms1 + ms2)
    ensures Clicks(b, ms1 + ms2, thrs) == Clicks(Clicks(b, ms1, thrs), ms2, thrs)
    decreases |ms1|
  {
    if ms1 == [] {
      assert ms1 + ms2 == ms2;
    } else {
      assert (ms1 + ms2)[1..] == ms1[1..] + ms2;
      ClicksAppend(ClickBox(b, ms1[0], thrs), ms1[1..], ms2, thrs);
    }
  }

  /** Monotonicity along the history: the box seen after the first `i` clicks
      lies within the box seen after the first `j` clicks, for `i <= j`. */
  lemma ClicksMonotone(b: Box, ms: seq<seq<real>>, thrs: int, i: nat, j: nat)
    requires WellFormed(b) && AllMeans(ms)
    requires i <= j <= |ms|
    ensures Within(Clicks(b, ms[..i], thrs), Clicks(b, ms[..j], thrs))
  {
    assert ms[..j] == ms[..i] + ms[i..j];
    ClicksAppend(b, ms[..i], ms[i..j], thrs);
    ClicksWiden(Clicks(b, ms[..i], thrs), ms[i..j], thrs);
  }

  /** Bounds that start as valid channel values stay valid channel values,
      whatever the means and the threshold. */
  lemma {:induction false} ClicksStayInRange(b: Box, ms: seq<seq<real>>, thrs: int)
    requires WellFormed(b) && AllMeans(ms) && InRange(b)
    ensures InRange(Clicks(b, ms, thrs))
    decreases |ms|
  {
    if ms != [] {
      ClicksStayInRange(ClickBox(b, ms[0], thrs), ms[1..], thrs);
    }
  }

  /** The final box contains every clicked sample's own interval
      `[max(m - thrs, 0), min(m + thrs, 255)]` (truncated). */
  lemma {:induction false} ClicksCover(b: Box, ms: seq<seq<real>>, thrs: int, i: nat, c: nat)
    requires WellFormed(b) && AllMeans(ms)
    requires i < |ms| && c < Channels
    ensures Clicks(b, ms, thrs).lower[c] <= SampleLower(ms[i][c], thrs)
    ensures SampleUpper(ms[i][c], thrs) <= Clicks(b, ms, thrs).upper[c]
    decreases |ms|
  {
    var b1 := ClickBox(b, ms[0], thrs);
    assert Clicks(b, ms, thrs) == Clicks(b1, ms[1..], thrs);
    if i == 0 {
      ClicksWiden(b1, ms[1..], thrs);
    } else {
      assert ms[1..][i - 1] == ms[i];
      ClicksCover(b1, ms[1..], thrs, i - 1, c);
    }
  }

  /** Each final bound is either the starting bound or the bound of one of
      the clicked samples: with `ClicksCover`, the final box is exactly the
      union hull of the starting box and the samples' intervals. */
  lemma {:induction false} ClicksAttained(b: Box, ms: seq<seq<real>>, thrs: int, c: nat)
    requires WellFormed(b) && AllMeans(ms) && c < Channels
    ensures var r := Clicks(b, ms, thrs);
      r.upper[c] == b.upper[c] || exists i :: 0 <= i < |ms| && r.upper[c] == SampleUpper(ms[i][c], thrs)
    ensures var r := Clicks(b, ms, thrs);
      r.lower[c] == b.lower[c] || exists i :: 0 <= i < |ms| && r.lower[c] == SampleLower(ms[i][c], thrs)
    decreases |ms|
  {
    if ms != [] {
      var b1 := ClickBox(b, ms[0], thrs);
      ClicksAttained(b1, ms[1..], thrs, c);
      var r := Clicks(b, ms, thrs);
      if r.upper[c] != b1.upper[c] {
        var k :| 0 <= k < |ms[1..]| && r.upper[c] == SampleUpper(ms[1..][k][c], thrs);
        assert ms[1..][k] == ms[k + 1];
      } else if r.upper[c] != b.upper[c] {
        assert r.upper[c] == SampleUpper(ms[0][c], thrs);
      }
      if r.lower[c] != b1.lower[c] {
        var k :| 0 <= k < |ms[1..]| && r.lower[c] == SampleLower(ms[1..][k][c], thrs);
        assert ms[1..][k] == ms[k + 1];
      } else if r.lower[c] != b.lower[c] {
        assert r.lower[c] == SampleLower(ms[0][c], thrs);
      }
    }
  }

  /** The first click after a reset establishes exactly the sample's own
      interval: `upper = int(min(m + thrs, 255))`, `lower = int(max(m - thrs, 0))`. */
  lemma ClickAfterReset(m: seq<real>, thrs: int)
    requires IsMean(m) && thrs >= 0
    requires forall c :: 0 <= c < Channels ==> 0.0 <= m[c] <= ChannelMax as real
    ensures ClickBox(Empty, m, thrs) ==
      Box([SampleLower(m[0], thrs), SampleLower(m[1], thrs), SampleLower(m[2], thrs)],
          [SampleUpper(m[0], thrs), SampleUpper(m[1], thrs), SampleUpper(m[2], thrs)])
  {
    forall c | 0 <= c < Channels
      ensures WidenLower(m[c], thrs, ChannelMax) == SampleLower(m[c], thrs)
      ensures WidenUpper(m[c], thrs, 0) == SampleUpper(m[c], thrs)
    {
      TruncMonotone(Max(m[c] - thrs as real, 0.0), ChannelMax as real);
      TruncMonotone(0.0, Min(m[c] + thrs as real, ChannelMax as real));
    }
  }

  /** The store of `RunVision`: one lower and one upper array of three
      channels per target, and the click threshold `thrs`. */
  class RunVision {
    var mainLower: array<int>
    var mainUpper: array<int>
    var stepLower: array<int>
    var stepUpper: array<int>
    var swerveLower: array<int>
    var swerveUpper: array<int>
    const thrs: int

    /** Every bound array has three channels and no two of them are shared. */
    ghost predicate Valid()
      reads this
    {
      && mainLower.Length == Channels && mainUpper.Length == Channels
      && stepLower.Length == Channels && stepUpper.Length == Channels
      && swerveLower.Length == Channels && swerveUpper.Length == Channels
      && mainLower != mainUpper && mainLower != stepLower && mainLower != stepUpper
      && mainLower != swerveLower && mainLower != swerveUpper
      && mainUpper != stepLower && mainUpper != stepUpper
      && mainUpper != swerveLower && mainUpper != swerveUpper
      && stepLower != stepUpper && stepLower != swerveLower && stepLower != swerveUpper
      && stepUpper != swerveLower && stepUpper != swerveUpper
      && swerveLower != swerveUpper
    }

    /** The box currently stored for target `t`. */
    ghost function Bounds(t: Target): (b: Box)
      reads this, mainLower, mainUpper, stepLower, stepUpper, swerveLower, swerveUpper
    {
      match t
      case Main => Box(mainLower[..], mainUpper[..])
      case Step => Box(stepLower[..], stepUpper[..])
      case Swerve => Box(swerveLower[..], swerveUpper[..])
    }

    /** `__init__`: all three boxes start empty (the camera is not modelled). */
    constructor (threshold: int)
      ensures Valid() && thrs == threshold
      ensures forall t :: Bounds(t) == Empty
      ensures fresh(mainLower) && fresh(mainUpper) && fresh(stepLower)
      ensures fresh(stepUpper) && fresh(swerveLower) && fresh(swerveUpper)
    {
      mainLower := new int[][ChannelMax, ChannelMax, ChannelMax];
      mainUpper := new int[][0, 0, 0];
      stepLower := new int[][ChannelMax, ChannelMax, ChannelMax];
      stepUpper := new int[][0, 0, 0];
      swerveLower := new int[][ChannelMax, ChannelMax, ChannelMax];
      swerveUpper := new int[][0, 0, 0];
      thrs := threshold;
    }

    /** `reset(x)`: target `x` gets new arrays holding the empty box; an
        index other than 0, 1, 2 changes nothing. */
    method Reset(x: int)
      requires Valid()
      modifies this
      ensures Valid()
      ensures forall t :: Bounds(t) == if TargetOfIndex(x) == Some(t) then Empty else old(Bounds(t))
      ensures x == 0 ==> fresh(mainLower) && fresh(mainUpper)
      ensures x == 1 ==> fresh(stepLower) && fresh(stepUpper)
      ensures x == 2 ==> fresh(swerveLower) && fresh(swerveUpper)
    {
      if x == 0 {
        mainLower := new int[][ChannelMax, ChannelMax, ChannelMax];
        mainUpper := new int[][0, 0, 0];
      } else if x == 1 {
        stepLower := new int[][ChannelMax, ChannelMax, ChannelMax];
        stepUpper := new int[][0, 0, 0];
      } else if x == 2 {
        swerveLower := new int[][ChannelMax, ChannelMax, ChannelMax];
        swerveUpper := new int[][0, 0, 0];
      }
    }

    /** The click branch of `Segment` with callback parameter `param`.
        `mean` is the weighted mean of the clicked neighbourhood, or `None`
        when no neighbour lies in the frame (the normaliser is 0, the mean
        is NaN and the first `int()` raises before any bound is written).
        Only the box of the target that `param` names changes. */
    method Click(param: string, mean: Option<seq<real>>)
      requires Valid()
      requires mean.Some? ==> IsMean(mean.value)
      modifies mainLower, mainUpper, stepLower, stepUpper, swerveLower, swerveUpper
      ensures Valid()
      ensures forall t ::
                Bounds(t) == if mean.Some? && TargetOfParam(param) == Some(t)
                             then ClickBox(old(Bounds(t)), mean.value, thrs)
                             else old(Bounds(t))
    {
      if mean.None? {
        return;
      }
      var m := mean.value;
      // The three parameters are distinct strings, so at most one branch runs.
      match TargetOfParam(param)
      case Some(Main) => Widen(mainLower, mainUpper, m);
      case Some(Step) => Widen(stepLower, stepUpper, m);
      case Some(Swerve) => Widen(swerveLower, swerveUpper, m);
      case None =>
    }

    /** The six assignments of one branch of `Segment`, in source order. */
    method Widen(lower: array<int>, upper: array<int>, m: seq<real>)
      requires lower.Length == Channels && upper.Length == Channels
      requires lower != upper && IsMean(m)
      modifies lower, upper
      ensures Box(lower[..], upper[..]) ==
        ClickBox(Box(old(lower[..]), old(upper[..])), m, thrs)
    {
      upper[0] := WidenUpper(m[0], thrs, upper[0]);
      lower[0] := WidenLower(m[0], thrs, lower[0]);
      upper[1] := WidenUpper(m[1], thrs, upper[1]);
      lower[1] := WidenLower(m[1], thrs, lower[1]);
      upper[2] := WidenUpper(m[2], thrs, upper[2]);
      lower[2] := WidenLower(m[2], thrs, lower[2]);
    }
  }
}
