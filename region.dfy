/** The region tracker of `MainRunning` and `StepRunning`: of the contours
    found in the mask, take the first one of largest area and return its
    centroid from the first-order moments, or the sentinel (-1, -1).

    Contour extraction, `contourArea` and `moments` are library calls; each
    contour is given here by its area and its moments `m00`, `m10`, `m01`. */
module RegionTracker {
  import opened Numerics

  datatype Contour = Contour(area: real, m00: real, m10: real, m01: real)

  /** The failure result `(-1, -1)`. */
  const Missing: (int, int) := (-1, -1)

  /** `k` is the first index holding the largest value: what `np.argmax` returns. */
  ghost predicate IsFirstMax(areas: seq<real>, k: int) {
    && 0 <= k < |areas|
    && (forall j :: 0 <= j < |areas| ==> areas[j] <= areas[k])
    && (forall j :: 0 <= j < k ==> areas[j] < areas[k])
  }

  /** Only one index can be the first maximum. */
  lemma FirstMaxUnique(areas: seq<real>, k: int, l: int)
    requires IsFirstMax(areas, k) && IsFirstMax(areas, l)
    ensures k == l
  {
    assert areas[k] == areas[l];
  }

  /** `np.argmax` over a non-empty list. */
  function ArgMax(areas: seq<real>): (k: nat)
    requires |areas| > 0
    ensures IsFirstMax(areas, k)
  {
    if |areas| == 1 then 0
    else
      var k := ArgMax(areas[..|areas| - 1]);
      if areas[|areas| - 1] > areas[k] then |areas| - 1 else k
  }

  /** `areas = [cv2.contourArea(c) for c in contours]`. */
  function Areas(contours: seq<Contour>): (areas: seq<real>)
    ensures |areas| == |contours|
    ensures forall i :: 0 <= i < |contours| ==> areas[i] == contours[i].area
  {
    if contours == [] then [] else [contours[0].area] + Areas(contours[1..])
  }

  /** `(int(m10 / m00), int(m01 / m00))` of one contour, or the sentinel
      when `m00` is 0 (the ZeroDivisionError is caught). */
  function Centroid(c: Contour): (r: (int, int))
    ensures c.m00 == 0.0 ==> r == Missing
    ensures c.m00 != 0.0 ==> TowardZero(c.m10 / c.m00, r.0) && TowardZero(c.m01 / c.m00, r.1)
  {
    if c.m00 == 0.0 then Missing else (Trunc(c.m10 / c.m00), Trunc(c.m01 / c.m00))
  }

  /** The result of `MainRunning` / `StepRunning` for the contour list:
      the sentinel when there is no contour, otherwise the centroid of the
      first contour of largest area. */
  function Track(contours: seq<Contour>): (r: (int, int))
    ensures contours == [] ==> r == Missing
    ensures forall k :: IsFirstMax(Areas(contours), k) ==> r == Centroid(contours[k])
  {
    if contours == [] then Missing
    else
      var k := ArgMax(Areas(contours));
      assert forall l :: IsFirstMax(Areas(contours), l) ==> l == k by {
        forall l | IsFirstMax(Areas(contours), l) ensures l == k {
          FirstMaxUnique(Areas(contours), k, l);
        }
      }
      Centroid(contours[k])
  }

  /** A centroid inside the frame: when the selected contour's moments
      describe pixels with x in `[0, w]` and y in `[0, h]` (so that
      `0 <= m10 <= w * m00` and `0 <= m01 <= h * m00` with `m00 > 0`), the
      tracked point lies in `[0, w] x [0, h]`. */
  lemma TrackInFrame(contours: seq<Contour>, k: nat, w: nat, h: nat)
    requires IsFirstMax(Areas(contours), k)
    requires contours[k].m00 > 0.0
    requires 0.0 <= contours[k].m10 <= w as real * contours[k].m00
    requires 0.0 <= contours[k].m01 <= h as real * contours[k].m00
    ensures 0 <= Track(contours).0 <= w && 0 <= Track(contours).1 <= h
  {
    var c := contours[k];
    assert c.m10 / c.m00 <= w as real;
    assert c.m01 / c.m00 <= h as real;
  }
}
