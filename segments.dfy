/**
 * The interpolation loop of `animateRoute` (app.js): a segment between two
 * waypoints is cut into 100 equal steps, and the 101 points from the start
 * to the end, both included, are drawn one after the other.
 */
module Segments {
  /** A geographic point, latitude then longitude, in degrees. */
  datatype LatLng = LatLng(lat: real, lng: real)

  /** One coordinate `k / 100` of the way from `a` to `b`: a segment is cut into 100 steps. */
  function Lerp(a: real, b: real, k: int): real
  {
    a + (b - a) * (k as real / 100.0)
  }

  /** Point `k` of the segment from `start` to `end`, latitude and longitude independently. */
  function Interpolate(start: LatLng, end: LatLng, k: int): LatLng
  {
    LatLng(Lerp(start.lat, end.lat, k), Lerp(start.lng, end.lng, k))
  }

  /** The points the inner loop appends for one segment: from `start` to `end`, both included. */
  function SegmentPoints(start: LatLng, end: LatLng): (r: seq<LatLng>)
    ensures |r| == 101
    ensures r[0] == start && r[100] == end
    ensures forall k :: 0 <= k <= 100 ==> r[k] == Interpolate(start, end, k)
  {
    seq(101, k requires 0 <= k <= 100 => Interpolate(start, end, k))
  }

  function MinReal(a: real, b: real): real { if a <= b then a else b }
  function MaxReal(a: real, b: real): real { if a <= b then b else a }

  /** A fraction between 0 and 1 of a non-negative distance stays within it. */
  lemma ScaleWithin(d: real, t: real)
    requires 0.0 <= d && 0.0 <= t <= 1.0
    ensures 0.0 <= d * t <= d
  {
  }

  /** On a rising coordinate every point of the segment lies between its two ends. */
  lemma FractionUp(lo: real, hi: real, k: int)
    requires lo <= hi && 0 <= k <= 100
    ensures lo <= Lerp(lo, hi, k) <= hi
  {
    var d, t := hi - lo, k as real / 100.0;
    ScaleWithin(d, t);
    assert Lerp(lo, hi, k) == lo + d * t;
  }

  /** On a falling coordinate every point of the segment lies between its two ends. */
  lemma FractionDown(hi: real, lo: real, k: int)
    requires lo <= hi && 0 <= k <= 100
    ensures lo <= Lerp(hi, lo, k) <= hi
  {
    var d, t := hi - lo, k as real / 100.0;
    ScaleWithin(d, t);
    assert Lerp(hi, lo, k) == hi - d * t;
  }

  /** Every interpolated coordinate lies between the two ends of the segment. */
  lemma LerpBetween(a: real, b: real, k: int)
    requires 0 <= k <= 100
    ensures MinReal(a, b) <= Lerp(a, b, k) <= MaxReal(a, b)
  {
    if a <= b {
      FractionUp(a, b, k);
    } else {
      FractionDown(a, b, k);
    }
  }

  /** The segment is cut into 100 equal pieces: consecutive points are a constant step apart. */
  lemma {:induction false} EqualSteps(start: LatLng, end: LatLng, k: int)
    ensures Interpolate(start, end, k + 1).lat - Interpolate(start, end, k).lat
         == (end.lat - start.lat) / 100.0
    ensures Interpolate(start, end, k + 1).lng - Interpolate(start, end, k).lng
         == (end.lng - start.lng) / 100.0
  {
    var step := 1.0 / 100.0;
    assert (k + 1) as real / 100.0 == k as real / 100.0 + step;
    assert (end.lat - start.lat) * step == (end.lat - start.lat) / 100.0;
    assert (end.lng - start.lng) * step == (end.lng - start.lng) / 100.0;
  }

  /** The polyline through a list of waypoints: the 101 points of each consecutive segment, in order. */
  function Polyline(w: seq<LatLng>): (r: seq<LatLng>)
    ensures |r| == if |w| < 2 then 0 else 101 * (|w| - 1)
    decreases |w|
  {
    if |w| < 2 then [] else SegmentPoints(w[0], w[1]) + Polyline(w[1..])
  }

  /** The polyline holds, at offset `101 * j + k`, point `k` of the segment from waypoint `j` to `j + 1`. */
  lemma {:induction false} PolylineAt(w: seq<LatLng>, j: nat, k: nat)
    requires j + 1 < |w| && k <= 100
    ensures 101 * j + k < |Polyline(w)|
    ensures Polyline(w)[101 * j + k] == Interpolate(w[j], w[j + 1], k)
    decreases j
  {
    var seg := SegmentPoints(w[0], w[1]);
    var rest := Polyline(w[1..]);
    assert Polyline(w) == seg + rest;
    if j == 0 {
      assert (seg + rest)[k] == seg[k];
    } else {
      PolylineAt(w[1..], j - 1, k);
      var n := 101 * (j - 1) + k;
      assert w[1..][j - 1] == w[j] && w[1..][j] == w[j + 1];
      assert 101 * j + k == |seg| + n;
      assert (seg + rest)[|seg| + n] == rest[n];
    }
  }
}
