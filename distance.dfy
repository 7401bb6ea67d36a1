/**
 * The measuring tool's `calculateDistance`: the sum of a per-segment
 * distance over consecutive points of the drawn line. The haversine
 * segment formula is floating-point trigonometry and is a parameter here.
 */
module Distance {
  import opened Geo

  /**
   * The total length of the path through `pts`: the reference definition of
   * the sum. Fewer than two points measure nothing, and with a segment
   * distance that is never negative neither is the total.
   */
  function PathLength(pts: seq<LatLng>, segment: (LatLng, LatLng) -> real): (r: real)
    ensures |pts| < 2 ==> r == 0.0
    ensures (forall a, b :: segment(a, b) >= 0.0) ==> r >= 0.0
  {
    if |pts| < 2 then 0.0 else segment(pts[0], pts[1]) + PathLength(pts[1..], segment)
  }

  /** Extending a path by one point adds the length of its last segment. */
  lemma {:induction false} PathLengthSnoc(pts: seq<LatLng>, q: LatLng, segment: (LatLng, LatLng) -> real)
    requires |pts| >= 1
    ensures PathLength(pts + [q], segment) == PathLength(pts, segment) + segment(pts[|pts| - 1], q)
  {
    if |pts| >= 2 {
      assert (pts + [q])[1..] == pts[1..] + [q];
      PathLengthSnoc(pts[1..], q, segment);
    } else {
      assert pts + [q] == [pts[0], q];
    }
  }

  /**
   * The loop of `calculateDistance`: `total += segment(latlngs[i], latlngs[i + 1])`,
   * where `segment` stands for the page's haversine formula on a Mars radius
   * of 3389.5 km.
   */
  method CalculateDistance(latlngs: seq<LatLng>, segment: (LatLng, LatLng) -> real) returns (total: real)
    ensures total == PathLength(latlngs, segment)
  {
    total := 0.0;
    if |latlngs| == 0 {
      return;
    }
    var i := 0;
    while i < |latlngs| - 1
      invariant 0 <= i <= |latlngs| - 1
      invariant total == PathLength(latlngs[..i + 1], segment)
    {
      PathLengthSnoc(latlngs[..i + 1], latlngs[i + 1], segment);
      assert latlngs[..i + 1] + [latlngs[i + 1]] == latlngs[..i + 2];
      total := total + segment(latlngs[i], latlngs[i + 1]);
      i := i + 1;
    }
    assert latlngs[..i + 1] == latlngs;
  }

  /** The points in reverse order. */
  function Reverse(pts: seq<LatLng>): (r: seq<LatLng>)
    ensures |r| == |pts|
    ensures forall i :: 0 <= i < |pts| ==> r[i] == pts[|pts| - 1 - i]
  {
    if pts == [] then [] else Reverse(pts[1..]) + [pts[0]]
  }

  /** With a symmetric segment distance, measuring a line backwards gives the same total. */
  lemma {:induction false} PathLengthReverse(pts: seq<LatLng>, segment: (LatLng, LatLng) -> real)
    requires forall a, b :: segment(a, b) == segment(b, a)
    ensures PathLength(Reverse(pts), segment) == PathLength(pts, segment)
  {
    if |pts| >= 2 {
      PathLengthReverse(pts[1..], segment);
      var rest := Reverse(pts[1..]);
      assert Reverse(pts) == rest + [pts[0]];
      PathLengthSnoc(rest, pts[0], segment);
      assert rest[|rest| - 1] == pts[1];
    }
  }
}
