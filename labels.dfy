/**
 * Labels of the Mars page and their coordinates: a polygon is sent to the
 * label service flattened to `[lat0, lng0, lat1, lng1, ...]` and re-paired
 * when labels are loaded back; labels with fewer than three pairs are not
 * drawn.
 */
module Labels {
  import opened Wrappers
  import opened Geo

  /** A label record as the label service returns it. */
  datatype Label = Label(
    id: int,
    userId: int,
    celestialObject: string,
    title: string,
    description: string,
    coordinates: seq<real>,
    createdAt: string,
    updatedAt: string)

  /**
   * One `[coordinates[i], coordinates[i + 1]]` tuple built while loading; when
   * the list has odd length the last tuple's second element is `undefined`.
   */
  datatype RawPair = RawPair(first: real, second: Option<real>)

  /** What the label layer holds: a polygon, or the title marker placed at a polygon's centre. */
  datatype Overlay = Area(ring: seq<LatLng>, color: string) | Tag(text: string, color: string)

  /** The colour loaded labels are drawn in. */
  const LoadedLabelColor := "#ff6b6b"

  /** `latlngs.flatMap(ll => [ll.lat, ll.lng])`. */
  function Flatten(vertices: seq<LatLng>): (r: seq<real>)
    ensures |r| == 2 * |vertices|
    ensures forall i :: 0 <= i < |vertices| ==> r[2 * i] == vertices[i].lat && r[2 * i + 1] == vertices[i].lng
  {
    if vertices == [] then [] else [vertices[0].lat, vertices[0].lng] + Flatten(vertices[1..])
  }

  /** The tuple the loading loop builds at even index `i`. */
  function PairAt(c: seq<real>, i: nat): RawPair
    requires i < |c|
  {
    RawPair(c[i], if i + 1 < |c| then Some(c[i + 1]) else None)
  }

  /** All tuples the loading loop builds: one per even index, the last one dangling when `|c|` is odd. */
  function Paired(c: seq<real>): (r: seq<RawPair>)
    ensures |r| == (|c| + 1) / 2
  {
    seq((|c| + 1) / 2, k requires 0 <= k < (|c| + 1) / 2 => PairAt(c, 2 * k))
  }

  /** The vertices Leaflet builds from the tuples, or None when a tuple lacks its longitude. */
  function ToVertices(pairs: seq<RawPair>): (r: Option<seq<LatLng>>)
    ensures r.Some? <==> forall k :: 0 <= k < |pairs| ==> pairs[k].second.Some?
    ensures r.Some? ==> (|r.value| == |pairs|
      && forall k :: 0 <= k < |pairs| ==> r.value[k] == LatLng(pairs[k].first, pairs[k].second.value))
  {
    if pairs == [] then Some([])
    else match (pairs[0].second, ToVertices(pairs[1..]))
      case (Some(lng), Some(rest)) => Some([LatLng(pairs[0].first, lng)] + rest)
      case _ => None
  }

  /** The loading loop (`for (i = 0; i < n; i += 2) coords.push([c[i], c[i + 1]])`). */
  method PairCoordinates(c: seq<real>) returns (coords: seq<RawPair>)
    ensures coords == Paired(c)
  {
    coords := [];
    var i := 0;
    while i < |c|
      invariant i % 2 == 0 && 0 <= i <= |c| + 1
      invariant |coords| == i / 2
      invariant forall k :: 0 <= k < |coords| ==> coords[k] == PairAt(c, 2 * k)
    {
      coords := coords + [PairAt(c, i)];
      i := i + 2;
    }
  }

  /** Re-pairing a flattened polygon gives its vertices back, with nothing dangling. */
  lemma {:induction false} PairFlattenRoundTrip(vertices: seq<LatLng>)
    ensures ToVertices(Paired(Flatten(vertices))) == Some(vertices)
  {
    var c := Flatten(vertices);
    var ps := Paired(c);
    forall k | 0 <= k < |ps|
      ensures ps[k] == RawPair(vertices[k].lat, Some(vertices[k].lng))
    {
      assert ps[k] == PairAt(c, 2 * k);
    }
    var r := ToVertices(ps);
    assert r.Some?;
    assert r.value == vertices;
  }

  /** An even-length list pairs up completely, and flattening the vertices gives the list back. */
  lemma FlattenPairRoundTrip(c: seq<real>)
    requires |c| % 2 == 0
    ensures ToVertices(Paired(c)).Some?
    ensures Flatten(ToVertices(Paired(c)).value) == c
  {
    var ps := Paired(c);
    forall k | 0 <= k < |ps| ensures ps[k].second.Some? && ps[k].second.value == c[2 * k + 1] {
      assert ps[k] == PairAt(c, 2 * k);
    }
    var vs := ToVertices(ps).value;
    var f := Flatten(vs);
    forall i | 0 <= i < |c| ensures f[i] == c[i] {
      var k := i / 2;
      assert ps[k] == PairAt(c, 2 * k);
      if i % 2 == 0 {
        assert i == 2 * k;
      } else {
        assert i == 2 * k + 1;
      }
    }
  }

  /** A list yields a dangling tuple exactly when its length is odd. */
  lemma DanglingIffOdd(c: seq<real>)
    ensures ToVertices(Paired(c)).None? <==> |c| % 2 == 1
  {
    var ps := Paired(c);
    if |c| % 2 == 1 {
      var k := |c| / 2;
      assert ps[k] == PairAt(c, 2 * k);
    } else {
      FlattenPairRoundTrip(c);
    }
  }

  /** Leaflet refuses the polygon of a label that is drawn (three or more tuples) but has a dangling tuple. */
  predicate Unrenderable(l: Label)
  {
    |l.coordinates| >= 5 && |l.coordinates| % 2 == 1
  }

  /** The two overlays a drawn label contributes: its polygon and its title marker. */
  function LabelOverlays(l: Label, ring: seq<LatLng>): seq<Overlay>
  {
    [Area(ring, LoadedLabelColor), Tag(l.title, LoadedLabelColor)]
  }

  /** The label layer after loading, and whether Leaflet threw on the way (which stops the loop). */
  datatype Rendered = Rendered(overlays: seq<Overlay>, failed: bool)

  /**
   * The `forEach` over the loaded labels: labels with fewer than three tuples
   * are skipped; the first label with a dangling tuple makes `L.polygon` throw,
   * which ends the loop with the layer drawn so far.
   */
  function RenderLabels(ls: seq<Label>): (r: Rendered)
    ensures |r.overlays| % 2 == 0
    ensures forall i :: 0 <= i < |r.overlays| && r.overlays[i].Area? ==> |r.overlays[i].ring| >= 3
  {
    if ls == [] then Rendered([], false)
    else
      var pairs := Paired(ls[0].coordinates);
      var rest := RenderLabels(ls[1..]);
      if |pairs| < 3 then rest
      else match ToVertices(pairs)
        case None => Rendered([], true)
        case Some(ring) => Rendered(LabelOverlays(ls[0], ring) + rest.overlays, rest.failed)
  }

  /**
   * The `forEach` of `loadLabels` over the loaded labels, with its inner
   * pairing loop: overlays are collected label by label until a label's
   * polygon cannot be built.
   */
  method DrawLabels(ls: seq<Label>) returns (overlays: seq<Overlay>, failed: bool)
    ensures Rendered(overlays, failed) == RenderLabels(ls)
  {
    overlays := [];
    failed := false;
    var i := 0;
    while i < |ls|
      invariant 0 <= i <= |ls|
      invariant RenderLabels(ls) == Rendered(overlays + RenderLabels(ls[i..]).overlays, RenderLabels(ls[i..]).failed)
    {
      assert ls[i..][1..] == ls[i + 1..];
      var coords := PairCoordinates(ls[i].coordinates);
      if |coords| >= 3 {
        match ToVertices(coords)
        case None =>
          failed := true;
          return;
        case Some(ring) =>
          overlays := overlays + LabelOverlays(ls[i], ring);
      }
      i := i + 1;
    }
  }

  /** The labels the layer draws: those whose coordinates make at least three tuples. */
  function Drawn(ls: seq<Label>): (r: seq<Label>)
    ensures forall l :: l in r <==> l in ls && |l.coordinates| >= 5
  {
    if ls == [] then []
    else (if |ls[0].coordinates| >= 5 then [ls[0]] else []) + Drawn(ls[1..])
  }

  /** Loading fails exactly when some label is drawn but has an odd number of coordinates. */
  lemma {:induction false} RenderFailsIff(ls: seq<Label>)
    ensures RenderLabels(ls).failed <==> exists i :: 0 <= i < |ls| && Unrenderable(ls[i])
  {
    if ls != [] {
      RenderFailsIff(ls[1..]);
      DanglingIffOdd(ls[0].coordinates);
      if exists i :: 0 <= i < |ls[1..]| && Unrenderable(ls[1..][i]) {
        var i :| 0 <= i < |ls[1..]| && Unrenderable(ls[1..][i]);
        assert Unrenderable(ls[i + 1]);
      }
      if exists i :: 0 <= i < |ls| && Unrenderable(ls[i]) {
        var i :| 0 <= i < |ls| && Unrenderable(ls[i]);
        if i > 0 {
          assert ls[1..][i - 1] == ls[i];
        }
      }
    }
  }

  /** The ring a drawn label's polygon gets (empty when its coordinates dangle). */
  function Ring(l: Label): seq<LatLng>
  {
    ToVertices(Paired(l.coordinates)).GetOr([])
  }

  /** `os` is the polygon-then-title pair of overlays of each label of `d`, in order. */
  ghost predicate DrawsInOrder(os: seq<Overlay>, d: seq<Label>)
  {
    && |os| == 2 * |d|
    && forall k :: 0 <= k < |d| ==>
      os[2 * k] == Area(Ring(d[k]), LoadedLabelColor) && os[2 * k + 1] == Tag(d[k].title, LoadedLabelColor)
  }

  /** Drawing one more label in front keeps the pairing of overlays and labels. */
  lemma DrawsInOrderCons(l: Label, os: seq<Overlay>, d: seq<Label>)
    requires DrawsInOrder(os, d)
    ensures DrawsInOrder(LabelOverlays(l, Ring(l)) + os, [l] + d)
  {
    var os' := LabelOverlays(l, Ring(l)) + os;
    var d' := [l] + d;
    forall k | 0 <= k < |d'|
      ensures os'[2 * k] == Area(Ring(d'[k]), LoadedLabelColor)
      ensures os'[2 * k + 1] == Tag(d'[k].title, LoadedLabelColor)
    {
      if k > 0 {
        assert d'[k] == d[k - 1];
        assert os'[2 * k] == os[2 * (k - 1)];
        assert os'[2 * k + 1] == os[2 * (k - 1) + 1];
      }
    }
  }

  /** One label with well-formed coordinates in front of a well-rendered list keeps it well rendered. */
  lemma {:induction false} RenderKeepsDrawnStep(l: Label, rest: seq<Label>)
    requires |l.coordinates| % 2 == 0
    requires !RenderLabels(rest).failed && DrawsInOrder(RenderLabels(rest).overlays, Drawn(rest))
    ensures !RenderLabels([l] + rest).failed
    ensures DrawsInOrder(RenderLabels([l] + rest).overlays, Drawn([l] + rest))
  {
    var ls := [l] + rest;
    assert ls[0] == l && ls[1..] == rest;
    FlattenPairRoundTrip(l.coordinates);
    if |l.coordinates| >= 5 {
      assert |Paired(l.coordinates)| >= 3;
      assert RenderLabels(ls).overlays == LabelOverlays(l, Ring(l)) + RenderLabels(rest).overlays;
      assert Drawn(ls) == [l] + Drawn(rest);
      DrawsInOrderCons(l, RenderLabels(rest).overlays, Drawn(rest));
    } else {
      assert |Paired(l.coordinates)| < 3;
      assert Drawn(ls) == Drawn(rest);
    }
  }

  /** With well-formed coordinates every drawn label contributes its polygon and its title, in order. */
  lemma {:induction false} RenderKeepsDrawn(ls: seq<Label>)
    requires forall i :: 0 <= i < |ls| ==> |ls[i].coordinates| % 2 == 0
    ensures !RenderLabels(ls).failed
    ensures DrawsInOrder(RenderLabels(ls).overlays, Drawn(ls))
  {
    if ls != [] {
      RenderKeepsDrawn(ls[1..]);
      assert ls == [ls[0]] + ls[1..];
      RenderKeepsDrawnStep(ls[0], ls[1..]);
    }
  }
}
