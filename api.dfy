/**
 * The polygon store of `polygonApi`: a list of `PolygonData` records kept as
 * JSON under one `localStorage` key. Every operation reads the list, builds a
 * new one (append, filter, map) and writes it back.
 */
module Api {
  import opened Wrappers
  import opened Geo

  /** A stored polygon (`labelText` is its `label` field): its ring as `[lat, lng]` tuples, its owner and its planet. */
  datatype PolygonData = PolygonData(id: string, labelText: string, coordinates: seq<Coord>, userId: string, planet: string)

  /** `Omit<PolygonData, "id">`: what `create` is given. */
  datatype NewPolygon = NewPolygon(labelText: string, coordinates: seq<Coord>, userId: string, planet: string)

  /** `Partial<PolygonData>`: the fields an update overrides; None is a field left out. */
  datatype PolygonPatch = PolygonPatch(
    id: Option<string>,
    labelText: Option<string>,
    coordinates: Option<seq<Coord>>,
    userId: Option<string>,
    planet: Option<string>)

  /** The `localStorage` key the list is kept under. */
  const StorageKey := "polygon-data"

  /** `{ ...data, id }`: a new record with its generated id. */
  function WithId(data: NewPolygon, id: string): PolygonData
  {
    PolygonData(id, data.labelText, data.coordinates, data.userId, data.planet)
  }

  /** `{ ...p, ...updates }`: the fields present in the patch win. */
  function Merge(p: PolygonData, patch: PolygonPatch): PolygonData
  {
    PolygonData(
      patch.id.GetOr(p.id),
      patch.labelText.GetOr(p.labelText),
      patch.coordinates.GetOr(p.coordinates),
      patch.userId.GetOr(p.userId),
      patch.planet.GetOr(p.planet))
  }

  /** Some record of `s` has the id. */
  predicate HasId(s: seq<PolygonData>, id: string)
  {
    exists i :: 0 <= i < |s| && s[i].id == id
  }

  /** `filter((p) => p.planet === planet)`. */
  function ByPlanet(s: seq<PolygonData>, planet: string): (r: seq<PolygonData>)
    ensures forall p :: p in r <==> p in s && p.planet == planet
    ensures |r| <= |s|
  {
    if s == [] then []
    else (if s[0].planet == planet then [s[0]] else []) + ByPlanet(s[1..], planet)
  }

  /** `filter((p) => p.id !== id)`. */
  function WithoutId(s: seq<PolygonData>, id: string): (r: seq<PolygonData>)
    ensures forall p :: p in r <==> p in s && p.id != id
    ensures |r| <= |s|
  {
    if s == [] then []
    else (if s[0].id != id then [s[0]] else []) + WithoutId(s[1..], id)
  }

  /** `map((p) => p.id === id ? { ...p, ...updates } : p)`. */
  function MergeById(s: seq<PolygonData>, id: string, patch: PolygonPatch): (r: seq<PolygonData>)
    ensures |r| == |s|
    ensures forall i :: 0 <= i < |s| ==> r[i] == if s[i].id == id then Merge(s[i], patch) else s[i]
  {
    if s == [] then []
    else [if s[0].id == id then Merge(s[0], patch) else s[0]] + MergeById(s[1..], id, patch)
  }

  /** `find((p) => p.id === id)`. */
  function FindById(s: seq<PolygonData>, id: string): (r: Option<PolygonData>)
    ensures r.Some? ==> r.value.id == id && r.value in s
  {
    if s == [] then None
    else if s[0].id == id then Some(s[0])
    else FindById(s[1..], id)
  }

  /** `find` reports a record exactly when one has the id, and then the first one. */
  lemma {:induction false} FindByIdFirst(s: seq<PolygonData>, id: string)
    ensures FindById(s, id).Some? <==> HasId(s, id)
    ensures FindById(s, id).Some? ==> exists i :: (0 <= i < |s| && s[i] == FindById(s, id).value
      && forall j :: 0 <= j < i ==> s[j].id != id)
  {
    if s != [] && s[0].id != id {
      var t := s[1..];
      FindByIdFirst(t, id);
      if FindById(t, id).Some? {
        var i :| 0 <= i < |t| && t[i] == FindById(t, id).value && forall j :: 0 <= j < i ==> t[j].id != id;
        assert s[i + 1] == t[i];
        assert forall j :: 0 <= j < i + 1 ==> s[j].id != id by {
          forall j | 0 <= j < i + 1 ensures s[j].id != id {
            if j > 0 { assert s[j] == t[j - 1]; }
          }
        }
      }
      if HasId(s, id) {
        var i :| 0 <= i < |s| && s[i].id == id;
        assert t[i - 1].id == id;
      }
    } else if s != [] {
      assert s[0] == FindById(s, id).value;
    }
  }

  class PolygonApi {
    /** The `localStorage` entry: None until the first write. */
    var saved: Option<seq<PolygonData>>

    /** An empty browser store. */
    constructor ()
      ensures saved.None? && Stored() == []
    {
      saved := None;
    }

    /** `getStored`: a missing entry reads as the empty list. */
    function Stored(): seq<PolygonData>
      reads this
    {
      saved.GetOr([])
    }

    /** `create`: the data with its generated id is appended to the list and returned. */
    method Create(data: NewPolygon, generatedId: string) returns (p: PolygonData)
      modifies this
      ensures p == WithId(data, generatedId)
      ensures saved == Some(old(Stored()) + [p])
    {
      p := WithId(data, generatedId);
      var current := Stored();
      saved := Some(current + [p]);
    }

    /** `getAll`: the stored records on the planet, in stored order; the store is not written. */
    method GetAll(planet: string) returns (r: seq<PolygonData>)
      ensures r == ByPlanet(Stored(), planet)
    {
      r := ByPlanet(Stored(), planet);
    }

    /** `update`: every record with the id is merged with the patch; the first record then holding the id is returned. */
    method Update(id: string, updates: PolygonPatch) returns (r: Option<PolygonData>)
      modifies this
      ensures saved == Some(MergeById(old(Stored()), id, updates))
      ensures r == FindById(MergeById(old(Stored()), id, updates), id)
    {
      var current := Stored();
      var updated := MergeById(current, id, updates);
      saved := Some(updated);
      r := FindById(updated, id);
    }

    /** `delete`: every record with the id is dropped. */
    method Delete(id: string)
      modifies this
      ensures saved == Some(WithoutId(old(Stored()), id))
    {
      var current := Stored();
      saved := Some(WithoutId(current, id));
    }
  }

  /** Appending one record extends the planet's view by that record when it is on the planet. */
  lemma {:induction false} ByPlanetAppend(s: seq<PolygonData>, p: PolygonData, planet: string)
    ensures ByPlanet(s + [p], planet) == ByPlanet(s, planet) + (if p.planet == planet then [p] else [])
  {
    if s != [] {
      assert (s + [p])[1..] == s[1..] + [p];
      ByPlanetAppend(s[1..], p, planet);
    }
  }

  /** Filtering by planet distributes over concatenation. */
  lemma {:induction false} ByPlanetConcat(a: seq<PolygonData>, b: seq<PolygonData>, planet: string)
    ensures ByPlanet(a + b, planet) == ByPlanet(a, planet) + ByPlanet(b, planet)
  {
    if a != [] {
      assert (a + b)[1..] == a[1..] + b;
      ByPlanetConcat(a[1..], b, planet);
    } else {
      assert a + b == b;
    }
  }

  /** Dropping an id distributes over concatenation. */
  lemma {:induction false} WithoutIdConcat(a: seq<PolygonData>, b: seq<PolygonData>, id: string)
    ensures WithoutId(a + b, id) == WithoutId(a, id) + WithoutId(b, id)
  {
    if a != [] {
      assert (a + b)[1..] == a[1..] + b;
      WithoutIdConcat(a[1..], b, id);
    } else {
      assert a + b == b;
    }
  }

  /** Filtering by planet and dropping an id commute. */
  lemma {:induction false} ByPlanetWithoutId(s: seq<PolygonData>, id: string, planet: string)
    ensures ByPlanet(WithoutId(s, id), planet) == WithoutId(ByPlanet(s, planet), id)
  {
    if s != [] {
      var h, t := s[0], s[1..];
      ByPlanetWithoutId(t, id, planet);
      var wh := if h.id != id then [h] else [];
      var bh := if h.planet == planet then [h] else [];
      assert WithoutId(s, id) == wh + WithoutId(t, id);
      assert ByPlanet(s, planet) == bh + ByPlanet(t, planet);
      ByPlanetConcat(wh, WithoutId(t, id), planet);
      WithoutIdConcat(bh, ByPlanet(t, planet), id);
      assert [h][1..] == [];
      assert ByPlanet(wh, planet) == WithoutId(bh, id);
    }
  }

  /** Deleting an id no record has leaves the list as it is. */
  lemma {:induction false} DeleteUnknownId(s: seq<PolygonData>, id: string)
    requires !HasId(s, id)
    ensures WithoutId(s, id) == s
  {
    if s != [] {
      assert s[0].id != id;
      forall i | 0 <= i < |s| - 1 ensures s[1..][i].id != id {
        assert s[1..][i] == s[i + 1];
      }
      DeleteUnknownId(s[1..], id);
    }
  }

  /** After a delete no record holds the id. */
  lemma DeleteRemovesId(s: seq<PolygonData>, id: string)
    ensures !HasId(WithoutId(s, id), id)
  {
    var r := WithoutId(s, id);
    forall i | 0 <= i < |r| ensures r[i].id != id {
      assert r[i] in r;
    }
  }

  /**
   * `update` reports a record exactly when one had the id and the patch does
   * not move it to another id; it is then the first such record, merged.
   */
  lemma UpdateResult(s: seq<PolygonData>, id: string, patch: PolygonPatch)
    ensures FindById(MergeById(s, id, patch), id).Some? <==> HasId(s, id) && (patch.id.None? || patch.id == Some(id))
    ensures FindById(s, id).Some? && (patch.id.None? || patch.id == Some(id)) ==>
      FindById(MergeById(s, id, patch), id) == Some(Merge(FindById(s, id).value, patch))
  {
    var u := MergeById(s, id, patch);
    FindByIdFirst(s, id);
    FindByIdFirst(u, id);
    if HasId(s, id) && (patch.id.None? || patch.id == Some(id)) {
      var f := FindById(s, id).value;
      var i :| 0 <= i < |s| && s[i] == f && forall j :: 0 <= j < i ==> s[j].id != id;
      assert u[i].id == id;
      var g := FindById(u, id).value;
      var k :| 0 <= k < |u| && u[k] == g && forall j :: 0 <= j < k ==> u[j].id != id;
      assert k == i;
    }
  }

  /** An update that changes neither planets nor ids commutes with filtering by planet. */
  lemma ByPlanetMergeById(s: seq<PolygonData>, id: string, patch: PolygonPatch, planet: string)
    requires patch.planet.None?
    ensures ByPlanet(MergeById(s, id, patch), planet) == MergeById(ByPlanet(s, planet), id, patch)
  {
    if s != [] {
      ByPlanetMergeById(s[1..], id, patch, planet);
      assert MergeById(s, id, patch)[1..] == MergeById(s[1..], id, patch);
    }
  }

  /** `create` never checks ids: creating with an id already stored leaves two records holding it. */
  lemma CreateAllowsDuplicateIds(s: seq<PolygonData>, data: NewPolygon, id: string)
    requires HasId(s, id)
    ensures exists i, j :: (0 <= i < j < |s + [WithId(data, id)]| && (s + [WithId(data, id)])[i].id == id
      && (s + [WithId(data, id)])[j].id == id)
  {
    var t := s + [WithId(data, id)];
    var i :| 0 <= i < |s| && s[i].id == id;
    assert t[i].id == id && t[|s|].id == id;
  }
}
