/**
 * `usePolygonCRUD`: the client-side cache of one planet's polygons over the
 * polygon store, with a loading flag. Each operation awaits the store and
 * then updates the cache; when the store fails (its entry cannot be read or
 * written) the cache is left as it was.
 */
module Crud {
  import opened Wrappers
  import opened Geo
  import opened Api

  /** `prev.map((p) => (p.id === id ? updated : p))`. */
  function ReplaceById(s: seq<PolygonData>, id: string, updated: PolygonData): (r: seq<PolygonData>)
    ensures |r| == |s|
    ensures forall i :: 0 <= i < |s| ==> r[i] == if s[i].id == id then updated else s[i]
  {
    if s == [] then [] else [if s[0].id == id then updated else s[0]] + ReplaceById(s[1..], id, updated)
  }

  /** No two records share an id. */
  predicate UniqueIds(s: seq<PolygonData>)
  {
    forall i, j :: 0 <= i < j < |s| ==> s[i].id != s[j].id
  }

  class PolygonCrud {
    const planet: string
    const userId: string
    var polygons: seq<PolygonData>
    var loading: bool

    /** The cache holds exactly the store's records on this planet, in stored order. */
    predicate Synced(api: PolygonApi)
      reads this, api
    {
      polygons == ByPlanet(api.Stored(), planet)
    }

    /** The hook's initial state: an empty cache, loading. */
    constructor (planet: string, userId: string)
      ensures this.planet == planet && this.userId == userId
      ensures polygons == [] && loading
    {
      this.planet, this.userId := planet, userId;
      polygons, loading := [], true;
    }

    /**
     * `fetchPolygons` (also `refetch`, and the effect run for each planet): on
     * success the cache becomes `getAll(planet)`; either way loading ends.
     */
    method FetchPolygons(api: PolygonApi, readable: bool)
      modifies this
      ensures !loading
      ensures readable ==> polygons == ByPlanet(api.Stored(), planet) && Synced(api)
      ensures !readable ==> polygons == old(polygons)
    {
      loading := true;
      if readable {
        var data := api.GetAll(planet);
        polygons := data;
      }
      loading := false;
    }

    /**
     * `createPolygon`: the store appends the hook's owner and planet with the
     * label and ring, and the returned record is appended to the cache. A store
     * failure is rethrown (None) with the cache and the store unchanged.
     */
    method CreatePolygon(api: PolygonApi, labelText: string, coordinates: seq<Coord>, generatedId: string, writable: bool)
      returns (created: Option<PolygonData>)
      modifies this, api
      ensures writable ==>
        && created == Some(WithId(NewPolygon(labelText, coordinates, userId, planet), generatedId))
        && polygons == old(polygons) + [created.value]
        && api.saved == Some(old(api.Stored()) + [created.value])
      ensures !writable ==> created.None? && polygons == old(polygons) && api.saved == old(api.saved)
      ensures loading == old(loading)
      ensures old(Synced(api)) ==> Synced(api)
    {
      created := None;
      if writable {
        ghost var before := api.Stored();
        var p := api.Create(NewPolygon(labelText, coordinates, userId, planet), generatedId);
        ByPlanetAppend(before, p, planet);
        polygons := polygons + [p];
        created := Some(p);
      }
    }

    /**
     * `updatePolygon`: the store merges the patch into every record with the
     * id and is saved, and the cache's entries with the id are replaced by
     * the record the store returns (`find(...)!`). When no record holds the
     * id after the merge, `find` yields `undefined`, which a cache without
     * the id never takes in: it is left as it was.
     */
    method UpdatePolygon(api: PolygonApi, id: string, updates: PolygonPatch, writable: bool)
      requires writable ==>
        FindById(MergeById(api.Stored(), id, updates), id).Some? || forall i :: 0 <= i < |polygons| ==> polygons[i].id != id
      modifies this, api
      ensures writable ==> api.saved == Some(MergeById(old(api.Stored()), id, updates))
      ensures writable && FindById(MergeById(old(api.Stored()), id, updates), id).Some? ==>
        polygons == ReplaceById(old(polygons), id, FindById(MergeById(old(api.Stored()), id, updates), id).value)
      ensures writable && FindById(MergeById(old(api.Stored()), id, updates), id).None? ==> polygons == old(polygons)
      ensures !writable ==> polygons == old(polygons) && api.saved == old(api.saved)
      ensures loading == old(loading)
    {
      if writable {
        var updated := api.Update(id, updates);
        if updated.Some? {
          polygons := ReplaceById(polygons, id, updated.value);
        }
      }
    }

    /** `deletePolygon`: entries with the id leave the cache only once the store has dropped them. */
    method DeletePolygon(api: PolygonApi, id: string, writable: bool)
      modifies this, api
      ensures writable ==>
        && api.saved == Some(WithoutId(old(api.Stored()), id))
        && polygons == WithoutId(old(polygons), id)
      ensures !writable ==> polygons == old(polygons) && api.saved == old(api.saved)
      ensures loading == old(loading)
      ensures old(Synced(api)) ==> Synced(api)
    {
      if writable {
        ghost var before := api.Stored();
        api.Delete(id);
        ByPlanetWithoutId(before, id, planet);
        polygons := WithoutId(polygons, id);
      }
    }
  }

  /**
   * With unique ids, an update that moves no record to another id or planet
   * keeps a synced cache synced: the store's returned record is the only one
   * with the id.
   */
  lemma {:induction false} UpdateKeepsSync(s: seq<PolygonData>, id: string, patch: PolygonPatch, planet: string)
    requires UniqueIds(s) && HasId(s, id)
    requires patch.planet.None? && (patch.id.None? || patch.id == Some(id))
    ensures FindById(MergeById(s, id, patch), id).Some?
    ensures ByPlanet(MergeById(s, id, patch), planet)
      == ReplaceById(ByPlanet(s, planet), id, FindById(MergeById(s, id, patch), id).value)
  {
    UpdateResult(s, id, patch);
    FindByIdFirst(s, id);
    var f := FindById(s, id).value;
    var c := ByPlanet(s, planet);
    ByPlanetMergeById(s, id, patch, planet);
    var lhs := MergeById(c, id, patch);
    var rhs := ReplaceById(c, id, Merge(f, patch));
    forall k | 0 <= k < |c| ensures lhs[k] == rhs[k] {
      if c[k].id == id {
        assert c[k] in s;
        var i :| 0 <= i < |s| && s[i] == c[k];
        var j :| 0 <= j < |s| && s[j] == f;
        assert i == j;
      }
    }
  }
}
