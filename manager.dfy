/**
 * `PolygonManager`: switches the Geoman polygon tool with the client's
 * drawing flag, records a finished ring and shows the name form, saves the
 * named polygon through the cache, and redraws the cached polygons, each
 * as an outline plus a name marker, replacing the layers it drew before.
 */
module Manager {
  import opened Wrappers
  import opened JsText
  import opened Geo
  import opened Api
  import opened Crud
  import opened MapClient

  /** What a layer the manager adds to the map shows. */
  datatype LayerKind = Outline(coordinates: seq<Coord>) | NameTag(text: string)

  /** A Leaflet layer: `key` tells apart layers that show the same thing. */
  datatype MapLayer = MapLayer(key: nat, kind: LayerKind)

  /** The two layers drawn for the polygons `ps`, numbered from `base`: outline then name, polygon by polygon. */
  function LayersFor(ps: seq<PolygonData>, base: nat): (r: seq<MapLayer>)
    ensures |r| == 2 * |ps|
    ensures forall i :: 0 <= i < |r| ==> r[i].key == base + i
  {
    if ps == [] then []
    else
      var k := |ps| - 1;
      LayersFor(ps[..k], base)
        + [MapLayer(base + 2 * k, Outline(ps[k].coordinates)), MapLayer(base + 2 * k + 1, NameTag(ps[k].labelText))]
  }

  /** Polygon `k` is drawn as the layers `2k` (its outline) and `2k + 1` (its name). */
  lemma {:induction false} LayersForShape(ps: seq<PolygonData>, base: nat, k: nat)
    requires k < |ps|
    ensures LayersFor(ps, base)[2 * k] == MapLayer(base + 2 * k, Outline(ps[k].coordinates))
    ensures LayersFor(ps, base)[2 * k + 1] == MapLayer(base + 2 * k + 1, NameTag(ps[k].labelText))
  {
    var n := |ps| - 1;
    if k < n {
      LayersForShape(ps[..n], base, k);
      assert ps[..n][k] == ps[k];
    }
  }

  /** `existing.forEach((layer) => map.removeLayer(layer))`: the map's layers other than `gone`, in order. */
  function RemoveLayers(layers: seq<MapLayer>, gone: seq<MapLayer>): (r: seq<MapLayer>)
    ensures forall l :: l in r <==> l in layers && l !in gone
  {
    if layers == [] then []
    else (if layers[0] in gone then [] else [layers[0]]) + RemoveLayers(layers[1..], gone)
  }

  /** The elements of the name form: the input, then a row holding the Save and Cancel buttons. */
  datatype FormElement = NameInput | ButtonRow | SaveButton | CancelButton

  /** The children of the form, and of its button row, in document order. */
  const FormChildren: seq<FormElement> := [NameInput, ButtonRow]
  const RowChildren: seq<FormElement> := [SaveButton, CancelButton]

  /** `previousElementSibling` of `e` among its parent's children `siblings`: none for a first child. */
  function PreviousSibling(siblings: seq<FormElement>, e: FormElement): (r: Option<FormElement>)
    ensures siblings != [] && siblings[0] == e ==> r.None?
    ensures r.Some? ==> exists i :: 1 <= i < |siblings| && siblings[i] == e && siblings[i - 1] == r.value
    ensures forall i :: 1 <= i < |siblings| && siblings[i] == e && (forall j :: 0 <= j < i ==> siblings[j] != e) ==>
      r == Some(siblings[i - 1])
  {
    if |siblings| < 2 || siblings[0] == e then None
    else if siblings[1] == e then Some(siblings[0])
    else PreviousSibling(siblings[1..], e)
  }

  class PolygonManager {
    const api: PolygonApi
    const crud: PolygonCrud
    /** The client whose `isDrawing` is this component's prop and whose `DrawingComplete` is `onDrawingComplete`. */
    const client: MarsMapClient

    var showForm: bool
    var coords: seq<Coord>
    /** `map.pm` has the polygon tool enabled. */
    var drawEnabled: bool
    /** The `pm:create` handler is registered. */
    var createListener: bool
    /** `map._polygonLayers`: the layers the last redraw added. */
    var tracked: seq<MapLayer>
    /** The layers this component has on the map. */
    var mapLayers: seq<MapLayer>
    /** The next unused layer key. */
    var nextKey: nat

    /** Every layer has a key already handed out, and the tracked layers are on the map. */
    predicate Valid()
      reads this
    {
      && (forall l :: l in mapLayers ==> l.key < nextKey)
      && (forall l :: l in tracked ==> l in mapLayers)
    }

    /** First render: no form, no ring, the tool off, nothing drawn. */
    constructor (api: PolygonApi, crud: PolygonCrud, client: MarsMapClient)
      ensures this.api == api && this.crud == crud && this.client == client
      ensures Valid() && !showForm && coords == [] && !drawEnabled && !createListener
      ensures tracked == [] && mapLayers == [] && nextKey == 0
    {
      this.api, this.crud, this.client := api, crud, client;
      showForm, coords := false, [];
      drawEnabled, createListener := false, false;
      tracked, mapLayers, nextKey := [], [], 0;
    }

    /**
     * One run of the draw effect: the previous run's `pm:create` handler is
     * removed, the tool follows the flag, and the handler is registered
     * again only while drawing. The effect depends on the client's
     * `onDrawingComplete`, a new closure on every render of the client, so
     * it runs again after every such render, not only when `isDrawing`
     * changes.
     */
    method SyncDrawing()
      requires Valid()
      modifies this
      ensures Valid()
      ensures drawEnabled == client.isDrawing && createListener == client.isDrawing
      ensures showForm == old(showForm) && coords == old(coords)
      ensures tracked == old(tracked) && mapLayers == old(mapLayers) && nextKey == old(nextKey)
    {
      createListener := false;
      drawEnabled := client.isDrawing;
      if client.isDrawing {
        createListener := true;
      }
    }

    /** `handleCreate`: the ring is kept as `[lat, lng]` tuples, the form opens and drawing ends. */
    method HandleCreate(ring: seq<LatLng>)
      requires Valid() && createListener
      modifies this, client
      ensures Valid()
      ensures coords == ToCoords(ring) && showForm && !client.isDrawing
      ensures client.zoom == old(client.zoom) && client.center == old(client.center)
      ensures client.mousePos == old(client.mousePos) && client.listening == old(client.listening)
      ensures drawEnabled == old(drawEnabled) && createListener == old(createListener)
      ensures tracked == old(tracked) && mapLayers == old(mapLayers) && nextKey == old(nextKey)
    {
      coords := ToCoords(ring);
      showForm := true;
      client.DrawingComplete();
    }

    /** The drawn layer's `remove` handler: the form closes. */
    method OnDrawnLayerRemoved()
      requires Valid()
      modifies this
      ensures Valid() && !showForm
      ensures coords == old(coords) && drawEnabled == old(drawEnabled) && createListener == old(createListener)
      ensures tracked == old(tracked) && mapLayers == old(mapLayers) && nextKey == old(nextKey)
    {
      showForm := false;
    }

    /**
     * `handleSaveLabel`: a blank name does nothing. Otherwise the polygon is
     * created under that name (untrimmed) with the kept ring; if that throws
     * the rest is skipped, else the form closes and the cache refetches.
     */
    method HandleSaveLabel(name: string, generatedId: string, writable: bool, readable: bool)
      requires Valid()
      modifies this, crud, api
      ensures Valid()
      ensures IsBlank(name) ==> showForm == old(showForm) && crud.polygons == old(crud.polygons) && api.saved == old(api.saved)
      ensures !IsBlank(name) ==>
        && api.saved == (if writable then Some(old(api.Stored()) + [WithId(NewPolygon(name, coords, crud.userId, crud.planet), generatedId)]) else old(api.saved))
        && showForm == (old(showForm) && !writable)
      ensures !IsBlank(name) && writable && readable ==> crud.polygons == ByPlanet(api.Stored(), crud.planet) && !crud.loading
      ensures !IsBlank(name) && writable && !readable ==> crud.polygons == old(crud.polygons) + [WithId(NewPolygon(name, coords, crud.userId, crud.planet), generatedId)]
      ensures !IsBlank(name) && !writable ==> crud.polygons == old(crud.polygons)
      ensures coords == old(coords) && drawEnabled == old(drawEnabled) && createListener == old(createListener)
      ensures tracked == old(tracked) && mapLayers == old(mapLayers) && nextKey == old(nextKey)
    {
      if IsBlank(name) {
        return;
      }
      var created := crud.CreatePolygon(api, name, coords, generatedId, writable);
      if created.None? {
        return;
      }
      showForm := false;
      crud.FetchPolygons(api, readable);
    }

    /**
     * The Save button's handler for a button row laid out as `row`: it reads
     * `.value` of the button's previous sibling, which throws unless that is
     * the name input; otherwise it is `handleSaveLabel` of the typed name.
     */
    method ClickSaveButton(row: seq<FormElement>, typed: string, generatedId: string, writable: bool, readable: bool)
      returns (handled: bool)
      requires Valid()
      modifies this, crud, api
      ensures Valid()
      ensures handled == (PreviousSibling(row, SaveButton) == Some(NameInput))
      ensures !handled ==> unchanged(this) && unchanged(crud) && unchanged(api)
      ensures handled && !IsBlank(typed) && writable ==>
        && api.saved == Some(old(api.Stored()) + [WithId(NewPolygon(typed, coords, crud.userId, crud.planet), generatedId)])
        && !showForm
    {
      handled := PreviousSibling(row, SaveButton) == Some(NameInput);
      if handled {
        HandleSaveLabel(typed, generatedId, writable, readable);
      }
    }

    /**
     * The Save button as evidently intended: the name input is the previous
     * sibling of the button's row, so the typed name is saved as Enter
     * saves it.
     */
    method ClickSaveFixed(typed: string, generatedId: string, writable: bool, readable: bool)
      requires Valid()
      modifies this, crud, api
      ensures Valid()
      ensures IsBlank(typed) ==> showForm == old(showForm) && api.saved == old(api.saved)
      ensures !IsBlank(typed) && writable ==>
        && api.saved == Some(old(api.Stored()) + [WithId(NewPolygon(typed, coords, crud.userId, crud.planet), generatedId)])
        && !showForm
      ensures !IsBlank(typed) && !writable ==> showForm == old(showForm) && api.saved == old(api.saved)
      ensures coords == old(coords)
    {
      var input := PreviousSibling(FormChildren, ButtonRow);
      if input == Some(NameInput) {
        HandleSaveLabel(typed, generatedId, writable, readable);
      }
    }

    /** `handleCancel`: the form closes and drawing ends. */
    method HandleCancel()
      requires Valid()
      modifies this, client
      ensures Valid() && !showForm && !client.isDrawing
      ensures client.zoom == old(client.zoom) && client.center == old(client.center)
      ensures client.mousePos == old(client.mousePos) && client.listening == old(client.listening)
      ensures coords == old(coords) && drawEnabled == old(drawEnabled) && createListener == old(createListener)
      ensures tracked == old(tracked) && mapLayers == old(mapLayers) && nextKey == old(nextKey)
    {
      showForm := false;
      client.DrawingComplete();
    }

    /**
     * The render effect, re-run whenever the cache changes: the layers of the
     * previous run are removed, then each cached polygon gets its outline and
     * its name marker, and these become the tracked layers.
     */
    method Render()
      requires Valid()
      modifies this
      ensures Valid()
      ensures tracked == LayersFor(crud.polygons, old(nextKey))
      ensures mapLayers == RemoveLayers(old(mapLayers), old(tracked)) + tracked
      ensures nextKey == old(nextKey) + 2 * |crud.polygons|
      ensures showForm == old(showForm) && coords == old(coords)
      ensures drawEnabled == old(drawEnabled) && createListener == old(createListener)
    {
      var kept := RemoveLayers(mapLayers, tracked);
      var ps := crud.polygons;
      var base := nextKey;
      var key := nextKey;
      var newLayers := [];
      var i := 0;
      while i < |ps|
        invariant 0 <= i <= |ps|
        invariant newLayers == LayersFor(ps[..i], base)
        invariant key == base + 2 * i
      {
        var outline := MapLayer(key, Outline(ps[i].coordinates));
        var name := MapLayer(key + 1, NameTag(ps[i].labelText));
        assert ps[..i + 1][..i] == ps[..i];
        newLayers := newLayers + [outline, name];
        key := key + 2;
        i := i + 1;
      }
      assert ps[..i] == ps;
      nextKey := key;
      tracked := newLayers;
      mapLayers := kept + newLayers;
    }
  }

  /** After a redraw none of the previously tracked layers is left on the map, and two layers are tracked per polygon. */
  lemma RenderReplacesTracked(oldLayers: seq<MapLayer>, oldTracked: seq<MapLayer>, ps: seq<PolygonData>, base: nat)
    requires forall l :: l in oldLayers ==> l.key < base
    requires forall l :: l in oldTracked ==> l in oldLayers
    ensures forall l :: l in oldTracked ==> l !in RemoveLayers(oldLayers, oldTracked) + LayersFor(ps, base)
    ensures |LayersFor(ps, base)| == 2 * |ps|
  {
    var drawn := LayersFor(ps, base);
    forall l | l in drawn ensures l.key >= base {
      var i :| 0 <= i < |drawn| && drawn[i] == l;
    }
  }

  /**
   * As laid out, the Save button is the first child of its row, so its
   * previous sibling is nothing and a click saves nothing, whatever was
   * typed; the name input is the previous sibling of the row instead.
   */
  lemma SaveButtonFindsNoInput()
    ensures PreviousSibling(RowChildren, SaveButton).None?
    ensures PreviousSibling(FormChildren, ButtonRow) == Some(NameInput)
  {
  }

  /** On the client's map: a ring drawn, "Crater" typed, then Save clicked: the store stays empty and the form stays open. */
  method SaveClickSavesNothing(ring: seq<LatLng>) returns (stored: seq<PolygonData>, formShown: bool)
    ensures stored == [] && formShown
  {
    var api := new PolygonApi();
    var crud := new PolygonCrud("mars", ClientUserId);
    var client := new MarsMapClient();
    var m := new PolygonManager(api, crud, client);
    client.ClickDrawButton();
    m.SyncDrawing();
    m.HandleCreate(ring);
    SaveButtonFindsNoInput();
    var handled := m.ClickSaveButton(RowChildren, "Crater", "1", true, true);
    stored, formShown := api.Stored(), m.showForm;
  }

  /** The same steps with the intended Save button: the polygon is stored under the typed name and the form closes. */
  method SaveClickFixedSaves(ring: seq<LatLng>) returns (stored: seq<PolygonData>, formShown: bool)
    ensures stored == [PolygonData("1", "Crater", ToCoords(ring), ClientUserId, "mars")] && !formShown
  {
    var api := new PolygonApi();
    var crud := new PolygonCrud("mars", ClientUserId);
    var client := new MarsMapClient();
    var m := new PolygonManager(api, crud, client);
    client.ClickDrawButton();
    m.SyncDrawing();
    m.HandleCreate(ring);
    assert !IsBlank("Crater") by {
      assert TrimStart("Crater")[0] == 'C';
    }
    m.ClickSaveFixed("Crater", "1", true, true);
    stored, formShown := api.Stored(), m.showForm;
  }
}
