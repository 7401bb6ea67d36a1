/**
 * `PolygonDrawer`: a button that starts one leaflet-draw polygon drawing
 * at a time. The draw control is built once, added to the map once, and
 * removed on unmount; each drawing registers a `draw:created` handler that
 * removes itself when it fires and hands the ring to `onPolygonSaved`.
 */
module Drawer {
  import opened Geo

  /** The popup bound to the finished layer, `<b>${"Label"}</b>`. */
  const PopupContent := "<b>" + "Label" + "</b>"

  /** `getContent() || "Label"`: the popup's content unless it is empty. */
  function SavedLabel(content: string): (r: string)
    ensures content != "" ==> r == content
    ensures content == "" ==> r == "Label"
  {
    if content != "" then content else "Label"
  }

  class PolygonDrawer {
    /** `isDrawingRef`: a drawing is in progress. */
    var isDrawing: bool
    /** How many draw controls have been built (`drawControlRef` is set once this is 1). */
    var builds: nat
    /** `isControlAdded`: the control is on the map. */
    var isControlAdded: bool
    /** How many `draw:created` handlers of this component are registered. */
    var handlers: nat
    var mounted: bool

    /** At most one control ever, on the map only once built, and one handler exactly while drawing. */
    predicate Valid()
      reads this
    {
      && builds <= 1
      && (isControlAdded ==> builds == 1)
      && handlers == (if isDrawing then 1 else 0)
    }

    /** First render: no drawing, no control, no handler. */
    constructor ()
      ensures Valid() && mounted
      ensures !isDrawing && builds == 0 && !isControlAdded && handlers == 0
    {
      isDrawing, builds, isControlAdded, handlers := false, 0, false, 0;
      mounted := true;
    }

    /**
     * `enableDrawing`, the button's click: nothing while a drawing is in
     * progress. Otherwise drawing starts, the control is built if it never
     * was and added if it is not on the map, and a handler is registered.
     */
    method EnableDrawing()
      requires Valid() && mounted
      modifies this
      ensures Valid() && mounted
      ensures old(isDrawing) ==> unchanged(this)
      ensures !old(isDrawing) ==> isDrawing && handlers == old(handlers) + 1 && isControlAdded && builds == 1
      ensures old(builds) == 1 ==> builds == 1
    {
      if isDrawing {
        return;
      }
      isDrawing := true;
      if !isControlAdded {
        if builds == 0 {
          builds := builds + 1;
        }
        isControlAdded := true;
      }
      handlers := handlers + 1;
    }

    /**
     * `handleCreated`, for a registered handler: it unregisters itself, hands
     * the ring as `[lat, lng]` tuples with the popup's label to
     * `onPolygonSaved`, and the drawing ends.
     */
    method HandleCreated(ring: seq<LatLng>) returns (savedName: string, coordinates: seq<Coord>)
      requires Valid() && handlers > 0
      modifies this
      ensures Valid()
      ensures savedName == "<b>Label</b>" && coordinates == ToCoords(ring)
      ensures handlers == old(handlers) - 1 && !isDrawing
      ensures builds == old(builds) && isControlAdded == old(isControlAdded) && mounted == old(mounted)
    {
      handlers := handlers - 1;
      coordinates := ToCoords(ring);
      savedName := SavedLabel(PopupContent);
      isDrawing := false;
    }

    /** The unmount cleanup: the control leaves the map only if it was built and added. */
    method Unmount()
      requires Valid() && mounted
      modifies this
      ensures Valid() && !mounted && !isControlAdded
      ensures isDrawing == old(isDrawing) && builds == old(builds) && handlers == old(handlers)
    {
      if builds == 1 && isControlAdded {
        isControlAdded := false;
      }
      mounted := false;
    }
  }

  /**
   * A handler fires at most once per enable: after two clicks and one
   * creation no handler is left, and the control was built once.
   */
  method ClickClickCreate(ring: seq<LatLng>) returns (handlersLeft: nat, builds: nat, savedName: string)
    ensures handlersLeft == 0 && builds == 1 && savedName == "<b>Label</b>"
  {
    var d := new PolygonDrawer();
    d.EnableDrawing();
    d.EnableDrawing();
    var coordinates;
    savedName, coordinates := d.HandleCreated(ring);
    handlersLeft, builds := d.handlers, d.builds;
  }

  /** A second drawing reuses the control built for the first. */
  method TwoDrawings(first: seq<LatLng>, second: seq<LatLng>) returns (builds: nat, controlAdded: bool, coordinates: seq<Coord>)
    ensures builds == 1 && controlAdded && coordinates == ToCoords(second)
  {
    var d := new PolygonDrawer();
    d.EnableDrawing();
    var savedName, c := d.HandleCreated(first);
    d.EnableDrawing();
    savedName, coordinates := d.HandleCreated(second);
    builds, controlAdded := d.builds, d.isControlAdded;
  }
}
