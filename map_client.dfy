/**
 * `MarsMapClient`: the map's viewport readout (zoom, centre and the tile
 * under the centre), the mouse position, and the Draw Area button whose
 * drawing flag the polygon manager clears when a drawing ends.
 */
module MapClient {
  import opened Wrappers
  import opened Geo
  import opened Tiles

  /** The owner id the client hands to the polygon manager. */
  const ClientUserId := "user_123"

  class MarsMapClient {
    var zoom: nat
    var center: LatLng
    var mousePos: Option<LatLng>
    var isDrawing: bool
    /** The map exists and the `moveend zoomend`, `mousemove` and `mouseout` handlers are registered. */
    var listening: bool

    /** First render: zoom 1 centred on (0, 0), no mouse position, not drawing, no map yet. */
    constructor ()
      ensures zoom == 1 && center == LatLng(0.0, 0.0) && mousePos.None?
      ensures !isDrawing && !listening
    {
      zoom, center, mousePos := 1, LatLng(0.0, 0.0), None;
      isDrawing, listening := false, false;
    }

    /** `getTileCoords`: the tile column and row under the map centre (its text formatting is not modelled). */
    function TileCoords(): (r: (int, int))
      reads this
      ensures -180.0 <= center.lng < 180.0 ==> 0 <= r.0 < ColumnCount(zoom)
      ensures -90.0 < center.lat <= 90.0 ==> 0 <= r.1 < RowCount(zoom)
      ensures ColumnWest(r.0, zoom) <= center.lng < ColumnWest(r.0 + 1, zoom)
      ensures RowNorth(r.1 + 1, zoom) < center.lat <= RowNorth(r.1, zoom)
    {
      TileXIff(center.lng, zoom, TileX(center.lng, zoom));
      TileYIff(center.lat, zoom, TileY(center.lat, zoom));
      (TileX(center.lng, zoom), TileY(center.lat, zoom))
    }

    /** The mount effect: handlers registered, then the readout taken from the map once. */
    method Mount(mapZoom: nat, mapCenter: LatLng)
      modifies this
      ensures listening && zoom == mapZoom && center == mapCenter
      ensures mousePos == old(mousePos) && isDrawing == old(isDrawing)
    {
      listening := true;
      UpdateMapInfo(mapZoom, mapCenter);
    }

    /** `updateMapInfo` on `moveend` / `zoomend`: the readout follows the map. */
    method UpdateMapInfo(mapZoom: nat, mapCenter: LatLng)
      requires listening
      modifies this
      ensures zoom == mapZoom && center == mapCenter
      ensures mousePos == old(mousePos) && isDrawing == old(isDrawing) && listening
    {
      zoom, center := mapZoom, mapCenter;
    }

    /** `handleMouseMove`: the pointer's position is shown. */
    method HandleMouseMove(p: LatLng)
      requires listening
      modifies this
      ensures mousePos == Some(p)
      ensures zoom == old(zoom) && center == old(center) && isDrawing == old(isDrawing) && listening
    {
      mousePos := Some(p);
    }

    /** `handleMouseOut`: the pointer left the map, so no position is shown. */
    method HandleMouseOut()
      requires listening
      modifies this
      ensures mousePos.None?
      ensures zoom == old(zoom) && center == old(center) && isDrawing == old(isDrawing) && listening
    {
      mousePos := None;
    }

    /** The unmount cleanup: the handlers are removed and the map is destroyed. */
    method Unmount()
      modifies this
      ensures !listening
      ensures zoom == old(zoom) && center == old(center) && mousePos == old(mousePos) && isDrawing == old(isDrawing)
    {
      listening := false;
    }

    /** The Draw Area button (`!isDrawing && setIsDrawing(true)`): starts drawing, and does nothing while drawing. */
    method ClickDrawButton()
      modifies this
      ensures isDrawing
      ensures old(isDrawing) ==> unchanged(this)
      ensures zoom == old(zoom) && center == old(center) && mousePos == old(mousePos) && listening == old(listening)
    {
      if !isDrawing {
        isDrawing := true;
      }
    }

    /** `onDrawingComplete`, the only way drawing ends. */
    method DrawingComplete()
      modifies this
      ensures !isDrawing
      ensures zoom == old(zoom) && center == old(center) && mousePos == old(mousePos) && listening == old(listening)
    {
      isDrawing := false;
    }
  }
}
