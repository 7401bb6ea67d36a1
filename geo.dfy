/** Geographic points as Leaflet hands them out, and the `[lat, lng]` tuples the components store. */
module Geo {

  /** A Leaflet `LatLng`; JavaScript numbers are modelled as exact reals. */
  datatype LatLng = LatLng(lat: real, lng: real)

  /** A `[number, number]` tuple holding latitude then longitude. */
  type Coord = (real, real)

  /** `vertices.map(ll => [ll.lat, ll.lng])`. */
  function ToCoords(vertices: seq<LatLng>): (r: seq<Coord>)
    ensures |r| == |vertices|
    ensures forall i :: 0 <= i < |vertices| ==> r[i] == (vertices[i].lat, vertices[i].lng)
  {
    if vertices == [] then [] else [(vertices[0].lat, vertices[0].lng)] + ToCoords(vertices[1..])
  }
}
