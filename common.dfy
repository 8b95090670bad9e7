/** Values shared by every part of the route kernel. */
module Common {

  /** A value that may be absent: JavaScript's `null` (or a caught failure). */
  datatype Option<+T> = None | Some(value: T)

  /** A `{lat, lng}` object, in degrees. */
  datatype GeoPoint = GeoPoint(lat: real, lng: real)

  /** A two-element coordinate array. OSRM geometry holds `[lng, lat]`;
      a route path on the map holds `[lat, lng]`. `.0` is element 0. */
  type Coord = (real, real)

  /** A polyline as drawn on the map: a sequence of `[lat, lng]` pairs. */
  type Path = seq<Coord>

  type NonNegReal = x: real | x >= 0.0
}
