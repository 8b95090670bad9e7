/** The OSRM routing client: how a request is written (coordinates in
    `lng,lat` order joined by ';') and how the first route of a response
    becomes route data (path flipped to `[lat, lng]`, distance rounded to
    tenths of a kilometre, duration rounded up to minutes). The HTTP
    request itself is the `fetch` parameter. */
module Osrm {
  import opened Common
  import opened Text

  /** One route of a response: GeoJSON coordinates in `[lng, lat]` order,
      distance in metres and duration in seconds. */
  datatype OsrmRoute = OsrmRoute(coordinates: seq<Coord>, distance: NonNegReal, duration: NonNegReal)

  /** A decoded response body; an absent `routes` field reads as no routes. */
  datatype OsrmResponse = OsrmResponse(routes: seq<OsrmRoute>)

  /** What a successful lookup returns: the map path (`[lat, lng]` pairs),
      the distance in tenths of a kilometre and the duration in minutes. */
  datatype RouteData = RouteData(path: Path, distanceTenths: nat, durationMinutes: nat)

  const OsrmBase: string := "https://router.project-osrm.org/route/v1/"
  const OsrmOptions: string := "?overview=full&geometries=geojson"

  /** One point as the router wants it: longitude first. `num` is how
      JavaScript prints a number. */
  function LngLat(num: real -> string, p: GeoPoint): string {
    num(p.lng) + "," + num(p.lat)
  }

  function Pieces(num: real -> string, points: seq<GeoPoint>): (r: seq<string>)
    ensures |r| == |points|
    ensures forall i :: 0 <= i < |points| ==> r[i] == LngLat(num, points[i])
  {
    if points == [] then [] else Pieces(num, points[..|points| - 1]) + [LngLat(num, points[|points| - 1])]
  }

  /** The coordinate part of the request path: start, via points, end. */
  function CoordList(num: real -> string, start: GeoPoint, midpoints: seq<GeoPoint>, end: GeoPoint): string {
    Join(Pieces(num, [start] + midpoints + [end]), ";")
  }

  /** Appending one point to the list appends one `;`-separated piece. */
  lemma CoordsStep(num: real -> string, points: seq<GeoPoint>, p: GeoPoint)
    requires |points| > 0
    ensures Join(Pieces(num, points + [p]), ";") == Join(Pieces(num, points), ";") + ";" + LngLat(num, p)
  {
    var all := points + [p];
    assert all[..|all| - 1] == points;
    var pieces := Pieces(num, all);
    assert pieces == Pieces(num, points) + [LngLat(num, p)];
    assert pieces[..|pieces| - 1] == Pieces(num, points);
  }

  /** The `coords` string built with `+=` over the via points. */
  method BuildCoords(num: real -> string, start: GeoPoint, midpoints: seq<GeoPoint>, end: GeoPoint)
    returns (coords: string)
    ensures coords == CoordList(num, start, midpoints, end)
  {
    coords := LngLat(num, start);
    assert Pieces(num, [start]) == [LngLat(num, start)];
    assert midpoints[..0] == [] && [start] + midpoints[..0] == [start];
    var i := 0;
    while i < |midpoints|
      invariant 0 <= i <= |midpoints|
      invariant coords == Join(Pieces(num, [start] + midpoints[..i]), ";")
    {
      assert [start] + midpoints[..i + 1] == ([start] + midpoints[..i]) + [midpoints[i]];
      CoordsStep(num, [start] + midpoints[..i], midpoints[i]);
      coords := coords + ";" + LngLat(num, midpoints[i]);
      i := i + 1;
    }
    assert [start] + midpoints + [end] == ([start] + midpoints[..i]) + [end];
    CoordsStep(num, [start] + midpoints[..i], end);
    coords := coords + ";" + LngLat(num, end);
  }

  /** When printed numbers hold neither ';' nor ',', the request names every
      point once, in order, each as exactly its longitude then its latitude. */
  lemma CoordListFields(num: real -> string, start: GeoPoint, midpoints: seq<GeoPoint>, end: GeoPoint)
    requires forall x :: Free(num(x), ';') && Free(num(x), ',')
    ensures var points := [start] + midpoints + [end];
      var fields := Split(CoordList(num, start, midpoints, end), ';');
      |fields| == |midpoints| + 2 &&
      forall i :: 0 <= i < |fields| ==> Split(fields[i], ',') == [num(points[i].lng), num(points[i].lat)]
  {
    var points := [start] + midpoints + [end];
    var pieces := Pieces(num, points);
    forall i | 0 <= i < |pieces|
      ensures Free(pieces[i], ';')
      ensures Split(pieces[i], ',') == [num(points[i].lng), num(points[i].lat)]
    {
      var p := points[i];
      assert pieces[i] == num(p.lng) + "," + num(p.lat);
      SplitJoin([num(p.lng), num(p.lat)], ',');
      assert Join([num(p.lng), num(p.lat)], [',']) == pieces[i] by {
        assert [num(p.lng), num(p.lat)][..1] == [num(p.lng)];
      }
      assert Free(pieces[i], ';') by {
        forall k | 0 <= k < |pieces[i]| ensures pieces[i][k] != ';' {
          if k < |num(p.lng)| {
            assert pieces[i][k] == num(p.lng)[k];
          } else if k > |num(p.lng)| {
            assert pieces[i][k] == num(p.lat)[k - |num(p.lng)| - 1];
          }
        }
      }
    }
    SplitJoin(pieces, ';');
  }

  function RouteUrl(profile: string, coords: string): string {
    OsrmBase + profile + "/" + coords + OsrmOptions
  }

  /** `coordinates.map(c => [c[1], c[0]])`: GeoJSON `[lng, lat]` to map `[lat, lng]`. */
  function SwapPath(coordinates: seq<Coord>): (path: Path)
    ensures |path| == |coordinates|
    ensures forall i :: 0 <= i < |path| ==> path[i].0 == coordinates[i].1 && path[i].1 == coordinates[i].0
  {
    if coordinates == [] then []
    else [(coordinates[0].1, coordinates[0].0)] + SwapPath(coordinates[1..])
  }

  /** Flipping twice gives the router's coordinates back. */
  lemma SwapPathTwice(coordinates: seq<Coord>)
    ensures SwapPath(SwapPath(coordinates)) == coordinates
  {
    var back := SwapPath(SwapPath(coordinates));
    assert forall i :: 0 <= i < |back| ==> back[i] == coordinates[i];
  }

  /** `Math.ceil` on a non-negative number. */
  function Ceil(x: NonNegReal): (c: nat)
    ensures c as real - 1.0 < x <= c as real
  {
    if x.Floor as real == x then x.Floor else x.Floor + 1
  }

  /** `(metres / 1000).toFixed(1)` read back as tenths of a kilometre:
      the nearest tenth, halves rounded up. */
  function DistanceTenths(metres: NonNegReal): (t: nat)
    ensures (t as real) * 100.0 - 50.0 <= metres < (t as real) * 100.0 + 50.0
  {
    (metres / 100.0 + 0.5).Floor
  }

  function ToRouteData(route: OsrmRoute): RouteData {
    RouteData(SwapPath(route.coordinates), DistanceTenths(route.distance), Ceil(route.duration / 60.0))
  }

  /** The value `getOSRMRoute` resolves to: null when the request or its
      decoding fails or when the response has no route, else the first route. */
  function RouteOf(fetch: string -> Option<OsrmResponse>, num: real -> string,
                   start: GeoPoint, end: GeoPoint, profile: string, midpoints: seq<GeoPoint>): Option<RouteData>
  {
    match fetch(RouteUrl(profile, CoordList(num, start, midpoints, end)))
    case None => None
    case Some(response) =>
      if |response.routes| > 0 then Some(ToRouteData(response.routes[0])) else None
  }

  /** `getOSRMRoute(start, end, type, midpoints)`. */
  method GetOSRMRoute(fetch: string -> Option<OsrmResponse>, num: real -> string,
                      start: GeoPoint, end: GeoPoint, profile: string, midpoints: seq<GeoPoint>)
    returns (data: Option<RouteData>)
    ensures data == RouteOf(fetch, num, start, end, profile, midpoints)
    ensures data.Some? ==>
      var response := fetch(RouteUrl(profile, CoordList(num, start, midpoints, end)));
      response.Some? && |response.value.routes| > 0 &&
      data.value.path == SwapPath(response.value.routes[0].coordinates)
  {
    var coords := BuildCoords(num, start, midpoints, end);
    var url := RouteUrl(profile, coords);
    var response := fetch(url);
    data := None;
    if response.Some? && |response.value.routes| > 0 {
      var route := response.value.routes[0];
      data := Some(RouteData(SwapPath(route.coordinates), DistanceTenths(route.distance),
                             Ceil(route.duration / 60.0)));
    }
  }
}
