/** The static high-risk zones and the test of a route path against them:
    every vertex against every zone, great-circle distance strictly below
    the radius. The haversine distance (in km) is the `distance` parameter. */
module RiskZones {
  import opened Common
  import opened Routes

  /** A circle around (lat, lng) with its radius in metres. */
  datatype RiskZone = RiskZone(lat: real, lng: real, radius: real)

  const RiskZoneList: seq<RiskZone> := [
    RiskZone(19.0176, 72.8561, 1000.0),
    RiskZone(18.9500, 72.8200, 800.0)
  ]

  /** A `[lat, lng]` vertex lies inside a zone: nearer to its centre than
      the radius, in kilometres. */
  predicate InZone(distance: (real, real, real, real) -> real, point: Coord, zone: RiskZone) {
    distance(point.0, point.1, zone.lat, zone.lng) < zone.radius / 1000.0
  }

  predicate VertexHits(distance: (real, real, real, real) -> real, point: Coord, zones: seq<RiskZone>) {
    exists j :: 0 <= j < |zones| && InZone(distance, point, zones[j])
  }

  /** Some vertex of the path lies inside some zone, found vertex by vertex
      from the start of the path. */
  predicate PathHits(distance: (real, real, real, real) -> real, path: Path, zones: seq<RiskZone>) {
    path != [] && (VertexHits(distance, path[0], zones) || PathHits(distance, path[1..], zones))
  }

  /** The scan finds exactly the (vertex, zone) pairs with the vertex inside. */
  lemma {:induction false} PathHitsIff(distance: (real, real, real, real) -> real, path: Path, zones: seq<RiskZone>)
    ensures PathHits(distance, path, zones) <==>
      exists i, j :: 0 <= i < |path| && 0 <= j < |zones| && InZone(distance, path[i], zones[j])
  {
    if path != [] {
      PathHitsIff(distance, path[1..], zones);
      if PathHits(distance, path[1..], zones) {
        var i, j :| 0 <= i < |path[1..]| && 0 <= j < |zones| && InZone(distance, path[1..][i], zones[j]);
        assert InZone(distance, path[i + 1], zones[j]);
      }
      if exists i, j :: 0 <= i < |path| && 0 <= j < |zones| && InZone(distance, path[i], zones[j]) {
        var i, j :| 0 <= i < |path| && 0 <= j < |zones| && InZone(distance, path[i], zones[j]);
        if i > 0 {
          assert InZone(distance, path[1..][i - 1], zones[j]);
        }
      }
    }
  }

  /** Vertices are judged one by one: a path hits a zone iff one of its
      two parts does; so appending vertices never clears a hit. */
  lemma {:induction false} PathHitsAppend(distance: (real, real, real, real) -> real, p: Path, q: Path, zones: seq<RiskZone>)
    ensures PathHits(distance, p + q, zones) <==> PathHits(distance, p, zones) || PathHits(distance, q, zones)
  {
    if p == [] {
      assert p + q == q;
    } else {
      assert (p + q)[1..] == p[1..] + q;
      PathHitsAppend(distance, p[1..], q, zones);
    }
  }

  /** `checkRiskZones(routePath)`: nested scan with an early return. */
  method CheckRiskZones(distance: (real, real, real, real) -> real, routePath: Path) returns (hit: bool)
    ensures hit <==> exists i, j :: 0 <= i < |routePath| && 0 <= j < |RiskZoneList| &&
                                  InZone(distance, routePath[i], RiskZoneList[j])
    ensures hit == PathHits(distance, routePath, RiskZoneList)
  {
    PathHitsIff(distance, routePath, RiskZoneList);
    hit := false;
    var i := 0;
    while i < |routePath|
      invariant 0 <= i <= |routePath|
      invariant forall i', j :: 0 <= i' < i && 0 <= j < |RiskZoneList| ==>
                  !InZone(distance, routePath[i'], RiskZoneList[j])
    {
      var point := routePath[i];
      var j := 0;
      while j < |RiskZoneList|
        invariant 0 <= j <= |RiskZoneList|
        invariant forall j' :: 0 <= j' < j ==> !InZone(distance, point, RiskZoneList[j'])
      {
        var zone := RiskZoneList[j];
        var dist := distance(point.0, point.1, zone.lat, zone.lng);
        if dist < zone.radius / 1000.0 {
          hit := true;
          return;
        }
        j := j + 1;
      }
      i := i + 1;
    }
  }

  /** The vertex (19.018, 72.856), about 60 m from the first zone's centre,
      puts any path holding it inside a zone once the distance is below 1 km. */
  lemma FirstZoneExample(distance: (real, real, real, real) -> real, before: Path, after: Path)
    requires distance(19.018, 72.856, 19.0176, 72.8561) < 1.0
    ensures PathHits(distance, before + [(19.018, 72.856)] + after, RiskZoneList)
  {
    var point: Coord := (19.018, 72.856);
    assert InZone(distance, point, RiskZoneList[0]);
    assert PathHits(distance, [point], RiskZoneList);
    PathHitsAppend(distance, before, [point], RiskZoneList);
    PathHitsAppend(distance, before + [point], after, RiskZoneList);
  }

  /** The warning condition of `selectRoute`: the path enters a zone or the
      route is tagged red; the score plays no part. */
  method RiskAlert(distance: (real, real, real, real) -> real, route: RouteCandidate) returns (warn: bool)
    ensures warn <==> PathHits(distance, route.path, RiskZoneList) || route.color == "red"
    ensures route.color == "red" ==> warn
    ensures route.path == [] ==> (warn <==> route.color == "red")
  {
    var inZone := CheckRiskZones(distance, route.path);
    warn := inZone || route.color == "red";
  }
}
