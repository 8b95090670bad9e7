/** `generateRealRoutes`: up to three candidate routes for one trip — the
    router's direct best path, then one forced through each via-waypoint —
    each with a fixed name, colour, score and feature list. The requests
    are issued one after another and a failed request only drops its own
    candidate. */
module Routes {
  import opened Common
  import opened Text
  import opened Estimates
  import opened Osrm
  import opened Waypoints

  datatype RouteCandidate = RouteCandidate(
    id: nat, name: string, color: string, safetyScore: int,
    eta: string, distance: string, path: Path, features: seq<string>)

  /** The fixed presentation of the candidate with a given id. */
  datatype Style = Style(name: string, color: string, safetyScore: int, features: seq<string>)

  function StyleOf(id: nat): Style
    requires 1 <= id <= 3
  {
    if id == 1 then Style("Safest Path", "green", 94, ["Police Patrols", "Well Lit", "Main Road"])
    else if id == 2 then Style("Alt. Route A", "yellow", 72, ["Moderate Traffic", "Residential"])
    else Style("Alt. Route B", "red", 48, ["Poor Lighting", "Less Crowded"])
  }

  /** The object pushed for candidate `id`: the estimate comes from the
      distance alone; the router's duration is not used. */
  function MakeCandidate(id: nat, data: RouteData, speedTenths: nat): RouteCandidate
    requires 1 <= id <= 3 && speedTenths > 0
  {
    var style := StyleOf(id);
    RouteCandidate(id, style.name, style.color, style.safetyScore,
                   FormatEta(EtaMinutes(data.distanceTenths, speedTenths)),
                   DistanceLabel(data.distanceTenths), data.path, style.features)
  }

  function Optional(id: nat, data: Option<RouteData>, speedTenths: nat): seq<RouteCandidate>
    requires 1 <= id <= 3 && speedTenths > 0
  {
    if data.Some? then [MakeCandidate(id, data.value, speedTenths)] else []
  }

  /** The result list for the three lookups' outcomes, in request order. */
  function Assemble(outcomes: seq<Option<RouteData>>, speedTenths: nat): seq<RouteCandidate>
    requires |outcomes| == 3 && speedTenths > 0
  {
    Optional(1, outcomes[0], speedTenths) + Optional(2, outcomes[1], speedTenths)
      + Optional(3, outcomes[2], speedTenths)
  }

  /** The via points of the three requests: none, waypoint A, waypoint B. */
  function ViaPoints(start: GeoPoint, end: GeoPoint, len: real): (v: seq<seq<GeoPoint>>)
    requires IsLength(start, end, len)
    ensures |v| == 3
  {
    var w := WaypointOffsets(start, end, len);
    [[], [w.wayA], [w.wayB]]
  }

  /** What the three lookups resolve to. */
  function Outcomes(fetch: string -> Option<OsrmResponse>, num: real -> string, mode: string,
                    start: GeoPoint, end: GeoPoint, len: real): (o: seq<Option<RouteData>>)
    requires IsLength(start, end, len)
    ensures |o| == 3
  {
    var profile := ModeSettings(mode).profile;
    var via := ViaPoints(start, end, len);
    [RouteOf(fetch, num, start, end, profile, via[0]),
     RouteOf(fetch, num, start, end, profile, via[1]),
     RouteOf(fetch, num, start, end, profile, via[2])]
  }

  /** Ids strictly increase, so candidates keep the order 1, 2, 3. */
  predicate IdsIncreasing(routes: seq<RouteCandidate>) {
    forall i, j :: 0 <= i < j < |routes| ==> routes[i].id < routes[j].id
  }

  predicate HasId(routes: seq<RouteCandidate>, id: nat) {
    exists i :: 0 <= i < |routes| && routes[i].id == id
  }

  /** Number of successful lookups. */
  function Successes(outcomes: seq<Option<RouteData>>): (n: nat)
    ensures n <= |outcomes|
  {
    if outcomes == [] then 0
    else Successes(outcomes[..|outcomes| - 1]) + (if outcomes[|outcomes| - 1].Some? then 1 else 0)
  }

  /** What `Optional` contributes: one candidate, with its id, exactly
      when the lookup succeeded. */
  lemma OptionalFacts(id: nat, data: Option<RouteData>, speedTenths: nat)
    requires 1 <= id <= 3 && speedTenths > 0
    ensures var part := Optional(id, data, speedTenths);
      && |part| == (if data.Some? then 1 else 0)
      && (forall i :: 0 <= i < |part| ==> part[i].id == id && part[i] == MakeCandidate(id, data.value, speedTenths))
  {
  }

  /** Entry `i` of the list: its id is fixed by how many earlier lookups
      succeeded, and it is the candidate built from that lookup's data. */
  lemma AssembleAt(outcomes: seq<Option<RouteData>>, speedTenths: nat, i: nat)
    requires |outcomes| == 3 && speedTenths > 0 && i < |Assemble(outcomes, speedTenths)|
    ensures var routes := Assemble(outcomes, speedTenths);
      var a := |Optional(1, outcomes[0], speedTenths)|;
      var b := |Optional(2, outcomes[1], speedTenths)|;
      && routes[i].id == (if i < a then 1 else if i < a + b then 2 else 3)
      && outcomes[routes[i].id - 1].Some?
      && routes[i] == MakeCandidate(routes[i].id, outcomes[routes[i].id - 1].value, speedTenths)
  {
    var routes := Assemble(outcomes, speedTenths);
    var a := Optional(1, outcomes[0], speedTenths);
    var b := Optional(2, outcomes[1], speedTenths);
    var c := Optional(3, outcomes[2], speedTenths);
    OptionalFacts(1, outcomes[0], speedTenths);
    OptionalFacts(2, outcomes[1], speedTenths);
    OptionalFacts(3, outcomes[2], speedTenths);
    if i < |a| { assert routes[i] == a[i]; }
    else if i < |a| + |b| { assert routes[i] == b[i - |a|]; }
    else { assert routes[i] == c[i - |a| - |b|]; }
  }

  /** The list holds one candidate per successful lookup, so at most three. */
  lemma AssembleLength(outcomes: seq<Option<RouteData>>, speedTenths: nat)
    requires |outcomes| == 3 && speedTenths > 0
    ensures |Assemble(outcomes, speedTenths)| == Successes(outcomes) <= 3
  {
    OptionalFacts(1, outcomes[0], speedTenths);
    OptionalFacts(2, outcomes[1], speedTenths);
    OptionalFacts(3, outcomes[2], speedTenths);
    SuccessesOfThree(outcomes);
  }

  /** Candidates appear in request order: ids strictly increase. */
  lemma AssembleOrdered(outcomes: seq<Option<RouteData>>, speedTenths: nat)
    requires |outcomes| == 3 && speedTenths > 0
    ensures IdsIncreasing(Assemble(outcomes, speedTenths))
  {
    var routes := Assemble(outcomes, speedTenths);
    OptionalFacts(1, outcomes[0], speedTenths);
    OptionalFacts(2, outcomes[1], speedTenths);
    forall i, j | 0 <= i < j < |routes| ensures routes[i].id < routes[j].id {
      AssembleAt(outcomes, speedTenths, i);
      AssembleAt(outcomes, speedTenths, j);
    }
  }

  /** Candidate `id` is in the list exactly when lookup `id` succeeded. */
  lemma AssemblePresence(outcomes: seq<Option<RouteData>>, speedTenths: nat)
    requires |outcomes| == 3 && speedTenths > 0
    ensures var routes := Assemble(outcomes, speedTenths);
      forall id :: 1 <= id <= 3 ==> (HasId(routes, id) <==> outcomes[id - 1].Some?)
  {
    var routes := Assemble(outcomes, speedTenths);
    var a := |Optional(1, outcomes[0], speedTenths)|;
    var b := |Optional(2, outcomes[1], speedTenths)|;
    OptionalFacts(1, outcomes[0], speedTenths);
    OptionalFacts(2, outcomes[1], speedTenths);
    OptionalFacts(3, outcomes[2], speedTenths);
    forall id | 1 <= id <= 3 && HasId(routes, id) ensures outcomes[id - 1].Some? {
      var i :| 0 <= i < |routes| && routes[i].id == id;
      AssembleAt(outcomes, speedTenths, i);
    }
    forall id | 1 <= id <= 3 && outcomes[id - 1].Some? ensures HasId(routes, id) {
      var k := if id == 1 then 0 else if id == 2 then a else a + b;
      AssembleAt(outcomes, speedTenths, k);
    }
  }

  /** Every entry is the candidate built from its own lookup's data, with
      the fixed presentation of its id. */
  lemma AssembleContents(outcomes: seq<Option<RouteData>>, speedTenths: nat)
    requires |outcomes| == 3 && speedTenths > 0
    ensures var routes := Assemble(outcomes, speedTenths);
      forall i :: 0 <= i < |routes| ==>
        1 <= routes[i].id <= 3 && outcomes[routes[i].id - 1].Some? &&
        routes[i] == MakeCandidate(routes[i].id, outcomes[routes[i].id - 1].value, speedTenths)
  {
    var routes := Assemble(outcomes, speedTenths);
    forall i | 0 <= i < |routes|
      ensures 1 <= routes[i].id <= 3 && outcomes[routes[i].id - 1].Some?
      ensures routes[i] == MakeCandidate(routes[i].id, outcomes[routes[i].id - 1].value, speedTenths)
    {
      AssembleAt(outcomes, speedTenths, i);
    }
  }

  lemma SuccessesOfThree(outcomes: seq<Option<RouteData>>)
    requires |outcomes| == 3
    ensures Successes(outcomes) == (if outcomes[0].Some? then 1 else 0)
      + (if outcomes[1].Some? then 1 else 0) + (if outcomes[2].Some? then 1 else 0)
  {
    assert outcomes[..2][..1] == outcomes[..1] && outcomes[..1][..0] == [];
    assert outcomes[..3] == outcomes;
    assert Successes(outcomes[..1]) == (if outcomes[0].Some? then 1 else 0);
    assert Successes(outcomes[..2]) == Successes(outcomes[..1]) + (if outcomes[1].Some? then 1 else 0);
  }

  /** `generateRealRoutes(mode, start, end)`, with the router as `fetch`. */
  method GenerateRealRoutes(fetch: string -> Option<OsrmResponse>, num: real -> string, mode: string,
                            start: GeoPoint, end: GeoPoint, len: real)
    returns (results: seq<RouteCandidate>)
    requires IsLength(start, end, len)
    ensures results == Assemble(Outcomes(fetch, num, mode, start, end, len), ModeSettings(mode).speedTenths)
  {
    var settings := ModeSettings(mode);
    var speed := settings.speedTenths;
    ghost var outcomes := Outcomes(fetch, num, mode, start, end, len);
    results := [];

    var route1Data := GetOSRMRoute(fetch, num, start, end, settings.profile, []);
    assert [] == ViaPoints(start, end, len)[0];
    if route1Data.Some? {
      results := results + [MakeCandidate(1, route1Data.value, speed)];
    }
    assert results == Optional(1, outcomes[0], speed);

    var via := ViaPoints(start, end, len);

    var route2Data := GetOSRMRoute(fetch, num, start, end, settings.profile, via[1]);
    if route2Data.Some? {
      results := results + [MakeCandidate(2, route2Data.value, speed)];
    }
    assert results == Optional(1, outcomes[0], speed) + Optional(2, outcomes[1], speed);

    var route3Data := GetOSRMRoute(fetch, num, start, end, settings.profile, via[2]);
    if route3Data.Some? {
      results := results + [MakeCandidate(3, route3Data.value, speed)];
    }
    assert results == Assemble(outcomes, speed);
  }

  /** A failed detour request drops only its own candidate: the direct and
      the other detour remain, in their order. */
  lemma PartialFailure(r1: RouteData, r3: RouteData, speedTenths: nat)
    requires speedTenths > 0
    ensures var routes := Assemble([Some(r1), None, Some(r3)], speedTenths);
      |routes| == 2 && routes[0].id == 1 && routes[1].id == 3
  {
  }

  /** A 3.1 / 3.4 / 3.6 km drive gives green, yellow, red candidates with
      estimates of 10, 11 and 11 minutes. */
  lemma DrivingScenario(p1: Path, p2: Path, p3: Path)
    ensures var routes := Assemble([Some(RouteData(p1, 31, 0)), Some(RouteData(p2, 34, 0)),
                                    Some(RouteData(p3, 36, 0))], ModeSettings("driving").speedTenths);
      |routes| == 3 &&
      routes[0].color == "green" && routes[1].color == "yellow" && routes[2].color == "red" &&
      routes[0].safetyScore == 94 && routes[1].safetyScore == 72 && routes[2].safetyScore == 48 &&
      routes[0].eta == "10 mins" && routes[1].eta == "11 mins" && routes[2].eta == "11 mins" &&
      routes[0].distance == "3.1 km" && routes[2].distance == "3.6 km"
  {
    assert ModeSettings("driving").speedTenths == DefaultSpeed;
    CityLabels();
  }
}
