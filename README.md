# SheMovesSafe route and advisory kernel in Dafny

This project models the route-building and advisory kernel of `script.js`, the browser client of SheMovesSafe. For a trip it asks the OSRM router for three paths:

- the direct best path;
- a path forced through waypoint A;
- a path forced through waypoint B.

A and B sit 0.004° to either side of the trip's midpoint, perpendicular to the start→end direction. Each path found becomes a candidate with a fixed name, colour, safety score and feature list. Its ETA comes from its distance and the travel mode's average speed.

When a candidate is selected, the client does two things:

- It warns if the path passes within a static high-risk zone, or if the route is red.
- It writes a "simulated AI" advisory. The advisory has a score band with night-time addenda, then a list of latent risks keyed by route colour and hour.

Around this sit three small helpers:

- the Mumbai bias of geocoding queries;
- the normalisation of Overpass elements into police stations and safe stops;
- the icon and 24-hour badge of a safe stop.

Modules (one file each):

- `Common`: `Option`, points, coordinate pairs.
- `Text`: the JavaScript string operations used. These are `includes`, ASCII `toLowerCase`, `join`/`split`, and integer printing. Each comes with its inverse or a characterisation.
- `Waypoints`: the perpendicular-offset geometry.
- `Estimates`: the mode→profile/speed mapping, `calculateETA`, `formatETA`, and the `"x.y km"` distance label.
- `Osrm`: `getOSRMRoute`. This covers the `lng,lat` coordinate string, the URL, the `[lng,lat]→[lat,lng]` swap, and rounding.
- `Routes`: `generateRealRoutes` and the candidate list it assembles.
- `RiskZones`: `RISK_ZONES`, `checkRiskZones`, and the warning condition of `selectRoute`.
- `Advisory`: `predictRisk` and `simulateAIAnalysis`.
- `Places`: geocode biasing, Overpass normalisation, and safe-stop icon and 24/7 classification.

The places the source does I/O or reads the clock become parameters:

- The router is `fetch: string -> Option<OsrmResponse>`. The URL goes in; `None` stands for a failed request or failed decoding.
- The geocoder is `search`.
- JavaScript's printing of a coordinate is `num: real -> string`.
- The haversine `calculateDistance` is `distance`.
- `new Date().getHours()` is `hour`.

Distances are whole tenths of a kilometre, because `toFixed(1)` followed by `parseFloat` yields exactly that. Speeds are tenths of km/h: 45, 300 and 200. So the ETA `ceil(60·d/s)` is computed exactly on integers.

Code that updates variables step by step is written as methods with loops or sequential updates. Each such method is proved equal to a specification function, and the properties are lemmas about that function:

- `GetOSRMRoute` with `BuildCoords`;
- `GenerateRealRoutes`;
- `CheckRiskZones`;
- `PredictRisk`;
- `SimulateAIAnalysis`.

Notes on the code's behaviour, which the model follows:

- **Requests run one after another.** `generateRealRoutes` awaits its three router requests in sequence (`script.js:328`, `375`, `392`). The outcomes are therefore three independent inputs, and a failed one drops only its own candidate.
- **Router duration is unused.** The ETA is always derived from the distance. The router's duration is computed (`script.js:295`) but never used.
- **Default speed is 20 km/h.** Every mode other than walking and scooter uses 20 km/h (`script.js:315`). The initial 25 is always overwritten.
- **No guard for start == end.** `Math.sqrt(0)` as the divisor leads to NaN waypoints (`script.js:358-360`). So `WaypointOffsets` requires a positive length `len` with `len² = Δlat² + Δlng²`.

Two notes on the source as written:

- **Waypoint A is on the left.** The code comment calls A the "Right turn deviation". But with latitude as the northward axis, A lies counter-clockwise of the direction of travel: `Cross(Δ, A − mid) = 0.004·len > 0`. That is a left turn. The model states the geometry, not the comment.
- **Missing space in the night-time moderate advice.** The two night-time sentences of the moderate band are appended with no space between them (`script.js:525-526`). The model reproduces the text exactly.

## Model

| member | source | states |
|---|---|---|
| Waypoints.WaypointOffsets | script.js:343-372 | For start ≠ end (with `len` the Euclidean length of Δ), the midpoint is the average of start and end. A and B are reflections of each other through it. The offset of A is perpendicular to Δ (zero dot product) and both offsets have squared length 0.004². A lies counter-clockwise of the direction of travel (cross product 0.004·len), and A ≠ B. |
| Estimates.ModeSettings | script.js:305-316 | The profile is "walking" iff the mode is walking, and otherwise "driving". The speed is 4.5 km/h iff walking and 30 km/h iff scooter; otherwise it is 20 km/h. |
| Estimates.EtaMinutes | script.js:319-322 | The ETA is the least whole number of minutes m with m·speed ≥ 60·distance, and it is 0 iff the distance is 0. |
| Estimates.EtaMonotone | script.js:319-322 | A longer distance never gets a smaller ETA at the same speed. |
| Estimates.ParseFormatEta | script.js:413-420 | `formatETA` is injective: reading the label back gives the total minutes. For t ≥ 60 the label is "H hr M min" with H = t div 60 and M = t mod 60, which reads back as 60·H + M. Otherwise it is "t mins". |
| Estimates.FormatEtaShape | script.js:413-420 | The label ends in " mins" iff t < 60; from one hour up it ends in " min". |
| Estimates.ParseDistanceLabelOf | script.js:330-337 | The `dist + " km"` label is "W km" for whole kilometres and "W.F km" otherwise. Reading it back gives the tenths. |
| Estimates.CityLabels | script.js:319-337 | At 20 km/h, 3.1, 3.4 and 3.6 km are labelled "10 mins", "11 mins" and "11 mins"; the distances print as "3.1 km" and "3.6 km". |
| Osrm.BuildCoords | script.js:279-283 | The `+=` loop over the via points builds start, via points and end, each as `lng,lat`, joined by ';'. |
| Osrm.CoordListFields | script.js:279-285 | When printed numbers contain neither ';' nor ',', the coordinate string has exactly one field per point, in order. Each field splits into the longitude then the latitude. |
| Osrm.SwapPath | script.js:291 | The path has one vertex per router coordinate, with each pair's components swapped. |
| Osrm.SwapPathTwice | script.js:291 | Swapping twice returns the router's coordinates. |
| Osrm.Ceil | script.js:295 | `Math.ceil` on a non-negative number: the least integer not below it. |
| Osrm.DistanceTenths | script.js:294 | The tenths of a kilometre are the distance in metres rounded to the nearest 100 m, halves up. |
| Osrm.GetOSRMRoute | script.js:277-302 | The result is null when the request fails or returns no route. Otherwise it is built from the first route, with its path the swapped coordinates of that route. |
| Routes.OptionalFacts | script.js:328-341 | A lookup pushes exactly one candidate, with its id, when its data is non-null, and none otherwise. |
| Routes.AssembleLength | script.js:324-410 | The list holds one candidate per successful lookup, so at most three. |
| Routes.AssembleOrdered | script.js:324-410 | Ids strictly increase along the list: candidates keep the order 1, 2, 3. |
| Routes.AssemblePresence | script.js:324-410 | Candidate k is in the list iff lookup k returned data. |
| Routes.AssembleContents | script.js:324-410 | Every entry is built from its own lookup's data. It carries the fixed name, colour, score and features of its id (1 Safest Path/green/94, 2 Alt. Route A/yellow/72, 3 Alt. Route B/red/48), with the ETA and label from its distance. |
| Routes.GenerateRealRoutes | script.js:304-411 | The list built by the three sequential lookups equals the assembly of their outcomes. The lookups are: none via, via A, via B, all on the mode's profile. |
| Routes.PartialFailure | script.js:374-405 | When only the detour via A fails, the list is the direct and the B candidates, in that order. |
| Routes.DrivingScenario | script.js:328-405 | Driving 3.1/3.4/3.6 km gives green/yellow/red candidates scored 94/72/48 with ETAs 10/11/11 mins. |
| RiskZones.PathHitsIff | script.js:737-748 | The vertex-by-vertex predicate holds iff some vertex and some zone are strictly closer than the radius in km. |
| RiskZones.PathHitsAppend | script.js:737-748 | A path hits iff one of its two parts does. Hence the empty path never hits, and appending vertices never clears a hit. |
| RiskZones.CheckRiskZones | script.js:737-748 | The nested loop with its early return answers true iff some (vertex, zone) pair is inside. |
| RiskZones.FirstZoneExample | script.js:732-735 | A vertex whose distance to the first zone's centre (19.0176, 72.8561) is under 1 km puts every path holding it inside a zone. |
| RiskZones.RiskAlert | script.js:759 | The warning fires iff the path enters a zone or the route is red. A red route always warns, and an empty path warns only when red. |
| Advisory.RiskFactorsSpec | script.js:548-560 | At most two items are pushed. Red always leads with the industrial-zone item and has the foot-traffic item iff late at night (≥ 22 or < 5). No other colour gets the industrial item. |
| Advisory.PredictRisk | script.js:539-566 | A red route always gets a prediction; yellow gets one iff late at night; any other colour iff 2 ≤ hour < 5. The result is the list markup of the pushed items, and null when none was pushed. |
| Advisory.PredictionNamesFactors | script.js:562-565 | A prediction exists iff some item was pushed. It opens and closes with the list markup and contains every item. |
| Advisory.BandOf | script.js:510-528 | The band is safe iff score > 80, high-risk iff score < 50, and moderate iff 50 ≤ score ≤ 80. |
| Advisory.AnalysisNamesOneBand | script.js:505-528 | After "Simulated Analysis: " the text opens with the headline of its own band and with no other band's headline. |
| Advisory.RiskyNightSentence | script.js:515-521 | The high-risk band ends with the extreme-caution sentence iff it is night (≥ 20 or < 6), and with the solo-travel sentence iff it is day. |
| Advisory.NightExtendsDay | script.js:510-528 | For the safe and moderate bands the night text strictly extends the day text. |
| Advisory.PredictionComesLast | script.js:530-536 | The band text comes whole first. The prediction, under its heading, is appended last iff there is one; without one nothing follows. |
| Advisory.SimulateAIAnalysis | script.js:505-537 | The `+=` chain produces prefix, band advice for the hour, then the prediction section of `predictRisk` for the same route and hour. |
| Advisory.GreenRouteByHour | script.js:505-537 | A green route (94) at 23:00 gets the safe-choice text and the vigilance reminder only; at noon it gets the safe-choice text only. |
| Advisory.CandidateBandsMatchColours | script.js:331-403 | Every candidate's fixed score falls in the band of its colour: 94 safe/green, 72 moderate/yellow, 48 high-risk/red. |
| Places.BiasQuery | script.js:146-150 | The biased query always mentions "india" once lower-cased and starts with the query. It equals the query iff the lower-cased query already contains "india"; otherwise it is the query followed by exactly ", Mumbai, India". |
| Places.BiasQueryIdempotent | script.js:146-150 | Biasing a biased query changes nothing. |
| Places.Geocode | script.js:143-150 | An empty query gives null without a search. Otherwise the result is that of searching for the biased query. |
| Places.Coordinate | script.js:231-232 | `el.lat \|\| el.center.lat` is the element's own coordinate unless it is missing or zero, and then the center's latitude (longitude for `lon`). It fails (a TypeError) exactly when that fallback needs a missing center. |
| Places.TagOr | script.js:233 | A present non-empty tag gives its value; an absent or empty tag gives the fallback, so a non-empty fallback gives a non-empty value. |
| Places.ToStation | script.js:230-234 | An element normalises iff it has tags and both coordinates resolve. The station then has those coordinates and its name is the `name` tag, else "Police Station" (never empty). |
| Places.ToSafeStop | script.js:263-267 | Same success condition and coordinates. The name is the `name` tag, else "Safe Stop". The type is amenity, else shop, else "Safe Spot", so it is never empty. The hours are the `opening_hours` tag exactly when it is present. |
| Places.MapAll | script.js:230-234 | The `map` succeeds iff every element normalises, and then gives one result per element in order. |
| Places.NormaliseAll | script.js:226-238 | One element that throws turns the whole result into the empty list (the catch). Otherwise the list is the element-wise normalisation. |
| Places.StopIcon | script.js:98-101 | Later conditions override earlier ones. The icon is the cafe iff the type contains "cafe", the hospital iff "hospital" but not "cafe", fuel iff "fuel" and neither of the others, and the store otherwise. |
| Places.IconAndBadge | script.js:103-105 | A fuel or hospital icon always comes with the 24/7 badge. A store icon has it iff the hours are "24/7". |
| Places.MarkerHtml | script.js:107-110 | The marker starts with the icon. For a 24/7 stop it is the icon followed by the 24h badge; otherwise it is the icon alone. |

## Left out

- **UI.** The Leaflet map, markers, cards, toasts, theme and splash screens, the `typeWriter` animation and the SOS/`localStorage` flow are DOM plumbing. Of `selectRoute` only the warning condition (`script.js:759`) is modelled; the look-up `routesData.find` and the delays are not.
- **Network and JSON.** The HTTP calls to Nominatim, Overpass and OSRM and their JSON decoding are the `fetch`/`search` parameters and the `Element`/`OsrmResponse` datatypes.
- **Overpass queries.** The `if (!bounds) return []` guards and the bounding-box and query text of `getPoliceStations`/`getSafeStops` (`script.js:211-227`, `241-260`) are not modelled. Bounds are a Leaflet object.
- **`reverseGeocode`** (`script.js:168-177`) is not modelled. It is a network call with a `toFixed(4)` fallback.
- **Haversine.** `calculateDistance` (`script.js:199-208`) is trigonometry. It is the uninterpreted `distance` parameter.
- **Floating point.** Coordinates are exact reals and the ETA is computed on exact integers. A JavaScript double can round `distanceKm / avgSpeedKmH * 60` to the other side of an integer, which the model does not capture.
- **Number printing.** `toFixed(1)` followed by `parseFloat` is modelled as rounding to tenths, halves up. Coordinate printing is the abstract `num`. Integer printing is `NatStr`, the JavaScript form for integers below 10^21.
- **Lower-casing.** `toLowerCase` is modelled for ASCII letters only; other scripts' case mappings are left out.
- **`envFactors`.** The table in `predictRisk` (`script.js:542-546`) is never read by the code and is not modelled.
- **Mock routes.** `generateMockRoutes` (`script.js:422-503`) is commented out and uses `Math.random`.
- **`app.py`** is not part of this model. It is a Flask server with a Gemini call; its fallback advice repeats the >80/<50 band rule.
- **Router duration.** The duration is carried in `RouteData` (`Ceil(duration/60)`) but, as in the source, never used.
- Waypoints.WaypointOffsets: requires start ≠ end, with the length passed in as a positive square root. For start == end the code yields NaN waypoints, which are not modelled.
- Routes.GenerateRealRoutes: requires start ≠ end (the same `IsLength` as `WaypointOffsets`). For start == end the source still sends the direct request first, so it can return the direct candidate. It then sends the two waypoint requests with NaN coordinates. The model promises nothing for that trip.
- Places.Coordinate: assumes a center, when present, carries both coordinates. A center missing one would give `undefined`, not an error; this is not modelled.
- Places.Geocode: the decoding of the first hit (`parseFloat` of lat/lon, `display_name`) and the null result for no hits or an error are inside the `search` parameter. Only the `""` case of the falsy-query condition is modelled; `null` and `undefined` queries are not.
- Places.NormaliseAll: a response without `elements` (which also lands in the catch) is not modelled. Elements arrive as a sequence.
