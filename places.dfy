/** Place helpers around the searches: the Mumbai bias of a geocoding
    query, the normalisation of Overpass elements into police stations and
    safe stops, and the icon and round-the-clock badge of a safe stop.
    The HTTP requests are parameters. */
module Places {
  import opened Common
  import opened Text

  // ---------------------------------------------------------------------
  // geocode

  const RegionSuffix: string := ", Mumbai, India"

  /** The query sent to the geocoder: Mumbai, India is appended unless the
      lower-cased query already mentions India. */
  function BiasQuery(query: string): (q: string)
    ensures Contains(Lower(q), "india")
    ensures StartsWith(q, query)
    ensures q == query <==> Contains(Lower(query), "india")
    ensures !Contains(Lower(query), "india") ==> q == query + RegionSuffix
  {
    if Contains(Lower(query), "india") then query
    else
      SuffixMentionsIndia(query);
      query + RegionSuffix
  }

  lemma LowerIndia()
    ensures Lower("India") == "india"
  {
    assert Lower("a") == "a";
    assert Lower("ia") == "ia";
    assert Lower("dia") == "dia";
    assert Lower("ndia") == "ndia";
  }

  lemma SuffixMentionsIndia(query: string)
    ensures Contains(Lower(query + RegionSuffix), "india")
  {
    assert query + RegionSuffix == query + ", Mumbai, " + "India";
    LowerAppend(query + ", Mumbai, ", "India");
    LowerIndia();
    var p := Lower(query + ", Mumbai, ");
    assert (p + "india")[|p|..|p| + 5] == "india";
    assert OccursAt(p + "india", "india", |p|);
  }

  /** Biasing is idempotent: a biased query is left as it is. */
  lemma BiasQueryIdempotent(query: string)
    ensures BiasQuery(BiasQuery(query)) == BiasQuery(query)
  {
  }

  /** A geocoding hit. */
  datatype Place = Place(lat: real, lng: real, name: string)

  /** `geocode(query)`: an empty query gives null without a search;
      otherwise the result of searching for the biased query (null when
      the search finds nothing or fails). */
  function Geocode(search: string -> Option<Place>, query: string): (r: Option<Place>)
    ensures query == "" ==> r == None
    ensures query != "" ==> r == search(BiasQuery(query))
  {
    if query == "" then None else search(BiasQuery(query))
  }

  // ---------------------------------------------------------------------
  // Overpass elements

  datatype Center = Center(lat: real, lon: real)

  /** A decoded Overpass element: nodes carry lat/lon, ways and relations
      a center; `tags` may be absent. */
  datatype Element = Element(lat: Option<real>, lon: Option<real>, center: Option<Center>,
                             tags: Option<map<string, string>>)

  datatype Station = Station(lat: real, lon: real, name: string)

  datatype SafeStop = SafeStop(lat: real, lon: real, name: string, kind: string, hours: Option<string>)

  /** `own || center.x`: the element's own coordinate unless it is missing
      or zero, then the center's; None when that needs a missing center
      (a TypeError). */
  function Coordinate(own: Option<real>, center: Option<Center>, isLat: bool): (r: Option<real>)
    ensures own.Some? && own.value != 0.0 ==> r == own
    ensures r.None? <==> (own.None? || own.value == 0.0) && center.None?
    ensures (own.None? || own.value == 0.0) && center.Some? ==>
      r == Some(if isLat then center.value.lat else center.value.lon)
  {
    if own.Some? && own.value != 0.0 then own
    else if center.Some? then Some(if isLat then center.value.lat else center.value.lon)
    else None
  }

  /** `tags[key] || fallback`: an absent or empty tag gives the fallback. */
  function TagOr(tags: map<string, string>, key: string, fallback: string): (v: string)
    ensures fallback != "" ==> v != ""
    ensures key in tags && tags[key] != "" ==> v == tags[key]
    ensures !(key in tags && tags[key] != "") ==> v == fallback
  {
    if key in tags && tags[key] != "" then tags[key] else fallback
  }

  /** A police station: its coordinates resolved as above, its name the
      `name` tag, else "Police Station". */
  function ToStation(el: Element): (s: Option<Station>)
    ensures s.Some? ==> s.value.name != ""
    ensures s.Some? <==> el.tags.Some? && Coordinate(el.lat, el.center, true).Some?
                         && Coordinate(el.lon, el.center, false).Some?
    ensures s.Some? ==>
      && s.value.lat == Coordinate(el.lat, el.center, true).value
      && s.value.lon == Coordinate(el.lon, el.center, false).value
      && s.value.name == TagOr(el.tags.value, "name", "Police Station")
  {
    var lat := Coordinate(el.lat, el.center, true);
    var lon := Coordinate(el.lon, el.center, false);
    if lat.None? || lon.None? || el.tags.None? then None
    else Some(Station(lat.value, lon.value, TagOr(el.tags.value, "name", "Police Station")))
  }

  /** A safe stop: coordinates as for a station, the name tag else
      "Safe Stop", the type amenity else shop else "Safe Spot", and the
      opening hours when tagged. */
  function ToSafeStop(el: Element): (s: Option<SafeStop>)
    ensures s.Some? ==> s.value.name != "" && s.value.kind != ""
    ensures s.Some? <==> el.tags.Some? && Coordinate(el.lat, el.center, true).Some?
                         && Coordinate(el.lon, el.center, false).Some?
    ensures s.Some? ==>
      && s.value.lat == Coordinate(el.lat, el.center, true).value
      && s.value.lon == Coordinate(el.lon, el.center, false).value
      && s.value.name == TagOr(el.tags.value, "name", "Safe Stop")
      && s.value.kind == TagOr(el.tags.value, "amenity", TagOr(el.tags.value, "shop", "Safe Spot"))
      && (s.value.hours.Some? <==> "opening_hours" in el.tags.value)
      && (s.value.hours.Some? ==> s.value.hours.value == el.tags.value["opening_hours"])
  {
    var lat := Coordinate(el.lat, el.center, true);
    var lon := Coordinate(el.lon, el.center, false);
    if lat.None? || lon.None? || el.tags.None? then None
    else
      var tags := el.tags.value;
      var kind := TagOr(tags, "amenity", TagOr(tags, "shop", "Safe Spot"));
      var hours := if "opening_hours" in tags then Some(tags["opening_hours"]) else None;
      Some(SafeStop(lat.value, lon.value, TagOr(tags, "name", "Safe Stop"), kind, hours))
  }

  /** `elements.map(f)` inside the try block: None if any element throws. */
  function MapAll<T>(elements: seq<Element>, f: Element -> Option<T>): (r: Option<seq<T>>)
    ensures r.Some? <==> forall i :: 0 <= i < |elements| ==> f(elements[i]).Some?
    ensures r.Some? ==> |r.value| == |elements|
    ensures r.Some? ==> forall i :: 0 <= i < |elements| ==> r.value[i] == f(elements[i]).value
  {
    if elements == [] then Some([])
    else
      var head := f(elements[0]);
      var tail := MapAll(elements[1..], f);
      if head.None? || tail.None? then
        assert head.None? ==> !f(elements[0]).Some?;
        None
      else Some([head.value] + tail.value)
  }

  /** The list a search resolves to: every element normalised, or the empty
      list when the normalisation throws for any of them. */
  function NormaliseAll<T>(elements: seq<Element>, f: Element -> Option<T>): (r: seq<T>)
    ensures (exists i :: 0 <= i < |elements| && f(elements[i]).None?) ==> r == []
    ensures (forall i :: 0 <= i < |elements| ==> f(elements[i]).Some?) ==>
      |r| == |elements| && forall i :: 0 <= i < |elements| ==> r[i] == f(elements[i]).value
  {
    var all := MapAll(elements, f);
    if all.Some? then all.value else []
  }

  /** The stations of `getPoliceStations` for a decoded response. */
  function PoliceStations(elements: seq<Element>): seq<Station> {
    NormaliseAll(elements, ToStation)
  }

  /** The stops of `getSafeStops` for a decoded response. */
  function SafeStops(elements: seq<Element>): seq<SafeStop> {
    NormaliseAll(elements, ToSafeStop)
  }

  // ---------------------------------------------------------------------
  // Safe-stop markers

  const StoreIcon: string := "\U{1F3EA}"
  const FuelIcon: string := "\U{26FD}"
  const HospitalIcon: string := "\U{1F3E5}"
  const CafeIcon: string := "\U{2615}"
  const Badge24h: string := "<span class=\"badge-24h\">24h</span>"

  /** The icon of a stop: the store by default, overridden in turn by fuel,
      hospital and cafe, so the last matching word wins. */
  function StopIcon(kind: string): (icon: string)
    ensures icon == CafeIcon <==> Contains(kind, "cafe")
    ensures icon == HospitalIcon <==> Contains(kind, "hospital") && !Contains(kind, "cafe")
    ensures icon == FuelIcon <==>
      Contains(kind, "fuel") && !Contains(kind, "hospital") && !Contains(kind, "cafe")
    ensures icon == StoreIcon <==>
      !Contains(kind, "fuel") && !Contains(kind, "hospital") && !Contains(kind, "cafe")
  {
    var icon := StoreIcon;
    var icon := if Contains(kind, "fuel") then FuelIcon else icon;
    var icon := if Contains(kind, "hospital") then HospitalIcon else icon;
    if Contains(kind, "cafe") then CafeIcon else icon
  }

  /** Open round the clock: listed as "24/7", or a fuel station or hospital. */
  predicate Is247(stop: SafeStop) {
    stop.hours == Some("24/7") || Contains(stop.kind, "fuel") || Contains(stop.kind, "hospital")
  }

  /** A fuel or hospital icon always comes with the badge; a stop with the
      plain store icon has it only when its hours say "24/7". */
  lemma IconAndBadge(stop: SafeStop)
    ensures StopIcon(stop.kind) in {FuelIcon, HospitalIcon} ==> Is247(stop)
    ensures StopIcon(stop.kind) == StoreIcon ==> (Is247(stop) <==> stop.hours == Some("24/7"))
  {
  }

  /** The marker's HTML: the icon, then the 24h badge for a 24/7 stop. */
  function MarkerHtml(stop: SafeStop): (html: string)
    ensures StartsWith(html, StopIcon(stop.kind))
    ensures Is247(stop) <==> |html| > |StopIcon(stop.kind)|
    ensures Is247(stop) ==> EndsWith(html, Badge24h) && |html| == |StopIcon(stop.kind)| + |Badge24h|
    ensures !Is247(stop) ==> html == StopIcon(stop.kind)
  {
    var html := StopIcon(stop.kind);
    if Is247(stop) then html + Badge24h else html
  }
}
