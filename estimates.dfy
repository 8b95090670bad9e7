/** Travel-mode settings, the distance-based arrival estimate and the two
    labels a route card shows: the estimate and the distance. Distances are
    whole tenths of a kilometre (the router's distance after `toFixed(1)`)
    and speeds whole tenths of km/h, so the estimate is exact. */
module Estimates {
  import opened Common
  import opened Text

  /** The router profile and the average speed, in tenths of km/h,
      that a travel mode selects. */
  datatype Settings = Settings(profile: string, speedTenths: nat)

  const WalkingSpeed: nat := 45
  const ScooterSpeed: nat := 300
  const DefaultSpeed: nat := 200

  /** Walking keeps the walking profile at 4.5 km/h; a scooter is routed
      as driving at 30 km/h; every other mode is driving at 20 km/h. The
      25 km/h the source starts from is overwritten on every branch. */
  function ModeSettings(mode: string): (s: Settings)
    ensures s.profile == "walking" <==> mode == "walking"
    ensures s.profile != "walking" ==> s.profile == "driving"
    ensures s.speedTenths == WalkingSpeed <==> mode == "walking"
    ensures s.speedTenths == ScooterSpeed <==> mode == "scooter"
    ensures s.speedTenths in {WalkingSpeed, ScooterSpeed, DefaultSpeed}
  {
    if mode == "walking" then Settings("walking", WalkingSpeed)
    else if mode == "scooter" then Settings("driving", ScooterSpeed)
    else Settings("driving", DefaultSpeed)
  }

  /** `Math.ceil(distanceKm / avgSpeedKmH * 60)` for a distance of
      `distTenths`/10 km at `speedTenths`/10 km/h: the least whole number
      of minutes that covers the trip. */
  function EtaMinutes(distTenths: nat, speedTenths: nat): (m: nat)
    requires speedTenths > 0
    ensures 60 * distTenths <= m * speedTenths
    ensures m == 0 || (m - 1) * speedTenths < 60 * distTenths
    ensures m == 0 <==> distTenths == 0
  {
    var m := (60 * distTenths + speedTenths - 1) / speedTenths;
    CeilDiv(60 * distTenths, speedTenths);
    m
  }

  lemma CeilDiv(a: nat, b: nat)
    requires b > 0
    ensures a <= ((a + b - 1) / b) * b
    ensures (a + b - 1) / b == 0 || ((a + b - 1) / b - 1) * b < a
    ensures (a + b - 1) / b == 0 <==> a == 0
  {
    var q, r := (a + b - 1) / b, (a + b - 1) % b;
    assert q * b + r == a + b - 1;
    assert (q - 1) * b == q * b - b;
  }

  /** A longer trip never gets an earlier estimate. */
  lemma EtaMonotone(d1: nat, d2: nat, speedTenths: nat)
    requires speedTenths > 0 && d1 <= d2
    ensures EtaMinutes(d1, speedTenths) <= EtaMinutes(d2, speedTenths)
  {
    var m1, m2 := EtaMinutes(d1, speedTenths), EtaMinutes(d2, speedTenths);
    if m1 > 0 {
      assert (m1 - 1) * speedTenths < m2 * speedTenths;
      ScaleCancel(m1 - 1, m2, speedTenths);
    }
  }

  lemma ScaleCancel(a: int, b: int, c: nat)
    requires c > 0 && a * c < b * c
    ensures a < b
  {
    assert (b - a) * c > 0;
  }

  // ---------------------------------------------------------------------
  // formatETA

  /** Under an hour: "M mins"; otherwise "H hr M min". */
  function FormatEta(totalMinutes: nat): string {
    if totalMinutes >= 60 then
      NatStr(totalMinutes / 60) + " hr " + NatStr(totalMinutes % 60) + " min"
    else
      NatStr(totalMinutes) + " mins"
  }

  /** Reads a label of either shape back into minutes. */
  function ParseEta(s: string): Option<nat> {
    var w := Split(s, ' ');
    if |w| == 2 && Numeral(w[0]) && w[1] == "mins" then Some(ParseNat(w[0]))
    else if |w| == 4 && Numeral(w[0]) && w[1] == "hr" && Numeral(w[2]) && w[3] == "min" then
      Some(60 * ParseNat(w[0]) + ParseNat(w[2]))
    else None
  }

  predicate Numeral(s: string) {
    s != [] && AllDigits(s)
  }

  /** The words of a label, as they sit between its spaces. */
  function EtaWords(t: nat): seq<string> {
    if t >= 60 then [NatStr(t / 60), "hr", NatStr(t % 60), "min"] else [NatStr(t), "mins"]
  }

  lemma JoinFour(a: string, b: string, c: string, d: string, sep: string)
    ensures Join([a, b, c, d], sep) == a + sep + b + sep + c + sep + d
  {
    var w := [a, b, c, d];
    assert w[..3][..2] == w[..2] && w[..2][..1] == w[..1];
    assert Join(w[..1], sep) == a;
    assert Join(w[..2], sep) == a + sep + b;
    assert Join(w[..3], sep) == a + sep + b + sep + c;
  }

  lemma LongLabelWords(h: string, m: string)
    ensures h + " hr " + m + " min" == Join([h, "hr", m, "min"], " ")
  {
    JoinFour(h, "hr", m, "min", " ");
    assert h + " hr " + m + " min" == h + " " + "hr" + " " + m + " " + "min";
  }

  lemma ShortLabelWords(n: string)
    ensures n + " mins" == Join([n, "mins"], " ")
  {
    assert [n, "mins"][..1] == [n];
  }

  lemma FormatEtaWords(t: nat)
    ensures FormatEta(t) == Join(EtaWords(t), " ")
  {
    if t >= 60 {
      LongLabelWords(NatStr(t / 60), NatStr(t % 60));
    } else {
      ShortLabelWords(NatStr(t));
    }
  }

  lemma DigitsHaveNoSpace(n: string)
    requires AllDigits(n)
    ensures Free(n, ' ')
  {
  }

  /** Reading back the words of a label under an hour. */
  lemma ParseShortWords(n: string)
    requires Numeral(n)
    ensures ParseEta(Join([n, "mins"], " ")) == Some(ParseNat(n))
  {
    DigitsHaveNoSpace(n);
    SplitJoin([n, "mins"], ' ');
  }

  /** Reading back the words of a label of an hour or more. */
  lemma ParseLongWords(h: string, m: string)
    requires Numeral(h) && Numeral(m)
    ensures ParseEta(Join([h, "hr", m, "min"], " ")) == Some(60 * ParseNat(h) + ParseNat(m))
  {
    DigitsHaveNoSpace(h);
    DigitsHaveNoSpace(m);
    SplitJoin([h, "hr", m, "min"], ' ');
  }

  /** The label determines the estimate: reading it back gives the minutes,
      so hours and minutes satisfy H*60 + M == t with M < 60. */
  lemma ParseFormatEta(t: nat)
    ensures ParseEta(FormatEta(t)) == Some(t)
  {
    FormatEtaWords(t);
    if t >= 60 {
      ParseLongWords(NatStr(t / 60), NatStr(t % 60));
      ParseNatStr(t / 60);
      ParseNatStr(t % 60);
    } else {
      ParseShortWords(NatStr(t));
      ParseNatStr(t);
    }
  }

  /** At the default 20 km/h, 3.1, 3.4 and 3.6 km take 9.3, 10.2 and
      10.8 minutes, shown rounded up. */
  lemma CityLabels()
    ensures FormatEta(EtaMinutes(31, DefaultSpeed)) == "10 mins"
    ensures FormatEta(EtaMinutes(34, DefaultSpeed)) == "11 mins"
    ensures FormatEta(EtaMinutes(36, DefaultSpeed)) == "11 mins"
    ensures DistanceLabel(31) == "3.1 km" && DistanceLabel(36) == "3.6 km"
  {
    assert EtaMinutes(31, DefaultSpeed) == 10;
    assert EtaMinutes(34, DefaultSpeed) == 11 && EtaMinutes(36, DefaultSpeed) == 11;
  }

  /** The short form is used exactly for estimates under an hour. */
  lemma FormatEtaShape(t: nat)
    ensures t < 60 <==> EndsWith(FormatEta(t), " mins")
    ensures t >= 60 ==> EndsWith(FormatEta(t), " min")
  {
    var s := FormatEta(t);
    if t >= 60 {
      assert s[|s| - 1] == 'n';
      assert " mins"[4] == 's';
    }
  }

  // ---------------------------------------------------------------------
  // `dist + " km"`, where dist is the number parsed from `toFixed(1)`

  /** How JavaScript prints tenths of a kilometre: a whole number drops
      its ".0". */
  function DistanceLabel(distTenths: nat): string {
    if distTenths % 10 == 0 then NatStr(distTenths / 10) + " km"
    else NatStr(distTenths / 10) + "." + [DigitChar(distTenths % 10)] + " km"
  }

  function ParseDistanceLabel(s: string): Option<nat> {
    var k := DigitRun(s);
    if k == 0 then None
    else
      var whole := ParseNat(s[..k]);
      var rest := s[k..];
      if rest == " km" then Some(10 * whole)
      else if |rest| == 5 && rest[0] == '.' && IsDigit(rest[1]) && rest[2..] == " km" then
        Some(10 * whole + (rest[1] as int - '0' as int))
      else None
  }

  /** The distance label states the distance exactly. */
  lemma {:induction false} ParseDistanceLabelOf(d: nat)
    ensures ParseDistanceLabel(DistanceLabel(d)) == Some(d)
  {
    var w := NatStr(d / 10);
    var s := DistanceLabel(d);
    ParseNatStr(d / 10);
    if d % 10 == 0 {
      DigitRunOf(w, " km");
      assert s[..|w|] == w && s[|w|..] == " km";
    } else {
      var tail := "." + [DigitChar(d % 10)] + " km";
      assert s == w + tail;
      DigitRunOf(w, tail);
      assert s[..|w|] == w && s[|w|..] == tail;
      assert tail[2..] == " km";
    }
  }
}
