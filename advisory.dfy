/** The advisory text shown for a selected route: a score band with
    night-time addenda (`simulateAIAnalysis`) followed, when any applies,
    by a list of latent risks keyed by colour and hour (`predictRisk`).
    The hour of day is a parameter in place of the clock. */
module Advisory {
  import opened Common
  import opened Text
  import opened Routes

  const AnalysisPrefix: string := "Simulated Analysis: "
  // Each band's headline opens with its own symbol.
  const SafeMark: string := "\U{2705}"
  const RiskMark: string := "\U{26A0}"
  const ModerateMark: string := "\U{2696}"

  const SafeChoice: string := SafeMark + " SAFE CHOICE: High visibility area with frequent police patrols and 24/7 shops. Recommended for women and children."
  const StayVigilant: string := " \U{1F319} Even though it's safe, stay vigilant at night."
  const HighRisk: string := RiskMark + "\U{FE0F} HIGH RISK: Poor lighting and reported isolation. "
  const ExtremeCaution: string := "\U{1F6D1} EXTREME CAUTION: It is currently NIGHT time. Avoid this route at all costs if alone."
  const NotForSolo: string := "NOT recommended for solo travel, especially for women/children."
  const ModerateRisk: string := ModerateMark + "\U{FE0F} MODERATE: Main roads available but some dark patches. "
  const CarryTorch: string := "\U{1F526} Carry a torch or stay on the phone with a contact."
  const AvoidAlleys: string := "Stay on the main street and avoid alleys."
  const PredictionLead: string := "<br><br><strong>\U{1F9E0} AI Prediction:</strong> "

  const IndustrialZone: string := "Detected Industrial/Low-Populated Zone"
  const LowFootTraffic: string := "History of lower foot traffic after 10 PM"
  const UnlitParks: string := "Nearby Parks may be unlit/isolated at this hour"
  const FewerPatrols: string := "Even safe areas have reduced police presence at 3 AM"
  const RiskListOpen: string := "Potential Latent Risks detected based on historical patterns: <ul><li>"
  const RiskListSeparator: string := "</li><li>"
  const RiskListClose: string := "</li></ul>"

  /** 20:00 to 05:59. */
  predicate IsNight(hour: int) {
    hour >= 20 || hour < 6
  }

  /** 22:00 to 04:59. */
  predicate IsLateNight(hour: int) {
    hour >= 22 || hour < 5
  }

  // ---------------------------------------------------------------------
  // predictRisk

  /** The latent-risk items pushed for a route colour at an hour. */
  function RiskFactors(color: string, hour: int): seq<string> {
    if color == "red" then (if IsLateNight(hour) then [IndustrialZone, LowFootTraffic] else [IndustrialZone])
    else if color == "yellow" then (if IsLateNight(hour) then [UnlitParks] else [])
    else (if 2 <= hour < 5 then [FewerPatrols] else [])
  }

  /** The prediction text, or null when no item was pushed. */
  function PredictionOf(factors: seq<string>): Option<string> {
    if |factors| > 0 then Some(RiskListOpen + Join(factors, RiskListSeparator) + RiskListClose) else None
  }

  /** A prediction exists exactly when some item was pushed, and it names
      every item inside its list markup. */
  lemma PredictionNamesFactors(factors: seq<string>)
    ensures PredictionOf(factors).Some? <==> |factors| > 0
    ensures PredictionOf(factors).Some? ==>
      StartsWith(PredictionOf(factors).value, RiskListOpen) &&
      EndsWith(PredictionOf(factors).value, RiskListClose) &&
      forall i :: 0 <= i < |factors| ==> Contains(PredictionOf(factors).value, factors[i])
  {
    if |factors| > 0 {
      var body := Join(factors, RiskListSeparator);
      var text := RiskListOpen + body + RiskListClose;
      assert text[..|RiskListOpen|] == RiskListOpen;
      assert text[|text| - |RiskListClose|..] == RiskListClose;
      forall i | 0 <= i < |factors| ensures Contains(text, factors[i]) {
        JoinHolds(factors, RiskListSeparator, i);
        ContainsAppend(RiskListOpen, body, factors[i]);
        ContainsAppend(RiskListOpen + body, RiskListClose, factors[i]);
      }
    }
  }

  /** Red always leads with the industrial-zone item and adds the foot-traffic
      item exactly late at night; at most two items are ever pushed. */
  lemma RiskFactorsSpec(color: string, hour: int)
    ensures |RiskFactors(color, hour)| <= 2
    ensures color == "red" ==> RiskFactors(color, hour)[0] == IndustrialZone
    ensures color == "red" ==> (LowFootTraffic in RiskFactors(color, hour) <==> IsLateNight(hour))
    ensures color != "red" ==> IndustrialZone !in RiskFactors(color, hour)
  {
    // The four items have different lengths, hence are different.
    assert |IndustrialZone| == 38 && |LowFootTraffic| == 41;
    assert |UnlitParks| == 47 && |FewerPatrols| == 52;
  }

  /** `predictRisk(route, hour)`. */
  method PredictRisk(route: RouteCandidate, hour: int) returns (prediction: Option<string>)
    ensures prediction == PredictionOf(RiskFactors(route.color, hour))
    ensures route.color == "red" ==> prediction.Some?
    ensures route.color == "yellow" ==> (prediction.Some? <==> IsLateNight(hour))
    ensures route.color != "red" && route.color != "yellow" ==> (prediction.Some? <==> 2 <= hour < 5)
  {
    var riskFactors: seq<string> := [];
    var isLateNight := hour >= 22 || hour < 5;

    if route.color == "red" {
      riskFactors := riskFactors + [IndustrialZone];
      if isLateNight {
        riskFactors := riskFactors + [LowFootTraffic];
      }
    } else if route.color == "yellow" {
      if isLateNight {
        riskFactors := riskFactors + [UnlitParks];
      }
    } else {
      if hour >= 2 && hour < 5 {
        riskFactors := riskFactors + [FewerPatrols];
      }
    }

    assert riskFactors == RiskFactors(route.color, hour);
    if |riskFactors| > 0 {
      return Some(RiskListOpen + Join(riskFactors, RiskListSeparator) + RiskListClose);
    }
    return None;
  }

  // ---------------------------------------------------------------------
  // simulateAIAnalysis

  /** The three score bands, tested in this order: above 80, below 50, else. */
  datatype Band = Safe | Risky | Moderate

  function BandOf(score: int): (b: Band)
    ensures b == Safe <==> score > 80
    ensures b == Risky <==> score < 50
    ensures b == Moderate <==> 50 <= score <= 80
  {
    if score > 80 then Safe else if score < 50 then Risky else Moderate
  }

  /** The sentence each band opens with. */
  function Headline(b: Band): string {
    match b
    case Safe => SafeChoice
    case Risky => HighRisk
    case Moderate => ModerateRisk
  }

  /** The band's advice, with its night-time sentences when `night`. */
  function BandAdvice(b: Band, night: bool): string {
    match b
    case Safe => SafeChoice + (if night then StayVigilant else "")
    case Risky => HighRisk + (if night then ExtremeCaution else NotForSolo)
    case Moderate => ModerateRisk + (if night then CarryTorch + AvoidAlleys else "")
  }

  /** The text after the band advice: the prediction under its heading, if any. */
  function PredictionSection(prediction: Option<string>): string {
    if prediction.Some? then PredictionLead + prediction.value else ""
  }

  /** Proof helper, not a property of the program: regrouping a
      concatenation. Called as a lemma so the fact enters a proof only
      where it is needed. */
  lemma Assoc(a: string, b: string, c: string)
    ensures a + b + c == a + (b + c)
  {
  }

  /** The whole analysis for a score at an hour, given the prediction:
      prefix, band advice, then the prediction section (empty for null). */
  function AnalysisText(score: int, hour: int, prediction: Option<string>): string {
    AnalysisPrefix + BandAdvice(BandOf(score), IsNight(hour)) + PredictionSection(prediction)
  }

  /** Band advice, whatever follows it, opens with the band's headline. */
  lemma AdviceOpensWithHeadline(b: Band, night: bool, tail: string)
    ensures StartsWith(BandAdvice(b, night) + tail, Headline(b))
  {
    var h := Headline(b);
    var extra := match b
      case Safe => (if night then StayVigilant else "")
      case Risky => (if night then ExtremeCaution else NotForSolo)
      case Moderate => (if night then CarryTorch + AvoidAlleys else "");
    assert BandAdvice(b, night) == h + extra;
    Assoc(h, extra, tail);
    assert (h + (extra + tail))[..|h|] == h;
  }

  /** The three headlines open with different symbols, so a text opens
      with at most one of them. */
  lemma HeadlineExclusive(x: string, a: Band, b: Band)
    requires StartsWith(x, Headline(a))
    ensures StartsWith(x, Headline(b)) <==> a == b
  {
    if a != b {
      assert x[0] == Headline(a)[0];
      assert Headline(b)[0] != Headline(a)[0] by {
        assert SafeChoice[0] == SafeMark[0] && HighRisk[0] == RiskMark[0] && ModerateRisk[0] == ModerateMark[0];
      }
    }
  }

  /** After the fixed prefix the analysis opens with the headline of its
      own band and with no other band's headline. */
  lemma AnalysisNamesOneBand(score: int, hour: int, prediction: Option<string>, b: Band)
    ensures var text := AnalysisText(score, hour, prediction);
      StartsWith(text, AnalysisPrefix) &&
      (StartsWith(text[|AnalysisPrefix|..], Headline(b)) <==> b == BandOf(score))
  {
    var text := AnalysisText(score, hour, prediction);
    var own := BandOf(score);
    var advice, section := BandAdvice(own, IsNight(hour)), PredictionSection(prediction);
    Assoc(AnalysisPrefix, advice, section);
    assert text == AnalysisPrefix + (advice + section);
    assert text[..|AnalysisPrefix|] == AnalysisPrefix;
    assert text[|AnalysisPrefix|..] == advice + section;
    AdviceOpensWithHeadline(own, IsNight(hour), section);
    HeadlineExclusive(advice + section, own, b);
  }

  /** The prediction, under its heading, is the last thing appended, and
      only when there is one; the band text comes whole before it. */
  lemma PredictionComesLast(score: int, hour: int, prediction: Option<string>)
    ensures var text := AnalysisText(score, hour, prediction);
      var head := AnalysisPrefix + BandAdvice(BandOf(score), IsNight(hour));
      && StartsWith(text, head)
      && (prediction.None? ==> text == head)
      && (prediction.Some? ==> EndsWith(text, PredictionLead + prediction.value) &&
                               |text| == |head| + |PredictionLead| + |prediction.value|)
  {
    var head := AnalysisPrefix + BandAdvice(BandOf(score), IsNight(hour));
    var text := AnalysisText(score, hour, prediction);
    assert text[..|head|] == head;
    if prediction.None? {
      AppendEmpty(head);
    } else {
      assert text[|head|..] == PredictionLead + prediction.value;
    }
  }

  /** At night the high-risk band closes with the extreme-caution sentence,
      by day with the solo-travel one, never both. */
  lemma RiskyNightSentence(night: bool)
    ensures EndsWith(BandAdvice(Risky, night), ExtremeCaution) <==> night
    ensures EndsWith(BandAdvice(Risky, night), NotForSolo) <==> !night
  {
    var s := BandAdvice(Risky, night);
    // The two closing sentences differ in their next-to-last character.
    if night {
      assert s[|s| - 2] == 'e' && NotForSolo[|NotForSolo| - 2] == 'n';
    } else {
      assert s[|s| - 2] == 'n' && ExtremeCaution[|ExtremeCaution| - 2] == 'e';
    }
  }

  /** For the other two bands the night adds sentences after the day text. */
  lemma NightExtendsDay(b: Band)
    requires b != Risky
    ensures StartsWith(BandAdvice(b, true), BandAdvice(b, false))
    ensures |BandAdvice(b, true)| > |BandAdvice(b, false)|
  {
    var day, night := BandAdvice(b, false), BandAdvice(b, true);
    assert night[..|day|] == day;
  }

  /** `simulateAIAnalysis(route)` at the given hour. */
  method SimulateAIAnalysis(route: RouteCandidate, hour: int) returns (advice: string)
    ensures advice == AnalysisText(route.safetyScore, hour, PredictionOf(RiskFactors(route.color, hour)))
  {
    advice := AnalysisPrefix;
    var isNight := hour >= 20 || hour < 6;

    if route.safetyScore > 80 {
      advice := advice + SafeChoice;
      if isNight {
        Assoc(AnalysisPrefix, SafeChoice, StayVigilant);
        advice := advice + StayVigilant;
      }
    } else if route.safetyScore < 50 {
      advice := advice + HighRisk;
      if isNight {
        Assoc(AnalysisPrefix, HighRisk, ExtremeCaution);
        advice := advice + ExtremeCaution;
      } else {
        Assoc(AnalysisPrefix, HighRisk, NotForSolo);
        advice := advice + NotForSolo;
      }
    } else {
      advice := advice + ModerateRisk;
      if isNight {
        Assoc(AnalysisPrefix, ModerateRisk, CarryTorch);
        advice := advice + CarryTorch;
        Assoc(AnalysisPrefix + ModerateRisk, CarryTorch, AvoidAlleys);
        Assoc(ModerateRisk, CarryTorch, AvoidAlleys);
        Assoc(AnalysisPrefix, ModerateRisk, CarryTorch + AvoidAlleys);
        advice := advice + AvoidAlleys;
      }
    }
    assert advice == AnalysisPrefix + BandAdvice(BandOf(route.safetyScore), IsNight(hour));

    var prediction := PredictRisk(route, hour);
    if prediction.Some? {
      Assoc(advice, PredictionLead, prediction.value);
      advice := advice + PredictionLead + prediction.value;
    }
  }

  /** A green route at 23:00 gets the safe-choice text then the vigilance
      reminder and nothing else; at noon only the safe-choice text. */
  lemma GreenRouteByHour()
    ensures AnalysisText(94, 23, PredictionOf(RiskFactors("green", 23)))
         == AnalysisPrefix + SafeChoice + StayVigilant
    ensures AnalysisText(94, 12, PredictionOf(RiskFactors("green", 12)))
         == AnalysisPrefix + SafeChoice
  {
    assert RiskFactors("green", 23) == [] && RiskFactors("green", 12) == [];
    AppendEmpty(AnalysisPrefix + (SafeChoice + StayVigilant));
    Assoc(AnalysisPrefix, SafeChoice, StayVigilant);
    AppendEmpty(SafeChoice);
    AppendEmpty(AnalysisPrefix + SafeChoice);
  }

  /** Proof helper, not a property of the program: appending "" (a null
      prediction's section) changes nothing. */
  lemma AppendEmpty(a: string)
    ensures a + "" == a
  {
  }

  /** The colour a score band stands for. */
  function BandColor(b: Band): string {
    match b
    case Safe => "green"
    case Moderate => "yellow"
    case Risky => "red"
  }

  /** Every candidate the route list can hold carries the colour of the band
      its fixed score falls in (94, 72, 48 against 80 and 50). */
  lemma CandidateBandsMatchColours(outcomes: seq<Option<Osrm.RouteData>>, speedTenths: nat)
    requires |outcomes| == 3 && speedTenths > 0
    ensures var routes := Assemble(outcomes, speedTenths);
      forall i :: 0 <= i < |routes| ==> BandColor(BandOf(routes[i].safetyScore)) == routes[i].color
  {
    AssembleContents(outcomes, speedTenths);
  }
}
