/**
 * The compliance decision engine: turns a wallet-exposure assessment into
 * an approval or a rejection with its reason, together with the record of
 * every contribution the rules inspected ("triggered rules"), kept per side
 * (Source, then Destination).
 */
module Compliance {
  import opened Optional
  import opened Text
  import opened Categories

  // ---------------------------------------------------------------------
  // The assessment payload. Each optional field of the JSON answer is an
  // Option; a missing list is the empty sequence.
  // ---------------------------------------------------------------------

  /**
   * One contribution: `min_number_of_hops`, `indirect_percentage`, and
   * `risk_triggers.country`, which is None when that field is absent or is
   * not a list.
   */
  datatype Contribution = Contribution(
    minHops: Option<int>,
    indirectPercentage: Option<real>,
    countries: Option<seq<string>>)

  datatype MatchedElement = MatchedElement(categoryId: Option<string>, contributions: seq<Contribution>)

  datatype Exposure = Exposure(matchedElements: seq<MatchedElement>)

  /** `risk_score` and the `evaluation_detail` source and destination exposure lists. */
  datatype Assessment = Assessment(riskScore: Option<real>, source: seq<Exposure>, destination: seq<Exposure>)

  // ---------------------------------------------------------------------
  // Configuration
  // ---------------------------------------------------------------------

  datatype Thresholds = Thresholds(
    riskScoreThreshold: real,
    maxHopDistance: int,
    gamblingHopLimit: int,
    gamblingContributionThreshold: real,
    highRiskCategories: set<string>,
    highRiskCountries: set<string>)

  /** The shipped configuration values. */
  const DefaultThresholds := Thresholds(
    5.0, 3, 2, 3.0,
    {
      "Dark Forum", "Phishing", "Dark Market - Centralised", "Dark Market - Decentralised",
      "Dark Vendor Shop", "Ponzi Scheme", "Ransomware", "Dark Service", "Activist Fundraising",
      "Child Sexual Abuse Material Vendor", "Terrorist Organisation", "OFAC Sanctioned Entity",
      "Criminal Organisation", "Extortion", "Known Criminal", "FinCEN Primary Money Laundering Concern",
      "Shielded", "Mixer", "High Transaction Fee", "Research Chemicals", "Charity", "Scam",
      "Credit Card Data Vendor", "Malware", "Political Campaign", "Reported Loss"
    },
    {"IR", "CU", "VE", "KP", "SY", "MM", "UA-43", "UA-14", "UA-09", "UA-23", "UA-65", "RU"})

  /**
   * Floating-point helpers the engine uses but that are not modelled:
   * `round(x, 2)`, `str(x)` and `format(x, ".2f")`.
   */
  datatype Numerics = Numerics(round2: real -> real, repr: real -> string, fixed2: real -> string)

  /** Defaults for absent contribution fields. */
  const MissingHops := 999
  const MissingPercentage := 0.0

  const GamblingCategory := "Gambling"
  /** The one hop distance at which a large Gambling contribution is rejected. */
  const GamblingSpecialHops := 3

  function Hops(c: Contribution): int {
    c.minHops.GetOr(MissingHops)
  }

  function Percentage(c: Contribution): real {
    c.indirectPercentage.GetOr(MissingPercentage)
  }

  // ---------------------------------------------------------------------
  // The verdict
  // ---------------------------------------------------------------------

  /** One entry of `triggered_rules`. */
  datatype RuleHit = RuleHit(category: string, hops: int, contribution: real)

  datatype Reason =
    | NoRiskScore
    | HighRiskScore(score: real)
    | HighRiskCategory(category: string, hops: int)
    | HighRiskCountry(country: string, hops: int)
    | GamblingWithinLimit(hops: int)
    | GamblingAtThreeHops(contribution: real)
    | AllChecksPassed

  /** The decision, the `details` of the source (reason, risk score, triggered rules per side). */
  datatype Verdict = Verdict(
    approved: bool,
    reason: Reason,
    riskScore: Option<real>,
    source: seq<RuleHit>,
    destination: seq<RuleHit>)

  function ReasonText(r: Reason, num: Numerics): string {
    match r
    case NoRiskScore => "No risk score found"
    case HighRiskScore(s) => "High Risk Score (" + num.repr(s) + ")"
    case HighRiskCategory(c, h) => c + " detected within " + IntToString(h) + " hops"
    case HighRiskCountry(code, h) => "High-risk country " + code + " detected within " + IntToString(h) + " hops"
    case GamblingWithinLimit(h) => "Gambling found at " + IntToString(h) + " hops"
    case GamblingAtThreeHops(p) => "Gambling at 3 hops with " + num.fixed2(p) + "% contribution"
    case AllChecksPassed => "All compliance checks passed"
  }

  /** The decision string: "Approved", or "Rejected - " followed by the reason. */
  function DecisionText(v: Verdict, num: Numerics): string {
    if v.approved then "Approved" else "Rejected - " + ReasonText(v.reason, num)
  }

  /** The decision string tells approvals and rejections apart by its first word. */
  lemma DecisionTextPrefix(v: Verdict, num: Numerics)
    ensures StartsWith(DecisionText(v, num), "Approved") <==> v.approved
    ensures StartsWith(DecisionText(v, num), "Rejected") <==> !v.approved
    ensures v.approved ==> DecisionText(v, num) == "Approved"
  {
    var d := DecisionText(v, num);
    if !v.approved {
      assert d[..8] == "Rejected";
      assert d[..8] != "Approved";
    } else {
      assert d[..8][0] == 'A';
    }
  }

  // ---------------------------------------------------------------------
  // The walk, flattened: every contribution of a side, in the order the
  // nested loops meet them, paired with its element's category id.
  // ---------------------------------------------------------------------

  datatype Visit = Visit(categoryId: string, contribution: Contribution)

  function ElementCategoryId(e: MatchedElement): string {
    e.categoryId.GetOr(UnknownCategory)
  }

  function ContributionVisits(id: string, cs: seq<Contribution>): seq<Visit> {
    if cs == [] then [] else ContributionVisits(id, cs[..|cs| - 1]) + [Visit(id, cs[|cs| - 1])]
  }

  function ElementVisits(els: seq<MatchedElement>): seq<Visit> {
    if els == [] then []
    else
      var e := els[|els| - 1];
      ElementVisits(els[..|els| - 1]) + ContributionVisits(ElementCategoryId(e), e.contributions)
  }

  /** All contributions of one side, in visiting order. */
  function SideVisits(exps: seq<Exposure>): seq<Visit> {
    if exps == [] then [] else SideVisits(exps[..|exps| - 1]) + ElementVisits(exps[|exps| - 1].matchedElements)
  }

  /** The entry logged for a visited contribution. */
  function HitOf(v: Visit, mapping: map<string, string>, num: Numerics): RuleHit {
    RuleHit(CategoryName(mapping, v.categoryId), Hops(v.contribution), num.round2(Percentage(v.contribution)))
  }

  /** The first listed country that is high-risk, when the contribution is within the hop limit. */
  function FirstHighRiskCountry(codes: seq<string>, hops: int, cfg: Thresholds): (r: Option<string>)
    ensures r.Some? ==> r.value in codes && r.value in cfg.highRiskCountries && hops <= cfg.maxHopDistance
  {
    if codes == [] then None
    else if codes[0] in cfg.highRiskCountries && hops <= cfg.maxHopDistance then Some(codes[0])
    else FirstHighRiskCountry(codes[1..], hops, cfg)
  }

  /** A reason a contribution rule gives, as opposed to the risk-score gate or an approval. */
  predicate IsRuleReason(r: Reason) {
    r.HighRiskCategory? || r.HighRiskCountry? || r.GamblingWithinLimit? || r.GamblingAtThreeHops?
  }

  /** Rules 2 to 4 on one contribution, in their order; None when none fires. */
  function RuleFor(v: Visit, mapping: map<string, string>, cfg: Thresholds): (r: Option<Reason>)
    ensures r.Some? ==> IsRuleReason(r.value)
  {
    var name := CategoryName(mapping, v.categoryId);
    var hops := Hops(v.contribution);
    if v.categoryId in HighRiskIds(mapping, cfg.highRiskCategories) && hops <= cfg.maxHopDistance then
      Some(HighRiskCategory(name, hops))
    else if v.contribution.countries.Some? && FirstHighRiskCountry(v.contribution.countries.value, hops, cfg).Some? then
      Some(HighRiskCountry(FirstHighRiskCountry(v.contribution.countries.value, hops, cfg).value, hops))
    else if name == GamblingCategory then
      if hops <= cfg.gamblingHopLimit then Some(GamblingWithinLimit(hops))
      else if hops == GamblingSpecialHops && Percentage(v.contribution) > cfg.gamblingContributionThreshold then
        Some(GamblingAtThreeHops(Percentage(v.contribution)))
      else None
    else None
  }

  /** No rule fires on any of `vs`. */
  predicate Quiet(vs: seq<Visit>, mapping: map<string, string>, cfg: Thresholds) {
    forall i :: 0 <= i < |vs| ==> RuleFor(vs[i], mapping, cfg).None?
  }

  /** The entries logged for `vs`, in order. */
  function Hits(vs: seq<Visit>, mapping: map<string, string>, num: Numerics): seq<RuleHit> {
    if vs == [] then [] else [HitOf(vs[0], mapping, num)] + Hits(vs[1..], mapping, num)
  }

  /** What walking one side yields: the entries logged and the reason of a rejection, if one fired. */
  datatype Scan = Scan(hits: seq<RuleHit>, stop: Option<Reason>)

  /** Log each contribution, then test it; stop at the first one that fires. */
  function Walk(vs: seq<Visit>, mapping: map<string, string>, cfg: Thresholds, num: Numerics): (w: Scan)
    ensures w.stop.Some? ==> IsRuleReason(w.stop.value) && 1 <= |w.hits| <= |vs|
    ensures w.stop.None? ==> |w.hits| == |vs|
  {
    if vs == [] then Scan([], None)
    else
      var hit := HitOf(vs[0], mapping, num);
      match RuleFor(vs[0], mapping, cfg)
      case Some(r) => Scan([hit], Some(r))
      case None =>
        var rest := Walk(vs[1..], mapping, cfg, num);
        Scan([hit] + rest.hits, rest.stop)
  }

  /** apply_compliance_rules, as a function of the assessment, the category mapping and the configuration. */
  function Evaluate(a: Assessment, mapping: map<string, string>, cfg: Thresholds, num: Numerics): (v: Verdict)
    ensures v.riskScore == a.riskScore
    ensures v.approved <==> v.reason == NoRiskScore || v.reason == AllChecksPassed
    ensures |v.source| <= |SideVisits(a.source)| && |v.destination| <= |SideVisits(a.destination)|
  {
    match a.riskScore
    case None => Verdict(true, NoRiskScore, None, [], [])
    case Some(score) =>
      if score >= cfg.riskScoreThreshold then Verdict(false, HighRiskScore(score), Some(score), [], [])
      else
        var src := Walk(SideVisits(a.source), mapping, cfg, num);
        if src.stop.Some? then Verdict(false, src.stop.value, Some(score), src.hits, [])
        else
          var dst := Walk(SideVisits(a.destination), mapping, cfg, num);
          if dst.stop.Some? then Verdict(false, dst.stop.value, Some(score), src.hits, dst.hits)
          else Verdict(true, AllChecksPassed, Some(score), src.hits, dst.hits)
  }

  // ---------------------------------------------------------------------
  // Lemmas about the flattened walk
  // ---------------------------------------------------------------------

  /** One logged entry per contribution, in order. */
  lemma {:induction false} HitsAt(vs: seq<Visit>, mapping: map<string, string>, num: Numerics)
    ensures |Hits(vs, mapping, num)| == |vs|
    ensures forall i :: 0 <= i < |vs| ==> Hits(vs, mapping, num)[i] == HitOf(vs[i], mapping, num)
  {
    if vs != [] {
      HitsAt(vs[1..], mapping, num);
    }
  }

  /**
   * Walking two stretches one after the other: the second is walked only
   * when nothing fired in the first, and its entries follow the first's.
   */
  lemma {:induction false} WalkAppend(a: seq<Visit>, b: seq<Visit>, mapping: map<string, string>, cfg: Thresholds, num: Numerics)
    ensures var wa := Walk(a, mapping, cfg, num);
      var wb := Walk(b, mapping, cfg, num);
      Walk(a + b, mapping, cfg, num) == if wa.stop.Some? then wa else Scan(wa.hits + wb.hits, wb.stop)
  {
    if a == [] {
      assert a + b == b;
    } else {
      assert (a + b)[0] == a[0];
      assert (a + b)[1..] == a[1..] + b;
      WalkAppend(a[1..], b, mapping, cfg, num);
    }
  }

  /** Once a rule fired within a prefix, what follows the prefix is never walked. */
  lemma WalkStoppedPrefix(p: seq<Visit>, all: seq<Visit>, mapping: map<string, string>, cfg: Thresholds, num: Numerics)
    requires p <= all && Walk(p, mapping, cfg, num).stop.Some?
    ensures Walk(all, mapping, cfg, num) == Walk(p, mapping, cfg, num)
  {
    assert all == p + all[|p|..];
    WalkAppend(p, all[|p|..], mapping, cfg, num);
  }

  /**
   * The shape of `triggered_rules` for one side: with no rejection, one
   * entry per contribution; with a rejection at visit k, exactly the entries
   * of visits 0..k, nothing firing before k, and the reason is visit k's.
   */
  lemma {:induction false} WalkShape(vs: seq<Visit>, mapping: map<string, string>, cfg: Thresholds, num: Numerics) returns (k: nat)
    ensures var w := Walk(vs, mapping, cfg, num);
      && (w.stop.None? ==> w.hits == Hits(vs, mapping, num) && Quiet(vs, mapping, cfg))
      && (w.stop.Some? ==>
            && k < |vs| && Quiet(vs[..k], mapping, cfg)
            && w.stop == RuleFor(vs[k], mapping, cfg)
            && w.hits == Hits(vs[..k + 1], mapping, num))
  {
    if vs == [] {
      return 0;
    }
    var w := Walk(vs, mapping, cfg, num);
    if RuleFor(vs[0], mapping, cfg).Some? {
      assert vs[..1] == [vs[0]];
      return 0;
    }
    var k' := WalkShape(vs[1..], mapping, cfg, num);
    var rest := Walk(vs[1..], mapping, cfg, num);
    if rest.stop.None? {
      forall i | 0 <= i < |vs| ensures RuleFor(vs[i], mapping, cfg).None? {
        if i > 0 { assert vs[1..][i - 1] == vs[i]; }
      }
      return 0;
    }
    k := k' + 1;
    assert vs[..k + 1] == [vs[0]] + vs[1..][..k' + 1];
    assert vs[..k + 1][1..] == vs[1..][..k' + 1];
    forall i | 0 <= i < k ensures RuleFor(vs[..k][i], mapping, cfg).None? {
      if i > 0 { assert vs[..k][i] == vs[1..][..k'][i - 1]; }
    }
  }

  // ---------------------------------------------------------------------
  // Prefixes of the nested lists give prefixes of the visiting order
  // ---------------------------------------------------------------------

  lemma {:induction false} ContributionVisitsPrefix(id: string, cs: seq<Contribution>, m: nat)
    requires m <= |cs|
    ensures ContributionVisits(id, cs[..m]) <= ContributionVisits(id, cs)
  {
    if m < |cs| {
      var front := cs[..|cs| - 1];
      assert cs[..m] == front[..m];
      ContributionVisitsPrefix(id, front, m);
    } else {
      assert cs[..m] == cs;
    }
  }

  lemma {:induction false} ElementVisitsPrefix(els: seq<MatchedElement>, m: nat)
    requires m <= |els|
    ensures ElementVisits(els[..m]) <= ElementVisits(els)
  {
    if m < |els| {
      var front := els[..|els| - 1];
      assert els[..m] == front[..m];
      ElementVisitsPrefix(front, m);
    } else {
      assert els[..m] == els;
    }
  }

  lemma {:induction false} SideVisitsPrefix(exps: seq<Exposure>, m: nat)
    requires m <= |exps|
    ensures SideVisits(exps[..m]) <= SideVisits(exps)
  {
    if m < |exps| {
      var front := exps[..|exps| - 1];
      assert exps[..m] == front[..m];
      SideVisitsPrefix(front, m);
    } else {
      assert exps[..m] == exps;
    }
  }

  // ---------------------------------------------------------------------
  // The imperative engine: the nested loops of apply_compliance_rules over
  // one side, one method per level, each proved against Walk.
  // ---------------------------------------------------------------------

  /**
   * The tests of one contribution, in order: a high-risk category within the
   * hop limit, then each listed country, then the two Gambling rules.
   */
  method CheckContribution(categoryId: string, category: string, contribution: Contribution,
                           highRiskCategoryIds: set<string>, mapping: map<string, string>, cfg: Thresholds)
    returns (stop: Option<Reason>)
    requires highRiskCategoryIds == HighRiskIds(mapping, cfg.highRiskCategories)
    requires category == CategoryName(mapping, categoryId)
    ensures stop == RuleFor(Visit(categoryId, contribution), mapping, cfg)
  {
    var minHops := contribution.minHops.GetOr(MissingHops);
    var indirectPercentage := contribution.indirectPercentage.GetOr(MissingPercentage);
    if categoryId in highRiskCategoryIds && minHops <= cfg.maxHopDistance {
      return Some(HighRiskCategory(category, minHops));
    }
    match contribution.countries {
      case Some(codes) =>
        var n := 0;
        while n < |codes|
          invariant 0 <= n <= |codes|
          invariant FirstHighRiskCountry(codes, minHops, cfg) == FirstHighRiskCountry(codes[n..], minHops, cfg)
        {
          if codes[n] in cfg.highRiskCountries && minHops <= cfg.maxHopDistance {
            return Some(HighRiskCountry(codes[n], minHops));
          }
          assert codes[n..][1..] == codes[n + 1..];
          n := n + 1;
        }
      case None =>
    }
    if category == GamblingCategory {
      if minHops <= cfg.gamblingHopLimit {
        return Some(GamblingWithinLimit(minHops));
      } else if minHops == GamblingSpecialHops && indirectPercentage > cfg.gamblingContributionThreshold {
        return Some(GamblingAtThreeHops(indirectPercentage));
      }
    }
    return None;
  }

  /** The contributions of one matched element: log each, then test it. */
  method WalkContributions(categoryId: string, contributions: seq<Contribution>, highRiskCategoryIds: set<string>,
                           mapping: map<string, string>, cfg: Thresholds, num: Numerics)
    returns (hits: seq<RuleHit>, stop: Option<Reason>)
    requires highRiskCategoryIds == HighRiskIds(mapping, cfg.highRiskCategories)
    ensures Scan(hits, stop) == Walk(ContributionVisits(categoryId, contributions), mapping, cfg, num)
  {
    var category := CategoryName(mapping, categoryId);
    hits := [];
    var k := 0;
    while k < |contributions|
      invariant 0 <= k <= |contributions|
      invariant Walk(ContributionVisits(categoryId, contributions[..k]), mapping, cfg, num) == Scan(hits, None)
    {
      var contribution := contributions[k];
      assert contributions[..k + 1][..k] == contributions[..k];
      WalkAppend(ContributionVisits(categoryId, contributions[..k]), [Visit(categoryId, contribution)], mapping, cfg, num);
      hits := hits + [RuleHit(category, Hops(contribution), num.round2(Percentage(contribution)))];
      stop := CheckContribution(categoryId, category, contribution, highRiskCategoryIds, mapping, cfg);
      if stop.Some? {
        ContributionVisitsPrefix(categoryId, contributions, k + 1);
        WalkStoppedPrefix(ContributionVisits(categoryId, contributions[..k + 1]), ContributionVisits(categoryId, contributions), mapping, cfg, num);
        return;
      }
      k := k + 1;
    }
    assert contributions[..k] == contributions;
    stop := None;
  }

  /** The matched elements of one exposure, each with the category id it names. */
  method WalkElements(elements: seq<MatchedElement>, highRiskCategoryIds: set<string>,
                      mapping: map<string, string>, cfg: Thresholds, num: Numerics)
    returns (hits: seq<RuleHit>, stop: Option<Reason>)
    requires highRiskCategoryIds == HighRiskIds(mapping, cfg.highRiskCategories)
    ensures Scan(hits, stop) == Walk(ElementVisits(elements), mapping, cfg, num)
  {
    hits := [];
    var j := 0;
    while j < |elements|
      invariant 0 <= j <= |elements|
      invariant Walk(ElementVisits(elements[..j]), mapping, cfg, num) == Scan(hits, None)
    {
      var categoryId := elements[j].categoryId.GetOr(UnknownCategory);
      var more, found := WalkContributions(categoryId, elements[j].contributions, highRiskCategoryIds, mapping, cfg, num);
      assert elements[..j + 1][..j] == elements[..j];
      WalkAppend(ElementVisits(elements[..j]), ContributionVisits(categoryId, elements[j].contributions), mapping, cfg, num);
      hits := hits + more;
      if found.Some? {
        stop := found;
        ElementVisitsPrefix(elements, j + 1);
        WalkStoppedPrefix(ElementVisits(elements[..j + 1]), ElementVisits(elements), mapping, cfg, num);
        return;
      }
      j := j + 1;
    }
    assert elements[..j] == elements;
    stop := None;
  }

  /** One side (Source or Destination): its exposures in order. */
  method WalkSide(exposures: seq<Exposure>, highRiskCategoryIds: set<string>,
                  mapping: map<string, string>, cfg: Thresholds, num: Numerics)
    returns (hits: seq<RuleHit>, stop: Option<Reason>)
    requires highRiskCategoryIds == HighRiskIds(mapping, cfg.highRiskCategories)
    ensures Scan(hits, stop) == Walk(SideVisits(exposures), mapping, cfg, num)
  {
    hits := [];
    var i := 0;
    while i < |exposures|
      invariant 0 <= i <= |exposures|
      invariant Walk(SideVisits(exposures[..i]), mapping, cfg, num) == Scan(hits, None)
    {
      var more, found := WalkElements(exposures[i].matchedElements, highRiskCategoryIds, mapping, cfg, num);
      assert exposures[..i + 1][..i] == exposures[..i];
      WalkAppend(SideVisits(exposures[..i]), ElementVisits(exposures[i].matchedElements), mapping, cfg, num);
      hits := hits + more;
      if found.Some? {
        stop := found;
        SideVisitsPrefix(exposures, i + 1);
        WalkStoppedPrefix(SideVisits(exposures[..i + 1]), SideVisits(exposures), mapping, cfg, num);
        return;
      }
      i := i + 1;
    }
    assert exposures[..i] == exposures;
    stop := None;
  }

  /** apply_compliance_rules */
  method ApplyComplianceRules(a: Assessment, mapping: map<string, string>, cfg: Thresholds, num: Numerics)
    returns (v: Verdict)
    ensures v == Evaluate(a, mapping, cfg, num)
  {
    if a.riskScore.None? {
      return Verdict(true, NoRiskScore, None, [], []);
    }
    var riskScore := a.riskScore.value;
    if riskScore >= cfg.riskScoreThreshold {
      return Verdict(false, HighRiskScore(riskScore), Some(riskScore), [], []);
    }
    var highRiskCategoryIds := HighRiskIds(mapping, cfg.highRiskCategories);
    var sourceHits, sourceStop := WalkSide(a.source, highRiskCategoryIds, mapping, cfg, num);
    if sourceStop.Some? {
      return Verdict(false, sourceStop.value, Some(riskScore), sourceHits, []);
    }
    var destinationHits, destinationStop := WalkSide(a.destination, highRiskCategoryIds, mapping, cfg, num);
    if destinationStop.Some? {
      return Verdict(false, destinationStop.value, Some(riskScore), sourceHits, destinationHits);
    }
    return Verdict(true, AllChecksPassed, Some(riskScore), sourceHits, destinationHits);
  }

  // ---------------------------------------------------------------------
  // Properties of the decision
  // ---------------------------------------------------------------------

  /**
   * Rule 1 comes first: without a risk score the wallet is approved, and a
   * score at or above the threshold rejects it; either way no contribution
   * is inspected.
   */
  lemma RiskScoreGate(a: Assessment, mapping: map<string, string>, cfg: Thresholds, num: Numerics)
    ensures var v := Evaluate(a, mapping, cfg, num);
      && (a.riskScore.None? ==> v.approved && v.reason == NoRiskScore)
      && (a.riskScore.Some? && a.riskScore.value >= cfg.riskScoreThreshold ==>
            !v.approved && v.reason == HighRiskScore(a.riskScore.value))
      && (a.riskScore.None? || a.riskScore.value >= cfg.riskScoreThreshold ==> v.source == [] && v.destination == [])
  {
  }

  /**
   * Below the threshold, Source is walked before Destination, each in list
   * order, and the first rule that fires decides. With an approval every
   * contribution of both sides was inspected and logged; with a rejection,
   * the logs hold exactly the contributions up to and including the one
   * that fired (side `onSource`, position k), no earlier one fired, and its
   * rule gives the reason.
   */
  lemma EvaluateTrace(a: Assessment, mapping: map<string, string>, cfg: Thresholds, num: Numerics)
    returns (onSource: bool, k: nat)
    requires a.riskScore.Some? && a.riskScore.value < cfg.riskScoreThreshold
    ensures var v := Evaluate(a, mapping, cfg, num);
      var src := SideVisits(a.source);
      var dst := SideVisits(a.destination);
      && (v.approved ==>
            && v.reason == AllChecksPassed
            && Quiet(src, mapping, cfg) && Quiet(dst, mapping, cfg)
            && v.source == Hits(src, mapping, num) && v.destination == Hits(dst, mapping, num))
      && (!v.approved && onSource ==>
            && k < |src| && Quiet(src[..k], mapping, cfg)
            && Some(v.reason) == RuleFor(src[k], mapping, cfg)
            && v.source == Hits(src[..k + 1], mapping, num) && v.destination == [])
      && (!v.approved && !onSource ==>
            && Quiet(src, mapping, cfg) && v.source == Hits(src, mapping, num)
            && k < |dst| && Quiet(dst[..k], mapping, cfg)
            && Some(v.reason) == RuleFor(dst[k], mapping, cfg)
            && v.destination == Hits(dst[..k + 1], mapping, num))
  {
    var src := SideVisits(a.source);
    var dst := SideVisits(a.destination);
    var ks := WalkShape(src, mapping, cfg, num);
    var kd := WalkShape(dst, mapping, cfg, num);
    if Walk(src, mapping, cfg, num).stop.Some? {
      onSource, k := true, ks;
    } else {
      onSource, k := false, kd;
    }
  }

  /** The first high-risk country listed, when the contribution is within the hop limit. */
  lemma {:induction false} FirstHighRiskCountryIsFirst(codes: seq<string>, hops: int, cfg: Thresholds)
    ensures var r := FirstHighRiskCountry(codes, hops, cfg);
      && (r.Some? <==> hops <= cfg.maxHopDistance && exists i :: 0 <= i < |codes| && codes[i] in cfg.highRiskCountries)
      && (r.Some? ==> exists i :: 0 <= i < |codes| && codes[i] == r.value &&
                        forall j :: 0 <= j < i ==> codes[j] !in cfg.highRiskCountries)
  {
    if codes != [] {
      FirstHighRiskCountryIsFirst(codes[1..], hops, cfg);
      var r := FirstHighRiskCountry(codes, hops, cfg);
      if codes[0] in cfg.highRiskCountries && hops <= cfg.maxHopDistance {
        assert codes[0] == r.value;
      } else if r.Some? {
        var i :| 0 <= i < |codes[1..]| && codes[1..][i] == r.value &&
                 forall j :: 0 <= j < i ==> codes[1..][j] !in cfg.highRiskCountries;
        assert codes[i + 1] == r.value;
        forall j | 0 <= j < i + 1 ensures codes[j] !in cfg.highRiskCountries {
          if j > 0 { assert codes[j] == codes[1..][j - 1]; }
        }
      } else if hops <= cfg.maxHopDistance {
        forall i | 0 <= i < |codes| ensures codes[i] !in cfg.highRiskCountries {
          if i > 0 { assert codes[i] == codes[1..][i - 1]; }
        }
      }
    }
  }

  /**
   * The category rule fires exactly when the mapping knows the element's
   * category id, names a high-risk category for it, and the contribution is
   * within the hop limit; an id the mapping does not know never fires it.
   */
  lemma CategoryRuleIff(v: Visit, mapping: map<string, string>, cfg: Thresholds)
    ensures var r := RuleFor(v, mapping, cfg);
      (r.Some? && r.value.HighRiskCategory?) <==>
        (v.categoryId in mapping && mapping[v.categoryId] in cfg.highRiskCategories && Hops(v.contribution) <= cfg.maxHopDistance)
    ensures var r := RuleFor(v, mapping, cfg);
      r.Some? && r.value.HighRiskCategory? ==> r.value == HighRiskCategory(mapping[v.categoryId], Hops(v.contribution))
  {
    HighRiskIdsIff(mapping, cfg.highRiskCategories, v.categoryId);
  }

  /**
   * The country rule fires exactly when the category rule did not, the
   * contribution lists a high-risk country and is within the hop limit;
   * the country reported is the first such in the list.
   */
  lemma CountryRuleIff(v: Visit, mapping: map<string, string>, cfg: Thresholds)
    ensures var r := RuleFor(v, mapping, cfg);
      var codes := v.contribution.countries.GetOr([]);
      (r.Some? && r.value.HighRiskCountry?) <==>
        && !(v.categoryId in mapping && mapping[v.categoryId] in cfg.highRiskCategories && Hops(v.contribution) <= cfg.maxHopDistance)
        && Hops(v.contribution) <= cfg.maxHopDistance
        && exists i :: 0 <= i < |codes| && codes[i] in cfg.highRiskCountries
    ensures var r := RuleFor(v, mapping, cfg);
      var codes := v.contribution.countries.GetOr([]);
      r.Some? && r.value.HighRiskCountry? ==>
        && r.value.hops == Hops(v.contribution)
        && exists i :: 0 <= i < |codes| && codes[i] == r.value.country &&
             forall j :: 0 <= j < i ==> codes[j] !in cfg.highRiskCountries
  {
    HighRiskIdsIff(mapping, cfg.highRiskCategories, v.categoryId);
    FirstHighRiskCountryIsFirst(v.contribution.countries.GetOr([]), Hops(v.contribution), cfg);
  }

  /**
   * With the shipped thresholds, a Gambling contribution listing no country
   * is rejected exactly at 0 to 2 hops, or at exactly 3 hops with more than
   * 3.0 percent; at 4 hops or more it never is, whatever its share.
   */
  lemma GamblingDefaults(v: Visit, mapping: map<string, string>)
    requires CategoryName(mapping, v.categoryId) == GamblingCategory
    requires v.contribution.countries.None?
    ensures var r := RuleFor(v, mapping, DefaultThresholds);
      var hops := Hops(v.contribution);
      && (r.Some? <==> hops <= 2 || (hops == 3 && Percentage(v.contribution) > 3.0))
      && (r.Some? && hops <= 2 ==> r.value == GamblingWithinLimit(hops))
      && (r.Some? && hops == 3 ==> r.value == GamblingAtThreeHops(Percentage(v.contribution)))
  {
    HighRiskIdsIff(mapping, DefaultThresholds.highRiskCategories, v.categoryId);
    assert GamblingCategory !in DefaultThresholds.highRiskCategories;
  }

  /**
   * A contribution without a hop count is taken to be 999 hops away, past
   * every limit below that: no rule fires on it.
   */
  lemma MissingHopsNeverFires(v: Visit, mapping: map<string, string>, cfg: Thresholds)
    requires v.contribution.minHops.None?
    requires cfg.maxHopDistance < MissingHops && cfg.gamblingHopLimit < MissingHops
    ensures RuleFor(v, mapping, cfg).None?
  {
    FirstHighRiskCountryIsFirst(v.contribution.countries.GetOr([]), MissingHops, cfg);
  }

  /** An assessment below the risk threshold whose only exposure is one contribution on the Source side. */
  function OneContribution(score: real, categoryId: string, c: Contribution): Assessment {
    Assessment(Some(score), [Exposure([MatchedElement(Some(categoryId), [c])])], [])
  }

  lemma OneContributionVisits(score: real, categoryId: string, c: Contribution)
    ensures SideVisits(OneContribution(score, categoryId, c).source) == [Visit(categoryId, c)]
    ensures SideVisits(OneContribution(score, categoryId, c).destination) == []
  {
    var e := MatchedElement(Some(categoryId), [c]);
    assert [e][..0] == [];
    assert [c][..0] == [];
    assert ContributionVisits(categoryId, [c]) == [Visit(categoryId, c)];
    assert ElementVisits([e]) == [Visit(categoryId, c)];
    var x := [Exposure([e])];
    assert x[..0] == [];
  }

  /**
   * The hop limit is inclusive: a high-risk category exactly at the limit
   * rejects, one hop further (with no country listed, and a category other
   * than Gambling) is approved.
   */
  lemma CategoryHopBoundary(score: real, categoryId: string, mapping: map<string, string>, cfg: Thresholds, num: Numerics, pct: Option<real>)
    requires score < cfg.riskScoreThreshold
    requires categoryId in mapping && mapping[categoryId] in cfg.highRiskCategories && mapping[categoryId] != GamblingCategory
    ensures var at := Evaluate(OneContribution(score, categoryId, Contribution(Some(cfg.maxHopDistance), pct, None)), mapping, cfg, num);
      !at.approved && at.reason == HighRiskCategory(mapping[categoryId], cfg.maxHopDistance)
    ensures Evaluate(OneContribution(score, categoryId, Contribution(Some(cfg.maxHopDistance + 1), pct, None)), mapping, cfg, num).approved
  {
    HighRiskIdsIff(mapping, cfg.highRiskCategories, categoryId);
    OneContributionVisits(score, categoryId, Contribution(Some(cfg.maxHopDistance), pct, None));
    OneContributionVisits(score, categoryId, Contribution(Some(cfg.maxHopDistance + 1), pct, None));
  }

  /**
   * The Gambling share test is strict: at 3 hops, exactly the threshold is
   * approved and anything above it is rejected (shipped thresholds).
   */
  lemma GamblingShareBoundary(score: real, categoryId: string, mapping: map<string, string>, num: Numerics, pct: real)
    requires score < DefaultThresholds.riskScoreThreshold
    requires categoryId in mapping && mapping[categoryId] == GamblingCategory
    ensures Evaluate(OneContribution(score, categoryId, Contribution(Some(3), Some(3.0), None)), mapping, DefaultThresholds, num).approved
    ensures pct > 3.0 ==>
      var v := Evaluate(OneContribution(score, categoryId, Contribution(Some(3), Some(pct), None)), mapping, DefaultThresholds, num);
      !v.approved && v.reason == GamblingAtThreeHops(pct)
  {
    HighRiskIdsIff(mapping, DefaultThresholds.highRiskCategories, categoryId);
    assert GamblingCategory !in DefaultThresholds.highRiskCategories;
    OneContributionVisits(score, categoryId, Contribution(Some(3), Some(3.0), None));
    OneContributionVisits(score, categoryId, Contribution(Some(3), Some(pct), None));
  }
}
