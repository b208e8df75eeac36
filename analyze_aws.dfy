/** The signal collector and rule evaluator of backend/analyzeAWS.js.

    The four account queries (cost explorer, IAM account summary, EC2
    reservations, S3 buckets) are I/O; their combined outcome is an input
    here: either every query answered, or one of them failed with the text
    of its error. What the module models is how `analyzeAWS` assembles the
    analysis object from those answers and which findings and
    recommendations it pushes, in which order. */
module AnalyzeAws {
  import opened Values

  /** The `cost` property: absent, the number 0 the handler fills in, or the
      two-decimal text `analyzeAWS` stores. */
  datatype CostField = NoCost | CostZero | CostText(text: string)

  predicate CostTruthy(c: CostField) {
    c.CostText? && c.text != ""
  }

  /** The JavaScript object that flows from `analyzeAWS` through the handler
      into `generatePDF`. Every property is optional: the analysis object
      fills the first seven, the error object only `error`, and the handler
      overwrites `findings`, `recommendations`, `cost`, `clientName` and
      `accountId` in place. */
  datatype Record = Record(
    error: Option<string>,
    cost: CostField,
    iamRisk: Option<string>,
    ec2Count: Option<nat>,
    bucketCount: Option<nat>,
    findings: Option<seq<string>>,
    recommendations: Option<seq<string>>,
    clientName: Option<string>,
    accountId: Option<string>)

  /** The object `{ error: err.toString() }` returned from the catch block. */
  function ErrorRecord(message: string): (r: Record)
    ensures r.error == Some(message)
  {
    Record(Some(message), NoCost, None, None, None, None, None, None, None)
  }

  /** What the four queries answered. `cost` is the parsed month-to-date
      amount and `costText` its two-decimal text; `rootAccessKeys` is the
      `AccountAccessKeysPresent` entry of the IAM summary, which may be
      missing. */
  datatype Signals = Signals(
    cost: real,
    costText: string,
    rootAccessKeys: Option<int>,
    reservations: seq<string>,
    buckets: seq<string>)

  datatype QueryOutcome = Answered(signals: Signals) | QueryFailed(message: string)

  const SpendThreshold: real := 500.0
  const InstanceThreshold: nat := 10

  /** `rootAccessKeys > 0`; a missing entry compares as false. */
  predicate RootKeysPresent(k: Option<int>) {
    k.Some? && k.value > 0
  }

  function IamRisk(k: Option<int>): string {
    if RootKeysPresent(k) then "Root access keys detected (HIGH RISK)" else "No root keys detected"
  }

  /** The three threshold rules, in the order they are evaluated, and the
      fallback that stands in when none of them fires. */
  datatype Rule = HighSpend | RootKeys | ManyInstances | NoRisk

  const CheckedRules: seq<Rule> := [HighSpend, RootKeys, ManyInstances]

  function Rank(r: Rule): nat {
    match r
    case HighSpend => 0
    case RootKeys => 1
    case ManyInstances => 2
    case NoRisk => 3
  }

  predicate Fires(r: Rule, s: Signals) {
    match r
    case HighSpend => s.cost > SpendThreshold
    case RootKeys => RootKeysPresent(s.rootAccessKeys)
    case ManyInstances => |s.reservations| > InstanceThreshold
    case NoRisk => false
  }

  function Finding(r: Rule): string {
    match r
    case HighSpend => "High monthly AWS spend detected."
    case RootKeys => "Root user access keys present. Major security risk."
    case ManyInstances => "Large number of EC2 instances running."
    case NoRisk => "No major risks detected."
  }

  function Recommendation(r: Rule): string {
    match r
    case HighSpend => "Review unused resources and optimize EC2/S3."
    case RootKeys => "Delete root access keys and use IAM roles."
    case ManyInstances => "Check for idle or oversized instances."
    case NoRisk => "Maintain monthly monitoring to prevent drift."
  }

  /** The rules of `rules` that fire on `s`, in the order of `rules`. */
  function FiredAmong(rules: seq<Rule>, s: Signals): seq<Rule> {
    if rules == [] then []
    else (if Fires(rules[0], s) then [rules[0]] else []) + FiredAmong(rules[1..], s)
  }

  /** The three threshold rules evaluated one after another. */
  lemma FiredAmongChecked(s: Signals)
    ensures FiredAmong(CheckedRules, s) ==
      (if Fires(HighSpend, s) then [HighSpend] else []) +
      (if Fires(RootKeys, s) then [RootKeys] else []) +
      (if Fires(ManyInstances, s) then [ManyInstances] else [])
  {
    var last: seq<Rule> := [ManyInstances];
    assert last[1..] == [];
    assert FiredAmong(last, s) == (if Fires(ManyInstances, s) then [ManyInstances] else []);
    var rest: seq<Rule> := [RootKeys, ManyInstances];
    assert rest[1..] == last;
    assert CheckedRules[1..] == rest;
  }

  /** The rules whose finding and recommendation the analysis carries: the
      fired threshold rules, or the fallback alone when none fired. */
  function Triggered(s: Signals): seq<Rule> {
    var fired := FiredAmong(CheckedRules, s);
    if fired == [] then [NoRisk] else fired
  }

  function FindingsOf(rules: seq<Rule>): (texts: seq<string>)
    ensures |texts| == |rules|
    ensures forall i :: 0 <= i < |rules| ==> texts[i] == Finding(rules[i])
  {
    seq(|rules|, i requires 0 <= i < |rules| => Finding(rules[i]))
  }

  function RecommendationsOf(rules: seq<Rule>): (texts: seq<string>)
    ensures |texts| == |rules|
    ensures forall i :: 0 <= i < |rules| ==> texts[i] == Recommendation(rules[i])
  {
    seq(|rules|, i requires 0 <= i < |rules| => Recommendation(rules[i]))
  }

  /** Pushing one rule's pair extends both lists by that rule's texts. */
  lemma PushPair(rules: seq<Rule>, r: Rule)
    ensures FindingsOf(rules + [r]) == FindingsOf(rules) + [Finding(r)]
    ensures RecommendationsOf(rules + [r]) == RecommendationsOf(rules) + [Recommendation(r)]
  {
  }

  /** The rule block of `analyzeAWS`: one finding and one recommendation
      per fired rule, in table order, and the fallback pair when the
      findings are still empty. */
  method EvaluateRules(s: Signals) returns (findings: seq<string>, recommendations: seq<string>)
    ensures findings == FindingsOf(Triggered(s))
    ensures recommendations == RecommendationsOf(Triggered(s))
  {
    findings := [];
    recommendations := [];
    ghost var fired: seq<Rule> := [];
    ghost var spend: seq<Rule> := if Fires(HighSpend, s) then [HighSpend] else [];
    ghost var root: seq<Rule> := if Fires(RootKeys, s) then [RootKeys] else [];
    ghost var many: seq<Rule> := if Fires(ManyInstances, s) then [ManyInstances] else [];
    if s.cost > SpendThreshold {
      PushPair(fired, HighSpend);
      findings := findings + [Finding(HighSpend)];
      recommendations := recommendations + [Recommendation(HighSpend)];
      fired := fired + [HighSpend];
    }
    assert fired == spend;
    assert findings == FindingsOf(fired) && recommendations == RecommendationsOf(fired);
    if RootKeysPresent(s.rootAccessKeys) {
      PushPair(fired, RootKeys);
      findings := findings + [Finding(RootKeys)];
      recommendations := recommendations + [Recommendation(RootKeys)];
      fired := fired + [RootKeys];
    }
    assert fired == spend + root;
    assert findings == FindingsOf(fired) && recommendations == RecommendationsOf(fired);
    if |s.reservations| > InstanceThreshold {
      PushPair(fired, ManyInstances);
      findings := findings + [Finding(ManyInstances)];
      recommendations := recommendations + [Recommendation(ManyInstances)];
      fired := fired + [ManyInstances];
    }
    assert fired == spend + root + many;
    assert findings == FindingsOf(fired) && recommendations == RecommendationsOf(fired);
    FiredAmongChecked(s);
    if |findings| == 0 {
      PushPair(fired, NoRisk);
      findings := findings + [Finding(NoRisk)];
      recommendations := recommendations + [Recommendation(NoRisk)];
      fired := fired + [NoRisk];
    }
    assert fired == Triggered(s);
  }

  /** The analysis object `analyzeAWS` builds for the query outcome `q`: the
      error object for a failed query, and otherwise the signals with the
      finding and recommendation texts of the triggered rules. */
  predicate Analysed(q: QueryOutcome, analysis: Record) {
    && (q.QueryFailed? ==> analysis == ErrorRecord(q.message))
    && (q.Answered? ==>
      && analysis.error == None
      && analysis.cost == CostText(q.signals.costText)
      && analysis.iamRisk == Some(IamRisk(q.signals.rootAccessKeys))
      && analysis.ec2Count == Some(|q.signals.reservations|)
      && analysis.bucketCount == Some(|q.signals.buckets|)
      && analysis.findings == Some(FindingsOf(Triggered(q.signals)))
      && analysis.recommendations == Some(RecommendationsOf(Triggered(q.signals)))
      && analysis.clientName == None
      && analysis.accountId == None)
  }

  /** `analyzeAWS`: builds the analysis object from the account signals and
      the rule block. A failed query yields the error object. */
  method AnalyzeAWS(q: QueryOutcome) returns (analysis: Record)
    ensures Analysed(q, analysis)
  {
    if q.QueryFailed? {
      return ErrorRecord(q.message);
    }
    var s := q.signals;
    var findings, recommendations := EvaluateRules(s);
    analysis := Record(
      None, CostText(s.costText), Some(IamRisk(s.rootAccessKeys)),
      Some(|s.reservations|), Some(|s.buckets|),
      Some(findings), Some(recommendations), None, None);
  }

  // ---------------------------------------------------------------------
  // Properties of the rule evaluation

  /** A rule is among the fired ones exactly when it is listed and fires. */
  lemma {:induction false} FiredAmongMembers(rules: seq<Rule>, s: Signals, r: Rule)
    ensures r in FiredAmong(rules, s) <==> r in rules && Fires(r, s)
    decreases |rules|
  {
    if rules != [] {
      FiredAmongMembers(rules[1..], s, r);
      assert rules == [rules[0]] + rules[1..];
    }
  }

  /** Filtering keeps the relative order of the list it filters. */
  lemma {:induction false} FiredAmongOrdered(rules: seq<Rule>, s: Signals)
    requires forall i, j :: 0 <= i < j < |rules| ==> Rank(rules[i]) < Rank(rules[j])
    ensures forall i, j :: 0 <= i < j < |FiredAmong(rules, s)| ==>
      Rank(FiredAmong(rules, s)[i]) < Rank(FiredAmong(rules, s)[j])
    decreases |rules|
  {
    if rules != [] {
      var tail := FiredAmong(rules[1..], s);
      FiredAmongOrdered(rules[1..], s);
      forall r | r in tail ensures Rank(rules[0]) < Rank(r) {
        FiredAmongMembers(rules[1..], s, r);
      }
    }
  }

  /** A threshold rule contributes its finding exactly when its condition holds. */
  lemma RuleFiresIff(s: Signals, r: Rule)
    requires r != NoRisk
    ensures r in Triggered(s) <==> Fires(r, s)
  {
    FiredAmongMembers(CheckedRules, s, r);
  }

  /** The fallback pair is present if and only if none of the three rules
      fired, and then it is the only entry. */
  lemma FallbackIffNothingFired(s: Signals)
    ensures NoRisk in Triggered(s) <==> !Fires(HighSpend, s) && !Fires(RootKeys, s) && !Fires(ManyInstances, s)
    ensures NoRisk in Triggered(s) ==> Triggered(s) == [NoRisk]
  {
    FiredAmongMembers(CheckedRules, s, NoRisk);
    var fired := FiredAmong(CheckedRules, s);
    if fired != [] {
      var r := fired[0];
      FiredAmongMembers(CheckedRules, s, r);
    } else {
      FiredAmongMembers(CheckedRules, s, HighSpend);
      FiredAmongMembers(CheckedRules, s, RootKeys);
      FiredAmongMembers(CheckedRules, s, ManyInstances);
    }
  }

  /** Findings come in the order spend, root key, instance count, with no
      rule twice, and there are between one and three of them. */
  lemma TriggeredInTableOrder(s: Signals)
    ensures 1 <= |Triggered(s)| <= 3
    ensures forall i, j :: 0 <= i < j < |Triggered(s)| ==> Rank(Triggered(s)[i]) < Rank(Triggered(s)[j])
  {
    FiredAmongOrdered(CheckedRules, s);
    FiredAmongChecked(s);
  }

  /** Findings and recommendations are pushed in pairs, one pair per rule,
      so neither list ever repeats a text. */
  lemma FindingsPairedWithRecommendations(s: Signals)
    ensures |FindingsOf(Triggered(s))| == |RecommendationsOf(Triggered(s))| >= 1
    ensures forall i, j :: 0 <= i < j < |Triggered(s)| ==>
      FindingsOf(Triggered(s))[i] != FindingsOf(Triggered(s))[j] &&
      RecommendationsOf(Triggered(s))[i] != RecommendationsOf(Triggered(s))[j]
  {
    TriggeredInTableOrder(s);
    forall r1: Rule, r2: Rule | r1 != r2
      ensures Finding(r1) != Finding(r2) && Recommendation(r1) != Recommendation(r2)
    {
      TextsDiffer(r1, r2);
    }
  }

  /** Distinct rules have distinct finding texts and recommendation texts. */
  lemma TextsDiffer(r1: Rule, r2: Rule)
    requires r1 != r2
    ensures Finding(r1) != Finding(r2)
    ensures Recommendation(r1) != Recommendation(r2)
  {
  }

  /** The spend rule uses a strict comparison: exactly 500 does not fire it. */
  lemma SpendThresholdIsStrict(s: Signals)
    ensures s.cost == 500.0 ==> HighSpend !in Triggered(s)
    ensures s.cost > 500.0 ==> HighSpend in Triggered(s)
  {
    RuleFiresIff(s, HighSpend);
  }

  /** The instance rule uses a strict comparison: 10 reservations do not fire
      it, 11 do. */
  lemma InstanceThresholdIsStrict(s: Signals)
    ensures |s.reservations| == 10 ==> ManyInstances !in Triggered(s)
    ensures |s.reservations| == 11 ==> ManyInstances in Triggered(s)
  {
    RuleFiresIff(s, ManyInstances);
  }

  /** The root-key finding is pushed under the same condition that selects
      the high-risk `iamRisk` text. */
  lemma RootKeyFindingMatchesIamRisk(s: Signals)
    ensures RootKeys in Triggered(s) <==> IamRisk(s.rootAccessKeys) == "Root access keys detected (HIGH RISK)"
  {
    RuleFiresIff(s, RootKeys);
  }

  /** A quiet account: one finding, the fallback pair. */
  lemma QuietAccount(s: Signals)
    requires s.cost <= 500.0 && !RootKeysPresent(s.rootAccessKeys) && |s.reservations| <= 10
    ensures FindingsOf(Triggered(s)) == ["No major risks detected."]
    ensures RecommendationsOf(Triggered(s)) == ["Maintain monthly monitoring to prevent drift."]
  {
    FallbackIffNothingFired(s);
  }

  /** An account that trips every rule: three findings in table order and no
      fallback. */
  lemma EveryRuleFires(s: Signals)
    requires s.cost > 500.0 && RootKeysPresent(s.rootAccessKeys) && |s.reservations| > 10
    ensures FindingsOf(Triggered(s)) == [
      "High monthly AWS spend detected.",
      "Root user access keys present. Major security risk.",
      "Large number of EC2 instances running."]
  {
    FiredAmongChecked(s);
  }
}
