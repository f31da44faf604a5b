/** Evidence numbering, the rule-based planner and its reasoner, and the planner
    node's guardrail. Confidences are exact reals. */
module Planner {
  import opened Common
  import opened Models
  import opened Text

  // ------------------------------------------------------------ evidence

  function EvidenceId(prefix: string, index: nat): string {
    prefix + "-" + Decimal(index)
  }

  function NumberedEvidence(sourceType: string, items: seq<Finding>, prefix: string): (r: seq<Evidence>)
    ensures |r| == |items|
  {
    seq(|items|, i requires 0 <= i < |items| =>
      Evidence(EvidenceId(prefix, i + 1), sourceType, items[i].sourceRef, items[i].summary, items[i].confidence))
  }

  /** `build_evidence` appends one numbered item per finding. */
  method BuildEvidence(sourceType: string, items: seq<Finding>, prefix: string) returns (evidence: seq<Evidence>)
    ensures evidence == NumberedEvidence(sourceType, items, prefix)
    ensures |evidence| == |items|
    ensures forall i | 0 <= i < |items| ::
              && evidence[i].id == prefix + "-" + Decimal(i + 1)
              && evidence[i].sourceType == sourceType
              && (evidence[i].sourceRef, evidence[i].summary, evidence[i].confidence)
                 == (items[i].sourceRef, items[i].summary, items[i].confidence)
  {
    evidence := [];
    for index := 0 to |items|
      invariant evidence == NumberedEvidence(sourceType, items, prefix)[..index]
    {
      var item := items[index];
      evidence := evidence + [Evidence(EvidenceId(prefix, index + 1), sourceType,
                                       item.sourceRef, item.summary, item.confidence)];
    }
  }

  /** Ids `prefix-1`, `prefix-2`, ... in order. */
  predicate NumberedWith(evidence: seq<Evidence>, prefix: string) {
    forall i | 0 <= i < |evidence| :: evidence[i].id == EvidenceId(prefix, i + 1)
  }

  function Ids(evidence: seq<Evidence>): (r: seq<string>)
    ensures |r| == |evidence|
  {
    seq(|evidence|, i requires 0 <= i < |evidence| => evidence[i].id)
  }

  predicate Distinct(ids: seq<string>) {
    forall i, j | 0 <= i < j < |ids| :: ids[i] != ids[j]
  }

  lemma EvidenceIdInjective(p: string, m: nat, q: string, n: nat)
    requires EvidenceId(p, m) == EvidenceId(q, n)
    ensures p == q && m == n
  {
    assert p + ['-'] + Decimal(m) == q + ['-'] + Decimal(n);
    LastSeparator(p, Decimal(m), q, Decimal(n), '-');
    DecimalInjective(m, n);
  }

  /** Numbering by position never gives two items of a run the same id. */
  lemma EvidenceIdsDistinct(change: seq<Evidence>, log: seq<Evidence>, dependency: seq<Evidence>)
    requires NumberedWith(change, "chg") && NumberedWith(log, "log") && NumberedWith(dependency, "dep")
    ensures Distinct(Ids(change + log + dependency))
  {
    var all := change + log + dependency;
    forall i, j | 0 <= i < j < |all| ensures all[i].id != all[j].id {
      var (p, m) := Place(change, log, dependency, i);
      var (q, n) := Place(change, log, dependency, j);
      if all[i].id == all[j].id {
        EvidenceIdInjective(p, m, q, n);
      }
    }
  }

  /** The prefix and number of the item at a position of the combined list. */
  function Place(change: seq<Evidence>, log: seq<Evidence>, dependency: seq<Evidence>, i: nat): (r: (string, nat))
    requires NumberedWith(change, "chg") && NumberedWith(log, "log") && NumberedWith(dependency, "dep")
    requires i < |change + log + dependency|
    ensures (change + log + dependency)[i].id == EvidenceId(r.0, r.1)
  {
    if i < |change| then ("chg", i + 1)
    else if i < |change| + |log| then ("log", i - |change| + 1)
    else ("dep", i - |change| - |log| + 1)
  }

  // ------------------------------------------------------------ the diagnosis

  function Summaries(evidence: seq<Evidence>): (r: seq<string>)
    ensures |r| == |evidence|
  {
    seq(|evidence|, i requires 0 <= i < |evidence| => Lower(evidence[i].summary))
  }

  function EvidenceText(change: seq<Evidence>, log: seq<Evidence>, dependency: seq<Evidence>): string {
    JoinWithSpaces(Summaries(change + log + dependency))
  }

  function One(matched: bool): nat {
    if matched then 1 else 0
  }

  predicate Either(text: string, p: string, q: string) {
    Contains(text, p) || Contains(text, q)
  }

  function ReleaseScore(text: string): (r: nat)
    ensures r <= 5
  {
    One(Either(text, "release", "deployed"))
    + One(Either(text, "configuration bundle update", "database dsn"))
    + One(Either(text, "invalid connection string", "authentication failures"))
    + One(Either(text, "stays local to order-api", "blast radius is currently limited to order-api"))
    + One(Either(text, "no downstream error amplification", "remains healthy"))
  }

  function DownstreamScore(text: string): (r: nat)
    ensures r <= 4
  {
    One(Contains(text, "no relevant order-api change"))
    + One(Either(text, "timeouts when calling inventory-service", "upstream timeout"))
    + One(Contains(text, "inventory-service is degraded"))
    + One(Either(text, "saturated database connection pool", "pool exhaustion"))
  }

  function FirstN<T>(n: nat, s: seq<T>): seq<T> {
    if |s| <= n then s else s[..n]
  }

  function Min(a: real, b: real): real {
    if a <= b then a else b
  }

  const DOWNSTREAM_CAUSE := "The primary fault is likely in inventory-service and is propagating to the caller."
  const CARRIER_CAUSE := "order-api is acting as the symptom carrier instead of the fault owner."
  const RELEASE_CAUSE := "The latest release introduced a configuration regression in order-api database connectivity."
  const LOCAL_CAUSE := "The error spike is local to order-api and started immediately after the release window."
  const ROLLBACK_REASON :=
    "Recent change timing and local database errors indicate a release regression; rollback is the safest first action."

  datatype Diagnosis = Diagnosis(hypotheses: seq<Hypothesis>, action: Option<ActionPlan>)

  function RollbackPlan(service: string, release: string, previous: string, ids: seq<string>): ActionPlan {
    ActionPlan("rollback", service, release, previous, ROLLBACK_REASON, "high", ids,
               Some(VerificationPolicy(10, 1.0, 300, 2)), true)
  }

  function PrimaryIds(change: seq<Evidence>, log: seq<Evidence>): seq<string> {
    Ids(FirstN(2, change) + FirstN(2, log))
  }

  function PlanDiagnosis(service: string, release: string, previous: string,
                         change: seq<Evidence>, log: seq<Evidence>, dependency: seq<Evidence>): Diagnosis
  {
    var text := EvidenceText(change, log, dependency);
    var r := ReleaseScore(text);
    var d := DownstreamScore(text);
    if d >= 3 && d > r then
      Diagnosis(
        [Hypothesis("hyp-1", DOWNSTREAM_CAUSE, Ids(FirstN(2, log) + FirstN(2, dependency)),
                    Min(0.99, 0.68 + d as real * 0.07)),
         Hypothesis("hyp-2", CARRIER_CAUSE, Ids(FirstN(1, change) + FirstN(1, log) + FirstN(2, dependency)),
                    Min(0.96, 0.62 + d as real * 0.06))],
        None)
    else
      Diagnosis(
        [Hypothesis("hyp-1", RELEASE_CAUSE, PrimaryIds(change, log), Min(0.99, 0.65 + r as real * 0.06)),
         Hypothesis("hyp-2", LOCAL_CAUSE, Ids(FirstN(2, log) + FirstN(2, dependency)),
                    Min(0.95, 0.55 + r as real * 0.05))],
        if r < 4 then None else Some(RollbackPlan(service, release, previous, PrimaryIds(change, log))))
  }

  // ------------------------------------------------------------ what the diagnosis says

  /** Either phrase of a pair makes its signal. */
  const RELEASE_SIGNALS := [
    ["release", "deployed"],
    ["configuration bundle update", "database dsn"],
    ["invalid connection string", "authentication failures"],
    ["stays local to order-api", "blast radius is currently limited to order-api"],
    ["no downstream error amplification", "remains healthy"]]

  const DOWNSTREAM_SIGNALS := [
    ["no relevant order-api change"],
    ["timeouts when calling inventory-service", "upstream timeout"],
    ["inventory-service is degraded"],
    ["saturated database connection pool", "pool exhaustion"]]

  predicate Signalled(phrases: seq<string>, text: string) {
    exists p | p in phrases :: Contains(text, p)
  }

  function Matched(signals: seq<seq<string>>, text: string): set<nat> {
    set k: nat | k < |signals| && Signalled(signals[k], text)
  }

  lemma OneMoreSignal(signals: seq<seq<string>>, text: string, n: nat)
    requires n < |signals|
    ensures |Matched(signals[..n + 1], text)| == |Matched(signals[..n], text)| + One(Signalled(signals[n], text))
  {
    var before, after := Matched(signals[..n], text), Matched(signals[..n + 1], text);
    assert forall k: nat | k < n :: signals[..n + 1][k] == signals[..n][k];
    assert after == if Signalled(signals[n], text) then before + {n} else before;
  }

  lemma SignalledByPair(p: string, q: string, text: string)
    ensures Signalled([p, q], text) <==> Either(text, p, q)
    ensures Signalled([p], text) <==> Contains(text, p)
  {
    assert p in [p, q] && q in [p, q] && p in [p];
  }

  /** The scores count the signals, each once. */
  lemma ScoresCountSignals(text: string)
    ensures ReleaseScore(text) == |Matched(RELEASE_SIGNALS, text)|
    ensures DownstreamScore(text) == |Matched(DOWNSTREAM_SIGNALS, text)|
  {
    ReleaseCount(text);
    DownstreamCount(text);
  }

  lemma ReleaseCount(text: string)
    ensures ReleaseScore(text) == |Matched(RELEASE_SIGNALS, text)|
  {
    hide Contains, Either, Signalled;
    var s := RELEASE_SIGNALS;
    assert Matched(s[..0], text) == {} && s[..5] == s;
    forall k: nat | k < 5 ensures Signalled(s[k], text) <==> Either(text, s[k][0], s[k][1]) {
      SignalledByPair(s[k][0], s[k][1], text);
      assert s[k] == [s[k][0], s[k][1]];
    }
    OneMoreSignal(s, text, 0);
    OneMoreSignal(s, text, 1);
    OneMoreSignal(s, text, 2);
    OneMoreSignal(s, text, 3);
    OneMoreSignal(s, text, 4);
  }

  lemma DownstreamCount(text: string)
    ensures DownstreamScore(text) == |Matched(DOWNSTREAM_SIGNALS, text)|
  {
    hide Contains, Either, Signalled;
    var s := DOWNSTREAM_SIGNALS;
    assert Matched(s[..0], text) == {} && s[..4] == s;
    SignalledByPair(s[0][0], "", text);
    SignalledByPair(s[1][0], s[1][1], text);
    SignalledByPair(s[2][0], "", text);
    SignalledByPair(s[3][0], s[3][1], text);
    OneMoreSignal(s, text, 0);
    OneMoreSignal(s, text, 1);
    OneMoreSignal(s, text, 2);
    OneMoreSignal(s, text, 3);
  }

  /** A rollback is proposed exactly when four release signals match: the
      downstream branch, which proposes nothing, can never outvote them. What is
      proposed goes from the release back to the previous version of the service. */
  lemma RollbackExactlyOnFourSignals(service: string, release: string, previous: string,
                                     change: seq<Evidence>, log: seq<Evidence>, dependency: seq<Evidence>)
    ensures var d := PlanDiagnosis(service, release, previous, change, log, dependency);
            var matched := Matched(RELEASE_SIGNALS, EvidenceText(change, log, dependency));
            && (d.action.Some? <==> |matched| >= 4)
            && (d.action.Some? ==>
                  && d.hypotheses[0].cause == RELEASE_CAUSE && d.action.value.evidenceIds == d.hypotheses[0].support
                  && d.action.value.actionType == "rollback" && d.action.value.targetService == service
                  && d.action.value.currentRevision == release && d.action.value.targetRevision == previous
                  && d.action.value.riskLevel == "high" && d.action.value.requiresApproval
                  && d.action.value.verificationPolicy == Some(VerificationPolicy(10, 1.0, 300, 2)))
  {
    hide Matched;
    ScoresCountSignals(EvidenceText(change, log, dependency));
  }

  /** `ids` are those of the first `m` items of one list and the first `n` of another. */
  predicate LeadIds(ids: seq<string>, a: seq<Evidence>, m: nat, b: seq<Evidence>, n: nat) {
    var i, j := if |a| < m then |a| else m, if |b| < n then |b| else n;
    && |ids| == i + j
    && (forall k | 0 <= k < i :: ids[k] == a[k].id)
    && (forall k | 0 <= k < j :: ids[i + k] == b[k].id)
  }

  predicate BlamesDownstream(text: string) {
    var (r, d) := (|Matched(RELEASE_SIGNALS, text)|, |Matched(DOWNSTREAM_SIGNALS, text)|);
    d >= 3 && d > r
  }

  /** The downstream service is blamed exactly when at least three of its four
      signals match and they outnumber the release's. */
  lemma DiagnosisBlames(service: string, release: string, previous: string,
                        change: seq<Evidence>, log: seq<Evidence>, dependency: seq<Evidence>)
    ensures var h := PlanDiagnosis(service, release, previous, change, log, dependency).hypotheses;
            var downstream := BlamesDownstream(EvidenceText(change, log, dependency));
            && |h| == 2 && h[0].id == "hyp-1" && h[1].id == "hyp-2"
            && (h[0].cause == DOWNSTREAM_CAUSE <==> downstream) && (h[0].cause == RELEASE_CAUSE <==> !downstream)
            && (h[1].cause == CARRIER_CAUSE <==> downstream) && (h[1].cause == LOCAL_CAUSE <==> !downstream)
  {
    ScoresCountSignals(EvidenceText(change, log, dependency));
    CausesDiffer();
    hide Matched, EvidenceText, ReleaseScore, DownstreamScore, Min;
  }

  /** Confidences grow linearly with the matches: the caps of the formula are never
      reached. */
  lemma ConfidencesAreLinear(service: string, release: string, previous: string,
                             change: seq<Evidence>, log: seq<Evidence>, dependency: seq<Evidence>)
    ensures var h := PlanDiagnosis(service, release, previous, change, log, dependency).hypotheses;
            var text := EvidenceText(change, log, dependency);
            var (r, d) := (|Matched(RELEASE_SIGNALS, text)|, |Matched(DOWNSTREAM_SIGNALS, text)|);
            && |h| == 2
            && h[0].confidence == (if BlamesDownstream(text) then 0.68 + 0.07 * d as real else 0.65 + 0.06 * r as real) < 0.99
            && h[1].confidence == (if BlamesDownstream(text) then 0.62 + 0.06 * d as real else 0.55 + 0.05 * r as real) < 0.95
  {
    ScoresCountSignals(EvidenceText(change, log, dependency));
    hide Matched, EvidenceText, PrimaryIds, Ids;
    assert ReleaseScore(EvidenceText(change, log, dependency)) <= 5;
    assert DownstreamScore(EvidenceText(change, log, dependency)) <= 4;
    hide ReleaseScore, DownstreamScore;
  }

  /** Each hypothesis cites the leading items of two of the lists. */
  lemma HypothesesCiteLeaders(service: string, release: string, previous: string,
                              change: seq<Evidence>, log: seq<Evidence>, dependency: seq<Evidence>)
    ensures var h := PlanDiagnosis(service, release, previous, change, log, dependency).hypotheses;
            && |h| == 2
            && (if BlamesDownstream(EvidenceText(change, log, dependency))
                then LeadIds(h[0].support, log, 2, dependency, 2) && LeadIdsOfThree(h[1].support, change, log, dependency)
                else LeadIds(h[0].support, change, 2, log, 2) && LeadIds(h[1].support, log, 2, dependency, 2))
  {
    ScoresCountSignals(EvidenceText(change, log, dependency));
    hide Matched, EvidenceText, ReleaseScore, DownstreamScore, Min, LeadIds;
    hide LeadIdsOfThree;
    LeadersOfThree(change, log, dependency);
    LeadersAreCited(change, 2, log, 2);
    LeadersAreCited(log, 2, dependency, 2);
  }

  predicate LeadIdsOfThree(ids: seq<string>, change: seq<Evidence>, log: seq<Evidence>, dependency: seq<Evidence>) {
    var k := (if change == [] then 0 else 1) + (if log == [] then 0 else 1);
    k <= |ids| && LeadIds(ids[..k], change, 1, log, 1) && LeadIds(ids[k..], dependency, 2, [], 0)
  }

  lemma LeadersOfThree(change: seq<Evidence>, log: seq<Evidence>, dependency: seq<Evidence>)
    ensures LeadIdsOfThree(Ids(FirstN(1, change) + FirstN(1, log) + FirstN(2, dependency)), change, log, dependency)
  {
  }

  lemma LeadersAreCited(a: seq<Evidence>, m: nat, b: seq<Evidence>, n: nat)
    ensures LeadIds(Ids(FirstN(m, a) + FirstN(n, b)), a, m, b, n)
  {
  }

  lemma CausesDiffer()
    ensures DOWNSTREAM_CAUSE != RELEASE_CAUSE && CARRIER_CAUSE != LOCAL_CAUSE
  {
    assert |DOWNSTREAM_CAUSE| == 82 && |RELEASE_CAUSE| == 92;
    assert |CARRIER_CAUSE| == 70 && |LOCAL_CAUSE| == 87;
  }

  lemma {:induction false} PartInJoin(parts: seq<string>, i: nat, p: string)
    requires i < |parts| && Contains(parts[i], p)
    ensures Contains(JoinWithSpaces(parts), p)
  {
    if |parts| > 1 {
      var rest := JoinWithSpaces(parts[1..]);
      if i == 0 {
        ContainsInLonger(parts[0], " " + rest, p);
        assert parts[0] + (" " + rest) == JoinWithSpaces(parts);
      } else {
        PartInJoin(parts[1..], i - 1, p);
        ContainsBehind(parts[0] + " ", rest, p);
      }
    }
  }

  /** A phrase in any summary, in whatever case, is in the evidence text. */
  lemma SummariesAreSearched(change: seq<Evidence>, log: seq<Evidence>, dependency: seq<Evidence>, e: Evidence, p: string)
    requires e in change + log + dependency && Contains(Lower(e.summary), p)
    ensures Contains(EvidenceText(change, log, dependency), p)
  {
    var all := change + log + dependency;
    var i :| 0 <= i < |all| && all[i] == e;
    PartInJoin(Summaries(all), i, p);
  }

  lemma EitherInLonger(text: string, more: string, p: string, q: string)
    requires Either(text, p, q)
    ensures Either(text + more, p, q)
  {
    if Contains(text, p) { ContainsInLonger(text, more, p); } else { ContainsInLonger(text, more, q); }
  }

  lemma ScoreGrowsWithText(text: string, more: string)
    ensures ReleaseScore(text) <= ReleaseScore(text + more)
  {
    EitherGrows(text, more, "release", "deployed");
    EitherGrows(text, more, "configuration bundle update", "database dsn");
    EitherGrows(text, more, "invalid connection string", "authentication failures");
    EitherGrows(text, more, "stays local to order-api", "blast radius is currently limited to order-api");
    EitherGrows(text, more, "no downstream error amplification", "remains healthy");
  }

  lemma EitherGrows(text: string, more: string, p: string, q: string)
    ensures One(Either(text, p, q)) <= One(Either(text + more, p, q))
  {
    if Either(text, p, q) { EitherInLonger(text, more, p, q); }
  }

  /** More dependency evidence at the end never withdraws or alters a proposal. */
  lemma DependencyEvidenceKeepsTheAction(service: string, release: string, previous: string,
                                         change: seq<Evidence>, log: seq<Evidence>,
                                         dependency: seq<Evidence>, more: seq<Evidence>)
    requires PlanDiagnosis(service, release, previous, change, log, dependency).action.Some?
    ensures PlanDiagnosis(service, release, previous, change, log, dependency + more).action
         == PlanDiagnosis(service, release, previous, change, log, dependency).action
  {
    var before, added := Summaries(change + log + dependency), Summaries(more);
    assert change + log + (dependency + more) == (change + log + dependency) + more;
    assert Summaries(change + log + (dependency + more)) == before + added;
    JoinExtends(before, added);
    var rest :| JoinWithSpaces(before + added) == JoinWithSpaces(before) + rest;
    ScoreGrowsWithText(JoinWithSpaces(before), rest);
  }

  predicate Cited(id: string, evidence: seq<Evidence>) {
    exists j | 0 <= j < |evidence| :: evidence[j].id == id
  }

  predicate CitesOnly(ids: seq<string>, evidence: seq<Evidence>) {
    forall i | 0 <= i < |ids| :: Cited(ids[i], evidence)
  }

  lemma PartIsCited(part: seq<Evidence>, whole: seq<Evidence>)
    requires forall i | 0 <= i < |part| :: part[i] in whole
    ensures CitesOnly(Ids(part), whole)
  {
    forall i | 0 <= i < |part| ensures Cited(Ids(part)[i], whole) {
      var j :| 0 <= j < |whole| && whole[j] == part[i];
    }
  }

  lemma PartsAreCited(change: seq<Evidence>, log: seq<Evidence>, dependency: seq<Evidence>)
    ensures var all := change + log + dependency;
            && CitesOnly(PrimaryIds(change, log), all)
            && CitesOnly(Ids(FirstN(2, log) + FirstN(2, dependency)), all)
            && CitesOnly(Ids(FirstN(1, change) + FirstN(1, log) + FirstN(2, dependency)), all)
  {
    var all := change + log + dependency;
    PartIsCited(FirstN(2, change) + FirstN(2, log), all);
    PartIsCited(FirstN(2, log) + FirstN(2, dependency), all);
    PartIsCited(FirstN(1, change) + FirstN(1, log) + FirstN(2, dependency), all);
  }

  /** Every id cited by a hypothesis or by the action belongs to the evidence. */
  lemma CitationsAreEvidence(service: string, release: string, previous: string,
                             change: seq<Evidence>, log: seq<Evidence>, dependency: seq<Evidence>)
    ensures var d := PlanDiagnosis(service, release, previous, change, log, dependency);
            var all := change + log + dependency;
            && |d.hypotheses| == 2
            && (forall h | h in d.hypotheses :: CitesOnly(h.support, all))
            && (d.action.Some? ==> CitesOnly(d.action.value.evidenceIds, all))
  {
    PartsAreCited(change, log, dependency);
  }

  // ------------------------------------------------------------ agent answers

  datatype PlannerHypothesis = PlannerHypothesis(cause: string, support: seq<string>, confidence: real)

  datatype PlannerAction = PlannerAction(
    actionType: string, targetService: string,
    currentRevision: string, targetRevision: string,
    reason: string, riskLevel: string, evidenceIds: seq<string>,
    verificationPolicy: Option<VerificationPolicy>, requiresApproval: bool)

  datatype PlannerDecision = PlannerDecision(
    hypotheses: seq<PlannerHypothesis>, proposedAction: Option<PlannerAction>, notes: string)

  datatype CriticDecision = ApprovePlan | RequestReplan
  datatype CriticVerdict = CriticVerdict(decision: CriticDecision, reason: string)

  datatype PolicyDecision = Allow | RequireHumanApproval | Deny

  /** What the answer schema lets through. */
  predicate SchemaAdmits(d: PlannerDecision) {
    && (forall h | h in d.hypotheses :: 0.0 <= h.confidence <= 1.0)
    && (d.proposedAction.Some? ==>
          && d.proposedAction.value.actionType in {"rollback", "none"}
          && d.proposedAction.value.riskLevel in {"medium", "high"})
  }

  // ------------------------------------------------------------ the rule-based reasoner

  const RULE_NOTES :=
    "Rule-based planner scored release timing, config change evidence, local error signatures, and dependency isolation before recommending rollback."

  function AsDecision(d: Diagnosis): PlannerDecision {
    PlannerDecision(
      seq(|d.hypotheses|, i requires 0 <= i < |d.hypotheses| =>
        PlannerHypothesis(d.hypotheses[i].cause, d.hypotheses[i].support, d.hypotheses[i].confidence)),
      match d.action
      case None => None
      case Some(a) => Some(PlannerAction(a.actionType, a.targetService, a.currentRevision, a.targetRevision,
                                         a.reason, a.riskLevel, a.evidenceIds,
                                         a.verificationPolicy, a.requiresApproval)),
      RULE_NOTES)
  }

  /** `RuleBasedReasoner.plan`. */
  function RulePlan(service: string, release: string, previous: string,
                    change: seq<Evidence>, log: seq<Evidence>, dependency: seq<Evidence>): PlannerDecision
  {
    AsDecision(PlanDiagnosis(service, release, previous, change, log, dependency))
  }

  /** `RuleBasedReasoner.critique`. */
  function RuleCritique(action: Option<ActionPlan>, change: seq<Evidence>, log: seq<Evidence>): CriticVerdict {
    if action.Some? && |change| + |log| < 3 then
      CriticVerdict(RequestReplan, "Rollback was proposed without enough supporting release and log evidence.")
    else if action.Some? && (action.value.currentRevision == "" || action.value.targetRevision == "" ||
                             action.value.verificationPolicy.None?) then
      CriticVerdict(RequestReplan, "Rollback plan is missing revision or verification details.")
    else
      CriticVerdict(ApprovePlan, "Rule-based critic accepted the plan.")
  }

  /** `RuleBasedReasoner.policy`. */
  function RulePolicy(action: Option<ActionPlan>): PolicyDecision {
    match action
    case None => Allow
    case Some(a) =>
      if a.actionType == "rollback" then
        if a.requiresApproval || a.riskLevel == "high" then RequireHumanApproval else Allow
      else Deny
  }

  /** The critic of the rules objects to its own planner's proposal exactly when it
      rests on fewer than three change and log items, or a revision is missing; a
      diagnosis without a proposal is always accepted. */
  lemma RulesObjectExactlyWhen(service: string, release: string, previous: string,
                               change: seq<Evidence>, log: seq<Evidence>, dependency: seq<Evidence>)
    ensures var action := PlanDiagnosis(service, release, previous, change, log, dependency).action;
            RuleCritique(action, change, log).decision.RequestReplan?
            <==> action.Some? && (|change + log| < 3 || release == "" || previous == "")
  {
  }

  /** For any action: what the policy of the rules lets through, stops, or leaves to
      a human. */
  lemma PolicyDecidesExactlyWhen(action: Option<ActionPlan>)
    ensures RulePolicy(action).Deny? <==> action.Some? && action.value.actionType != "rollback"
    ensures RulePolicy(action).RequireHumanApproval?
            <==> action.Some? && action.value.actionType == "rollback" &&
                 (action.value.requiresApproval || action.value.riskLevel == "high")
  {
  }

  // ------------------------------------------------------------ the planner node

  datatype Plan = Plan(hypotheses: seq<Hypothesis>, action: Option<ActionPlan>, notes: string)

  const FALLBACK_NOTE :=
    "Guardrail fallback populated rollback action from strong release-regression evidence."

  function NumberedHypotheses(hs: seq<PlannerHypothesis>): (r: seq<Hypothesis>)
    ensures |r| == |hs|
  {
    seq(|hs|, i requires 0 <= i < |hs| =>
      Hypothesis("hyp-" + Decimal(i + 1), hs[i].cause, hs[i].support, hs[i].confidence))
  }

  function AcceptedAction(a: Option<PlannerAction>): Option<ActionPlan> {
    if a.None? || a.value.actionType == "none" then None
    else Some(ActionPlan(a.value.actionType, a.value.targetService, a.value.currentRevision,
                         a.value.targetRevision, a.value.reason, a.value.riskLevel, a.value.evidenceIds,
                         a.value.verificationPolicy, a.value.requiresApproval))
  }

  /** How the planner node completes a reasoner's decision: missing hypotheses and
      a missing action are filled in from the rules. */
  function CompletePlan(decision: PlannerDecision, service: string, release: string, previous: string,
                        change: seq<Evidence>, log: seq<Evidence>, dependency: seq<Evidence>): Plan
  {
    var hypotheses := NumberedHypotheses(decision.hypotheses);
    var action := AcceptedAction(decision.proposedAction);
    var fallback := PlanDiagnosis(service, release, previous, change, log, dependency);
    if hypotheses != [] && action.Some? then Plan(hypotheses, action, decision.notes)
    else
      Plan(if hypotheses == [] then fallback.hypotheses else hypotheses,
           if action.None? then fallback.action else action,
           if action.None? && fallback.action.Some?
           then Strip(decision.notes + "\n" + FALLBACK_NOTE) else decision.notes)
  }

  /** The reasoner proposes something. */
  predicate Proposes(d: PlannerDecision) {
    d.proposedAction.Some? && d.proposedAction.value.actionType != "none"
  }

  predicate SameAction(p: PlannerAction, a: ActionPlan) {
    && a.actionType == p.actionType && a.targetService == p.targetService
    && a.currentRevision == p.currentRevision && a.targetRevision == p.targetRevision
    && a.reason == p.reason && a.riskLevel == p.riskLevel && a.evidenceIds == p.evidenceIds
    && a.verificationPolicy == p.verificationPolicy && a.requiresApproval == p.requiresApproval
  }

  /** The same hypotheses in the same order, numbered from one. */
  predicate SameHypotheses(ps: seq<PlannerHypothesis>, hs: seq<Hypothesis>) {
    && |hs| == |ps|
    && forall i | 0 <= i < |ps| ::
         && hs[i].id == "hyp-" + Decimal(i + 1)
         && (hs[i].cause, hs[i].support, hs[i].confidence) == (ps[i].cause, ps[i].support, ps[i].confidence)
  }

  /** The reasoner's hypotheses and action as they are, and the rules' where it gave none. */
  predicate Completes(d: PlannerDecision, rules: Diagnosis, hypotheses: seq<Hypothesis>, action: Option<ActionPlan>) {
    && (if d.hypotheses != [] then SameHypotheses(d.hypotheses, hypotheses) else hypotheses == rules.hypotheses)
    && (if Proposes(d) then action.Some? && SameAction(d.proposedAction.value, action.value) else action == rules.action)
  }

  /** A note is added exactly when the rules filled in the action. */
  predicate Annotates(d: PlannerDecision, rules: Diagnosis, notes: string) {
    if !Proposes(d) && rules.action.Some?
    then notes == Strip(d.notes + "\n" + FALLBACK_NOTE) else notes == d.notes
  }

  /** The planner node neither loses nor changes what the reasoner decided, for any
      reasoner, and turns to the rules only for what is missing. */
  lemma CompletionKeepsTheDecision(decision: PlannerDecision, service: string, release: string, previous: string,
                                   change: seq<Evidence>, log: seq<Evidence>, dependency: seq<Evidence>)
    ensures var rules := PlanDiagnosis(service, release, previous, change, log, dependency);
            var plan := CompletePlan(decision, service, release, previous, change, log, dependency);
            Completes(decision, rules, plan.hypotheses, plan.action) && Annotates(decision, rules, plan.notes)
  {
    hide PlanDiagnosis;
  }

  predicate WellNumbered(d: Diagnosis) {
    && |d.hypotheses| == 2 && d.hypotheses[0].id == "hyp-1" && d.hypotheses[1].id == "hyp-2"
    && (d.action.Some? ==> d.action.value.actionType == "rollback")
  }

  /** Handing a diagnosis over as a planner decision and reading it back. */
  lemma DecisionRoundTrip(d: Diagnosis)
    requires WellNumbered(d)
    ensures NumberedHypotheses(AsDecision(d).hypotheses) == d.hypotheses
    ensures AcceptedAction(AsDecision(d).proposedAction) == d.action
  {
    assert Decimal(1) == "1" && Decimal(2) == "2";
    var numbered := NumberedHypotheses(AsDecision(d).hypotheses);
    assert numbered[0] == d.hypotheses[0] && numbered[1] == d.hypotheses[1];
  }

  lemma DiagnosisIsWellNumbered(service: string, release: string, previous: string,
                                change: seq<Evidence>, log: seq<Evidence>, dependency: seq<Evidence>)
    ensures WellNumbered(PlanDiagnosis(service, release, previous, change, log, dependency))
  {
  }

  lemma RulePlanPassesSchema(service: string, release: string, previous: string,
                             change: seq<Evidence>, log: seq<Evidence>, dependency: seq<Evidence>)
    ensures SchemaAdmits(RulePlan(service, release, previous, change, log, dependency))
  {
    var d := PlanDiagnosis(service, release, previous, change, log, dependency);
    assert forall h | h in d.hypotheses :: 0.0 <= h.confidence <= 1.0;
  }

  /** With the rule-based reasoner the guardrail changes nothing: the node's plan
      is the diagnosis itself, notes included. */
  lemma GuardrailIsIdleUnderRules(service: string, release: string, previous: string,
                                  change: seq<Evidence>, log: seq<Evidence>, dependency: seq<Evidence>)
    ensures var d := PlanDiagnosis(service, release, previous, change, log, dependency);
            CompletePlan(RulePlan(service, release, previous, change, log, dependency),
                         service, release, previous, change, log, dependency)
            == Plan(d.hypotheses, d.action, RULE_NOTES)
  {
    DiagnosisIsWellNumbered(service, release, previous, change, log, dependency);
    DecisionRoundTrip(PlanDiagnosis(service, release, previous, change, log, dependency));
  }

  /** The guardrail never withholds a rollback the rules would propose, and a plan
      it completes always carries hypotheses. */
  lemma GuardrailKeepsStrongRollbacks(decision: PlannerDecision, service: string, release: string, previous: string,
                                      change: seq<Evidence>, log: seq<Evidence>, dependency: seq<Evidence>)
    ensures var plan := CompletePlan(decision, service, release, previous, change, log, dependency);
            && plan.hypotheses != []
            && (plan.action.None? <==>
                  !Proposes(decision) && |Matched(RELEASE_SIGNALS, EvidenceText(change, log, dependency))| < 4)
  {
    hide Matched;
    RollbackExactlyOnFourSignals(service, release, previous, change, log, dependency);
  }
}
