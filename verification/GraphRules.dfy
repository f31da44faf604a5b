/** The whole system under the rule-based reasoner. */
module GraphRules {
  import opened Common
  import opened Models
  import opened Gateway
  import opened Planner
  import opened Graph
  import opened GraphInvariant
  import GP = GraphProgress
  import R = Report
  import T = Text
  import IS = IncidentStore
  import P = RollbackProtocol

  // ------------------------------------------------------------ rule-based histories

  /** The diagnosis of the evidence in the state. */
  function Diagnose(ch: Channels): Diagnosis {
    PlanDiagnosis(ch.serviceName, Release(ch), Previous(ch), ch.change, ch.log, ch.dependency)
  }

  function RulesVerdict(ch: Channels, d: Diagnosis): CriticVerdict {
    RuleCritique(d.action, ch.change, ch.log)
  }

  /** What the rule-based reasoner answers where it is asked; triage and report
      texts stay free, since no decision reads them. */
  predicate RuleAnswer(t: Thread, answer: Answer) {
    && (answer.Planned? && t.pos == At(PlannerNode) ==>
          answer.decision == RulePlan(t.ch.serviceName, Release(t.ch), Previous(t.ch),
                                      t.ch.change, t.ch.log, t.ch.dependency))
    && (answer.Critiqued? && t.pos == At(CriticNode) ==>
          answer.verdict == RuleCritique(t.ch.action, t.ch.change, t.ch.log))
    && (answer.Decided? && t.pos == At(PolicyNode) ==> answer.policy == RulePolicy(t.ch.action))
  }

  /** The evidence agents hand on what the gateway found. */
  predicate HandsOn(t: Thread, b: Branch, answer: BranchAnswer) {
    t.pos.Gathering? && GP.PcOf(t.pos, b).Analysing? && answer.Findings? ==>
      answer.findings == GP.PcOf(t.pos, b).items
  }

  predicate FollowsRules(w: World, move: Move) {
    && (move.Step? ==> RuleAnswer(ThreadOf(w, move.inc), move.answer))
    && (move.BranchMove? ==> HandsOn(ThreadOf(w, move.inc), move.branch, move.branchAnswer))
  }

  predicate RuleBased(cfg: P.Config, moves: seq<Move>) {
    forall n | 0 <= n < |moves| :: FollowsRules(Run(cfg, Origin, moves[..n]), moves[n])
  }

  predicate RuleReachedBy(cfg: P.Config, w: World, moves: seq<Move>) {
    ReachedBy(cfg, w, moves) && RuleBased(cfg, moves)
  }

  // ------------------------------------------------------------ the invariant

  /** What a rollback of an incident is about. */
  datatype Facts = Facts(service: string, release: string, previous: string)

  function FactsOf(incidents: map<string, IS.Incident>, inc: string): Facts {
    if inc !in incidents then Facts("", "", "")
    else
      var i := incidents[inc];
      Facts(i.serviceName,
            if i.context.Some? then i.context.value.releaseVersion else "",
            if i.context.Some? then i.context.value.previousVersion else "")
  }

  function StateFacts(ch: Channels): Facts {
    Facts(ch.serviceName, Release(ch), Previous(ch))
  }

  function RuleKey(inc: string, service: string): string {
    ActionKey(inc, "rollback", service)
  }

  predicate Cites(e: Event) {
    e.AnalysisSaved? ==>
      && (forall h | h in e.hypotheses :: CitesOnly(h.support, e.evidence))
      && (e.saved.Some? ==> CitesOnly(e.saved.value.evidenceIds, e.evidence))
  }

  /** From the release at fault back to the one before it, under the incident's key. */
  predicate RuleRequest(inc: string, facts: Facts, req: RollbackRequest) {
    && req.idempotencyKey == RuleKey(inc, facts.service) && req.targetService == facts.service != ""
    && req.currentRevision == facts.release != "" && req.targetRevision == facts.previous != ""
  }

  predicate RuleEvent(inc: string, facts: Facts, s: Summary, e: Event) {
    && Cites(e)
    && (e.RollbackRequested? ==> s.clearance.ByHuman? && RuleRequest(inc, facts, e.req))
  }

  predicate RuleTrace(inc: string, facts: Facts, trace: seq<Event>)
    decreases |trace|
  {
    trace == [] ||
    (RuleTrace(inc, facts, trace[..|trace| - 1]) &&
     RuleEvent(inc, facts, Summarize(trace[..|trace| - 1]), trace[|trace| - 1]))
  }

  lemma RuleSnoc(inc: string, facts: Facts, trace: seq<Event>, e: Event)
    ensures RuleTrace(inc, facts, trace + [e])
            <==> RuleTrace(inc, facts, trace) && RuleEvent(inc, facts, Summarize(trace), e)
  {
    assert (trace + [e])[..|trace|] == trace;
  }

  /** The plan in the state and in the store is the diagnosis, and replanning ran
      its full course or not at all. */
  predicate Settled(ch: Channels, s: Summary, d: Diagnosis) {
    && ch.action == d.action
    && s.analysis == Some(IS.Analysis(Evidences(ch), d.hypotheses, d.action))
  }

  /** Twice if the critic of the rules objects to the diagnosis, else not at all. */
  predicate Replanned(ch: Channels, d: Diagnosis) {
    ch.replanCount == if RulesVerdict(ch, d).decision.RequestReplan? then 2 else 0
  }

  /** Where a thread may stand when its evidence is diagnosed as `d`. */
  predicate RulePos(t: Thread, s: Summary, d: Diagnosis) {
    match t.pos
    case NotStarted => true
    case At(node) =>
      (match node
       case LoadIncident => true
       case Triage => true
       case PlannerNode => t.ch.replanCount == 1 ==> RulesVerdict(t.ch, d).decision.RequestReplan?
       case CriticNode => Settled(t.ch, s, d) && (t.ch.replanCount == 1 ==> RulesVerdict(t.ch, d).decision.RequestReplan?)
       case RollbackNode => Settled(t.ch, s, d) && Replanned(t.ch, d) && s.clearance.ByHuman?
       case _ => Settled(t.ch, s, d) && Replanned(t.ch, d))
    case Gathering(_, _, _) => true
    case AwaitRollback(_) => Settled(t.ch, s, d) && Replanned(t.ch, d) && s.clearance.ByHuman?
    case _ => Settled(t.ch, s, d) && Replanned(t.ch, d)
  }

  predicate ReceiptIsOwn(inc: string, ch: Channels, incidents: map<string, IS.Incident>) {
    ch.receipt.Some? ==>
      inc in incidents && ch.receipt.value.idempotencyKey == RuleKey(inc, incidents[inc].serviceName)
  }

  predicate Kept(inc: string, t: Thread, incidents: map<string, IS.Incident>, d: Diagnosis) {
    && RulePos(t, Summarize(t.trace), d)
    && RuleTrace(inc, FactsOf(incidents, inc), t.trace)
    && ReceiptIsOwn(inc, t.ch, incidents)
  }

  predicate RuleThreadOk(inc: string, t: Thread, incidents: map<string, IS.Incident>) {
    Kept(inc, t, incidents, Diagnose(t.ch))
  }

  ghost predicate RulesKept(threads: map<string, Thread>, incidents: map<string, IS.Incident>) {
    forall inc: string :: RuleThreadOk(inc, Stored(threads, inc), incidents)
  }

  ghost predicate RuleInv(w: World) {
    RulesKept(w.threads, w.store.incidents)
  }

  // ------------------------------------------------------------ one step of a thread

  lemma RuleSaveOk(inc: string, facts: Facts, t: Thread, d: Diagnosis, save: Reply)
    requires RuleTrace(inc, facts, t.trace) && t.pos == At(PlannerNode) && RulePos(t, Summarize(t.trace), d)
    requires Cites(AnalysisSaved(Evidences(t.ch), d.hypotheses, d.action))
    ensures var t' := SaveStep(inc, t, Plan(d.hypotheses, d.action, RULE_NOTES), save).thread;
            RuleTrace(inc, facts, t'.trace) && RulePos(t', Summarize(t'.trace), d)
  {
    var saved := AnalysisSaved(Evidences(t.ch), d.hypotheses, d.action);
    RuleSnoc(inc, facts, t.trace, saved);
    RuleSnoc(inc, facts, t.trace + [saved], Completed(PlannerNode));
    Snoc(inc, t.trace, saved);
    Snoc(inc, t.trace + [saved], Completed(PlannerNode));
  }

  lemma RuleCriticOk(inc: string, facts: Facts, t: Thread, d: Diagnosis)
    requires RuleTrace(inc, facts, t.trace) && t.pos == At(CriticNode) && RulePos(t, Summarize(t.trace), d)
    requires PosOk(t, Summarize(t.trace))
    ensures var t' := CriticStep(t, RuleCritique(t.ch.action, t.ch.change, t.ch.log)).thread;
            RuleTrace(inc, facts, t'.trace) && RulePos(t', Summarize(t'.trace), d)
  {
    RuleSnoc(inc, facts, t.trace, Completed(CriticNode));
    Snoc(inc, t.trace, Completed(CriticNode));
  }

  lemma RulePolicyOk(inc: string, facts: Facts, t: Thread, d: Diagnosis)
    requires RuleTrace(inc, facts, t.trace) && t.pos == At(PolicyNode) && RulePos(t, Summarize(t.trace), d)
    requires d.action.Some? ==> RulePolicy(d.action).RequireHumanApproval?
    ensures var t' := PolicyStep(t, RulePolicy(t.ch.action)).thread;
            RuleTrace(inc, facts, t'.trace) && RulePos(t', Summarize(t'.trace), d)
  {
    RuleSnoc(inc, facts, t.trace, PolicyDecided(RulePolicy(t.ch.action)));
    Snoc(inc, t.trace, PolicyDecided(RulePolicy(t.ch.action)));
  }

  lemma RuleGateOk(inc: string, facts: Facts, t: Thread, d: Diagnosis)
    requires RuleTrace(inc, facts, t.trace) && t.pos == At(GateNode) && RulePos(t, Summarize(t.trace), d)
    ensures var t' := GateStep(t).thread;
            RuleTrace(inc, facts, t'.trace) && RulePos(t', Summarize(t'.trace), d)
  {
    RuleSnoc(inc, facts, t.trace, InterruptShown(t.ch.action));
    Snoc(inc, t.trace, InterruptShown(t.ch.action));
  }

  lemma RuleToldOk(inc: string, facts: Facts, t: Thread, d: Diagnosis, approved: bool, reviewer: string, comment: string)
    requires RuleTrace(inc, facts, t.trace) && RulePos(t, Summarize(t.trace), d)
    ensures var t' := Told(t, approved, reviewer, comment);
            RuleTrace(inc, facts, t'.trace) && RulePos(t', Summarize(t'.trace), d)
  {
    RuleSnoc(inc, facts, t.trace, Reviewed(approved, reviewer, comment));
    Snoc(inc, t.trace, Reviewed(approved, reviewer, comment));
  }

  lemma RuleAnswerOk(inc: string, facts: Facts, t: Thread, d: Diagnosis, approved: bool, reviewer: string)
    requires RuleTrace(inc, facts, t.trace) && RulePos(t, Summarize(t.trace), d)
    ensures var t' := ResumeThread(t, approved, reviewer);
            RuleTrace(inc, facts, t'.trace) && RulePos(t', Summarize(t'.trace), d)
  {
    RuleSnoc(inc, facts, t.trace, GateDecided(approved, reviewer));
    Snoc(inc, t.trace, GateDecided(approved, reviewer));
  }

  lemma RuleStopOk(t: Thread, d: Diagnosis)
    requires RulePos(t, Summarize(t.trace), d)
    ensures RulePos(Stop(t), Summarize(t.trace), d) && Stop(t).trace == t.trace
  {
  }

  lemma RuleStartOk(inc: string, facts: Facts, t: Thread, d: Diagnosis)
    requires RuleTrace(inc, facts, t.trace)
    ensures var t' := StartStep(t).thread;
            RuleTrace(inc, facts, t'.trace) && RulePos(t', Summarize(t'.trace), d)
  {
    RuleSnoc(inc, facts, t.trace, RunStarted);
  }

  lemma RuleRequestOk(inc: string, t: Thread, calls: nat, d: Diagnosis)
    requires RuleTrace(inc, StateFacts(t.ch), t.trace) && t.pos == At(RollbackNode) && RulePos(t, Summarize(t.trace), d)
    requires GatedRollback(d, StateFacts(t.ch))
    ensures var t' := RollbackBegin(inc, t, calls).thread;
            RuleTrace(inc, StateFacts(t.ch), t'.trace) && RulePos(t', Summarize(t'.trace), d)
  {
    if t.ch.action.Some? {
      var req := RequestFor(inc, t.ch, t.ch.action.value);
      RuleSnoc(inc, StateFacts(t.ch), t.trace, RollbackRequested(req));
      Snoc(inc, t.trace, RollbackRequested(req));
    }
  }

  lemma RuleReceiptOk(inc: string, facts: Facts, t: Thread, d: Diagnosis, r: ActionReceipt)
    requires RuleTrace(inc, facts, t.trace) && t.pos.AwaitRollback? && RulePos(t, Summarize(t.trace), d)
    ensures var t' := WithReceipt(t, r);
            RuleTrace(inc, facts, t'.trace) && RulePos(t', Summarize(t'.trace), d)
  {
    RuleSnoc(inc, facts, t.trace, Completed(RollbackNode));
    Snoc(inc, t.trace, Completed(RollbackNode));
  }

  lemma RuleVerdictOk(inc: string, facts: Facts, t: Thread, d: Diagnosis, result: VerificationResult)
    requires RuleTrace(inc, facts, t.trace) && t.pos.AwaitVerify? && RulePos(t, Summarize(t.trace), d)
    ensures var t' := WithVerdict(t, result);
            RuleTrace(inc, facts, t'.trace) && RulePos(t', Summarize(t'.trace), d)
  {
    RuleSnoc(inc, facts, t.trace, VerdictGiven(result));
    Snoc(inc, t.trace, VerdictGiven(result));
  }

  lemma RuleFinishOk(inc: string, facts: Facts, t: Thread, d: Diagnosis, final: FinalReport, save: Reply)
    requires RuleTrace(inc, facts, t.trace) && t.pos == At(ReportNode) && RulePos(t, Summarize(t.trace), d)
    ensures var t' := FinishStep(inc, t, final, save).thread;
            RuleTrace(inc, facts, t'.trace) && RulePos(t', Summarize(t'.trace), d)
  {
    hide CitesOnly, RuleRequest, RuleCritique;
    RuleSnoc(inc, facts, t.trace, ReportSaved(final));
    RuleSnoc(inc, facts, t.trace + [ReportSaved(final)], Completed(ReportNode));
    Snoc(inc, t.trace, ReportSaved(final));
    Snoc(inc, t.trace + [ReportSaved(final)], Completed(ReportNode));
  }

  /** A successful call returns the receipt stored under its own key. */
  lemma OwnReceipt(cfg: P.Config, g: P.State, n: nat)
    requires P.Inv(cfg, g) && n < |g.calls| && g.calls[n].Rollback? && g.calls[n].pc.Returned?
    requires g.calls[n].pc.outcome.Succeeded()
    ensures g.calls[n].pc.outcome.receipt.idempotencyKey == g.calls[n].req.idempotencyKey
  {
    assert P.CallOk(cfg, g.rows, g.calls[n]);
  }

  predicate SameInputs(ch: Channels, ch': Channels) {
    && ch'.serviceName == ch.serviceName && ch'.context == ch.context
    && ch'.change == ch.change && ch'.log == ch.log && ch'.dependency == ch.dependency
  }

  lemma SameDiagnosis(ch: Channels, ch': Channels)
    requires SameInputs(ch, ch')
    ensures Diagnose(ch') == Diagnose(ch)
  {
  }

  predicate RuleOk(inc: string, facts: Facts, t: Thread, d: Diagnosis) {
    RuleTrace(inc, facts, t.trace) && RulePos(t, Summarize(t.trace), d)
  }

  lemma RulePlannerOk(inc: string, facts: Facts, t: Thread, decision: PlannerDecision, save: Reply)
    requires RuleOk(inc, facts, t, Diagnose(t.ch)) && t.pos == At(PlannerNode)
    requires decision == RulePlan(t.ch.serviceName, Release(t.ch), Previous(t.ch), t.ch.change, t.ch.log, t.ch.dependency)
    ensures RuleOk(inc, facts, PlannerStep(inc, t, decision, save).thread, Diagnose(t.ch))
  {
    CitationsAreEvidence(t.ch.serviceName, Release(t.ch), Previous(t.ch), t.ch.change, t.ch.log, t.ch.dependency);
    GuardrailIsIdleUnderRules(t.ch.serviceName, Release(t.ch), Previous(t.ch), t.ch.change, t.ch.log, t.ch.dependency);
    RulePlanPassesSchema(t.ch.serviceName, Release(t.ch), Previous(t.ch), t.ch.change, t.ch.log, t.ch.dependency);
    RuleSaveOk(inc, facts, t, Diagnose(t.ch), save);
  }

  lemma SaveKeepsInputs(inc: string, t: Thread, plan: Plan, save: Reply)
    ensures SameInputs(t.ch, SaveStep(inc, t, plan, save).thread.ch)
    ensures SaveStep(inc, t, plan, save).thread.ch.receipt == t.ch.receipt
  {
  }

  lemma FinishKeepsInputs(inc: string, t: Thread, final: FinalReport, save: Reply)
    ensures SameInputs(t.ch, FinishStep(inc, t, final, save).thread.ch)
    ensures FinishStep(inc, t, final, save).thread.ch.receipt == t.ch.receipt
  {
  }

  lemma GatewayKeepsInputs(inc: string, t: Thread, calls: nat, c: P.Call)
    ensures SameInputs(t.ch, RollbackBegin(inc, t, calls).thread.ch)
    ensures SameInputs(t.ch, RollbackEnd(t, c).thread.ch) && SameInputs(t.ch, VerifyEnd(t, c).thread.ch)
  {
  }

  lemma InputsStay(inc: string, t: Thread, answer: Answer, incidents: map<string, IS.Incident>, calls: seq<P.Call>)
    requires t.pos != At(LoadIncident) && !t.pos.Gathering?
    ensures SameInputs(t.ch, NodeStep(inc, t, incidents, calls, answer).thread.ch)
  {
    match t.pos {
      case At(PlannerNode) =>
        if answer.Planned? { SaveKeepsInputs(inc, t, PlanOf(t.ch, answer.decision), answer.save); }
      case At(ReportNode) =>
        if answer.Reported? {
          FinishKeepsInputs(inc, t, R.FinishReport(answer.report, t.ch.verification, t.ch.receipt), answer.saveReport);
        }
      case AwaitRollback(n) => if n < |calls| { GatewayKeepsInputs(inc, t, |calls|, calls[n]); }
      case AwaitVerify(n) => if n < |calls| { GatewayKeepsInputs(inc, t, |calls|, calls[n]); }
      case _ =>
    }
  }

  /** What a diagnosis of the service's evidence can propose. */
  predicate GatedRollback(d: Diagnosis, facts: Facts) {
    d.action.Some? ==>
      && d.action.value.actionType == "rollback" && d.action.value.targetService == facts.service
      && d.action.value.currentRevision == facts.release && d.action.value.targetRevision == facts.previous
      && RulePolicy(d.action).RequireHumanApproval?
  }

  lemma RulesGateRollbacks(ch: Channels)
    ensures GatedRollback(Diagnose(ch), StateFacts(ch))
  {
  }

  lemma RuleDecisionOk(inc: string, t: Thread, answer: Answer, incidents: map<string, IS.Incident>,
                       calls: seq<P.Call>, d: Diagnosis)
    requires t.pos in {At(CriticNode), At(PolicyNode), At(GateNode), At(RollbackNode)}
    requires RuleAnswer(t, answer) && PosOk(t, Summarize(t.trace)) && GatedRollback(d, StateFacts(t.ch))
    requires RuleOk(inc, StateFacts(t.ch), t, d)
    ensures RuleOk(inc, StateFacts(t.ch), NodeStep(inc, t, incidents, calls, answer).thread, d)
  {
    var facts := StateFacts(t.ch);
    match t.pos {
      case At(CriticNode) => RuleCriticOk(inc, facts, t, d);
      case At(PolicyNode) => RulePolicyOk(inc, facts, t, d);
      case At(GateNode) => RuleGateOk(inc, facts, t, d);
      case At(RollbackNode) => RuleRequestOk(inc, t, |calls|, d);
    }
  }

  lemma RuleRollbackEndOk(inc: string, facts: Facts, t: Thread, c: P.Call, d: Diagnosis)
    requires t.pos.AwaitRollback? && RuleOk(inc, facts, t, d)
    ensures RuleOk(inc, facts, RollbackEnd(t, c).thread, d)
  {
    RuleStopOk(t, d);
    if c.Rollback? && c.pc.Returned? && c.pc.outcome.Succeeded() {
      RuleReceiptOk(inc, facts, t, d, c.pc.outcome.receipt);
    }
    hide RuleTrace, RulePos, Summarize, WithReceipt, Stop;
  }

  lemma RuleVerifyEndOk(inc: string, facts: Facts, t: Thread, c: P.Call, d: Diagnosis)
    requires t.pos.AwaitVerify? && RuleOk(inc, facts, t, d)
    ensures RuleOk(inc, facts, VerifyEnd(t, c).thread, d)
  {
    RuleStopOk(t, d);
    if c.Verify? && c.vpc.VerifyReturned? && c.vpc.verdict.Verdict? {
      RuleVerdictOk(inc, facts, t, d, c.vpc.verdict.result);
    }
    hide RuleTrace, RulePos, Summarize, WithVerdict, Stop;
  }

  lemma RuleVerifyBeginOk(inc: string, facts: Facts, t: Thread, calls: nat, d: Diagnosis)
    requires t.pos == At(VerifyNode) && RuleOk(inc, facts, t, d)
    ensures RuleOk(inc, facts, VerifyBegin(inc, t, calls).thread, d)
  {
    RuleStopOk(t, d);
  }

  lemma RuleReturnOk(inc: string, facts: Facts, t: Thread, answer: Answer, incidents: map<string, IS.Incident>,
                     calls: seq<P.Call>, d: Diagnosis)
    requires t.pos.AwaitRollback? || t.pos.AwaitVerify? || t.pos == At(VerifyNode)
    requires RuleOk(inc, facts, t, d)
    ensures RuleOk(inc, facts, NodeStep(inc, t, incidents, calls, answer).thread, d)
  {
    hide RuleOk, RollbackEnd, VerifyEnd, VerifyBegin;
    if t.pos == At(VerifyNode) {
      RuleVerifyBeginOk(inc, facts, t, |calls|, d);
    } else if t.pos.call < |calls| {
      if t.pos.AwaitRollback? {
        RuleRollbackEndOk(inc, facts, t, calls[t.pos.call], d);
      } else {
        RuleVerifyEndOk(inc, facts, t, calls[t.pos.call], d);
      }
    }
  }

  predicate BeforePlanning(pos: Pos) {
    pos in {NotStarted, At(LoadIncident), At(Triage)} || pos.Gathering?
  }

  lemma RuleGatherOk(inc: string, facts: Facts, t: Thread, answer: Answer, incidents: map<string, IS.Incident>,
                     calls: seq<P.Call>, d: Diagnosis)
    requires BeforePlanning(t.pos) && RuleTrace(inc, facts, t.trace) && PosOk(t, Summarize(t.trace))
    ensures RuleOk(inc, facts, NodeStep(inc, t, incidents, calls, answer).thread, d)
  {
  }

  /** Every node keeps the rule-based invariant. */
  lemma RuleNodeOk(inc: string, t: Thread, answer: Answer, incidents: map<string, IS.Incident>, calls: seq<P.Call>)
    requires RuleAnswer(t, answer) && PosOk(t, Summarize(t.trace)) && !BeforePlanning(t.pos)
    requires RuleOk(inc, StateFacts(t.ch), t, Diagnose(t.ch))
    ensures RuleOk(inc, StateFacts(t.ch), NodeStep(inc, t, incidents, calls, answer).thread, Diagnose(t.ch))
  {
    match t.pos {
      case At(PlannerNode) =>
        if answer.Planned? { RulePlannerOk(inc, StateFacts(t.ch), t, answer.decision, answer.save); }
      case At(ReportNode) =>
        if answer.Reported? {
          RuleFinishOk(inc, StateFacts(t.ch), t, Diagnose(t.ch),
                       R.FinishReport(answer.report, t.ch.verification, t.ch.receipt), answer.saveReport);
        }
      case At(VerifyNode) => RuleReturnOk(inc, StateFacts(t.ch), t, answer, incidents, calls, Diagnose(t.ch));
      case At(_) =>
        RulesGateRollbacks(t.ch);
        RuleDecisionOk(inc, t, answer, incidents, calls, Diagnose(t.ch));
      case AwaitRollback(_) => RuleReturnOk(inc, StateFacts(t.ch), t, answer, incidents, calls, Diagnose(t.ch));
      case AwaitVerify(_) => RuleReturnOk(inc, StateFacts(t.ch), t, answer, incidents, calls, Diagnose(t.ch));
      case _ =>
    }
  }

  lemma OtherNodesKeepReceipt(inc: string, t: Thread, answer: Answer, incidents: map<string, IS.Incident>, calls: seq<P.Call>)
    requires !t.pos.AwaitRollback? && !t.pos.AwaitVerify?
    ensures NodeStep(inc, t, incidents, calls, answer).thread.ch.receipt == t.ch.receipt
  {
    if t.pos == At(PlannerNode) && answer.Planned? {
      SaveKeepsInputs(inc, t, PlanOf(t.ch, answer.decision), answer.save);
    } else if t.pos == At(ReportNode) && answer.Reported? {
      FinishKeepsInputs(inc, t, R.FinishReport(answer.report, t.ch.verification, t.ch.receipt), answer.saveReport);
    }
  }

  lemma ReturnedReceiptIsOwn(cfg: P.Config, inc: string, t: Thread, n: nat,
                             incidents: map<string, IS.Incident>, g: P.State, d: Diagnosis)
    requires ReceiptIsOwn(inc, t.ch, incidents) && P.Inv(cfg, g) && CallsOk(inc, t, g.calls) && ViewOk(inc, t, incidents)
    requires t.pos == AwaitRollback(n) && t.ch.action == d.action && GatedRollback(d, StateFacts(t.ch))
    ensures ReceiptIsOwn(inc, RollbackEnd(t, g.calls[n]).thread.ch, incidents)
  {
    if g.calls[n].pc.Returned? && g.calls[n].pc.outcome.Succeeded() { OwnReceipt(cfg, g, n); }
    hide P.Inv;
  }

  lemma ReceiptStaysOwn(cfg: P.Config, inc: string, t: Thread, answer: Answer,
                        incidents: map<string, IS.Incident>, g: P.State, d: Diagnosis)
    requires ReceiptIsOwn(inc, t.ch, incidents) && P.Inv(cfg, g) && CallsOk(inc, t, g.calls) && ViewOk(inc, t, incidents)
    requires RulePos(t, Summarize(t.trace), d) && GatedRollback(d, StateFacts(t.ch))
    ensures ReceiptIsOwn(inc, NodeStep(inc, t, incidents, g.calls, answer).thread.ch, incidents)
  {
    hide P.Inv, GatedRollback, Summarize, RollbackEnd, Replanned;
    match t.pos {
      case AwaitRollback(n) => ReturnedReceiptIsOwn(cfg, inc, t, n, incidents, g, d);
      case AwaitVerify(_) =>
      case _ => OtherNodesKeepReceipt(inc, t, answer, incidents, g.calls);
    }
  }

  // ------------------------------------------------------------ one move

  lemma RuleEarlyStep(cfg: P.Config, inc: string, t: Thread, answer: Answer,
                      incidents: map<string, IS.Incident>, g: P.State, d: Diagnosis)
    requires PosOk(t, Summarize(t.trace)) && BeforePlanning(t.pos)
    requires RuleTrace(inc, FactsOf(incidents, inc), t.trace) && ReceiptIsOwn(inc, t.ch, incidents)
    ensures Kept(inc, NodeStep(inc, t, incidents, g.calls, answer).thread, incidents, d)
  {
    RuleGatherOk(inc, FactsOf(incidents, inc), t, answer, incidents, g.calls, d);
    OtherNodesKeepReceipt(inc, t, answer, incidents, g.calls);
  }

  lemma RuleLateStep(cfg: P.Config, inc: string, t: Thread, answer: Answer, incidents: map<string, IS.Incident>, g: P.State)
    requires PosOk(t, Summarize(t.trace)) && !BeforePlanning(t.pos) && ViewOk(inc, t, incidents)
    requires CallsOk(inc, t, g.calls) && P.Inv(cfg, g) && RuleAnswer(t, answer)
    requires Kept(inc, t, incidents, Diagnose(t.ch))
    ensures Kept(inc, NodeStep(inc, t, incidents, g.calls, answer).thread, incidents, Diagnose(t.ch))
  {
    hide NodeStep, RulePos, RuleTrace, RuleAnswer, PosOk, Summarize, Diagnose, P.Inv;
    RulesGateRollbacks(t.ch);
    ReceiptStaysOwn(cfg, inc, t, answer, incidents, g, Diagnose(t.ch));
    RuleNodeOk(inc, t, answer, incidents, g.calls);
  }

  /** What a thread's own move leaves of the rule-based invariant. */
  lemma RuleStepOk(cfg: P.Config, inc: string, t: Thread, answer: Answer, incidents: map<string, IS.Incident>, g: P.State)
    requires ThreadOk(cfg, inc, t, incidents, g) && P.Inv(cfg, g) && RuleThreadOk(inc, t, incidents) && RuleAnswer(t, answer)
    ensures RuleThreadOk(inc, NodeStep(inc, t, incidents, g.calls, answer).thread, incidents)
  {
    var t' := NodeStep(inc, t, incidents, g.calls, answer).thread;
    if BeforePlanning(t.pos) {
      RuleEarlyStep(cfg, inc, t, answer, incidents, g, Diagnose(t'.ch));
    } else {
      RuleLateStep(cfg, inc, t, answer, incidents, g);
      InputsStay(inc, t, answer, incidents, g.calls);
      SameDiagnosis(t.ch, t'.ch);
    }
  }

  lemma RuleDirectOk(inc: string, t: Thread, incidents: map<string, IS.Incident>, d: Diagnosis,
                     approved: bool, reviewer: string, comment: string)
    requires Kept(inc, t, incidents, d)
    ensures var t' := DirectStep(inc, t, incidents, approved, reviewer, comment).thread;
            Kept(inc, t', incidents, d) && SameInputs(t.ch, t'.ch)
  {
    RuleToldOk(inc, FactsOf(incidents, inc), t, d, approved, reviewer, comment);
  }

  lemma RuleResumeOk(inc: string, t: Thread, incidents: map<string, IS.Incident>, d: Diagnosis,
                     approved: bool, reviewer: string, comment: string, api: Reply)
    requires Kept(inc, t, incidents, d)
    ensures var t' := ResumeStep(inc, t, incidents, approved, reviewer, comment, api).thread;
            Kept(inc, t', incidents, d) && SameInputs(t.ch, t'.ch)
  {
    var facts := FactsOf(incidents, inc);
    RuleToldOk(inc, facts, t, d, approved, reviewer, comment);
    RuleAnswerOk(inc, facts, Told(t, approved, reviewer, comment), d, approved, reviewer);
  }

  lemma RuleOtherOk(inc: string, t: Thread, incidents: map<string, IS.Incident>, d: Diagnosis,
                    b: Branch, answer: BranchAnswer)
    requires Kept(inc, t, incidents, d)
    ensures Kept(inc, StartStep(t).thread, incidents, d) && Kept(inc, Stop(t), incidents, d)
    ensures Kept(inc, BranchStep(t, b, answer).thread, incidents, d)
    ensures SameInputs(t.ch, StartStep(t).thread.ch) && SameInputs(t.ch, Stop(t).ch)
    ensures SameInputs(t.ch, BranchStep(t, b, answer).thread.ch)
  {
    RuleStartOk(inc, FactsOf(incidents, inc), t, d);
    RuleStopOk(t, d);
  }

  lemma RuleEffectKept(w: World, move: Move, d: Diagnosis)
    requires ThreadMove(move) && !move.Step? && Kept(move.inc, ThreadOf(w, move.inc), w.store.incidents, d)
    ensures var t' := EffectOf(w, move).thread;
            Kept(move.inc, t', w.store.incidents, d) && SameInputs(ThreadOf(w, move.inc).ch, t'.ch)
  {
    var (t, incidents) := (ThreadOf(w, move.inc), w.store.incidents);
    hide Kept, ResumeStep, DirectStep, BranchStep, Stop, StartStep;
    match move {
      case Resume(inc, approved, reviewer, comment, api, _) =>
        RuleResumeOk(inc, t, incidents, d, approved, reviewer, comment, api);
      case BranchMove(inc, b, answer) => RuleOtherOk(inc, t, incidents, d, b, answer);
      case DirectReview(inc, approved, reviewer, comment) =>
        RuleDirectOk(inc, t, incidents, d, approved, reviewer, comment);
      case StartRun(inc) => RuleOtherOk(inc, t, incidents, d, ChangeBranch, Items([]));
      case Abort(inc, _) => RuleOtherOk(inc, t, incidents, d, ChangeBranch, Items([]));
    }
  }

  /** The thread's own entry replaced; the incidents as before. */
  lemma RuleThreadReplaced(threads: map<string, Thread>, incidents: map<string, IS.Incident>, inc: string, t: Thread)
    requires RulesKept(threads, incidents) && RuleThreadOk(inc, t, incidents)
    ensures RulesKept(threads[inc := t], incidents)
  {
    var threads' := threads[inc := t];
    forall k: string ensures RuleThreadOk(k, Stored(threads', k), incidents) {
      assert RuleThreadOk(k, Stored(threads, k), incidents);
    }
  }

  lemma RuleStepReplaced(cfg: P.Config, threads: map<string, Thread>, inc: string, answer: Answer,
                         incidents: map<string, IS.Incident>, g: P.State)
    requires RulesKept(threads, incidents) && ThreadOk(cfg, inc, Stored(threads, inc), incidents, g) && P.Inv(cfg, g)
    requires RuleAnswer(Stored(threads, inc), answer)
    ensures RulesKept(threads[inc := NodeStep(inc, Stored(threads, inc), incidents, g.calls, answer).thread], incidents)
  {
    assert RuleThreadOk(inc, Stored(threads, inc), incidents);
    RuleStepOk(cfg, inc, Stored(threads, inc), answer, incidents, g);
    RuleThreadReplaced(threads, incidents, inc, NodeStep(inc, Stored(threads, inc), incidents, g.calls, answer).thread);
  }

  lemma RuleIdleReplaced(threads: map<string, Thread>, incidents: map<string, IS.Incident>, inc: string)
    requires RulesKept(threads, incidents)
    ensures RulesKept(threads[inc := Stored(threads, inc)], incidents)
  {
    assert RuleThreadOk(inc, Stored(threads, inc), incidents);
    RuleThreadReplaced(threads, incidents, inc, Stored(threads, inc));
  }

  lemma RuleOtherReplaced(w: World, move: Move)
    requires RuleInv(w) && ThreadMove(move) && !move.Step?
    ensures RulesKept(w.threads[move.inc := EffectOf(w, move).thread], w.store.incidents)
  {
    var (t, t') := (ThreadOf(w, move.inc), EffectOf(w, move).thread);
    assert RuleThreadOk(move.inc, Stored(w.threads, move.inc), w.store.incidents);
    RuleEffectKept(w, move, Diagnose(t.ch));
    SameDiagnosis(t.ch, t'.ch);
    RuleThreadReplaced(w.threads, w.store.incidents, move.inc, t');
  }

  // ------------------------------------------------------------ incidents that appear

  lemma {:induction false} NothingAskedYet(inc: string, f1: Facts, f2: Facts, trace: seq<Event>)
    requires SafeTrace(inc, trace) && Summarize(trace).analysis.None? && RuleTrace(inc, f1, trace)
    ensures RuleTrace(inc, f2, trace) && Summarize(trace).saved.None?
    decreases |trace|
  {
    if trace != [] { NothingAskedYet(inc, f1, f2, trace[..|trace| - 1]); }
  }

  lemma RuleFrame(cfg: P.Config, inc: string, t: Thread,
                  incidents: map<string, IS.Incident>, incidents': map<string, IS.Incident>, g: P.State)
    requires ThreadOk(cfg, inc, t, incidents, g) && RuleThreadOk(inc, t, incidents) && SameView(incidents, incidents', inc)
    ensures RuleThreadOk(inc, t, incidents')
  {
    if inc !in incidents {
      NothingAskedYet(inc, FactsOf(incidents, inc), FactsOf(incidents', inc), t.trace);
    }
  }

  predicate SameFacts(incidents: map<string, IS.Incident>, incidents': map<string, IS.Incident>, inc: string) {
    (inc in incidents <==> inc in incidents') && FactsOf(incidents', inc) == FactsOf(incidents, inc)
  }

  lemma SameFactsOk(inc: string, t: Thread, incidents: map<string, IS.Incident>, incidents': map<string, IS.Incident>)
    requires RuleThreadOk(inc, t, incidents) && SameFacts(incidents, incidents', inc)
    ensures RuleThreadOk(inc, t, incidents')
  {
  }

  lemma WritesKeepFacts(incidents: map<string, IS.Incident>, write: Option<IS.Op>, inc: string)
    ensures SameFacts(incidents, WriteIncidents(incidents, write), inc)
  {
  }

  lemma RuleWrites(threads: map<string, Thread>, incidents: map<string, IS.Incident>, write: Option<IS.Op>)
    requires RulesKept(threads, incidents)
    ensures RulesKept(threads, WriteIncidents(incidents, write))
  {
    var incidents' := WriteIncidents(incidents, write);
    forall k: string ensures RuleThreadOk(k, Stored(threads, k), incidents') {
      WritesKeepFacts(incidents, write, k);
      assert RuleThreadOk(k, Stored(threads, k), incidents);
      SameFactsOk(k, Stored(threads, k), incidents, incidents');
    }
  }

  lemma RuleApply(cfg: P.Config, w: World, inc: string, e: Effect, replies: seq<Reply>)
    requires RulesKept(w.threads[inc := e.thread], w.store.incidents) && Confined(inc, e)
    ensures RuleInv(ApplyEffect(cfg, w, inc, e, replies))
  {
    AuditKeeps(WriteStore(w.store, e.write), w.audit, inc, e.audits, replies);
    WriteShows(w.store, e.write);
    RuleWrites(w.threads[inc := e.thread], w.store.incidents, e.write);
  }

  lemma RuleAfterEffect(cfg: P.Config, w: World, move: Move)
    requires ThreadMove(move) && RulesKept(w.threads[move.inc := EffectOf(w, move).thread], w.store.incidents)
    ensures RuleInv(Next(cfg, w, move))
  {
    EffectConfined(w, move);
    RuleApply(cfg, w, move.inc, EffectOf(w, move), AuditReplies(move));
  }

  lemma RuleStepUpdates(cfg: P.Config, w: World, inc: string, answer: Answer)
    requires ThreadOk(cfg, inc, ThreadOf(w, inc), w.store.incidents, w.gateway) && P.Inv(cfg, w.gateway)
    requires RuleInv(w) && RuleAnswer(ThreadOf(w, inc), answer)
    ensures RulesKept(w.threads[inc := StepThread(w, inc, answer)], w.store.incidents)
  {
    if ThreadOf(w, inc).active {
      RuleStepReplaced(cfg, w.threads, inc, answer, w.store.incidents, w.gateway);
    } else {
      RuleIdleReplaced(w.threads, w.store.incidents, inc);
    }
  }

  /** The thread after a node's step. */
  function StepThread(w: World, inc: string, answer: Answer): Thread {
    var t := ThreadOf(w, inc);
    if t.active then NodeStep(inc, t, w.store.incidents, w.gateway.calls, answer).thread else t
  }

  lemma RuleAfterStep(cfg: P.Config, w: World, move: Move)
    requires move.Step? && RulesKept(w.threads[move.inc := StepThread(w, move.inc, move.answer)], w.store.incidents)
    ensures RuleInv(Next(cfg, w, move))
  {
    assert EffectOf(w, move).thread == StepThread(w, move.inc, move.answer);
    RuleAfterEffect(cfg, w, move);
  }

  lemma StepHypotheses(cfg: P.Config, w: World, move: Move)
    requires Inv(cfg, w) && move.Step?
    ensures ThreadOk(cfg, move.inc, ThreadOf(w, move.inc), w.store.incidents, w.gateway) && P.Inv(cfg, w.gateway)
  {
  }

  lemma RuleOtherMove(cfg: P.Config, w: World, move: Move)
    requires RuleInv(w) && ThreadMove(move) && !move.Step?
    ensures RuleInv(Next(cfg, w, move))
  {
    RuleOtherReplaced(w, move);
    RuleAfterEffect(cfg, w, move);
  }

  lemma RuleStoreMove(cfg: P.Config, w: World, store': IS.State)
    requires Inv(cfg, w) && RuleInv(w) && Issues(w.store, store')
    ensures RuleInv(w.(store := store'))
  {
    forall k: string ensures RuleThreadOk(k, Stored(w.threads, k), store'.incidents) {
      assert ThreadOk(cfg, k, ThreadOf(w, k), w.store.incidents, w.gateway);
      assert RuleThreadOk(k, Stored(w.threads, k), w.store.incidents) && SameView(w.store.incidents, store'.incidents, k);
      RuleFrame(cfg, k, ThreadOf(w, k), w.store.incidents, store'.incidents, w.gateway);
    }
  }

  lemma RuleServiceMove(cfg: P.Config, w: World, move: Move)
    requires Inv(cfg, w) && RuleInv(w) && !ThreadMove(move) && w.store.counter + 1 < T.TWO_TO_64
    ensures RuleInv(Next(cfg, w, move))
  {
    match move {
      case GatewayMove(m) =>
      case CreateIncident(nanos, req) =>
        CreateIssues(w.store, nanos, req);
        RuleStoreMove(cfg, w, HandleCreate(w.store, nanos, req));
    }
  }

  lemma RuleMove(cfg: P.Config, w: World, move: Move)
    requires Inv(cfg, w) && RuleInv(w) && FollowsRules(w, move) && w.store.counter + 1 < T.TWO_TO_64
    ensures RuleInv(Next(cfg, w, move))
  {
    if move.Step? {
      StepHypotheses(cfg, w, move);
      RuleStepUpdates(cfg, w, move.inc, move.answer);
      RuleAfterStep(cfg, w, move);
    } else if ThreadMove(move) {
      RuleOtherMove(cfg, w, move);
    } else {
      RuleServiceMove(cfg, w, move);
    }
  }

  lemma {:induction false} RuleHistory(cfg: P.Config, moves: seq<Move>)
    requires |moves| < T.TWO_TO_64 && RuleBased(cfg, moves)
    ensures RuleInv(Run(cfg, Origin, moves))
    decreases |moves|
  {
    if moves == [] {
      OriginFollowsRules();
    } else {
      var front := moves[..|moves| - 1];
      forall n | 0 <= n < |front| ensures FollowsRules(Run(cfg, Origin, front[..n]), front[n]) {
        assert front[..n] == moves[..n];
      }
      RuleHistory(cfg, front);
      HistoryInv(cfg, front);
      RuleMove(cfg, Run(cfg, Origin, front), moves[|moves| - 1]);
    }
  }

  lemma OriginFollowsRules()
    ensures RuleInv(Origin)
  {
    forall k: string ensures RuleThreadOk(k, ThreadOf(Origin, k), Origin.store.incidents) {
      assert ThreadOf(Origin, k) == NewThread;
    }
  }

  lemma RuleReachedInv(cfg: P.Config, w: World, moves: seq<Move>)
    requires RuleReachedBy(cfg, w, moves)
    ensures Inv(cfg, w) && RuleInv(w)
  {
    HistoryInv(cfg, moves);
    RuleHistory(cfg, moves);
  }
}
