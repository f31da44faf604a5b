/** What every reachable world of the orchestrator keeps, for every reasoner. */
module GraphInvariant {
  import opened Common
  import opened Models
  import opened Gateway
  import opened Planner
  import opened Graph
  import T = Text
  import R = Report
  import IS = IncidentStore
  import P = RollbackProtocol

  // ------------------------------------------------------------ reading a trace

  /** Who cleared the plan that is current in this run. */
  datatype Clearance = NotCleared | ByPolicy | ByHuman

  datatype HumanDecision = HumanDecision(granted: bool, decider: string)

  /** What a trace says about its latest run, and what it left in the store; the
      last decision at the interrupt outlives its run. `newest` is the review that
      the latest event recorded, if it was one. */
  datatype Summary = Summary(
    clearance: Clearance, saved: Option<ActionPlan>, shown: Option<Option<ActionPlan>>,
    planners: nat, critics: nat, verifies: nat, saves: nat, reviews: nat,
    analysis: Option<IS.Analysis>, report: Option<FinalReport>, review: Option<IS.Approval>,
    decision: Option<HumanDecision>, newest: Option<HumanDecision>,
    plan: Option<ActionPlan>, verdict: Option<VerificationResult>, reported: bool, pending: bool, playbooks: set<string>)

  const Nothing := Summary(NotCleared, None, None, 0, 0, 0, 0, 0, None, None, None, None, None, None, None, false, false, {})

  function Fold(s: Summary, e: Event): Summary {
    FoldStale(s.(newest := None), e)
  }

  /** Saving a plan or showing it again voids an earlier clearance. */
  function FoldStale(s: Summary, e: Event): Summary {
    match e
    case RunStarted =>
      Nothing.(analysis := s.analysis, report := s.report, review := s.review, decision := s.decision,
               plan := s.plan, verdict := s.verdict, reported := s.reported, playbooks := s.playbooks)
    case AnalysisSaved(evidence, hypotheses, action) =>
      s.(clearance := NotCleared, saved := action, shown := None, saves := s.saves + 1,
         analysis := Some(IS.Analysis(evidence, hypotheses, action)))
    case PolicyDecided(d) => s.(clearance := if d.Allow? then ByPolicy else NotCleared)
    case InterruptShown(action) => s.(clearance := NotCleared, shown := Some(action), pending := true)
    case GateDecided(granted, decider) =>
      s.(clearance := if granted then ByHuman else NotCleared, decision := Some(HumanDecision(granted, decider)),
         pending := false)
    case Reviewed(granted, decider, comment) =>
      s.(review := Some(IS.Approval(ReviewWord(granted), decider, comment)),
         newest := Some(HumanDecision(granted, decider)), reviews := s.reviews + 1)
    case RollbackRequested(req) => s.(playbooks := s.playbooks + {req.playbookKey})
    case VerdictGiven(result) => s.(verifies := s.verifies + 1, verdict := Some(result))
    case ReportSaved(report) => s.(report := Some(report))
    case Completed(node) =>
      match node
      case PlannerNode => s.(planners := s.planners + 1, plan := s.saved)
      case CriticNode => s.(critics := s.critics + 1)
      case ReportNode => s.(reported := true)
      case _ => s
  }

  function Summarize(trace: seq<Event>): Summary
    decreases |trace|
  {
    if trace == [] then Nothing
    else Fold(Summarize(trace[..|trace| - 1]), trace[|trace| - 1])
  }

  /** The request carries out exactly this plan for this incident. */
  predicate CarriesOut(inc: string, a: ActionPlan, req: RollbackRequest) {
    && req.incidentId == inc
    && req.targetService == a.targetService
    && req.currentRevision == a.currentRevision
    && req.targetRevision == a.targetRevision
    && req.idempotencyKey == inc + ":" + a.actionType + ":" + a.targetService
  }

  /** In whose name a request is made: the last to decide at the interrupt, in whatever run. */
  function Requester(s: Summary): string {
    if s.decision.Some? then s.decision.value.decider else "system"
  }

  /** What any reasoner's answer can become: a plan to roll back, or none. */
  predicate PlanAdmitted(hypotheses: seq<Hypothesis>, action: Option<ActionPlan>) {
    && hypotheses != [] && (forall h | h in hypotheses :: 0.0 <= h.confidence <= 1.0)
    && (action.Some? ==> action.value.actionType == "rollback" && action.value.riskLevel in {"medium", "high"})
  }

  predicate EventSafe(inc: string, s: Summary, e: Event) {
    match e
    case RollbackRequested(req) =>
      && Accepted(req) && !s.clearance.NotCleared?
      && s.saved.Some? && CarriesOut(inc, s.saved.value, req) && req.requestedBy == Requester(s)
      && (s.clearance.ByHuman? ==> s.shown == Some(s.saved))
    case AnalysisSaved(evidence, hypotheses, action) => Distinct(Ids(evidence)) && PlanAdmitted(hypotheses, action)
    case VerdictGiven(_) => s.verifies == 0
    case ReportSaved(_) => s.verifies == 1
    case GateDecided(granted, decider) => s.newest == Some(HumanDecision(granted, decider))
    case Completed(node) =>
      (node.PlannerNode? ==> s.planners <= 1) && (node.CriticNode? ==> s.critics <= 1)
    case _ => true
  }

  predicate SafeTrace(inc: string, trace: seq<Event>)
    decreases |trace|
  {
    trace == [] ||
    (SafeTrace(inc, trace[..|trace| - 1]) && EventSafe(inc, Summarize(trace[..|trace| - 1]), trace[|trace| - 1]))
  }

  lemma Snoc(inc: string, trace: seq<Event>, e: Event)
    ensures Summarize(trace + [e]) == Fold(Summarize(trace), e)
    ensures SafeTrace(inc, trace + [e]) <==> SafeTrace(inc, trace) && EventSafe(inc, Summarize(trace), e)
  {
    assert (trace + [e])[..|trace|] == trace;
  }

  // ------------------------------------------------------------ one thread

  predicate Fresh(s: Summary) {
    s.clearance.NotCleared? && s.planners == s.critics == s.verifies == 0
  }

  /** Past the critic: the plan in the state is the one saved last, and the critic
      still objects exactly when the replans are used up. */
  predicate PlanKept(ch: Channels, s: Summary) {
    && s.saved == ch.action && 1 <= s.planners <= 2 && s.critics == s.planners && ch.replanCount <= s.critics
    && ch.critic.Some? && (ch.critic.value.decision.RequestReplan? <==> ch.replanCount == 2)
  }

  /** Past the verification: the receipt carries the verdict's status. */
  predicate Verified(ch: Channels) {
    && ch.verification.Some?
    && (ch.receipt.Some? ==> ch.receipt.value.verificationStatus == ch.verification.value.status)
  }

  /** Approval and reviewer in the state are those of the last decision at the
      interrupt, in whatever run. */
  predicate ApprovalOk(ch: Channels, s: Summary) {
    match s.decision
    case None => ch.approval == "" && ch.reviewer.None?
    case Some(d) => ch.approval == (if d.granted then "approved" else "rejected") && ch.reviewer == Some(d.decider)
  }

  predicate Cleared(ch: Channels, s: Summary) {
    && PlanKept(ch, s) && s.verifies == 0 && ch.action.Some? && !s.clearance.NotCleared?
    && (s.clearance.ByHuman? ==> s.shown == Some(ch.action))
  }

  predicate Numbered(ch: Channels) {
    NumberedWith(ch.change, "chg") && NumberedWith(ch.log, "log") && NumberedWith(ch.dependency, "dep")
  }

  predicate BranchOk(b: Branch, pc: BranchPc) {
    pc.Gathered? ==> NumberedWith(pc.evidence, Prefix(b))
  }

  predicate PosOk(t: Thread, s: Summary) {
    match t.pos
    case NotStarted =>
      t.ch == NoValues && !t.active && s == Nothing.(review := s.review, newest := s.newest, reviews := s.reviews)
    case At(node) =>
      (match node
       case LoadIncident => Fresh(s) && t.ch.replanCount <= 2
       case Triage => Fresh(s) && t.ch.replanCount == 0
       case PlannerNode =>
         s.planners == s.critics == t.ch.replanCount && s.critics <= 1 && s.verifies == 0 && Numbered(t.ch)
       case CriticNode =>
         s.planners == s.critics + 1 && s.critics == t.ch.replanCount && s.critics <= 1 && s.verifies == 0 &&
         s.saved == t.ch.action && Numbered(t.ch)
       case PolicyNode => PlanKept(t.ch, s) && s.verifies == 0
       case GateNode => PlanKept(t.ch, s) && s.verifies == 0 && t.ch.action.Some?
       case RollbackNode => Cleared(t.ch, s)
       case VerifyNode => PlanKept(t.ch, s) && s.verifies == 0
       case ReportNode => PlanKept(t.ch, s) && s.verifies == 1 && Verified(t.ch))
    case Gathering(c, l, d) =>
      Fresh(s) && t.ch.replanCount == 0 &&
      BranchOk(ChangeBranch, c) && BranchOk(LogBranch, l) && BranchOk(DependencyBranch, d)
    case Interrupted =>
      !t.active && PlanKept(t.ch, s) && s.verifies == 0 && t.ch.action.Some? && s.shown == Some(t.ch.action)
    case AwaitRollback(_) => Cleared(t.ch, s)
    case AwaitVerify(_) => PlanKept(t.ch, s) && s.verifies == 0
    case Ended => !t.active && PlanKept(t.ch, s) && s.verifies == 1 && Verified(t.ch)
  }

  predicate Loaded(pos: Pos) {
    pos != NotStarted && pos != At(LoadIncident)
  }

  /** Once loaded, a run works on the stored incident. */
  predicate ViewOk(inc: string, t: Thread, incidents: map<string, IS.Incident>) {
    Loaded(t.pos) ==>
      && inc in incidents
      && t.ch.serviceName == incidents[inc].serviceName
      && t.ch.playbookKey == incidents[inc].playbookKey
      && t.ch.context == incidents[inc].context
  }

  /** The store shows the analysis, the report and the review that the trace
      recorded last. */
  predicate StoreShows(inc: string, s: Summary, incidents: map<string, IS.Incident>) {
    if inc in incidents then
      incidents[inc].analysis == s.analysis && incidents[inc].report == s.report && incidents[inc].approval == s.review
    else s.analysis.None? && s.report.None? && s.review.None?
  }

  /** Every analysis saved in a run completes a planner visit, but for one per
      review that let a stopped run go on, and one that stopped it. */
  predicate SavesOk(t: Thread, s: Summary) {
    s.saves <= s.planners + s.reviews + (if t.active then 0 else 1)
  }

  predicate CallsOk(inc: string, t: Thread, calls: seq<P.Call>) {
    match t.pos
    case AwaitRollback(n) =>
      n < |calls| && calls[n].Rollback? && t.ch.action.Some? && calls[n].req == RequestFor(inc, t.ch, t.ch.action.value)
    case AwaitVerify(n) => n < |calls| && calls[n].Verify? && calls[n].vreq.incidentId == inc
    case _ => true
  }

  /** What the channels say about the gateway is true: a receipt is stored there,
      and nothing is reported recovered without an executed rollback. */
  predicate ValuesOk(cfg: P.Config, inc: string, ch: Channels, rows: P.Table) {
    && (ch.receipt.Some? ==> P.Stores(rows, ch.receipt.value.idempotencyKey, ch.receipt.value))
    && (NothingRecoveredBefore(cfg.scenarios) && ch.verification.Some? && ch.verification.value.status == "recovered"
        ==> P.HasRow(rows, inc))
  }

  /** What a response is made from is what the trace recorded. */
  predicate Traced(t: Thread, s: Summary) {
    && t.ch.action == s.plan && t.ch.verification == s.verdict && (t.ch.report.Some? <==> s.reported)
    && (t.pos == Interrupted <==> s.pending)
  }

  /** Every request named the playbook of the stored incident. */
  predicate PlaybooksOk(inc: string, s: Summary, incidents: map<string, IS.Incident>) {
    if inc in incidents then s.playbooks <= {incidents[inc].playbookKey} else s.playbooks == {}
  }

  /** A thread in order, with `s` for what its trace says. */
  predicate Sound(cfg: P.Config, inc: string, t: Thread, s: Summary, incidents: map<string, IS.Incident>, g: P.State) {
    && PosOk(t, s)
    && SavesOk(t, s)
    && ApprovalOk(t.ch, s)
    && Traced(t, s)
    && PlaybooksOk(inc, s, incidents)
    && ViewOk(inc, t, incidents)
    && StoreShows(inc, s, incidents)
    && CallsOk(inc, t, g.calls)
    && ValuesOk(cfg, inc, t.ch, g.rows)
  }

  predicate ThreadOk(cfg: P.Config, inc: string, t: Thread, incidents: map<string, IS.Incident>, g: P.State) {
    SafeTrace(inc, t.trace) && Sound(cfg, inc, t, Summarize(t.trace), incidents, g)
  }

  // ------------------------------------------------------------ the gateway behind it

  predicate VerdictOk(cfg: P.Config, rows: P.Table, c: P.Call) {
    NothingRecoveredBefore(cfg.scenarios) &&
    c.Verify? && c.vpc.VerifyReturned? && c.vpc.verdict.Verdict? && c.vpc.verdict.result.status == "recovered"
    ==> P.HasRow(rows, c.vreq.incidentId)
  }

  predicate GatewayOk(cfg: P.Config, g: P.State) {
    P.Inv(cfg, g) && forall i | 0 <= i < |g.calls| :: VerdictOk(cfg, g.rows, g.calls[i])
  }

  predicate SameRequest(c: P.Call, c': P.Call) {
    (c.Rollback? ==> c'.Rollback? && c'.req == c.req) && (c.Verify? ==> c'.Verify? && c'.vreq == c.vreq)
  }

  /** Rows and calls are only added; calls keep their requests. */
  predicate GatewayGrows(g: P.State, g': P.State) {
    P.Extends(g.rows, g'.rows) && |g.calls| <= |g'.calls| &&
    forall i | 0 <= i < |g.calls| :: SameRequest(g.calls[i], g'.calls[i])
  }

  lemma HasRowStays(rows: P.Table, rows': P.Table, inc: string)
    requires P.Extends(rows, rows') && P.HasRow(rows, inc)
    ensures P.HasRow(rows', inc)
  {
    var k :| k in rows && rows[k].incidentId == inc;
    assert k in rows' && P.SameRow(rows[k], rows'[k]);
  }

  lemma RequestsStay(cfg: P.Config, g: P.State, m: P.Move)
    ensures |g.calls| <= |P.Next(cfg, g, m).calls|
    ensures forall i | 0 <= i < |g.calls| :: SameRequest(g.calls[i], P.Next(cfg, g, m).calls[i])
  {
  }

  lemma VerdictStays(cfg: P.Config, g: P.State, m: P.Move, i: nat)
    requires i < |P.Next(cfg, g, m).calls| && P.Extends(g.rows, P.Next(cfg, g, m).rows)
    requires i < |g.calls| ==> VerdictOk(cfg, g.rows, g.calls[i]) && P.CallOk(cfg, g.rows, g.calls[i])
    ensures VerdictOk(cfg, P.Next(cfg, g, m).rows, P.Next(cfg, g, m).calls[i])
  {
    if i < |g.calls| {
      if g.calls[i].Verify? && P.HasRow(g.rows, g.calls[i].vreq.incidentId) {
        HasRowStays(g.rows, P.Next(cfg, g, m).rows, g.calls[i].vreq.incidentId);
      } else if m.Step? && m.call == i {
        VerdictNeedsRow(cfg, g, i, m.reply, m.nanos);
      }
    }
  }

  lemma GatewayStep(cfg: P.Config, g: P.State, m: P.Move)
    requires GatewayOk(cfg, g)
    ensures GatewayOk(cfg, P.Next(cfg, g, m)) && GatewayGrows(g, P.Next(cfg, g, m))
  {
    P.StepOk(cfg, g, m);
    RequestsStay(cfg, g, m);
    forall i | 0 <= i < |P.Next(cfg, g, m).calls|
      ensures VerdictOk(cfg, P.Next(cfg, g, m).rows, P.Next(cfg, g, m).calls[i])
    {
      VerdictStays(cfg, g, m, i);
    }
  }

  lemma VerdictNeedsRow(cfg: P.Config, g: P.State, i: nat, reply: Reply, nanos: int)
    requires i < |g.calls| && VerdictOk(cfg, g.rows, g.calls[i]) && P.CallOk(cfg, g.rows, g.calls[i])
    requires P.Extends(g.rows, P.Next(cfg, g, P.Step(i, reply, nanos)).rows)
    ensures VerdictOk(cfg, P.Next(cfg, g, P.Step(i, reply, nanos)).rows, P.Next(cfg, g, P.Step(i, reply, nanos)).calls[i])
  {
    var c := g.calls[i];
    if c.Verify? && P.HasRow(g.rows, c.vreq.incidentId) {
      HasRowStays(g.rows, P.Next(cfg, g, P.Step(i, reply, nanos)).rows, c.vreq.incidentId);
    }
  }

  // ------------------------------------------------------------ one step of a thread

  function WriteIncidents(incidents: map<string, IS.Incident>, write: Option<IS.Op>): map<string, IS.Incident> {
    if write.None? || write.value.Create? || write.value.id !in incidents then incidents
    else
      var i := incidents[write.value.id];
      match write.value
      case SaveAnalysis(id, a) => incidents[id := IS.Analysed(i, a)]
      case SaveReport(id, report) => incidents[id := IS.Reported(i, report)]
      case Review(id, status, reviewer, comment) => incidents[id := IS.Reviewed(i, status, reviewer, comment)]
      case _ => incidents
  }

  predicate EffectOk(cfg: P.Config, inc: string, e: Effect, incidents: map<string, IS.Incident>, g: P.State) {
    ThreadOk(cfg, inc, e.thread, WriteIncidents(incidents, e.write), CallGateway(cfg, g, e.call))
  }

  lemma QuietOk(cfg: P.Config, inc: string, t: Thread, incidents: map<string, IS.Incident>, g: P.State)
    requires ThreadOk(cfg, inc, t, incidents, g)
    ensures EffectOk(cfg, inc, Quiet(t), incidents, g)
  {
  }

  /** A step that adds one safe event to the trace. */
  lemma Grown(cfg: P.Config, inc: string, t: Thread, e: Effect, event: Event,
              incidents: map<string, IS.Incident>, g: P.State)
    requires SafeTrace(inc, t.trace) && EventSafe(inc, Summarize(t.trace), event) && e.thread.trace == t.trace + [event]
    requires Sound(cfg, inc, e.thread, Fold(Summarize(t.trace), event),
                   WriteIncidents(incidents, e.write), CallGateway(cfg, g, e.call))
    ensures EffectOk(cfg, inc, e, incidents, g)
  {
    Snoc(inc, t.trace, event);
  }

  /** A step that adds two. */
  lemma GrownTwice(cfg: P.Config, inc: string, t: Thread, e: Effect, first: Event, second: Event,
                   incidents: map<string, IS.Incident>, g: P.State)
    requires SafeTrace(inc, t.trace) && e.thread.trace == t.trace + [first] + [second]
    requires EventSafe(inc, Summarize(t.trace), first) && EventSafe(inc, Fold(Summarize(t.trace), first), second)
    requires Sound(cfg, inc, e.thread, Fold(Fold(Summarize(t.trace), first), second),
                   WriteIncidents(incidents, e.write), CallGateway(cfg, g, e.call))
    ensures EffectOk(cfg, inc, e, incidents, g)
  {
    Snoc(inc, t.trace, first);
    Snoc(inc, t.trace + [first], second);
  }

  lemma StopOk(cfg: P.Config, inc: string, t: Thread, incidents: map<string, IS.Incident>, g: P.State)
    requires ThreadOk(cfg, inc, t, incidents, g) && t.pos != NotStarted
    ensures ThreadOk(cfg, inc, Stop(t), incidents, g)
  {
  }

  lemma StartSound(cfg: P.Config, inc: string, t: Thread, s: Summary, incidents: map<string, IS.Incident>, g: P.State)
    requires Sound(cfg, inc, t, s, incidents, g)
    ensures var e := StartStep(t);
            Sound(cfg, inc, e.thread, Fold(s, RunStarted), WriteIncidents(incidents, e.write), CallGateway(cfg, g, e.call))
  {
  }

  lemma StartOk(cfg: P.Config, inc: string, t: Thread, incidents: map<string, IS.Incident>, g: P.State)
    requires ThreadOk(cfg, inc, t, incidents, g)
    ensures EffectOk(cfg, inc, StartStep(t), incidents, g)
  {
    StartSound(cfg, inc, t, Summarize(t.trace), incidents, g);
    Grown(cfg, inc, t, StartStep(t), RunStarted, incidents, g);
  }

  lemma LoadOk(cfg: P.Config, inc: string, t: Thread, incidents: map<string, IS.Incident>, g: P.State)
    requires ThreadOk(cfg, inc, t, incidents, g) && t.pos == At(LoadIncident)
    ensures EffectOk(cfg, inc, LoadStep(inc, t, incidents), incidents, g)
  {
  }

  lemma BranchNextOk(b: Branch, pc: BranchPc, answer: BranchAnswer)
    requires BranchOk(b, pc)
    ensures BranchOk(b, BranchNext(b, pc, answer))
  {
  }

  lemma BranchStepOk(cfg: P.Config, inc: string, t: Thread, b: Branch, answer: BranchAnswer,
                     incidents: map<string, IS.Incident>, g: P.State)
    requires ThreadOk(cfg, inc, t, incidents, g)
    ensures EffectOk(cfg, inc, BranchStep(t, b, answer), incidents, g)
  {
    if t.pos.Gathering? {
      match b {
        case ChangeBranch => BranchNextOk(b, t.pos.change, answer);
        case LogBranch => BranchNextOk(b, t.pos.log, answer);
        case DependencyBranch => BranchNextOk(b, t.pos.dependency, answer);
      }
    }
  }

  lemma GatherOk(cfg: P.Config, inc: string, t: Thread, incidents: map<string, IS.Incident>, g: P.State)
    requires ThreadOk(cfg, inc, t, incidents, g) && t.pos.Gathering?
    ensures EffectOk(cfg, inc, JoinStep(t), incidents, g)
  {
  }

  lemma CompletedIsAdmitted(ch: Channels, decision: PlannerDecision)
    requires SchemaAdmits(decision)
    ensures var plan := PlanOf(ch, decision); PlanAdmitted(plan.hypotheses, plan.action)
  {
    var d := PlanDiagnosis(ch.serviceName, Release(ch), Previous(ch), ch.change, ch.log, ch.dependency);
    DiagnosisIsAdmitted(ch.serviceName, Release(ch), Previous(ch), ch.change, ch.log, ch.dependency);
    CompletionKeepsTheDecision(decision, ch.serviceName, Release(ch), Previous(ch), ch.change, ch.log, ch.dependency);
    hide PlanDiagnosis, CompletePlan;
    CompletionIsAdmitted(decision, d, PlanOf(ch, decision).hypotheses, PlanOf(ch, decision).action);
  }

  lemma CompletionIsAdmitted(decision: PlannerDecision, rules: Diagnosis, hypotheses: seq<Hypothesis>, action: Option<ActionPlan>)
    requires SchemaAdmits(decision) && PlanAdmitted(rules.hypotheses, rules.action)
    requires Completes(decision, rules, hypotheses, action)
    ensures PlanAdmitted(hypotheses, action)
  {
    if decision.hypotheses != [] {
      forall i | 0 <= i < |hypotheses| ensures 0.0 <= hypotheses[i].confidence <= 1.0 {
        assert decision.hypotheses[i] in decision.hypotheses;
      }
    }
  }

  lemma DiagnosisIsAdmitted(service: string, release: string, previous: string,
                            change: seq<Evidence>, log: seq<Evidence>, dependency: seq<Evidence>)
    ensures var d := PlanDiagnosis(service, release, previous, change, log, dependency);
            PlanAdmitted(d.hypotheses, d.action)
  {
  }

  function SavedEvent(t: Thread, plan: Plan): Event {
    AnalysisSaved(Evidences(t.ch), plan.hypotheses, plan.action)
  }

  lemma SaveSound(cfg: P.Config, inc: string, t: Thread, s: Summary, plan: Plan, save: Reply,
                  incidents: map<string, IS.Incident>, g: P.State)
    requires Sound(cfg, inc, t, s, incidents, g) && t.active && t.pos == At(PlannerNode)
    ensures var e := SaveStep(inc, t, plan, save);
            var saved := Fold(s, SavedEvent(t, plan));
            Sound(cfg, inc, e.thread,
                  match save case Refused => s case Lost => saved case Acknowledged => Fold(saved, Completed(PlannerNode)),
                  WriteIncidents(incidents, e.write), CallGateway(cfg, g, e.call))
  {
  }

  lemma SaveOk(cfg: P.Config, inc: string, t: Thread, plan: Plan, save: Reply,
               incidents: map<string, IS.Incident>, g: P.State)
    requires ThreadOk(cfg, inc, t, incidents, g) && t.active && t.pos == At(PlannerNode)
    requires PlanAdmitted(plan.hypotheses, plan.action)
    ensures EffectOk(cfg, inc, SaveStep(inc, t, plan, save), incidents, g)
  {
    var e := SaveStep(inc, t, plan, save);
    SaveSound(cfg, inc, t, Summarize(t.trace), plan, save, incidents, g);
    EvidenceIdsDistinct(t.ch.change, t.ch.log, t.ch.dependency);
    match save {
      case Refused =>
      case Lost => Grown(cfg, inc, t, e, SavedEvent(t, plan), incidents, g);
      case Acknowledged => GrownTwice(cfg, inc, t, e, SavedEvent(t, plan), Completed(PlannerNode), incidents, g);
    }
  }

  lemma CriticSound(cfg: P.Config, inc: string, t: Thread, s: Summary, verdict: CriticVerdict,
                    incidents: map<string, IS.Incident>, g: P.State)
    requires Sound(cfg, inc, t, s, incidents, g) && t.pos == At(CriticNode)
    ensures var e := CriticStep(t, verdict);
            Sound(cfg, inc, e.thread, Fold(s, Completed(CriticNode)),
                  WriteIncidents(incidents, e.write), CallGateway(cfg, g, e.call))
  {
  }

  lemma CriticOk(cfg: P.Config, inc: string, t: Thread, verdict: CriticVerdict,
                 incidents: map<string, IS.Incident>, g: P.State)
    requires ThreadOk(cfg, inc, t, incidents, g) && t.pos == At(CriticNode)
    ensures EffectOk(cfg, inc, CriticStep(t, verdict), incidents, g)
  {
    CriticSound(cfg, inc, t, Summarize(t.trace), verdict, incidents, g);
    Grown(cfg, inc, t, CriticStep(t, verdict), Completed(CriticNode), incidents, g);
  }

  lemma PolicySound(cfg: P.Config, inc: string, t: Thread, s: Summary, policy: PolicyDecision,
                    incidents: map<string, IS.Incident>, g: P.State)
    requires Sound(cfg, inc, t, s, incidents, g) && t.pos == At(PolicyNode)
    ensures var e := PolicyStep(t, policy);
            Sound(cfg, inc, e.thread, Fold(s, PolicyDecided(policy)),
                  WriteIncidents(incidents, e.write), CallGateway(cfg, g, e.call))
  {
  }

  lemma PolicyOk(cfg: P.Config, inc: string, t: Thread, policy: PolicyDecision,
                 incidents: map<string, IS.Incident>, g: P.State)
    requires ThreadOk(cfg, inc, t, incidents, g) && t.pos == At(PolicyNode)
    ensures EffectOk(cfg, inc, PolicyStep(t, policy), incidents, g)
  {
    PolicySound(cfg, inc, t, Summarize(t.trace), policy, incidents, g);
    Grown(cfg, inc, t, PolicyStep(t, policy), PolicyDecided(policy), incidents, g);
  }

  lemma GateSound(cfg: P.Config, inc: string, t: Thread, s: Summary, incidents: map<string, IS.Incident>, g: P.State)
    requires Sound(cfg, inc, t, s, incidents, g) && t.pos == At(GateNode)
    ensures var e := GateStep(t);
            Sound(cfg, inc, e.thread, Fold(s, InterruptShown(t.ch.action)),
                  WriteIncidents(incidents, e.write), CallGateway(cfg, g, e.call))
  {
  }

  lemma GateOk(cfg: P.Config, inc: string, t: Thread, incidents: map<string, IS.Incident>, g: P.State)
    requires ThreadOk(cfg, inc, t, incidents, g) && t.pos == At(GateNode)
    ensures EffectOk(cfg, inc, GateStep(t), incidents, g)
  {
    GateSound(cfg, inc, t, Summarize(t.trace), incidents, g);
    Grown(cfg, inc, t, GateStep(t), InterruptShown(t.ch.action), incidents, g);
  }

  lemma ToldSound(cfg: P.Config, inc: string, t: Thread, s: Summary, approved: bool, reviewer: string, comment: string,
                  incidents: map<string, IS.Incident>, g: P.State)
    requires Sound(cfg, inc, t, s, incidents, g) && inc in incidents
    ensures Sound(cfg, inc, Told(t, approved, reviewer, comment), Fold(s, Reviewed(approved, reviewer, comment)),
                  WriteIncidents(incidents, Some(ReviewOp(inc, approved, reviewer, comment))), g)
  {
  }

  lemma AnswerSound(cfg: P.Config, inc: string, t: Thread, s: Summary, approved: bool, reviewer: string,
                    incidents: map<string, IS.Incident>, g: P.State)
    requires Sound(cfg, inc, t, s, incidents, g)
    requires s.saves <= s.planners + s.reviews
    ensures Sound(cfg, inc, ResumeThread(t, approved, reviewer),
                  if t.pos == Interrupted then Fold(s, GateDecided(approved, reviewer)) else s, incidents, g)
  {
  }

  lemma DirectOk(cfg: P.Config, inc: string, t: Thread, approved: bool, reviewer: string, comment: string,
                 incidents: map<string, IS.Incident>, g: P.State)
    requires ThreadOk(cfg, inc, t, incidents, g)
    ensures EffectOk(cfg, inc, DirectStep(inc, t, incidents, approved, reviewer, comment), incidents, g)
  {
    var e := DirectStep(inc, t, incidents, approved, reviewer, comment);
    if !ReviewAdmitted(reviewer) || inc !in incidents {
      QuietOk(cfg, inc, t, incidents, g);
    } else {
      ToldSound(cfg, inc, t, Summarize(t.trace), approved, reviewer, comment, incidents, g);
      Grown(cfg, inc, t, e, Reviewed(approved, reviewer, comment), incidents, g);
    }
  }

  lemma ResumeSound(cfg: P.Config, inc: string, t: Thread, s: Summary, approved: bool, reviewer: string, comment: string,
                    incidents: map<string, IS.Incident>, g: P.State)
    requires Sound(cfg, inc, t, s, incidents, g) && inc in incidents
    ensures var told := Fold(s, Reviewed(approved, reviewer, comment));
            Sound(cfg, inc, ResumeThread(Told(t, approved, reviewer, comment), approved, reviewer),
                  if t.pos == Interrupted then Fold(told, GateDecided(approved, reviewer)) else told,
                  WriteIncidents(incidents, Some(ReviewOp(inc, approved, reviewer, comment))), g)
  {
    var told := Fold(s, Reviewed(approved, reviewer, comment));
    var incidents' := WriteIncidents(incidents, Some(ReviewOp(inc, approved, reviewer, comment)));
    ToldSound(cfg, inc, t, s, approved, reviewer, comment, incidents, g);
    AnswerSound(cfg, inc, Told(t, approved, reviewer, comment), told, approved, reviewer, incidents', g);
  }

  lemma ResumeOk(cfg: P.Config, inc: string, t: Thread, approved: bool, reviewer: string, comment: string, api: Reply,
                 incidents: map<string, IS.Incident>, g: P.State)
    requires ThreadOk(cfg, inc, t, incidents, g)
    ensures EffectOk(cfg, inc, ResumeStep(inc, t, incidents, approved, reviewer, comment, api), incidents, g)
  {
    var e := ResumeStep(inc, t, incidents, approved, reviewer, comment, api);
    var s := Summarize(t.trace);
    if e.write.None? {
      assert e == Quiet(t);
      QuietOk(cfg, inc, t, incidents, g);
    } else if api.Lost? {
      ToldSound(cfg, inc, t, s, approved, reviewer, comment, incidents, g);
      Grown(cfg, inc, t, e, Reviewed(approved, reviewer, comment), incidents, g);
    } else {
      ResumeSound(cfg, inc, t, s, approved, reviewer, comment, incidents, g);
      if t.pos == Interrupted {
        GrownTwice(cfg, inc, t, e, Reviewed(approved, reviewer, comment), GateDecided(approved, reviewer), incidents, g);
      } else {
        Grown(cfg, inc, t, e, Reviewed(approved, reviewer, comment), incidents, g);
      }
    }
  }

  lemma RequestSound(cfg: P.Config, inc: string, t: Thread, s: Summary, incidents: map<string, IS.Incident>, g: P.State)
    requires Sound(cfg, inc, t, s, incidents, g) && t.pos == At(RollbackNode)
    ensures var e := RollbackBegin(inc, t, |g.calls|);
            var req := RequestFor(inc, t.ch, t.ch.action.value);
            (Accepted(req) ==> EventSafe(inc, s, RollbackRequested(req))) &&
            Sound(cfg, inc, e.thread, if Accepted(req) then Fold(s, RollbackRequested(req)) else s,
                  WriteIncidents(incidents, e.write), CallGateway(cfg, g, e.call))
  {
  }

  lemma RollbackBeginOk(cfg: P.Config, inc: string, t: Thread, incidents: map<string, IS.Incident>, g: P.State)
    requires ThreadOk(cfg, inc, t, incidents, g) && t.pos == At(RollbackNode)
    ensures EffectOk(cfg, inc, RollbackBegin(inc, t, |g.calls|), incidents, g)
  {
    RequestSound(cfg, inc, t, Summarize(t.trace), incidents, g);
    var req := RequestFor(inc, t.ch, t.ch.action.value);
    if Accepted(req) {
      Grown(cfg, inc, t, RollbackBegin(inc, t, |g.calls|), RollbackRequested(req), incidents, g);
    }
  }

  lemma ReceiptSound(cfg: P.Config, inc: string, t: Thread, s: Summary, r: ActionReceipt,
                     incidents: map<string, IS.Incident>, g: P.State)
    requires Sound(cfg, inc, t, s, incidents, g) && t.pos.AwaitRollback?
    requires P.Stores(g.rows, r.idempotencyKey, r)
    ensures var e := Quiet(WithReceipt(t, r));
            Sound(cfg, inc, e.thread, Fold(s, Completed(RollbackNode)),
                  WriteIncidents(incidents, e.write), CallGateway(cfg, g, e.call))
  {
  }

  lemma ReceiptOk(cfg: P.Config, inc: string, t: Thread, r: ActionReceipt,
                  incidents: map<string, IS.Incident>, g: P.State)
    requires ThreadOk(cfg, inc, t, incidents, g) && t.pos.AwaitRollback?
    requires P.Stores(g.rows, r.idempotencyKey, r)
    ensures EffectOk(cfg, inc, Quiet(WithReceipt(t, r)), incidents, g)
  {
    ReceiptSound(cfg, inc, t, Summarize(t.trace), r, incidents, g);
    Grown(cfg, inc, t, Quiet(WithReceipt(t, r)), Completed(RollbackNode), incidents, g);
  }

  lemma SuccessIsStored(cfg: P.Config, g: P.State, n: nat)
    requires P.Inv(cfg, g) && n < |g.calls| && g.calls[n].Rollback? && g.calls[n].pc.Returned?
    requires g.calls[n].pc.outcome.Succeeded()
    ensures var r := g.calls[n].pc.outcome.receipt; P.Stores(g.rows, r.idempotencyKey, r)
  {
    assert P.CallOk(cfg, g.rows, g.calls[n]);
  }

  lemma RaiseOk(cfg: P.Config, inc: string, t: Thread, incidents: map<string, IS.Incident>, g: P.State)
    requires ThreadOk(cfg, inc, t, incidents, g) && t.pos != NotStarted
    ensures EffectOk(cfg, inc, Quiet(Stop(t)), incidents, g)
  {
    StopOk(cfg, inc, t, incidents, g);
    QuietOk(cfg, inc, Stop(t), incidents, g);
  }

  lemma RollbackEndOk(cfg: P.Config, inc: string, t: Thread, n: nat, incidents: map<string, IS.Incident>, g: P.State)
    requires ThreadOk(cfg, inc, t, incidents, g) && GatewayOk(cfg, g) && t.pos == AwaitRollback(n)
    ensures EffectOk(cfg, inc, RollbackEnd(t, g.calls[n]), incidents, g)
  {
    var c := g.calls[n];
    if !c.pc.Returned? {
      QuietOk(cfg, inc, t, incidents, g);
    } else if c.pc.outcome.Succeeded() {
      SuccessIsStored(cfg, g, n);
      ReceiptOk(cfg, inc, t, c.pc.outcome.receipt, incidents, g);
    } else {
      RaiseOk(cfg, inc, t, incidents, g);
    }
  }

  lemma VerifyBeginOk(cfg: P.Config, inc: string, t: Thread, incidents: map<string, IS.Incident>, g: P.State)
    requires ThreadOk(cfg, inc, t, incidents, g) && GatewayOk(cfg, g) && t.pos == At(VerifyNode)
    ensures EffectOk(cfg, inc, VerifyBegin(inc, t, |g.calls|), incidents, g)
  {
    if VerifyAccepted(inc, t.ch) {
      GatewayStep(cfg, g, P.BeginVerify(VerifyRequest(inc, t.ch.playbookKey)));
    } else {
      RaiseOk(cfg, inc, t, incidents, g);
    }
  }

  lemma VerdictSound(cfg: P.Config, inc: string, t: Thread, s: Summary, result: VerificationResult,
                     incidents: map<string, IS.Incident>, g: P.State)
    requires Sound(cfg, inc, t, s, incidents, g) && t.pos.AwaitVerify?
    requires NothingRecoveredBefore(cfg.scenarios) && result.status == "recovered" ==> P.HasRow(g.rows, inc)
    ensures var e := Quiet(WithVerdict(t, result));
            Sound(cfg, inc, e.thread, Fold(s, VerdictGiven(result)),
                  WriteIncidents(incidents, e.write), CallGateway(cfg, g, e.call))
  {
  }

  lemma WithVerdictOk(cfg: P.Config, inc: string, t: Thread, result: VerificationResult,
                      incidents: map<string, IS.Incident>, g: P.State)
    requires ThreadOk(cfg, inc, t, incidents, g) && t.pos.AwaitVerify?
    requires NothingRecoveredBefore(cfg.scenarios) && result.status == "recovered" ==> P.HasRow(g.rows, inc)
    ensures EffectOk(cfg, inc, Quiet(WithVerdict(t, result)), incidents, g)
  {
    VerdictSound(cfg, inc, t, Summarize(t.trace), result, incidents, g);
    Grown(cfg, inc, t, Quiet(WithVerdict(t, result)), VerdictGiven(result), incidents, g);
  }

  lemma VerifyEndOk(cfg: P.Config, inc: string, t: Thread, n: nat, incidents: map<string, IS.Incident>, g: P.State)
    requires ThreadOk(cfg, inc, t, incidents, g) && GatewayOk(cfg, g) && t.pos == AwaitVerify(n)
    ensures EffectOk(cfg, inc, VerifyEnd(t, g.calls[n]), incidents, g)
  {
    var c := g.calls[n];
    if !c.vpc.VerifyReturned? {
      QuietOk(cfg, inc, t, incidents, g);
    } else if c.vpc.verdict.Verdict? {
      assert VerdictOk(cfg, g.rows, c);
      WithVerdictOk(cfg, inc, t, c.vpc.verdict.result, incidents, g);
    } else {
      RaiseOk(cfg, inc, t, incidents, g);
    }
  }

  lemma FinishSound(cfg: P.Config, inc: string, t: Thread, s: Summary, final: FinalReport, save: Reply,
                    incidents: map<string, IS.Incident>, g: P.State)
    requires Sound(cfg, inc, t, s, incidents, g) && t.pos == At(ReportNode)
    ensures var e := FinishStep(inc, t, final, save);
            var saved := Fold(s, ReportSaved(final));
            Sound(cfg, inc, e.thread,
                  match save case Refused => s case Lost => saved case Acknowledged => Fold(saved, Completed(ReportNode)),
                  WriteIncidents(incidents, e.write), CallGateway(cfg, g, e.call))
  {
  }

  lemma FinishOk(cfg: P.Config, inc: string, t: Thread, final: FinalReport, save: Reply,
                 incidents: map<string, IS.Incident>, g: P.State)
    requires ThreadOk(cfg, inc, t, incidents, g) && t.pos == At(ReportNode)
    ensures EffectOk(cfg, inc, FinishStep(inc, t, final, save), incidents, g)
  {
    var e := FinishStep(inc, t, final, save);
    FinishSound(cfg, inc, t, Summarize(t.trace), final, save, incidents, g);
    match save {
      case Refused =>
      case Lost => Grown(cfg, inc, t, e, ReportSaved(final), incidents, g);
      case Acknowledged => GrownTwice(cfg, inc, t, e, ReportSaved(final), Completed(ReportNode), incidents, g);
    }
  }

  lemma GatewayNodeOk(cfg: P.Config, inc: string, t: Thread, answer: Answer,
                      incidents: map<string, IS.Incident>, g: P.State)
    requires ThreadOk(cfg, inc, t, incidents, g) && GatewayOk(cfg, g)
    requires t.pos in {At(RollbackNode), At(VerifyNode)} || t.pos.AwaitRollback? || t.pos.AwaitVerify?
    ensures EffectOk(cfg, inc, NodeStep(inc, t, incidents, g.calls, answer), incidents, g)
  {
    var e := NodeStep(inc, t, incidents, g.calls, answer);
    if !answer.Go? {
      assert e == Quiet(t);
      QuietOk(cfg, inc, t, incidents, g);
    } else if t.pos.AwaitRollback? {
      assert e == RollbackEnd(t, g.calls[t.pos.call]);
      RollbackEndOk(cfg, inc, t, t.pos.call, incidents, g);
    } else if t.pos.AwaitVerify? {
      assert e == VerifyEnd(t, g.calls[t.pos.call]);
      VerifyEndOk(cfg, inc, t, t.pos.call, incidents, g);
    } else if t.pos == At(RollbackNode) {
      assert e == RollbackBegin(inc, t, |g.calls|);
      RollbackBeginOk(cfg, inc, t, incidents, g);
    } else {
      assert e == VerifyBegin(inc, t, |g.calls|);
      VerifyBeginOk(cfg, inc, t, incidents, g);
    }
  }

  lemma FailedAgentOk(cfg: P.Config, inc: string, t: Thread, audits: seq<IS.Body>,
                      incidents: map<string, IS.Incident>, g: P.State)
    requires ThreadOk(cfg, inc, t, incidents, g) && t.pos != NotStarted
    ensures EffectOk(cfg, inc, Effect(Stop(t), None, None, audits), incidents, g)
  {
    RaiseOk(cfg, inc, t, incidents, g);
  }

  lemma PlannerNodeOk(cfg: P.Config, inc: string, t: Thread, answer: Answer, incidents: map<string, IS.Incident>, g: P.State)
    requires ThreadOk(cfg, inc, t, incidents, g) && t.active && t.pos == At(PlannerNode)
    ensures EffectOk(cfg, inc, NodeStep(inc, t, incidents, g.calls, answer), incidents, g)
  {
    hide ThreadOk, EffectOk, PlanAdmitted, SaveStep, SchemaAdmits, PlanOf;
    if !answer.Planned? {
      QuietOk(cfg, inc, t, incidents, g);
    } else if SchemaAdmits(answer.decision) {
      CompletedIsAdmitted(t.ch, answer.decision);
      SaveOk(cfg, inc, t, PlanOf(t.ch, answer.decision), answer.save, incidents, g);
    } else {
      FailedAgentOk(cfg, inc, t, FailureAudits("planner_agent"), incidents, g);
    }
  }

  lemma EarlyNodeOk(cfg: P.Config, inc: string, t: Thread, answer: Answer, incidents: map<string, IS.Incident>, g: P.State)
    requires ThreadOk(cfg, inc, t, incidents, g)
    requires t.pos in {At(LoadIncident), At(Triage)} || t.pos.Gathering?
    ensures EffectOk(cfg, inc, NodeStep(inc, t, incidents, g.calls, answer), incidents, g)
  {
    QuietOk(cfg, inc, t, incidents, g);
    if t.pos == At(LoadIncident) {
      LoadOk(cfg, inc, t, incidents, g);
    } else if t.pos.Gathering? {
      GatherOk(cfg, inc, t, incidents, g);
    }
  }

  lemma LateNodeOk(cfg: P.Config, inc: string, t: Thread, answer: Answer, incidents: map<string, IS.Incident>, g: P.State)
    requires ThreadOk(cfg, inc, t, incidents, g)
    requires t.pos in {At(CriticNode), At(PolicyNode), At(GateNode), At(ReportNode)}
    ensures EffectOk(cfg, inc, NodeStep(inc, t, incidents, g.calls, answer), incidents, g)
  {
    QuietOk(cfg, inc, t, incidents, g);
    match t.pos {
      case At(CriticNode) => if answer.Critiqued? { CriticOk(cfg, inc, t, answer.verdict, incidents, g); }
      case At(PolicyNode) => if answer.Decided? { PolicyOk(cfg, inc, t, answer.policy, incidents, g); }
      case At(GateNode) => GateOk(cfg, inc, t, incidents, g);
      case At(ReportNode) =>
        if answer.Reported? {
          FinishOk(cfg, inc, t, R.FinishReport(answer.report, t.ch.verification, t.ch.receipt),
                   answer.saveReport, incidents, g);
        }
    }
  }

  lemma NodeOk(cfg: P.Config, inc: string, t: Thread, answer: Answer, incidents: map<string, IS.Incident>, g: P.State)
    requires ThreadOk(cfg, inc, t, incidents, g) && GatewayOk(cfg, g) && t.active
    ensures EffectOk(cfg, inc, NodeStep(inc, t, incidents, g.calls, answer), incidents, g)
  {
    match t.pos {
      case At(node) =>
        if node.RollbackNode? || node.VerifyNode? {
          GatewayNodeOk(cfg, inc, t, answer, incidents, g);
        } else if node.PlannerNode? {
          PlannerNodeOk(cfg, inc, t, answer, incidents, g);
        } else if node.LoadIncident? || node.Triage? {
          EarlyNodeOk(cfg, inc, t, answer, incidents, g);
        } else {
          LateNodeOk(cfg, inc, t, answer, incidents, g);
        }
      case Gathering(_, _, _) => EarlyNodeOk(cfg, inc, t, answer, incidents, g);
      case AwaitRollback(_) => GatewayNodeOk(cfg, inc, t, answer, incidents, g);
      case AwaitVerify(_) => GatewayNodeOk(cfg, inc, t, answer, incidents, g);
      case NotStarted => QuietOk(cfg, inc, t, incidents, g);
      case Interrupted => QuietOk(cfg, inc, t, incidents, g);
      case Ended => QuietOk(cfg, inc, t, incidents, g);
    }
  }

  // ------------------------------------------------------------ the world

  predicate Asks(trace: seq<Event>, req: RollbackRequest) {
    exists n | 0 <= n < |trace| :: trace[n] == RollbackRequested(req)
  }

  /** Every rollback call at the gateway was asked for in its incident's trace. */
  predicate CallsAsked(threads: map<string, Thread>, calls: seq<P.Call>) {
    forall i | 0 <= i < |calls| && calls[i].Rollback? ::
      calls[i].req.incidentId in threads && Asks(threads[calls[i].req.incidentId].trace, calls[i].req)
  }

  ghost predicate ThreadsOk(cfg: P.Config, w: World) {
    forall inc: string :: ThreadOk(cfg, inc, ThreadOf(w, inc), w.store.incidents, w.gateway)
  }

  ghost predicate Inv(cfg: P.Config, w: World) {
    GatewayOk(cfg, w.gateway) && IS.IdsIssued(w.store) && CallsAsked(w.threads, w.gateway.calls) && ThreadsOk(cfg, w)
  }

  /** The incident is as before, or appears now without analysis, report and review. */
  predicate SameView(incidents: map<string, IS.Incident>, incidents': map<string, IS.Incident>, inc: string) {
    if inc in incidents then inc in incidents' && incidents'[inc] == incidents[inc]
    else inc in incidents' ==>
      incidents'[inc].analysis.None? && incidents'[inc].report.None? && incidents'[inc].approval.None?
  }

  lemma StoresStays(rows: P.Table, rows': P.Table, r: ActionReceipt)
    requires P.Extends(rows, rows') && P.Stores(rows, r.idempotencyKey, r)
    ensures P.Stores(rows', r.idempotencyKey, r)
  {
    assert P.SameRow(rows[r.idempotencyKey], rows'[r.idempotencyKey]);
  }

  lemma ValuesStay(cfg: P.Config, inc: string, ch: Channels, rows: P.Table, rows': P.Table)
    requires ValuesOk(cfg, inc, ch, rows) && P.Extends(rows, rows')
    ensures ValuesOk(cfg, inc, ch, rows')
  {
    if ch.receipt.Some? { StoresStays(rows, rows', ch.receipt.value); }
    if P.HasRow(rows, inc) { HasRowStays(rows, rows', inc); }
  }

  /** What others do leaves a thread in order. */
  lemma ThreadFrame(cfg: P.Config, inc: string, t: Thread,
                    incidents: map<string, IS.Incident>, incidents': map<string, IS.Incident>, g: P.State, g': P.State)
    requires ThreadOk(cfg, inc, t, incidents, g) && SameView(incidents, incidents', inc) && GatewayGrows(g, g')
    ensures ThreadOk(cfg, inc, t, incidents', g')
  {
    ValuesStay(cfg, inc, t.ch, g.rows, g'.rows);
    CallsStay(inc, t, g, g');
  }

  lemma CallsStay(inc: string, t: Thread, g: P.State, g': P.State)
    requires CallsOk(inc, t, g.calls) && GatewayGrows(g, g')
    ensures CallsOk(inc, t, g'.calls)
  {
    match t.pos {
      case AwaitRollback(n) => assert SameRequest(g.calls[n], g'.calls[n]);
      case AwaitVerify(n) => assert SameRequest(g.calls[n], g'.calls[n]);
      case _ =>
    }
  }

  lemma GatewaySame(g: P.State)
    ensures GatewayGrows(g, g)
  {
  }

  // ------------------------------------------------------------ audit writes touch no incident

  lemma {:induction false} AuditKeeps(store: IS.State, audit: Audit, inc: string, bodies: seq<IS.Body>, replies: seq<Reply>)
    ensures var store' := AuditAll(store, audit, inc, bodies, replies).0;
            store'.incidents == store.incidents && store'.counter == store.counter
    decreases |bodies|
  {
    if bodies != [] {
      var reply := if replies == [] then Acknowledged else replies[0];
      var (store', audit') := AuditOne(store, audit, inc, bodies[0], reply);
      AuditKeeps(store', audit', inc, bodies[1..], if replies == [] then [] else replies[1..]);
    }
  }

  lemma WriteShows(store: IS.State, write: Option<IS.Op>)
    requires write.Some? ==> !write.value.Create?
    ensures WriteStore(store, write).incidents == WriteIncidents(store.incidents, write)
    ensures WriteStore(store, write).counter == store.counter
    ensures WriteStore(store, write).incidents.Keys == store.incidents.Keys
  {
  }

  /** What an effect may do besides moving its thread. */
  predicate Confined(inc: string, e: Effect) {
    && (e.write.Some? ==> !e.write.value.Create? && e.write.value.id == inc)
    && (e.call.Some? ==>
          || e.call.value.BeginVerify?
          || (e.call.value.BeginRollback? && e.call.value.req.incidentId == inc && Asks(e.thread.trace, e.call.value.req)))
  }

  lemma RollbackConfined(inc: string, t: Thread, calls: nat)
    ensures var e := RollbackBegin(inc, t, calls); Confined(inc, e) && t.trace <= e.thread.trace
  {
    if t.ch.action.Some? {
      var req := RequestFor(inc, t.ch, t.ch.action.value);
      assert (t.trace + [RollbackRequested(req)])[|t.trace|] == RollbackRequested(req);
    }
  }

  lemma SaveConfined(inc: string, t: Thread, plan: Plan, save: Reply)
    ensures var e := SaveStep(inc, t, plan, save); Confined(inc, e) && t.trace <= e.thread.trace
  {
  }

  lemma FinishConfined(inc: string, t: Thread, final: FinalReport, save: Reply)
    ensures var e := FinishStep(inc, t, final, save); Confined(inc, e) && t.trace <= e.thread.trace
  {
  }

  lemma GatewayConfined(inc: string, t: Thread, answer: Answer, incidents: map<string, IS.Incident>, calls: seq<P.Call>)
    requires t.pos in {At(RollbackNode), At(VerifyNode)} || t.pos.AwaitRollback? || t.pos.AwaitVerify?
    ensures var e := NodeStep(inc, t, incidents, calls, answer); Confined(inc, e) && t.trace <= e.thread.trace
  {
    if t.pos == At(RollbackNode) { RollbackConfined(inc, t, |calls|); }
  }

  lemma AgentConfined(inc: string, t: Thread, answer: Answer, incidents: map<string, IS.Incident>, calls: seq<P.Call>)
    requires t.pos in {At(PlannerNode), At(ReportNode)}
    ensures var e := NodeStep(inc, t, incidents, calls, answer); Confined(inc, e) && t.trace <= e.thread.trace
  {
    if t.pos == At(PlannerNode) && answer.Planned? {
      SaveConfined(inc, t, PlanOf(t.ch, answer.decision), answer.save);
    } else if t.pos == At(ReportNode) && answer.Reported? {
      FinishConfined(inc, t, R.FinishReport(answer.report, t.ch.verification, t.ch.receipt), answer.saveReport);
    }
  }

  lemma PlainConfined(inc: string, t: Thread, answer: Answer, incidents: map<string, IS.Incident>, calls: seq<P.Call>)
    requires t.pos !in {At(PlannerNode), At(ReportNode), At(RollbackNode)} && !t.pos.AwaitRollback? && !t.pos.AwaitVerify?
    ensures var e := NodeStep(inc, t, incidents, calls, answer); Confined(inc, e) && t.trace <= e.thread.trace
  {
  }

  lemma NodeConfined(inc: string, t: Thread, answer: Answer, incidents: map<string, IS.Incident>, calls: seq<P.Call>)
    ensures var e := NodeStep(inc, t, incidents, calls, answer); Confined(inc, e) && t.trace <= e.thread.trace
  {
    if t.pos in {At(PlannerNode), At(ReportNode)} {
      AgentConfined(inc, t, answer, incidents, calls);
    } else if t.pos in {At(RollbackNode), At(VerifyNode)} || t.pos.AwaitRollback? || t.pos.AwaitVerify? {
      GatewayConfined(inc, t, answer, incidents, calls);
    } else {
      PlainConfined(inc, t, answer, incidents, calls);
    }
  }

  lemma EffectConfined(w: World, move: Move)
    requires ThreadMove(move)
    ensures var e := EffectOf(w, move);
            Confined(move.inc, e) && ThreadOf(w, move.inc).trace <= e.thread.trace
  {
    if move.Step? {
      NodeConfined(move.inc, ThreadOf(w, move.inc), move.answer, w.store.incidents, w.gateway.calls);
    }
  }

  // ------------------------------------------------------------ one move

  lemma ActiveMoves(cfg: P.Config, w: World, move: Move)
    requires Inv(cfg, w) && ThreadMove(move) && ThreadOf(w, move.inc).active
    ensures EffectOk(cfg, move.inc, EffectOf(w, move), w.store.incidents, w.gateway)
  {
    var (t, incidents, g) := (ThreadOf(w, move.inc), w.store.incidents, w.gateway);
    assert ThreadOk(cfg, move.inc, t, incidents, g);
    hide Inv, ThreadOk, EffectOk, NodeStep, BranchStep, DirectStep;
    if move.Step? {
      NodeOk(cfg, move.inc, t, move.answer, incidents, g);
    } else if move.BranchMove? {
      BranchStepOk(cfg, move.inc, t, move.branch, move.branchAnswer, incidents, g);
    } else if move.Abort? {
      AbortOk(cfg, move.inc, t, incidents, g);
    } else if move.DirectReview? {
      DirectOk(cfg, move.inc, t, move.approved, move.reviewer, move.comment, incidents, g);
    } else {
      QuietOk(cfg, move.inc, t, incidents, g);
    }
  }

  lemma AbortOk(cfg: P.Config, inc: string, t: Thread, incidents: map<string, IS.Incident>, g: P.State)
    requires ThreadOk(cfg, inc, t, incidents, g) && t.active
    ensures EffectOk(cfg, inc, Effect(Stop(t), None, None, AbortAudits(t)), incidents, g)
  {
    StopOk(cfg, inc, t, incidents, g);
  }

  lemma IdleMoves(cfg: P.Config, w: World, move: Move)
    requires Inv(cfg, w) && ThreadMove(move) && !ThreadOf(w, move.inc).active
    ensures EffectOk(cfg, move.inc, EffectOf(w, move), w.store.incidents, w.gateway)
  {
    var (t, incidents, g) := (ThreadOf(w, move.inc), w.store.incidents, w.gateway);
    assert ThreadOk(cfg, move.inc, t, incidents, g);
    if move.StartRun? {
      StartOk(cfg, move.inc, t, incidents, g);
    } else if move.Resume? {
      ResumeOk(cfg, move.inc, t, move.approved, move.reviewer, move.comment, move.api, incidents, g);
    } else if move.DirectReview? {
      DirectOk(cfg, move.inc, t, move.approved, move.reviewer, move.comment, incidents, g);
    } else {
      QuietOk(cfg, move.inc, t, incidents, g);
    }
  }

  lemma ThreadMoves(cfg: P.Config, w: World, move: Move)
    requires Inv(cfg, w) && ThreadMove(move)
    ensures EffectOk(cfg, move.inc, EffectOf(w, move), w.store.incidents, w.gateway)
  {
    if ThreadOf(w, move.inc).active { ActiveMoves(cfg, w, move); } else { IdleMoves(cfg, w, move); }
  }

  lemma CallGrows(cfg: P.Config, g: P.State, call: Option<P.Move>)
    requires GatewayOk(cfg, g)
    ensures GatewayOk(cfg, CallGateway(cfg, g, call)) && GatewayGrows(g, CallGateway(cfg, g, call))
  {
    if call.Some? { GatewayStep(cfg, g, call.value); }
  }

  lemma AsksMore(trace: seq<Event>, trace': seq<Event>, req: RollbackRequest)
    requires Asks(trace, req) && trace <= trace'
    ensures Asks(trace', req)
  {
    var n :| 0 <= n < |trace| && trace[n] == RollbackRequested(req);
    assert trace'[n] == trace[n];
  }

  lemma EffectKeepsAsked(cfg: P.Config, w: World, inc: string, e: Effect)
    requires CallsAsked(w.threads, w.gateway.calls) && Confined(inc, e) && ThreadOf(w, inc).trace <= e.thread.trace
    requires e.call.None? || !e.call.value.Step?
    ensures CallsAsked(w.threads[inc := e.thread], CallGateway(cfg, w.gateway, e.call).calls)
  {
    var threads := w.threads[inc := e.thread];
    var calls := CallGateway(cfg, w.gateway, e.call).calls;
    forall i | 0 <= i < |calls| && calls[i].Rollback?
      ensures calls[i].req.incidentId in threads && Asks(threads[calls[i].req.incidentId].trace, calls[i].req)
    {
      if i < |w.gateway.calls| {
        assert calls[i] == w.gateway.calls[i];
        if calls[i].req.incidentId == inc {
          AsksMore(w.threads[inc].trace, e.thread.trace, calls[i].req);
        }
      }
    }
  }

  lemma EffectKeepsThreads(cfg: P.Config, w: World, inc: string, e: Effect, incidents': map<string, IS.Incident>, g': P.State)
    requires ThreadsOk(cfg, w) && GatewayOk(cfg, w.gateway) && Confined(inc, e)
    requires EffectOk(cfg, inc, e, w.store.incidents, w.gateway)
    requires incidents' == WriteIncidents(w.store.incidents, e.write) && g' == CallGateway(cfg, w.gateway, e.call)
    ensures forall w': World | w'.threads == w.threads[inc := e.thread] && w'.store.incidents == incidents' && w'.gateway == g' ::
              ThreadsOk(cfg, w')
  {
    CallGrows(cfg, w.gateway, e.call);
    forall w': World, k: string | w'.threads == w.threads[inc := e.thread] && w'.store.incidents == incidents' && w'.gateway == g'
      ensures ThreadOk(cfg, k, ThreadOf(w', k), w'.store.incidents, w'.gateway)
    {
      if k != inc {
        assert ThreadOk(cfg, k, ThreadOf(w, k), w.store.incidents, w.gateway);
        ThreadFrame(cfg, k, ThreadOf(w, k), w.store.incidents, incidents', w.gateway, g');
      }
    }
  }

  lemma EffectKeepsInv(cfg: P.Config, w: World, inc: string, e: Effect, replies: seq<Reply>)
    requires Inv(cfg, w) && Confined(inc, e) && ThreadOf(w, inc).trace <= e.thread.trace
    requires EffectOk(cfg, inc, e, w.store.incidents, w.gateway)
    ensures Inv(cfg, ApplyEffect(cfg, w, inc, e, replies))
    ensures ApplyEffect(cfg, w, inc, e, replies).store.counter == w.store.counter
  {
    var w' := ApplyEffect(cfg, w, inc, e, replies);
    AuditKeeps(WriteStore(w.store, e.write), w.audit, inc, e.audits, replies);
    WriteShows(w.store, e.write);
    CallGrows(cfg, w.gateway, e.call);
    EffectKeepsAsked(cfg, w, inc, e);
    EffectKeepsThreads(cfg, w, inc, e, w'.store.incidents, w'.gateway);
    assert forall id | id in w'.store.incidents :: IS.IssuedId(id, w.store.counter);
  }

  lemma GatewayMoveOk(cfg: P.Config, w: World, m: P.Move)
    requires Inv(cfg, w) && (m.Step? || m.Expire?)
    ensures Inv(cfg, w.(gateway := P.Next(cfg, w.gateway, m)))
  {
    var w' := w.(gateway := P.Next(cfg, w.gateway, m));
    GatewayStep(cfg, w.gateway, m);
    forall k: string ensures ThreadOk(cfg, k, ThreadOf(w', k), w'.store.incidents, w'.gateway) {
      assert ThreadOk(cfg, k, ThreadOf(w, k), w.store.incidents, w.gateway);
      ThreadFrame(cfg, k, ThreadOf(w, k), w.store.incidents, w'.store.incidents, w.gateway, w'.gateway);
    }
    forall i | 0 <= i < |w'.gateway.calls| && w'.gateway.calls[i].Rollback?
      ensures w'.gateway.calls[i].req.incidentId in w.threads
      ensures Asks(w.threads[w'.gateway.calls[i].req.incidentId].trace, w'.gateway.calls[i].req)
    {
      assert SameRequest(w.gateway.calls[i], w'.gateway.calls[i]);
    }
  }

  /** Someone else's request to the store. */
  lemma StoreMoveOk(cfg: P.Config, w: World, store': IS.State)
    requires Inv(cfg, w) && Issues(w.store, store')
    ensures Inv(cfg, w.(store := store'))
  {
    var w' := w.(store := store');
    GatewaySame(w.gateway);
    forall k: string ensures ThreadOk(cfg, k, ThreadOf(w', k), w'.store.incidents, w'.gateway) {
      assert SameView(w.store.incidents, store'.incidents, k);
      assert ThreadOk(cfg, k, ThreadOf(w, k), w.store.incidents, w.gateway);
      ThreadFrame(cfg, k, ThreadOf(w, k), w.store.incidents, w'.store.incidents, w.gateway, w'.gateway);
    }
  }

  /** Ids stay issued by the counter, and no incident's view changes. */
  ghost predicate Issues(store: IS.State, store': IS.State) {
    && IS.IdsIssued(store') && store.counter <= store'.counter <= store.counter + 1
    && forall k: string :: SameView(store.incidents, store'.incidents, k)
  }

  lemma AddedView(incidents: map<string, IS.Incident>, incidents': map<string, IS.Incident>, id: string, i: IS.Incident)
    requires id !in incidents && i.analysis.None? && i.report.None? && i.approval.None? && incidents' == incidents[id := i]
    ensures forall k: string :: SameView(incidents, incidents', k)
  {
  }

  lemma AddedIssues(store: IS.State, store': IS.State, id: string, i: IS.Incident)
    requires IS.IdsIssued(store) && id !in store.incidents && i.analysis.None? && i.report.None? && i.approval.None?
    requires store'.counter == store.counter + 1 && store'.incidents == store.incidents[id := i]
    requires IS.IssuedId(id, store'.counter)
    ensures Issues(store, store')
  {
    AddedView(store.incidents, store'.incidents, id, i);
    IS.AddedIdIssued(store, store', id);
  }

  lemma CreateIssues(store: IS.State, nanos: int, req: IS.CreateRequest)
    requires IS.IdsIssued(store) && store.counter + 1 < T.TWO_TO_64
    ensures Issues(store, HandleCreate(store, nanos, req))
  {
    var store' := HandleCreate(store, nanos, req);
    if Admitted(req) {
      var id := IS.IncidentId(nanos, store.counter + 1);
      IS.NextIdIsUnused(store, nanos);
      IS.NewIdIssued(nanos, store.counter + 1);
      AddedIssues(store, store', id, store'.incidents[id]);
    }
  }

  lemma ThreadMoveOk(cfg: P.Config, w: World, move: Move)
    requires Inv(cfg, w) && ThreadMove(move)
    ensures Inv(cfg, Next(cfg, w, move)) && Next(cfg, w, move).store.counter == w.store.counter
  {
    ThreadMoves(cfg, w, move);
    EffectConfined(w, move);
    EffectKeepsInv(cfg, w, move.inc, EffectOf(w, move), AuditReplies(move));
  }

  lemma MoveKeepsInv(cfg: P.Config, w: World, move: Move)
    requires Inv(cfg, w) && w.store.counter + 1 < T.TWO_TO_64
    ensures Inv(cfg, Next(cfg, w, move)) && Next(cfg, w, move).store.counter <= w.store.counter + 1
  {
    match move {
      case GatewayMove(m) => if m.Step? || m.Expire? { GatewayMoveOk(cfg, w, m); }
      case CreateIncident(nanos, req) =>
        CreateIssues(w.store, nanos, req);
        StoreMoveOk(cfg, w, HandleCreate(w.store, nanos, req));
      case _ => ThreadMoveOk(cfg, w, move);
    }
  }

  /** Every history keeps the invariant, below the incident counter's 64 bits. */
  lemma {:induction false} HistoryInv(cfg: P.Config, moves: seq<Move>)
    requires |moves| < T.TWO_TO_64
    ensures Inv(cfg, Run(cfg, Origin, moves)) && Run(cfg, Origin, moves).store.counter <= |moves|
    decreases |moves|
  {
    if moves == [] {
      OriginInv(cfg);
    } else {
      HistoryInv(cfg, moves[..|moves| - 1]);
      MoveKeepsInv(cfg, Run(cfg, Origin, moves[..|moves| - 1]), moves[|moves| - 1]);
    }
  }

  lemma {:induction false} RunAppend(cfg: P.Config, w: World, earlier: seq<Move>, later: seq<Move>)
    ensures Run(cfg, w, earlier + later) == Run(cfg, Run(cfg, w, earlier), later)
    decreases |later|
  {
    if later == [] {
      assert earlier + later == earlier;
    } else {
      var last := |later| - 1;
      assert (earlier + later)[..|earlier + later| - 1] == earlier + later[..last];
      RunAppend(cfg, w, earlier, later[..last]);
    }
  }

  /** This history leads here; it is shorter than the incident counter's 64 bits. */
  predicate ReachedBy(cfg: P.Config, w: World, moves: seq<Move>) {
    |moves| < T.TWO_TO_64 && w == Run(cfg, Origin, moves)
  }

  lemma ReachedInv(cfg: P.Config, w: World, moves: seq<Move>)
    requires ReachedBy(cfg, w, moves)
    ensures Inv(cfg, w)
  {
    HistoryInv(cfg, moves);
  }

  lemma ReachedThread(cfg: P.Config, w: World, moves: seq<Move>, inc: string)
    requires ReachedBy(cfg, w, moves)
    ensures ThreadOk(cfg, inc, ThreadOf(w, inc), w.store.incidents, w.gateway)
  {
    ReachedInv(cfg, w, moves);
  }

  lemma OriginInv(cfg: P.Config)
    ensures Inv(cfg, Origin)
  {
    forall k: string ensures ThreadOk(cfg, k, ThreadOf(Origin, k), Origin.store.incidents, Origin.gateway) {
      assert ThreadOf(Origin, k) == NewThread;
    }
  }
}
