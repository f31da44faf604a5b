/** Where the events of a trace come from: each was put there by one move of the
    history, and what it records is made from that move's answer. */
module GraphOrigins {
  import opened Common
  import opened Models
  import opened Planner
  import opened Graph
  import opened GraphInvariant
  import GA = GraphAnswers
  import R = Report
  import T = Text
  import IS = IncidentStore
  import P = RollbackProtocol

  // ------------------------------------------------------------ one move per event

  lemma TraceGrows(cfg: P.Config, w: World, move: Move, inc: string)
    ensures ThreadOf(w, inc).trace <= ThreadOf(Next(cfg, w, move), inc).trace
  {
    if ThreadMove(move) { EffectConfined(w, move); }
  }

  /** The move put the event at position `n` of the incident's trace. */
  predicate Adds(cfg: P.Config, w: World, move: Move, inc: string, n: nat, e: Event) {
    var (trace, trace') := (ThreadOf(w, inc).trace, ThreadOf(Next(cfg, w, move), inc).trace);
    |trace| <= n < |trace'| && trace'[n] == e
  }

  lemma {:induction false} FindMove(cfg: P.Config, moves: seq<Move>, inc: string, n: nat) returns (k: nat)
    requires n < |ThreadOf(Run(cfg, Origin, moves), inc).trace|
    ensures k < |moves|
    ensures Adds(cfg, Run(cfg, Origin, moves[..k]), moves[k], inc, n, ThreadOf(Run(cfg, Origin, moves), inc).trace[n])
    decreases |moves|
  {
    var last := |moves| - 1;
    var front := moves[..last];
    var w := Run(cfg, Origin, front);
    TraceGrows(cfg, w, moves[last], inc);
    if n < |ThreadOf(w, inc).trace| {
      k := FindMove(cfg, front, inc, n);
      assert front[..k] == moves[..k];
    } else {
      k := last;
    }
  }

  // ------------------------------------------------------------ analyses

  /** What the rules would say to the evidence in the state. */
  function RulesOn(ch: Channels): Diagnosis {
    PlanDiagnosis(ch.serviceName, Release(ch), Previous(ch), ch.change, ch.log, ch.dependency)
  }

  /** The event saves the evidence in the state and the reasoner's decision as it is,
      completed by the rules where it is silent. */
  predicate RecordsDecision(t: Thread, decision: PlannerDecision, e: Event) {
    && e.AnalysisSaved? && SchemaAdmits(decision) && e.evidence == t.ch.change + t.ch.log + t.ch.dependency
    && Completes(decision, RulesOn(t.ch), e.hypotheses, e.saved)
  }

  /** The move is a planner's answer at its node, and the event records it. */
  predicate PlannedBy(w: World, move: Move, inc: string, e: Event) {
    && move.Step? && move.inc == inc && move.answer.Planned? && ThreadOf(w, inc).pos == At(PlannerNode)
    && RecordsDecision(ThreadOf(w, inc), move.answer.decision, e)
  }

  lemma SaveRecords(inc: string, t: Thread, decision: PlannerDecision, save: Reply, n: nat)
    requires SchemaAdmits(decision)
    requires var t' := PlannerStep(inc, t, decision, save).thread;
             |t.trace| <= n < |t'.trace| && t'.trace[n].AnalysisSaved?
    ensures RecordsDecision(t, decision, PlannerStep(inc, t, decision, save).thread.trace[n])
  {
    CompletionKeepsTheDecision(decision, t.ch.serviceName, Release(t.ch), Previous(t.ch),
                               t.ch.change, t.ch.log, t.ch.dependency);
    hide CompletePlan, PlanDiagnosis, Completes, Annotates, SchemaAdmits;
  }

  lemma OnlyPlannersSave(inc: string, t: Thread, incidents: map<string, IS.Incident>, calls: seq<P.Call>, answer: Answer, n: nat)
    requires var t' := NodeStep(inc, t, incidents, calls, answer).thread;
             |t.trace| <= n < |t'.trace| && t'.trace[n].AnalysisSaved?
    ensures t.pos == At(PlannerNode) && answer.Planned? && SchemaAdmits(answer.decision)
    ensures NodeStep(inc, t, incidents, calls, answer) == PlannerStep(inc, t, answer.decision, answer.save)
  {
    hide CompletePlan, R.FinishReport, SchemaAdmits;
  }

  predicate Quietly(t: Thread, t': Thread) {
    && t.trace <= t'.trace
    && forall n | |t.trace| <= n < |t'.trace| :: !t'.trace[n].AnalysisSaved? && !t'.trace[n].ReportSaved?
  }

  lemma ReviewsAreQuiet(inc: string, t: Thread, incidents: map<string, IS.Incident>,
                        approved: bool, reviewer: string, comment: string, api: Reply)
    ensures Quietly(t, ResumeStep(inc, t, incidents, approved, reviewer, comment, api).thread)
    ensures Quietly(t, DirectStep(inc, t, incidents, approved, reviewer, comment).thread)
  {
    assert Quietly(t, Told(t, approved, reviewer, comment));
  }

  lemma OtherEffectsAreQuiet(w: World, move: Move)
    requires ThreadMove(move) && !(move.Step? && ThreadOf(w, move.inc).active)
    ensures Quietly(ThreadOf(w, move.inc), EffectOf(w, move).thread)
  {
    var (t, incidents) := (ThreadOf(w, move.inc), w.store.incidents);
    hide ResumeStep, DirectStep, NodeStep;
    match move {
      case Resume(inc, approved, reviewer, comment, api, _) =>
        ReviewsAreQuiet(inc, t, incidents, approved, reviewer, comment, api);
      case DirectReview(inc, approved, reviewer, comment) =>
        ReviewsAreQuiet(inc, t, incidents, approved, reviewer, comment, Acknowledged);
      case _ =>
    }
  }

  lemma OthersDoNotSave(cfg: P.Config, w: World, move: Move, inc: string, n: nat, e: Event)
    requires Adds(cfg, w, move, inc, n, e) && (e.AnalysisSaved? || e.ReportSaved?)
    ensures move.Step? && move.inc == inc && ThreadOf(w, inc).active
    ensures var t' := NodeStep(inc, ThreadOf(w, inc), w.store.incidents, w.gateway.calls, move.answer).thread;
            ThreadOf(Next(cfg, w, move), inc) == t'
  {
    if ThreadMove(move) && move.inc == inc && !(move.Step? && ThreadOf(w, inc).active) { OtherEffectsAreQuiet(w, move); }
    ThreadAfter(cfg, w, move, inc);
    hide Next, NodeStep;
  }

  lemma ThreadAfter(cfg: P.Config, w: World, move: Move, inc: string)
    ensures ThreadOf(Next(cfg, w, move), inc)
         == if ThreadMove(move) && move.inc == inc then EffectOf(w, move).thread else ThreadOf(w, inc)
  {
    hide EffectOf;
  }

  lemma PlannerRecords(inc: string, t: Thread, incidents: map<string, IS.Incident>, calls: seq<P.Call>, answer: Answer, n: nat)
    requires var t' := NodeStep(inc, t, incidents, calls, answer).thread;
             |t.trace| <= n < |t'.trace| && t'.trace[n].AnalysisSaved?
    ensures t.pos == At(PlannerNode) && answer.Planned?
    ensures RecordsDecision(t, answer.decision, NodeStep(inc, t, incidents, calls, answer).thread.trace[n])
  {
    OnlyPlannersSave(inc, t, incidents, calls, answer, n);
    hide RecordsDecision, NodeStep, PlannerStep;
    SaveRecords(inc, t, answer.decision, answer.save, n);
  }

  lemma AnalysisIsPlanned(cfg: P.Config, w: World, move: Move, inc: string, n: nat, e: Event)
    requires Adds(cfg, w, move, inc, n, e) && e.AnalysisSaved?
    ensures PlannedBy(w, move, inc, e)
  {
    OthersDoNotSave(cfg, w, move, inc, n, e);
    hide Next, NodeStep, RecordsDecision;
    var t := ThreadOf(w, inc);
    PlannerRecords(inc, t, w.store.incidents, w.gateway.calls, move.answer, n);
  }

  /** Over all histories and reasoners: every analysis saved records what a planner
      decided on the evidence then in the state. Its hypotheses and its action are
      that decision's, and the rules' only where it gave none. */
  lemma AnalysesRecordDecisions(cfg: P.Config, w: World, moves: seq<Move>, inc: string, n: nat)
    requires ReachedBy(cfg, w, moves)
    requires n < |ThreadOf(w, inc).trace| && ThreadOf(w, inc).trace[n].AnalysisSaved?
    ensures exists k | 0 <= k < |moves| :: PlannedBy(Run(cfg, Origin, moves[..k]), moves[k], inc, ThreadOf(w, inc).trace[n])
  {
    var k := FindMove(cfg, moves, inc, n);
    AnalysisIsPlanned(cfg, Run(cfg, Origin, moves[..k]), moves[k], inc, n, ThreadOf(w, inc).trace[n]);
  }

  // ------------------------------------------------------------ reports

  /** The move is a report draft at its node, and the event is that draft finished
      with the verdict and the receipt then in the state. */
  ghost predicate ReportedBy(w: World, move: Move, inc: string, e: Event) {
    var t := ThreadOf(w, inc);
    && move.Step? && move.inc == inc && move.answer.Reported? && t.pos == At(ReportNode) && e.ReportSaved?
    && R.Finishes(move.answer.report, t.ch.verification, t.ch.receipt, e.report)
  }

  lemma OnlyReportersReport(inc: string, t: Thread, incidents: map<string, IS.Incident>, calls: seq<P.Call>, answer: Answer, n: nat)
    requires var t' := NodeStep(inc, t, incidents, calls, answer).thread;
             |t.trace| <= n < |t'.trace| && t'.trace[n].ReportSaved?
    ensures t.pos == At(ReportNode) && answer.Reported?
    ensures NodeStep(inc, t, incidents, calls, answer).thread.trace[n]
         == ReportSaved(R.FinishReport(answer.report, t.ch.verification, t.ch.receipt))
  {
    hide CompletePlan, R.FinishReport, SchemaAdmits;
  }

  lemma ReportIsDrafted(cfg: P.Config, w: World, move: Move, inc: string, n: nat, e: Event)
    requires Adds(cfg, w, move, inc, n, e) && e.ReportSaved?
    ensures ReportedBy(w, move, inc, e)
  {
    OthersDoNotSave(cfg, w, move, inc, n, e);
    hide Next, R.Finishes, R.FinishReport;
    var t := ThreadOf(w, inc);
    OnlyReportersReport(inc, t, w.store.incidents, w.gateway.calls, move.answer, n);
    R.ReportIsFinished(move.answer.report, t.ch.verification, t.ch.receipt);
  }

  lemma VerdictAtReport(t: Thread, s: Summary)
    requires PosOk(t, s) && Traced(t, s) && t.pos == At(ReportNode)
    ensures t.ch.verification.Some? && t.ch.verification == s.verdict
  {
  }

  lemma StateHasVerdict(cfg: P.Config, w: World, inc: string)
    requires Inv(cfg, w) && ThreadOf(w, inc).pos == At(ReportNode)
    ensures ThreadOf(w, inc).ch.verification.Some?
    ensures ThreadOf(w, inc).ch.verification == Summarize(ThreadOf(w, inc).trace).verdict
  {
    assert ThreadOk(cfg, inc, ThreadOf(w, inc), w.store.incidents, w.gateway);
    hide Summarize, SafeTrace, PosOk, Traced;
    VerdictAtReport(ThreadOf(w, inc), Summarize(ThreadOf(w, inc).trace));
  }

  /** The event at `n` is some draft finished with the verdict given last before it. */
  ghost predicate FinishedWith(trace: seq<Event>, n: nat, v: nat, draft: FinalReport, receipt: Option<ActionReceipt>)
    requires n < |trace| && trace[n].ReportSaved?
  {
    && v < n && GA.VerdictAt(trace[..n], v)
    && R.Finishes(draft, Some(trace[v].result), receipt, trace[n].report)
  }

  lemma AddedAtTheEnd(cfg: P.Config, w: World, move: Move, inc: string, n: nat, e: Event, trace: seq<Event>)
    requires Adds(cfg, w, move, inc, n, e) && e.ReportSaved? && ThreadOf(w, inc).trace <= trace
    ensures n == |ThreadOf(w, inc).trace|
    ensures n <= |trace| ==> trace[..n] == ThreadOf(w, inc).trace
  {
    OthersDoNotSave(cfg, w, move, inc, n, e);
    var t := ThreadOf(w, inc);
    OnlyReportersReport(inc, t, w.store.incidents, w.gateway.calls, move.answer, n);
    hide Next, R.FinishReport;
  }

  lemma {:induction false} TraceOfPrefix(cfg: P.Config, moves: seq<Move>, k: nat, inc: string)
    requires k <= |moves|
    ensures ThreadOf(Run(cfg, Origin, moves[..k]), inc).trace <= ThreadOf(Run(cfg, Origin, moves), inc).trace
    decreases |moves|
  {
    if k == |moves| {
      assert moves[..k] == moves;
    } else {
      var front := moves[..|moves| - 1];
      TraceOfPrefix(cfg, front, k, inc);
      assert front[..k] == moves[..k];
      TraceGrows(cfg, Run(cfg, Origin, front), moves[|moves| - 1], inc);
    }
  }

  /** Over all histories: every report saved is a draft with the findings of the
      verdict given last before it. The draft's lists stay in front, every anomaly
      line and every stripped suggestion is there, each addition once, and nothing
      else is added; the measurements are the verdict's. */
  lemma ReportsCollectTheirVerdict(cfg: P.Config, w: World, moves: seq<Move>, inc: string, n: nat)
    requires ReachedBy(cfg, w, moves)
    requires n < |ThreadOf(w, inc).trace| && ThreadOf(w, inc).trace[n].ReportSaved?
    ensures exists k | 0 <= k < |moves| :: ReportedBy(Run(cfg, Origin, moves[..k]), moves[k], inc, ThreadOf(w, inc).trace[n])
    ensures exists v: nat, draft, receipt :: FinishedWith(ThreadOf(w, inc).trace, n, v, draft, receipt)
  {
    hide R.Finishes, Summarize;
    var trace := ThreadOf(w, inc).trace;
    var k := FindMove(cfg, moves, inc, n);
    var w0 := Run(cfg, Origin, moves[..k]);
    ReportIsDrafted(cfg, w0, moves[k], inc, n, trace[n]);
    TraceOfPrefix(cfg, moves, k, inc);
    AddedAtTheEnd(cfg, w0, moves[k], inc, n, trace[n], trace);
    HistoryInv(cfg, moves[..k]);
    hide Inv;
    StateHasVerdict(cfg, w0, inc);
    GA.VerdictIsSeen(trace[..n]);
    var v: nat :| GA.VerdictAt(trace[..n], v);
    assert FinishedWith(trace, n, v, moves[k].answer.report, ThreadOf(w0, inc).ch.receipt);
  }
}
