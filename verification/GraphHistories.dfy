/** Histories that reach the corners the other results delimit: a critic that is
    overruled, a refused run stored as "diagnosed", and a refusal that comes too
    late to stop the rollback it refuses. Each is built from any world in which the
    incident is known and idle, and then from the empty system. */
module GraphHistories {
  import opened Common
  import opened Models
  import opened Gateway
  import opened Planner
  import opened Graph
  import opened GraphInvariant
  import GP = GraphProgress
  import GR = GraphReviews
  import GS = GraphSafety
  import T = Text
  import IS = IncidentStore
  import P = RollbackProtocol

  // ------------------------------------------------------------ putting histories together

  /** After these moves, `w` and `w'` have the same future. */
  ghost predicate Leads(cfg: P.Config, w: World, moves: seq<Move>, w': World) {
    forall rest: seq<Move> :: Run(cfg, w, moves + rest) == Run(cfg, w', rest)
  }

  lemma LeadsOne(cfg: P.Config, w: World, move: Move)
    ensures Leads(cfg, w, [move], Next(cfg, w, move))
  {
    forall rest: seq<Move> ensures Run(cfg, w, [move] + rest) == Run(cfg, Next(cfg, w, move), rest) {
      RunAppend(cfg, w, [move], rest);
      assert [move][..0] == [];
    }
  }

  lemma LeadsFor(cfg: P.Config, w: World, moves: seq<Move>, w': World, rest: seq<Move>)
    requires Leads(cfg, w, moves, w')
    ensures Run(cfg, w, moves + rest) == Run(cfg, w', rest)
  {
  }

  lemma LeadsOn(cfg: P.Config, w: World, a: seq<Move>, mid: World, b: seq<Move>, w': World)
    requires Leads(cfg, w, a, mid) && Leads(cfg, mid, b, w')
    ensures Leads(cfg, w, a + b, w')
  {
    hide Run;
    forall rest: seq<Move> ensures Run(cfg, w, a + b + rest) == Run(cfg, w', rest) {
      assert a + b + rest == a + (b + rest);
      LeadsFor(cfg, w, a, mid, b + rest);
      LeadsFor(cfg, mid, b, w', rest);
    }
  }

  lemma LeadsThere(cfg: P.Config, w: World, moves: seq<Move>, w': World)
    requires Leads(cfg, w, moves, w')
    ensures Run(cfg, w, moves) == w'
  {
    assert Run(cfg, w, moves + []) == Run(cfg, w', []);
    assert moves + [] == moves;
  }

  /** The effect, but for its audit writes, separates the two worlds. */
  predicate After(cfg: P.Config, w: World, inc: string, e: Effect, w': World) {
    && ThreadOf(w', inc) == e.thread
    && w'.store.incidents == WriteIncidents(w.store.incidents, e.write)
    && w'.gateway == CallGateway(cfg, w.gateway, e.call)
  }

  lemma EffectAfter(cfg: P.Config, w: World, inc: string, e: Effect, replies: seq<Reply>)
    requires Confined(inc, e)
    ensures After(cfg, w, inc, e, ApplyEffect(cfg, w, inc, e, replies))
  {
    AuditKeeps(WriteStore(w.store, e.write), w.audit, inc, e.audits, replies);
    WriteShows(w.store, e.write);
  }

  lemma NextAfter(cfg: P.Config, w: World, move: Move)
    requires ThreadMove(move)
    ensures After(cfg, w, move.inc, EffectOf(w, move), Next(cfg, w, move))
  {
    EffectConfined(w, move);
    EffectAfter(cfg, w, move.inc, EffectOf(w, move), AuditReplies(move));
  }

  /** The history goes on with one move of a thread. */
  lemma PlayMove(cfg: P.Config, w0: World, h: seq<Move>, w: World, move: Move) returns (w': World)
    requires Leads(cfg, w0, h, w) && ThreadMove(move)
    ensures Leads(cfg, w0, h + [move], w') && After(cfg, w, move.inc, EffectOf(w, move), w')
  {
    hide Leads;
    w' := Next(cfg, w, move);
    LeadsOne(cfg, w, move);
    LeadsOn(cfg, w0, h, w, [move], w');
    NextAfter(cfg, w, move);
  }

  lemma PlayStep(cfg: P.Config, w0: World, h: seq<Move>, w: World, inc: string, answer: Answer) returns (w': World)
    requires Leads(cfg, w0, h, w) && ThreadOf(w, inc).active
    ensures Leads(cfg, w0, h + [Step(inc, answer, [])], w')
    ensures After(cfg, w, inc, NodeStep(inc, ThreadOf(w, inc), w.store.incidents, w.gateway.calls, answer), w')
  {
    hide Leads;
    w' := PlayMove(cfg, w0, h, w, Step(inc, answer, []));
  }

  lemma PlayReview(cfg: P.Config, w0: World, h: seq<Move>, w: World, inc: string, approved: bool, reviewer: string)
    returns (w': World)
    requires Leads(cfg, w0, h, w) && !ThreadOf(w, inc).active
    ensures Leads(cfg, w0, h + [Resume(inc, approved, reviewer, "", Acknowledged, [])], w')
    ensures After(cfg, w, inc,
                  ResumeStep(inc, ThreadOf(w, inc), w.store.incidents, approved, reviewer, "", Acknowledged), w')
  {
    hide Leads;
    w' := PlayMove(cfg, w0, h, w, Resume(inc, approved, reviewer, "", Acknowledged, []));
  }

  lemma PlayStatement(cfg: P.Config, w0: World, h: seq<Move>, w: World, n: nat, reply: Reply) returns (w': World)
    requires Leads(cfg, w0, h, w)
    ensures Leads(cfg, w0, h + [GatewayMove(P.Step(n, reply, 0))], w')
    ensures w' == w.(gateway := P.Next(cfg, w.gateway, P.Step(n, reply, 0)))
  {
    hide Leads;
    w' := Next(cfg, w, GatewayMove(P.Step(n, reply, 0)));
    LeadsOne(cfg, w, GatewayMove(P.Step(n, reply, 0)));
    LeadsOn(cfg, w0, h, w, [GatewayMove(P.Step(n, reply, 0))], w');
  }

  // ------------------------------------------------------------ from idle to the planner

  /** Nothing but a thread has moved. */
  predicate SameElsewhere(w: World, w': World) {
    w'.store.incidents == w.store.incidents && w'.gateway == w.gateway
  }

  function WithPc(pos: Pos, b: Branch, pc: BranchPc): Pos
    requires pos.Gathering?
  {
    match b
    case ChangeBranch => pos.(change := pc)
    case LogBranch => pos.(log := pc)
    case DependencyBranch => pos.(dependency := pc)
  }

  lemma PcAfter(pos: Pos, b: Branch, pc: BranchPc, next: BranchPc)
    requires pos.Gathering?
    ensures GP.PcOf(WithPc(pos, b, pc), b) == pc && WithPc(WithPc(pos, b, pc), b, next) == WithPc(pos, b, next)
  {
  }

  /** One await of a branch. */
  lemma PlayAwait(cfg: P.Config, w0: World, h: seq<Move>, w: World, inc: string, b: Branch, answer: BranchAnswer)
    returns (w': World)
    requires Leads(cfg, w0, h, w) && ThreadOf(w, inc).active && ThreadOf(w, inc).pos.Gathering?
    ensures Leads(cfg, w0, h + [BranchMove(inc, b, answer)], w') && SameElsewhere(w, w')
    ensures var t := ThreadOf(w, inc);
            ThreadOf(w', inc) == t.(pos := WithPc(t.pos, b, BranchNext(b, GP.PcOf(t.pos, b), answer)))
  {
    hide Leads;
    w' := PlayMove(cfg, w0, h, w, BranchMove(inc, b, answer));
  }

  /** One branch from its query to its end, without findings. */
  lemma FinishBranch(cfg: P.Config, w0: World, h: seq<Move>, w: World, inc: string, b: Branch)
    returns (w': World, h': seq<Move>)
    requires Leads(cfg, w0, h, w) && ThreadOf(w, inc).active && ThreadOf(w, inc).pos.Gathering?
    requires GP.PcOf(ThreadOf(w, inc).pos, b) == Querying
    ensures Leads(cfg, w0, h', w') && SameElsewhere(w, w') && |h'| == |h| + 5
    ensures ThreadOf(w', inc) == ThreadOf(w, inc).(pos := WithPc(ThreadOf(w, inc).pos, b, Gathered([])))
  {
    hide Leads;
    var (t, ok) := (ThreadOf(w, inc), Audited(Acknowledged));
    w' := PlayAwait(cfg, w0, h, w, inc, b, Items([]));
    h' := h + [BranchMove(inc, b, Items([]))];
    PcAfter(t.pos, b, Announcing([]), Analysing([]));
    w' := PlayAwait(cfg, w0, h', w', inc, b, ok);
    h' := h' + [BranchMove(inc, b, ok)];
    PcAfter(t.pos, b, Analysing([]), Recording([]));
    w' := PlayAwait(cfg, w0, h', w', inc, b, Findings([]));
    h' := h' + [BranchMove(inc, b, Findings([]))];
    PcAfter(t.pos, b, Recording([]), Closing([]));
    w' := PlayAwait(cfg, w0, h', w', inc, b, ok);
    h' := h' + [BranchMove(inc, b, ok)];
    PcAfter(t.pos, b, Closing([]), Gathered([]));
    w' := PlayAwait(cfg, w0, h', w', inc, b, ok);
    h' := h' + [BranchMove(inc, b, ok)];
    assert NumberedEvidence(SourceType(b), [], Prefix(b)) == [];
  }

  /** An idle, known incident. */
  predicate Idle(w: World, inc: string) {
    inc in w.store.incidents && !ThreadOf(w, inc).active
  }

  /** A run at its planner, with nothing gathered and no replan yet; what earlier
      runs left in approval and receipt is still there. */
  predicate AtPlanner(t: Thread, t0: Thread, i: IS.Incident) {
    && t.active && t.pos == At(PlannerNode) && t.ch.replanCount == 0
    && t.ch.change == t.ch.log == t.ch.dependency == []
    && t.ch.serviceName == i.serviceName && t.ch.playbookKey == i.playbookKey
    && t.ch.approval == t0.ch.approval && t.ch.reviewer == t0.ch.reviewer && t.ch.receipt == t0.ch.receipt
    && t.trace == t0.trace + [RunStarted]
  }

  lemma PlayToFork(cfg: P.Config, w0: World, inc: string) returns (w': World, h: seq<Move>)
    requires Idle(w0, inc)
    ensures Leads(cfg, w0, h, w') && SameElsewhere(w0, w') && |h| <= 4
    ensures var (t, t0, i) := (ThreadOf(w', inc), ThreadOf(w0, inc), w0.store.incidents[inc]);
            t.pos == Gathering(Querying, Querying, Querying) &&
            AtPlanner(t.(pos := At(PlannerNode), ch := t.ch.(change := [], log := [], dependency := [])), t0, i)
  {
    LeadsNowhere(cfg, w0);
    hide Leads;
    w' := PlayMove(cfg, w0, [], w0, StartRun(inc));
    h := [] + [StartRun(inc)];
    w' := PlayStep(cfg, w0, h, w', inc, Go);
    h := h + [Step(inc, Go, [])];
    w' := PlayStep(cfg, w0, h, w', inc, Triaged("unknown"));
    h := h + [Step(inc, Triaged("unknown"), [])];
  }

  lemma LeadsNowhere(cfg: P.Config, w: World)
    ensures Leads(cfg, w, [], w)
  {
    forall rest: seq<Move> ensures Run(cfg, w, [] + rest) == Run(cfg, w, rest) {
      assert [] + rest == rest;
    }
  }

  /** Any idle, known incident can be brought to its planner. */
  lemma PlayToPlanner(cfg: P.Config, w0: World, inc: string) returns (w': World, h: seq<Move>)
    requires Idle(w0, inc)
    ensures Leads(cfg, w0, h, w') && SameElsewhere(w0, w') && |h| <= 20
    ensures AtPlanner(ThreadOf(w', inc), ThreadOf(w0, inc), w0.store.incidents[inc])
  {
    hide Leads;
    w', h := PlayToFork(cfg, w0, inc);
    w', h := FinishBranch(cfg, w0, h, w', inc, ChangeBranch);
    w', h := FinishBranch(cfg, w0, h, w', inc, LogBranch);
    w', h := FinishBranch(cfg, w0, h, w', inc, DependencyBranch);
    w' := PlayStep(cfg, w0, h, w', inc, Go);
    h := h + [Step(inc, Go, [])];
  }

  // ------------------------------------------------------------ plans and verdicts

  const ACTION := ActionPlan("rollback", "order-api", "v2", "v1", "regression", "high", [], None, true)

  const DECISION := PlannerDecision(
    [PlannerHypothesis("regression", [], 0.5)],
    Some(PlannerAction("rollback", "order-api", "v2", "v1", "regression", "high", [], None, true)), "")

  /** In the middle of a run, with this plan. */
  predicate Stands(w: World, inc: string, node: Node, t0: Thread) {
    var t := ThreadOf(w, inc);
    && inc in w.store.incidents && t.active && t.pos == At(node) && t.ch.action == Some(ACTION)
    && t.ch.serviceName != "" && KeepsAnswers(t, t0)
  }

  /** What a run neither decides nor executes stays as it was. */
  predicate KeepsAnswers(t: Thread, t0: Thread) {
    t.ch.approval == t0.ch.approval && t.ch.reviewer == t0.ch.reviewer && t.ch.receipt == t0.ch.receipt
    && t.ch.playbookKey == t0.ch.playbookKey
  }

  lemma DecisionIsComplete(ch: Channels)
    ensures SchemaAdmits(DECISION) && PlanOf(ch, DECISION).action == Some(ACTION)
  {
  }

  predicate AtWork(w: World, inc: string, node: Node) {
    var t := ThreadOf(w, inc);
    inc in w.store.incidents && t.active && t.pos == At(node) && t.ch.serviceName != ""
  }

  lemma PlayPlan(cfg: P.Config, w0: World, h: seq<Move>, w: World, inc: string) returns (w': World)
    requires Leads(cfg, w0, h, w) && AtWork(w, inc, PlannerNode)
    ensures Leads(cfg, w0, h + [Step(inc, Planned(DECISION, Acknowledged), [])], w')
    ensures Stands(w', inc, CriticNode, ThreadOf(w, inc)) && w'.gateway == w.gateway
    ensures ThreadOf(w', inc).ch.replanCount == ThreadOf(w, inc).ch.replanCount
  {
    hide Leads;
    DecisionIsComplete(ThreadOf(w, inc).ch);
    w' := PlayStep(cfg, w0, h, w, inc, Planned(DECISION, Acknowledged));
  }

  lemma PlayVerdict(cfg: P.Config, w0: World, h: seq<Move>, w: World, inc: string, decision: CriticDecision, t0: Thread)
    returns (w': World)
    requires Leads(cfg, w0, h, w) && Stands(w, inc, CriticNode, t0)
    ensures Leads(cfg, w0, h + [Step(inc, Critiqued(CriticVerdict(decision, "")), [])], w')
    ensures w'.gateway == w.gateway
    ensures var (ch, ch') := (ThreadOf(w, inc).ch, ThreadOf(w', inc).ch);
            && ch'.critic == Some(CriticVerdict(decision, ""))
            && ch'.replanCount == ch.replanCount + (if decision.RequestReplan? then 1 else 0)
            && Stands(w', inc, if decision.RequestReplan? && ch'.replanCount <= 1 then PlannerNode else PolicyNode, t0)
  {
    hide Leads;
    w' := PlayStep(cfg, w0, h, w, inc, Critiqued(CriticVerdict(decision, "")));
  }

  // ------------------------------------------------------------ the critic overruled

  /** From any idle incident, the critic can ask for a replan twice and be passed
      over: the run stands at the policy node against its last word. */
  lemma CriticCanBeOverruled(cfg: P.Config, w0: World, inc: string) returns (w: World, h: seq<Move>)
    requires Idle(w0, inc) && w0.store.incidents[inc].serviceName != ""
    ensures Leads(cfg, w0, h, w) && |h| <= 24
    ensures ThreadOf(w, inc).pos == At(PolicyNode) && GS.CriticObjects(ThreadOf(w, inc).ch)
  {
    hide Leads;
    w, h := PlayToPlanner(cfg, w0, inc);
    ghost var t0 := ThreadOf(w, inc);
    w := PlayPlan(cfg, w0, h, w, inc);
    h := h + [Step(inc, Planned(DECISION, Acknowledged), [])];
    w := PlayVerdict(cfg, w0, h, w, inc, RequestReplan, t0);
    h := h + [Step(inc, Critiqued(CriticVerdict(RequestReplan, "")), [])];
    w := PlayPlan(cfg, w0, h, w, inc);
    h := h + [Step(inc, Planned(DECISION, Acknowledged), [])];
    t0 := ThreadOf(w, inc);
    w := PlayVerdict(cfg, w0, h, w, inc, RequestReplan, t0);
    h := h + [Step(inc, Critiqued(CriticVerdict(RequestReplan, "")), [])];
  }

  // ------------------------------------------------------------ a human decides at the gate

  lemma PlayPolicy(cfg: P.Config, w0: World, h: seq<Move>, w: World, inc: string, t0: Thread) returns (w': World)
    requires Leads(cfg, w0, h, w) && Stands(w, inc, PolicyNode, t0)
    ensures Leads(cfg, w0, h + [Step(inc, Decided(RequireHumanApproval), [])], w') && w'.gateway == w.gateway
    ensures Stands(w', inc, GateNode, t0)
  {
    hide Leads;
    w' := PlayStep(cfg, w0, h, w, inc, Decided(RequireHumanApproval));
  }

  /** The run waits at its interrupt, showing the plan. */
  predicate Waits(w: World, inc: string, t0: Thread) {
    var t := ThreadOf(w, inc);
    && inc in w.store.incidents && !t.active && t.pos == Interrupted && t.ch.action == Some(ACTION)
    && t.ch.serviceName != "" && KeepsAnswers(t, t0)
  }

  lemma PlayGate(cfg: P.Config, w0: World, h: seq<Move>, w: World, inc: string, t0: Thread) returns (w': World)
    requires Leads(cfg, w0, h, w) && Stands(w, inc, GateNode, t0)
    ensures Leads(cfg, w0, h + [Step(inc, Go, [])], w') && w'.gateway == w.gateway && Waits(w', inc, t0)
  {
    hide Leads;
    w' := PlayStep(cfg, w0, h, w, inc, Go);
  }

  lemma PlayToInterrupt(cfg: P.Config, w0: World, inc: string) returns (w: World, h: seq<Move>)
    requires Idle(w0, inc) && w0.store.incidents[inc].serviceName != ""
    ensures Leads(cfg, w0, h, w) && |h| <= 24 && w.gateway == w0.gateway
    ensures var t := ThreadOf(w, inc);
            && inc in w.store.incidents && !t.active && t.pos == Interrupted && t.ch.action == Some(ACTION)
            && t.ch.serviceName != "" && t.ch.playbookKey == w0.store.incidents[inc].playbookKey
            && t.ch.receipt == ThreadOf(w0, inc).ch.receipt
  {
    hide Leads;
    w, h := PlayToPlanner(cfg, w0, inc);
    ghost var t0 := ThreadOf(w, inc);
    w := PlayPlan(cfg, w0, h, w, inc);
    h := h + [Step(inc, Planned(DECISION, Acknowledged), [])];
    w := PlayVerdict(cfg, w0, h, w, inc, ApprovePlan, t0);
    h := h + [Step(inc, Critiqued(CriticVerdict(ApprovePlan, "")), [])];
    w := PlayPolicy(cfg, w0, h, w, inc, t0);
    h := h + [Step(inc, Decided(RequireHumanApproval), [])];
    w := PlayGate(cfg, w0, h, w, inc, t0);
    h := h + [Step(inc, Go, [])];
  }

  /** The gateway answers a call of an incident without rows: not rolled back. */
  lemma PlayCount(cfg: P.Config, w0: World, h: seq<Move>, w: World, inc: string, n: nat, key: string) returns (w': World)
    requires Leads(cfg, w0, h, w) && n < |w.gateway.calls| && !P.HasRow(w.gateway.rows, inc)
    requires w.gateway.calls[n] == P.Verify(VerifyRequest(inc, key), P.Count)
    requires ResolvePlaybookKey(key) in cfg.scenarios
    ensures Leads(cfg, w0, h + [GatewayMove(P.Step(n, Acknowledged, 0))], w')
    ensures w' == w.(gateway := w'.gateway) && n < |w'.gateway.calls|
    ensures var verdict := Verdict(cfg.scenarios[ResolvePlaybookKey(key)].before);
            w'.gateway.calls[n] == P.Verify(VerifyRequest(inc, key), P.VerifyReturned(verdict))
  {
    hide Leads;
    w' := PlayStatement(cfg, w0, h, w, n, Acknowledged);
  }

  const DRAFT := FinalReport("", "", "", "", [], [], [], [], [], None)

  predicate TurnedDown(w: World, inc: string, pos: Pos) {
    var t := ThreadOf(w, inc);
    && inc in w.store.incidents && t.active && t.pos == pos && t.ch.approval == "rejected" && t.ch.receipt.None?
  }

  lemma PlayToVerdict(cfg: P.Config, w0: World, h0: seq<Move>, w1: World, inc: string) returns (w: World, h: seq<Move>)
    requires Leads(cfg, w0, h0, w1) && TurnedDown(w1, inc, At(VerifyNode)) && VerifyAccepted(inc, ThreadOf(w1, inc).ch)
    requires !P.HasRow(w1.gateway.rows, inc)
    requires ResolvePlaybookKey(ThreadOf(w1, inc).ch.playbookKey) in cfg.scenarios
    ensures Leads(cfg, w0, h, w) && |h| <= |h0| + 3 && TurnedDown(w, inc, At(ReportNode))
  {
    hide Leads;
    ghost var (n, key) := (|w1.gateway.calls|, ThreadOf(w1, inc).ch.playbookKey);
    w := PlayStep(cfg, w0, h0, w1, inc, Go);
    h := h0 + [Step(inc, Go, [])];
    w := PlayCount(cfg, w0, h, w, inc, n, key);
    h := h + [GatewayMove(P.Step(n, Acknowledged, 0))];
    w := PlayStep(cfg, w0, h, w, inc, Go);
    h := h + [Step(inc, Go, [])];
  }

  lemma PlayReport(cfg: P.Config, w0: World, h: seq<Move>, w: World, inc: string) returns (w': World)
    requires Leads(cfg, w0, h, w) && TurnedDown(w, inc, At(ReportNode))
    ensures Leads(cfg, w0, h + [Step(inc, Reported(DRAFT, Acknowledged), [])], w')
    ensures ThreadOf(w', inc).pos == Ended && GR.AnswersRejected(ThreadOf(w', inc).ch)
    ensures inc in w'.store.incidents && w'.store.incidents[inc].status == "diagnosed"
  {
    hide Leads;
    w' := PlayStep(cfg, w0, h, w, inc, Reported(DRAFT, Acknowledged));
  }

  /** From any idle incident that was never rolled back, a refused run can end with
      the answer "rejected" and the stored status "diagnosed". */
  lemma RefusedRunCanBeStoredAsDiagnosed(cfg: P.Config, w0: World, inc: string) returns (w: World, h: seq<Move>)
    requires Idle(w0, inc) && w0.store.incidents[inc].serviceName != "" && inc != ""
    requires ThreadOf(w0, inc).ch.receipt.None? && !P.HasRow(w0.gateway.rows, inc)
    requires ResolvePlaybookKey(w0.store.incidents[inc].playbookKey) in cfg.scenarios
    ensures Leads(cfg, w0, h, w) && |h| <= 30
    ensures ThreadOf(w, inc).pos == Ended && GR.AnswersRejected(ThreadOf(w, inc).ch)
    ensures inc in w.store.incidents && w.store.incidents[inc].status == "diagnosed"
  {
    hide Leads;
    w, h := PlayToInterrupt(cfg, w0, inc);
    w := PlayReview(cfg, w0, h, w, inc, false, "bob");
    h := h + [Resume(inc, false, "bob", "", Acknowledged, [])];
    w, h := PlayToVerdict(cfg, w0, h, w, inc);
    w := PlayReport(cfg, w0, h, w, inc);
    h := h + [Step(inc, Reported(DRAFT, Acknowledged), [])];
  }

  // ------------------------------------------------------------ a refusal that comes too late

  /** The database refuses every statement of a call that has just begun. */
  lemma PlayOutage(cfg: P.Config, w0: World, h0: seq<Move>, w1: World, n: nat, req: RollbackRequest)
    returns (w: World, h: seq<Move>)
    requires Leads(cfg, w0, h0, w1) && n < |w1.gateway.calls| && w1.gateway.calls[n] == P.Rollback(req, P.FirstPc(cfg))
    ensures Leads(cfg, w0, h, w) && |h| <= |h0| + 3
    ensures w == w1.(gateway := w.gateway) && n < |w.gateway.calls|
    ensures w.gateway.calls[n] == P.Rollback(req, P.Returned(DbError))
  {
    hide Leads;
    w := PlayStatement(cfg, w0, h0, w1, n, Refused);
    h := h0 + [GatewayMove(P.Step(n, Refused, 0))];
    w := PlayStatement(cfg, w0, h, w, n, Refused);
    h := h + [GatewayMove(P.Step(n, Refused, 0))];
    w := PlayStatement(cfg, w0, h, w, n, Refused);
    h := h + [GatewayMove(P.Step(n, Refused, 0))];
  }

  /** The plan is approved, and the rollback is next. */
  predicate Granted(t: Thread, inc: string, decider: string) {
    && t.pos == At(RollbackNode) && t.ch.action == Some(ACTION) && inc != ""
    && t.ch.approval == "approved" && t.ch.reviewer == Some(decider)
  }

  /** An approved rollback fails in the gateway: the run stands at its rollback,
      approved, and is not running. */
  lemma PlayFailedRollback(cfg: P.Config, w0: World, h0: seq<Move>, w1: World, inc: string, decider: string)
    returns (w: World, h: seq<Move>)
    requires Leads(cfg, w0, h0, w1) && inc in w1.store.incidents
    requires Granted(ThreadOf(w1, inc), inc, decider) && ThreadOf(w1, inc).active
    ensures Leads(cfg, w0, h, w) && |h| <= |h0| + 5 && inc in w.store.incidents
    ensures Granted(ThreadOf(w, inc), inc, decider) && !ThreadOf(w, inc).active
  {
    hide Leads;
    ghost var (n, req) := (|w1.gateway.calls|, RequestFor(inc, ThreadOf(w1, inc).ch, ACTION));
    w := PlayStep(cfg, w0, h0, w1, inc, Go);
    h := h0 + [Step(inc, Go, [])];
    w, h := PlayOutage(cfg, w0, h, w, n, req);
    w := PlayStep(cfg, w0, h, w, inc, Go);
    h := h + [Step(inc, Go, [])];
  }

  /** The incident is stored as rejected while the run goes on to roll back, in the
      name of the one who approved. */
  predicate RollsBackAfterRefusal(w: World, inc: string, granter: string, refuser: string) {
    var (t, calls) := (ThreadOf(w, inc), w.gateway.calls);
    && inc in w.store.incidents && w.store.incidents[inc].status == "rejected"
    && w.store.incidents[inc].approval == Some(IS.Approval("rejected", refuser, ""))
    && |t.trace| > 1 && t.trace[|t.trace| - 2] == Reviewed(false, refuser, "")
    && t.trace[|t.trace| - 1].RollbackRequested? && t.trace[|t.trace| - 1].req.requestedBy == granter
    && |calls| > 0 && calls[|calls| - 1].Rollback? && calls[|calls| - 1].req == t.trace[|t.trace| - 1].req
    && !GR.AnswersRejected(t.ch)
  }

  lemma ThreadsKnown(cfg: P.Config, w: World, moves: seq<Move>, inc: string)
    requires ReachedBy(cfg, w, moves) && Loaded(ThreadOf(w, inc).pos)
    ensures inc in w.store.incidents
  {
    ReachedThread(cfg, w, moves, inc);
  }

  /** Whoever refuses by `resume` while a rollback is pending: the request is sent
      after the stored refusal exactly when the run was not waiting at its interrupt. */
  lemma RefusalIsPassedOverExactlyWhen(cfg: P.Config, w: World, moves: seq<Move>, inc: string,
                                       reviewer: string, comment: string)
    requires ReachedBy(cfg, w, moves) && GR.AboutToRollBack(ThreadOf(w, inc)) && ReviewAdmitted(reviewer)
    requires GR.RequestReady(inc, ThreadOf(w, inc).ch)
    ensures var t := ThreadOf(w, inc);
            var asked := [Reviewed(false, reviewer, comment), RollbackRequested(RequestFor(inc, t.ch, t.ch.action.value))];
            var t' := ThreadOf(Next(cfg, Next(cfg, w, GR.Refuse(inc, reviewer, comment)), Step(inc, Go, [])), inc);
            t'.trace == t.trace + asked <==> t.pos != Interrupted
  {
    ThreadsKnown(cfg, w, moves, inc);
    var (t, refuse) := (ThreadOf(w, inc), GR.Refuse(inc, reviewer, comment));
    PassedOver(inc, t, w.store.incidents, reviewer, comment, Next(cfg, w, refuse).gateway.calls,
               Next(cfg, w, refuse).store.incidents);
    NextAfter(cfg, w, refuse);
    hide Next;
    GoesOn(cfg, Next(cfg, w, refuse), inc);
  }

  lemma PassedOver(inc: string, t: Thread, incidents: map<string, IS.Incident>, reviewer: string, comment: string,
                   calls: seq<P.Call>, incidents': map<string, IS.Incident>)
    requires GR.AboutToRollBack(t) && inc in incidents && ReviewAdmitted(reviewer) && GR.RequestReady(inc, t.ch)
    ensures var resumed := ResumeStep(inc, t, incidents, false, reviewer, comment, Acknowledged).thread;
            var asked := [Reviewed(false, reviewer, comment), RollbackRequested(RequestFor(inc, t.ch, t.ch.action.value))];
            && resumed.active
            && (NodeStep(inc, resumed, incidents', calls, Go).thread.trace == t.trace + asked <==> t.pos != Interrupted)
  {
    GR.AfterRefusedResume(inc, t, incidents, |calls|, reviewer, comment);
    TwoMore(t.trace, Reviewed(false, reviewer, comment), GateDecided(false, reviewer),
            RollbackRequested(RequestFor(inc, t.ch, t.ch.action.value)));
  }

  lemma TwoMore(trace: seq<Event>, a: Event, b: Event, c: Event)
    ensures trace + [a] + [c] == trace + [a, c]
    ensures b != c ==> trace + [a] + [b] != trace + [a, c]
  {
    assert (trace + [a] + [b])[|trace| + 1] == b && (trace + [a, c])[|trace| + 1] == c;
  }

  lemma GoesOn(cfg: P.Config, w: World, inc: string)
    requires ThreadOf(w, inc).active
    ensures ThreadOf(Next(cfg, w, Step(inc, Go, [])), inc)
         == NodeStep(inc, ThreadOf(w, inc), w.store.incidents, w.gateway.calls, Go).thread
  {
    NextAfter(cfg, w, Step(inc, Go, []));
  }

  lemma PlayLateRefusal(cfg: P.Config, w0: World, h0: seq<Move>, w1: World, inc: string)
    returns (w: World, h: seq<Move>)
    requires Leads(cfg, w0, h0, w1) && inc in w1.store.incidents
    requires Granted(ThreadOf(w1, inc), inc, "alice") && !ThreadOf(w1, inc).active
    ensures Leads(cfg, w0, h, w) && |h| <= |h0| + 2 && RollsBackAfterRefusal(w, inc, "alice", "bob")
  {
    hide Leads;
    w := PlayReview(cfg, w0, h0, w1, inc, false, "bob");
    h := h0 + [Resume(inc, false, "bob", "", Acknowledged, [])];
    w := PlayStep(cfg, w0, h, w, inc, Go);
    h := h + [Step(inc, Go, [])];
  }

  /** From any idle incident: approve, let the gateway fail, refuse the resume. The
      rollback is sent all the same. */
  lemma RefusalCanComeTooLate(cfg: P.Config, w0: World, inc: string) returns (w: World, h: seq<Move>)
    requires Idle(w0, inc) && w0.store.incidents[inc].serviceName != "" && inc != ""
    ensures Leads(cfg, w0, h, w) && |h| <= 32 && RollsBackAfterRefusal(w, inc, "alice", "bob")
  {
    hide Leads;
    w, h := PlayToInterrupt(cfg, w0, inc);
    w := PlayReview(cfg, w0, h, w, inc, true, "alice");
    h := h + [Resume(inc, true, "alice", "", Acknowledged, [])];
    w, h := PlayFailedRollback(cfg, w0, h, w, inc, "alice");
    w, h := PlayLateRefusal(cfg, w0, h, w, inc);
  }

  // ------------------------------------------------------------ from the empty system

  const REQUEST := IS.CreateRequest("order-api", "critical", "errors", "", Some(IncidentContext("c", "n", "v2", "v1")))

  /** An incident has just been created, and nothing else has happened. */
  predicate JustCreated(w: World, inc: string) {
    && Idle(w, inc) && inc != "" && ThreadOf(w, inc) == NewThread && w.gateway == P.Empty
    && w.store.incidents[inc].serviceName == "order-api"
    && w.store.incidents[inc].playbookKey == "release_config_regression"
  }

  lemma PlayCreate(cfg: P.Config) returns (w: World, inc: string)
    ensures Leads(cfg, Origin, [CreateIncident(0, REQUEST)], w) && JustCreated(w, inc)
  {
    hide Leads;
    w := Next(cfg, Origin, CreateIncident(0, REQUEST));
    inc := IS.IncidentId(0, 1);
    LeadsOne(cfg, Origin, CreateIncident(0, REQUEST));
  }

  lemma Reached(cfg: P.Config, mid: World, h: seq<Move>, w: World)
    requires Leads(cfg, Origin, [CreateIncident(0, REQUEST)], mid) && Leads(cfg, mid, h, w) && |h| <= 32
    ensures ReachedBy(cfg, w, [CreateIncident(0, REQUEST)] + h)
  {
    LeadsOn(cfg, Origin, [CreateIncident(0, REQUEST)], mid, h, w);
    LeadsThere(cfg, Origin, [CreateIncident(0, REQUEST)] + h, w);
  }

  /** All three corners are reached from the empty system. */
  predicate OverruledAfter(cfg: P.Config, moves: seq<Move>, inc: string) {
    var t := ThreadOf(Run(cfg, Origin, moves), inc);
    |moves| < T.TWO_TO_64 && t.pos == At(PolicyNode) && GS.CriticObjects(t.ch)
  }

  lemma CriticIsOverruledSomewhere(cfg: P.Config)
    ensures exists moves, inc :: OverruledAfter(cfg, moves, inc)
  {
    hide Leads;
    var mid, inc := PlayCreate(cfg);
    var w, h := CriticCanBeOverruled(cfg, mid, inc);
    Reached(cfg, mid, h, w);
    assert OverruledAfter(cfg, [CreateIncident(0, REQUEST)] + h, inc);
  }

  predicate StoredAsDiagnosedAfter(cfg: P.Config, moves: seq<Move>, inc: string) {
    var w := Run(cfg, Origin, moves);
    && |moves| < T.TWO_TO_64 && inc in w.store.incidents && w.store.incidents[inc].status == "diagnosed"
    && ThreadOf(w, inc).pos == Ended && GR.AnswersRejected(ThreadOf(w, inc).ch)
  }

  lemma StatusesDifferSomewhere(cfg: P.Config)
    requires "release_config_regression" in cfg.scenarios
    ensures exists moves, inc :: StoredAsDiagnosedAfter(cfg, moves, inc)
  {
    hide Leads;
    var mid, inc := PlayCreate(cfg);
    var w, h := RefusedRunCanBeStoredAsDiagnosed(cfg, mid, inc);
    Reached(cfg, mid, h, w);
    assert StoredAsDiagnosedAfter(cfg, [CreateIncident(0, REQUEST)] + h, inc);
  }

  predicate LateRefusalAfter(cfg: P.Config, moves: seq<Move>, inc: string) {
    |moves| < T.TWO_TO_64 && RollsBackAfterRefusal(Run(cfg, Origin, moves), inc, "alice", "bob")
  }

  lemma RefusalIsPassedOverSomewhere(cfg: P.Config)
    ensures exists moves, inc :: LateRefusalAfter(cfg, moves, inc)
  {
    hide Leads;
    var mid, inc := PlayCreate(cfg);
    var w, h := RefusalCanComeTooLate(cfg, mid, inc);
    Reached(cfg, mid, h, w);
    assert LateRefusalAfter(cfg, [CreateIncident(0, REQUEST)] + h, inc);
  }
}
