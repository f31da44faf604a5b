/** The incident store under the whole system: its invariant, and the balance
    between audit writes attempted, failed and recorded. */
module GraphAudit {
  import opened Common
  import opened Graph
  import opened GraphInvariant
  import G = Gateway
  import M = Models
  import PL = Planner
  import R = Report
  import T = Text
  import IS = IncidentStore
  import P = RollbackProtocol

  /** Every audit write that was attempted is recorded or counted as a failure;
      both only when its acknowledgement was lost. */
  predicate Balanced(store: IS.State, audit: Audit) {
    store.events.counter + store.runs.counter + audit.failed == audit.attempted + audit.lost
    && audit.lost <= audit.failed <= audit.attempted
  }

  predicate Below(store: IS.State, n: nat) {
    store.counter <= n && store.events.counter <= n && store.runs.counter <= n
  }

  ghost predicate StoreInv(store: IS.State, audit: Audit, n: nat) {
    IS.Inv(store) && Balanced(store, audit) && Below(store, n)
  }

  /** No move makes more audit writes than this. */
  const MOST: nat := 4

  /** Few audit writes, and at most one analysis, report or decided review. */
  predicate Modest(e: Effect) {
    |e.audits| <= MOST &&
    (e.write.Some? ==> Saves(e.write.value))
  }

  predicate Saves(op: IS.Op) {
    op.SaveAnalysis? || op.SaveReport? || (op.Review? && IS.ReviewsDecide(op))
  }

  lemma SaveIsModest(inc: string, t: Thread, plan: PL.Plan, save: Reply)
    ensures Modest(SaveStep(inc, t, plan, save))
  {
  }

  lemma FinishIsModest(inc: string, t: Thread, final: M.FinalReport, save: Reply)
    ensures Modest(FinishStep(inc, t, final, save))
  {
  }

  /** An agent that raises is recorded as failed under its own name. */
  lemma FailuresAreNamed(t: Thread)
    requires t.pos in {At(Triage), At(PlannerNode), At(CriticNode), At(PolicyNode), At(ReportNode)}
    ensures var name :=
              if t.pos == At(Triage) then "triage_agent"
              else if t.pos == At(PlannerNode) then "planner_agent"
              else if t.pos == At(CriticNode) then "critic_agent"
              else if t.pos == At(PolicyNode) then "policy_agent" else "report_agent";
            AbortAudits(t) == [IS.Event("agent_started", "agent", name), IS.AgentRun(name, "", "failed"),
                               IS.Event("agent_failed", "agent", name)]
  {
  }

  lemma NodeIsModest(inc: string, t: Thread, incidents: map<string, IS.Incident>, calls: seq<P.Call>, answer: Answer)
    ensures Modest(NodeStep(inc, t, incidents, calls, answer))
  {
    if t.pos == At(PlannerNode) && answer.Planned? {
      SaveIsModest(inc, t, PlanOf(t.ch, answer.decision), answer.save);
    } else if t.pos == At(ReportNode) && answer.Reported? {
      FinishIsModest(inc, t, R.FinishReport(answer.report, t.ch.verification, t.ch.receipt), answer.saveReport);
    }
  }

  lemma EffectIsModest(w: World, move: Move)
    requires ThreadMove(move)
    ensures Modest(EffectOf(w, move))
  {
    if move.Step? {
      NodeIsModest(move.inc, ThreadOf(w, move.inc), w.store.incidents, w.gateway.calls, move.answer);
    }
  }

  lemma SaveStaysInv(store: IS.State, audit: Audit, n: nat, op: IS.Op)
    requires StoreInv(store, audit, n) && n + 1 < T.TWO_TO_63 && Saves(op)
    ensures StoreInv(IS.Apply(store, op).0, audit, n) && IS.Preserves(store, IS.Apply(store, op).0)
  {
    IS.ApplyStaysInv(store, op);
  }

  lemma CreateStaysInv(store: IS.State, audit: Audit, n: nat, nanos: int, req: IS.CreateRequest)
    requires StoreInv(store, audit, n) && n + 1 < T.TWO_TO_63
    ensures var store' := HandleCreate(store, nanos, req);
            StoreInv(store', audit, n + 1) && IS.Preserves(store, store')
  {
    if Admitted(req) {
      IS.ApplyStaysInv(store, IS.Create(nanos, req.(playbookKey := G.ResolvePlaybookKey(req.playbookKey))));
    }
  }

  lemma RecordCounts(store: IS.State, audit: Audit, n: nat, inc: string, body: IS.Body, reply: Reply)
    requires Balanced(store, audit) && Below(store, n) && n + 1 < T.TWO_TO_63
    ensures var (store', audit') := AuditOne(store, audit, inc, body, reply);
            Balanced(store', audit') && Below(store', n + 1)
  {
  }

  lemma RecordStaysInv(store: IS.State, audit: Audit, n: nat, inc: string, body: IS.Body, reply: Reply)
    requires StoreInv(store, audit, n) && n + 1 < T.TWO_TO_63
    ensures var (store', audit') := AuditOne(store, audit, inc, body, reply);
            StoreInv(store', audit', n + 1) && IS.Preserves(store, store')
  {
    RecordCounts(store, audit, n, inc, body, reply);
    assert IS.HasRoom(store, 1);
    IS.ApplyStaysInv(store, RecordOp(inc, body));
  }

  lemma {:induction false} AuditsStayInv(store: IS.State, audit: Audit, n: nat, inc: string,
                                         bodies: seq<IS.Body>, replies: seq<Reply>)
    requires StoreInv(store, audit, n) && n + |bodies| < T.TWO_TO_63
    ensures var (store', audit') := AuditAll(store, audit, inc, bodies, replies);
            StoreInv(store', audit', n + |bodies|) && IS.Preserves(store, store')
    decreases |bodies|
  {
    if bodies != [] {
      var reply := if replies == [] then Acknowledged else replies[0];
      var rest := if replies == [] then [] else replies[1..];
      RecordStaysInv(store, audit, n, inc, bodies[0], reply);
      var (store', audit') := AuditOne(store, audit, inc, bodies[0], reply);
      AuditsStayInv(store', audit', n + 1, inc, bodies[1..], rest);
      IS.PreservesTransitive(store, store', AuditAll(store', audit', inc, bodies[1..], rest).0);
    }
  }

  lemma Loosen(store: IS.State, audit: Audit, m: nat, n: nat)
    requires StoreInv(store, audit, m) && m <= n
    ensures StoreInv(store, audit, n)
  {
  }

  lemma EffectStaysInv(cfg: P.Config, w: World, inc: string, e: Effect, replies: seq<Reply>, n: nat)
    requires StoreInv(w.store, w.audit, n) && n + MOST < T.TWO_TO_63 && Modest(e)
    ensures var w' := ApplyEffect(cfg, w, inc, e, replies);
            StoreInv(w'.store, w'.audit, n + MOST) && IS.Preserves(w.store, w'.store)
  {
    var written := WriteStore(w.store, e.write);
    if e.write.Some? { SaveStaysInv(w.store, w.audit, n, e.write.value); }
    AuditsStayInv(written, w.audit, n, inc, e.audits, replies);
    var (store', audit') := AuditAll(written, w.audit, inc, e.audits, replies);
    IS.PreservesTransitive(w.store, written, store');
    Loosen(store', audit', n + |e.audits|, n + MOST);
  }

  lemma ThreadMoveStaysInv(cfg: P.Config, w: World, move: Move, n: nat)
    requires StoreInv(w.store, w.audit, n) && n + MOST < T.TWO_TO_63 && ThreadMove(move)
    ensures var w' := Next(cfg, w, move);
            StoreInv(w'.store, w'.audit, n + MOST) && IS.Preserves(w.store, w'.store)
  {
    EffectIsModest(w, move);
    EffectStaysInv(cfg, w, move.inc, EffectOf(w, move), AuditReplies(move), n);
  }

  lemma DirectMoveStaysInv(cfg: P.Config, w: World, move: Move, n: nat)
    requires StoreInv(w.store, w.audit, n) && n + MOST < T.TWO_TO_63 && !ThreadMove(move)
    ensures var w' := Next(cfg, w, move);
            StoreInv(w'.store, w'.audit, n + MOST) && IS.Preserves(w.store, w'.store)
  {
    match move {
      case CreateIncident(nanos, req) => CreateStaysInv(w.store, w.audit, n, nanos, req);
      case GatewayMove(_) =>
    }
  }

  lemma {:induction false} RunStaysInv(cfg: P.Config, w: World, moves: seq<Move>, n: nat)
    requires StoreInv(w.store, w.audit, n) && n + MOST * |moves| < T.TWO_TO_63
    ensures var w' := Run(cfg, w, moves);
            StoreInv(w'.store, w'.audit, n + MOST * |moves|) && IS.Preserves(w.store, w'.store)
    decreases |moves|
  {
    if moves != [] {
      var front := moves[..|moves| - 1];
      var (mid, move, m) := (Run(cfg, w, front), moves[|moves| - 1], n + MOST * |front|);
      RunStaysInv(cfg, w, front, n);
      if ThreadMove(move) { ThreadMoveStaysInv(cfg, mid, move, m); } else { DirectMoveStaysInv(cfg, mid, move, m); }
      IS.PreservesTransitive(w.store, mid.store, Run(cfg, w, moves).store);
    }
  }

  /** Over every history of the whole system, below the counters' limits: the
      failure counter and the logs account for every audit write, log ids are
      exactly 1..counter, each incident's status agrees with its payload, and
      nothing recorded is ever lost or rewritten. */
  lemma AuditsAreAccountedFor(cfg: P.Config, earlier: seq<Move>, later: seq<Move>)
    requires MOST * |earlier + later| < T.TWO_TO_63
    ensures var (w, w') := (Run(cfg, Origin, earlier), Run(cfg, Origin, earlier + later));
            Balanced(w'.store, w'.audit) && IS.Inv(w'.store) && IS.Preserves(w.store, w'.store)
  {
    RunStaysInv(cfg, Origin, earlier, 0);
    RunStaysInv(cfg, Run(cfg, Origin, earlier), later, MOST * |earlier|);
    RunAppend(cfg, Origin, earlier, later);
  }
}
