/** The graph runner: node closures, audit writers, `run` and `resume` as methods
    that update the thread's channels and call the other services. Each makes the
    machine's move and so keeps the invariant; its contract says what a caller finds
    changed, and what the change can be relied on for. */
module GraphRunner {
  import opened Common
  import opened Models
  import opened Planner
  import opened Graph
  import opened GraphInvariant
  import GO = GraphOrigins
  import GP = GraphProgress
  import GR = GraphReviews
  import GS = GraphSafety
  import G = Gateway
  import R = Report
  import IS = IncidentStore
  import P = RollbackProtocol

  // ------------------------------------------------------------ writes and audits commute

  lemma AuditOneThenWrite(store: IS.State, audit: Audit, inc: string, body: IS.Body, reply: Reply, write: Option<IS.Op>)
    requires write.Some? ==> !write.value.Create? && !write.value.RecordEvent? && !write.value.RecordRun?
    ensures var (store', audit') := AuditOne(store, audit, inc, body, reply);
            AuditOne(WriteStore(store, write), audit, inc, body, reply) == (WriteStore(store', write), audit')
  {
  }

  /** An agent's audit writes come before its result is saved; the machine applies
      the save first. */
  lemma {:induction false} AuditThenWrite(store: IS.State, audit: Audit, inc: string, bodies: seq<IS.Body>,
                                          replies: seq<Reply>, write: Option<IS.Op>)
    requires write.Some? ==> !write.value.Create? && !write.value.RecordEvent? && !write.value.RecordRun?
    ensures var (store', audit') := AuditAll(store, audit, inc, bodies, replies);
            AuditAll(WriteStore(store, write), audit, inc, bodies, replies) == (WriteStore(store', write), audit')
    decreases |bodies|
  {
    if bodies != [] {
      var reply := if replies == [] then Acknowledged else replies[0];
      var (store', audit') := AuditOne(store, audit, inc, bodies[0], reply);
      AuditOneThenWrite(store, audit, inc, bodies[0], reply, write);
      AuditThenWrite(store', audit', inc, bodies[1..], if replies == [] then [] else replies[1..], write);
    }
  }

  lemma AuditOneByOne(store: IS.State, audit: Audit, inc: string, body: IS.Body, reply: Reply)
    ensures AuditAll(store, audit, inc, [body], [reply]) == AuditOne(store, audit, inc, body, reply)
  {
  }

  lemma AuditThree(store: IS.State, audit: Audit, inc: string, b0: IS.Body, b1: IS.Body, b2: IS.Body,
                   r0: Reply, r1: Reply, r2: Reply)
    ensures var (s1, a1) := AuditOne(store, audit, inc, b0, r0);
            var (s2, a2) := AuditOne(s1, a1, inc, b1, r1);
            AuditAll(store, audit, inc, [b0, b1, b2], [r0, r1, r2]) == AuditOne(s2, a2, inc, b2, r2)
  {
    var (s1, a1) := AuditOne(store, audit, inc, b0, r0);
    var (s2, a2) := AuditOne(s1, a1, inc, b1, r1);
    assert [b0, b1, b2][1..] == [b1, b2] && [r0, r1, r2][1..] == [r1, r2];
    assert [b1, b2][1..] == [b2] && [r1, r2][1..] == [r2];
    assert AuditAll(s2, a2, inc, [b2], [r2]) == AuditOne(s2, a2, inc, b2, r2);
    assert AuditAll(s1, a1, inc, [b1, b2], [r1, r2]) == AuditAll(s2, a2, inc, [b2], [r2]);
  }

  /** A reply without an audit write to answer goes unused. */
  lemma {:induction false} AuditShorter(store: IS.State, audit: Audit, inc: string, bodies: seq<IS.Body>,
                                        replies: seq<Reply>, extra: Reply)
    requires |bodies| == |replies|
    ensures AuditAll(store, audit, inc, bodies, replies + [extra]) == AuditAll(store, audit, inc, bodies, replies)
    decreases |bodies|
  {
    if bodies != [] {
      var (store', audit') := AuditOne(store, audit, inc, bodies[0], replies[0]);
      assert (replies + [extra])[1..] == replies[1..] + [extra];
      AuditShorter(store', audit', inc, bodies[1..], replies[1..], extra);
    }
  }

  lemma {:induction false} AuditLonger(store: IS.State, audit: Audit, inc: string, bodies: seq<IS.Body>,
                                       replies: seq<Reply>, body: IS.Body, reply: Reply)
    requires |bodies| == |replies|
    ensures var (store', audit') := AuditAll(store, audit, inc, bodies, replies);
            AuditAll(store, audit, inc, bodies + [body], replies + [reply]) == AuditOne(store', audit', inc, body, reply)
    decreases |bodies|
  {
    if bodies == [] {
      assert bodies + [body] == [body] && replies + [reply] == [reply];
      AuditOneByOne(store, audit, inc, body, reply);
    } else {
      var (store', audit') := AuditOne(store, audit, inc, bodies[0], replies[0]);
      assert (replies + [reply])[1..] == replies[1..] + [reply] && (bodies + [body])[1..] == bodies[1..] + [body];
      AuditLonger(store', audit', inc, bodies[1..], replies[1..], body, reply);
    }
  }

  /** The report node's audit writes, with and without the last one. */
  lemma ReportAudits(store: IS.State, audit: Audit, inc: string, write: Option<IS.Op>, replies: seq<Reply>, last: Reply)
    requires |replies| == 3
    requires write.Some? ==> !write.value.Create? && !write.value.RecordEvent? && !write.value.RecordRun?
    ensures var bodies := AgentAudits("report_agent");
            var (store', audit') := AuditAll(store, audit, inc, bodies, replies);
            var written := WriteStore(store', write);
            && AuditAll(WriteStore(store, write), audit, inc, bodies, replies + [last]) == (written, audit')
            && AuditAll(WriteStore(store, write), audit, inc,
                        bodies + [IS.Event("report_saved", "system", "finalize_report")], replies + [last])
               == AuditOne(written, audit', inc, IS.Event("report_saved", "system", "finalize_report"), last)
  {
    var bodies := AgentAudits("report_agent");
    AuditThenWrite(store, audit, inc, bodies, replies, write);
    AuditShorter(WriteStore(store, write), audit, inc, bodies, replies, last);
    AuditLonger(WriteStore(store, write), audit, inc, bodies, replies,
                IS.Event("report_saved", "system", "finalize_report"), last);
  }

  // ------------------------------------------------------------ what the invariant says of a thread

  lemma Orderly(cfg: P.Config, w: World, inc: string)
    requires Inv(cfg, w)
    ensures ThreadOk(cfg, inc, ThreadOf(w, inc), w.store.incidents, w.gateway)
  {
  }

  /** The plan in the state is the plan that was saved last. */
  predicate PlanIsSaved(t: Thread) {
    t.ch.action == Summarize(t.trace).saved
  }

  lemma PlanAt(t: Thread, s: Summary)
    requires PosOk(t, s) && t.pos in {At(PolicyNode), At(GateNode), At(RollbackNode), Interrupted}
    ensures t.ch.action == s.saved && (t.pos != At(PolicyNode) ==> t.ch.action.Some?)
  {
  }

  lemma PlanWasSaved(cfg: P.Config, w: World, inc: string)
    requires Inv(cfg, w) && ThreadOf(w, inc).pos in {At(PolicyNode), At(GateNode), At(RollbackNode), Interrupted}
    ensures PlanIsSaved(ThreadOf(w, inc))
    ensures ThreadOf(w, inc).pos != At(PolicyNode) ==> ThreadOf(w, inc).ch.action.Some?
  {
    Orderly(cfg, w, inc);
    hide Inv, PosOk, SafeTrace, Summarize;
    PlanAt(ThreadOf(w, inc), Summarize(ThreadOf(w, inc).trace));
  }

  lemma ReplansAreFew(cfg: P.Config, w: World, inc: string)
    requires Inv(cfg, w) && ThreadOf(w, inc).pos == At(CriticNode)
    ensures ThreadOf(w, inc).ch.replanCount <= 1
  {
    Orderly(cfg, w, inc);
  }

  lemma JoinedIsNumbered(cfg: P.Config, w: World, inc: string)
    requires Inv(cfg, w) && ThreadOf(w, inc).pos.Gathering?
    ensures var (c, l, d) := (ThreadOf(w, inc).pos.change, ThreadOf(w, inc).pos.log, ThreadOf(w, inc).pos.dependency);
            c.Gathered? && l.Gathered? && d.Gathered? ==> Distinct(Ids(c.evidence + l.evidence + d.evidence))
  {
    Orderly(cfg, w, inc);
    var (c, l, d) := (ThreadOf(w, inc).pos.change, ThreadOf(w, inc).pos.log, ThreadOf(w, inc).pos.dependency);
    if c.Gathered? && l.Gathered? && d.Gathered? { EvidenceIdsDistinct(c.evidence, l.evidence, d.evidence); }
  }

  lemma BranchIsNumbered(cfg: P.Config, w: World, inc: string, b: Branch)
    requires Inv(cfg, w) && ThreadOf(w, inc).pos.Gathering?
    ensures BranchOk(b, GP.PcOf(ThreadOf(w, inc).pos, b))
  {
    Orderly(cfg, w, inc);
  }

  /** The latest event is a request that was authorised before. */
  ghost predicate JustAsked(inc: string, trace: seq<Event>, req: G.RollbackRequest) {
    && trace != [] && trace[|trace| - 1] == RollbackRequested(req)
    && GS.Authorised(inc, trace, |trace| - 1, req)
  }

  lemma SafeRequest(inc: string, trace: seq<Event>, req: G.RollbackRequest)
    requires SafeTrace(inc, trace) && trace != [] && trace[|trace| - 1] == RollbackRequested(req)
    ensures JustAsked(inc, trace, req)
  {
    hide SafeTrace;
    GS.RequestIsAuthorised(inc, trace, |trace| - 1);
  }

  predicate OnlyBranch(pos: Pos, pos': Pos, b: Branch) {
    && pos.Gathering? && pos'.Gathering?
    && forall other: Branch | other != b :: GP.PcOf(pos', other) == GP.PcOf(pos, other)
  }

  /** The branch is one await nearer its end exactly if it got the answer it waits
      for; at the end there is one numbered piece of evidence per finding. */
  predicate Progresses(b: Branch, pc: BranchPc, answer: BranchAnswer, next: BranchPc) {
    && GP.BranchLeft(next) == GP.BranchLeft(pc) - One(GP.BranchFits(pc, answer))
    && (next.Gathered? ==> NumberedWith(next.evidence, Prefix(b)))
    && (pc.Closing? && answer.Audited? ==> next.Gathered? && |next.evidence| == |pc.findings|)
  }

  lemma BranchProgresses(b: Branch, pc: BranchPc, answer: BranchAnswer)
    requires BranchOk(b, pc)
    ensures Progresses(b, pc, answer, BranchNext(b, pc, answer))
  {
  }

  lemma LastRequestIsAuthorised(cfg: P.Config, w: World, inc: string, req: G.RollbackRequest)
    requires Inv(cfg, w)
    requires ThreadOf(w, inc).trace != [] && ThreadOf(w, inc).trace[|ThreadOf(w, inc).trace| - 1] == RollbackRequested(req)
    ensures JustAsked(inc, ThreadOf(w, inc).trace, req)
  {
    Orderly(cfg, w, inc);
    hide Inv, Sound, SafeTrace, Summarize, JustAsked;
    SafeRequest(inc, ThreadOf(w, inc).trace, req);
  }

  lemma AnswerIsStored(cfg: P.Config, w: World, n: nat)
    requires Inv(cfg, w) && n < |w.gateway.calls|
    requires w.gateway.calls[n].Rollback? && w.gateway.calls[n].pc.Returned? && w.gateway.calls[n].pc.outcome.Succeeded()
    ensures P.Stores(w.gateway.rows, w.gateway.calls[n].req.idempotencyKey, w.gateway.calls[n].pc.outcome.receipt)
  {
    assert P.CallOk(cfg, w.gateway.rows, w.gateway.calls[n]);
  }

  lemma RecoveredHasRow(cfg: P.Config, w: World, inc: string)
    requires Inv(cfg, w) && G.NothingRecoveredBefore(cfg.scenarios)
    requires ThreadOf(w, inc).ch.verification.Some? && ThreadOf(w, inc).ch.verification.value.status == "recovered"
    ensures P.HasRow(w.gateway.rows, inc)
  {
    Orderly(cfg, w, inc);
  }

  /** The machine's resume, case by case. */
  lemma ResumeComesTo(cfg: P.Config, w: World, inc: string, approved: bool, reviewer: string, comment: string,
                      api: Reply, reply: Reply)
    requires !ThreadOf(w, inc).active
    ensures var t := ThreadOf(w, inc);
            var told := t.(trace := t.trace + [Reviewed(approved, reviewer, comment)]);
            var reviewed := IS.Apply(w.store, ReviewOp(inc, approved, reviewer, comment)).0;
            var audited := AuditOne(reviewed, w.audit, inc, IS.Event("approval_reviewed", "human", reviewer), reply);
            Next(cfg, w, Resume(inc, approved, reviewer, comment, api, [reply]))
            == if api.Refused? || !ReviewAdmitted(reviewer) || inc !in w.store.incidents
               then w.(threads := w.threads[inc := t])
               else if api.Lost? then w.(store := reviewed, threads := w.threads[inc := told])
               else World(audited.0, w.gateway, w.threads[inc := ResumeThread(told, approved, reviewer)], audited.1)
  {
    var reviewed := IS.Apply(w.store, ReviewOp(inc, approved, reviewer, comment)).0;
    AuditOneByOne(reviewed, w.audit, inc, IS.Event("approval_reviewed", "human", reviewer), reply);
    hide AuditOne;
  }

  // ------------------------------------------------------------ what the saving nodes save

  /** The incident is as before but for this. */
  predicate OnlyIncident(inc: string, incidents: map<string, IS.Incident>, incidents': map<string, IS.Incident>) {
    inc in incidents && incidents'.Keys == incidents.Keys && incidents' - {inc} == incidents - {inc}
  }

  /** A refused save leaves store and trace alone. Any other puts the decision, as
      the reasoner made it, on the trace and into the store, and an acknowledged one
      into the state. */
  predicate SavesDecision(inc: string, t: Thread, decision: PlannerDecision, save: Reply, t': Thread,
                          incidents: map<string, IS.Incident>, incidents': map<string, IS.Incident>)
  {
    var n := |t.trace|;
    if save.Refused? then incidents' == incidents && t' == t.(active := false)
    else
      && OnlyIncident(inc, incidents, incidents') && t.trace <= t'.trace
      && n < |t'.trace| && GO.RecordsDecision(t, decision, t'.trace[n])
      && incidents'[inc].analysis
         == Some(IS.Analysis(t'.trace[n].evidence, t'.trace[n].hypotheses, t'.trace[n].saved))
      && if save.Lost? then t'.ch == t.ch && t'.pos == t.pos && !t'.active
         else
           && t'.active && t'.pos == At(CriticNode)
           && t'.ch.hypotheses == t'.trace[n].hypotheses && t'.ch.action == t'.trace[n].saved
           && Annotates(decision, GO.RulesOn(t.ch), t'.ch.notes)
           && t'.ch == t.ch.(hypotheses := t'.ch.hypotheses, action := t'.ch.action, notes := t'.ch.notes, feedback := "")
  }

  lemma StepSavesDecision(inc: string, t: Thread, decision: PlannerDecision, save: Reply, incidents: map<string, IS.Incident>)
    requires t.active && t.pos == At(PlannerNode) && SchemaAdmits(decision) && inc in incidents
    ensures var e := SaveStep(inc, t, PlanOf(t.ch, decision), save);
            e.call.None? && SavesDecision(inc, t, decision, save, e.thread, incidents, WriteIncidents(incidents, e.write))
  {
    CompletionKeepsTheDecision(decision, t.ch.serviceName, Release(t.ch), Previous(t.ch),
                               t.ch.change, t.ch.log, t.ch.dependency);
    hide CompletePlan, PlanDiagnosis, Completes, Annotates, SchemaAdmits;
    assert incidents[inc := IS.Analysed(incidents[inc], IS.Analysis(Evidences(t.ch), PlanOf(t.ch, decision).hypotheses,
                                                                    PlanOf(t.ch, decision).action))] - {inc}
        == incidents - {inc};
  }

  /** Likewise for the report: the draft, finished, goes on the trace and into the
      store, and with an acknowledged save into the state of a run that has ended. */
  ghost predicate SavesReport(inc: string, t: Thread, draft: FinalReport, save: Reply, t': Thread,
                              incidents: map<string, IS.Incident>, incidents': map<string, IS.Incident>)
  {
    var n := |t.trace|;
    if save.Refused? then incidents' == incidents && t' == t.(active := false)
    else
      && OnlyIncident(inc, incidents, incidents') && t.trace <= t'.trace
      && n < |t'.trace| && t'.trace[n].ReportSaved?
      && R.Finishes(draft, t.ch.verification, t.ch.receipt, t'.trace[n].report)
      && incidents'[inc].report == Some(t'.trace[n].report)
      && !t'.active
      && if save.Lost? then t'.ch == t.ch && t'.pos == t.pos
         else t'.pos == Ended && t'.ch == t.ch.(report := Some(t'.trace[n].report))
  }

  lemma StepSavesReport(inc: string, t: Thread, draft: FinalReport, save: Reply, incidents: map<string, IS.Incident>)
    requires t.active && t.pos == At(ReportNode) && inc in incidents
    ensures var e := ReportStep(inc, t, draft, save);
            SavesReport(inc, t, draft, save, e.thread, incidents, WriteIncidents(incidents, e.write))
  {
    var final := R.FinishReport(draft, t.ch.verification, t.ch.receipt);
    R.ReportIsFinished(draft, t.ch.verification, t.ch.receipt);
    hide R.FinishReport, R.Finishes;
    assert incidents[inc := IS.Reported(incidents[inc], Some(final))] - {inc} == incidents - {inc};
  }

  lemma IncidentIsKnown(cfg: P.Config, w: World, inc: string)
    requires Inv(cfg, w) && Loaded(ThreadOf(w, inc).pos)
    ensures inc in w.store.incidents
  {
    Orderly(cfg, w, inc);
  }

  lemma Advanced(cfg: P.Config, w: World, inc: string, move: Move)
    requires Inv(cfg, w) && ThreadMove(move) && move.inc == inc && GP.Advances(w, inc, move)
    ensures GP.Measure(Next(cfg, w, move), inc) < GP.Measure(w, inc)
  {
    hide Inv, Next, GP.Advances, GP.Measure;
    GP.AdvancesShorten(cfg, w, inc, move);
  }

  lemma NotVerifiedYet(cfg: P.Config, w: World, inc: string)
    requires Inv(cfg, w) && ThreadOf(w, inc).pos == At(VerifyNode)
    ensures Summarize(ThreadOf(w, inc).trace).verifies == 0
  {
    Orderly(cfg, w, inc);
    hide Inv, SafeTrace, Summarize;
  }

  /** No policy decision or approval on the trace counts for the run that is current. */
  predicate ClearsNothing(trace: seq<Event>) {
    Fresh(Summarize(trace)) && Summarize(trace).saved.None? && Summarize(trace).shown.None?
  }

  lemma StartClearsNothing(trace: seq<Event>)
    ensures ClearsNothing(trace + [RunStarted])
  {
    Snoc("", trace, RunStarted);
  }

  /** The incident's list gained exactly these bodies, in this order, at its end. */
  predicate Logs(log: IS.Log, log': IS.Log, inc: string, bodies: seq<IS.Body>) {
    var (before, after) := (IS.Listed(log, inc), IS.Listed(log', inc));
    && |after| == |before| + |bodies| && before <= after
    && forall k | 0 <= k < |bodies| :: after[|before| + k].body == bodies[k]
  }

  // ------------------------------------------------------------ the runner

  class GraphRunner {
    const cfg: P.Config
    var store: IS.State
    var gateway: P.State
    var threads: map<string, Thread>
    var audit: Audit

    ghost function Contents(): World
      reads this
    {
      World(store, gateway, threads, audit)
    }

    ghost predicate Valid()
      reads this
    {
      Inv(cfg, Contents())
    }

    constructor (cfg: P.Config)
      ensures Contents() == Origin && this.cfg == cfg && Valid()
    {
      this.cfg := cfg;
      store, gateway, threads, audit := IS.Empty, P.Empty, map[], Audit(0, 0, 0);
      OriginInv(cfg);
    }

    predicate StandsAt(inc: string, pos: Pos)
      reads this
    {
      inc in threads && threads[inc].active && threads[inc].pos == pos
    }

    /** Everything but this thread and the audit log is as before. */
    twostate predicate OnlyThread(inc: string)
      reads this
    {
      && threads - {inc} == old(threads) - {inc} && gateway == old(gateway)
      && store.incidents == old(store.incidents) && store.counter == old(store.counter)
    }

    /** The invocation is over; a resume takes up the same node with the same values. */
    twostate predicate Raised(inc: string)
      requires inc in old(threads)
      reads this
    {
      inc in threads && threads[inc] == old(threads)[inc].(active := false, pos := threads[inc].pos) &&
      threads[inc].pos == Stop(old(threads)[inc]).pos
    }

    /** An exception in a node is counted and swallowed only by the audit writers. */
    method RecordEvent(inc: string, body: IS.Body, reply: Reply)
      modifies this`store, this`audit
      requires body.Event?
      ensures store.runs == old(store).runs
      ensures if inc in store.incidents && !reply.Refused?
              then Logs(old(store).events, store.events, inc, [body]) else store.events == old(store).events
      ensures (store, audit) == AuditOne(old(store), old(audit), inc, body, reply)
      ensures store.incidents == old(store).incidents && store.counter == old(store).counter
    {
      audit := audit.(attempted := audit.attempted + 1);
      var known := inc in store.incidents;
      if known && !reply.Refused? {
        store := store.(events := IS.Append(store.events, inc, body));
      }
      if !known || !reply.Acknowledged? {
        audit := audit.(failed := audit.failed + 1, lost := audit.lost + (if known && reply.Lost? then 1 else 0));
      }
    }

    method RecordAgentRun(inc: string, body: IS.Body, reply: Reply)
      modifies this`store, this`audit
      requires body.AgentRun?
      ensures store.events == old(store).events
      ensures if inc in store.incidents && !reply.Refused?
              then Logs(old(store).runs, store.runs, inc, [body]) else store.runs == old(store).runs
      ensures (store, audit) == AuditOne(old(store), old(audit), inc, body, reply)
      ensures store.incidents == old(store).incidents && store.counter == old(store).counter
    {
      audit := audit.(attempted := audit.attempted + 1);
      var known := inc in store.incidents;
      if known && !reply.Refused? {
        store := store.(runs := IS.Append(store.runs, inc, body));
      }
      if !known || !reply.Acknowledged? {
        audit := audit.(failed := audit.failed + 1, lost := audit.lost + (if known && reply.Lost? then 1 else 0));
      }
    }

    /** The audit frame around an agent that answers. */
    method RunAgent(inc: string, agent: string, r0: Reply, r1: Reply, r2: Reply)
      modifies this`store, this`audit
      ensures inc in store.incidents && Refused !in {r0, r1, r2} ==>
                && Logs(old(store).events, store.events, inc,
                        [IS.Event("agent_started", "agent", agent), IS.Event("agent_completed", "agent", agent)])
                && Logs(old(store).runs, store.runs, inc, [IS.AgentRun(agent, "", "completed")])
      ensures (store, audit) == AuditAll(old(store), old(audit), inc, AgentAudits(agent), [r0, r1, r2])
      ensures store.incidents == old(store).incidents && store.counter == old(store).counter
    {
      ghost var (s, a) := (store, audit);
      RecordEvent(inc, Started(agent), r0);
      RecordAgentRun(inc, Ran(agent, "completed"), r1);
      RecordEvent(inc, Finished(agent), r2);
      AuditThree(s, a, inc, Started(agent), Ran(agent, "completed"), Finished(agent), r0, r1, r2);
    }

    /** The audit frame around an agent that raises. */
    method FailAgent(inc: string, agent: string, r0: Reply, r1: Reply, r2: Reply)
      modifies this`store, this`audit
      ensures inc in store.incidents && Refused !in {r0, r1, r2} ==>
                && Logs(old(store).events, store.events, inc,
                        [IS.Event("agent_started", "agent", agent), IS.Event("agent_failed", "agent", agent)])
                && Logs(old(store).runs, store.runs, inc, [IS.AgentRun(agent, "", "failed")])
      ensures (store, audit) == AuditAll(old(store), old(audit), inc, FailureAudits(agent), [r0, r1, r2])
      ensures store.incidents == old(store).incidents && store.counter == old(store).counter
    {
      ghost var (s, a) := (store, audit);
      var failed := IS.Event("agent_failed", "agent", agent);
      RecordEvent(inc, Started(agent), r0);
      RecordAgentRun(inc, Ran(agent, "failed"), r1);
      RecordEvent(inc, failed, r2);
      AuditThree(s, a, inc, Started(agent), Ran(agent, "failed"), failed, r0, r1, r2);
    }

    /** An agent node whose reasoner raises: recorded, and the run keeps its place. */
    method RaiseInAgent(inc: string, agent: string, r0: Reply, r1: Reply, r2: Reply)
      requires Valid() && inc in threads && threads[inc].active && AbortAudits(threads[inc]) == FailureAudits(agent)
      modifies this
      ensures Valid() && Contents() == Next(cfg, old(Contents()), Abort(inc, [r0, r1, r2]))
      ensures OnlyThread(inc) && Raised(inc)
    {
      hide Inv, Logs, AuditAll, AuditOne;
      ghost var w := Contents();
      ThreadMoveOk(cfg, w, Abort(inc, [r0, r1, r2]));
      FailAgent(inc, agent, r0, r1, r2);
      threads := threads[inc := Stop(threads[inc])];
    }

    method LoadIncident(inc: string, reply: Reply)
      requires Valid() && StandsAt(inc, At(Node.LoadIncident))
      modifies this
      ensures Valid() && Contents() == Next(cfg, old(Contents()), Step(inc, Go, [reply]))
      ensures OnlyThread(inc) && inc in threads && threads[inc].trace == old(threads)[inc].trace
      ensures inc !in store.incidents ==> Raised(inc)
      ensures inc in store.incidents ==>
                && threads[inc].active && threads[inc].pos == At(Node.Triage)
                && ViewOk(inc, threads[inc], store.incidents) && threads[inc].ch.replanCount == 0
                && (var (ch, ch') := (old(threads)[inc].ch, threads[inc].ch);
                    ch' == ch.(serviceName := ch'.serviceName, playbookKey := ch'.playbookKey,
                               context := ch'.context, replanCount := ch'.replanCount))
    {
      hide Inv, Logs, AuditOne;
      ghost var w := Contents();
      ThreadMoveOk(cfg, w, Step(inc, Go, [reply]));
      var t := threads[inc];
      if inc !in store.incidents {
        threads := threads[inc := Stop(t)];
        return;
      }
      var incident := store.incidents[inc];
      AuditOneByOne(store, audit, inc, IS.Event("incident_loaded", "system", "load_incident"), reply);
      RecordEvent(inc, IS.Event("incident_loaded", "system", "load_incident"), reply);
      t := t.(ch := t.ch.(serviceName := incident.serviceName, playbookKey := incident.playbookKey,
                          context := incident.context, replanCount := 0));
      threads := threads[inc := t.(pos := At(Node.Triage))];
    }

    method Triage(inc: string, incidentType: string, r0: Reply, r1: Reply, r2: Reply)
      requires Valid() && StandsAt(inc, At(Node.Triage))
      modifies this
      ensures Valid() && Contents() == Next(cfg, old(Contents()), Step(inc, Triaged(incidentType), [r0, r1, r2]))
      ensures OnlyThread(inc) && inc in threads && threads[inc].active && threads[inc].trace == old(threads)[inc].trace
      ensures threads[inc].pos == Gathering(Querying, Querying, Querying)
      ensures threads[inc].ch == old(threads)[inc].ch.(incidentType := incidentType)
      ensures GP.Measure(Contents(), inc) < GP.Measure(old(Contents()), inc)
    {
      hide Inv, Logs, AuditAll, AuditOne;
      ghost var w := Contents();
      Advanced(cfg, w, inc, Step(inc, Triaged(incidentType), [r0, r1, r2]));
      ThreadMoveOk(cfg, w, Step(inc, Triaged(incidentType), [r0, r1, r2]));
      var t := threads[inc];
      RunAgent(inc, "triage_agent", r0, r1, r2);
      t := t.(ch := t.ch.(incidentType := incidentType));
      threads := threads[inc := t.(pos := Gathering(Querying, Querying, Querying))];
    }

    method CriticAgent(inc: string, verdict: CriticVerdict, r0: Reply, r1: Reply, r2: Reply)
      requires Valid() && StandsAt(inc, At(CriticNode))
      modifies this
      ensures Valid() && Contents() == Next(cfg, old(Contents()), Step(inc, Critiqued(verdict), [r0, r1, r2]))
      ensures OnlyThread(inc) && inc in threads && threads[inc].active
      ensures var (t, t') := (old(threads)[inc], threads[inc]);
              && t'.trace == t.trace + [Completed(CriticNode)]
              && t'.ch == t.ch.(critic := Some(verdict), feedback := verdict.reason, replanCount := t'.ch.replanCount)
              && t.ch.replanCount <= t'.ch.replanCount <= 2
              && (t'.ch.replanCount > t.ch.replanCount <==> verdict.decision.RequestReplan?)
              && t'.pos in {At(PlannerNode), At(PolicyNode)}
              && (t'.pos == At(PlannerNode) <==> verdict.decision.RequestReplan? && t.ch.replanCount == 0)
    {
      hide Inv, Logs, AuditAll, AuditOne;
      ghost var w := Contents();
      ThreadMoveOk(cfg, w, Step(inc, Critiqued(verdict), [r0, r1, r2]));
      ReplansAreFew(cfg, w, inc);
      var t := threads[inc];
      RunAgent(inc, "critic_agent", r0, r1, r2);
      var nextReplan := t.ch.replanCount;
      if verdict.decision.RequestReplan? {
        nextReplan := nextReplan + 1;
      }
      var ch := t.ch.(critic := Some(verdict), feedback := verdict.reason, replanCount := nextReplan);
      threads := threads[inc := t.(ch := ch, pos := At(RouteAfterCritic(ch)), trace := t.trace + [Completed(CriticNode)])];
    }

    method PolicyAgent(inc: string, decision: PolicyDecision, r0: Reply, r1: Reply, r2: Reply)
      requires Valid() && StandsAt(inc, At(PolicyNode))
      modifies this
      ensures Valid() && Contents() == Next(cfg, old(Contents()), Step(inc, Decided(decision), [r0, r1, r2]))
      ensures OnlyThread(inc) && inc in threads && threads[inc].active
      ensures var (t, t') := (old(threads)[inc], threads[inc]);
              && t'.trace == t.trace + [PolicyDecided(decision)] && t'.ch == t.ch.(policy := Some(decision))
              && PlanIsSaved(t)
              && t'.pos in {At(RollbackNode), At(VerifyNode), At(GateNode)}
              && (t'.pos == At(RollbackNode) <==> decision.Allow? && t.ch.action.Some?)
              && (t'.pos == At(VerifyNode) <==> decision.Deny? || t.ch.action.None?)
    {
      hide Inv, Logs, AuditAll, AuditOne;
      ghost var w := Contents();
      ThreadMoveOk(cfg, w, Step(inc, Decided(decision), [r0, r1, r2]));
      PlanWasSaved(cfg, w, inc);
      var t := threads[inc];
      RunAgent(inc, "policy_agent", r0, r1, r2);
      var ch := t.ch.(policy := Some(decision));
      threads := threads[inc := t.(ch := ch, pos := At(RouteAfterPolicy(ch)), trace := t.trace + [PolicyDecided(decision)])];
    }

    /** What an evidence branch does with one answer; wrong ones are not waited for. */
    method Await(inc: string, b: Branch, pc: BranchPc, answer: BranchAnswer) returns (next: BranchPc)
      modifies this`store, this`audit
      ensures next == BranchNext(b, pc, answer)
      ensures (store, audit) == AuditAll(old(store), old(audit), inc, BranchAudits(b, pc, answer),
                                         if answer.Audited? then [answer.reply] else [])
      ensures store.incidents == old(store).incidents && store.counter == old(store).counter
    {
      next := pc;
      if answer.Audited? {
        if pc.Announcing? {
          AuditOneByOne(store, audit, inc, Started(AgentName(b)), answer.reply);
          RecordEvent(inc, Started(AgentName(b)), answer.reply);
          next := Analysing(pc.items);
        } else if pc.Recording? {
          AuditOneByOne(store, audit, inc, Ran(AgentName(b), "completed"), answer.reply);
          RecordAgentRun(inc, Ran(AgentName(b), "completed"), answer.reply);
          next := Closing(pc.findings);
        } else if pc.Closing? {
          AuditOneByOne(store, audit, inc, Finished(AgentName(b)), answer.reply);
          RecordEvent(inc, Finished(AgentName(b)), answer.reply);
          next := Gathered(NumberedEvidence(SourceType(b), pc.findings, Prefix(b)));
        }
      } else if pc.Querying? && answer.Items? {
        next := Announcing(answer.items);
      } else if pc.Analysing? && answer.Findings? {
        next := Recording(answer.findings);
      }
    }

    /** One await of an evidence branch: its query, its reasoner, or an audit write. */
    method EvidenceAgent(inc: string, b: Branch, answer: BranchAnswer)
      requires Valid() && inc in threads && threads[inc].active && threads[inc].pos.Gathering?
      modifies this
      ensures Valid() && Contents() == Next(cfg, old(Contents()), BranchMove(inc, b, answer))
      ensures OnlyThread(inc) && inc in threads && threads[inc].active && threads[inc].trace == old(threads)[inc].trace
      ensures threads[inc].ch == old(threads)[inc].ch && threads[inc].pos.Gathering?
      ensures OnlyBranch(old(threads)[inc].pos, threads[inc].pos, b)
      ensures Progresses(b, GP.PcOf(old(threads)[inc].pos, b), answer, GP.PcOf(threads[inc].pos, b))
    {
      hide Inv, Logs, AuditOne, AuditAll, Progresses, BranchNext, BranchAudits;
      ghost var w := Contents();
      ThreadMoveOk(cfg, w, BranchMove(inc, b, answer));
      BranchIsNumbered(cfg, w, inc, b);
      var t := threads[inc];
      var pc := match b case ChangeBranch => t.pos.change case LogBranch => t.pos.log case DependencyBranch => t.pos.dependency;
      BranchProgresses(b, pc, answer);
      var next := Await(inc, b, pc, answer);
      var pos := match b
        case ChangeBranch => t.pos.(change := next)
        case LogBranch => t.pos.(log := next)
        case DependencyBranch => t.pos.(dependency := next);
      threads := threads[inc := t.(pos := pos)];
    }

    method Join(inc: string)
      requires Valid() && inc in threads && threads[inc].active && threads[inc].pos.Gathering?
      requires threads[inc].pos.change.Gathered? && threads[inc].pos.log.Gathered? && threads[inc].pos.dependency.Gathered?
      modifies this`threads
      ensures Valid() && Contents() == Next(cfg, old(Contents()), Step(inc, Go, []))
      ensures OnlyThread(inc) && inc in threads && threads[inc].active && threads[inc].trace == old(threads)[inc].trace
      ensures threads[inc].pos == At(PlannerNode) && Distinct(Ids(Evidences(threads[inc].ch)))
      ensures var (pos, ch, ch') := (old(threads)[inc].pos, old(threads)[inc].ch, threads[inc].ch);
              && Evidences(ch') == pos.change.evidence + pos.log.evidence + pos.dependency.evidence
              && ch' == ch.(change := ch'.change, log := ch'.log, dependency := ch'.dependency)
    {
      hide Inv, Logs, AuditOne;
      ghost var w := Contents();
      ThreadMoveOk(cfg, w, Step(inc, Go, []));
      JoinedIsNumbered(cfg, w, inc);
      var t := threads[inc];
      var ch := t.ch.(change := t.pos.change.evidence, log := t.pos.log.evidence, dependency := t.pos.dependency.evidence);
      threads := threads[inc := t.(ch := ch, pos := At(PlannerNode))];
    }

    /** `save_analysis` and what follows it in the node. */
    method SavePlan(inc: string, plan: Plan, save: Reply)
      requires StandsAt(inc, At(PlannerNode))
      modifies this`store, this`threads
      ensures var e := SaveStep(inc, old(threads)[inc], plan, save);
              store == WriteStore(old(store), e.write) && threads == old(threads)[inc := e.thread]
    {
      var t := threads[inc];
      if save.Refused? {
        threads := threads[inc := Stop(t)];
        return;
      }
      var evidence := t.ch.change + t.ch.log + t.ch.dependency;
      store := IS.Apply(store, IS.SaveAnalysis(inc, IS.Analysis(evidence, plan.hypotheses, plan.action))).0;
      t := t.(trace := t.trace + [AnalysisSaved(evidence, plan.hypotheses, plan.action)]);
      if save.Lost? {
        threads := threads[inc := Stop(t)];
        return;
      }
      threads := threads[inc := t.(ch := t.ch.(hypotheses := plan.hypotheses, action := plan.action,
                                               notes := plan.notes, feedback := ""),
                                   pos := At(CriticNode), trace := t.trace + [Completed(PlannerNode)])];
    }

    /** Completes the decision, saves it as the analysis, then updates the state. */
    method PlannerAgent(inc: string, decision: PlannerDecision, save: Reply, r0: Reply, r1: Reply, r2: Reply)
      requires Valid() && StandsAt(inc, At(PlannerNode)) && SchemaAdmits(decision)
      modifies this
      ensures Valid() && Contents() == Next(cfg, old(Contents()), Step(inc, Planned(decision, save), [r0, r1, r2]))
      ensures threads.Keys == old(threads).Keys && threads - {inc} == old(threads) - {inc} && gateway == old(gateway)
      ensures SavesDecision(inc, old(threads)[inc], decision, save, threads[inc], old(store).incidents, store.incidents)
    {
      hide Inv, Logs, AuditAll, SaveStep, PlanOf, SavesDecision;
      IncidentIsKnown(cfg, Contents(), inc);
      StepSavesDecision(inc, threads[inc], decision, save, store.incidents);
      ThreadMoveOk(cfg, Contents(), Step(inc, Planned(decision, save), [r0, r1, r2]));
      CompleteAndSave(inc, PlanOf(threads[inc].ch, decision), save, r0, r1, r2);
    }

    method CompleteAndSave(inc: string, plan: Plan, save: Reply, r0: Reply, r1: Reply, r2: Reply)
      requires StandsAt(inc, At(PlannerNode))
      modifies this
      ensures var e := SaveStep(inc, old(threads)[inc], plan, save);
              && Contents() == ApplyEffect(cfg, old(Contents()), inc, e, [r0, r1, r2])
              && store.incidents == WriteIncidents(old(store).incidents, e.write) && threads == old(threads)[inc := e.thread]
    {
      WriteShows(store, SaveStep(inc, threads[inc], plan, save).write);
      AuditThenWrite(store, audit, inc, AgentAudits("planner_agent"), [r0, r1, r2],
                     SaveStep(inc, threads[inc], plan, save).write);
      RunAgent(inc, "planner_agent", r0, r1, r2);
      WriteShows(store, SaveStep(inc, threads[inc], plan, save).write);
      SavePlan(inc, plan, save);
    }

    method ApprovalGate(inc: string)
      requires Valid() && StandsAt(inc, At(GateNode))
      modifies this`threads
      ensures Valid() && Contents() == Next(cfg, old(Contents()), Step(inc, Go, []))
      ensures OnlyThread(inc) && inc in threads && !threads[inc].active && threads[inc].pos == Interrupted
      ensures var (t, t') := (old(threads)[inc], threads[inc]);
              && t'.ch == t.ch && t.ch.action.Some? && PlanIsSaved(t)
              && t'.trace == t.trace + [InterruptShown(t.ch.action)]
    {
      hide Inv, Logs, AuditOne;
      ghost var w := Contents();
      ThreadMoveOk(cfg, w, Step(inc, Go, []));
      PlanWasSaved(cfg, w, inc);
      var t := threads[inc];
      threads := threads[inc := t.(pos := Interrupted, active := false, trace := t.trace + [InterruptShown(t.ch.action)])];
    }

    /** Records the request and sends it; the answer comes later. */
    method RollbackAction(inc: string, reply: Reply)
      requires Valid() && StandsAt(inc, At(RollbackNode))
      modifies this
      ensures Valid() && Contents() == Next(cfg, old(Contents()), Step(inc, Go, [reply]))
      ensures threads - {inc} == old(threads) - {inc} && store.incidents == old(store.incidents)
      ensures old(threads)[inc].ch.action.Some? && inc in threads && threads[inc].ch == old(threads)[inc].ch
      ensures var (t, t') := (old(threads)[inc], threads[inc]);
              var req := RequestFor(inc, t.ch, t.ch.action.value);
              if Accepted(req) then
                && gateway == old(gateway).(calls := old(gateway).calls + [P.Rollback(req, P.FirstPc(cfg))])
                && t'.pos == AwaitRollback(|old(gateway).calls|) && t'.active
                && t'.trace == t.trace + [RollbackRequested(req)] && JustAsked(inc, t'.trace, req)
              else gateway == old(gateway) && Raised(inc)
    {
      hide Inv, Logs, AuditAll, AuditOne, JustAsked, PlanIsSaved, Accepted, RequestFor;
      ghost var w := Contents();
      ThreadMoveOk(cfg, w, Step(inc, Go, [reply]));
      PlanWasSaved(cfg, w, inc);
      var t := threads[inc];
      // A run that was cleared has a plan, so the check for one cannot fail here.
      var req := RequestFor(inc, t.ch, t.ch.action.value);
      AuditOneByOne(store, audit, inc, IS.Event("action_requested", "system", "rollback_action"), reply);
      RecordEvent(inc, IS.Event("action_requested", "system", "rollback_action"), reply);
      if Accepted(req) {
        threads := threads[inc := t.(pos := AwaitRollback(|gateway.calls|), trace := t.trace + [RollbackRequested(req)])];
        gateway := P.Next(cfg, gateway, P.BeginRollback(req));
      } else {
        threads := threads[inc := Stop(t)];
      }
      if Accepted(req) { LastRequestIsAuthorised(cfg, Contents(), inc, req); }
    }

    method RollbackReturned(inc: string, n: nat)
      requires Valid() && StandsAt(inc, AwaitRollback(n)) && n < |gateway.calls|
      requires gateway.calls[n].Rollback? && gateway.calls[n].pc.Returned?
      modifies this`threads
      ensures Valid() && Contents() == Next(cfg, old(Contents()), Step(inc, Go, []))
      ensures OnlyThread(inc) && inc in threads
      ensures var (t, t', call) := (old(threads)[inc], threads[inc], gateway.calls[n]);
              if call.pc.outcome.Succeeded() then
                && t'.active && t'.pos == At(VerifyNode) && t'.trace == t.trace + [Completed(RollbackNode)]
                && t'.ch == t.ch.(receipt := t'.ch.receipt)
                && t'.ch.receipt.Some? && t'.ch.receipt.value.verificationStatus == "pending"
                && P.Stores(gateway.rows, call.req.idempotencyKey, t'.ch.receipt.value)
              else Raised(inc) && t'.pos == At(RollbackNode)
    {
      hide Inv, Logs, AuditOne;
      ghost var w := Contents();
      ThreadMoveOk(cfg, w, Step(inc, Go, []));
      if gateway.calls[n].pc.outcome.Succeeded() { AnswerIsStored(cfg, w, n); }
      var t := threads[inc];
      var outcome := gateway.calls[n].pc.outcome;
      if outcome.Succeeded() {
        var receipt := outcome.receipt.(verificationStatus := "pending");
        threads := threads[inc := t.(ch := t.ch.(receipt := Some(receipt)), pos := At(VerifyNode),
                                     trace := t.trace + [Completed(RollbackNode)])];
      } else {
        threads := threads[inc := Stop(t)];
      }
    }

    method VerifyRecovery(inc: string)
      requires Valid() && StandsAt(inc, At(VerifyNode))
      modifies this
      ensures Valid() && Contents() == Next(cfg, old(Contents()), Step(inc, Go, []))
      ensures threads - {inc} == old(threads) - {inc} && store == old(store) && audit == old(audit)
      ensures inc in threads && threads[inc].ch == old(threads)[inc].ch && threads[inc].trace == old(threads)[inc].trace
      ensures if VerifyAccepted(inc, threads[inc].ch) then
                && threads[inc].active && threads[inc].pos == AwaitVerify(|old(gateway).calls|)
                && gateway.rows == old(gateway).rows && gateway.redis == old(gateway).redis
                && |gateway.calls| == |old(gateway).calls| + 1 && old(gateway).calls < gateway.calls
                && gateway.calls[|old(gateway).calls|]
                   == P.Verify(G.VerifyRequest(inc, threads[inc].ch.playbookKey), P.Count)
              else gateway == old(gateway) && Raised(inc)
      ensures Summarize(threads[inc].trace).verifies == 0
      ensures VerifyAccepted(inc, threads[inc].ch) ==> GP.Measure(Contents(), inc) < GP.Measure(old(Contents()), inc)
    {
      hide Inv, Logs, AuditOne;
      ghost var w := Contents();
      Advanced(cfg, w, inc, Step(inc, Go, []));
      NotVerifiedYet(cfg, w, inc);
      ThreadMoveOk(cfg, w, Step(inc, Go, []));
      var t := threads[inc];
      if !VerifyAccepted(inc, t.ch) {
        threads := threads[inc := Stop(t)];
        return;
      }
      threads := threads[inc := t.(pos := AwaitVerify(|gateway.calls|))];
      gateway := P.Next(cfg, gateway, P.BeginVerify(G.VerifyRequest(inc, t.ch.playbookKey)));
    }

    method VerifyReturned(inc: string, n: nat)
      requires Valid() && StandsAt(inc, AwaitVerify(n)) && n < |gateway.calls|
      requires gateway.calls[n].Verify? && gateway.calls[n].vpc.VerifyReturned?
      modifies this`threads
      ensures Valid() && Contents() == Next(cfg, old(Contents()), Step(inc, Go, []))
      ensures OnlyThread(inc) && inc in threads
      ensures var (t, t', verdict) := (old(threads)[inc], threads[inc], gateway.calls[n].vpc.verdict);
              if verdict.Verdict? then
                && t'.active && t'.pos == At(ReportNode) && t'.trace == t.trace + [VerdictGiven(verdict.result)]
                && t'.ch == t.ch.(verification := Some(verdict.result), receipt := t'.ch.receipt)
                && (t'.ch.receipt.Some? <==> t.ch.receipt.Some?)
                && (t.ch.receipt.Some? ==> SameButVerification(t.ch.receipt.value, t'.ch.receipt.value) && Verified(t'.ch))
                && (G.NothingRecoveredBefore(cfg.scenarios) && verdict.result.status == "recovered"
                    ==> P.HasRow(gateway.rows, inc))
              else Raised(inc) && t'.pos == At(VerifyNode)
    {
      hide Inv, Logs, AuditOne;
      ghost var w := Contents();
      ThreadMoveOk(cfg, w, Step(inc, Go, []));
      var t := threads[inc];
      var verdict := gateway.calls[n].vpc.verdict;
      if !verdict.Verdict? {
        threads := threads[inc := Stop(t)];
        return;
      }
      var receipt := t.ch.receipt;
      if receipt.Some? {
        receipt := Some(receipt.value.(verificationStatus := verdict.result.status));
      }
      threads := threads[inc := t.(ch := t.ch.(verification := Some(verdict.result), receipt := receipt),
                                   pos := At(ReportNode), trace := t.trace + [VerdictGiven(verdict.result)])];
      if G.NothingRecoveredBefore(cfg.scenarios) && verdict.result.status == "recovered" {
        RecoveredHasRow(cfg, Contents(), inc);
      }
    }

    /** `save_report` and what follows it in the node. */
    method SaveReport(inc: string, report: FinalReport, save: Reply)
      requires StandsAt(inc, At(ReportNode))
      modifies this`store, this`threads
      ensures var e := FinishStep(inc, old(threads)[inc], report, save);
              store == WriteStore(old(store), e.write) && threads == old(threads)[inc := e.thread]
    {
      var t := threads[inc];
      if save.Refused? {
        threads := threads[inc := Stop(t)];
        return;
      }
      store := IS.Apply(store, IS.SaveReport(inc, Some(report))).0;
      t := t.(trace := t.trace + [ReportSaved(report)]);
      if save.Lost? {
        threads := threads[inc := Stop(t)];
        return;
      }
      threads := threads[inc := t.(ch := t.ch.(report := Some(report)), pos := Ended, active := false,
                                   trace := t.trace + [Completed(ReportNode)])];
    }

    /** The merge of `finalize_report`. */
    method MergeReport(draft: FinalReport, verification: Option<VerificationResult>, receipt: Option<ActionReceipt>)
      returns (report: FinalReport)
      ensures report == R.FinishReport(draft, verification, receipt)
      ensures R.Finishes(draft, verification, receipt, report)
    {
      hide R.Finishes;
      R.ReportIsFinished(draft, verification, receipt);
      report := draft;
      if verification.Some? {
        var v := verification.value;
        var summary, suggestions := R.MergeFindings(v.anomalies, report.anomalySummary, report.handlingSuggestions);
        report := report.(anomalySummary := summary, handlingSuggestions := suggestions,
                          metrics := v.metrics, releaseComparisons := v.releaseComparisons, anomalies := v.anomalies);
      }
      if receipt.Some? {
        report := report.(receipt := receipt);
      }
    }

    /** Merges the findings into the report, attaches the receipt and saves it. */
    method FinalizeReport(inc: string, draft: FinalReport, save: Reply, r0: Reply, r1: Reply, r2: Reply, r3: Reply)
      requires Valid() && StandsAt(inc, At(ReportNode))
      modifies this
      ensures Valid()
           && Contents() == Next(cfg, old(Contents()), Step(inc, Reported(draft, save), [r0, r1, r2, r3]))
      ensures threads.Keys == old(threads).Keys && threads - {inc} == old(threads) - {inc} && gateway == old(gateway)
      ensures SavesReport(inc, old(threads)[inc], draft, save, threads[inc], old(store).incidents, store.incidents)
    {
      hide Inv, Logs, AuditAll, AuditOne, SavesReport, R.FinishReport, R.Finishes;
      IncidentIsKnown(cfg, Contents(), inc);
      StepSavesReport(inc, threads[inc], draft, save, store.incidents);
      ThreadMoveOk(cfg, Contents(), Step(inc, Reported(draft, save), [r0, r1, r2, r3]));
      var report := MergeReport(draft, threads[inc].ch.verification, threads[inc].ch.receipt);
      ghost var (s, a, e) := (store, audit, FinishStep(inc, threads[inc], report, save));
      RunAgent(inc, "report_agent", r0, r1, r2);
      WriteShows(store, e.write);
      SaveReport(inc, report, save);
      if save.Acknowledged? {
        RecordEvent(inc, IS.Event("report_saved", "system", "finalize_report"), r3);
      }
      ReportAudits(s, a, inc, e.write, [r0, r1, r2], r3);
      assert [r0, r1, r2] + [r3] == [r0, r1, r2, r3];
    }

    /** A fresh pass over the values of earlier runs. */
    method Run(inc: string)
      requires Valid() && !ThreadOf(Contents(), inc).active
      modifies this`threads
      ensures Valid() && Contents() == Next(cfg, old(Contents()), StartRun(inc))
      ensures OnlyThread(inc) && inc in threads
      ensures var (t, t') := (ThreadOf(old(Contents()), inc), threads[inc]);
              && t'.active && t'.pos == At(Node.LoadIncident)
              && t'.ch == t.ch && t'.trace == t.trace + [RunStarted]
      ensures ClearsNothing(threads[inc].trace)
    {
      hide Inv, Logs, AuditOne;
      ghost var w := Contents();
      StartClearsNothing(ThreadOf(w, inc).trace);
      ThreadMoveOk(cfg, w, StartRun(inc));
      var t := if inc in threads then threads[inc] else NewThread;
      threads := threads[inc := t.(pos := At(Node.LoadIncident), active := true, trace := t.trace + [RunStarted])];
    }

    /** A pending interrupt is answered, a run that raised is taken up again. */
    method TakeUp(t: Thread, approved: bool, reviewer: string) returns (t': Thread)
      ensures t' == ResumeThread(t, approved, reviewer)
    {
      t' := t;
      if t.pos == Interrupted {
        var ch := t.ch.(approval := ReviewWord(approved), reviewer := Some(reviewer));
        t' := t.(ch := ch, pos := At(RouteAfterApproval(ch)), active := true, trace := t.trace + [GateDecided(approved, reviewer)]);
      } else if t.pos != NotStarted && t.pos != Ended {
        t' := t.(active := true);
      }
    }

    /** The review goes to the incident API first; then the thread goes on. */
    method Resume(inc: string, approved: bool, reviewer: string, comment: string, api: Reply, reply: Reply)
      requires Valid() && !ThreadOf(Contents(), inc).active
      modifies this
      ensures Valid()
           && Contents() == Next(cfg, old(Contents()), Move.Resume(inc, approved, reviewer, comment, api, [reply]))
      ensures threads - {inc} == old(threads) - {inc} && gateway == old(gateway) && inc in threads
      ensures store.incidents - {inc} == old(store).incidents - {inc}
      ensures var (t, t') := (ThreadOf(old(Contents()), inc), threads[inc]);
              if api.Refused? || !ReviewAdmitted(reviewer) || inc !in old(store).incidents then
                t' == t && store == old(store)
              else
                && inc in store.incidents && store.incidents[inc].status == ReviewWord(approved)
                && store.incidents[inc].approval == Some(IS.Approval(ReviewWord(approved), reviewer, comment))
                && GR.Receives(t, t', Reviewed(approved, reviewer, comment), api.Acknowledged? && t.pos == Interrupted)
                && GR.GoesOn(t, t', approved, reviewer, api)
    {
      hide Inv, Logs, Next, AuditOne, AuditAll, ResumeThread, GR.Receives, GR.GoesOn;
      ResumeComesTo(cfg, Contents(), inc, approved, reviewer, comment, api, reply);
      var t := if inc in threads then threads[inc] else NewThread;
      ThreadMoveOk(cfg, Contents(), Move.Resume(inc, approved, reviewer, comment, api, [reply]));
      if api.Refused? || !ReviewAdmitted(reviewer) || inc !in store.incidents {
        threads := threads[inc := t];
        return;
      }
      GR.ResumeReceives(inc, t, store.incidents, approved, reviewer, comment, api);
      GR.ResumeGoesOn(inc, t, store.incidents, approved, reviewer, comment, api);
      store := IS.Apply(store, ReviewOp(inc, approved, reviewer, comment)).0;
      t := t.(trace := t.trace + [Reviewed(approved, reviewer, comment)]);
      if api.Lost? {
        threads := threads[inc := t];
        return;
      }
      RecordEvent(inc, IS.Event("approval_reviewed", "human", reviewer), reply);
      t := TakeUp(t, approved, reviewer);
      threads := threads[inc := t];
    }
  }
}
