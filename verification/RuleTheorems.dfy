/** Results about every rule-based history of the whole system. */
module RuleTheorems {
  import opened Common
  import opened Models
  import opened Gateway
  import opened Planner
  import opened Graph
  import opened GraphInvariant
  import opened GraphRules
  import GS = GraphSafety
  import T = Text
  import IS = IncidentStore
  import P = RollbackProtocol

  lemma {:induction false} RuleEventAt(inc: string, facts: Facts, trace: seq<Event>, n: nat)
    requires RuleTrace(inc, facts, trace) && n < |trace|
    ensures RuleEvent(inc, facts, Summarize(trace[..n]), trace[n])
    decreases |trace|
  {
    if n < |trace| - 1 {
      RuleEventAt(inc, facts, trace[..|trace| - 1], n);
      assert trace[..|trace| - 1][..n] == trace[..n];
    }
  }

  lemma RequestIsHuman(inc: string, facts: Facts, trace: seq<Event>, n: nat)
    requires RuleTrace(inc, facts, trace) && SafeTrace(inc, trace) && n < |trace| && trace[n].RollbackRequested?
    ensures GS.ApprovedByHuman(inc, trace, n, trace[n].req)
    ensures RuleRequest(inc, facts, trace[n].req)
  {
    RuleEventAt(inc, facts, trace, n);
    GS.SafeAt(inc, trace, n);
    GS.HumanCleared(inc, trace[..n], trace[n].req);
    GS.LongerTrace(inc, trace, n, trace[n].req);
  }

  lemma ThreadIsHuman(cfg: P.Config, w: World, inc: string, n: nat)
    requires Inv(cfg, w) && RuleInv(w)
    requires n < |ThreadOf(w, inc).trace| && ThreadOf(w, inc).trace[n].RollbackRequested?
    ensures var trace := ThreadOf(w, inc).trace;
            && GS.ApprovedByHuman(inc, trace, n, trace[n].req)
            && RuleRequest(inc, FactsOf(w.store.incidents, inc), trace[n].req)
  {
    assert ThreadOk(cfg, inc, ThreadOf(w, inc), w.store.incidents, w.gateway);
    assert RuleThreadOk(inc, Stored(w.threads, inc), w.store.incidents);
    RequestIsHuman(inc, FactsOf(w.store.incidents, inc), ThreadOf(w, inc).trace, n);
  }

  /** Under the rules every rollback is asked for with a human's approval of the
      very plan shown, and always under the incident's one key. */
  lemma RulesAlwaysAskAHuman(cfg: P.Config, w: World, moves: seq<Move>, inc: string, n: nat)
    requires RuleReachedBy(cfg, w, moves)
    requires n < |ThreadOf(w, inc).trace| && ThreadOf(w, inc).trace[n].RollbackRequested?
    ensures var trace := ThreadOf(w, inc).trace;
            && GS.ApprovedByHuman(inc, trace, n, trace[n].req)
            && trace[n].req.idempotencyKey == RuleKey(inc, FactsOf(w.store.incidents, inc).service)
  {
    RuleReachedInv(cfg, w, moves);
    ThreadIsHuman(cfg, w, inc, n);
  }

  /** Under the rules every rollback goes from the release the stored incident names
      to its previous version, on its own service. */
  lemma RulesRevertTheRelease(cfg: P.Config, w: World, moves: seq<Move>, inc: string, n: nat)
    requires RuleReachedBy(cfg, w, moves)
    requires n < |ThreadOf(w, inc).trace| && ThreadOf(w, inc).trace[n].RollbackRequested?
    ensures inc in w.store.incidents && w.store.incidents[inc].context.Some?
    ensures var (req, i) := (ThreadOf(w, inc).trace[n].req, w.store.incidents[inc]);
            && req.targetService == i.serviceName
            && req.currentRevision == i.context.value.releaseVersion
            && req.targetRevision == i.context.value.previousVersion
  {
    RuleReachedInv(cfg, w, moves);
    ThreadIsHuman(cfg, w, inc, n);
  }

  /** And so does every receipt at the gateway. */
  lemma RuleReceiptsRevertTheRelease(cfg: P.Config, w: World, moves: seq<Move>, key: string)
    requires RuleReachedBy(cfg, w, moves) && key in w.gateway.rows
    ensures var row := w.gateway.rows[key];
            && row.incidentId in w.store.incidents && w.store.incidents[row.incidentId].context.Some?
            && var i := w.store.incidents[row.incidentId];
               && row.receipt.targetService == i.serviceName
               && row.receipt.fromRevision == i.context.value.releaseVersion
               && row.receipt.toRevision == i.context.value.previousVersion
  {
    RuleReachedInv(cfg, w, moves);
    var row := w.gateway.rows[key];
    GS.RowIsAuthorised(cfg, w, key);
    var trace := ThreadOf(w, row.incidentId).trace;
    var n: nat :| GS.StemsFrom(row.incidentId, trace, n, key, row);
    RulesRevertTheRelease(cfg, w, moves, row.incidentId, n);
  }

  lemma RowKey(cfg: P.Config, w: World, key: string)
    requires Inv(cfg, w) && RuleInv(w) && key in w.gateway.rows
    ensures var inc := w.gateway.rows[key].incidentId; key == RuleKey(inc, FactsOf(w.store.incidents, inc).service)
  {
    var row := w.gateway.rows[key];
    GS.RowIsAuthorised(cfg, w, key);
    var trace := ThreadOf(w, row.incidentId).trace;
    var n: nat :| GS.StemsFrom(row.incidentId, trace, n, key, row);
    ThreadIsHuman(cfg, w, row.incidentId, n);
  }

  /** Over any history of runs, resumes and retries the gateway holds at most one
      receipt per incident. */
  lemma OneReceiptPerIncident(cfg: P.Config, w: World, moves: seq<Move>, k1: string, k2: string)
    requires RuleReachedBy(cfg, w, moves) && k1 in w.gateway.rows && k2 in w.gateway.rows
    requires w.gateway.rows[k1].incidentId == w.gateway.rows[k2].incidentId
    ensures k1 == k2
  {
    RuleReachedInv(cfg, w, moves);
    RowKey(cfg, w, k1);
    RowKey(cfg, w, k2);
  }

  // ------------------------------------------------------------ incidents stay apart

  lemma RuleKeysApart(inc1: string, service1: string, inc2: string, service2: string)
    requires T.Free(inc1, ':') && T.Free(inc2, ':') && RuleKey(inc1, service1) == RuleKey(inc2, service2)
    ensures inc1 == inc2
  {
    var (rest1, rest2) := ("rollback" + ":" + service1, "rollback" + ":" + service2);
    assert RuleKey(inc1, service1) == inc1 + ":" + rest1;
    assert RuleKey(inc2, service2) == inc2 + ":" + rest2;
    RestOfKey(inc1, rest1, inc2, rest2);
  }

  lemma RedisKeysApart(inc1: string, service1: string, inc2: string, service2: string)
    requires T.Free(inc1, ':') && T.Free(inc2, ':')
    requires RollbackRedisKey(inc1, service1) == RollbackRedisKey(inc2, service2)
    ensures inc1 == inc2
  {
    var n := |"idemp:rollback:"|;
    assert RollbackRedisKey(inc1, service1)[n..] == inc1 + ":" + service1;
    assert RollbackRedisKey(inc2, service2)[n..] == inc2 + ":" + service2;
    RestOfKey(inc1, service1, inc2, service2);
  }

  /** Incident ids hold no colon, so neither idempotency keys nor Redis keys of two
      incidents ever coincide, whatever the service names. */
  lemma KeysStayApart(store: IS.State, inc1: string, service1: string, inc2: string, service2: string)
    requires IS.IdsIssued(store) && inc1 in store.incidents && inc2 in store.incidents
    requires RuleKey(inc1, service1) == RuleKey(inc2, service2)
             || RollbackRedisKey(inc1, service1) == RollbackRedisKey(inc2, service2)
    ensures inc1 == inc2
  {
    IdIsFree(store, inc1);
    IdIsFree(store, inc2);
    if RuleKey(inc1, service1) == RuleKey(inc2, service2) {
      RuleKeysApart(inc1, service1, inc2, service2);
    } else {
      RedisKeysApart(inc1, service1, inc2, service2);
    }
  }

  lemma RestOfKey(inc1: string, rest1: string, inc2: string, rest2: string)
    requires T.Free(inc1, ':') && T.Free(inc2, ':') && inc1 + ":" + rest1 == inc2 + ":" + rest2
    ensures inc1 == inc2
  {
    assert inc1 + [':'] + rest1 == inc1 + ":" + rest1;
    assert inc2 + [':'] + rest2 == inc2 + ":" + rest2;
    T.FirstSeparator(inc1, rest1, inc2, rest2, ':');
  }

  lemma IdIsFree(store: IS.State, inc: string)
    requires IS.IdsIssued(store) && inc in store.incidents
    ensures T.Free(inc, ':')
  {
    assert IS.IssuedId(inc, store.counter);
    var nanos: int, n: nat :| 1 <= n <= store.counter && inc == IS.IncidentId(nanos, n);
    IS.IncidentIdHasNoColon(nanos, n);
  }

  lemma ReceiptsStayApart(cfg: P.Config, w: World, inc1: string, inc2: string)
    requires Inv(cfg, w) && RuleInv(w) && inc1 != inc2
    requires ThreadOf(w, inc1).ch.receipt.Some? && ThreadOf(w, inc2).ch.receipt.Some?
    ensures ThreadOf(w, inc1).ch.receipt.value.receiptId != ThreadOf(w, inc2).ch.receipt.value.receiptId
  {
    var (r1, r2) := (ThreadOf(w, inc1).ch.receipt.value, ThreadOf(w, inc2).ch.receipt.value);
    HeldReceipt(cfg, w, inc1);
    HeldReceipt(cfg, w, inc2);
    if r1.idempotencyKey == r2.idempotencyKey {
      KeysStayApart(w.store, inc1, w.store.incidents[inc1].serviceName, inc2, w.store.incidents[inc2].serviceName);
    }
    assert P.RowsOk(w.gateway.rows);
  }

  /** The receipt a thread holds is stored under the key of its own incident. */
  lemma HeldReceipt(cfg: P.Config, w: World, inc: string)
    requires Inv(cfg, w) && RuleInv(w) && ThreadOf(w, inc).ch.receipt.Some?
    ensures var r := ThreadOf(w, inc).ch.receipt.value;
            && inc in w.store.incidents
            && r.idempotencyKey == RuleKey(inc, w.store.incidents[inc].serviceName)
            && P.Stores(w.gateway.rows, r.idempotencyKey, r)
            && w.gateway.rows[r.idempotencyKey].incidentId == inc
  {
    var r := ThreadOf(w, inc).ch.receipt.value;
    assert ThreadOk(cfg, inc, ThreadOf(w, inc), w.store.incidents, w.gateway);
    assert RuleThreadOk(inc, Stored(w.threads, inc), w.store.incidents);
    HolderIsKnown(cfg, w, r.idempotencyKey);
    RowKey(cfg, w, r.idempotencyKey);
    var owner := w.gateway.rows[r.idempotencyKey].incidentId;
    KeysStayApart(w.store, inc, w.store.incidents[inc].serviceName, owner, FactsOf(w.store.incidents, owner).service);
  }

  /** Only known incidents have receipts at the gateway. */
  lemma HolderIsKnown(cfg: P.Config, w: World, key: string)
    requires Inv(cfg, w) && key in w.gateway.rows
    ensures w.gateway.rows[key].incidentId in w.store.incidents
  {
    var row := w.gateway.rows[key];
    GS.RowIsAuthorised(cfg, w, key);
    var trace := ThreadOf(w, row.incidentId).trace;
    var n: nat :| GS.StemsFrom(row.incidentId, trace, n, key, row);
    assert ThreadOk(cfg, row.incidentId, ThreadOf(w, row.incidentId), w.store.incidents, w.gateway);
    AskedMeansAnalysed(row.incidentId, trace, n);
  }

  lemma {:induction false} AskedMeansAnalysed(inc: string, trace: seq<Event>, n: nat)
    requires SafeTrace(inc, trace) && n < |trace| && trace[n].RollbackRequested?
    ensures Summarize(trace).analysis.Some?
    decreases |trace|
  {
    var front := trace[..|trace| - 1];
    if n < |front| { AskedMeansAnalysed(inc, front, n); } else { SavedMeansAnalysed(front); }
  }

  lemma {:induction false} SavedMeansAnalysed(trace: seq<Event>)
    ensures Summarize(trace).saved.Some? ==> Summarize(trace).analysis.Some?
    decreases |trace|
  {
    if trace != [] { SavedMeansAnalysed(trace[..|trace| - 1]); }
  }

  /** Two incidents never share a receipt. */
  lemma IncidentsNeverShareAReceipt(cfg: P.Config, w: World, moves: seq<Move>, inc1: string, inc2: string)
    requires RuleReachedBy(cfg, w, moves) && inc1 != inc2
    requires ThreadOf(w, inc1).ch.receipt.Some? && ThreadOf(w, inc2).ch.receipt.Some?
    ensures ThreadOf(w, inc1).ch.receipt.value.receiptId != ThreadOf(w, inc2).ch.receipt.value.receiptId
  {
    RuleReachedInv(cfg, w, moves);
    ReceiptsStayApart(cfg, w, inc1, inc2);
  }

  // ------------------------------------------------------------ plans

  /** What the critic of the rules holds against a proposal. */
  predicate Objectionable(ch: Channels) {
    ch.action.Some? && (|ch.change + ch.log| < 3 || Release(ch) == "" || Previous(ch) == "")
  }

  lemma PlanIsSettled(cfg: P.Config, w: World, inc: string)
    requires Inv(cfg, w) && RuleInv(w) && ThreadOf(w, inc).pos in {Interrupted, Ended}
    ensures var ch := ThreadOf(w, inc).ch;
            && ch.replanCount == (if Objectionable(ch) then 2 else 0)
            && ch.action == Diagnose(ch).action
            && inc in w.store.incidents
            && w.store.incidents[inc].analysis == Some(IS.Analysis(Evidences(ch), Diagnose(ch).hypotheses, ch.action))
  {
    assert ThreadOk(cfg, inc, ThreadOf(w, inc), w.store.incidents, w.gateway);
    assert RuleThreadOk(inc, Stored(w.threads, inc), w.store.incidents);
    var ch := ThreadOf(w, inc).ch;
    RulesObjectExactlyWhen(ch.serviceName, Release(ch), Previous(ch), ch.change, ch.log, ch.dependency);
  }

  /** A run that waits or has ended replanned its full course exactly if its proposal
      is open to objection, and else not at all; either way the plan it holds and
      stored is the diagnosis of its evidence: replanning reproduced it. */
  lemma ReplanningChangesNothing(cfg: P.Config, w: World, moves: seq<Move>, inc: string)
    requires RuleReachedBy(cfg, w, moves) && ThreadOf(w, inc).pos in {Interrupted, Ended}
    ensures var ch := ThreadOf(w, inc).ch;
            && ch.replanCount == (if Objectionable(ch) then 2 else 0)
            && ch.action == Diagnose(ch).action
            && inc in w.store.incidents
            && w.store.incidents[inc].analysis == Some(IS.Analysis(Evidences(ch), Diagnose(ch).hypotheses, ch.action))
  {
    RuleReachedInv(cfg, w, moves);
    PlanIsSettled(cfg, w, inc);
  }

  lemma AnalysisCites(w: World, inc: string, n: nat)
    requires RuleInv(w) && n < |ThreadOf(w, inc).trace|
    ensures Cites(ThreadOf(w, inc).trace[n])
  {
    assert RuleThreadOk(inc, Stored(w.threads, inc), w.store.incidents);
    RuleEventAt(inc, FactsOf(w.store.incidents, inc), ThreadOf(w, inc).trace, n);
  }

  /** Every evidence id an analysis cites is among the evidence saved with it. */
  lemma SavedCitationsAreSavedEvidence(cfg: P.Config, w: World, moves: seq<Move>, inc: string, n: nat)
    requires RuleReachedBy(cfg, w, moves) && n < |ThreadOf(w, inc).trace|
    ensures Cites(ThreadOf(w, inc).trace[n])
  {
    RuleReachedInv(cfg, w, moves);
    AnalysisCites(w, inc, n);
  }
}
