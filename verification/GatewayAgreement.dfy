/** The two gateway stores, served one request at a time with a working
    database, give the same replies; Redis makes no difference to either. */
module GatewayAgreement {
  import opened Common
  import opened Models
  import opened Gateway
  import opened Text
  import P = RollbackProtocol
  import T = RollbackTheorems
  import M = MemoryGateway

  // ------------------------------------------------------------ MySQL without Redis

  datatype RedisAnswers = RedisAnswers(lock: Reply, publish: Reply, del: Reply)

  /** The database acknowledges every statement; Redis answers as it likes. */
  function Answer(a: RedisAnswers, pc: P.RollbackPc): Reply {
    match pc
    case TryLock => a.lock
    case Publish(_) => a.publish
    case Unpublish(_) => a.del
    case Clean(_) => a.del
    case _ => Acknowledged
  }

  function Finish(cfg: P.Config, rows: P.Table, redis: map<string, string>,
                  req: RollbackRequest, pc: P.RollbackPc, a: RedisAnswers, nanos: int): P.Effect
    decreases T.StepsLeft(P.Rollback(req, pc))
  {
    if pc.Returned? then P.Effect(rows, redis, pc)
    else
      var e := P.RollbackStep(cfg, rows, redis, req, pc, Answer(a, pc), nanos);
      T.RollbackStepShortens(cfg, rows, redis, req, pc, Answer(a, pc), nanos);
      Finish(cfg, e.rows, e.redis, req, e.pc, a, nanos)
  }

  /** What the MySQL store would do had it no Redis. */
  function SqlRollback(scenarios: Scenarios, rows: P.Table, req: RollbackRequest, nanos: int)
    : (P.Table, Outcome)
  {
    var key := ResolvePlaybookKey(req.playbookKey);
    if req.idempotencyKey in rows then (rows, Idempotent(rows[req.idempotencyKey].receipt))
    else if key !in scenarios then (rows, UnknownScenario)
    else
      var r := BuildReceipt(req, scenarios[key], "receipt-" + SignedDecimal(nanos), P.PERSISTED_DETAIL, nanos);
      if P.Clashes(rows, r) then (rows, DbError)
      else (rows[req.idempotencyKey := P.Row(req.incidentId, key, r)], Executed(r))
  }

  /** Whether there is Redis, what it holds and how it answers changes neither the
      table nor the reply. */
  lemma RedisMakesNoDifference(cfg: P.Config, rows: P.Table, redis: map<string, string>,
                               req: RollbackRequest, a: RedisAnswers, nanos: int)
    ensures var e := Finish(cfg, rows, redis, req, P.FirstPc(cfg), a, nanos);
            var (rows', outcome) := SqlRollback(cfg.scenarios, rows, req, nanos);
            e.rows == rows' && e.pc == P.Returned(outcome)
  {
    FinishFromSelect(cfg, rows, redis, req, a, nanos);
    if cfg.hasRedis {
      var e := P.RollbackStep(cfg, rows, redis, req, P.TryLock, a.lock, nanos);
      FinishFromSelect(cfg, rows, e.redis, req, a, nanos);
      if e.pc.SelectAfterRefusal? {
        assert Finish(cfg, rows, redis, req, P.TryLock, a, nanos)
            == Finish(cfg, rows, e.redis, req, P.SelectAfterRefusal, a, nanos);
      }
    }
  }

  lemma FinishFromSelect(cfg: P.Config, rows: P.Table, redis: map<string, string>,
                         req: RollbackRequest, a: RedisAnswers, nanos: int)
    ensures var e := Finish(cfg, rows, redis, req, P.Select, a, nanos);
            var (rows', outcome) := SqlRollback(cfg.scenarios, rows, req, nanos);
            e.rows == rows' && e.pc == P.Returned(outcome)
  {
    var e := P.RollbackStep(cfg, rows, redis, req, P.Select, Acknowledged, nanos);
    assert Finish(cfg, rows, redis, req, P.Select, a, nanos) == Finish(cfg, rows, redis, req, e.pc, a, nanos);
    if e.pc.Insert? {
      var e2 := P.RollbackStep(cfg, rows, redis, req, e.pc, Acknowledged, nanos);
      assert Finish(cfg, rows, redis, req, e.pc, a, nanos) == Finish(cfg, e2.rows, e2.redis, req, e2.pc, a, nanos);
      FinishAfterInsert(cfg, e2.rows, e2.redis, req, e2.pc, a, nanos);
    } else {
      FinishAfterInsert(cfg, rows, redis, req, e.pc, a, nanos);
    }
  }

  lemma FinishAfterInsert(cfg: P.Config, rows: P.Table, redis: map<string, string>,
                          req: RollbackRequest, pc: P.RollbackPc, a: RedisAnswers, nanos: int)
    requires pc.Publish? || pc.Unpublish? || pc.Clean? || pc.Returned?
    ensures var e := Finish(cfg, rows, redis, req, pc, a, nanos);
            && e.rows == rows
            && e.pc == P.Returned(match pc
                                  case Publish(r) => Executed(r)
                                  case Unpublish(r) => Executed(r)
                                  case Clean(failure) => failure
                                  case Returned(outcome) => outcome)
    decreases T.StepsLeft(P.Rollback(req, pc))
  {
    if !pc.Returned? {
      var e := P.RollbackStep(cfg, rows, redis, req, pc, Answer(a, pc), nanos);
      FinishAfterInsert(cfg, e.rows, e.redis, req, e.pc, a, nanos);
    }
  }

  function SqlVerify(scenarios: Scenarios, rows: P.Table, req: VerifyRequest): (P.Table, VerifyOutcome) {
    var key := ResolvePlaybookKey(req.playbookKey);
    if key !in scenarios then (rows, VerifyUnknown)
    else if P.HasRow(rows, req.incidentId)
    then (P.MarkVerified(rows, req.incidentId, scenarios[key].after.status), Verdict(scenarios[key].after))
    else (rows, Verdict(scenarios[key].before))
  }

  /** With a working database the two statements of Verify amount to that. */
  lemma VerifyAlone(cfg: P.Config, rows: P.Table, req: VerifyRequest)
    ensures var (rows1, pc1) := P.VerifyStep(cfg, rows, req, P.Count, Acknowledged);
            var (rows2, pc2) := P.VerifyStep(cfg, rows1, req, pc1, Acknowledged);
            var (rows', outcome) := SqlVerify(cfg.scenarios, rows, req);
            rows2 == rows' && pc2 == P.VerifyReturned(outcome)
  {
  }

  // ------------------------------------------------------------ the correspondence

  /** Equal receipts, but for the id, the wording, the clock and the verification status. */
  predicate Alike(a: ActionReceipt, b: ActionReceipt) {
    a.(receiptId := b.receiptId, statusDetail := b.statusDetail,
       executedAt := b.executedAt, verificationStatus := b.verificationStatus) == b
  }

  predicate AlikeOutcomes(a: Outcome, b: Outcome) {
    match (a, b)
    case (Executed(r), Executed(q)) => Alike(r, q)
    case (Idempotent(r), Idempotent(q)) => Alike(r, q)
    case _ => a == b && a == UnknownScenario
  }

  predicate Match(b: M.Book, rows: P.Table) {
    && b.receipts.Keys == rows.Keys
    && (forall k | k in rows :: Alike(b.receipts[k], rows[k].receipt))
    && M.IndexesOk(b)
    && (forall i | i in b.keyOf :: b.keyOf[i] in rows && rows[b.keyOf[i]].incidentId == i)
    && (forall k | k in rows :: rows[k].incidentId in b.keyOf)
  }

  /** Row ids carry the clock reading they were made at. */
  predicate StampedBefore(rows: P.Table, now: int) {
    forall k | k in rows ::
      && rows[k].receipt.receiptId == "receipt-" + SignedDecimal(rows[k].receipt.executedAt)
      && rows[k].receipt.executedAt < now
  }

  lemma FreshStampsDoNotClash(rows: P.Table, now: int, r: ActionReceipt)
    requires StampedBefore(rows, now) && r.idempotencyKey !in rows
    requires r.receiptId == "receipt-" + SignedDecimal(now)
    ensures !P.Clashes(rows, r)
  {
    forall k | k in rows ensures rows[k].receipt.receiptId != r.receiptId {
      var t := rows[k].receipt.executedAt;
      if rows[k].receipt.receiptId == r.receiptId {
        assert ("receipt-" + SignedDecimal(t))[8..] == SignedDecimal(t);
        assert ("receipt-" + SignedDecimal(now))[8..] == SignedDecimal(now);
        SignedDecimalInjective(t, now);
      }
    }
  }

  lemma RollbackMatches(scenarios: Scenarios, b: M.Book, rows: P.Table, req: RollbackRequest, now: int)
    requires Match(b, rows) && StampedBefore(rows, now)
    ensures var (b', m) := M.RollbackSpec(scenarios, b, req, now);
            var (rows', q) := SqlRollback(scenarios, rows, req, now);
            Match(b', rows') && AlikeOutcomes(m, q)
  {
    var key := ResolvePlaybookKey(req.playbookKey);
    if req.idempotencyKey !in rows && key in scenarios {
      var r := BuildReceipt(req, scenarios[key], "receipt-" + SignedDecimal(now), P.PERSISTED_DETAIL, now);
      FreshStampsDoNotClash(rows, now, r);
      var q := BuildReceipt(req, scenarios[key], M.ReceiptId(Increment(b.counter)), M.RETURNED_DETAIL, now);
      MatchGrows(b, rows, req.incidentId, q, P.Row(req.incidentId, key, r));
    }
  }

  lemma MatchGrows(b: M.Book, rows: P.Table, incidentId: string, q: ActionReceipt, row: P.Row)
    requires Match(b, rows) && Alike(q, row.receipt) && q.idempotencyKey !in rows
    requires row.incidentId == incidentId
    ensures Match(M.Book(Increment(b.counter),
                         b.receipts[q.idempotencyKey := q],
                         b.keyOf[incidentId := q.idempotencyKey],
                         b.rolledBack[incidentId := true]),
                  rows[q.idempotencyKey := row])
  {
  }

  lemma RollbackStamps(scenarios: Scenarios, rows: P.Table, req: RollbackRequest, now: int)
    requires StampedBefore(rows, now)
    ensures StampedBefore(SqlRollback(scenarios, rows, req, now).0, now + 1)
  {
  }

  lemma RollbackAgrees(scenarios: Scenarios, b: M.Book, rows: P.Table, req: RollbackRequest, now: int)
    requires Match(b, rows) && StampedBefore(rows, now)
    ensures var (b', m) := M.RollbackSpec(scenarios, b, req, now);
            var (rows', q) := SqlRollback(scenarios, rows, req, now);
            Match(b', rows') && StampedBefore(rows', now + 1) && AlikeOutcomes(m, q)
  {
    RollbackMatches(scenarios, b, rows, req, now);
    RollbackStamps(scenarios, rows, req, now);
  }

  /** The correspondence does not look at verification marks. */
  lemma MatchIgnoresMarks(b: M.Book, rows: P.Table, b': M.Book, rows': P.Table)
    requires Match(b, rows) && b'.keyOf == b.keyOf && b'.rolledBack == b.rolledBack
    requires b'.receipts.Keys == b.receipts.Keys && rows'.Keys == rows.Keys
    requires forall k | k in rows :: SameButVerification(b.receipts[k], b'.receipts[k])
    requires forall k | k in rows :: P.SameRow(rows[k], rows'[k])
    ensures Match(b', rows')
  {
  }

  lemma VerifyMatches(scenarios: Scenarios, b: M.Book, rows: P.Table, req: VerifyRequest)
    requires Match(b, rows)
    ensures var (b', m) := M.VerifySpec(scenarios, b, req);
            var (rows', q) := SqlVerify(scenarios, rows, req);
            Match(b', rows') && m == q
  {
    SameIncidents(b, rows, req.incidentId);
    var key := ResolvePlaybookKey(req.playbookKey);
    if key in scenarios && req.incidentId in b.keyOf {
      var status := scenarios[key].after.status;
      var marked := M.Marked(b.receipts, b.keyOf[req.incidentId], status);
      assert marked.Keys == b.receipts.Keys;
      MatchIgnoresMarks(b, rows, b.(receipts := marked), P.MarkVerified(rows, req.incidentId, status));
    }
  }

  lemma VerifyStamps(scenarios: Scenarios, rows: P.Table, req: VerifyRequest, now: int)
    requires StampedBefore(rows, now)
    ensures StampedBefore(SqlVerify(scenarios, rows, req).0, now)
  {
  }

  lemma VerifyAgrees(scenarios: Scenarios, b: M.Book, rows: P.Table, req: VerifyRequest, now: int)
    requires Match(b, rows) && StampedBefore(rows, now)
    ensures var (b', m) := M.VerifySpec(scenarios, b, req);
            var (rows', q) := SqlVerify(scenarios, rows, req);
            Match(b', rows') && StampedBefore(rows', now) && m == q
  {
    VerifyMatches(scenarios, b, rows, req);
    VerifyStamps(scenarios, rows, req, now);
  }

  lemma SameIncidents(b: M.Book, rows: P.Table, incidentId: string)
    requires Match(b, rows)
    ensures M.RolledBack(b, incidentId) <==> P.HasRow(rows, incidentId)
    ensures M.RolledBack(b, incidentId) <==> incidentId in b.keyOf
  {
    if incidentId in b.keyOf {
      assert rows[b.keyOf[incidentId]].incidentId == incidentId;
    }
  }

  function SqlServe(scenarios: Scenarios, rows: P.Table, request: M.Request): P.Table {
    match request
    case DoRollback(req, now) => SqlRollback(scenarios, rows, req, now).0
    case DoVerify(vreq) => SqlVerify(scenarios, rows, vreq).0
  }

  function SqlServeAll(scenarios: Scenarios, rows: P.Table, requests: seq<M.Request>): P.Table
    decreases |requests|
  {
    if requests == [] then rows
    else SqlServe(scenarios, SqlServeAll(scenarios, rows, requests[..|requests| - 1]), requests[|requests| - 1])
  }

  /** The clock reads later at every rollback request, and always before `now`. */
  predicate ClockAdvances(requests: seq<M.Request>, now: int) {
    && (forall i | 0 <= i < |requests| && requests[i].DoRollback? :: requests[i].now < now)
    && (forall i, j | 0 <= i < j < |requests| && requests[i].DoRollback? && requests[j].DoRollback? ::
          requests[i].now < requests[j].now)
  }

  lemma {:induction false} HistoriesMatch(scenarios: Scenarios, requests: seq<M.Request>, now: int)
    requires ClockAdvances(requests, now)
    ensures var b, rows := M.ServeAll(scenarios, M.EmptyBook, requests), SqlServeAll(scenarios, map[], requests);
            Match(b, rows) && StampedBefore(rows, now)
    decreases |requests|
  {
    if requests != [] {
      var last := |requests| - 1;
      var front := requests[..last];
      var at := if requests[last].DoRollback? then requests[last].now else now;
      HistoriesMatch(scenarios, front, at);
      var b, rows := M.ServeAll(scenarios, M.EmptyBook, front), SqlServeAll(scenarios, map[], front);
      match requests[last] {
        case DoRollback(req, t) =>
          RollbackAgrees(scenarios, b, rows, req, t);
          assert t < now;
        case DoVerify(vreq) => VerifyAgrees(scenarios, b, rows, vreq, now);
      }
    }
  }

  /** After any common history with an advancing clock, both stores answer the
      next rollback alike and the next verification identically. */
  lemma StoresAgree(scenarios: Scenarios, requests: seq<M.Request>, req: RollbackRequest, vreq: VerifyRequest, now: int)
    requires ClockAdvances(requests, now)
    ensures var b, rows := M.ServeAll(scenarios, M.EmptyBook, requests), SqlServeAll(scenarios, map[], requests);
            && AlikeOutcomes(M.RollbackSpec(scenarios, b, req, now).1, SqlRollback(scenarios, rows, req, now).1)
            && M.VerifySpec(scenarios, b, vreq).1 == SqlVerify(scenarios, rows, vreq).1
  {
    HistoriesMatch(scenarios, requests, now);
    var b, rows := M.ServeAll(scenarios, M.EmptyBook, requests), SqlServeAll(scenarios, map[], requests);
    RollbackAgrees(scenarios, b, rows, req, now);
    VerifyAgrees(scenarios, b, rows, vreq, now);
  }

  predicate SameMarks(b: M.Book, rows: P.Table)
    requires b.receipts.Keys == rows.Keys
  {
    forall k | k in rows :: b.receipts[k].verificationStatus == rows[k].receipt.verificationStatus
  }

  /** The stores mark verification differently: memory marks the incident's latest
      receipt, MySQL all of them. Starting from equal marks they stay equal exactly
      when every older receipt of the incident already carries the new status. */
  lemma MarksStayEqualExactlyWhen(scenarios: Scenarios, b: M.Book, rows: P.Table, req: VerifyRequest)
    requires Match(b, rows) && SameMarks(b, rows)
    requires ResolvePlaybookKey(req.playbookKey) in scenarios
    ensures var b', rows' := M.VerifySpec(scenarios, b, req).0, SqlVerify(scenarios, rows, req).0;
            var status := scenarios[ResolvePlaybookKey(req.playbookKey)].after.status;
            b'.receipts.Keys == rows'.Keys &&
            (SameMarks(b', rows') <==>
              forall k | k in rows && rows[k].incidentId == req.incidentId ::
                k == b.keyOf[req.incidentId] || rows[k].receipt.verificationStatus == status)
  {
    var b', rows' := M.VerifySpec(scenarios, b, req).0, SqlVerify(scenarios, rows, req).0;
    if req.incidentId in b.keyOf {
      assert M.RolledBack(b, req.incidentId);
      var k := b.keyOf[req.incidentId];
      assert k in rows && rows[k].incidentId == req.incidentId;
      assert forall j | j in rows && rows[j].incidentId == req.incidentId && j != k ::
          b'.receipts[j].verificationStatus == rows[j].receipt.verificationStatus;
    }
  }

  function Asking(key: string): RollbackRequest {
    RollbackRequest("inc", "playbook", "order-api", "v2", "v1", key, "bob")
  }

  /** Two keys for one incident, then a verification. */
  const TWO_KEYS := [M.DoRollback(Asking("a"), 0), M.DoRollback(Asking("b"), 1), M.DoVerify(VerifyRequest("inc", "playbook"))]

  lemma ServedOnce(scenarios: Scenarios)
    requires "playbook" in scenarios
    ensures var r := BuildReceipt(Asking("a"), scenarios["playbook"], "receipt-" + SignedDecimal(0), P.PERSISTED_DETAIL, 0);
            SqlServeAll(scenarios, map[], TWO_KEYS[..1]) == map["a" := P.Row("inc", "playbook", r)]
  {
    var h := TWO_KEYS[..1];
    assert h[..0] == [] && h[0] == M.DoRollback(Asking("a"), 0);
  }

  lemma SecondId()
    ensures "receipt-" + SignedDecimal(0) != "receipt-" + SignedDecimal(1)
  {
    var (a, b) := ("receipt-" + SignedDecimal(0), "receipt-" + SignedDecimal(1));
    assert a[|"receipt-"|..] == SignedDecimal(0) && b[|"receipt-"|..] == SignedDecimal(1);
    if a == b { SignedDecimalInjective(0, 1); }
  }

  lemma RowsAfterTwo(scenarios: Scenarios)
    requires "playbook" in scenarios
    ensures var rows := SqlServeAll(scenarios, map[], TWO_KEYS[..2]);
            && "a" in rows && "b" in rows && rows["a"].incidentId == "inc" == rows["b"].incidentId
            && rows["a"].receipt.verificationStatus == "" == rows["b"].receipt.verificationStatus
            && rows.Keys == {"a", "b"}
  {
    ServedOnce(scenarios);
    var h := TWO_KEYS[..2];
    assert h[..1] == TWO_KEYS[..1] && h[1] == M.DoRollback(Asking("b"), 1);
    var rows := SqlServeAll(scenarios, map[], h[..1]);
    assert SqlServeAll(scenarios, map[], h) == SqlRollback(scenarios, rows, Asking("b"), 1).0;
    SecondId();
  }

  lemma BookAfterTwo(scenarios: Scenarios)
    requires "playbook" in scenarios
    ensures var b := M.ServeAll(scenarios, M.EmptyBook, TWO_KEYS[..2]);
            && "inc" in b.keyOf && b.keyOf["inc"] == "b" && b.receipts.Keys == {"a", "b"}
            && b.receipts["a"].verificationStatus == "" == b.receipts["b"].verificationStatus
  {
    var h := TWO_KEYS[..2];
    assert h[..1][..0] == [] && h[..1][0] == M.DoRollback(Asking("a"), 0) && h[1] == M.DoRollback(Asking("b"), 1);
    assert M.ServeAll(scenarios, M.EmptyBook, h[..1])
        == M.RollbackSpec(scenarios, M.EmptyBook, Asking("a"), 0).0;
  }

  lemma BothAfterTwo(scenarios: Scenarios)
    requires "playbook" in scenarios
    ensures var (b, rows) := (M.ServeAll(scenarios, M.EmptyBook, TWO_KEYS[..2]), SqlServeAll(scenarios, map[], TWO_KEYS[..2]));
            && Match(b, rows) && SameMarks(b, rows) && "inc" in b.keyOf && b.keyOf["inc"] == "b"
            && "a" in rows && rows["a"].incidentId == "inc" && rows["a"].receipt.verificationStatus == ""
  {
    HistoriesMatch(scenarios, TWO_KEYS[..2], 2);
    BookAfterTwo(scenarios);
    RowsAfterTwo(scenarios);
  }

  /** After that history the older receipt is marked in one store only. */
  lemma MarksDifferAfterTwoKeys(scenarios: Scenarios)
    requires "playbook" in scenarios && scenarios["playbook"].after.status != ""
    ensures var (b, rows) := (M.ServeAll(scenarios, M.EmptyBook, TWO_KEYS), SqlServeAll(scenarios, map[], TWO_KEYS));
            b.receipts.Keys == rows.Keys && !SameMarks(b, rows)
  {
    BothAfterTwo(scenarios);
    var (b, rows) := (M.ServeAll(scenarios, M.EmptyBook, TWO_KEYS[..2]), SqlServeAll(scenarios, map[], TWO_KEYS[..2]));
    var verify := VerifyRequest("inc", "playbook");
    MarksStayEqualExactlyWhen(scenarios, b, rows, verify);
    assert M.ServeAll(scenarios, M.EmptyBook, TWO_KEYS) == M.VerifySpec(scenarios, b, verify).0;
    assert SqlServeAll(scenarios, map[], TWO_KEYS) == SqlVerify(scenarios, rows, verify).0;
    assert "a" in rows && rows["a"].incidentId == "inc" && "a" != b.keyOf["inc"];
  }
}
