/** The MySQL rollback gateway as interleaved statements.

    Any number of Rollback and Verify calls are in flight. Each step executes one
    statement of one call: SETNX, SELECT, INSERT, SET, DEL, COUNT or UPDATE. Every
    statement may be acknowledged, refused, or take effect with its
    acknowledgement lost; Redis keys may expire between any two steps. */
module RollbackProtocol {
  import opened Common
  import opened Models
  import opened Gateway
  import opened Text

  const PERSISTED_DETAIL :=
    "Mock rollback adapter executed the revert workflow and persisted the receipt."

  datatype Row = Row(incidentId: string, playbookKey: string, receipt: ActionReceipt)

  /** The `action_receipts` table by its unique key `idempotency_key`. */
  type Table = map<string, Row>

  /** The statement a Rollback call executes next. */
  datatype RollbackPc =
    | TryLock
    | SelectAfterRefusal
    | Select
    | Insert(built: ActionReceipt)
    | Publish(stored: ActionReceipt)
    | Unpublish(stored: ActionReceipt)
    | Clean(failure: Outcome)
    | Returned(outcome: Outcome)

  datatype VerifyPc = Count | Update | VerifyReturned(verdict: VerifyOutcome)

  datatype Call =
    | Rollback(req: RollbackRequest, pc: RollbackPc)
    | Verify(vreq: VerifyRequest, vpc: VerifyPc)

  datatype Config = Config(hasRedis: bool, scenarios: Scenarios)

  datatype State = State(rows: Table, redis: map<string, string>, calls: seq<Call>)

  datatype Move =
    | BeginRollback(req: RollbackRequest)
    | BeginVerify(vreq: VerifyRequest)
    | Step(call: nat, reply: Reply, nanos: int)
    | Expire(key: string)

  const Empty := State(map[], map[], [])

  function FirstPc(cfg: Config): RollbackPc {
    if cfg.hasRedis then TryLock else Select
  }

  /** An error return deletes the Redis key first when Redis is configured. */
  function FailWith(cfg: Config, failure: Outcome): RollbackPc {
    if cfg.hasRedis then Clean(failure) else Returned(failure)
  }

  /** The INSERT violates the unique key or the primary key. */
  predicate Clashes(rows: Table, r: ActionReceipt) {
    r.idempotencyKey in rows || exists k | k in rows :: rows[k].receipt.receiptId == r.receiptId
  }

  datatype Effect = Effect(rows: Table, redis: map<string, string>, pc: RollbackPc)

  function RollbackStep(cfg: Config, rows: Table, redis: map<string, string>,
                        req: RollbackRequest, pc: RollbackPc, reply: Reply, nanos: int): Effect {
    var rkey := RollbackRedisKey(req.incidentId, req.targetService);
    match pc
    case TryLock =>
      Effect(rows,
             if reply.Refused? || rkey in redis then redis else redis[rkey := PENDING],
             if reply.Acknowledged? && rkey in redis then SelectAfterRefusal else Select)
    case SelectAfterRefusal =>
      Effect(rows, redis,
             if reply.Acknowledged? && req.idempotencyKey in rows
             then Returned(Idempotent(rows[req.idempotencyKey].receipt)) else Select)
    case Select =>
      Effect(rows, redis,
             if !reply.Acknowledged? then FailWith(cfg, DbError)
             else if req.idempotencyKey in rows
             then Returned(Idempotent(rows[req.idempotencyKey].receipt))
             else
               var key := ResolvePlaybookKey(req.playbookKey);
               if key !in cfg.scenarios then FailWith(cfg, UnknownScenario)
               else Insert(BuildReceipt(req, cfg.scenarios[key],
                                        "receipt-" + SignedDecimal(nanos), PERSISTED_DETAIL, nanos)))
    case Insert(r) =>
      if reply.Refused? || Clashes(rows, r) then Effect(rows, redis, FailWith(cfg, DbError))
      else
        var rows' := rows[r.idempotencyKey := Row(req.incidentId, ResolvePlaybookKey(req.playbookKey), r)];
        Effect(rows', redis,
               if reply.Lost? then FailWith(cfg, DbError)
               else if cfg.hasRedis then Publish(r) else Returned(Executed(r)))
    case Publish(r) =>
      Effect(rows, if reply.Refused? then redis else redis[rkey := r.receiptId],
             if reply.Acknowledged? then Returned(Executed(r)) else Unpublish(r))
    case Unpublish(r) =>
      Effect(rows, RedisDelete(redis, rkey, reply), Returned(Executed(r)))
    case Clean(failure) =>
      Effect(rows, RedisDelete(redis, rkey, reply), Returned(failure))
    case Returned(outcome) =>
      Effect(rows, redis, pc)
  }

  predicate HasRow(rows: Table, incidentId: string) {
    exists k | k in rows :: rows[k].incidentId == incidentId
  }

  function MarkVerified(rows: Table, incidentId: string, status: string): Table {
    map k | k in rows ::
      if rows[k].incidentId == incidentId
      then rows[k].(receipt := rows[k].receipt.(verificationStatus := status))
      else rows[k]
  }

  function VerifyStep(cfg: Config, rows: Table, req: VerifyRequest, pc: VerifyPc, reply: Reply)
    : (Table, VerifyPc)
  {
    var key := ResolvePlaybookKey(req.playbookKey);
    if pc.VerifyReturned? then (rows, pc)
    else if key !in cfg.scenarios then (rows, VerifyReturned(VerifyUnknown))
    else
      var data := cfg.scenarios[key];
      match pc
      case Count =>
        (rows,
         if !reply.Acknowledged? then VerifyReturned(VerifyError)
         else if HasRow(rows, req.incidentId) then Update
         else VerifyReturned(Verdict(data.before)))
      case Update =>
        (if reply.Refused? then rows else MarkVerified(rows, req.incidentId, data.after.status),
         VerifyReturned(if reply.Acknowledged? then Verdict(data.after) else VerifyError))
  }

  /** One step; a move that names no call changes nothing. */
  function Next(cfg: Config, s: State, move: Move): State {
    match move
    case BeginRollback(req) => s.(calls := s.calls + [Rollback(req, FirstPc(cfg))])
    case BeginVerify(vreq) => s.(calls := s.calls + [Verify(vreq, Count)])
    case Expire(key) => s.(redis := s.redis - {key})
    case Step(i, reply, nanos) =>
      if i >= |s.calls| then s
      else
        match s.calls[i]
        case Rollback(req, pc) =>
          var e := RollbackStep(cfg, s.rows, s.redis, req, pc, reply, nanos);
          State(e.rows, e.redis, s.calls[i := Rollback(req, e.pc)])
        case Verify(vreq, vpc) =>
          var (rows', vpc') := VerifyStep(cfg, s.rows, vreq, vpc, reply);
          s.(rows := rows', calls := s.calls[i := Verify(vreq, vpc')])
  }

  function Run(cfg: Config, s: State, moves: seq<Move>): State
    decreases |moves|
  {
    if moves == [] then s
    else Next(cfg, Run(cfg, s, moves[..|moves| - 1]), moves[|moves| - 1])
  }

  // ------------------------------------------------------------ the invariant

  predicate SameRow(a: Row, b: Row) {
    a.incidentId == b.incidentId && a.playbookKey == b.playbookKey &&
    SameButVerification(a.receipt, b.receipt)
  }

  /** Rows are never removed and change only in their verification status. */
  predicate Extends(rows: Table, rows': Table) {
    forall k | k in rows :: k in rows' && SameRow(rows[k], rows'[k])
  }

  predicate RowsOk(rows: Table) {
    && (forall k | k in rows ::
          && rows[k].receipt.idempotencyKey == k
          && rows[k].receipt.actionType == "rollback"
          && rows[k].receipt.status == "executed")
    && (forall j, k | j in rows && k in rows && j != k ::
          rows[j].receipt.receiptId != rows[k].receipt.receiptId)
  }

  predicate Stores(rows: Table, key: string, r: ActionReceipt) {
    key in rows && SameButVerification(rows[key].receipt, r)
  }

  /** This call's INSERT was acknowledged. */
  predicate Won(c: Call) {
    c.Rollback? && (c.pc.Publish? || c.pc.Unpublish? || (c.pc.Returned? && c.pc.outcome.Executed?))
  }

  function WonReceipt(c: Call): ActionReceipt
    requires Won(c)
  {
    match c.pc
    case Publish(r) => r
    case Unpublish(r) => r
    case Returned(o) => o.receipt
  }

  predicate CallOk(cfg: Config, rows: Table, c: Call) {
    match c
    case Verify(vreq, vpc) =>
      vpc == Update ==> HasRow(rows, vreq.incidentId)
    case Rollback(req, pc) =>
      && (pc.Insert? ==> Answers(cfg.scenarios, req, pc.built))
      && (pc.Clean? ==> !pc.failure.Succeeded())
      && (pc.Returned? && pc.outcome.Idempotent? ==> Stores(rows, req.idempotencyKey, pc.outcome.receipt))
      && (Won(c) ==>
            && Stores(rows, req.idempotencyKey, WonReceipt(c))
            && rows[req.idempotencyKey].incidentId == req.incidentId
            && Answers(cfg.scenarios, req, WonReceipt(c)))
  }

  predicate OneWinner(calls: seq<Call>) {
    forall i, j | 0 <= i < j < |calls| && Won(calls[i]) && Won(calls[j]) ::
      calls[i].req.idempotencyKey != calls[j].req.idempotencyKey
  }

  /** The row is what this request leaves behind. */
  predicate Stems(cfg: Config, req: RollbackRequest, key: string, row: Row) {
    && req.idempotencyKey == key && req.incidentId == row.incidentId
    && row.playbookKey == (if req.playbookKey == "" then "release_config_regression" else req.playbookKey)
    && req.targetService == row.receipt.targetService && req.requestedBy == row.receipt.executor
    && Reverts(cfg.scenarios, req, row.receipt)
  }

  /** A row stems from a call under its key. */
  predicate Requested(cfg: Config, calls: seq<Call>, key: string, row: Row) {
    exists i | 0 <= i < |calls| :: calls[i].Rollback? && Stems(cfg, calls[i].req, key, row)
  }

  /** What Redis holds is a placeholder or the id of a stored receipt for that key. */
  predicate RedisOk(rows: Table, redis: map<string, string>) {
    forall rk | rk in redis && redis[rk] != PENDING ::
      exists k | k in rows ::
        && rows[k].receipt.receiptId == redis[rk]
        && RollbackRedisKey(rows[k].incidentId, rows[k].receipt.targetService) == rk
  }

  predicate Inv(cfg: Config, s: State) {
    && RowsOk(s.rows)
    && (forall i | 0 <= i < |s.calls| :: CallOk(cfg, s.rows, s.calls[i]))
    && OneWinner(s.calls)
    && (forall k | k in s.rows :: Requested(cfg, s.calls, k, s.rows[k]))
    && RedisOk(s.rows, s.redis)
  }

  // ------------------------------------------------------------ one step

  lemma CallStaysOk(cfg: Config, rows: Table, rows': Table, c: Call)
    requires CallOk(cfg, rows, c) && Extends(rows, rows')
    ensures CallOk(cfg, rows', c)
  {
    if c.Verify? && c.vpc == Update {
      var k :| k in rows && rows[k].incidentId == c.vreq.incidentId;
      assert k in rows' && rows'[k].incidentId == c.vreq.incidentId;
    }
  }

  lemma MarkVerifiedOk(rows: Table, incidentId: string, status: string)
    requires RowsOk(rows)
    ensures Extends(rows, MarkVerified(rows, incidentId, status))
    ensures RowsOk(MarkVerified(rows, incidentId, status))
    ensures MarkVerified(rows, incidentId, status).Keys == rows.Keys
  {
    var marked := MarkVerified(rows, incidentId, status);
    assert forall k | k in marked :: marked[k].receipt.receiptId == rows[k].receipt.receiptId;
  }

  lemma RedisStaysOk(rows: Table, rows': Table, redis: map<string, string>)
    requires RedisOk(rows, redis) && Extends(rows, rows')
    ensures RedisOk(rows', redis)
  {
    forall rk | rk in redis && redis[rk] != PENDING
      ensures exists k | k in rows' ::
                && rows'[k].receipt.receiptId == redis[rk]
                && RollbackRedisKey(rows'[k].incidentId, rows'[k].receipt.targetService) == rk
    {
      var k :| k in rows && rows[k].receipt.receiptId == redis[rk] &&
               RollbackRedisKey(rows[k].incidentId, rows[k].receipt.targetService) == rk;
      assert k in rows' && SameRow(rows[k], rows'[k]);
    }
  }

  /** Only INSERT adds a row, and only under the request's own unused key. */
  lemma RowsStepOk(cfg: Config, rows: Table, redis: map<string, string>,
                   req: RollbackRequest, pc: RollbackPc, reply: Reply, nanos: int)
    requires RowsOk(rows) && CallOk(cfg, rows, Rollback(req, pc))
    ensures var e := RollbackStep(cfg, rows, redis, req, pc, reply, nanos);
            && RowsOk(e.rows) && Extends(rows, e.rows)
            && (forall k | k in e.rows && k !in rows ::
                  k == req.idempotencyKey && Stems(cfg, req, k, e.rows[k]))
  {
    if pc.Insert? && !reply.Refused? && !Clashes(rows, pc.built) {
      assert pc.built.idempotencyKey == req.idempotencyKey;
    }
  }

  lemma RedisStepOk(cfg: Config, rows: Table, redis: map<string, string>,
                    req: RollbackRequest, pc: RollbackPc, reply: Reply, nanos: int)
    requires RowsOk(rows) && CallOk(cfg, rows, Rollback(req, pc)) && RedisOk(rows, redis)
    ensures var e := RollbackStep(cfg, rows, redis, req, pc, reply, nanos);
            RedisOk(e.rows, e.redis)
  {
    var e := RollbackStep(cfg, rows, redis, req, pc, reply, nanos);
    if pc.Insert? {
      RowsStepOk(cfg, rows, redis, req, pc, reply, nanos);
      RedisStaysOk(rows, e.rows, redis);
    } else if pc.Publish? {
      var row := rows[req.idempotencyKey];
      assert row.receipt.receiptId == pc.stored.receiptId;
      assert RollbackRedisKey(row.incidentId, row.receipt.targetService)
             == RollbackRedisKey(req.incidentId, req.targetService);
    }
  }

  lemma CallStepOk(cfg: Config, rows: Table, redis: map<string, string>,
                   req: RollbackRequest, pc: RollbackPc, reply: Reply, nanos: int)
    requires RowsOk(rows) && CallOk(cfg, rows, Rollback(req, pc))
    ensures var e := RollbackStep(cfg, rows, redis, req, pc, reply, nanos);
            && CallOk(cfg, e.rows, Rollback(req, e.pc))
            && (Won(Rollback(req, e.pc)) && !Won(Rollback(req, pc)) ==> req.idempotencyKey !in rows)
  {
    var key := ResolvePlaybookKey(req.playbookKey);
    if key in cfg.scenarios {
      BuiltAnswers(cfg.scenarios, req, "receipt-" + SignedDecimal(nanos), PERSISTED_DETAIL, nanos);
    }
    assert pc.Insert? ==> pc.built.idempotencyKey == req.idempotencyKey;
    hide Answers, BuildReceipt, RedisDelete, RollbackRedisKey, ResolvePlaybookKey;
  }

  /** What one statement of one Rollback call does to the shared state. */
  lemma RollbackStepOk(cfg: Config, s: State, i: nat, reply: Reply, nanos: int)
    requires Inv(cfg, s) && i < |s.calls| && s.calls[i].Rollback?
    ensures var s' := Next(cfg, s, Step(i, reply, nanos));
            RowsOk(s'.rows) && Extends(s.rows, s'.rows) && CallOk(cfg, s'.rows, s'.calls[i]) &&
            RedisOk(s'.rows, s'.redis) && OneWinner(s'.calls) &&
            (forall k | k in s'.rows :: Requested(cfg, s'.calls, k, s'.rows[k]))
  {
    var c := s.calls[i];
    assert CallOk(cfg, s.rows, c);
    RowsStepOk(cfg, s.rows, s.redis, c.req, c.pc, reply, nanos);
    RedisStepOk(cfg, s.rows, s.redis, c.req, c.pc, reply, nanos);
    CallStepOk(cfg, s.rows, s.redis, c.req, c.pc, reply, nanos);
    WinnersStayApart(cfg, s, i, reply, nanos);
    var s' := Next(cfg, s, Step(i, reply, nanos));
    forall k | k in s'.rows && k !in s.rows ensures Requested(cfg, s'.calls, k, s'.rows[k]) {
      assert s'.calls[i].Rollback?;
    }
    RequestedSurvives(cfg, s, s');
  }

  lemma VerifyRowsOk(cfg: Config, rows: Table, vreq: VerifyRequest, vpc: VerifyPc, reply: Reply)
    requires RowsOk(rows)
    ensures var (rows', vpc') := VerifyStep(cfg, rows, vreq, vpc, reply);
            && RowsOk(rows') && Extends(rows, rows') && rows'.Keys == rows.Keys
            && (vpc' == Update ==> vpc == Count && rows' == rows && HasRow(rows, vreq.incidentId))
  {
    var key := ResolvePlaybookKey(vreq.playbookKey);
    if key in cfg.scenarios {
      MarkVerifiedOk(rows, vreq.incidentId, cfg.scenarios[key].after.status);
    }
  }

  lemma VerifyStepOk(cfg: Config, s: State, i: nat, reply: Reply, nanos: int)
    requires Inv(cfg, s) && i < |s.calls| && s.calls[i].Verify?
    ensures var s' := Next(cfg, s, Step(i, reply, nanos));
            RowsOk(s'.rows) && Extends(s.rows, s'.rows) && CallOk(cfg, s'.rows, s'.calls[i]) &&
            RedisOk(s'.rows, s'.redis) && OneWinner(s'.calls) &&
            (forall k | k in s'.rows :: Requested(cfg, s'.calls, k, s'.rows[k]))
  {
    var (rows', vpc') := VerifyStep(cfg, s.rows, s.calls[i].vreq, s.calls[i].vpc, reply);
    VerifyRowsOk(cfg, s.rows, s.calls[i].vreq, s.calls[i].vpc, reply);
    RedisStaysOk(s.rows, rows', s.redis);
    RequestedSurvives(cfg, s, Next(cfg, s, Step(i, reply, nanos)));
  }

  lemma BeginOk(cfg: Config, s: State, c: Call)
    requires Inv(cfg, s) && CallOk(cfg, s.rows, c) && !Won(c)
    ensures Inv(cfg, s.(calls := s.calls + [c]))
  {
    RequestedSurvives(cfg, s, s.(calls := s.calls + [c]));
  }

  lemma ExpireOk(cfg: Config, s: State, key: string)
    requires Inv(cfg, s)
    ensures Inv(cfg, s.(redis := s.redis - {key}))
  {
    assert RedisOk(s.rows, s.redis - {key});
  }

  lemma StepOk(cfg: Config, s: State, move: Move)
    requires Inv(cfg, s)
    ensures Inv(cfg, Next(cfg, s, move)) && Extends(s.rows, Next(cfg, s, move).rows)
  {
    match move {
      case BeginRollback(req) => BeginOk(cfg, s, Rollback(req, FirstPc(cfg)));
      case BeginVerify(vreq) => BeginOk(cfg, s, Verify(vreq, Count));
      case Expire(key) => ExpireOk(cfg, s, key);
      case Step(i, reply, nanos) =>
        if i < |s.calls| { CallMoves(cfg, s, i, reply, nanos); }
    }
  }

  lemma CallMoves(cfg: Config, s: State, i: nat, reply: Reply, nanos: int)
    requires Inv(cfg, s) && i < |s.calls|
    ensures var s' := Next(cfg, s, Step(i, reply, nanos)); Inv(cfg, s') && Extends(s.rows, s'.rows)
  {
    var s' := Next(cfg, s, Step(i, reply, nanos));
    if s.calls[i].Rollback? {
      RollbackStepOk(cfg, s, i, reply, nanos);
    } else {
      VerifyStepOk(cfg, s, i, reply, nanos);
    }
    forall j | 0 <= j < |s'.calls| ensures CallOk(cfg, s'.rows, s'.calls[j]) {
      if j != i {
        assert s'.calls[j] == s.calls[j];
        CallStaysOk(cfg, s.rows, s'.rows, s.calls[j]);
      }
    }
  }

  lemma WinnersStayApart(cfg: Config, s: State, i: nat, reply: Reply, nanos: int)
    requires Inv(cfg, s) && i < |s.calls| && s.calls[i].Rollback?
    ensures OneWinner(Next(cfg, s, Step(i, reply, nanos)).calls)
  {
    var s' := Next(cfg, s, Step(i, reply, nanos));
    CallStepOk(cfg, s.rows, s.redis, s.calls[i].req, s.calls[i].pc, reply, nanos);
    forall a, b | 0 <= a < b < |s'.calls| && Won(s'.calls[a]) && Won(s'.calls[b])
      ensures s'.calls[a].req.idempotencyKey != s'.calls[b].req.idempotencyKey
    {
      assert CallOk(cfg, s.rows, s.calls[a]) && CallOk(cfg, s.rows, s.calls[b]);
    }
  }

  lemma RequestedSurvives(cfg: Config, s: State, s': State)
    requires forall k | k in s.rows :: Requested(cfg, s.calls, k, s.rows[k])
    requires |s.calls| <= |s'.calls|
    requires forall i | 0 <= i < |s.calls| ::
               s.calls[i].Rollback? ==> s'.calls[i].Rollback? && s'.calls[i].req == s.calls[i].req
    requires forall k | k in s'.rows ::
               if k in s.rows then SameRow(s.rows[k], s'.rows[k]) else Requested(cfg, s'.calls, k, s'.rows[k])
    ensures forall k | k in s'.rows :: Requested(cfg, s'.calls, k, s'.rows[k])
  {
    forall k | k in s'.rows ensures Requested(cfg, s'.calls, k, s'.rows[k]) {
      if k in s.rows {
        assert Requested(cfg, s.calls, k, s.rows[k]);
        var i :| 0 <= i < |s.calls| && s.calls[i].Rollback? && Stems(cfg, s.calls[i].req, k, s.rows[k]);
        assert s'.calls[i].Rollback?;
      }
    }
  }
}
