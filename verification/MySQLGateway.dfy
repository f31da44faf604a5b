/** The MySQL rollback gateway as one caller sees it: the methods execute their
    statements in the source's order, and are proved against the statement
    machine of RollbackProtocol run without interference. */
module MySQLGateway {
  import opened Common
  import opened Models
  import opened Gateway
  import opened Text
  import opened RollbackProtocol

  /** One call run alone: `script` lists how its statements are answered. */
  function RunAlone(cfg: Config, rows: Table, redis: map<string, string>,
                    req: RollbackRequest, pc: RollbackPc, script: seq<Reply>, nanos: int): Effect
    decreases |script|
  {
    if script == [] || pc.Returned? then Effect(rows, redis, pc)
    else
      var e := RollbackStep(cfg, rows, redis, req, pc, script[0], nanos);
      RunAlone(cfg, e.rows, e.redis, req, e.pc, script[1..], nanos)
  }

  function Statements(i: nat, script: seq<Reply>, nanos: int): seq<Move> {
    seq(|script|, k requires 0 <= k < |script| => Step(i, script[k], nanos))
  }

  /** Running alone is one of the machine's histories. */
  lemma {:induction false} AloneIsAHistory(cfg: Config, s: State, i: nat, script: seq<Reply>, nanos: int)
    requires i < |s.calls| && s.calls[i].Rollback?
    ensures var req := s.calls[i].req;
            var e := RunAlone(cfg, s.rows, s.redis, req, s.calls[i].pc, script, nanos);
            Run(cfg, s, Statements(i, script, nanos))
            == State(e.rows, e.redis, s.calls[i := Rollback(req, e.pc)])
    decreases |script|
  {
    var req := s.calls[i].req;
    var moves := Statements(i, script, nanos);
    if script != [] {
      var s1 := Next(cfg, s, Step(i, script[0], nanos));
      RunFromFront(cfg, s, moves);
      assert moves[1..] == Statements(i, script[1..], nanos);
      AloneIsAHistory(cfg, s1, i, script[1..], nanos);
      if s.calls[i].pc.Returned? {
        assert s1 == s;
      }
    }
  }

  lemma {:induction false} RunFromFront(cfg: Config, s: State, moves: seq<Move>)
    requires moves != []
    ensures Run(cfg, s, moves) == Run(cfg, Next(cfg, s, moves[0]), moves[1..])
    decreases |moves|
  {
    var last := |moves| - 1;
    if last == 0 {
      assert moves[..0] == [];
    } else {
      RunFromFront(cfg, s, moves[..last]);
      assert moves[..last][1..] == moves[1..][..last - 1];
    }
  }

  class MySQLStore {
    var rows: Table
    var redis: map<string, string>
    const hasRedis: bool
    const scenarios: Scenarios

    constructor (hasRedis: bool, scenarios: Scenarios)
      ensures rows == map[] && redis == map[]
      ensures this.hasRedis == hasRedis && this.scenarios == scenarios
    {
      this.rows, this.redis := map[], map[];
      this.hasRedis, this.scenarios := hasRedis, scenarios;
    }

    function Cfg(): Config {
      Config(hasRedis, scenarios)
    }

    /** The rest of a call whose next statement is the one at `pc`. */
    ghost function Rest(req: RollbackRequest, pc: RollbackPc, script: seq<Reply>, nanos: int): Effect
      reads this
    {
      RunAlone(Cfg(), rows, redis, req, pc, script, nanos)
    }

    /** The receipt answers the request and is the row under its key. */
    predicate Stored(req: RollbackRequest, receipt: ActionReceipt)
      reads this
    {
      && Answers(scenarios, req, receipt)
      && req.idempotencyKey in rows && rows[req.idempotencyKey].receipt == receipt
      && rows[req.idempotencyKey].incidentId == req.incidentId
    }

    method GetReceiptByKey(key: string, reply: Reply) returns (found: Option<ActionReceipt>, err: bool)
      ensures err == !reply.Acknowledged?
      ensures !err ==> found == if key in rows then Some(rows[key].receipt) else None
    {
      err := !reply.Acknowledged?;
      found := None;
      if !err && key in rows {
        found := Some(rows[key].receipt);
      }
    }

    method SetNX(key: string, reply: Reply) returns (locked: bool, err: bool)
      modifies this`redis
      ensures err == !reply.Acknowledged? && locked == (key !in old(redis))
      ensures redis == if reply.Refused? || key in old(redis) then old(redis) else old(redis)[key := PENDING]
    {
      locked := key !in redis;
      err := !reply.Acknowledged?;
      if locked && !reply.Refused? {
        redis := redis[key := PENDING];
      }
    }

    /** Delete the Redis key, whatever comes back, when Redis is configured. */
    method ReleaseKey(req: RollbackRequest, script: seq<Reply>, ghost failure: Outcome, ghost nanos: int)
      requires script != []
      modifies this`redis
      ensures old(Rest(req, FailWith(Cfg(), failure), script, nanos)) == Effect(rows, redis, Returned(failure))
    {
      ghost var goal := Rest(req, FailWith(Cfg(), failure), script, nanos);
      if hasRedis {
        redis := RedisDelete(redis, RollbackRedisKey(req.incidentId, req.targetService), script[0]);
        assert goal == Rest(req, Returned(failure), script[1..], nanos);
      }
    }

    /** `script` answers the statements in the order they are executed; no call
        executes more than six. */
    method Rollback(req: RollbackRequest, script: seq<Reply>, nanos: int) returns (outcome: Outcome)
      requires |script| >= 6
      modifies this
      ensures old(Rest(req, FirstPc(Cfg()), script, nanos)) == Effect(rows, redis, Returned(outcome))
      ensures outcome.Executed? ==> Stored(req, outcome.receipt)
    {
      var rest := script;
      ghost var goal := Rest(req, FirstPc(Cfg()), script, nanos);
      if hasRedis {
        var rkey := RollbackRedisKey(req.incidentId, req.targetService);
        var locked, err := SetNX(rkey, rest[0]);
        rest := rest[1..];
        if !err && !locked {
          assert goal == Rest(req, SelectAfterRefusal, rest, nanos);
          var existing, dbErr := GetReceiptByKey(req.idempotencyKey, rest[0]);
          rest := rest[1..];
          if !dbErr && existing.Some? {
            assert goal == Rest(req, Returned(Idempotent(existing.value)), rest, nanos);
            return Idempotent(existing.value);
          }
        }
      }
      assert goal == Rest(req, Select, rest, nanos) && |rest| >= 4;
      outcome := SelectAndInsert(req, rest, nanos);
    }

    method SelectAndInsert(req: RollbackRequest, script: seq<Reply>, nanos: int) returns (outcome: Outcome)
      requires |script| >= 4
      modifies this
      ensures old(Rest(req, Select, script, nanos)) == Effect(rows, redis, Returned(outcome))
      ensures outcome.Executed? ==> Stored(req, outcome.receipt)
    {
      ghost var goal := Rest(req, Select, script, nanos);
      var existing, err := GetReceiptByKey(req.idempotencyKey, script[0]);
      if err {
        ReleaseKey(req, script[1..], DbError, nanos);
        return DbError;
      }
      if existing.Some? {
        assert goal == Rest(req, Returned(Idempotent(existing.value)), script[1..], nanos);
        return Idempotent(existing.value);
      }
      var key := ResolvePlaybookKey(req.playbookKey);
      if key !in scenarios {
        ReleaseKey(req, script[1..], UnknownScenario, nanos);
        return UnknownScenario;
      }
      var receipt := BuildReceipt(req, scenarios[key],
                                  "receipt-" + SignedDecimal(nanos), PERSISTED_DETAIL, nanos);
      BuiltAnswers(scenarios, req, "receipt-" + SignedDecimal(nanos), PERSISTED_DETAIL, nanos);
      hide Answers, BuildReceipt;
      var rest := script[1..];
      assert goal == Rest(req, Insert(receipt), rest, nanos);
      err := true;
      if !rest[0].Refused? && !Clashes(rows, receipt) {
        rows := rows[receipt.idempotencyKey := Row(req.incidentId, key, receipt)];
        err := rest[0].Lost?;
      }
      rest := rest[1..];
      if err {
        assert goal == Rest(req, FailWith(Cfg(), DbError), rest, nanos);
        ReleaseKey(req, rest, DbError, nanos);
        return DbError;
      }
      if hasRedis {
        assert goal == Rest(req, Publish(receipt), rest, nanos);
        PublishReceipt(req, receipt, rest, nanos);
      } else {
        assert goal == Rest(req, Returned(Executed(receipt)), rest, nanos);
      }
      return Executed(receipt);
    }

    method PublishReceipt(req: RollbackRequest, receipt: ActionReceipt, script: seq<Reply>, ghost nanos: int)
      requires |script| >= 2
      modifies this`redis
      ensures old(Rest(req, Publish(receipt), script, nanos)) == Effect(rows, redis, Returned(Executed(receipt)))
    {
      var rkey := RollbackRedisKey(req.incidentId, req.targetService);
      ghost var goal := Rest(req, Publish(receipt), script, nanos);
      if !script[0].Refused? {
        redis := redis[rkey := receipt.receiptId];
      }
      if !script[0].Acknowledged? {
        assert goal == Rest(req, Unpublish(receipt), script[1..], nanos);
        redis := RedisDelete(redis, rkey, script[1]);
        assert goal == Rest(req, Returned(Executed(receipt)), script[2..], nanos) by {
          assert script[1..][1..] == script[2..];
        }
      } else {
        assert goal == Rest(req, Returned(Executed(receipt)), script[1..], nanos);
      }
    }

    method Verify(req: VerifyRequest, count: Reply, update: Reply) returns (outcome: VerifyOutcome)
      modifies this`rows
      ensures var (rows1, pc1) := old(VerifyStep(Cfg(), rows, req, Count, count));
              var (rows2, pc2) := VerifyStep(Cfg(), rows1, req, pc1, update);
              rows == rows2 && pc2 == VerifyReturned(outcome)
    {
      var key := ResolvePlaybookKey(req.playbookKey);
      if key !in scenarios {
        return VerifyUnknown;
      }
      var data := scenarios[key];
      if !count.Acknowledged? {
        return VerifyError;
      }
      if HasRow(rows, req.incidentId) {
        if !update.Refused? {
          rows := MarkVerified(rows, req.incidentId, data.after.status);
        }
        if !update.Acknowledged? {
          return VerifyError;
        }
        return Verdict(data.after);
      }
      return Verdict(data.before);
    }
  }
}
