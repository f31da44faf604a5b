/** Results about every history of the interleaved rollback gateway. */
module RollbackTheorems {
  import opened Common
  import opened Models
  import opened Gateway
  import opened Text
  import opened RollbackProtocol

  lemma {:induction false} RunOk(cfg: Config, s: State, moves: seq<Move>)
    requires Inv(cfg, s)
    ensures Inv(cfg, Run(cfg, s, moves)) && Extends(s.rows, Run(cfg, s, moves).rows)
    decreases |moves|
  {
    if moves != [] {
      var front := moves[..|moves| - 1];
      RunOk(cfg, s, front);
      StepOk(cfg, Run(cfg, s, front), moves[|moves| - 1]);
    }
  }

  lemma {:induction false} RunAppend(cfg: Config, s: State, earlier: seq<Move>, later: seq<Move>)
    ensures Run(cfg, s, earlier + later) == Run(cfg, Run(cfg, s, earlier), later)
    decreases |later|
  {
    if later == [] {
      assert earlier + later == earlier;
    } else {
      var last := |later| - 1;
      assert (earlier + later)[..|earlier + later| - 1] == earlier + later[..last];
      RunAppend(cfg, s, earlier, later[..last]);
    }
  }

  predicate SucceededWith(c: Call, key: string) {
    c.Rollback? && c.req.idempotencyKey == key && c.pc.Returned? && c.pc.outcome.Succeeded()
  }

  /** All successful calls with one idempotency key return the same receipt. */
  lemma SameKeySameReceipt(cfg: Config, moves: seq<Move>, i: nat, j: nat, key: string)
    requires var calls := Run(cfg, Empty, moves).calls;
             i < |calls| && j < |calls| && SucceededWith(calls[i], key) && SucceededWith(calls[j], key)
    ensures var s := Run(cfg, Empty, moves);
            && key in s.rows
            && SameButVerification(s.calls[i].pc.outcome.receipt, s.calls[j].pc.outcome.receipt)
            && SameButVerification(s.rows[key].receipt, s.calls[i].pc.outcome.receipt)
            && s.calls[i].pc.outcome.receipt.idempotencyKey == key
  {
    RunOk(cfg, Empty, moves);
    var s := Run(cfg, Empty, moves);
    assert CallOk(cfg, s.rows, s.calls[i]) && CallOk(cfg, s.rows, s.calls[j]);
  }

  predicate ExecutedWith(c: Call, key: string) {
    SucceededWith(c, key) && c.pc.outcome.Executed?
  }

  /** At most one call per key reports that it executed the rollback, and its
      receipt names the service, the requester and the revisions of that very call. */
  lemma AtMostOneExecution(cfg: Config, moves: seq<Move>, i: nat, j: nat, key: string)
    requires var calls := Run(cfg, Empty, moves).calls;
             i < |calls| && j < |calls| && ExecutedWith(calls[i], key) && ExecutedWith(calls[j], key)
    ensures i == j
    ensures var c := Run(cfg, Empty, moves).calls[i]; Answers(cfg.scenarios, c.req, c.pc.outcome.receipt)
  {
    RunOk(cfg, Empty, moves);
    var s := Run(cfg, Empty, moves);
    assert Won(s.calls[i]) && Won(s.calls[j]);
    assert CallOk(cfg, s.rows, s.calls[i]);
  }

  /** Every row stems from a call: its incident, playbook, service, executor and both
      revisions are those of a request under its key. */
  lemma RowsStemFromCalls(cfg: Config, moves: seq<Move>, key: string)
    requires key in Run(cfg, Empty, moves).rows
    ensures var s := Run(cfg, Empty, moves); Requested(cfg, s.calls, key, s.rows[key])
  {
    RunOk(cfg, Empty, moves);
  }

  /** No history removes a row, and later histories change its verification
      status only; distinct keys keep distinct receipt ids. */
  lemma RowsArePermanent(cfg: Config, earlier: seq<Move>, later: seq<Move>)
    ensures Extends(Run(cfg, Empty, earlier).rows, Run(cfg, Empty, earlier + later).rows)
    ensures RowsOk(Run(cfg, Empty, earlier + later).rows)
  {
    RunOk(cfg, Empty, earlier);
    RunAppend(cfg, Empty, earlier, later);
    RunOk(cfg, Run(cfg, Empty, earlier), later);
  }

  /** A call that started after its key was stored can only be on its way to, or
      have returned, the stored receipt or a database error. */
  predicate LateCallOk(rows: Table, key: string, c: Call) {
    c.Rollback? && c.req.idempotencyKey == key ==>
      match c.pc
      case TryLock => true
      case SelectAfterRefusal => true
      case Select => true
      case Clean(failure) => failure == DbError
      case Returned(outcome) =>
        outcome == DbError || (outcome.Idempotent? && Stores(rows, key, outcome.receipt))
      case _ => false
  }

  lemma LateCallStepOk(cfg: Config, rows: Table, redis: map<string, string>,
                       req: RollbackRequest, pc: RollbackPc, reply: Reply, nanos: int)
    requires req.idempotencyKey in rows
    requires LateCallOk(rows, req.idempotencyKey, Rollback(req, pc))
    ensures var e := RollbackStep(cfg, rows, redis, req, pc, reply, nanos);
            LateCallOk(e.rows, req.idempotencyKey, Rollback(req, e.pc))
  {
  }

  lemma {:induction false} LateCallsStayOk(cfg: Config, s: State, moves: seq<Move>, key: string)
    requires Inv(cfg, s) && key in s.rows
    ensures var s' := Run(cfg, s, moves);
            |s.calls| <= |s'.calls| && key in s'.rows &&
            forall j | |s.calls| <= j < |s'.calls| :: LateCallOk(s'.rows, key, s'.calls[j])
    decreases |moves|
  {
    if moves != [] {
      var front := moves[..|moves| - 1];
      LateCallsStayOk(cfg, s, front, key);
      RunOk(cfg, s, front);
      LateCallsStep(cfg, Run(cfg, s, front), moves[|moves| - 1], key, |s.calls|);
    }
  }

  lemma LateCallsStep(cfg: Config, s: State, move: Move, key: string, from: nat)
    requires Inv(cfg, s) && key in s.rows && from <= |s.calls|
    requires forall j | from <= j < |s.calls| :: LateCallOk(s.rows, key, s.calls[j])
    ensures var s' := Next(cfg, s, move);
            from <= |s'.calls| && key in s'.rows &&
            forall j | from <= j < |s'.calls| :: LateCallOk(s'.rows, key, s'.calls[j])
  {
    hide Inv, RollbackStep, VerifyStep;
    StepOk(cfg, s, move);
    var s' := Next(cfg, s, move);
    assert SameRow(s.rows[key], s'.rows[key]);
    forall j | from <= j < |s'.calls| ensures LateCallOk(s'.rows, key, s'.calls[j]) {
      if j < |s.calls| {
        LateCallMoves(cfg, s, move, key, j);
      }
    }
  }

  lemma LateCallMoves(cfg: Config, s: State, move: Move, key: string, j: nat)
    requires key in s.rows && j < |s.calls| && LateCallOk(s.rows, key, s.calls[j])
    requires key in Next(cfg, s, move).rows && SameRow(s.rows[key], Next(cfg, s, move).rows[key])
    ensures var s' := Next(cfg, s, move); j < |s'.calls| && LateCallOk(s'.rows, key, s'.calls[j])
  {
    var c := s.calls[j];
    if move.Step? && move.call == j && c.Rollback? && c.req.idempotencyKey == key {
      LateCallStepOk(cfg, s.rows, s.redis, c.req, c.pc, move.reply, move.nanos);
    }
  }

  /** Once a key is stored, whatever happens next, every later call with that key
      that comes back returns the stored receipt or a database error: it neither
      executes again nor reports an unknown scenario. */
  lemma RetriesReturnTheStoredReceipt(cfg: Config, earlier: seq<Move>, later: seq<Move>, key: string, j: nat)
    requires var s := Run(cfg, Empty, earlier); key in s.rows && |s.calls| <= j
    requires var s' := Run(cfg, Empty, earlier + later);
             j < |s'.calls| && s'.calls[j].Rollback? && s'.calls[j].req.idempotencyKey == key &&
             s'.calls[j].pc.Returned?
    ensures var s, s' := Run(cfg, Empty, earlier), Run(cfg, Empty, earlier + later);
            var outcome := s'.calls[j].pc.outcome;
            outcome == DbError ||
            (outcome.Idempotent? && SameButVerification(s.rows[key].receipt, outcome.receipt))
  {
    var s := Run(cfg, Empty, earlier);
    RunOk(cfg, Empty, earlier);
    RunAppend(cfg, Empty, earlier, later);
    RunOk(cfg, s, later);
    LateCallsStayOk(cfg, s, later, key);
    var s' := Run(cfg, s, later);
    assert SameRow(s.rows[key], s'.rows[key]);
    assert LateCallOk(s'.rows, key, s'.calls[j]);
  }

  /** A retry whose statements are acknowledged. */
  function HealthyRetry(req: RollbackRequest, n: nat): seq<Move> {
    [BeginRollback(req), Step(n, Acknowledged, 0), Step(n, Acknowledged, 0)]
  }

  /** A call about to INSERT under a key that someone else stored meanwhile loses:
      it reports a database error. However much happens in between, a healthy
      retry then returns the winner's receipt. */
  lemma LoserRetriesToWinnersReceipt(cfg: Config, s: State, i: nat, meanwhile: seq<Move>,
                                     reply: Reply, nanos: int)
    requires Inv(cfg, s) && i < |s.calls| && s.calls[i].Rollback? && s.calls[i].pc.Insert?
    requires s.calls[i].req.idempotencyKey in s.rows
    ensures var req := s.calls[i].req;
            var lost := Next(cfg, s, Step(i, reply, nanos));
            var mid := Run(cfg, lost, meanwhile);
            var retried := Run(cfg, mid, HealthyRetry(req, |mid.calls|));
            && lost.calls[i].pc == FailWith(cfg, DbError) && lost.rows == s.rows
            && |retried.calls| == |mid.calls| + 1
            && SucceededWith(retried.calls[|mid.calls|], req.idempotencyKey)
            && retried.calls[|mid.calls|].pc.outcome.Idempotent?
            && SameButVerification(s.rows[req.idempotencyKey].receipt,
                                   retried.calls[|mid.calls|].pc.outcome.receipt)
  {
    var req := s.calls[i].req;
    var lost := Next(cfg, s, Step(i, reply, nanos));
    LosingInsert(cfg, s, i, reply, nanos);
    RunOk(cfg, lost, meanwhile);
    var mid := Run(cfg, lost, meanwhile);
    assert SameRow(s.rows[req.idempotencyKey], mid.rows[req.idempotencyKey]);
    HealthyRetrySucceeds(cfg, mid, req);
  }

  lemma LosingInsert(cfg: Config, s: State, i: nat, reply: Reply, nanos: int)
    requires Inv(cfg, s) && i < |s.calls| && s.calls[i].Rollback? && s.calls[i].pc.Insert?
    requires s.calls[i].req.idempotencyKey in s.rows
    ensures var lost := Next(cfg, s, Step(i, reply, nanos));
            && Inv(cfg, lost) && |lost.calls| == |s.calls| && lost.rows == s.rows
            && lost.calls[i] == Rollback(s.calls[i].req, FailWith(cfg, DbError))
  {
    assert CallOk(cfg, s.rows, s.calls[i]);
    StepOk(cfg, s, Step(i, reply, nanos));
  }

  lemma HealthyRetrySucceeds(cfg: Config, s: State, req: RollbackRequest)
    requires req.idempotencyKey in s.rows
    ensures var s' := Run(cfg, s, HealthyRetry(req, |s.calls|));
            |s'.calls| == |s.calls| + 1 &&
            s'.calls[|s.calls|] == Rollback(req, Returned(Idempotent(s.rows[req.idempotencyKey].receipt)))
  {
    var moves := HealthyRetry(req, |s.calls|);
    var n := |s.calls|;
    assert moves[..2] == [moves[0], moves[1]] && moves[..2][..1] == [moves[0]] && [moves[0]][..0] == [];
    var s1 := Next(cfg, s, moves[0]);
    assert Run(cfg, s, [moves[0]]) == s1;
    var s2 := Next(cfg, s1, moves[1]);
    assert Run(cfg, s, moves[..2]) == s2;
    assert Run(cfg, s, moves) == Next(cfg, s2, moves[2]);
    assert s1.calls[n] == Rollback(req, FirstPc(cfg));
  }

  // ------------------------------------------------------------ termination of a call

  function StepsLeft(c: Call): nat {
    match c
    case Verify(_, vpc) => (match vpc case Count => 2 case Update => 1 case VerifyReturned(_) => 0)
    case Rollback(_, pc) =>
      match pc
      case TryLock => 6
      case SelectAfterRefusal => 5
      case Select => 4
      case Insert(_) => 3
      case Publish(_) => 2
      case Unpublish(_) => 1
      case Clean(_) => 1
      case Returned(_) => 0
  }

  /** Every statement brings its call strictly closer to returning, whatever the
      replies: no call executes more than six statements. Other calls' statements
      leave it alone. */
  lemma StatementsAreBounded(cfg: Config, s: State, i: nat, j: nat, reply: Reply, nanos: int)
    requires i < |s.calls| && j < |s.calls|
    ensures var s' := Next(cfg, s, Step(i, reply, nanos));
            && |s'.calls| == |s.calls| && StepsLeft(s.calls[i]) <= 6
            && (StepsLeft(s.calls[i]) > 0 ==> StepsLeft(s'.calls[i]) < StepsLeft(s.calls[i]))
            && (i != j ==> s'.calls[j] == s.calls[j])
  {
    match s.calls[i] {
      case Rollback(req, pc) => RollbackStepShortens(cfg, s.rows, s.redis, req, pc, reply, nanos);
      case Verify(vreq, vpc) =>
    }
  }

  lemma RollbackStepShortens(cfg: Config, rows: Table, redis: map<string, string>,
                             req: RollbackRequest, pc: RollbackPc, reply: Reply, nanos: int)
    ensures var e := RollbackStep(cfg, rows, redis, req, pc, reply, nanos);
            StepsLeft(Rollback(req, pc)) > 0 ==>
              StepsLeft(Rollback(req, e.pc)) < StepsLeft(Rollback(req, pc))
  {
  }
}
