/** The run lock: `SET key owner NX EX ttl` on entry, an unconditional `DEL` on
    exit, any number of callers and incidents, and a clock. */
module RunLock {
  import opened Common

  datatype Pc =
    | Waiting                  // has not tried yet
    | Inside(deadline: nat)    // holds the lock; its key expires at `deadline`
    | Refused                  // the key was there: RunLockError
    | Errored                  // the SET failed: `locked` stays false
    | Left

  datatype Caller = Caller(incidentId: string, pc: Pc)

  /** `expiry` gives, for each key ever set and not deleted, when it lapses. */
  datatype State = State(now: nat, expiry: map<string, nat>, callers: seq<Caller>)

  datatype Move =
    | Tick(duration: nat)
    | Arrive(incidentId: string)
    | TrySet(caller: nat, reply: Reply)
    | Leave(caller: nat, reply: Reply)

  const Start := State(0, map[], [])

  function Key(incidentId: string): string {
    "runlock:incident:" + incidentId
  }

  lemma KeyInjective(a: string, b: string)
    requires Key(a) == Key(b)
    ensures a == b
  {
    assert Key(a)[|"runlock:incident:"|..] == a;
    assert Key(b)[|"runlock:incident:"|..] == b;
  }

  predicate Present(s: State, key: string) {
    key in s.expiry && s.now < s.expiry[key]
  }

  function SetPc(s: State, i: nat, pc: Pc): seq<Caller>
    requires i < |s.callers|
  {
    s.callers[i := s.callers[i].(pc := pc)]
  }

  /** One step of one caller, or time passing. */
  function Next(ttl: nat, s: State, move: Move): State {
    match move
    case Tick(d) => s.(now := s.now + d)
    case Arrive(id) => s.(callers := s.callers + [Caller(id, Waiting)])
    case TrySet(i, reply) =>
      if i >= |s.callers| || !s.callers[i].pc.Waiting? then s
      else
        var key := Key(s.callers[i].incidentId);
        var free := !Present(s, key);
        var deadline := s.now + ttl;
        State(s.now,
              if free && !reply.Refused? then s.expiry[key := deadline] else s.expiry,
              SetPc(s, i, if !reply.Acknowledged? then Errored else if free then Inside(deadline) else Pc.Refused))
    case Leave(i, reply) =>
      if i >= |s.callers| || !s.callers[i].pc.Inside? then s
      else
        State(s.now,
              if reply.Refused? then s.expiry else s.expiry - {Key(s.callers[i].incidentId)},
              SetPc(s, i, Left))
  }

  function Run(ttl: nat, s: State, moves: seq<Move>): State
    decreases |moves|
  {
    if moves == [] then s
    else Next(ttl, Run(ttl, s, moves[..|moves| - 1]), moves[|moves| - 1])
  }

  // ------------------------------------------------------------ exclusion

  predicate InsideFor(c: Caller, incidentId: string) {
    c.pc.Inside? && c.incidentId == incidentId
  }

  predicate Exclusive(s: State) {
    forall i, j | 0 <= i < j < |s.callers| && s.callers[i].pc.Inside? && s.callers[j].pc.Inside? ::
      s.callers[i].incidentId != s.callers[j].incidentId
  }

  /** Whoever is inside is so before its own key lapses. */
  predicate Timely(s: State) {
    forall i | 0 <= i < |s.callers| && s.callers[i].pc.Inside? :: s.now < s.callers[i].pc.deadline
  }

  /** Timely at every moment of the history. */
  predicate AlwaysTimely(ttl: nat, moves: seq<Move>) {
    forall n | 0 <= n <= |moves| :: Timely(Run(ttl, Start, moves[..n]))
  }

  predicate HoldersOwnKeys(s: State) {
    forall i | 0 <= i < |s.callers| && s.callers[i].pc.Inside? ::
      var key := Key(s.callers[i].incidentId);
      key in s.expiry && s.expiry[key] == s.callers[i].pc.deadline
  }

  predicate Guarded(s: State) {
    Exclusive(s) && HoldersOwnKeys(s)
  }

  lemma StepStaysGuarded(ttl: nat, s: State, move: Move)
    requires Guarded(s) && Timely(s)
    ensures Guarded(Next(ttl, s, move))
  {
    var s' := Next(ttl, s, move);
    if (move.TrySet? || move.Leave?) && move.caller < |s.callers| {
      forall j | 0 <= j < |s.callers| && s.callers[j].pc.Inside? && j != move.caller
        ensures s.callers[j].incidentId != s.callers[move.caller].incidentId ==>
                  Key(s.callers[j].incidentId) != Key(s.callers[move.caller].incidentId)
      {
        if Key(s.callers[j].incidentId) == Key(s.callers[move.caller].incidentId) {
          KeyInjective(s.callers[j].incidentId, s.callers[move.caller].incidentId);
        }
      }
    }
  }

  /** If every holder leaves before its own key lapses, at most one caller per
      incident is ever inside, whatever Redis refuses or loses. */
  lemma {:induction false} AtMostOneInside(ttl: nat, moves: seq<Move>)
    requires AlwaysTimely(ttl, moves)
    ensures Guarded(Run(ttl, Start, moves))
    decreases |moves|
  {
    if moves != [] {
      var front := moves[..|moves| - 1];
      assert forall n | 0 <= n <= |front| :: front[..n] == moves[..n];
      AtMostOneInside(ttl, front);
      assert moves[..|front|] == front && Timely(Run(ttl, Start, moves[..|front|]));
      StepStaysGuarded(ttl, Run(ttl, Start, front), moves[|moves| - 1]);
    }
  }

  // ------------------------------------------------------------ the key

  predicate SomeoneInside(s: State, incidentId: string) {
    exists i | 0 <= i < |s.callers| :: InsideFor(s.callers[i], incidentId)
  }

  /** Whatever Redis refuses or loses, the key is there while someone is inside. */
  lemma KeyPresentWhileInside(ttl: nat, moves: seq<Move>, incidentId: string)
    requires AlwaysTimely(ttl, moves) && SomeoneInside(Run(ttl, Start, moves), incidentId)
    ensures Present(Run(ttl, Start, moves), Key(incidentId))
  {
    var s := Run(ttl, Start, moves);
    AtMostOneInside(ttl, moves);
    assert moves[..|moves|] == moves && Timely(Run(ttl, Start, moves[..|moves|]));
    var i :| 0 <= i < |s.callers| && InsideFor(s.callers[i], incidentId);
  }

  predicate Concerns(s: State, i: nat, incidentId: string) {
    i < |s.callers| && s.callers[i].incidentId == incidentId
  }

  /** The move leaves the key to nobody: its SET found the key free but the answer
      was lost, or the DEL of whoever was inside was refused. */
  predicate Orphans(s: State, move: Move, incidentId: string) {
    match move
    case TrySet(i, reply) =>
      reply.Lost? && Concerns(s, i, incidentId) && s.callers[i].pc.Waiting? && !Present(s, Key(incidentId))
    case Leave(i, reply) => reply.Refused? && Concerns(s, i, incidentId) && s.callers[i].pc.Inside?
    case _ => false
  }

  /** The key was left at move `n` and has not lapsed since. */
  predicate OrphanedAt(ttl: nat, moves: seq<Move>, incidentId: string, n: nat) {
    && n < |moves| && Orphans(Run(ttl, Start, moves[..n]), moves[n], incidentId)
    && forall k | n < k <= |moves| :: Present(Run(ttl, Start, moves[..k]), Key(incidentId))
  }

  ghost predicate Orphaned(ttl: nat, moves: seq<Move>, incidentId: string) {
    exists n: nat :: OrphanedAt(ttl, moves, incidentId, n)
  }

  /** Present, with nobody inside. */
  predicate Ownerless(s: State, incidentId: string) {
    Present(s, Key(incidentId)) && !SomeoneInside(s, incidentId)
  }

  lemma OthersStay(ttl: nat, s: State, move: Move, incidentId: string, i: nat)
    requires (move.TrySet? || move.Leave?) ==> i != move.caller
    requires i < |s.callers| && InsideFor(s.callers[i], incidentId)
    ensures SomeoneInside(Next(ttl, s, move), incidentId)
  {
    assert InsideFor(Next(ttl, s, move).callers[i], incidentId);
  }

  /** A move of another incident, or of no caller. */
  lemma ForeignMove(ttl: nat, s: State, move: Move, incidentId: string)
    requires (move.TrySet? || move.Leave?) ==> !Concerns(s, move.caller, incidentId)
    ensures var s' := Next(ttl, s, move);
            && (SomeoneInside(s', incidentId) <==> SomeoneInside(s, incidentId))
            && (Present(s', Key(incidentId)) ==> Present(s, Key(incidentId)))
            && !Orphans(s, move, incidentId)
  {
    var s' := Next(ttl, s, move);
    if (move.TrySet? || move.Leave?) && move.caller < |s.callers| &&
       Key(s.callers[move.caller].incidentId) == Key(incidentId) {
      KeyInjective(s.callers[move.caller].incidentId, incidentId);
    }
    if SomeoneInside(s, incidentId) {
      var i :| 0 <= i < |s.callers| && InsideFor(s.callers[i], incidentId);
      OthersStay(ttl, s, move, incidentId, i);
    }
    if SomeoneInside(s', incidentId) {
      var i :| 0 <= i < |s'.callers| && InsideFor(s'.callers[i], incidentId);
      assert InsideFor(s.callers[i], incidentId);
    }
  }

  lemma OwnTrySet(ttl: nat, s: State, i: nat, reply: Reply, incidentId: string)
    requires Guarded(s) && Timely(s) && Concerns(s, i, incidentId)
    ensures var (s', move) := (Next(ttl, s, TrySet(i, reply)), TrySet(i, reply));
            Ownerless(s', incidentId)
            <==> Present(s', Key(incidentId)) && (Orphans(s, move, incidentId) || Ownerless(s, incidentId))
  {
    var s' := Next(ttl, s, TrySet(i, reply));
    if SomeoneInside(s, incidentId) {
      var k :| 0 <= k < |s.callers| && InsideFor(s.callers[k], incidentId);
      assert InsideFor(s'.callers[k], incidentId);
    }
    if s'.callers[i].pc.Inside? { assert InsideFor(s'.callers[i], incidentId); }
  }

  lemma OwnLeave(ttl: nat, s: State, i: nat, reply: Reply, incidentId: string)
    requires Guarded(s) && Timely(s) && Concerns(s, i, incidentId)
    ensures var (s', move) := (Next(ttl, s, Leave(i, reply)), Leave(i, reply));
            Ownerless(s', incidentId)
            <==> Present(s', Key(incidentId)) && (Orphans(s, move, incidentId) || Ownerless(s, incidentId))
  {
    if s.callers[i].pc.Inside? { assert InsideFor(s.callers[i], incidentId); }
  }

  lemma OwnerlessStep(ttl: nat, s: State, move: Move, incidentId: string)
    requires Guarded(s) && Timely(s)
    ensures var s' := Next(ttl, s, move);
            Ownerless(s', incidentId)
            <==> Present(s', Key(incidentId)) && (Orphans(s, move, incidentId) || Ownerless(s, incidentId))
  {
    if move.TrySet? && Concerns(s, move.caller, incidentId) {
      OwnTrySet(ttl, s, move.caller, move.reply, incidentId);
    } else if move.Leave? && Concerns(s, move.caller, incidentId) {
      OwnLeave(ttl, s, move.caller, move.reply, incidentId);
    } else {
      ForeignMove(ttl, s, move, incidentId);
    }
  }

  lemma OrphanedStep(ttl: nat, moves: seq<Move>, incidentId: string)
    requires moves != []
    ensures var front := moves[..|moves| - 1];
            Orphaned(ttl, moves, incidentId)
            <==> Present(Run(ttl, Start, moves), Key(incidentId)) &&
                 (Orphans(Run(ttl, Start, front), moves[|moves| - 1], incidentId) || Orphaned(ttl, front, incidentId))
  {
    var last := |moves| - 1;
    var front := moves[..last];
    assert moves[..|moves|] == moves;
    assert forall n | 0 <= n <= last :: front[..n] == moves[..n];
    if Orphaned(ttl, moves, incidentId) {
      var n: nat :| OrphanedAt(ttl, moves, incidentId, n);
      if n < last { assert OrphanedAt(ttl, front, incidentId, n); }
    }
    if Present(Run(ttl, Start, moves), Key(incidentId)) {
      if Orphaned(ttl, front, incidentId) {
        var n: nat :| OrphanedAt(ttl, front, incidentId, n);
        assert OrphanedAt(ttl, moves, incidentId, n);
      } else if Orphans(Run(ttl, Start, front), moves[last], incidentId) {
        assert OrphanedAt(ttl, moves, incidentId, last);
      }
    }
  }

  lemma {:induction false} OwnerlessExactlyWhenOrphaned(ttl: nat, moves: seq<Move>, incidentId: string)
    requires AlwaysTimely(ttl, moves)
    ensures Ownerless(Run(ttl, Start, moves), incidentId) <==> Orphaned(ttl, moves, incidentId)
    decreases |moves|
  {
    if moves != [] {
      var front := moves[..|moves| - 1];
      assert forall n | 0 <= n <= |front| :: front[..n] == moves[..n];
      OwnerlessExactlyWhenOrphaned(ttl, front, incidentId);
      AtMostOneInside(ttl, front);
      assert moves[..|front|] == front && Timely(Run(ttl, Start, moves[..|front|]));
      OwnerlessStep(ttl, Run(ttl, Start, front), moves[|moves| - 1], incidentId);
      OrphanedStep(ttl, moves, incidentId);
    }
  }

  /** The key is there exactly while someone is inside, unless a lost SET or a
      refused DEL of this very incident left it behind and it has not lapsed yet. */
  lemma KeyPresentExactlyWhileInside(ttl: nat, moves: seq<Move>, incidentId: string)
    requires AlwaysTimely(ttl, moves)
    ensures var s := Run(ttl, Start, moves);
            (Present(s, Key(incidentId)) <==> SomeoneInside(s, incidentId)) <==> !Orphaned(ttl, moves, incidentId)
  {
    OwnerlessExactlyWhenOrphaned(ttl, moves, incidentId);
    if SomeoneInside(Run(ttl, Start, moves), incidentId) { KeyPresentWhileInside(ttl, moves, incidentId); }
  }

  /** It does happen: one caller whose SET is acknowledged too late. */
  lemma LostSetLeavesTheKey(ttl: nat, incidentId: string)
    requires ttl > 0
    ensures var moves := [Arrive(incidentId), TrySet(0, Lost)];
            AlwaysTimely(ttl, moves) && Orphaned(ttl, moves, incidentId)
  {
    var moves := [Arrive(incidentId), TrySet(0, Lost)];
    assert moves[..0] == [] && moves[..1] == [moves[0]] && moves[..2] == moves;
    assert Run(ttl, Start, moves[..1]) == Next(ttl, Start, moves[0]);
    assert OrphanedAt(ttl, moves, incidentId, 1);
  }

  /** Only a caller that got inside ever deletes a key, and only its own; a caller
      that was refused, or whose SET failed, changes no key from then on. */
  lemma OnlyHoldersDelete(ttl: nat, s: State, move: Move, key: string)
    ensures var s' := Next(ttl, s, move);
            key in s.expiry && key !in s'.expiry ==>
              && move.Leave? && move.caller < |s.callers|
              && s.callers[move.caller].pc.Inside? && Key(s.callers[move.caller].incidentId) == key
    ensures var s' := Next(ttl, s, move);
            (&& (move.TrySet? || move.Leave?) && move.caller < |s.callers|
             && (s.callers[move.caller].pc.Refused? || s.callers[move.caller].pc.Errored?)) ==> s' == s
    ensures var s' := Next(ttl, s, move);
            Present(s, key) && key in s'.expiry ==> s'.expiry[key] == s.expiry[key]
  {
  }

  // ------------------------------------------------------------ outliving the key

  /** A second caller gets in beside a holder exactly when the holder has outlived
      its own key. */
  lemma ExclusionBreaksExactlyOnOverrun(ttl: nat, s: State, i: nat, j: nat)
    requires Guarded(s) && i < |s.callers| && j < |s.callers|
    requires s.callers[i].pc.Inside? && s.callers[j].pc.Waiting?
    requires s.callers[i].incidentId == s.callers[j].incidentId
    ensures var s' := Next(ttl, s, TrySet(j, Acknowledged));
            && s'.callers[i] == s.callers[i]
            && (s'.callers[j].pc.Inside? <==> s.now >= s.callers[i].pc.deadline)
            && (Exclusive(s') <==> s.now < s.callers[i].pc.deadline)
  {
    var s' := Next(ttl, s, TrySet(j, Acknowledged));
    if s.now >= s.callers[i].pc.deadline {
      assert s'.callers[i].pc.Inside? && s'.callers[j].pc.Inside?;
      assert i < j || j < i;
    }
  }

  /** The unconditional delete: a holder that overran frees, on leaving, the key of
      its successor, and a third caller joins the successor, which is not late. */
  lemma LateReleaseFreesSuccessorsLock(ttl: nat, id: string)
    requires ttl > 0
    ensures var s3 := Next(ttl, Next(ttl, Next(ttl, Start, Arrive(id)), Arrive(id)), Arrive(id));
            var s5 := Next(ttl, Next(ttl, s3, TrySet(0, Acknowledged)), Tick(ttl));
            var s6 := Next(ttl, s5, TrySet(1, Acknowledged));
            var s7 := Next(ttl, s6, Leave(0, Acknowledged));
            var s8 := Next(ttl, s7, TrySet(2, Acknowledged));
            && |s8.callers| == 3 && s8.callers[0].pc.Left?
            && InsideFor(s8.callers[1], id) && InsideFor(s8.callers[2], id)
            && Timely(s8) && !Exclusive(s8)
  {
    var k := Key(id);
    var s3 := Next(ttl, Next(ttl, Next(ttl, Start, Arrive(id)), Arrive(id)), Arrive(id));
    assert s3 == State(0, map[], [Caller(id, Waiting), Caller(id, Waiting), Caller(id, Waiting)]);
    var s5 := Next(ttl, Next(ttl, s3, TrySet(0, Acknowledged)), Tick(ttl));
    assert s5 == State(ttl, map[k := ttl], [Caller(id, Inside(ttl)), Caller(id, Waiting), Caller(id, Waiting)]);
    var s6 := Next(ttl, s5, TrySet(1, Acknowledged));
    var s8 := Next(ttl, Next(ttl, s6, Leave(0, Acknowledged)), TrySet(2, Acknowledged));
    assert s8.callers[1].pc.Inside? && s8.callers[2].pc.Inside?;
  }

  // ------------------------------------------------------------ the context manager

  /** `hold_run_lock` around a body, against the step machine with one caller. */
  class Coordinator {
    var now: nat
    var expiry: map<string, nat>
    const ttlSeconds: nat

    ghost function Alone(c: Caller): State
      reads this
    {
      State(now, expiry, [c])
    }

    constructor (ttlSeconds: nat)
      ensures this.ttlSeconds == ttlSeconds && Alone(Caller("", Waiting)) == Start.(callers := [Caller("", Waiting)])
    {
      this.ttlSeconds, now, expiry := ttlSeconds, 0, map[];
    }

    /** `body` is how long the block inside the lock takes, normally or by raising. */
    method HoldRunLock(incidentId: string, onSet: Reply, body: nat, onDelete: Reply) returns (entered: bool)
      modifies this
      ensures var s0 := old(Alone(Caller(incidentId, Waiting)));
              var s1 := Next(ttlSeconds, s0, TrySet(0, onSet));
              && entered == s1.callers[0].pc.Inside?
              && Alone(if entered then Caller(incidentId, Left) else s1.callers[0])
                 == if entered then Next(ttlSeconds, Next(ttlSeconds, s1, Tick(body)), Leave(0, onDelete)) else s1
    {
      var key := Key(incidentId);
      var locked := false;
      var free := !(key in expiry && now < expiry[key]);
      if free && !onSet.Refused? {
        expiry := expiry[key := now + ttlSeconds];
      }
      if onSet.Acknowledged? {
        locked := free;
      }
      if locked {
        now := now + body;
      }
      // finally
      if locked {
        if !onDelete.Refused? {
          expiry := expiry - {key};
        }
      }
      entered := locked;
    }
  }
}
