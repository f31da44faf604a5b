/** The three evidence branches and the audit writes: neither the order in which
    the branches proceed nor the fate of any audit write influences a run. */
module GraphFork {
  import opened Common
  import opened Models
  import opened Planner
  import opened Text
  import opened Graph
  import opened GraphInvariant
  import IS = IncidentStore
  import P = RollbackProtocol

  // ------------------------------------------------------------ audit writes do not matter

  /** The world without its audit logs and failure counters. */
  function Erase(w: World): World {
    w.(store := w.store.(events := IS.Log(0, map[]), runs := IS.Log(0, map[])), audit := Audit(0, 0, 0))
  }

  /** The move without the fate of its audit writes. */
  function Silence(move: Move): Move {
    match move
    case Resume(inc, approved, reviewer, comment, api, _) => Resume(inc, approved, reviewer, comment, api, [])
    case Step(inc, answer, _) => Step(inc, answer, [])
    case Abort(inc, _) => Abort(inc, [])
    case BranchMove(inc, b, answer) => BranchMove(inc, b, SilentAnswer(answer))
    case _ => move
  }

  function SilentAnswer(answer: BranchAnswer): BranchAnswer {
    if answer.Audited? then Audited(Acknowledged) else answer
  }

  predicate SameButAudits(a: seq<Move>, b: seq<Move>) {
    |a| == |b| && forall k | 0 <= k < |a| :: Silence(a[k]) == Silence(b[k])
  }

  lemma SameEffect(w1: World, w2: World, m1: Move, m2: Move)
    requires Erase(w1) == Erase(w2) && Silence(m1) == Silence(m2) && ThreadMove(m1)
    ensures ThreadMove(m2) && m1.inc == m2.inc && EffectOf(w1, m1) == EffectOf(w2, m2)
  {
    assert w1.threads == Erase(w1).threads && w2.threads == Erase(w2).threads;
    assert w1.gateway == Erase(w1).gateway && w2.gateway == Erase(w2).gateway;
    assert w1.store.incidents == Erase(w1).store.incidents && w2.store.incidents == Erase(w2).store.incidents;
  }

  lemma ErasedEffect(cfg: P.Config, w1: World, w2: World, inc: string, e: Effect, r1: seq<Reply>, r2: seq<Reply>)
    requires Erase(w1) == Erase(w2) && (e.write.Some? ==> !e.write.value.Create?)
    ensures Erase(ApplyEffect(cfg, w1, inc, e, r1)) == Erase(ApplyEffect(cfg, w2, inc, e, r2))
  {
    assert w1.gateway == Erase(w1).gateway && w2.gateway == Erase(w2).gateway;
    assert w1.threads == Erase(w1).threads && w2.threads == Erase(w2).threads;
    assert w1.store.incidents == Erase(w1).store.incidents && w2.store.incidents == Erase(w2).store.incidents;
    assert w1.store.counter == Erase(w1).store.counter && w2.store.counter == Erase(w2).store.counter;
    AuditKeeps(WriteStore(w1.store, e.write), w1.audit, inc, e.audits, r1);
    AuditKeeps(WriteStore(w2.store, e.write), w2.audit, inc, e.audits, r2);
    WriteShows(w1.store, e.write);
    WriteShows(w2.store, e.write);
  }

  lemma ErasedStore(cfg: P.Config, w1: World, w2: World, m: Move)
    requires Erase(w1) == Erase(w2) && !ThreadMove(m)
    ensures Erase(Next(cfg, w1, m)) == Erase(Next(cfg, w2, m))
  {
    assert w1.gateway == Erase(w1).gateway && w2.gateway == Erase(w2).gateway;
    assert w1.threads == Erase(w1).threads && w2.threads == Erase(w2).threads;
    assert w1.store.incidents == Erase(w1).store.incidents && w2.store.incidents == Erase(w2).store.incidents;
    assert w1.store.counter == Erase(w1).store.counter && w2.store.counter == Erase(w2).store.counter;
  }

  lemma AuditsDoNotMatterOnce(cfg: P.Config, w1: World, w2: World, m1: Move, m2: Move)
    requires Erase(w1) == Erase(w2) && Silence(m1) == Silence(m2)
    ensures Erase(Next(cfg, w1, m1)) == Erase(Next(cfg, w2, m2))
  {
    if ThreadMove(m1) {
      SameEffect(w1, w2, m1, m2);
      EffectConfined(w1, m1);
      ErasedEffect(cfg, w1, w2, m1.inc, EffectOf(w1, m1), AuditReplies(m1), AuditReplies(m2));
    } else {
      ErasedStore(cfg, w1, w2, m1);
    }
  }

  /** Whatever pattern of audit writes fails, the threads, the incidents and the
      gateway take the same course. */
  lemma {:induction false} AuditsDoNotMatter(cfg: P.Config, w1: World, w2: World, a: seq<Move>, b: seq<Move>)
    requires Erase(w1) == Erase(w2) && SameButAudits(a, b)
    ensures Erase(Run(cfg, w1, a)) == Erase(Run(cfg, w2, b))
    decreases |a|
  {
    if a != [] {
      var last := |a| - 1;
      AuditsDoNotMatter(cfg, w1, w2, a[..last], b[..last]);
      AuditsDoNotMatterOnce(cfg, Run(cfg, w1, a[..last]), Run(cfg, w2, b[..last]), a[last], b[last]);
    }
  }

  // ------------------------------------------------------------ the branches do not disturb each other

  datatype Await = Await(branch: Branch, answer: BranchAnswer)

  /** What one branch receives, in order. */
  function AnswersTo(b: Branch, awaits: seq<Await>): seq<BranchAnswer> {
    if awaits == [] then []
    else
      var last := |awaits| - 1;
      AnswersTo(b, awaits[..last]) + (if awaits[last].branch == b then [SilentAnswer(awaits[last].answer)] else [])
  }

  function Proceed(b: Branch, pc: BranchPc, answers: seq<BranchAnswer>): BranchPc {
    if answers == [] then pc
    else BranchNext(b, Proceed(b, pc, answers[..|answers| - 1]), answers[|answers| - 1])
  }

  /** The thread after each branch has received its own answers. */
  function Forked(t: Thread, awaits: seq<Await>): Thread
    requires t.pos.Gathering?
  {
    t.(pos := Gathering(Proceed(ChangeBranch, t.pos.change, AnswersTo(ChangeBranch, awaits)),
                        Proceed(LogBranch, t.pos.log, AnswersTo(LogBranch, awaits)),
                        Proceed(DependencyBranch, t.pos.dependency, AnswersTo(DependencyBranch, awaits))))
  }

  lemma SilentNext(b: Branch, pc: BranchPc, answer: BranchAnswer)
    ensures BranchNext(b, pc, answer) == BranchNext(b, pc, SilentAnswer(answer))
  {
  }

  lemma ProceedSnoc(b: Branch, pc: BranchPc, awaits: seq<Await>, await: Await)
    ensures var pc' := Proceed(b, pc, AnswersTo(b, awaits));
            Proceed(b, pc, AnswersTo(b, awaits + [await]))
            == if await.branch == b then BranchNext(b, pc', await.answer) else pc'
  {
    assert (awaits + [await])[..|awaits|] == awaits;
    var answers := AnswersTo(b, awaits);
    if await.branch == b {
      var longer := answers + [SilentAnswer(await.answer)];
      assert AnswersTo(b, awaits + [await]) == longer;
      assert longer[..|longer| - 1] == answers;
      SilentNext(b, Proceed(b, pc, answers), await.answer);
    } else {
      assert AnswersTo(b, awaits + [await]) == answers;
    }
  }

  lemma ForkedSnoc(t: Thread, awaits: seq<Await>, await: Await)
    requires t.pos.Gathering?
    ensures Forked(t, awaits + [await]) == BranchStep(Forked(t, awaits), await.branch, await.answer).thread
  {
    ProceedSnoc(ChangeBranch, t.pos.change, awaits, await);
    ProceedSnoc(LogBranch, t.pos.log, awaits, await);
    ProceedSnoc(DependencyBranch, t.pos.dependency, awaits, await);
    var (before, after) := (Forked(t, awaits).pos, Forked(t, awaits + [await]).pos);
    assert before.change == Proceed(ChangeBranch, t.pos.change, AnswersTo(ChangeBranch, awaits));
    assert after.change == Proceed(ChangeBranch, t.pos.change, AnswersTo(ChangeBranch, awaits + [await]));
    match await.branch {
      case ChangeBranch => assert after == before.(change := BranchNext(ChangeBranch, before.change, await.answer));
      case LogBranch => assert after == before.(log := BranchNext(LogBranch, before.log, await.answer));
      case DependencyBranch =>
        assert after == before.(dependency := BranchNext(DependencyBranch, before.dependency, await.answer));
    }
  }

  lemma BranchMoveErased(cfg: P.Config, w: World, inc: string, await: Await)
    requires inc in w.threads && w.threads[inc].active && w.threads[inc].pos.Gathering?
    ensures var w' := Next(cfg, w, BranchMove(inc, await.branch, await.answer));
            Erase(w') == Erase(w).(threads := w.threads[inc := BranchStep(w.threads[inc], await.branch, await.answer).thread])
  {
    var move := BranchMove(inc, await.branch, await.answer);
    var e := EffectOf(w, move);
    AuditKeeps(WriteStore(w.store, e.write), w.audit, inc, e.audits, AuditReplies(move));
  }

  // ------------------------------------------------------------ what a branch gathers

  /** One item per finding, in order, under the branch's own prefix and type. */
  predicate Records(b: Branch, findings: seq<Finding>, evidence: seq<Evidence>) {
    var (prefix, kind) :=
      match b
      case ChangeBranch => ("chg", "change")
      case LogBranch => ("log", "log")
      case DependencyBranch => ("dep", "dependency");
    && |evidence| == |findings|
    && forall i | 0 <= i < |findings| ::
         && evidence[i].id == prefix + "-" + Decimal(i + 1) && evidence[i].sourceType == kind
         && (evidence[i].sourceRef, evidence[i].summary, evidence[i].confidence)
            == (findings[i].sourceRef, findings[i].summary, findings[i].confidence)
  }

  lemma NumberedRecords(b: Branch, findings: seq<Finding>)
    ensures Records(b, findings, NumberedEvidence(SourceType(b), findings, Prefix(b)))
  {
  }

  predicate Found(answers: seq<BranchAnswer>, findings: seq<Finding>) {
    exists k | 0 <= k < |answers| :: answers[k] == Findings(findings)
  }

  /** What the reasoner found, and nothing else, is on its way through the branch. */
  ghost predicate Carries(b: Branch, pc: BranchPc, answers: seq<BranchAnswer>) {
    match pc
    case Recording(f) => Found(answers, f)
    case Closing(f) => Found(answers, f)
    case Gathered(e) => exists f :: Found(answers, f) && Records(b, f, e)
    case _ => true
  }

  lemma FoundInLonger(answers: seq<BranchAnswer>, answer: BranchAnswer, f: seq<Finding>)
    requires Found(answers, f)
    ensures Found(answers + [answer], f)
  {
    var k :| 0 <= k < |answers| && answers[k] == Findings(f);
    assert (answers + [answer])[k] == Findings(f);
  }

  lemma CarriesOn(b: Branch, pc: BranchPc, answers: seq<BranchAnswer>, answer: BranchAnswer)
    requires Carries(b, pc, answers)
    ensures Carries(b, BranchNext(b, pc, answer), answers + [answer])
  {
    hide Records, Found;
    match pc {
      case Analysing(_) =>
        if answer.Findings? { FindingsAreFound(answers, answer.findings); }
      case Recording(f) => FoundInLonger(answers, answer, f);
      case Closing(f) =>
        FoundInLonger(answers, answer, f);
        NumberedRecords(b, f);
      case Gathered(e) =>
        var f :| Found(answers, f) && Records(b, f, e);
        FoundInLonger(answers, answer, f);
      case _ =>
    }
  }

  lemma FindingsAreFound(answers: seq<BranchAnswer>, f: seq<Finding>)
    ensures Found(answers + [Findings(f)], f)
  {
    assert (answers + [Findings(f)])[|answers|] == Findings(f);
  }

  /** Whatever a branch is answered from its query on: the evidence it ends with is
      what its reasoner found, item by item, numbered and typed as the branch's. */
  lemma {:induction false} BranchesRecordFindings(b: Branch, answers: seq<BranchAnswer>)
    ensures Carries(b, Proceed(b, Querying, answers), answers)
    decreases |answers|
  {
    if answers != [] {
      var last := |answers| - 1;
      BranchesRecordFindings(b, answers[..last]);
      CarriesOn(b, Proceed(b, Querying, answers[..last]), answers[..last], answers[last]);
      assert answers[..last] + [answers[last]] == answers;
    }
  }

  // ------------------------------------------------------------ any interleaving

  /** A move of another incident, of the gateway, or of a user of the incident API. */
  predicate Foreign(inc: string, move: Move) {
    ThreadMove(move) && !move.DirectReview? ==> move.inc != inc
  }

  predicate OwnAwait(inc: string, move: Move) {
    move.BranchMove? && move.inc == inc
  }

  /** What the branches of one incident receive among other moves. */
  function AwaitsIn(inc: string, moves: seq<Move>): seq<Await> {
    if moves == [] then []
    else
      var last := |moves| - 1;
      AwaitsIn(inc, moves[..last])
      + (if OwnAwait(inc, moves[last]) then [Await(moves[last].branch, moves[last].branchAnswer)] else [])
  }

  function OthersIn(inc: string, moves: seq<Move>): seq<Move> {
    if moves == [] then []
    else
      var last := |moves| - 1;
      OthersIn(inc, moves[..last]) + (if OwnAwait(inc, moves[last]) then [] else [moves[last]])
  }

  predicate ForkOf(inc: string, moves: seq<Move>) {
    forall k | 0 <= k < |moves| :: OwnAwait(inc, moves[k]) || Foreign(inc, moves[k])
  }

  function WithThread(w: World, inc: string, t: Thread): World {
    w.(threads := w.threads[inc := t])
  }

  /** Branches wherever a thread's fork stands, and whatever else is on its trace. */
  predicate Forking(t: Thread) {
    t.active && t.pos.Gathering?
  }

  lemma ForeignEffect(w: World, inc: string, t: Thread, move: Move)
    requires ThreadMove(move) && move.inc != inc
    ensures EffectOf(WithThread(w, inc, t), move) == EffectOf(w, move)
  {
  }

  lemma ForeignIgnores(cfg: P.Config, w: World, inc: string, t: Thread, move: Move)
    requires ThreadMove(move) ==> move.inc != inc
    ensures Next(cfg, WithThread(w, inc, t), move) == WithThread(Next(cfg, w, move), inc, t)
    ensures inc in w.threads ==> inc in Next(cfg, w, move).threads && Next(cfg, w, move).threads[inc] == w.threads[inc]
  {
    if ThreadMove(move) {
      ForeignEffect(w, inc, t, move);
      var e := EffectOf(w, move);
      assert w.threads[inc := t][move.inc := e.thread] == w.threads[move.inc := e.thread][inc := t];
    }
  }

  /** A review of the incident itself is recorded beside the fork. */
  lemma ReviewBeside(cfg: P.Config, w: World, move: Move, awaits: seq<Await>)
    requires move.DirectReview? && move.inc in w.threads && Forking(w.threads[move.inc])
    ensures var (inc, w') := (move.inc, Next(cfg, w, move));
            && inc in w'.threads && Forking(w'.threads[inc])
            && Next(cfg, WithThread(w, inc, Forked(w.threads[inc], awaits)), move)
               == WithThread(w', inc, Forked(w'.threads[inc], awaits))
  {
    var (inc, t) := (move.inc, w.threads[move.inc]);
    var (before, after) := (WithThread(w, inc, Forked(t, awaits)), Next(cfg, w, move));
    var told := DirectStep(inc, t, w.store.incidents, move.approved, move.reviewer, move.comment).thread;
    assert after.threads == w.threads[inc := told];
    assert DirectStep(inc, Forked(t, awaits), w.store.incidents, move.approved, move.reviewer, move.comment).thread
        == Forked(told, awaits);
    assert w.threads[inc := Forked(t, awaits)][inc := Forked(told, awaits)]
        == w.threads[inc := told][inc := Forked(told, awaits)];
  }

  lemma ForeignStep(cfg: P.Config, mixed: World, apart: World, inc: string, awaits: seq<Await>, move: Move)
    requires inc in apart.threads && Forking(apart.threads[inc]) && Foreign(inc, move)
    requires Erase(mixed) == Erase(WithThread(apart, inc, Forked(apart.threads[inc], awaits)))
    ensures var apart' := Next(cfg, apart, move);
            && inc in apart'.threads && Forking(apart'.threads[inc])
            && Erase(Next(cfg, mixed, move)) == Erase(WithThread(apart', inc, Forked(apart'.threads[inc], awaits)))
  {
    AuditsDoNotMatterOnce(cfg, mixed, WithThread(apart, inc, Forked(apart.threads[inc], awaits)), move, move);
    if ThreadMove(move) && move.inc == inc {
      ReviewBeside(cfg, apart, move, awaits);
    } else {
      ForeignIgnores(cfg, apart, inc, Forked(apart.threads[inc], awaits), move);
    }
  }

  lemma OwnStep(cfg: P.Config, mixed: World, apart: World, inc: string, t: Thread, await: Await)
    requires Erase(mixed) == Erase(WithThread(apart, inc, t)) && Forking(t)
    ensures Erase(Next(cfg, mixed, BranchMove(inc, await.branch, await.answer)))
         == Erase(WithThread(apart, inc, BranchStep(t, await.branch, await.answer).thread))
  {
    assert mixed.threads == Erase(mixed).threads == apart.threads[inc := t];
    BranchMoveErased(cfg, mixed, inc, await);
    var t' := BranchStep(t, await.branch, await.answer).thread;
    assert apart.threads[inc := t][inc := t'] == apart.threads[inc := t'];
  }

  lemma ForkNothing(w: World, inc: string)
    requires inc in w.threads && w.threads[inc].pos.Gathering?
    ensures WithThread(w, inc, Forked(w.threads[inc], [])) == w
  {
    var t := w.threads[inc];
    assert Forked(t, []).pos == t.pos;
    assert w.threads[inc := t] == w.threads;
  }

  lemma AwaitStep(cfg: P.Config, mixed: World, apart: World, inc: string, awaits: seq<Await>, move: Move)
    requires inc in apart.threads && Forking(apart.threads[inc]) && OwnAwait(inc, move)
    requires Erase(mixed) == Erase(WithThread(apart, inc, Forked(apart.threads[inc], awaits)))
    ensures Erase(Next(cfg, mixed, move))
         == Erase(WithThread(apart, inc, Forked(apart.threads[inc], awaits + [Await(move.branch, move.branchAnswer)])))
  {
    var await := Await(move.branch, move.branchAnswer);
    ForkedSnoc(apart.threads[inc], awaits, await);
    OwnStep(cfg, mixed, apart, inc, Forked(apart.threads[inc], awaits), await);
  }

  lemma SplitLast(inc: string, moves: seq<Move>)
    requires moves != []
    ensures var (front, move) := (moves[..|moves| - 1], moves[|moves| - 1]);
            if OwnAwait(inc, move)
            then OthersIn(inc, moves) == OthersIn(inc, front) &&
                 AwaitsIn(inc, moves) == AwaitsIn(inc, front) + [Await(move.branch, move.branchAnswer)]
            else OthersIn(inc, moves) == OthersIn(inc, front) + [move] && AwaitsIn(inc, moves) == AwaitsIn(inc, front)
  {
  }

  /** Where a fork ends depends only on what each branch received: the branches
      disturb neither each other nor anyone else. */
  lemma {:induction false} ForkRuns(cfg: P.Config, w: World, inc: string, moves: seq<Move>)
    requires inc in w.threads && Forking(w.threads[inc]) && ForkOf(inc, moves)
    ensures var apart := Run(cfg, w, OthersIn(inc, moves));
            && inc in apart.threads && Forking(apart.threads[inc])
            && Erase(Run(cfg, w, moves))
               == Erase(WithThread(apart, inc, Forked(apart.threads[inc], AwaitsIn(inc, moves))))
    decreases |moves|
  {
    if moves == [] {
      ForkNothing(w, inc);
    } else {
      var last := |moves| - 1;
      var (front, move) := (moves[..last], moves[last]);
      ForkRuns(cfg, w, inc, front);
      SplitLast(inc, moves);
      var (mid, apart) := (Run(cfg, w, front), Run(cfg, w, OthersIn(inc, front)));
      if OwnAwait(inc, move) {
        AwaitStep(cfg, mid, apart, inc, AwaitsIn(inc, front), move);
      } else {
        ForeignStep(cfg, mid, apart, inc, AwaitsIn(inc, front), move);
        RunSnoc(cfg, w, OthersIn(inc, front), move);
      }
    }
  }

  lemma RunSnoc(cfg: P.Config, w: World, moves: seq<Move>, move: Move)
    ensures Run(cfg, w, moves + [move]) == Next(cfg, Run(cfg, w, moves), move)
  {
    assert (moves + [move])[..|moves|] == moves;
  }

  ghost predicate SameAnswers(a: seq<Await>, b: seq<Await>) {
    forall branch: Branch :: AnswersTo(branch, a) == AnswersTo(branch, b)
  }

  lemma ProceedAlike(branch: Branch, pc: BranchPc, a: seq<Await>, b: seq<Await>)
    requires SameAnswers(a, b)
    ensures Proceed(branch, pc, AnswersTo(branch, a)) == Proceed(branch, pc, AnswersTo(branch, b))
  {
    assert AnswersTo(branch, a) == AnswersTo(branch, b);
  }

  lemma ForkedAlike(t: Thread, a: seq<Await>, b: seq<Await>)
    requires t.pos.Gathering? && SameAnswers(a, b)
    ensures Forked(t, a) == Forked(t, b)
  {
    ProceedAlike(ChangeBranch, t.pos.change, a, b);
    ProceedAlike(LogBranch, t.pos.log, a, b);
    ProceedAlike(DependencyBranch, t.pos.dependency, a, b);
  }

  /** Two interleavings of the branches, with each other and with everyone else,
      that answer each branch alike hand the planner the same state, and everything
      that follows is the same, under any fate of the audit writes. */
  lemma InterleavingsAgree(cfg: P.Config, w: World, inc: string, a: seq<Move>, b: seq<Move>,
                           laterA: seq<Move>, laterB: seq<Move>)
    requires inc in w.threads && Forking(w.threads[inc])
    requires ForkOf(inc, a) && ForkOf(inc, b) && SameAnswers(AwaitsIn(inc, a), AwaitsIn(inc, b))
    requires SameButAudits(OthersIn(inc, a), OthersIn(inc, b)) && SameButAudits(laterA, laterB)
    ensures Erase(Run(cfg, w, a + laterA)) == Erase(Run(cfg, w, b + laterB))
  {
    ForkRuns(cfg, w, inc, a);
    ForkRuns(cfg, w, inc, b);
    AuditsDoNotMatter(cfg, w, w, OthersIn(inc, a), OthersIn(inc, b));
    SameFork(Run(cfg, w, OthersIn(inc, a)), Run(cfg, w, OthersIn(inc, b)), inc, AwaitsIn(inc, a), AwaitsIn(inc, b));
    RunAppend(cfg, w, a, laterA);
    RunAppend(cfg, w, b, laterB);
    AuditsDoNotMatter(cfg, Run(cfg, w, a), Run(cfg, w, b), laterA, laterB);
  }

  lemma SameFork(w1: World, w2: World, inc: string, a: seq<Await>, b: seq<Await>)
    requires Erase(w1) == Erase(w2) && inc in w1.threads && Forking(w1.threads[inc]) && SameAnswers(a, b)
    ensures inc in w2.threads && Forking(w2.threads[inc])
    ensures Erase(WithThread(w1, inc, Forked(w1.threads[inc], a))) == Erase(WithThread(w2, inc, Forked(w2.threads[inc], b)))
  {
    assert w1.threads == Erase(w1).threads && w2.threads == Erase(w2).threads;
    ForkedAlike(w1.threads[inc], a, b);
  }
}
