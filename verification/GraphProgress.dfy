/** Every run reaches the end or the approval interrupt, unless it is aborted: a
    measure falls with each answer, and some answer is always awaited. */
module GraphProgress {
  import opened Common
  import opened Models
  import opened Planner
  import opened Graph
  import opened GraphInvariant
  import R = Report
  import T = Text
  import IS = IncidentStore
  import P = RollbackProtocol
  import PT = RollbackTheorems

  // ------------------------------------------------------------ the measure

  function BranchLeft(pc: BranchPc): nat {
    match pc
    case Querying => 5
    case Announcing(_) => 4
    case Analysing(_) => 3
    case Recording(_) => 2
    case Closing(_) => 1
    case Gathered(_) => 0
  }

  function Rank(t: Thread): (r: nat)
    ensures r <= 40
  {
    match t.pos
    case NotStarted => 0
    case At(node) =>
      (match node
       case LoadIncident => 40
       case Triage => 36
       case PlannerNode => if t.ch.replanCount == 0 then 16 else 12
       case CriticNode => if t.ch.replanCount == 0 then 15 else 11
       case PolicyNode => 10
       case GateNode => 9
       case RollbackNode => 8
       case VerifyNode => 6
       case ReportNode => 4)
    case Gathering(c, l, d) => 20 + BranchLeft(c) + BranchLeft(l) + BranchLeft(d)
    case Interrupted => 0
    case AwaitRollback(_) => 7
    case AwaitVerify(_) => 5
    case Ended => 0
  }

  /** Statements left of the gateway call the thread waits for. */
  function Awaited(pos: Pos, calls: seq<P.Call>): (r: nat)
    ensures r <= 6
  {
    match pos
    case AwaitRollback(n) => if n < |calls| then PT.StepsLeft(calls[n]) else 0
    case AwaitVerify(n) => if n < |calls| then PT.StepsLeft(calls[n]) else 0
    case _ => 0
  }

  function ThreadMeasure(t: Thread, calls: seq<P.Call>): (r: nat)
    ensures r <= BOUND
  {
    if t.active then 7 * Rank(t) + Awaited(t.pos, calls) else 0
  }

  function Measure(w: World, inc: string): nat {
    ThreadMeasure(ThreadOf(w, inc), w.gateway.calls)
  }

  /** No run consumes more answers than this. */
  const BOUND: nat := 286

  // ------------------------------------------------------------ what a thread waits for

  predicate BranchFits(pc: BranchPc, answer: BranchAnswer) {
    match pc
    case Querying => answer.Items?
    case Announcing(_) => answer.Audited?
    case Analysing(_) => answer.Findings?
    case Recording(_) => answer.Audited?
    case Closing(_) => answer.Audited?
    case Gathered(_) => false
  }

  function PcOf(pos: Pos, b: Branch): BranchPc
    requires pos.Gathering?
  {
    match b case ChangeBranch => pos.change case LogBranch => pos.log case DependencyBranch => pos.dependency
  }

  predicate AnswerFits(t: Thread, calls: seq<P.Call>, answer: Answer) {
    match t.pos
    case At(node) =>
      (match node
       case Triage => answer.Triaged?
       case PlannerNode => answer.Planned?
       case CriticNode => answer.Critiqued?
       case PolicyNode => answer.Decided?
       case ReportNode => answer.Reported?
       case _ => answer.Go?)
    case Gathering(c, l, d) => answer.Go? && c.Gathered? && l.Gathered? && d.Gathered?
    case AwaitRollback(_) => answer.Go? && Awaited(t.pos, calls) == 0
    case AwaitVerify(_) => answer.Go? && Awaited(t.pos, calls) == 0
    case _ => false
  }

  /** The move brings what the incident's run is waiting for. */
  predicate Advances(w: World, inc: string, move: Move) {
    var t := ThreadOf(w, inc);
    t.active &&
    match move
    case Step(i, answer, _) => i == inc && AnswerFits(t, w.gateway.calls, answer)
    case BranchMove(i, b, answer) => i == inc && t.pos.Gathering? && BranchFits(PcOf(t.pos, b), answer)
    case GatewayMove(statement) =>
      statement.Step? && Awaited(t.pos, w.gateway.calls) > 0 &&
      (t.pos == AwaitRollback(statement.call) || t.pos == AwaitVerify(statement.call))
    case _ => false
  }

  // ------------------------------------------------------------ one move

  lemma SaveShortens(inc: string, t: Thread, plan: Plan, save: Reply, calls: seq<P.Call>)
    requires t.active && t.pos == At(PlannerNode) && t.ch.replanCount <= 1
    ensures ThreadMeasure(SaveStep(inc, t, plan, save).thread, calls) < ThreadMeasure(t, calls)
  {
  }

  lemma FinishShortens(inc: string, t: Thread, final: FinalReport, save: Reply, calls: seq<P.Call>)
    requires t.active && t.pos == At(ReportNode)
    ensures ThreadMeasure(FinishStep(inc, t, final, save).thread, calls) < ThreadMeasure(t, calls)
  {
  }

  lemma RequestShortens(cfg: P.Config, inc: string, t: Thread, g: P.State)
    requires t.active && (t.pos == At(RollbackNode) || t.pos == At(VerifyNode))
    ensures var e := if t.pos == At(VerifyNode) then VerifyBegin(inc, t, |g.calls|) else RollbackBegin(inc, t, |g.calls|);
            ThreadMeasure(e.thread, CallGateway(cfg, g, e.call).calls) < ThreadMeasure(t, g.calls)
  {
  }

  lemma StepShortens(cfg: P.Config, inc: string, t: Thread, answer: Answer,
                     incidents: map<string, IS.Incident>, g: P.State)
    requires PosOk(t, Summarize(t.trace)) && CallsOk(inc, t, g.calls) && t.active
    requires AnswerFits(t, g.calls, answer)
    ensures var e := NodeStep(inc, t, incidents, g.calls, answer);
            ThreadMeasure(e.thread, CallGateway(cfg, g, e.call).calls) < ThreadMeasure(t, g.calls)
  {
    hide Summarize, SaveStep, FinishStep, CompletePlan, R.FinishReport;
    match t.pos {
      case At(PlannerNode) => SaveShortens(inc, t, PlanOf(t.ch, answer.decision), answer.save, g.calls);
      case At(ReportNode) =>
        FinishShortens(inc, t, R.FinishReport(answer.report, t.ch.verification, t.ch.receipt), answer.saveReport, g.calls);
      case At(RollbackNode) => RequestShortens(cfg, inc, t, g);
      case At(VerifyNode) => RequestShortens(cfg, inc, t, g);
      case _ =>
    }
  }

  lemma BranchShortens(t: Thread, b: Branch, answer: BranchAnswer, calls: seq<P.Call>)
    requires t.pos.Gathering? && t.active && BranchFits(PcOf(t.pos, b), answer)
    ensures ThreadMeasure(BranchStep(t, b, answer).thread, calls) < ThreadMeasure(t, calls)
  {
  }

  lemma StatementShortens(cfg: P.Config, inc: string, t: Thread, g: P.State, statement: P.Move)
    requires CallsOk(inc, t, g.calls) && t.active && statement.Step? && Awaited(t.pos, g.calls) > 0
    requires t.pos == AwaitRollback(statement.call) || t.pos == AwaitVerify(statement.call)
    ensures ThreadMeasure(t, P.Next(cfg, g, statement).calls) < ThreadMeasure(t, g.calls)
  {
    PT.StatementsAreBounded(cfg, g, statement.call, statement.call, statement.reply, statement.nanos);
  }

  lemma OwnMoveShortens(cfg: P.Config, w: World, inc: string, move: Move)
    requires Advances(w, inc, move) && ThreadMove(move)
    requires PosOk(ThreadOf(w, inc), Summarize(ThreadOf(w, inc).trace))
    requires CallsOk(inc, ThreadOf(w, inc), w.gateway.calls)
    ensures Measure(Next(cfg, w, move), inc) < Measure(w, inc)
  {
    var t := ThreadOf(w, inc);
    if move.Step? {
      StepShortens(cfg, inc, t, move.answer, w.store.incidents, w.gateway);
    } else {
      BranchShortens(t, move.branch, move.branchAnswer, w.gateway.calls);
    }
  }

  /** What a run waits for brings it strictly closer to its end. */
  lemma AdvancesShorten(cfg: P.Config, w: World, inc: string, move: Move)
    requires Inv(cfg, w) && Advances(w, inc, move)
    ensures Measure(Next(cfg, w, move), inc) < Measure(w, inc)
  {
    assert ThreadOk(cfg, inc, ThreadOf(w, inc), w.store.incidents, w.gateway);
    if move.GatewayMove? {
      StatementShortens(cfg, inc, ThreadOf(w, inc), w.gateway, move.statement);
    } else {
      OwnMoveShortens(cfg, w, inc, move);
    }
  }

  lemma MisfitIsIdle(inc: string, t: Thread, answer: Answer, incidents: map<string, IS.Incident>, calls: seq<P.Call>)
    requires CallsOk(inc, t, calls) && !AnswerFits(t, calls, answer)
    ensures NodeStep(inc, t, incidents, calls, answer) == Quiet(t)
  {
  }

  lemma BranchMisfitIsIdle(t: Thread, b: Branch, answer: BranchAnswer)
    requires !t.pos.Gathering? || !BranchFits(PcOf(t.pos, b), answer)
    ensures BranchStep(t, b, answer) == Quiet(t)
  {
  }

  lemma IdleKeeps(cfg: P.Config, w: World, inc: string, move: Move)
    requires ThreadMove(move) && move.inc == inc && EffectOf(w, move) == Quiet(ThreadOf(w, inc))
    ensures ThreadOf(Next(cfg, w, move), inc) == ThreadOf(w, inc)
    ensures Next(cfg, w, move).gateway == w.gateway
  {
  }

  /** An active run ignores every answer it did not ask for, and every further run
      or resume. */
  lemma OwnMoveIsIdle(cfg: P.Config, w: World, inc: string, move: Move)
    requires Inv(cfg, w) && ThreadOf(w, inc).active && !Advances(w, inc, move)
    requires ThreadMove(move) && move.inc == inc && !move.Abort? && !move.DirectReview?
    ensures EffectOf(w, move) == Quiet(ThreadOf(w, inc))
  {
    var t := ThreadOf(w, inc);
    assert ThreadOk(cfg, inc, t, w.store.incidents, w.gateway);
    match move {
      case Step(_, answer, _) => MisfitIsIdle(inc, t, answer, w.store.incidents, w.gateway.calls);
      case BranchMove(_, b, answer) => BranchMisfitIsIdle(t, b, answer);
      case _ =>
    }
  }

  lemma AwaitedStays(cfg: P.Config, inc: string, t: Thread, g: P.State, statement: P.Move)
    requires CallsOk(inc, t, g.calls)
    ensures Awaited(t.pos, P.Next(cfg, g, statement).calls) <= Awaited(t.pos, g.calls)
  {
    if statement.Step? && statement.call < |g.calls| {
      match t.pos {
        case AwaitRollback(n) =>
          PT.StatementsAreBounded(cfg, g, statement.call, n, statement.reply, statement.nanos);
        case AwaitVerify(n) =>
          PT.StatementsAreBounded(cfg, g, statement.call, n, statement.reply, statement.nanos);
        case _ =>
      }
    }
  }

  lemma OtherThreadKeeps(cfg: P.Config, w: World, inc: string, other: string, e: Effect, replies: seq<Reply>)
    requires CallsOk(inc, ThreadOf(w, inc), w.gateway.calls) && other != inc
    ensures var w' := ApplyEffect(cfg, w, other, e, replies);
            && ThreadOf(w', inc) == ThreadOf(w, inc)
            && Awaited(ThreadOf(w, inc).pos, w'.gateway.calls) <= Awaited(ThreadOf(w, inc).pos, w.gateway.calls)
  {
    if e.call.Some? { AwaitedStays(cfg, inc, ThreadOf(w, inc), w.gateway, e.call.value); }
  }

  lemma OtherMoveKeeps(cfg: P.Config, w: World, inc: string, move: Move)
    requires CallsOk(inc, ThreadOf(w, inc), w.gateway.calls) && !(ThreadMove(move) && move.inc == inc)
    ensures ThreadOf(Next(cfg, w, move), inc) == ThreadOf(w, inc)
    ensures Awaited(ThreadOf(w, inc).pos, Next(cfg, w, move).gateway.calls)
         <= Awaited(ThreadOf(w, inc).pos, w.gateway.calls)
  {
    match move {
      case GatewayMove(statement) => AwaitedStays(cfg, inc, ThreadOf(w, inc), w.gateway, statement);
      case CreateIncident(_, _) =>
      case DirectReview(_, _, _, _) =>
      case _ => OtherThreadKeeps(cfg, w, inc, move.inc, EffectOf(w, move), AuditReplies(move));
    }
  }

  /** A review posted while a run is active does not touch the run. */
  lemma ReviewKeeps(cfg: P.Config, w: World, move: Move)
    requires move.DirectReview?
    ensures Measure(Next(cfg, w, move), move.inc) == Measure(w, move.inc)
    ensures ThreadOf(Next(cfg, w, move), move.inc).pos == ThreadOf(w, move.inc).pos
    ensures ThreadOf(Next(cfg, w, move), move.inc).ch == ThreadOf(w, move.inc).ch
  {
  }

  /** Nothing sets a run back. */
  lemma NothingLengthens(cfg: P.Config, w: World, inc: string, move: Move)
    requires Inv(cfg, w) && ThreadOf(w, inc).active
    ensures Measure(Next(cfg, w, move), inc) <= Measure(w, inc)
  {
    if Advances(w, inc, move) {
      AdvancesShorten(cfg, w, inc, move);
    } else if !(ThreadMove(move) && move.inc == inc) {
      assert ThreadOk(cfg, inc, ThreadOf(w, inc), w.store.incidents, w.gateway);
      OtherMoveKeeps(cfg, w, inc, move);
    } else if move.DirectReview? {
      ReviewKeeps(cfg, w, move);
    } else if !move.Abort? {
      OwnMoveIsIdle(cfg, w, inc, move);
      IdleKeeps(cfg, w, inc, move);
    }
  }

  // ------------------------------------------------------------ progress

  function NextBranchAnswer(pc: BranchPc): BranchAnswer {
    match pc
    case Querying => Items([])
    case Analysing(_) => Findings([])
    case _ => Audited(Acknowledged)
  }

  /** An answer or a gateway statement the run is waiting for. */
  function AwaitedMove(inc: string, t: Thread, calls: seq<P.Call>, answer: Answer): Move {
    match t.pos
    case Gathering(c, l, d) =>
      if !c.Gathered? then BranchMove(inc, ChangeBranch, NextBranchAnswer(c))
      else if !l.Gathered? then BranchMove(inc, LogBranch, NextBranchAnswer(l))
      else if !d.Gathered? then BranchMove(inc, DependencyBranch, NextBranchAnswer(d))
      else Step(inc, Go, [])
    case AwaitRollback(n) =>
      if Awaited(t.pos, calls) > 0 then GatewayMove(P.Step(n, Acknowledged, 0)) else Step(inc, Go, [])
    case AwaitVerify(n) =>
      if Awaited(t.pos, calls) > 0 then GatewayMove(P.Step(n, Acknowledged, 0)) else Step(inc, Go, [])
    case _ => Step(inc, answer, [])
  }

  lemma SomethingFits(w: World, inc: string, move: Move)
    requires ThreadOf(w, inc).active && PosOk(ThreadOf(w, inc), Summarize(ThreadOf(w, inc).trace))
    requires CallsOk(inc, ThreadOf(w, inc), w.gateway.calls)
    requires move == AwaitedMove(inc, ThreadOf(w, inc), w.gateway.calls, FittingAnswer(ThreadOf(w, inc).pos))
    ensures Advances(w, inc, move)
  {
  }

  /** An active run is never stuck: whatever it has come to, some answer or some
      statement of its own gateway call moves it on. */
  lemma SomethingAdvances(cfg: P.Config, w: World, inc: string) returns (move: Move)
    requires Inv(cfg, w) && ThreadOf(w, inc).active
    ensures Advances(w, inc, move)
  {
    var t := ThreadOf(w, inc);
    move := AwaitedMove(inc, t, w.gateway.calls, FittingAnswer(t.pos));
    assert ThreadOk(cfg, inc, t, w.store.incidents, w.gateway);
    SomethingFits(w, inc, move);
  }

  function FittingAnswer(pos: Pos): Answer {
    match pos
    case At(Triage) => Triaged("unknown")
    case At(PlannerNode) => Answer.Planned(PlannerDecision([], None, ""), Acknowledged)
    case At(CriticNode) => Critiqued(CriticVerdict(ApprovePlan, ""))
    case At(PolicyNode) => Decided(Allow)
    case At(ReportNode) => Answer.Reported(FinalReport("", "", "", "", [], [], [], [], [], None), Acknowledged)
    case _ => Go
  }

  /** Where a run that raised is taken up again: a branch that had finished keeps its
      evidence and any other starts over, an awaited call is made again by its node,
      and every other node is entered again. Nothing the run holds is lost. */
  lemma StopKeepsThePlace(t: Thread)
    requires t.active
    ensures var t' := Stop(t);
            && !t'.active && t'.ch == t.ch && t'.trace == t.trace
            && (t.pos.Gathering? ==> t'.pos.Gathering? && forall b: Branch ::
                  PcOf(t'.pos, b) == if PcOf(t.pos, b).Gathered? then PcOf(t.pos, b) else Querying)
            && (t.pos.AwaitRollback? ==> t'.pos == At(RollbackNode)) && (t.pos.AwaitVerify? ==> t'.pos == At(VerifyNode))
            && (t.pos.At? || t.pos in {NotStarted, Interrupted, Ended} ==> t'.pos == t.pos)
  {
  }

  // ------------------------------------------------------------ whole runs

  /** The run of this incident stays active throughout the moves. */
  ghost predicate ActiveThroughout(cfg: P.Config, w: World, inc: string, moves: seq<Move>) {
    forall n | 0 <= n <= |moves| :: ThreadOf(Run(cfg, w, moves[..n]), inc).active
  }

  function Advancing(cfg: P.Config, w: World, inc: string, moves: seq<Move>): nat
    decreases |moves|
  {
    if moves == [] then 0
    else
      var front := moves[..|moves| - 1];
      Advancing(cfg, w, inc, front) + One(Advances(Run(cfg, w, front), inc, moves[|moves| - 1]))
  }

  lemma {:induction false} AnswersAreConsumed(cfg: P.Config, w: World, inc: string, moves: seq<Move>)
    requires forall n | 0 <= n <= |moves| :: Inv(cfg, Run(cfg, w, moves[..n]))
    requires ActiveThroughout(cfg, w, inc, moves)
    ensures Advancing(cfg, w, inc, moves) + Measure(Run(cfg, w, moves), inc) <= Measure(w, inc)
    decreases |moves|
  {
    assert moves[..|moves|] == moves;
    if moves != [] {
      var front := moves[..|moves| - 1];
      forall n | 0 <= n <= |front| ensures front[..n] == moves[..n] {}
      AnswersAreConsumed(cfg, w, inc, front);
      var mid := Run(cfg, w, front);
      NothingLengthens(cfg, mid, inc, moves[|moves| - 1]);
      if Advances(mid, inc, moves[|moves| - 1]) { AdvancesShorten(cfg, mid, inc, moves[|moves| - 1]); }
    }
  }

  lemma PrefixesKeepInv(cfg: P.Config, before: seq<Move>, later: seq<Move>, n: nat)
    requires |before| + |later| < T.TWO_TO_64 && n <= |later|
    ensures Inv(cfg, Run(cfg, Run(cfg, Origin, before), later[..n]))
  {
    HistoryInv(cfg, before + later[..n]);
    RunAppend(cfg, Origin, before, later[..n]);
  }

  /** In any history, from any point on, a run that is still active has consumed at
      most BOUND awaited answers and statements: with one more it has ended, waits
      for approval, or was aborted. */
  lemma RunsEnd(cfg: P.Config, before: seq<Move>, later: seq<Move>, inc: string)
    requires |before| + |later| < T.TWO_TO_64
    requires ActiveThroughout(cfg, Run(cfg, Origin, before), inc, later)
    ensures Advancing(cfg, Run(cfg, Origin, before), inc, later) <= BOUND
  {
    var w := Run(cfg, Origin, before);
    forall n | 0 <= n <= |later| ensures Inv(cfg, Run(cfg, w, later[..n])) {
      PrefixesKeepInv(cfg, before, later, n);
    }
    AnswersAreConsumed(cfg, w, inc, later);
  }

  // ------------------------------------------------------------ how a run stops

  /** A service turns the node down, or the reasoner breaks its schema. */
  predicate Fails(inc: string, t: Thread, incidents: map<string, IS.Incident>, calls: seq<P.Call>, answer: Answer) {
    match t.pos
    case At(node) =>
      (match node
       case LoadIncident => answer.Go? && inc !in incidents
       case PlannerNode => answer.Planned? && !(SchemaAdmits(answer.decision) && answer.save.Acknowledged?)
       case RollbackNode => answer.Go? && !(t.ch.action.Some? && Accepted(RequestFor(inc, t.ch, t.ch.action.value)))
       case VerifyNode => answer.Go? && !VerifyAccepted(inc, t.ch)
       case ReportNode => answer.Reported? && !answer.saveReport.Acknowledged?
       case _ => false)
    case AwaitRollback(n) =>
      answer.Go? && n < |calls| && calls[n].Rollback? && calls[n].pc.Returned? && !calls[n].pc.outcome.Succeeded()
    case AwaitVerify(n) =>
      answer.Go? && n < |calls| && calls[n].Verify? && calls[n].vpc.VerifyReturned? && !calls[n].vpc.verdict.Verdict?
    case _ => false
  }

  /** The move breaks the run of this incident off. */
  predicate Breaks(w: World, move: Move, inc: string) {
    var t := ThreadOf(w, inc);
    && ThreadMove(move) && move.inc == inc && t.active
    && (move.Abort? || (move.Step? && Fails(inc, t, w.store.incidents, w.gateway.calls, move.answer)))
  }

  /** Not running, and neither at the end nor at the interrupt nor before the start. */
  predicate Stranded(t: Thread) {
    !t.active && t.pos != NotStarted && t.pos != Ended && t.pos != Interrupted
  }

  lemma NodeStrands(inc: string, t: Thread, incidents: map<string, IS.Incident>, calls: seq<P.Call>, answer: Answer)
    requires t.active && t.pos != NotStarted && t.pos != Ended && t.pos != Interrupted
    ensures Stranded(NodeStep(inc, t, incidents, calls, answer).thread) <==> Fails(inc, t, incidents, calls, answer)
  {
  }

  lemma ActiveIsUnderWay(cfg: P.Config, inc: string, t: Thread, incidents: map<string, IS.Incident>, g: P.State)
    requires ThreadOk(cfg, inc, t, incidents, g) && t.active
    ensures t.pos != NotStarted && t.pos != Ended && t.pos != Interrupted
  {
  }

  lemma ReviewStrands(inc: string, t: Thread, incidents: map<string, IS.Incident>,
                      approved: bool, reviewer: string, comment: string, api: Reply)
    requires !t.active
    ensures var t' := ResumeStep(inc, t, incidents, approved, reviewer, comment, api).thread;
            Stranded(t') <==> Stranded(t) && !t'.active
  {
  }

  lemma BranchStrands(t: Thread, b: Branch, answer: BranchAnswer)
    requires t.active
    ensures BranchStep(t, b, answer).thread.active
  {
  }

  lemma ActiveStrands(cfg: P.Config, w: World, move: Move)
    requires ThreadMove(move) && ThreadOf(w, move.inc).active
    requires ThreadOk(cfg, move.inc, ThreadOf(w, move.inc), w.store.incidents, w.gateway)
    ensures Stranded(EffectOf(w, move).thread) <==> Breaks(w, move, move.inc)
  {
    var t := ThreadOf(w, move.inc);
    ActiveIsUnderWay(cfg, move.inc, t, w.store.incidents, w.gateway);
    hide ThreadOk, NodeStep, BranchStep, Fails;
    if move.BranchMove? { BranchStrands(t, move.branch, move.branchAnswer); }
    if move.Step? { NodeStrands(move.inc, t, w.store.incidents, w.gateway.calls, move.answer); }
  }

  lemma IdleStrands(w: World, move: Move)
    requires ThreadMove(move) && !ThreadOf(w, move.inc).active
    ensures var (t, t') := (ThreadOf(w, move.inc), EffectOf(w, move).thread);
            Stranded(t') <==> Stranded(t) && !t'.active
  {
    hide ResumeStep;
    if move.Resume? {
      ReviewStrands(move.inc, ThreadOf(w, move.inc), w.store.incidents,
                    move.approved, move.reviewer, move.comment, move.api);
    }
  }

  lemma OwnMoveStrands(cfg: P.Config, w: World, move: Move)
    requires Inv(cfg, w) && ThreadMove(move)
    ensures var (t, t') := (ThreadOf(w, move.inc), EffectOf(w, move).thread);
            Stranded(t') <==> Breaks(w, move, move.inc) || (Stranded(t) && !t'.active)
    ensures Breaks(w, move, move.inc) ==> !EffectOf(w, move).thread.active
  {
    assert ThreadOk(cfg, move.inc, ThreadOf(w, move.inc), w.store.incidents, w.gateway);
    hide Inv, ThreadOk, EffectOf, Fails;
    if ThreadOf(w, move.inc).active { ActiveStrands(cfg, w, move); } else { IdleStrands(w, move); }
  }

  lemma MoveStrands(cfg: P.Config, w: World, move: Move, inc: string)
    requires Inv(cfg, w)
    ensures var (t, t') := (ThreadOf(w, inc), ThreadOf(Next(cfg, w, move), inc));
            Stranded(t') <==> Breaks(w, move, inc) || (Stranded(t) && !t'.active)
    ensures Breaks(w, move, inc) ==> !ThreadOf(Next(cfg, w, move), inc).active
  {
    hide Inv, NodeStep, BranchStep, ResumeStep, DirectStep, Fails;
    if ThreadMove(move) && move.inc == inc { OwnMoveStrands(cfg, w, move); }
  }

  /** The run broke off at move `n`, and nobody has taken it up again. */
  predicate BrokenOffAt(cfg: P.Config, moves: seq<Move>, inc: string, n: nat) {
    && n < |moves| && Breaks(Run(cfg, Origin, moves[..n]), moves[n], inc)
    && forall k | n < k <= |moves| :: !ThreadOf(Run(cfg, Origin, moves[..k]), inc).active
  }

  ghost predicate BrokenOff(cfg: P.Config, moves: seq<Move>, inc: string) {
    exists n: nat :: BrokenOffAt(cfg, moves, inc, n)
  }

  lemma BrokenOffStep(cfg: P.Config, moves: seq<Move>, inc: string)
    requires moves != []
    ensures var front := moves[..|moves| - 1];
            BrokenOff(cfg, moves, inc)
            <==> !ThreadOf(Run(cfg, Origin, moves), inc).active &&
                 (Breaks(Run(cfg, Origin, front), moves[|moves| - 1], inc) || BrokenOff(cfg, front, inc))
  {
    hide Breaks, Run;
    var last := |moves| - 1;
    var front := moves[..last];
    assert moves[..|moves|] == moves;
    assert forall n | 0 <= n <= last :: front[..n] == moves[..n];
    if BrokenOff(cfg, moves, inc) {
      var n: nat :| BrokenOffAt(cfg, moves, inc, n);
      if n < last { assert BrokenOffAt(cfg, front, inc, n); }
    }
    if !ThreadOf(Run(cfg, Origin, moves), inc).active {
      if BrokenOff(cfg, front, inc) {
        var n: nat :| BrokenOffAt(cfg, front, inc, n);
        assert BrokenOffAt(cfg, moves, inc, n);
      } else if Breaks(Run(cfg, Origin, front), moves[last], inc) {
        assert BrokenOffAt(cfg, moves, inc, last);
      }
    }
  }

  /** Over every history: a run that is not under way has ended, waits at the
      interrupt or was never started, unless it was aborted or a service turned it
      down and nobody has resumed or restarted it since. */
  lemma {:induction false} RunsStopShortExactlyWhenBrokenOff(cfg: P.Config, moves: seq<Move>, inc: string)
    requires |moves| < T.TWO_TO_64
    ensures Stranded(ThreadOf(Run(cfg, Origin, moves), inc)) <==> BrokenOff(cfg, moves, inc)
    decreases |moves|
  {
    if moves != [] {
      var front := moves[..|moves| - 1];
      RunsStopShortExactlyWhenBrokenOff(cfg, front, inc);
      HistoryInv(cfg, front);
      MoveStrands(cfg, Run(cfg, Origin, front), moves[|moves| - 1], inc);
      BrokenOffStep(cfg, moves, inc);
    }
  }
}
