/** The orchestration graph as a step machine, composed with the incident store and
    the interleaved rollback gateway.

    Each incident has one thread: the values its channels hold, where its run
    stands, and a trace of what it did. A move is one node, one await of an
    evidence branch, one statement of the gateway, or one API call. Everything the
    reasoner, a human, a database or the network decides comes with the move, so a
    statement about all sequences of moves holds for every reasoner. */
module Graph {
  import opened Common
  import opened Models
  import opened Gateway
  import opened Planner
  import opened Text
  import R = Report
  import IS = IncidentStore
  import P = RollbackProtocol

  // ------------------------------------------------------------ evidence branches

  datatype Branch = ChangeBranch | LogBranch | DependencyBranch

  function SourceType(b: Branch): string {
    match b case ChangeBranch => "change" case LogBranch => "log" case DependencyBranch => "dependency"
  }

  function Prefix(b: Branch): string {
    match b case ChangeBranch => "chg" case LogBranch => "log" case DependencyBranch => "dep"
  }

  function AgentName(b: Branch): string {
    match b
    case ChangeBranch => "change_agent"
    case LogBranch => "log_agent"
    case DependencyBranch => "dependency_agent"
  }

  /** What an evidence branch awaits next. */
  datatype BranchPc =
    | Querying                              // the gateway query
    | Announcing(items: seq<Finding>)       // the agent_started event
    | Analysing(items: seq<Finding>)        // the reasoner
    | Recording(findings: seq<Finding>)     // the agent run record
    | Closing(findings: seq<Finding>)       // the agent_completed event
    | Gathered(evidence: seq<Evidence>)

  datatype BranchAnswer = Items(items: seq<Finding>) | Findings(findings: seq<Finding>) | Audited(reply: Reply)

  /** An answer of the wrong kind changes nothing. */
  function BranchNext(b: Branch, pc: BranchPc, answer: BranchAnswer): BranchPc {
    match (pc, answer)
    case (Querying, Items(items)) => Announcing(items)
    case (Announcing(items), Audited(_)) => Analysing(items)
    case (Analysing(_), Findings(f)) => Recording(f)
    case (Recording(f), Audited(_)) => Closing(f)
    case (Closing(f), Audited(_)) => Gathered(NumberedEvidence(SourceType(b), f, Prefix(b)))
    case _ => pc
  }

  function BranchAudits(b: Branch, pc: BranchPc, answer: BranchAnswer): seq<IS.Body> {
    if !answer.Audited? then []
    else
      match pc
      case Announcing(_) => [Started(AgentName(b))]
      case Recording(_) => [Ran(AgentName(b), "completed")]
      case Closing(_) => [Finished(AgentName(b))]
      case _ => []
  }

  function Started(agent: string): IS.Body { IS.Event("agent_started", "agent", agent) }

  function Ran(agent: string, status: string): IS.Body { IS.AgentRun(agent, "", status) }

  function Finished(agent: string): IS.Body { IS.Event("agent_completed", "agent", agent) }

  /** The audit writes of an agent that answers. */
  function AgentAudits(agent: string): seq<IS.Body> {
    [Started(agent), Ran(agent, "completed"), Finished(agent)]
  }

  // ------------------------------------------------------------ threads

  datatype Node =
    | LoadIncident | Triage | PlannerNode | CriticNode | PolicyNode
    | GateNode | RollbackNode | VerifyNode | ReportNode

  /** Where a thread stands; the values survive from run to run. */
  datatype Pos =
    | NotStarted
    | At(node: Node)
    | Gathering(change: BranchPc, log: BranchPc, dependency: BranchPc)
    | Interrupted
    | AwaitRollback(call: nat)
    | AwaitVerify(call: nat)
    | Ended

  /** The channels of the graph state. */
  datatype Channels = Channels(
    serviceName: string, playbookKey: string, context: Option<IncidentContext>,
    incidentType: string,
    change: seq<Evidence>, log: seq<Evidence>, dependency: seq<Evidence>,
    hypotheses: seq<Hypothesis>, action: Option<ActionPlan>, notes: string, feedback: string,
    critic: Option<CriticVerdict>, policy: Option<PolicyDecision>, replanCount: nat,
    approval: string, reviewer: Option<string>,
    receipt: Option<ActionReceipt>, verification: Option<VerificationResult>,
    report: Option<FinalReport>)

  const NoValues := Channels("", "", None, "", [], [], [], [], None, "", "", None, None, 0, "", None, None, None, None)

  datatype Event =
    | RunStarted
    | AnalysisSaved(evidence: seq<Evidence>, hypotheses: seq<Hypothesis>, saved: Option<ActionPlan>)
    | PolicyDecided(decision: PolicyDecision)
    | InterruptShown(shown: Option<ActionPlan>)
    | GateDecided(granted: bool, decider: string)
    | Reviewed(granted: bool, decider: string, comment: string)
    | RollbackRequested(req: RollbackRequest)
    | VerdictGiven(result: VerificationResult)
    | ReportSaved(report: FinalReport)
    | Completed(node: Node)

  /** `active`: an invocation of the graph is running. A run that raised keeps its
      position, so that a resume retries from there. */
  datatype Thread = Thread(ch: Channels, pos: Pos, active: bool, trace: seq<Event>)

  const NewThread := Thread(NoValues, NotStarted, false, [])

  // ------------------------------------------------------------ routing

  function RouteAfterCritic(ch: Channels): Node {
    if ch.critic.Some? && ch.critic.value.decision.RequestReplan? && ch.replanCount <= 1
    then PlannerNode else PolicyNode
  }

  function RouteAfterPolicy(ch: Channels): Node {
    if ch.action.None? || ch.policy == Some(Deny) then VerifyNode
    else if ch.policy == Some(Allow) then RollbackNode
    else GateNode
  }

  function RouteAfterApproval(ch: Channels): Node {
    if ch.approval == "approved" then RollbackNode else VerifyNode
  }

  /** `determine_status`. */
  function DetermineStatus(ch: Channels, interrupted: bool): string {
    if interrupted then "waiting_for_approval"
    else if ch.approval == "rejected" then "rejected"
    else if ch.verification.Some? && ch.verification.value.status == "recovered" then "recovered"
    else if ch.report.Some? then (if ch.action.None? then "diagnosed" else "completed")
    else "diagnosing"
  }

  /** What `run` and `resume` answer: the interrupt is pending exactly at `Interrupted`. */
  function StatusOf(t: Thread): string {
    DetermineStatus(t.ch, t.pos == Interrupted)
  }

  // ------------------------------------------------------------ requests to the gateway

  function ActionKey(inc: string, actionType: string, service: string): string {
    inc + ":" + actionType + ":" + service
  }

  function RequestFor(inc: string, ch: Channels, a: ActionPlan): RollbackRequest {
    RollbackRequest(inc, ch.playbookKey, a.targetService, a.currentRevision, a.targetRevision,
                    ActionKey(inc, a.actionType, a.targetService),
                    if ch.reviewer.Some? then ch.reviewer.value else "system")
  }

  /** What the gateway's HTTP handler lets through to the store. */
  predicate Accepted(req: RollbackRequest) {
    req.incidentId != "" && req.targetService != "" && req.idempotencyKey != "" &&
    req.currentRevision != "" && req.targetRevision != ""
  }

  predicate VerifyAccepted(inc: string, ch: Channels) {
    inc != "" && ch.serviceName != ""
  }

  /** What the incident API's HTTP handlers let through to its store. */
  predicate Admitted(req: IS.CreateRequest) {
    && req.serviceName != "" && req.severity != "" && req.alertSummary != "" && req.context.Some?
    && Strip(req.context.value.cluster) != "" && Strip(req.context.value.namespace) != ""
    && Strip(req.context.value.releaseVersion) != "" && Strip(req.context.value.previousVersion) != ""
  }

  predicate ReviewAdmitted(reviewer: string) {
    Strip(reviewer) != ""
  }

  // ------------------------------------------------------------ one step of a thread

  /** What the outside world answers to a node. */
  datatype Answer =
    | Go
    | Triaged(incidentType: string)
    | Planned(decision: PlannerDecision, save: Reply)
    | Critiqued(verdict: CriticVerdict)
    | Decided(policy: PolicyDecision)
    | Reported(report: FinalReport, saveReport: Reply)

  /** The thread after the step, and what it did outside. */
  datatype Effect = Effect(thread: Thread, write: Option<IS.Op>, call: Option<P.Move>, audits: seq<IS.Body>)

  function Quiet(t: Thread): Effect {
    Effect(t, None, None, [])
  }

  function KeepGathered(pc: BranchPc): BranchPc {
    if pc.Gathered? then pc else Querying
  }

  /** A raised exception ends the invocation; unfinished work is redone on retry. */
  function Stop(t: Thread): Thread {
    t.(active := false,
       pos := match t.pos
              case Gathering(c, l, d) => Gathering(KeepGathered(c), KeepGathered(l), KeepGathered(d))
              case AwaitRollback(_) => At(RollbackNode)
              case AwaitVerify(_) => At(VerifyNode)
              case _ => t.pos)
  }

  function LoadStep(inc: string, t: Thread, incidents: map<string, IS.Incident>): Effect {
    if inc !in incidents then Quiet(Stop(t))
    else
      var i := incidents[inc];
      Effect(t.(ch := t.ch.(serviceName := i.serviceName, playbookKey := i.playbookKey,
                            context := i.context, replanCount := 0),
                pos := At(Triage)),
             None, None, [IS.Event("incident_loaded", "system", "load_incident")])
  }

  function TriageStep(t: Thread, incidentType: string): Effect {
    Effect(t.(ch := t.ch.(incidentType := incidentType), pos := Gathering(Querying, Querying, Querying)),
           None, None, AgentAudits("triage_agent"))
  }

  /** The join: the planner is reached when all three branches are through. */
  function JoinStep(t: Thread): Effect
    requires t.pos.Gathering?
  {
    if t.pos.change.Gathered? && t.pos.log.Gathered? && t.pos.dependency.Gathered? then
      Quiet(t.(ch := t.ch.(change := t.pos.change.evidence, log := t.pos.log.evidence,
                           dependency := t.pos.dependency.evidence),
               pos := At(PlannerNode)))
    else Quiet(t)
  }

  function Release(ch: Channels): string {
    if ch.context.Some? then ch.context.value.releaseVersion else ""
  }

  function Previous(ch: Channels): string {
    if ch.context.Some? then ch.context.value.previousVersion else ""
  }

  function PlanOf(ch: Channels, decision: PlannerDecision): Plan {
    CompletePlan(decision, ch.serviceName, Release(ch), Previous(ch), ch.change, ch.log, ch.dependency)
  }

  function Evidences(ch: Channels): seq<Evidence> {
    ch.change + ch.log + ch.dependency
  }

  function PlannerStep(inc: string, t: Thread, decision: PlannerDecision, save: Reply): Effect {
    if SchemaAdmits(decision) then SaveStep(inc, t, PlanOf(t.ch, decision), save)
    else Effect(Stop(t), None, None, FailureAudits("planner_agent"))
  }

  function SaveStep(inc: string, t: Thread, plan: Plan, save: Reply): Effect {
    var write := Some(IS.SaveAnalysis(inc, IS.Analysis(Evidences(t.ch), plan.hypotheses, plan.action)));
    var saved := AnalysisSaved(Evidences(t.ch), plan.hypotheses, plan.action);
    match save
    case Refused => Effect(Stop(t), None, None, AgentAudits("planner_agent"))
    case Lost => Effect(Stop(t.(trace := t.trace + [saved])), write, None, AgentAudits("planner_agent"))
    case Acknowledged =>
      Effect(t.(ch := t.ch.(hypotheses := plan.hypotheses, action := plan.action, notes := plan.notes, feedback := ""),
                pos := At(CriticNode),
                trace := t.trace + [saved] + [Completed(PlannerNode)]),
             write, None, AgentAudits("planner_agent"))
  }

  function CriticStep(t: Thread, verdict: CriticVerdict): Effect {
    var ch := t.ch.(critic := Some(verdict), feedback := verdict.reason,
                    replanCount := t.ch.replanCount + (if verdict.decision.RequestReplan? then 1 else 0));
    Effect(t.(ch := ch, pos := At(RouteAfterCritic(ch)), trace := t.trace + [Completed(CriticNode)]),
           None, None, AgentAudits("critic_agent"))
  }

  function PolicyStep(t: Thread, policy: PolicyDecision): Effect {
    var ch := t.ch.(policy := Some(policy));
    Effect(t.(ch := ch, pos := At(RouteAfterPolicy(ch)), trace := t.trace + [PolicyDecided(policy)]),
           None, None, AgentAudits("policy_agent"))
  }

  function GateStep(t: Thread): Effect {
    Quiet(t.(pos := Interrupted, active := false, trace := t.trace + [InterruptShown(t.ch.action)]))
  }

  function RollbackBegin(inc: string, t: Thread, calls: nat): Effect {
    if t.ch.action.None? then Quiet(Stop(t))
    else
      var req := RequestFor(inc, t.ch, t.ch.action.value);
      var audits := [IS.Event("action_requested", "system", "rollback_action")];
      if !Accepted(req) then Effect(Stop(t), None, None, audits)
      else Effect(t.(pos := AwaitRollback(calls), trace := t.trace + [RollbackRequested(req)]),
                  None, Some(P.BeginRollback(req)), audits)
  }

  function RollbackEnd(t: Thread, c: P.Call): Effect {
    if c.Rollback? && c.pc.Returned? then
      Quiet(if c.pc.outcome.Succeeded() then WithReceipt(t, c.pc.outcome.receipt) else Stop(t))
    else Quiet(t)
  }

  function WithReceipt(t: Thread, receipt: ActionReceipt): Thread {
    t.(ch := t.ch.(receipt := Some(receipt.(verificationStatus := "pending"))),
       pos := At(VerifyNode),
       trace := t.trace + [Completed(RollbackNode)])
  }

  function VerifyBegin(inc: string, t: Thread, calls: nat): Effect {
    if !VerifyAccepted(inc, t.ch) then Quiet(Stop(t))
    else Effect(t.(pos := AwaitVerify(calls)), None, Some(P.BeginVerify(VerifyRequest(inc, t.ch.playbookKey))), [])
  }

  function VerifyEnd(t: Thread, c: P.Call): Effect {
    if c.Verify? && c.vpc.VerifyReturned? then
      Quiet(if c.vpc.verdict.Verdict? then WithVerdict(t, c.vpc.verdict.result) else Stop(t))
    else Quiet(t)
  }

  function WithVerdict(t: Thread, result: VerificationResult): Thread {
    t.(ch := t.ch.(verification := Some(result),
                   receipt := if t.ch.receipt.None? then None
                              else Some(t.ch.receipt.value.(verificationStatus := result.status))),
       pos := At(ReportNode),
       trace := t.trace + [VerdictGiven(result)])
  }

  function ReportStep(inc: string, t: Thread, report: FinalReport, save: Reply): Effect {
    FinishStep(inc, t, R.FinishReport(report, t.ch.verification, t.ch.receipt), save)
  }

  function FinishStep(inc: string, t: Thread, final: FinalReport, save: Reply): Effect {
    var write := Some(IS.SaveReport(inc, Some(final)));
    match save
    case Refused => Effect(Stop(t), None, None, AgentAudits("report_agent"))
    case Lost => Effect(Stop(t.(trace := t.trace + [ReportSaved(final)])), write, None, AgentAudits("report_agent"))
    case Acknowledged =>
      Effect(t.(ch := t.ch.(report := Some(final)), pos := Ended, active := false,
                trace := t.trace + [ReportSaved(final)] + [Completed(ReportNode)]),
             write, None,
             AgentAudits("report_agent") + [IS.Event("report_saved", "system", "finalize_report")])
  }

  /** One node of an active thread; an answer the node did not ask for changes nothing. */
  function NodeStep(inc: string, t: Thread, incidents: map<string, IS.Incident>, calls: seq<P.Call>, answer: Answer): Effect {
    match t.pos
    case At(LoadIncident) => if answer.Go? then LoadStep(inc, t, incidents) else Quiet(t)
    case At(Triage) => if answer.Triaged? then TriageStep(t, answer.incidentType) else Quiet(t)
    case Gathering(_, _, _) => if answer.Go? then JoinStep(t) else Quiet(t)
    case At(PlannerNode) => if answer.Planned? then PlannerStep(inc, t, answer.decision, answer.save) else Quiet(t)
    case At(CriticNode) => if answer.Critiqued? then CriticStep(t, answer.verdict) else Quiet(t)
    case At(PolicyNode) => if answer.Decided? then PolicyStep(t, answer.policy) else Quiet(t)
    case At(GateNode) => if answer.Go? then GateStep(t) else Quiet(t)
    case At(RollbackNode) => if answer.Go? then RollbackBegin(inc, t, |calls|) else Quiet(t)
    case AwaitRollback(n) => if answer.Go? && n < |calls| then RollbackEnd(t, calls[n]) else Quiet(t)
    case At(VerifyNode) => if answer.Go? then VerifyBegin(inc, t, |calls|) else Quiet(t)
    case AwaitVerify(n) => if answer.Go? && n < |calls| then VerifyEnd(t, calls[n]) else Quiet(t)
    case At(ReportNode) => if answer.Reported? then ReportStep(inc, t, answer.report, answer.saveReport) else Quiet(t)
    case _ => Quiet(t)
  }

  function BranchStep(t: Thread, b: Branch, answer: BranchAnswer): Effect {
    if !t.pos.Gathering? then Quiet(t)
    else
      match b
      case ChangeBranch =>
        Effect(t.(pos := t.pos.(change := BranchNext(b, t.pos.change, answer))), None, None,
               BranchAudits(b, t.pos.change, answer))
      case LogBranch =>
        Effect(t.(pos := t.pos.(log := BranchNext(b, t.pos.log, answer))), None, None,
               BranchAudits(b, t.pos.log, answer))
      case DependencyBranch =>
        Effect(t.(pos := t.pos.(dependency := BranchNext(b, t.pos.dependency, answer))), None, None,
               BranchAudits(b, t.pos.dependency, answer))
  }

  /** `run`: a fresh pass through the graph over the values of earlier runs. */
  function StartStep(t: Thread): Effect {
    Quiet(t.(pos := At(LoadIncident), active := true, trace := t.trace + [RunStarted]))
  }

  /** A review that reached the incident store, by `resume` or directly. */
  function Told(t: Thread, approved: bool, reviewer: string, comment: string): Thread {
    t.(trace := t.trace + [Reviewed(approved, reviewer, comment)])
  }

  /** The part of `resume` behind the API call: a pending interrupt is answered, a
      run that raised is retried, anything else is left as it is. */
  function ResumeThread(t: Thread, approved: bool, reviewer: string): Thread {
    match t.pos
    case Interrupted =>
      var ch := t.ch.(approval := ReviewWord(approved), reviewer := Some(reviewer));
      t.(ch := ch, pos := At(RouteAfterApproval(ch)), active := true,
         trace := t.trace + [GateDecided(approved, reviewer)])
    case NotStarted => t
    case Ended => t
    case _ => t.(active := true)
  }

  function ReviewWord(approved: bool): string {
    if approved then "approved" else "rejected"
  }

  function ReviewOp(inc: string, approved: bool, reviewer: string, comment: string): IS.Op {
    IS.Review(inc, ReviewWord(approved), reviewer, comment)
  }

  function ResumeStep(inc: string, t: Thread, incidents: map<string, IS.Incident>,
                      approved: bool, reviewer: string, comment: string, api: Reply): Effect
  {
    var write := Some(ReviewOp(inc, approved, reviewer, comment));
    var told := Told(t, approved, reviewer, comment);
    if api.Refused? || !ReviewAdmitted(reviewer) || inc !in incidents then Quiet(t)
    else if api.Lost? then Effect(told, write, None, [])
    else Effect(ResumeThread(told, approved, reviewer), write, None, [IS.Event("approval_reviewed", "human", reviewer)])
  }

  /** A review posted to the incident API by someone else: the thread is not told,
      only its trace records it. */
  function DirectStep(inc: string, t: Thread, incidents: map<string, IS.Incident>,
                      approved: bool, reviewer: string, comment: string): Effect
  {
    if !ReviewAdmitted(reviewer) || inc !in incidents then Quiet(t)
    else Effect(Told(t, approved, reviewer, comment), Some(ReviewOp(inc, approved, reviewer, comment)), None, [])
  }

  function AbortAudits(t: Thread): seq<IS.Body> {
    match t.pos
    case At(Triage) => FailureAudits("triage_agent")
    case At(PlannerNode) => FailureAudits("planner_agent")
    case At(CriticNode) => FailureAudits("critic_agent")
    case At(PolicyNode) => FailureAudits("policy_agent")
    case At(ReportNode) => FailureAudits("report_agent")
    case _ => []
  }

  function FailureAudits(agent: string): seq<IS.Body> {
    [Started(agent), Ran(agent, "failed"), IS.Event("agent_failed", "agent", agent)]
  }

  // ------------------------------------------------------------ the world

  /** Best-effort audit writes: how many were attempted, how many the caller saw
      fail, and how many of those were recorded all the same. */
  datatype Audit = Audit(attempted: nat, failed: nat, lost: nat)

  datatype World = World(store: IS.State, gateway: P.State, threads: map<string, Thread>, audit: Audit)

  datatype Move =
    | GatewayMove(statement: P.Move)
    | CreateIncident(nanos: int, newIncident: IS.CreateRequest)
    | DirectReview(inc: string, approved: bool, reviewer: string, comment: string)
    | StartRun(inc: string)
    | Resume(inc: string, approved: bool, reviewer: string, comment: string, api: Reply, audited: seq<Reply>)
    | Step(inc: string, answer: Answer, audited: seq<Reply>)
    | BranchMove(inc: string, branch: Branch, branchAnswer: BranchAnswer)
    | Abort(inc: string, audited: seq<Reply>)

  const Origin := World(IS.Empty, P.Empty, map[], Audit(0, 0, 0))

  function Stored(threads: map<string, Thread>, inc: string): Thread {
    if inc in threads then threads[inc] else NewThread
  }

  function ThreadOf(w: World, inc: string): Thread {
    Stored(w.threads, inc)
  }

  predicate ThreadMove(move: Move) {
    move.DirectReview? || move.StartRun? || move.Resume? || move.Step? || move.BranchMove? || move.Abort?
  }

  /** The run lock admits one invocation per incident: a second `run` or `resume` is
      refused while one is active, and only an active thread moves. */
  function EffectOf(w: World, move: Move): Effect
    requires ThreadMove(move)
  {
    var t := ThreadOf(w, move.inc);
    match move
    case DirectReview(inc, approved, reviewer, comment) =>
      DirectStep(inc, t, w.store.incidents, approved, reviewer, comment)
    case StartRun(inc) => if t.active then Quiet(t) else StartStep(t)
    case Resume(inc, approved, reviewer, comment, api, _) =>
      if t.active then Quiet(t)
      else ResumeStep(inc, t, w.store.incidents, approved, reviewer, comment, api)
    case Step(inc, answer, _) =>
      if !t.active then Quiet(t) else NodeStep(inc, t, w.store.incidents, w.gateway.calls, answer)
    case BranchMove(inc, b, answer) => if !t.active then Quiet(t) else BranchStep(t, b, answer)
    case Abort(inc, _) => if !t.active then Quiet(t) else Effect(Stop(t), None, None, AbortAudits(t))
  }

  /** How the audit writes of a move end; those not listed are acknowledged. */
  function AuditReplies(move: Move): seq<Reply> {
    match move
    case Resume(_, _, _, _, _, audited) => audited
    case Step(_, _, audited) => audited
    case Abort(_, audited) => audited
    case BranchMove(_, _, answer) => if answer.Audited? then [answer.reply] else []
    case _ => []
  }

  function RecordOp(inc: string, body: IS.Body): IS.Op {
    if body.Event? then IS.RecordEvent(inc, body) else IS.RecordRun(inc, body)
  }

  /** One audit write: a failure is counted and otherwise ignored. */
  function AuditOne(store: IS.State, audit: Audit, inc: string, body: IS.Body, reply: Reply): (IS.State, Audit) {
    if reply.Refused? || inc !in store.incidents then (store, Audit(audit.attempted + 1, audit.failed + 1, audit.lost))
    else
      (IS.Apply(store, RecordOp(inc, body)).0,
       if reply.Lost? then Audit(audit.attempted + 1, audit.failed + 1, audit.lost + 1)
       else audit.(attempted := audit.attempted + 1))
  }

  function AuditAll(store: IS.State, audit: Audit, inc: string, bodies: seq<IS.Body>, replies: seq<Reply>): (IS.State, Audit)
    decreases |bodies|
  {
    if bodies == [] then (store, audit)
    else
      var (store', audit') := AuditOne(store, audit, inc, bodies[0], if replies == [] then Acknowledged else replies[0]);
      AuditAll(store', audit', inc, bodies[1..], if replies == [] then [] else replies[1..])
  }

  function WriteStore(store: IS.State, write: Option<IS.Op>): IS.State {
    if write.Some? then IS.Apply(store, write.value).0 else store
  }

  function CallGateway(cfg: P.Config, g: P.State, call: Option<P.Move>): P.State {
    if call.Some? then P.Next(cfg, g, call.value) else g
  }

  function ApplyEffect(cfg: P.Config, w: World, inc: string, e: Effect, replies: seq<Reply>): World {
    var (store, audit) := AuditAll(WriteStore(w.store, e.write), w.audit, inc, e.audits, replies);
    World(store, CallGateway(cfg, w.gateway, e.call), w.threads[inc := e.thread], audit)
  }

  function HandleCreate(store: IS.State, nanos: int, req: IS.CreateRequest): IS.State {
    if Admitted(req)
    then IS.Apply(store, IS.Create(nanos, req.(playbookKey := ResolvePlaybookKey(req.playbookKey)))).0
    else store
  }

  function Next(cfg: P.Config, w: World, move: Move): World {
    match move
    case GatewayMove(m) =>
      if m.Step? || m.Expire? then w.(gateway := P.Next(cfg, w.gateway, m)) else w
    case CreateIncident(nanos, req) => w.(store := HandleCreate(w.store, nanos, req))
    case _ => ApplyEffect(cfg, w, move.inc, EffectOf(w, move), AuditReplies(move))
  }

  function Run(cfg: P.Config, w: World, moves: seq<Move>): World
    decreases |moves|
  {
    if moves == [] then w else Next(cfg, Run(cfg, w, moves[..|moves| - 1]), moves[|moves| - 1])
  }
}
