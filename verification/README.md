# GraphOps in Dafny

GraphOps takes a production incident through diagnosis, human approval, rollback,
verification and report. This project models the parts of it that decide something
and proves what they keep: the rollback gateway (relational and in-memory), the
orchestration graph, the run lock, the incident stores and the rule-based planner.
`dafny verify dfyconfig.toml` checks everything.

## How the model is built

Every machine is a total step function over moves, `Next(state, move)`, and a history
is a sequence of moves. What Redis, MySQL, the network, the clock, the reasoner and the
human decide comes with the move, so a statement about all histories covers every such
behaviour. A remote call ends in one of three ways: `Acknowledged`, `Refused` (no effect),
or `Lost` (it took effect and the caller sees an error).

| file | what it holds |
|---|---|
| `Common`, `Text`, `Models`, `Gateway` | shared records, decimal formats, string search, requests and keys |
| `RollbackProtocol`, `RollbackTheorems` | any number of MySQL `Rollback` and `Verify` calls, interleaved statement by statement |
| `MySQLGateway`, `MemoryGateway` | the two gateway stores as classes, against the protocol and against a specification without Redis |
| `GatewayAgreement` | the two gateway stores compared |
| `RunLock` | the timed Redis lock: clock, expiry, any number of callers |
| `IncidentStore`, `IncidentMySQL`, `IncidentCreation`, `IncidentAgreement` | the two incident stores as classes, concurrent creates, and the stores compared |
| `Planner`, `Report` | evidence numbering, diagnosis, reasoner, planner guardrail, report merge |
| `Graph` | the twelve nodes as steps of a thread per incident, composed with the incident store and the interleaved gateway into one `World` |
| `GraphRunner` | the node closures, audit writers, `run` and `resume` as methods that update fields; each makes the machine's move, keeps the invariant, and says what a caller finds changed |
| `GraphInvariant` | what every reachable world keeps, for every reasoner |
| `GraphSafety`, `GraphProgress`, `GraphFork`, `GraphAudit` | approval safety, termination and progress, independence from interleaving and audit failures, audit conservation |
| `GraphAnswers` | the answer of a run, read off its trace |
| `GraphOrigins` | which move of a history put an event on a trace, and what the event keeps of that move's answer |
| `GraphReviews` | which human reviews a run hears, and what becomes of the others |
| `GraphHistories` | concrete histories that reach the failing side of the graph's "if and only if" results |
| `GraphRules`, `RuleTheorems` | the same world under the rule-based reasoner |

A thread keeps a trace of what it did: analyses saved, policy decisions, interrupts
shown, reviews that reached the incident store, decisions at the interrupt, rollback
requests, reports saved, nodes completed. The theorems are read off positions of that
trace, and the trace and the services agree in both directions: `RollbackRequested` is
put on it by the step that sends the call, each gateway call has such an event, and the
analysis, report and approval in the store are those of the last saving and reviewing
events. A review that the store took but the run did not hear is on the trace as
`Reviewed` without a `GateDecided` behind it.

Where a property one would expect fails, the member that says exactly when it holds is
followed by one that shows a history in which it does not. The two that matter most:
`resume` posts its review before it looks at the run, so a refusal sent to a run that
failed after its approval marks the incident rejected while the run goes on to send the
rollback in the approver's name; and a rejected run is stored as "diagnosed".

Channel values outlive a run, as they do in the checkpointed graph: a new run resets
`replan_count` and nothing else. The theorems therefore speak about all histories of
runs, resumes, retries and aborted calls of a thread, not about one run on a fresh one.

Where the repository's own text and code differ, the model follows the code. The flow
chart in the repository's README sends a denied plan straight to the report; the code
(`route_after_policy`) sends it through `verify_recovery`.

## Model

| member | source | states |
|---|---|---|
| `RollbackTheorems.SameKeySameReceipt` | internal/opsgateway/mysql_store.go:49-132 | in any interleaving of statements, Redis replies and expiries, any two successful calls with one idempotency key carry the same receipt, the stored one |
| `RollbackTheorems.AtMostOneExecution` | internal/opsgateway/mysql_store.go:97-131 | at most one call per key ever reports "executed", and its receipt carries that call's own service, requester and revisions, the scenario's revision only where the call names none |
| `RollbackTheorems.RowsStemFromCalls` | internal/opsgateway/mysql_store.go:82-122 | in any interleaving, every stored row keeps incident, playbook, service, executor and both revisions of one call under its key |
| `RollbackTheorems.RowsArePermanent` | sql/migrations/001_init.sql:42-58 | later histories never remove a receipt and change only its verification status; receipt ids stay distinct |
| `RollbackTheorems.RetriesReturnTheStoredReceipt` | internal/opsgateway/mysql_store.go:55-73 | once a key is stored, every later call under it returns the stored receipt or a database error: it neither executes again nor reports an unknown scenario |
| `RollbackTheorems.LoserRetriesToWinnersReceipt` | internal/opsgateway/mysql_store.go:97-122 | a call that loses the insert race reports a database error and writes nothing; however much happens meanwhile, a healthy retry returns the winner's receipt |
| `RollbackTheorems.HealthyRetrySucceeds` | internal/opsgateway/mysql_store.go:52-73 | two acknowledged statements suffice to return a stored receipt, lock or no lock |
| `RollbackTheorems.StatementsAreBounded` | internal/opsgateway/mysql_store.go:49-170 | every statement brings its call strictly closer to returning, no call executes more than six, and other calls are not touched |
| `RollbackProtocol.StepOk` | internal/opsgateway/mysql_store.go:49-170 | each single statement, under every reply, keeps the invariant over rows, Redis values, winners and calls in flight, and never drops a row |
| `RollbackProtocol.RedisStepOk` | internal/opsgateway/mysql_store.go:124-128 | what Redis holds is the placeholder or the id of a receipt stored for that very key |
| `MySQLGateway.AloneIsAHistory` | internal/opsgateway/mysql_store.go:49-132 | a call executed without interruption is one of the histories of the interleaved protocol |
| `MySQLGateway.MySQLStore.Rollback` | internal/opsgateway/mysql_store.go:49-132 | for every script of statement replies the method leaves the table, Redis and the outcome that the protocol's statements give; an executed receipt is the stored row and reverts from the current to the target revision that the request names, or else the scenario's |
| `MySQLGateway.MySQLStore.Verify` | internal/opsgateway/mysql_store.go:134-170 | COUNT then UPDATE: the verdict and the marked rows, or an error, as the protocol's two statements give |
| `MySQLGateway.MySQLStore.GetReceiptByKey` | internal/opsgateway/mysql_store.go:172-200 | the receipt under the key, nothing when there is no row, an error only when the query fails |
| `MemoryGateway.RollbackStaysConsistent` | internal/opsgateway/store.go:62-113 | the three maps and the counter keep agreeing; only an executed call changes anything, adding one receipt under its own unused key |
| `MemoryGateway.VerifyStaysConsistent` | internal/opsgateway/store.go:115-138 | a verification keeps the maps agreeing and changes receipts in their verification status only |
| `MemoryGateway.HistoriesStayConsistent` | internal/opsgateway/store.go:16-23 | after every sequence of requests: receipts under their own keys, flags exactly for incidents with a key, every key with a receipt, ids distinct, counter equal to the number of receipts |
| `MemoryGateway.ReceiptsStemFromRequests` | internal/opsgateway/store.go:86-103 | after every sequence of requests each receipt answers one rollback request under its key: service, executor, both revisions and time are that request's |
| `MemoryGateway.RollbackIsIdempotent` | internal/opsgateway/store.go:66-69 | the same key sent again, with any requests in between, gets the same receipt and changes nothing |
| `MemoryGateway.RecoveredNeedsRollback` | internal/opsgateway/store.go:124-137 | a recovered verdict is only given after a rollback of that incident, whose executed receipt the store holds |
| `MemoryGateway.Store.Rollback` | internal/opsgateway/store.go:62-113 | whatever Redis answers, reply and maps are those of a specification that has no Redis; an executed receipt is stored and carries the request's service, requester and revisions, or else the scenario's revisions |
| `MemoryGateway.Store.Verify` | internal/opsgateway/store.go:115-138 | verdict and maps as specified: the incident's latest receipt is marked |
| `GatewayAgreement.RedisMakesNoDifference` | internal/opsgateway/mysql_store.go:52-62 | executed alone on healthy tables, a MySQL rollback returns and stores the same whatever Redis does, and the same as without Redis |
| `GatewayAgreement.VerifyAlone` | internal/opsgateway/mysql_store.go:134-170 | executed alone with acknowledged statements, Verify marks the rows of its incident and gives the after-verdict exactly when there are any |
| `GatewayAgreement.HistoriesMatch` | internal/opsgateway/store.go:62-138 | after every common history with an advancing clock both stores hold the same receipts for the same incidents, ids and marks aside |
| `GatewayAgreement.StoresAgree` | internal/opsgateway/store.go:62-138 | after every such history both stores answer the next rollback alike and the next verification identically |
| `GatewayAgreement.MarksStayEqualExactlyWhen` | internal/opsgateway/store.go:124-130 | memory marks the latest receipt, MySQL all: equal marks stay equal if and only if every older receipt of the incident already has the new status |
| `GatewayAgreement.MarksDifferAfterTwoKeys` | internal/opsgateway/store.go:124-130 | the failing side: after two keys for one incident and a verification, the stores' marks differ |
| `RunLock.AtMostOneInside` | orchestrator/graphops_orchestrator/redis_runtime.py:28-39 | if every holder leaves before its own key lapses, at most one caller per incident is inside, whatever Redis refuses or loses |
| `RunLock.KeyPresentWhileInside` | orchestrator/graphops_orchestrator/redis_runtime.py:28-39 | under the same condition the key is present while someone is inside, whatever Redis refuses or loses |
| `RunLock.KeyPresentExactlyWhileInside` | orchestrator/graphops_orchestrator/redis_runtime.py:28-39 | over every timely history: the key is present exactly while someone is inside, if and only if no lost SET that found the key free and no refused DEL by the holder, for this very incident, left a key that has not lapsed since; faults elsewhere do not matter |
| `RunLock.LostSetLeavesTheKey` | orchestrator/graphops_orchestrator/redis_runtime.py:28-39 | the failing side: one caller whose SET takes effect and is not acknowledged leaves the key to nobody |
| `RunLock.OnlyHoldersDelete` | orchestrator/graphops_orchestrator/redis_runtime.py:33-39 | a key only disappears when its holder leaves; refused callers change nothing and nobody extends a live key |
| `RunLock.ExclusionBreaksExactlyOnOverrun` | orchestrator/graphops_orchestrator/redis_runtime.py:32-35 | a second caller enters a guarded lock if and only if the first one's key has lapsed |
| `RunLock.LateReleaseFreesSuccessorsLock` | orchestrator/graphops_orchestrator/redis_runtime.py:37-39 | a concrete history: a holder that outlives its key deletes its successor's, and two callers are inside though neither has overrun |
| `RunLock.Coordinator.HoldRunLock` | orchestrator/graphops_orchestrator/redis_runtime.py:28-39 | acquire, body and release leave clock, keys and result as the lock machine's moves |
| `IncidentStore.MutatorsKeepAgreement` | internal/incidentapi/store.go:118-190 | analysis, report and decided review each keep the stored status in agreement with the stored payload |
| `IncidentStore.OtherReviewsKeepAgreementExactlyWhen` | internal/incidentapi/store.go:182-187 | a review with another word keeps that agreement if and only if the incident was not fresh and not decided |
| `IncidentStore.OtherReviewBreaksAgreement` | internal/incidentapi/store.go:166-190 | the failing side: a create and one review with any other word leave status and payload apart |
| `IncidentStore.AppendKeepsLogOk` | internal/incidentapi/store.go:192-232 | appending keeps the ids over all lists exactly 1..counter, none twice, each list increasing |
| `IncidentStore.IncidentIdInjective` | internal/incidentapi/store.go:34 | the zero-padded id format is injective in clock and counter |
| `IncidentStore.IncidentIdHasNoColon` | internal/incidentapi/store.go:34 | generated incident ids hold no colon |
| `IncidentStore.CreateStaysInv` | internal/incidentapi/store.go:32-52 | a create never hits a used id, whatever the clock says, and adds exactly one incident |
| `IncidentStore.ApplyStaysInv` | internal/incidentapi/store.go:118-232 | every request keeps statuses, logs and ids in order; an unknown id fails and changes nothing |
| `IncidentStore.HistoriesStayInv` | internal/incidentapi/store.go:32-232 | over every history with decided reviews: status agrees with payload, log ids are exactly 1..counter, entries belong to existing incidents, logs only grow, no create overwrites |
| `IncidentStore.MemoryStore.CreateIncident` | internal/incidentapi/store.go:32-52 | counter, new incident and reply as specified, stored under the generated id |
| `IncidentStore.MemoryStore.SaveAnalysis` | internal/incidentapi/store.go:118-140 | analysis and derived status stored, or not found and nothing changed |
| `IncidentStore.MemoryStore.SaveReport` | internal/incidentapi/store.go:142-164 | report and derived status stored, or not found and nothing changed |
| `IncidentStore.MemoryStore.ReviewIncident` | internal/incidentapi/store.go:166-190 | approval record stored, status changed only by a decision |
| `IncidentStore.MemoryStore.RecordEvent` | internal/incidentapi/store.go:192-209 | one event appended to its incident's list under the next id |
| `IncidentStore.MemoryStore.RecordAgentRun` | internal/incidentapi/store.go:211-232 | one agent run appended to its incident's list under the next id |
| `IncidentCreation.CreatesNeverCollide` | internal/incidentapi/store.go:32-52 | for every clock and every interleaving of fewer than 2^64 creates, ids are distinct and no create overwrites another |
| `IncidentCreation.FinishedCreatesKeepTheirIncident` | internal/incidentapi/store.go:32-52 | each finished create finds its own incident under its own id, two of them under different ids |
| `IncidentMySQL.AnalysisKeepsMirror` | internal/incidentapi/mysql_store.go:300-339 | a committed analysis leaves each incident's evidence rows equal, in order, to the evidence list in its analysis |
| `IncidentMySQL.MySQLStore.SaveAnalysis` | internal/incidentapi/mysql_store.go:277-343 | with a failure possible at any statement: committed whole or not at all, and in both cases the evidence rows mirror the stored analysis; without faults it is `SqlApply`, on which the comparison of the stores rests |
| `IncidentMySQL.MySQLStore.SaveReport` | internal/incidentapi/mysql_store.go:345-384 | report and status stored together; a missing report, a failed update and an unknown id each change nothing; without faults it is `SqlApply`, on which the comparison of the stores rests |
| `IncidentMySQL.MySQLStore.ReviewIncident` | internal/incidentapi/mysql_store.go:386-430 | status and approval change together or not at all, wherever the transaction fails; without faults it is `SqlApply`, on which the comparison of the stores rests |
| `IncidentMySQL.MySQLStore.CreateIncident` | internal/incidentapi/mysql_store.go:20-58 | the clock alone makes the id, so the insert fails on a used one and then changes nothing; without faults it is `SqlApply`, on which the comparison of the stores rests |
| `IncidentMySQL.MySQLStore.GetIncident` | internal/incidentapi/mysql_store.go:60-128 | the row joined with its approval, not found, or a failed read |
| `IncidentMySQL.MySQLStore.InsertEvidence` | internal/incidentapi/mysql_store.go:322-337 | the loop appends all items in order, or stops at the failing statement |
| `IncidentMySQL.MySQLStore.DeleteEvidence` | internal/incidentapi/mysql_store.go:319-321 | exactly the rows of other incidents are kept, in order |
| `IncidentMySQL.MySQLStore.RecordEvent` | internal/incidentapi/mysql_store.go:449-478 | an event of a known incident is appended, one of an unknown incident is refused; without faults it is `SqlApply`, on which the comparison of the stores rests |
| `IncidentMySQL.MySQLStore.RecordAgentRun` | internal/incidentapi/mysql_store.go:480-517 | likewise for agent runs; without faults it is `SqlApply`, on which the comparison of the stores rests |
| `IncidentAgreement.StoresShowTheSame` | internal/incidentapi/mysql_store.go:20-517 | after every sequence of requests with contexts, reports and decided reviews both stores show the same incidents and logs and gave the same replies; an unknown id fails in both and changes neither |
| `IncidentAgreement.ContextsAgreeExactlyWhen` | internal/incidentapi/mysql_store.go:97-103 | a created incident reads the same in both stores if and only if it has a context |
| `IncidentAgreement.ContextsDifferAfterOneCreate` | internal/incidentapi/mysql_store.go:20-58 | the failing side: one create without a context shows different incidents |
| `IncidentAgreement.ReportsAgreeExactlyWhen` | internal/incidentapi/mysql_store.go:346-348 | saving a report gets the same reply in both if and only if there is a report or the incident is unknown |
| `IncidentAgreement.ReportsDifferAfterOneCreate` | internal/incidentapi/mysql_store.go:346-348 | the failing side: after one create, a missing report succeeds in memory and fails in MySQL |
| `IncidentAgreement.ReviewsAgreeExactlyWhen` | internal/incidentapi/mysql_store.go:394-401 | a review leaves the same incident in both if and only if it decides or repeats the present status |
| `IncidentAgreement.ReviewsDifferAfterOneCreate` | internal/incidentapi/mysql_store.go:394-401 | the failing side: after one create, a review with another word leaves "created" in memory and its word in MySQL |
| `Planner.BuildEvidence` | orchestrator/graphops_orchestrator/logic.py:15-27 | one item per finding, in order, numbered from one behind the prefix |
| `Planner.EvidenceIdsDistinct` | orchestrator/graphops_orchestrator/graph.py:474-481 | the ids of the three branches' evidence are pairwise distinct |
| `Planner.RollbackExactlyOnFourSignals` | orchestrator/graphops_orchestrator/logic.py:53-108 | a rollback is proposed if and only if at least four of the five release signals match; it goes from the release argument to the previous version of the given service, always with approval; the downstream branch never vetoes it |
| `Planner.ScoresCountSignals` | orchestrator/graphops_orchestrator/logic.py:38-52 | the scores are the numbers of matching signals of two tables, a signal matching if any of its phrases occurs |
| `Planner.SummariesAreSearched` | orchestrator/graphops_orchestrator/logic.py:36 | a phrase in the summary of any item of any list, in whatever case, counts |
| `Planner.DiagnosisBlames` | orchestrator/graphops_orchestrator/logic.py:53-87 | the downstream service is blamed if and only if at least three of its four signals match and they outnumber the release's |
| `Planner.ConfidencesAreLinear` | orchestrator/graphops_orchestrator/logic.py:55-87 | confidences are linear in the number of matches; the caps in the source are never reached |
| `Planner.HypothesesCiteLeaders` | orchestrator/graphops_orchestrator/logic.py:53-87 | each hypothesis cites the leading items of its lists, in order |
| `Planner.DependencyEvidenceKeepsTheAction` | orchestrator/graphops_orchestrator/logic.py:38-108 | appending dependency evidence never withdraws or alters a proposed action |
| `Planner.CitationsAreEvidence` | orchestrator/graphops_orchestrator/logic.py:55-108 | every id a hypothesis or the action cites belongs to the evidence |
| `Planner.DecisionRoundTrip` | orchestrator/graphops_orchestrator/llm.py:112-152 | handing a diagnosis over as a planner decision and reading it back in the node gives the same hypotheses and action |
| `Planner.RulePlanPassesSchema` | orchestrator/graphops_orchestrator/agent_schemas.py:25-46 | the rule-based plan always satisfies the answer schema |
| `Planner.GuardrailIsIdleUnderRules` | orchestrator/graphops_orchestrator/graph.py:425-473 | with the rule-based reasoner the guardrail fallback changes nothing |
| `Planner.GuardrailKeepsStrongRollbacks` | orchestrator/graphops_orchestrator/graph.py:452-473 | for any reasoner the completed plan has hypotheses, and lacks an action if and only if the reasoner gave none and fewer than four signals match |
| `Planner.CompletionKeepsTheDecision` | orchestrator/graphops_orchestrator/graph.py:424-473 | for any decision: its hypotheses stay as they are, in order, numbered "hyp-1" and on; its action stays field by field; the rules stand in only for what is missing, and a note is added exactly when they fill in the action |
| `Planner.RulesObjectExactlyWhen` | orchestrator/graphops_orchestrator/llm.py:155-178 | the critic of the rules objects to their own diagnosis if and only if it proposes something and there are fewer than three change and log items or a revision is missing |
| `Planner.PolicyDecidesExactlyWhen` | orchestrator/graphops_orchestrator/llm.py:180-190 | for any action: denied if and only if it is no rollback, left to a human if and only if it is a rollback that needs approval or is of high risk |
| `Report.MergeFindings` | orchestrator/graphops_orchestrator/graph.py:632-651 | the loop yields the base lists followed by the first occurrences of missing descriptions and stripped suggestions |
| `Report.MergeKeepsEverything` | orchestrator/graphops_orchestrator/graph.py:632-651 | the base list stays in front, nothing is lost or invented, and what is added is added once |
| `Report.MergeIsIdempotent` | orchestrator/graphops_orchestrator/graph.py:632-651 | merging the same findings again changes nothing |
| `Report.MissingKeepsOrder` | orchestrator/graphops_orchestrator/graph.py:636-642 | additions stand in the order of their first occurrence |
| `Report.CollectSuggestions` | orchestrator/graphops_orchestrator/logic.py:152-157 | the seen-set loop collects the distinct non-blank stripped suggestions in order |
| `Report.MergeLeavesRuleReportAlone` | orchestrator/graphops_orchestrator/graph.py:632-655 | a rule-based report already holds everything the merge adds, metrics and release comparisons included: only the receipt is attached |
| `Report.ReportIsFinished` | orchestrator/graphops_orchestrator/graph.py:626-655 | for every draft, verdict and receipt: the draft's lists stay in front, every anomaly line and non-blank stripped suggestion is there, additions come once, in order of first occurrence, and nothing else is added; measurements are the verdict's, a held receipt is attached |
| `Report.ReportRecommends` | orchestrator/graphops_orchestrator/logic.py:122-130 | what a rule-based report recommends, for each combination of action, approval and blamed service |
| `Report.ReportVerifies` | orchestrator/graphops_orchestrator/logic.py:132-153 | its verification line and measurements follow the verdict, and are empty without one |
| `GraphRunner.GraphRunner.RecordEvent` | orchestrator/graphops_orchestrator/graph.py:138-158 | one event is appended to its incident's list unless the write is refused or the incident unknown; a failure is counted and swallowed |
| `GraphRunner.GraphRunner.RecordAgentRun` | orchestrator/graphops_orchestrator/graph.py:160-186 | likewise for an agent run |
| `GraphRunner.GraphRunner.RunAgent` | orchestrator/graphops_orchestrator/graph.py:188-232 | around an agent that answers: unless a write is refused, the incident's logs gain exactly started and completed, in this order, and one completed run |
| `GraphRunner.GraphRunner.RaiseInAgent` | orchestrator/graphops_orchestrator/graph.py:233-256 | started, failed run and failed records around an agent that raises; the invocation ends with every value kept, at the same node, and nothing else is touched |
| `GraphRunner.GraphRunner.LoadIncident` | orchestrator/graphops_orchestrator/graph.py:272-288 | the run then shows the stored incident's service, playbook and context and has replanned zero times; approval, receipt, verification, report and plan of earlier runs survive; an unknown incident raises and changes no value |
| `GraphRunner.GraphRunner.Triage` | orchestrator/graphops_orchestrator/graph.py:290-306 | only the triage decision changes, all three branches start at their query, and the run is strictly nearer its end |
| `GraphRunner.GraphRunner.EvidenceAgent` | orchestrator/graphops_orchestrator/graph.py:308-396 | only this branch moves, by one await exactly if the answer is the one it waits for; when it finishes it has one numbered piece of evidence per finding |
| `GraphRunner.GraphRunner.Join` | orchestrator/graphops_orchestrator/graph.py:684 | the planner gets all three branches' evidence, whose ids are pairwise distinct, and nothing else changes |
| `GraphRunner.GraphRunner.PlannerAgent` | orchestrator/graphops_orchestrator/graph.py:398-493 | the analysis that reaches store and trace is the reasoner's decision as it is, completed by the rules only where it is silent; an acknowledged save puts the same plan into the state, a lost one leaves the state, a refused one leaves the store too |
| `GraphRunner.GraphRunner.CriticAgent` | orchestrator/graphops_orchestrator/graph.py:495-524 | the run goes back to the planner if and only if a replan is asked for the first time in the run; the count grows exactly on a request and never passes two; the plan is untouched |
| `GraphRunner.GraphRunner.PolicyAgent` | orchestrator/graphops_orchestrator/graph.py:526-543 | the plan judged is the one saved last; the rollback is next if and only if it is allowed and there is an action, the verification if and only if denied or nothing is proposed, the gate otherwise |
| `GraphRunner.GraphRunner.ApprovalGate` | orchestrator/graphops_orchestrator/graph.py:545-561 | the run stops at the interrupt, and what it shows is an action, namely that of the analysis saved last |
| `GraphRunner.GraphRunner.RollbackAction` | orchestrator/graphops_orchestrator/graph.py:563-587 | what is sent is exactly one call for this incident, it is the last event on the trace, and that request is authorised; a request the handler refuses sends nothing and keeps the place |
| `GraphRunner.GraphRunner.RollbackReturned` | orchestrator/graphops_orchestrator/graph.py:574-587 | after a successful answer the held receipt is pending and is the one the gateway stores under the request's key; any other answer raises and keeps the place |
| `GraphRunner.GraphRunner.VerifyRecovery` | orchestrator/graphops_orchestrator/graph.py:589-601 | exactly one verification of this incident is sent, none having completed in this run, and no receipt changes; a request the handler refuses sends nothing and keeps the place |
| `GraphRunner.GraphRunner.VerifyReturned` | orchestrator/graphops_orchestrator/graph.py:602-610 | the held receipt changes in its verification status alone and carries the verdict's; where no scenario starts out recovered, "recovered" means the gateway holds a row of this incident; an error raises and keeps the place |
| `GraphRunner.GraphRunner.FinalizeReport` | orchestrator/graphops_orchestrator/graph.py:612-664 | the report that reaches store and trace is the draft with all findings of the verdict and the held receipt, nothing lost, invented or repeated; an acknowledged save ends the run, a lost one leaves the state, a refused one leaves the store too |
| `GraphRunner.GraphRunner.Run` | orchestrator/graphops_orchestrator/graph.py:91-96 | every value of earlier runs survives, yet no decision or approval of an earlier run clears anything in this one |
| `GraphRunner.GraphRunner.Resume` | orchestrator/graphops_orchestrator/graph.py:98-119 | a review that the API takes is stored and on the trace whatever becomes of the run; it is heard if and only if it is acknowledged at the interrupt, and then alone it changes approval, reviewer and route; a raised run is taken up at its place; a review the API refuses changes nothing |
| `GraphRunner.AuditThenWrite` | orchestrator/graphops_orchestrator/graph.py:412-487 | an agent's audit writes and the save that follows them commute |
| `GraphInvariant.MoveKeepsInv` | orchestrator/graphops_orchestrator/graph.py:269-717 | each move of any thread, service or user keeps threads, stored incidents, gateway calls and traces consistent with one another |
| `GraphInvariant.HistoryInv` | orchestrator/graphops_orchestrator/graph.py:91-119 | every history of fewer than 2^64 moves, from the empty system on, keeps that consistency |
| `GraphSafety.RollbacksAreAuthorised` | orchestrator/graphops_orchestrator/graph.py:482-587 | approval safety, any reasoner, any history: a rollback request carries out the plan saved last in its run, after a standing policy allow, or after a standing approval given at the last interrupt, which showed that very plan, and then in that human's name; refusals that are not heard there are the subject of `GraphReviews` |
| `GraphSafety.RowsAreAuthorised` | orchestrator/graphops_orchestrator/graph.py:563-587 | every receipt at the gateway stems from such an authorised request of its own incident, for its service, by its executor, and from and to exactly the revisions that request names |
| `GraphSafety.RequestsNameTheIncident` | orchestrator/graphops_orchestrator/graph.py:563-585 | any reasoner, any history: what is sent is a rollback of this incident under the key of incident and service, with the stored incident's playbook and no required field empty |
| `GraphSafety.SavedPlansAreAdmitted` | orchestrator/graphops_orchestrator/agent_schemas.py:25-46 | any reasoner, any history: every saved plan has hypotheses with confidences between nought and one, and proposes a rollback of medium or high risk, or nothing |
| `GraphOrigins.AnalysesRecordDecisions` | orchestrator/graphops_orchestrator/graph.py:424-487 | any reasoner, any history: every saved analysis stems from one planner answer; its hypotheses and action are that answer's, and the rules' only where it gave none |
| `GraphSafety.CreatesExactlyWhen` | internal/incidentapi/server.go:62-89 | a create adds one incident under an unused id if and only if the required fields are filled and the context is free of blank ones; the incident has the request's fields, a playbook in any case, and nothing decided |
| `GraphSafety.ReportsFollowOneVerification` | orchestrator/graphops_orchestrator/graph.py:713-715 | a report is saved only after exactly one completed verification in its run |
| `GraphOrigins.ReportsCollectTheirVerdict` | orchestrator/graphops_orchestrator/graph.py:612-655 | any history: every saved report is one draft finished with the findings and measurements of the verdict given last before it |
| `GraphSafety.RunsAreShort` | orchestrator/graphops_orchestrator/graph.py:495-524 | a finished run has verified exactly once; no run completes the planner or the critic, or replans, more than twice; planners retried after a lost save add at most one saved analysis per review received and one more |
| `GraphSafety.RecoveredMeansRolledBack` | orchestrator/graphops_orchestrator/graph.py:776-803 | since no scenario starts out recovered, the response "recovered" implies an executed, authorised rollback row of that incident |
| `GraphSafety.ValuesAreStored` | orchestrator/graphops_orchestrator/graph.py:482-487 | a held receipt is stored at the gateway, and the incident shows the analysis, report and review that the trace recorded last |
| `GraphSafety.SavedEvidenceIsDistinct` | orchestrator/graphops_orchestrator/graph.py:474-487 | the evidence saved in one analysis never carries an id twice |
| `GraphSafety.CriticIsOverruledExactlyWhen` | orchestrator/graphops_orchestrator/graph.py:769-773 | past the critic, its last word is still "replan" if and only if the run has replanned twice |
| `GraphHistories.CriticIsOverruledSomewhere` | orchestrator/graphops_orchestrator/graph.py:769-773 | a history from the empty system in which the critic asks twice for a replan and the run stands at the policy node against its last word |
| `GraphHistories.CriticCanBeOverruled` | orchestrator/graphops_orchestrator/graph.py:495-524 | the same from any idle, known incident, whatever happened before |
| `GraphSafety.RejectedExactlyWhenRefusedAtGate` | orchestrator/graphops_orchestrator/graph.py:791-795 | a run answers "rejected" if and only if it does not stand at its interrupt and the last decision taken there, in whichever run, was a refusal; reviews that reach the incident elsewhere do not count |
| `GraphAnswers.AnswersExactlyWhen` | orchestrator/graphops_orchestrator/graph.py:719-803 | over all histories, for each of the six answers the exact condition on the trace: a pending interrupt, the last decision, the last verdict, a finished run, the last completed plan; and "waiting_for_approval" if and only if the run stands at its interrupt |
| `GraphReviews.HeardExactlyAtTheInterrupt` | orchestrator/graphops_orchestrator/graph.py:98-119 | a review that the incident store takes is on the trace, and the run hears it if and only if it comes by an acknowledged resume while the run waits at the interrupt |
| `GraphReviews.AnswerFollowsLastReviewExactlyWhen` | orchestrator/graphops_orchestrator/graph.py:791-795 | over all histories: the store shows the last review, and the answer follows it if and only if it was heard, or the decision standing at the interrupt happened to be the same |
| `GraphReviews.ReviewTurnsTheAnswerExactlyWhen` | orchestrator/graphops_orchestrator/graph.py:98-119 | before the call: a stored review makes the answer agree with it if and only if it arrives at the interrupt, or the answer agreed already |
| `GraphReviews.HeardRefusalsAreObeyed` | orchestrator/graphops_orchestrator/graph.py:545-587 | over all histories: a rollback request that follows a stored refusal, with no new clearance in between, follows one that was not heard |
| `GraphHistories.RefusalIsPassedOverExactlyWhen` | orchestrator/graphops_orchestrator/graph.py:98-119 | any reachable run about to roll back: after a refusal by resume the request is sent if and only if the run was not waiting at its interrupt |
| `GraphHistories.RefusalCanComeTooLate` | orchestrator/graphops_orchestrator/graph.py:98-119 | from any idle incident: approve, let the gateway's database fail, refuse the resume; the incident is stored as rejected, the rollback is sent in the approver's name, and the answer is not "rejected" |
| `GraphHistories.RefusalIsPassedOverSomewhere` | orchestrator/graphops_orchestrator/graph.py:98-119 | such a history from the empty system |
| `GraphSafety.StatusesAgreeExactlyWhen` | orchestrator/graphops_orchestrator/graph.py:791-803 | the status stored with the report equals the response status if and only if the last decision at the interrupt was no refusal and either a held receipt was verified as recovered, or there was no receipt, no action and no recovery |
| `GraphHistories.StatusesDifferSomewhere` | orchestrator/graphops_orchestrator/graph.py:791-803 | a history from the empty system in which a refused run ends, answers "rejected" and is stored as "diagnosed" |
| `GraphHistories.RefusedRunCanBeStoredAsDiagnosed` | orchestrator/graphops_orchestrator/graph.py:545-664 | the same from any idle, known incident that was never rolled back |
| `GraphProgress.AdvancesShorten` | orchestrator/graphops_orchestrator/graph.py:679-717 | whatever a run waits for strictly lowers a measure of at most 286 |
| `GraphProgress.NothingLengthens` | orchestrator/graphops_orchestrator/graph.py:679-717 | no other move of anyone raises it |
| `GraphProgress.OwnMoveIsIdle` | orchestrator/graphops_orchestrator/graph.py:91-119 | an active run ignores answers it did not ask for, and further runs and resumes |
| `GraphProgress.SomethingAdvances` | orchestrator/graphops_orchestrator/graph.py:679-717 | an active run is never stuck: some answer, or a statement of its own gateway call, moves it on |
| `GraphProgress.RunsEnd` | orchestrator/graphops_orchestrator/graph.py:679-717 | in any history a run that is still active has consumed at most 286 awaited answers and statements |
| `GraphProgress.RunsStopShortExactlyWhenBrokenOff` | orchestrator/graphops_orchestrator/graph.py:545-664 | over every history: a started run that is not under way stands somewhere other than its end or its interrupt if and only if, at some move, it was aborted or a service or the schema turned it down, and nobody has taken it up since |
| `GraphProgress.StopKeepsThePlace` | orchestrator/graphops_orchestrator/graph.py:680-717 | a run that raised keeps every value and is taken up at the same node, finished branches with their evidence and the others from their query |
| `GraphFork.ForkRuns` | orchestrator/graphops_orchestrator/graph.py:308-396 | where the three branches end depends only on what each received: they disturb neither each other nor anyone else |
| `GraphFork.BranchesRecordFindings` | orchestrator/graphops_orchestrator/graph.py:308-396 | whatever a branch is answered, the evidence it ends with is its reasoner's findings, item by item, with the branch's prefix, number and source type |
| `GraphFork.AuditsDoNotMatter` | orchestrator/graphops_orchestrator/graph.py:138-256 | whatever pattern of audit writes fails, threads, incidents and gateway take the same course |
| `GraphFork.InterleavingsAgree` | orchestrator/graphops_orchestrator/graph.py:680-684 | two interleavings of the branches with each other and with all other processes, answering each branch alike, hand the planner the same state and lead to the same later world |
| `GraphAudit.AuditsAreAccountedFor` | orchestrator/graphops_orchestrator/graph.py:138-186 | recorded plus failed audit writes equal attempted plus lost ones; log ids, statuses and append-only logs hold in the composed system |
| `GraphRules.RuleNodeOk` | orchestrator/graphops_orchestrator/llm.py:112-190 | every node keeps the rule-based invariant: the plan in state and store is the diagnosis, replans are none or two, rollbacks are cleared by a human |
| `GraphRules.RulesGateRollbacks` | orchestrator/graphops_orchestrator/llm.py:180-190 | what the diagnosis proposes is a rollback of the incident's own service from its release to its previous version, and the policy always asks a human |
| `RuleTheorems.RulesAlwaysAskAHuman` | orchestrator/graphops_orchestrator/llm.py:180-190 | under the rules every rollback request follows a human approval of the plan shown, and uses the incident's one key |
| `RuleTheorems.RulesRevertTheRelease` | orchestrator/graphops_orchestrator/logic.py:92-106 | under the rules every rollback request goes from the stored incident's release version to its previous version, on its own service |
| `RuleTheorems.RuleReceiptsRevertTheRelease` | orchestrator/graphops_orchestrator/graph.py:563-587 | and so does every receipt the gateway holds |
| `RuleTheorems.OneReceiptPerIncident` | orchestrator/graphops_orchestrator/graph.py:563-587 | over any history of runs, resumes and retries the gateway holds at most one receipt per incident |
| `RuleTheorems.KeysStayApart` | internal/opsgateway/redis.go:18-20 | neither idempotency keys nor Redis keys of two created incidents ever coincide, whatever the service names |
| `RuleTheorems.IncidentsNeverShareAReceipt` | orchestrator/graphops_orchestrator/graph.py:566 | two incidents never hold the same receipt |
| `RuleTheorems.HeldReceipt` | orchestrator/graphops_orchestrator/graph.py:586-587 | the receipt a thread holds is stored at the gateway under its own incident's key and incident id |
| `RuleTheorems.ReplanningChangesNothing` | orchestrator/graphops_orchestrator/graph.py:495-524 | a run that waits or has ended replanned twice if and only if its proposal rests on fewer than three change and log items or lacks a revision, else not at all; the plan it holds and stored is the diagnosis of its evidence |
| `RuleTheorems.SavedCitationsAreSavedEvidence` | orchestrator/graphops_orchestrator/logic.py:55-108 | every evidence id a saved analysis cites is among the evidence saved with it |

## Left out

- HTTP servers and clients, JSON encoding, the console, scripts, migrations, metrics, dashboards: only the input checks of the handlers are modelled.
- `OllamaReasoner`, its prompts and `LLMReportSkill`: any reasoner within the answer schemas, and any report draft, is covered by the theorems about all histories.
- `RuleBasedReasoner.triage`: no later decision reads it, so the answer is free.
- LangGraph, SQLite, pydantic and Redis internals: assumed are per-incident values that survive runs, a barrier before the planner, a resume that answers a pending interrupt, a retry that executes the failed node again with finished branches kept, and no effect of a resume on a finished run.
- One invocation per incident at a time is an assumption of `Graph`; `RunLock` proves when the lock gives it. A runner configured without a lock is not covered.
- The composed `World` uses the interleaved MySQL gateway and the in-memory incident store; `IncidentAgreement` and `GatewayAgreement` relate the other pair.
- Direct posts of analyses or reports to the incident API by someone other than the orchestrator; direct reviews and creates are included.
- The queries of the gateway (`QueryChanges`, `QueryLogs`, `QueryDependencies`): their items are free.
- `ListIncidents`, `ListEvents`, `ListAgentRuns`, and the clone helpers: values are copied by nature here, so aliasing of returned incidents is not modelled.
- Scenario contents: an abstract map; only the fact that no scenario's earlier verdict is "recovered" is used, where it is stated.
- Timestamps, latencies, prompt versions, free event payloads, query references and signal checks inside records.
- The `scenario_key` column that one query reads and the table lacks: the query is modelled as reading `playbook_key`.
- Unicode: lower-casing and stripping follow ASCII letters and blanks.
- Floating point: confidences are exact reals, and the numbers printed in the report's verification line are left out of `Report.RuleReport`.
- `Graphops全部有效结构化代码.txt`: an older snapshot of the code.
- MySQL deadlocks and lock waits appear only as refused statements; each statement is atomic.
- GraphRunner.GraphRunner.EvidenceAgent: states one await at a time, because branches interleave between awaits; `GraphFork.ForkRuns` states the whole fork.
- GraphRunner.GraphRunner.PlannerAgent: covers answers within the schema; one outside it raises inside the agent, which `GraphRunner.GraphRunner.RaiseInAgent` covers.
- RuleTheorems.OneReceiptPerIncident: holds for the rule-based reasoner only, since another may name a different service or action on a later run and so use a second key.
- IncidentAgreement.StoresShowTheSame: ids, timestamps and error kinds are not compared, and creates that hit a used MySQL id are excluded.
- GraphSafety.RollbacksAreAuthorised: says nothing of refusals that the run did not hear; `GraphReviews.HeardRefusalsAreObeyed` and `GraphHistories.RefusalIsPassedOverExactlyWhen` do.
- GraphHistories.RefusalIsPassedOverExactlyWhen: is about requests that the gateway's handler lets through, since others are never sent.
