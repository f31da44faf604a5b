/** Requests, scenarios and key formats shared by both gateway stores. */
module Gateway {
  import opened Common
  import opened Models

  datatype RollbackRequest = RollbackRequest(
    incidentId: string, playbookKey: string, targetService: string,
    currentRevision: string, targetRevision: string,
    idempotencyKey: string, requestedBy: string)

  datatype VerifyRequest = VerifyRequest(incidentId: string, playbookKey: string)

  datatype Scenario = Scenario(
    currentRevision: string, targetRevision: string,
    before: VerificationResult, after: VerificationResult)

  type Scenarios = map<string, Scenario>

  /** The one fact about the demo scenarios the results below need: nothing is
      recovered before a rollback. */
  predicate NothingRecoveredBefore(scenarios: Scenarios) {
    forall k | k in scenarios :: scenarios[k].before.status != "recovered"
  }

  /** How a Rollback call returns. */
  datatype Outcome =
    | Executed(receipt: ActionReceipt)
    | Idempotent(receipt: ActionReceipt)
    | DbError
    | UnknownScenario
  {
    predicate Succeeded() { Executed? || Idempotent? }
  }

  /** How a Verify call returns. */
  datatype VerifyOutcome = Verdict(result: VerificationResult) | VerifyError | VerifyUnknown

  /** The placeholder SETNX writes. */
  const PENDING := "pending"

  function RedisDelete(redis: map<string, string>, key: string, reply: Reply): (r: map<string, string>)
    ensures key in r <==> key in redis && reply.Refused?
    ensures forall k | k != key :: (k in r <==> k in redis) && (k in redis ==> r[k] == redis[k])
  {
    if reply.Refused? then redis else redis - {key}
  }

  function ResolvePlaybookKey(playbookKey: string): string {
    if playbookKey != "" then playbookKey else "release_config_regression"
  }

  function RollbackRedisKey(incidentId: string, targetService: string): string {
    "idemp:rollback:" + incidentId + ":" + targetService
  }

  function FirstNonEmpty(values: seq<string>): string {
    if values == [] then ""
    else if values[0] != "" then values[0]
    else FirstNonEmpty(values[1..])
  }

  function BuildReceipt(req: RollbackRequest, data: Scenario,
                        receiptId: string, detail: string, now: int): ActionReceipt {
    ActionReceipt(
      receiptId, req.idempotencyKey, "rollback", req.targetService, req.requestedBy,
      FirstNonEmpty([req.currentRevision, data.currentRevision]),
      FirstNonEmpty([req.targetRevision, data.targetRevision]),
      "executed", detail, now, "")
  }

  /** What the request names, or the scenario's own value where it names nothing. */
  predicate Chosen(asked: string, own: string, revision: string) {
    if asked == "" then revision == own else revision == asked
  }

  /** The receipt reverts exactly what was asked for. */
  predicate Reverts(scenarios: Scenarios, req: RollbackRequest, r: ActionReceipt) {
    var playbook := if req.playbookKey == "" then "release_config_regression" else req.playbookKey;
    && playbook in scenarios
    && Chosen(req.currentRevision, scenarios[playbook].currentRevision, r.fromRevision)
    && Chosen(req.targetRevision, scenarios[playbook].targetRevision, r.toRevision)
  }

  /** The receipt `r` is the one this request asks for, not verified yet. */
  predicate Answers(scenarios: Scenarios, req: RollbackRequest, r: ActionReceipt) {
    && r.idempotencyKey == req.idempotencyKey
    && r.targetService == req.targetService
    && r.executor == req.requestedBy
    && Reverts(scenarios, req, r)
    && r.actionType == "rollback" && r.status == "executed" && r.verificationStatus == ""
  }

  lemma BuiltAnswers(scenarios: Scenarios, req: RollbackRequest, receiptId: string, detail: string, now: int)
    requires ResolvePlaybookKey(req.playbookKey) in scenarios
    ensures var r := BuildReceipt(req, scenarios[ResolvePlaybookKey(req.playbookKey)], receiptId, detail, now);
            Answers(scenarios, req, r) && r.receiptId == receiptId && r.statusDetail == detail && r.executedAt == now
  {
    var data := scenarios[ResolvePlaybookKey(req.playbookKey)];
    FirstOfTwo(req.currentRevision, data.currentRevision);
    FirstOfTwo(req.targetRevision, data.targetRevision);
  }

  lemma FirstOfTwo(a: string, b: string)
    ensures Chosen(a, b, FirstNonEmpty([a, b]))
  {
    assert [a, b][0] == a && [a, b][1..] == [b];
    assert FirstNonEmpty([b]) == b by {
      assert [b][0] == b && [b][1..] == [];
      assert FirstNonEmpty([]) == "";
    }
  }
}
