/** The in-memory incident store: a map of incidents, two append-only logs and
    their counters. */
module IncidentStore {
  import opened Common
  import opened Models
  import opened Text

  datatype Approval = Approval(status: string, reviewer: string, comment: string)

  datatype Analysis = Analysis(evidence: seq<Evidence>, hypotheses: seq<Hypothesis>, action: Option<ActionPlan>)

  /** An incident as the API shows it, ids and timestamps aside. */
  datatype Incident = Incident(
    serviceName: string, severity: string, alertSummary: string, playbookKey: string,
    context: Option<IncidentContext>, status: string,
    approval: Option<Approval>, analysis: Option<Analysis>, report: Option<FinalReport>)

  datatype CreateRequest = CreateRequest(
    serviceName: string, severity: string, alertSummary: string, playbookKey: string,
    context: Option<IncidentContext>)

  /** What a log entry records; free payloads are not represented. */
  datatype Body =
    | Event(eventType: string, actorType: string, actorName: string)
    | AgentRun(nodeName: string, modelName: string, runStatus: string)

  datatype Entry = Entry(id: int, incidentId: string, body: Body)

  /** One log: per-incident lists and the shared 64-bit counter. */
  datatype Log = Log(counter: nat, entries: map<string, seq<Entry>>)

  datatype State = State(counter: nat, incidents: map<string, Incident>, events: Log, runs: Log)

  const Empty := State(0, map[], Log(0, map[]), Log(0, map[]))

  datatype Reply = Found(incident: Incident) | NotFound

  // ------------------------------------------------------------ operations

  function NewIncident(req: CreateRequest): Incident {
    Incident(req.serviceName, req.severity, req.alertSummary, req.playbookKey, req.context,
             "created", None, None, None)
  }

  function IncidentId(nanos: int, n: nat): string {
    "inc-" + SignedDecimal(nanos) + "-" + SixDigits(n)
  }

  function Analysed(i: Incident, a: Analysis): Incident {
    i.(analysis := Some(a),
       status := if a.action.Some? && a.action.value.requiresApproval then "waiting_for_approval" else "diagnosed")
  }

  function Reported(i: Incident, report: Option<FinalReport>): Incident {
    i.(report := report,
       status := if report.None? || report.value.receipt.None? then "diagnosed"
                 else if report.value.receipt.value.verificationStatus == "recovered" then "recovered"
                 else "report_ready")
  }

  function Reviewed(i: Incident, status: string, reviewer: string, comment: string): Incident {
    i.(approval := Some(Approval(status, reviewer, comment)),
       status := if status == "approved" || status == "rejected" then status else i.status)
  }

  function Listed(log: Log, id: string): seq<Entry> {
    if id in log.entries then log.entries[id] else []
  }

  function Append(log: Log, id: string, body: Body): Log {
    var n := Increment(log.counter);
    Log(n, log.entries[id := Listed(log, id) + [Entry(ToInt64(n), id, body)]])
  }

  datatype Op =
    | Create(nanos: int, req: CreateRequest)
    | SaveAnalysis(id: string, analysis: Analysis)
    | SaveReport(id: string, report: Option<FinalReport>)
    | Review(id: string, status: string, reviewer: string, comment: string)
    | RecordEvent(id: string, event: Body)
    | RecordRun(id: string, run: Body)

  /** One request: the new state and what the caller sees. */
  function Apply(s: State, op: Op): (State, Reply) {
    match op
    case Create(nanos, req) =>
      var n := Increment(s.counter);
      var incident := NewIncident(req);
      (s.(counter := n, incidents := s.incidents[IncidentId(nanos, n) := incident]), Found(incident))
    case SaveAnalysis(id, a) =>
      if id in s.incidents then Put(s, id, Analysed(s.incidents[id], a)) else (s, NotFound)
    case SaveReport(id, report) =>
      if id in s.incidents then Put(s, id, Reported(s.incidents[id], report)) else (s, NotFound)
    case Review(id, status, reviewer, comment) =>
      if id in s.incidents then Put(s, id, Reviewed(s.incidents[id], status, reviewer, comment)) else (s, NotFound)
    case RecordEvent(id, body) =>
      if id in s.incidents then (s.(events := Append(s.events, id, body)), Found(s.incidents[id])) else (s, NotFound)
    case RecordRun(id, body) =>
      if id in s.incidents then (s.(runs := Append(s.runs, id, body)), Found(s.incidents[id])) else (s, NotFound)
  }

  function Put(s: State, id: string, incident: Incident): (State, Reply) {
    (s.(incidents := s.incidents[id := incident]), Found(incident))
  }

  function ApplyAll(s: State, ops: seq<Op>): State
    decreases |ops|
  {
    if ops == [] then s else Apply(ApplyAll(s, ops[..|ops| - 1]), ops[|ops| - 1]).0
  }

  // ------------------------------------------------------------ status and payload

  predicate Gated(i: Incident) {
    i.analysis.Some? && i.analysis.value.action.Some? && i.analysis.value.action.value.requiresApproval
  }

  predicate HasReceipt(i: Incident) {
    i.report.Some? && i.report.value.receipt.Some?
  }

  /** The stored status agrees with what is stored beside it. */
  predicate StatusAgrees(i: Incident) {
    if i.status == "created" then i.analysis.None? && i.approval.None? && i.report.None?
    else if i.status == "waiting_for_approval" then Gated(i)
    else if i.status == "approved" || i.status == "rejected" then i.approval.Some? && i.approval.value.status == i.status
    else if i.status == "recovered" then
      HasReceipt(i) && i.report.value.receipt.value.verificationStatus == "recovered"
    else if i.status == "report_ready" then
      HasReceipt(i) && i.report.value.receipt.value.verificationStatus != "recovered"
    else
      i.status == "diagnosed" && ((i.analysis.Some? && !Gated(i)) || !HasReceipt(i))
  }

  predicate ReviewsDecide(op: Op) {
    op.Review? ==> op.status == "approved" || op.status == "rejected"
  }

  lemma MutatorsKeepAgreement(i: Incident, a: Analysis, report: Option<FinalReport>,
                              status: string, reviewer: string, comment: string)
    requires StatusAgrees(i) && (status == "approved" || status == "rejected")
    ensures StatusAgrees(Analysed(i, a))
    ensures StatusAgrees(Reported(i, report))
    ensures StatusAgrees(Reviewed(i, status, reviewer, comment))
  {
  }

  /** A review with any other word keeps agreement exactly when the incident was
      neither fresh nor decided. */
  lemma OtherReviewsKeepAgreementExactlyWhen(i: Incident, status: string, reviewer: string, comment: string)
    requires StatusAgrees(i) && status != "approved" && status != "rejected"
    ensures StatusAgrees(Reviewed(i, status, reviewer, comment))
            <==> i.status !in {"created", "approved", "rejected"}
  {
  }

  /** Two requests suffice to break agreement: a create, and a review with any
      other word. */
  lemma OtherReviewBreaksAgreement(req: CreateRequest, word: string, reviewer: string, comment: string)
    requires word != "approved" && word != "rejected"
    ensures var s := ApplyAll(Empty, [Create(0, req), Review(IncidentId(0, 1), word, reviewer, comment)]);
            IncidentId(0, 1) in s.incidents && !StatusAgrees(s.incidents[IncidentId(0, 1)])
  {
    var ops := [Create(0, req), Review(IncidentId(0, 1), word, reviewer, comment)];
    assert ops[..1] == [ops[0]] && [ops[0]][..0] == [];
    assert ApplyAll(Empty, ops[..1]) == Apply(Empty, ops[0]).0;
  }

  // ------------------------------------------------------------ the logs

  predicate EntriesOk(log: Log, id: string)
    requires id in log.entries
  {
    && (forall i | 0 <= i < |log.entries[id]| ::
          log.entries[id][i].incidentId == id && 1 <= log.entries[id][i].id <= log.counter)
    && (forall i, j | 0 <= i < j < |log.entries[id]| :: log.entries[id][i].id < log.entries[id][j].id)
  }

  predicate OccursIn(log: Log, n: int, id: string) {
    id in log.entries && exists i | 0 <= i < |log.entries[id]| :: log.entries[id][i].id == n
  }

  ghost predicate Recorded(log: Log, n: int) {
    exists id :: OccursIn(log, n, id)
  }

  /** The ids over all lists are exactly 1..counter, none twice, each list growing. */
  ghost predicate LogOk(log: Log) {
    && log.counter < TWO_TO_63
    && (forall id | id in log.entries :: EntriesOk(log, id))
    && (forall n: int :: 1 <= n <= log.counter ==> Recorded(log, n))
    && (forall n: int, id1, id2 :: OccursIn(log, n, id1) && OccursIn(log, n, id2) ==> id1 == id2)
  }

  lemma AppendOccurs(log: Log, id: string, body: Body, n: int, k: string)
    requires LogOk(log) && log.counter + 1 < TWO_TO_63
    ensures OccursIn(Append(log, id, body), n, k)
            <==> OccursIn(log, n, k) || (n == log.counter + 1 && k == id)
  {
    var log' := Append(log, id, body);
    var prior := Listed(log, id);
    if k == id {
      assert log'.entries[id] == prior + [Entry(log.counter + 1, id, body)];
      if OccursIn(log, n, k) {
        var i :| 0 <= i < |log.entries[id]| && log.entries[id][i].id == n;
        assert log'.entries[id][i].id == n;
      }
      if n == log.counter + 1 {
        assert log'.entries[id][|prior|].id == n;
      }
      if OccursIn(log', n, k) {
        var i :| 0 <= i < |log'.entries[id]| && log'.entries[id][i].id == n;
        if i < |prior| { assert log.entries[id][i].id == n; }
      }
    } else {
      assert k in log'.entries <==> k in log.entries;
    }
  }

  lemma AppendEntriesOk(log: Log, id: string, body: Body, k: string)
    requires LogOk(log) && log.counter + 1 < TWO_TO_63 && k in Append(log, id, body).entries
    ensures EntriesOk(Append(log, id, body), k)
  {
    if k in log.entries { assert EntriesOk(log, k); }
  }

  lemma AppendKeepsLogOk(log: Log, id: string, body: Body)
    requires LogOk(log) && log.counter + 1 < TWO_TO_63
    ensures LogOk(Append(log, id, body))
  {
    var log' := Append(log, id, body);
    forall k | k in log'.entries ensures EntriesOk(log', k) {
      AppendEntriesOk(log, id, body, k);
    }
    forall n: int | 1 <= n <= log'.counter ensures Recorded(log', n) {
      if n == log'.counter {
        AppendOccurs(log, id, body, n, id);
        assert OccursIn(log', n, id);
      } else {
        assert Recorded(log, n);
        var k :| OccursIn(log, n, k);
        AppendOccurs(log, id, body, n, k);
        assert OccursIn(log', n, k);
      }
    }
    forall n: int, k1, k2 | OccursIn(log', n, k1) && OccursIn(log', n, k2) ensures k1 == k2 {
      AppendOccurs(log, id, body, n, k1);
      AppendOccurs(log, id, body, n, k2);
      if OccursIn(log, n, k1) { NoEntryBeyondCounter(log, n, k1); }
      if OccursIn(log, n, k2) { NoEntryBeyondCounter(log, n, k2); }
    }
  }

  lemma NoEntryBeyondCounter(log: Log, n: int, k: string)
    requires LogOk(log) && OccursIn(log, n, k)
    ensures 1 <= n <= log.counter
  {
    assert EntriesOk(log, k);
  }

  /** Lists only grow at the end, and belong to known incidents. */
  predicate LogGrows(log: Log, log': Log) {
    log.entries.Keys <= log'.entries.Keys && forall id | id in log.entries :: log.entries[id] <= log'.entries[id]
  }

  predicate LogOwned(log: Log, incidents: map<string, Incident>) {
    log.entries.Keys <= incidents.Keys
  }

  // ------------------------------------------------------------ ids of created incidents

  ghost predicate IssuedId(id: string, counter: nat) {
    exists nanos: int, n: nat | 1 <= n <= counter :: id == IncidentId(nanos, n)
  }

  ghost predicate IdsIssued(s: State) {
    forall id | id in s.incidents :: IssuedId(id, s.counter)
  }

  lemma SixDigitsInjective(m: nat, n: nat)
    requires SixDigits(m) == SixDigits(n)
    ensures m == n
  {
    SixDigitsRoundTrip(m);
    SixDigitsRoundTrip(n);
  }

  /** The counter alone keeps generated ids apart, whatever the clock says. */
  lemma IncidentIdInjective(t1: int, m: nat, t2: int, n: nat)
    requires IncidentId(t1, m) == IncidentId(t2, n)
    ensures m == n && t1 == t2
  {
    var a, b := "inc-" + SignedDecimal(t1), "inc-" + SignedDecimal(t2);
    assert a + ['-'] + SixDigits(m) == IncidentId(t1, m);
    assert b + ['-'] + SixDigits(n) == IncidentId(t2, n);
    LastSeparator(a, SixDigits(m), b, SixDigits(n), '-');
    SixDigitsInjective(m, n);
    assert a[4..] == SignedDecimal(t1) && b[4..] == SignedDecimal(t2);
    SignedDecimalInjective(t1, t2);
  }

  lemma IncidentIdHasNoColon(nanos: int, n: nat)
    ensures Free(IncidentId(nanos, n), ':')
  {
    SignedDecimalFree(nanos, ':');
  }

  lemma NewIdIssued(nanos: int, n: nat)
    requires 1 <= n
    ensures IssuedId(IncidentId(nanos, n), n)
  {
  }

  /** An id with the next number has not been issued yet. */
  lemma NextNumberNotIssued(id: string, counter: nat, nanos: int)
    requires IssuedId(id, counter) && id == IncidentId(nanos, counter + 1)
    ensures false
  {
    var t: int, n: nat :| 1 <= n <= counter && id == IncidentId(t, n);
    IncidentIdInjective(t, n, nanos, counter + 1);
  }

  lemma NextIdIsUnused(s: State, nanos: int)
    requires IdsIssued(s)
    ensures IncidentId(nanos, s.counter + 1) !in s.incidents
  {
    var id := IncidentId(nanos, s.counter + 1);
    if id in s.incidents { NextNumberNotIssued(id, s.counter, nanos); }
  }

  lemma IssuedIdStays(id: string, m: nat, n: nat)
    requires IssuedId(id, m) && m <= n
    ensures IssuedId(id, n)
  {
    var t: int, k: nat :| 1 <= k <= m && id == IncidentId(t, k);
  }

  lemma AddedIdIssued(s: State, s': State, id: string)
    requires IdsIssued(s) && s.counter <= s'.counter && IssuedId(id, s'.counter)
    requires s'.incidents.Keys == s.incidents.Keys + {id}
    ensures IdsIssued(s')
  {
    forall k | k in s'.incidents ensures IssuedId(k, s'.counter) {
      if k != id { IssuedIdStays(k, s.counter, s'.counter); }
    }
  }

  // ------------------------------------------------------------ histories

  ghost predicate Inv(s: State) {
    && s.counter < TWO_TO_64
    && IdsIssued(s)
    && (forall id | id in s.incidents :: StatusAgrees(s.incidents[id]))
    && LogOk(s.events) && LogOk(s.runs)
    && LogOwned(s.events, s.incidents) && LogOwned(s.runs, s.incidents)
  }

  /** No counter of the state is within one step of its limit. */
  predicate HasRoom(s: State, steps: nat) {
    s.counter + steps < TWO_TO_64 && s.events.counter + steps < TWO_TO_63 && s.runs.counter + steps < TWO_TO_63
  }

  /** What no request undoes: incidents stay, their identity fields never change,
      and the logs only grow. */
  predicate Preserves(s: State, s': State) {
    && (forall id | id in s.incidents ::
          && id in s'.incidents
          && s'.incidents[id].(status := s.incidents[id].status, approval := s.incidents[id].approval,
                               analysis := s.incidents[id].analysis, report := s.incidents[id].report)
             == s.incidents[id])
    && LogGrows(s.events, s'.events) && LogGrows(s.runs, s'.runs)
  }

  lemma CreateStaysInv(s: State, nanos: int, req: CreateRequest)
    requires Inv(s) && HasRoom(s, 1)
    ensures var s' := Apply(s, Create(nanos, req)).0;
            Inv(s') && Preserves(s, s') && s'.incidents.Keys == s.incidents.Keys + {IncidentId(nanos, s.counter + 1)}
            && IncidentId(nanos, s.counter + 1) !in s.incidents
  {
    NextIdIsUnused(s, nanos);
    NewIdIssued(nanos, s.counter + 1);
    AddedIdIssued(s, Apply(s, Create(nanos, req)).0, IncidentId(nanos, s.counter + 1));
  }

  lemma PutStaysInv(s: State, id: string, incident: Incident)
    requires Inv(s) && id in s.incidents && StatusAgrees(incident)
    requires var i := s.incidents[id];
             incident.(status := i.status, approval := i.approval, analysis := i.analysis, report := i.report) == i
    ensures Inv(Put(s, id, incident).0) && Preserves(s, Put(s, id, incident).0)
  {
    var s' := Put(s, id, incident).0;
    assert forall k | k in s'.incidents :: IssuedId(k, s.counter);
  }

  lemma EventStaysInv(s: State, id: string, body: Body)
    requires Inv(s) && HasRoom(s, 1) && id in s.incidents
    ensures var s' := s.(events := Append(s.events, id, body)); Inv(s') && Preserves(s, s')
  {
    AppendKeepsLogOk(s.events, id, body);
    assert forall k | k in s.incidents :: IssuedId(k, s.counter);
  }

  lemma RunStaysInv(s: State, id: string, body: Body)
    requires Inv(s) && HasRoom(s, 1) && id in s.incidents
    ensures var s' := s.(runs := Append(s.runs, id, body)); Inv(s') && Preserves(s, s')
  {
    AppendKeepsLogOk(s.runs, id, body);
    assert forall k | k in s.incidents :: IssuedId(k, s.counter);
  }

  lemma ApplyStaysInv(s: State, op: Op)
    requires Inv(s) && ReviewsDecide(op) && HasRoom(s, 1)
    ensures var s' := Apply(s, op).0; Inv(s') && Preserves(s, s')
    ensures !op.Create? && op.id !in s.incidents ==> Apply(s, op) == (s, NotFound)
  {
    if op.Create? {
      CreateStaysInv(s, op.nanos, op.req);
    } else if op.id in s.incidents {
      assert StatusAgrees(s.incidents[op.id]);
      match op {
        case RecordEvent(id, body) => EventStaysInv(s, id, body);
        case RecordRun(id, body) => RunStaysInv(s, id, body);
        case SaveAnalysis(id, a) => PutStaysInv(s, id, Analysed(s.incidents[id], a));
        case SaveReport(id, report) => PutStaysInv(s, id, Reported(s.incidents[id], report));
        case Review(id, status, reviewer, comment) =>
          PutStaysInv(s, id, Reviewed(s.incidents[id], status, reviewer, comment));
      }
    }
  }

  lemma RoomShrinksByOne(s: State, op: Op, steps: nat)
    requires HasRoom(s, steps + 1)
    ensures HasRoom(Apply(s, op).0, steps)
  {
  }

  /** Over every history with decided reviews and below the counters' limits: the
      status of each incident agrees with its payload, event and run ids are
      exactly 1..counter without repetition, logs are append-only, and no create
      overwrites an incident. */
  lemma {:induction false} HistoriesStayInv(s: State, ops: seq<Op>)
    requires Inv(s) && HasRoom(s, |ops|) && forall k | 0 <= k < |ops| :: ReviewsDecide(ops[k])
    ensures Inv(ApplyAll(s, ops)) && Preserves(s, ApplyAll(s, ops))
    decreases |ops|
  {
    if ops != [] {
      HistoryRoom(s, ops[..|ops| - 1], 1);
      HistoriesStayInv(s, ops[..|ops| - 1]);
      var mid := ApplyAll(s, ops[..|ops| - 1]);
      ApplyStaysInv(mid, ops[|ops| - 1]);
      PreservesTransitive(s, mid, ApplyAll(s, ops));
    }
  }

  lemma {:induction false} HistoryRoom(s: State, ops: seq<Op>, extra: nat)
    requires HasRoom(s, |ops| + extra)
    ensures HasRoom(ApplyAll(s, ops), extra)
    decreases |ops|
  {
    if ops != [] {
      HistoryRoom(s, ops[..|ops| - 1], extra + 1);
      RoomShrinksByOne(ApplyAll(s, ops[..|ops| - 1]), ops[|ops| - 1], extra);
    }
  }

  lemma PreservesTransitive(a: State, b: State, c: State)
    requires Preserves(a, b) && Preserves(b, c)
    ensures Preserves(a, c)
  {
  }

  // ------------------------------------------------------------ the store

  class MemoryStore {
    var seqNo: nat
    var incidents: map<string, Incident>
    var eventSeq: nat
    var eventsByIncident: map<string, seq<Entry>>
    var agentRunSeq: nat
    var agentRunsByIncident: map<string, seq<Entry>>

    ghost function Contents(): State
      reads this
    {
      State(seqNo, incidents, Log(eventSeq, eventsByIncident), Log(agentRunSeq, agentRunsByIncident))
    }

    constructor ()
      ensures Contents() == Empty
    {
      seqNo, incidents := 0, map[];
      eventSeq, eventsByIncident := 0, map[];
      agentRunSeq, agentRunsByIncident := 0, map[];
    }

    method CreateIncident(nanos: int, req: CreateRequest) returns (id: string, created: Incident)
      modifies this
      ensures (Contents(), Found(created)) == Apply(old(Contents()), Create(nanos, req))
      ensures id == IncidentId(nanos, seqNo) && incidents[id] == created
    {
      seqNo := Increment(seqNo);
      id := "inc-" + SignedDecimal(nanos) + "-" + SixDigits(seqNo);
      created := Incident(req.serviceName, req.severity, req.alertSummary, req.playbookKey, req.context,
                          "created", None, None, None);
      incidents := incidents[id := created];
    }

    method GetIncident(id: string) returns (r: Reply)
      ensures r == if id in incidents then Found(incidents[id]) else NotFound
    {
      if id !in incidents {
        return NotFound;
      }
      return Found(incidents[id]);
    }

    method SaveAnalysis(id: string, analysis: Analysis) returns (r: Reply)
      modifies this`incidents
      ensures (Contents(), r) == Apply(old(Contents()), Op.SaveAnalysis(id, analysis))
    {
      if id !in incidents {
        return NotFound;
      }
      var incident := incidents[id];
      incident := incident.(analysis := Some(analysis));
      if analysis.action.Some? && analysis.action.value.requiresApproval {
        incident := incident.(status := "waiting_for_approval");
      } else {
        incident := incident.(status := "diagnosed");
      }
      incidents := incidents[id := incident];
      return Found(incident);
    }

    method SaveReport(id: string, report: Option<FinalReport>) returns (r: Reply)
      modifies this`incidents
      ensures (Contents(), r) == Apply(old(Contents()), Op.SaveReport(id, report))
    {
      if id !in incidents {
        return NotFound;
      }
      var incident := incidents[id].(report := report);
      if report.None? {
        incident := incident.(status := "diagnosed");
      } else if report.value.receipt.None? {
        incident := incident.(status := "diagnosed");
      } else if report.value.receipt.value.verificationStatus == "recovered" {
        incident := incident.(status := "recovered");
      } else {
        incident := incident.(status := "report_ready");
      }
      incidents := incidents[id := incident];
      return Found(incident);
    }

    method ReviewIncident(id: string, status: string, reviewer: string, comment: string) returns (r: Reply)
      modifies this`incidents
      ensures (Contents(), r) == Apply(old(Contents()), Review(id, status, reviewer, comment))
    {
      if id !in incidents {
        return NotFound;
      }
      var incident := incidents[id].(approval := Some(Approval(status, reviewer, comment)));
      if status == "approved" {
        incident := incident.(status := "approved");
      } else if status == "rejected" {
        incident := incident.(status := "rejected");
      }
      incidents := incidents[id := incident];
      return Found(incident);
    }

    method RecordEvent(id: string, body: Body) returns (known: bool)
      modifies this`eventSeq, this`eventsByIncident
      ensures Contents() == Apply(old(Contents()), Op.RecordEvent(id, body)).0
      ensures known == (id in incidents)
    {
      if id !in incidents {
        return false;
      }
      eventSeq := Increment(eventSeq);
      var entries := if id in eventsByIncident then eventsByIncident[id] else [];
      eventsByIncident := eventsByIncident[id := entries + [Entry(ToInt64(eventSeq), id, body)]];
      return true;
    }

    method RecordAgentRun(id: string, body: Body) returns (known: bool)
      modifies this`agentRunSeq, this`agentRunsByIncident
      ensures Contents() == Apply(old(Contents()), Op.RecordRun(id, body)).0
      ensures known == (id in incidents)
    {
      if id !in incidents {
        return false;
      }
      agentRunSeq := Increment(agentRunSeq);
      var entries := if id in agentRunsByIncident then agentRunsByIncident[id] else [];
      agentRunsByIncident := agentRunsByIncident[id := entries + [Entry(ToInt64(agentRunSeq), id, body)]];
      return true;
    }
  }
}
