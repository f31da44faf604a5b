/** The relational incident store: tables, and transactions that update, delete
    and re-insert rows, any statement of which may fail. */
module IncidentMySQL {
  import opened Common
  import opened Models
  import opened Text
  import IS = IncidentStore

  datatype IncidentRow = IncidentRow(
    serviceName: string, severity: string, alertSummary: string, playbookKey: string,
    contextJson: IncidentContext, status: string,
    analysisJson: Option<IS.Analysis>, reportJson: Option<FinalReport>)

  datatype EvidenceRow = EvidenceRow(incidentId: string, item: Evidence)

  datatype LogRow = LogRow(incidentId: string, body: IS.Body)

  /** Rows of the AUTO_INCREMENT tables are listed in insertion order. */
  datatype Tables = Tables(
    incidents: map<string, IncidentRow>,
    approvals: map<string, IS.Approval>,
    evidence: seq<EvidenceRow>,
    events: seq<LogRow>,
    runs: seq<LogRow>)

  const EmptyTables := Tables(map[], map[], [], [], [])

  datatype Result = Found(incident: IS.Incident) | NotFound | Failed

  // ------------------------------------------------------------ reading

  /** A missing context is written as JSON `null` and read back as a blank one. */
  function StoredContext(context: Option<IncidentContext>): IncidentContext {
    if context.Some? then context.value else IncidentContext("", "", "", "")
  }

  /** `GetIncident`: the row joined with its approval. */
  function Joined(r: IncidentRow, approvals: map<string, IS.Approval>, id: string): IS.Incident {
    IS.Incident(r.serviceName, r.severity, r.alertSummary, r.playbookKey, Some(r.contextJson), r.status,
                if id in approvals then Some(approvals[id]) else None,
                r.analysisJson, r.reportJson)
  }

  function View(t: Tables, id: string): IS.Incident
    requires id in t.incidents
  {
    Joined(t.incidents[id], t.approvals, id)
  }

  function EvidenceOf(rows: seq<EvidenceRow>, id: string): seq<Evidence> {
    if rows == [] then []
    else
      var last := |rows| - 1;
      EvidenceOf(rows[..last], id) + (if rows[last].incidentId == id then [rows[last].item] else [])
  }

  function BodiesOf(rows: seq<LogRow>, id: string): seq<IS.Body> {
    if rows == [] then []
    else
      var last := |rows| - 1;
      BodiesOf(rows[..last], id) + (if rows[last].incidentId == id then [rows[last].body] else [])
  }

  function Without(rows: seq<EvidenceRow>, id: string): seq<EvidenceRow> {
    if rows == [] then []
    else
      var last := |rows| - 1;
      Without(rows[..last], id) + (if rows[last].incidentId == id then [] else [rows[last]])
  }

  function RowsFor(id: string, evidence: seq<Evidence>): (r: seq<EvidenceRow>)
    ensures |r| == |evidence|
  {
    seq(|evidence|, i requires 0 <= i < |evidence| => EvidenceRow(id, evidence[i]))
  }

  // ------------------------------------------------------------ writing

  function AnalysisStatus(action: Option<ActionPlan>): string {
    if action.Some? && action.value.requiresApproval then "waiting_for_approval" else "diagnosed"
  }

  function ReportStatus(report: FinalReport): string {
    match report.receipt
    case None => "diagnosed"
    case Some(receipt) => if receipt.verificationStatus == "recovered" then "recovered" else "report_ready"
  }

  /** The committed effect of `SaveAnalysis`. */
  function WithAnalysis(t: Tables, id: string, a: IS.Analysis): Tables
    requires id in t.incidents
  {
    t.(incidents := t.incidents[id := t.incidents[id].(status := AnalysisStatus(a.action), analysisJson := Some(a))],
       evidence := Without(t.evidence, id) + RowsFor(id, a.evidence))
  }

  function WithReport(t: Tables, id: string, report: FinalReport): Tables
    requires id in t.incidents
  {
    t.(incidents := t.incidents[id := t.incidents[id].(status := ReportStatus(report), reportJson := Some(report))])
  }

  function WithReview(t: Tables, id: string, status: string, reviewer: string, comment: string): Tables
    requires id in t.incidents
  {
    t.(incidents := t.incidents[id := t.incidents[id].(status := status)],
       approvals := t.approvals[id := IS.Approval(status, reviewer, comment)])
  }

  function WithIncident(t: Tables, id: string, req: IS.CreateRequest): Tables {
    t.(incidents := t.incidents[id := IncidentRow(req.serviceName, req.severity, req.alertSummary, req.playbookKey,
                                                  StoredContext(req.context), "created", None, None)])
  }

  /** Where a transaction stops: the index of the failing statement, counted from
      BEGIN, and how COMMIT is answered when it is reached. */
  datatype Faults = Faults(failAt: Option<nat>, commit: Common.Reply)

  predicate Fails(f: Faults, statement: nat) {
    f.failAt == Some(statement)
  }

  /** Every statement of a transaction of `n` statements succeeds. */
  predicate Reaches(f: Faults, n: nat) {
    f.failAt.None? || f.failAt.value >= n
  }

  function SqlId(nanos: int): string {
    "inc-" + SignedDecimal(nanos)
  }

  /** One request served by the relational store with a working database. */
  function SqlApply(t: Tables, op: IS.Op): (Tables, Result) {
    match op
    case Create(nanos, req) =>
      if SqlId(nanos) in t.incidents then (t, Failed)
      else (WithIncident(t, SqlId(nanos), req), Found(IS.NewIncident(req)))
    case SaveReport(id, report) =>
      if report.None? then (t, Failed)
      else if id !in t.incidents then (t, NotFound)
      else Shown(WithReport(t, id, report.value), id)
    case SaveAnalysis(id, a) =>
      if id in t.incidents then Shown(WithAnalysis(t, id, a), id) else (t, NotFound)
    case Review(id, status, reviewer, comment) =>
      if id in t.incidents then Shown(WithReview(t, id, status, reviewer, comment), id) else (t, NotFound)
    case RecordEvent(id, body) =>
      if id in t.incidents then Shown(t.(events := t.events + [LogRow(id, body)]), id) else (t, Failed)
    case RecordRun(id, body) =>
      if id in t.incidents then Shown(t.(runs := t.runs + [LogRow(id, body)]), id) else (t, Failed)
  }

  function Shown(t: Tables, id: string): (Tables, Result)
    requires id in t.incidents
  {
    (t, Found(View(t, id)))
  }

  /** A transaction without a fault. */
  predicate Calm(f: Faults) {
    f.failAt.None? && f.commit.Acknowledged?
  }

  // ------------------------------------------------------------ the mirror of the evidence

  predicate Mirrors(t: Tables, id: string)
    requires id in t.incidents
  {
    EvidenceOf(t.evidence, id)
    == match t.incidents[id].analysisJson case None => [] case Some(a) => a.evidence
  }

  predicate LogOwned(rows: seq<LogRow>, ids: set<string>) {
    forall k | 0 <= k < |rows| :: rows[k].incidentId in ids
  }

  /** The foreign keys of approvals and logs. */
  predicate RowsOwned(t: Tables) {
    && t.approvals.Keys <= t.incidents.Keys
    && LogOwned(t.events, t.incidents.Keys)
    && LogOwned(t.runs, t.incidents.Keys)
  }

  predicate EvidenceMirrored(t: Tables) {
    && (forall id | id in t.incidents :: Mirrors(t, id))
    && (forall k | 0 <= k < |t.evidence| :: t.evidence[k].incidentId in t.incidents)
    && RowsOwned(t)
  }

  lemma {:induction false} EvidenceOfAppend(a: seq<EvidenceRow>, b: seq<EvidenceRow>, id: string)
    ensures EvidenceOf(a + b, id) == EvidenceOf(a, id) + EvidenceOf(b, id)
  {
    if b == [] {
      assert a + b == a;
    } else {
      var last := |b| - 1;
      assert (a + b)[..|a + b| - 1] == a + b[..last];
      EvidenceOfAppend(a, b[..last], id);
    }
  }

  lemma EvidenceOfSnoc(rows: seq<EvidenceRow>, row: EvidenceRow, k: string)
    ensures EvidenceOf(rows + [row], k)
         == if row.incidentId == k then EvidenceOf(rows, k) + [row.item] else EvidenceOf(rows, k)
  {
    assert (rows + [row])[..|rows|] == rows;
  }

  lemma {:induction false} EvidenceOfWithout(rows: seq<EvidenceRow>, id: string, k: string)
    ensures EvidenceOf(Without(rows, id), k) == if k == id then [] else EvidenceOf(rows, k)
  {
    if rows != [] {
      var last := |rows| - 1;
      EvidenceOfWithout(rows[..last], id, k);
      assert rows[..last] + [rows[last]] == rows;
      EvidenceOfSnoc(rows[..last], rows[last], k);
      if rows[last].incidentId == id {
        assert Without(rows, id) == Without(rows[..last], id);
      } else {
        EvidenceOfSnoc(Without(rows[..last], id), rows[last], k);
      }
    }
  }

  lemma {:induction false} WithoutKeepsRows(rows: seq<EvidenceRow>, id: string)
    ensures forall r | r in Without(rows, id) :: r in rows
  {
    if rows != [] { WithoutKeepsRows(rows[..|rows| - 1], id); }
  }

  lemma {:induction false} EvidenceOfRowsFor(id: string, evidence: seq<Evidence>, k: string)
    ensures EvidenceOf(RowsFor(id, evidence), k) == if k == id then evidence else []
    decreases |evidence|
  {
    if evidence != [] {
      var last := |evidence| - 1;
      assert RowsFor(id, evidence)[..last] == RowsFor(id, evidence[..last]);
      EvidenceOfRowsFor(id, evidence[..last], k);
      assert evidence == evidence[..last] + [evidence[last]];
    }
  }

  lemma {:induction false} NoRowsNoEvidence(rows: seq<EvidenceRow>, id: string)
    requires forall k | 0 <= k < |rows| :: rows[k].incidentId != id
    ensures EvidenceOf(rows, id) == []
  {
    if rows != [] { NoRowsNoEvidence(rows[..|rows| - 1], id); }
  }

  lemma AnalysisKeepsMirror(t: Tables, id: string, a: IS.Analysis)
    requires EvidenceMirrored(t) && id in t.incidents
    ensures EvidenceMirrored(WithAnalysis(t, id, a))
  {
    var t' := WithAnalysis(t, id, a);
    forall k | k in t'.incidents ensures Mirrors(t', k) {
      assert Mirrors(t, k);
      EvidenceOfAppend(Without(t.evidence, id), RowsFor(id, a.evidence), k);
      EvidenceOfWithout(t.evidence, id, k);
      EvidenceOfRowsFor(id, a.evidence, k);
    }
    WithoutKeepsRows(t.evidence, id);
    forall k | 0 <= k < |t'.evidence| ensures t'.evidence[k].incidentId in t'.incidents {
      if k < |Without(t.evidence, id)| {
        assert Without(t.evidence, id)[k] in t.evidence;
      }
    }
  }

  lemma CreateKeepsMirror(t: Tables, id: string, req: IS.CreateRequest)
    requires EvidenceMirrored(t) && id !in t.incidents
    ensures EvidenceMirrored(WithIncident(t, id, req))
    ensures View(WithIncident(t, id, req), id)
         == IS.NewIncident(req.(context := Some(StoredContext(req.context))))
  {
    var t' := WithIncident(t, id, req);
    NoRowsNoEvidence(t.evidence, id);
    forall k | k in t'.incidents ensures Mirrors(t', k) {
      if k != id { assert Mirrors(t, k); }
    }
  }

  lemma OthersKeepMirror(t: Tables, id: string, report: FinalReport, status: string, reviewer: string, comment: string)
    requires EvidenceMirrored(t) && id in t.incidents
    ensures EvidenceMirrored(WithReport(t, id, report))
    ensures EvidenceMirrored(WithReview(t, id, status, reviewer, comment))
  {
    forall k | k in t.incidents
      ensures Mirrors(WithReport(t, id, report), k) && Mirrors(WithReview(t, id, status, reviewer, comment), k)
    {
      assert Mirrors(t, k);
    }
  }

  // ------------------------------------------------------------ the store

  class MySQLStore {
    var incidents: map<string, IncidentRow>
    var approvals: map<string, IS.Approval>
    var evidenceItems: seq<EvidenceRow>
    var events: seq<LogRow>
    var agentRuns: seq<LogRow>

    ghost function Contents(): Tables
      reads this
    {
      Tables(incidents, approvals, evidenceItems, events, agentRuns)
    }

    ghost predicate Valid()
      reads this
    {
      EvidenceMirrored(Contents())
    }

    constructor ()
      ensures Valid() && Contents() == EmptyTables
    {
      incidents, approvals, evidenceItems, events, agentRuns := map[], map[], [], [], [];
    }

    method GetIncident(id: string, readable: bool) returns (r: Result)
      ensures r == if !readable then Failed
                   else if id in incidents then Found(View(Contents(), id)) else NotFound
    {
      if !readable {
        return Failed;
      }
      if id !in incidents {
        return NotFound;
      }
      var row := incidents[id];
      var approval := None;
      if id in approvals {
        approval := Some(approvals[id]);
      }
      return Found(IS.Incident(row.serviceName, row.severity, row.alertSummary, row.playbookKey,
                               Some(row.contextJson), row.status, approval, row.analysisJson, row.reportJson));
    }

    /** The id comes from the clock alone, so the INSERT may hit an existing row. */
    method CreateIncident(nanos: int, req: IS.CreateRequest, insert: Common.Reply) returns (r: Result)
      requires Valid()
      modifies this`incidents
      ensures Valid()
      ensures var id := "inc-" + SignedDecimal(nanos);
              var t := old(Contents());
              if insert.Refused? || id in t.incidents then Contents() == t && r == Failed
              else
                Contents() == WithIncident(t, id, req) &&
                r == if insert.Lost? then Failed else Found(IS.NewIncident(req))
      ensures insert.Acknowledged? ==> (Contents(), r) == SqlApply(old(Contents()), IS.Create(nanos, req))
    {
      var id := "inc-" + SignedDecimal(nanos);
      if insert.Refused? || id in incidents {
        return Failed;
      }
      CreateKeepsMirror(Contents(), id, req);
      incidents := incidents[id := IncidentRow(req.serviceName, req.severity, req.alertSummary, req.playbookKey,
                                               StoredContext(req.context), "created", None, None)];
      if insert.Lost? {
        return Failed;
      }
      return Found(IS.NewIncident(req));
    }

    /** DELETE of the old evidence rows, as a scan. */
    method DeleteEvidence(rows: seq<EvidenceRow>, id: string) returns (kept: seq<EvidenceRow>)
      ensures kept == Without(rows, id)
    {
      kept := [];
      for i := 0 to |rows|
        invariant kept == Without(rows[..i], id)
      {
        assert rows[..i + 1][..i] == rows[..i];
        if rows[i].incidentId != id {
          kept := kept + [rows[i]];
        }
      }
      assert rows[..|rows|] == rows;
    }

    /** The insert loop of a transaction; the item at `i` is statement `3 + i`. */
    method InsertEvidence(rows: seq<EvidenceRow>, id: string, evidence: seq<Evidence>, faults: Faults)
      returns (all: seq<EvidenceRow>, ok: bool)
      requires Reaches(faults, 3)
      ensures ok == Reaches(faults, 3 + |evidence|)
      ensures ok ==> all == rows + RowsFor(id, evidence)
    {
      all := rows;
      for i := 0 to |evidence|
        invariant all == rows + RowsFor(id, evidence)[..i]
        invariant Reaches(faults, 3 + i)
      {
        if Fails(faults, 3 + i) {
          return all, false;
        }
        all := all + [EvidenceRow(id, evidence[i])];
      }
      ok := true;
    }

    /** Statements 0 BEGIN, 1 UPDATE, 2 DELETE, then one INSERT per item, then COMMIT.
        A failure before COMMIT rolls everything back. */
    method SaveAnalysis(id: string, a: IS.Analysis, faults: Faults, readable: bool) returns (r: Result)
      requires Valid()
      modifies this`incidents, this`evidenceItems
      ensures Valid()
      ensures var t := old(Contents());
              var n := 3 + |a.evidence|;
              if id in t.incidents && Reaches(faults, n) && !faults.commit.Refused?
              then Contents() == WithAnalysis(t, id, a)
              else Contents() == t
      ensures r == if !Reaches(faults, 2) then Failed
                   else if id !in old(incidents) then NotFound
                   else if !Reaches(faults, 3 + |a.evidence|) || !faults.commit.Acknowledged? || !readable then Failed
                   else Found(View(WithAnalysis(old(Contents()), id, a), id))
      ensures Calm(faults) && readable ==> (Contents(), r) == SqlApply(old(Contents()), IS.SaveAnalysis(id, a))
    {
      if Fails(faults, 0) {
        return Failed;
      }
      if Fails(faults, 1) {
        return Failed;
      }
      if id !in incidents {
        return NotFound;
      }
      var txIncidents := incidents[id := incidents[id].(status := AnalysisStatus(a.action), analysisJson := Some(a))];
      if Fails(faults, 2) {
        return Failed;
      }
      var kept := DeleteEvidence(evidenceItems, id);
      var txEvidence, inserted := InsertEvidence(kept, id, a.evidence, faults);
      if !inserted {
        return Failed;
      }
      if faults.commit.Refused? {
        return Failed;
      }
      AnalysisKeepsMirror(Contents(), id, a);
      incidents, evidenceItems := txIncidents, txEvidence;
      if faults.commit.Lost? {
        return Failed;
      }
      r := GetIncident(id, readable);
    }

    method SaveReport(id: string, report: Option<FinalReport>, update: Common.Reply, readable: bool) returns (r: Result)
      requires Valid()
      modifies this`incidents
      ensures Valid()
      ensures var t := old(Contents());
              if report.Some? && !update.Refused? && id in t.incidents
              then Contents() == WithReport(t, id, report.value)
              else Contents() == t
      ensures r == if report.None? || !update.Acknowledged? then Failed
                   else if id !in old(incidents) then NotFound
                   else if !readable then Failed
                   else Found(View(WithReport(old(Contents()), id, report.value), id))
      ensures update.Acknowledged? && readable ==>
                (Contents(), r) == SqlApply(old(Contents()), IS.SaveReport(id, report))
    {
      hide EvidenceMirrored;
      if report.None? {
        return Failed;
      }
      var status := "diagnosed";
      if report.value.receipt.Some? {
        if report.value.receipt.value.verificationStatus == "recovered" {
          status := "recovered";
        } else {
          status := "report_ready";
        }
      }
      if id in incidents && !update.Refused? {
        OthersKeepMirror(Contents(), id, report.value, "", "", "");
        incidents := incidents[id := incidents[id].(status := status, reportJson := report)];
      }
      if !update.Acknowledged? {
        return Failed;
      }
      if id !in incidents {
        return NotFound;
      }
      r := GetIncident(id, readable);
    }

    /** Statements 0 BEGIN, 1 UPDATE, 2 upsert of the approval, then COMMIT. */
    method ReviewIncident(id: string, status: string, reviewer: string, comment: string,
                          faults: Faults, readable: bool) returns (r: Result)
      requires Valid()
      modifies this`incidents, this`approvals
      ensures Valid()
      ensures var t := old(Contents());
              if id in t.incidents && Reaches(faults, 3) && !faults.commit.Refused?
              then Contents() == WithReview(t, id, status, reviewer, comment)
              else Contents() == t
      ensures r == if !Reaches(faults, 2) then Failed
                   else if id !in old(incidents) then NotFound
                   else if !Reaches(faults, 3) || !faults.commit.Acknowledged? || !readable then Failed
                   else Found(View(WithReview(old(Contents()), id, status, reviewer, comment), id))
      ensures Calm(faults) && readable ==>
                (Contents(), r) == SqlApply(old(Contents()), IS.Review(id, status, reviewer, comment))
    {
      if Fails(faults, 0) || Fails(faults, 1) {
        return Failed;
      }
      if id !in incidents {
        return NotFound;
      }
      if Fails(faults, 2) || faults.commit.Refused? {
        return Failed;
      }
      OthersKeepMirror(Contents(), id, FinalReport("", "", "", "", [], [], [], [], [], None), status, reviewer, comment);
      incidents := incidents[id := incidents[id].(status := status)];
      approvals := approvals[id := IS.Approval(status, reviewer, comment)];
      if faults.commit.Lost? {
        return Failed;
      }
      r := GetIncident(id, readable);
    }

    /** The foreign key refuses events of unknown incidents. */
    method RecordEvent(id: string, body: IS.Body, insert: Common.Reply) returns (ok: bool)
      requires Valid()
      modifies this`events
      ensures Valid()
      ensures events == if id in incidents && !insert.Refused?
                        then old(events) + [LogRow(id, body)] else old(events)
      ensures ok == (id in incidents && insert.Acknowledged?)
      ensures insert.Acknowledged? ==>
                var (t', reply) := SqlApply(old(Contents()), IS.RecordEvent(id, body));
                Contents() == t' && ok == reply.Found?
    {
      if id !in incidents || insert.Refused? {
        return false;
      }
      events := events + [LogRow(id, body)];
      assert forall k | k in incidents :: Mirrors(old(Contents()), k);
      return insert.Acknowledged?;
    }

    /** Likewise for agent runs. */
    method RecordAgentRun(id: string, body: IS.Body, insert: Common.Reply) returns (ok: bool)
      requires Valid()
      modifies this`agentRuns
      ensures Valid()
      ensures agentRuns == if id in incidents && !insert.Refused?
                        then old(agentRuns) + [LogRow(id, body)] else old(agentRuns)
      ensures ok == (id in incidents && insert.Acknowledged?)
      ensures insert.Acknowledged? ==>
                var (t', reply) := SqlApply(old(Contents()), IS.RecordRun(id, body));
                Contents() == t' && ok == reply.Found?
    {
      if id !in incidents || insert.Refused? {
        return false;
      }
      agentRuns := agentRuns + [LogRow(id, body)];
      assert forall k | k in incidents :: Mirrors(old(Contents()), k);
      return insert.Acknowledged?;
    }
  }
}
