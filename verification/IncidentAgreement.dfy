/** The in-memory and the relational incident store show the same incidents. */
module IncidentAgreement {
  import opened Common
  import opened Models
  import opened Text
  import IS = IncidentStore
  import SQL = IncidentMySQL

  // ------------------------------------------------------------ the correspondence

  function Bodies(entries: seq<IS.Entry>): (r: seq<IS.Body>)
    ensures |r| == |entries|
  {
    seq(|entries|, i requires 0 <= i < |entries| => entries[i].body)
  }

  predicate Injective(ids: map<string, string>) {
    forall m, n | m in ids && n in ids && m != n :: ids[m] != ids[n]
  }

  predicate SameIncidents(incidents: map<string, IS.Incident>, rows: map<string, SQL.IncidentRow>,
                          approvals: map<string, IS.Approval>, ids: map<string, string>)
  {
    forall m | m in ids ::
      m in incidents && ids[m] in rows && incidents[m] == SQL.Joined(rows[ids[m]], approvals, ids[m])
  }

  predicate SameLog(log: IS.Log, rows: seq<SQL.LogRow>, ids: map<string, string>) {
    forall m | m in ids :: Bodies(IS.Listed(log, m)) == SQL.BodiesOf(rows, ids[m])
  }

  predicate Named(ids: map<string, string>, q: string) {
    exists m | m in ids :: ids[m] == q
  }

  /** `ids` maps each memory id to the relational id of the same incident. */
  predicate Related(s: IS.State, t: SQL.Tables, ids: map<string, string>) {
    && ids.Keys == s.incidents.Keys && Injective(ids)
    && SameIncidents(s.incidents, t.incidents, t.approvals, ids)
    && SameLog(s.events, t.events, ids) && SameLog(s.runs, t.runs, ids)
    && IS.LogOwned(s.events, s.incidents) && IS.LogOwned(s.runs, s.incidents)
    && SQL.RowsOwned(t)
  }

  /** Every relational incident is the counterpart of some memory incident. */
  predicate Covered(t: SQL.Tables, ids: map<string, string>) {
    forall q | q in t.incidents :: Named(ids, q)
  }

  /** Both ids name the same incident, or neither names any. */
  predicate SameTarget(s: IS.State, t: SQL.Tables, ids: map<string, string>, m: string, q: string) {
    (m in ids && ids[m] == q) || (m !in s.incidents && q !in t.incidents)
  }

  /** The same request sent to both stores: creates carry a context and hit no used
      id, reports are present, reviews decide. */
  predicate SameRequest(s: IS.State, t: SQL.Tables, ids: map<string, string>, a: IS.Op, b: IS.Op) {
    match (a, b)
    case (Create(m, req), Create(q, req')) =>
      && req == req' && req.context.Some?
      && IS.IncidentId(m, Increment(s.counter)) !in s.incidents
      && SQL.SqlId(q) !in t.incidents
    case (SaveAnalysis(m, x), SaveAnalysis(q, y)) => x == y && SameTarget(s, t, ids, m, q)
    case (SaveReport(m, x), SaveReport(q, y)) => x == y && x.Some? && SameTarget(s, t, ids, m, q)
    case (Review(m, status, r, c), Review(q, status', r', c')) =>
      (status, r, c) == (status', r', c') && IS.ReviewsDecide(a) && SameTarget(s, t, ids, m, q)
    case (RecordEvent(m, x), RecordEvent(q, y)) => x == y && SameTarget(s, t, ids, m, q)
    case (RecordRun(m, x), RecordRun(q, y)) => x == y && SameTarget(s, t, ids, m, q)
    case _ => false
  }

  /** Both show the same incident, or both fail. */
  predicate SameReply(a: IS.Reply, b: SQL.Result) {
    if a.Found? then b.Found? && a.incident == b.incident else !b.Found?
  }

  function NewIds(s: IS.State, ids: map<string, string>, a: IS.Op, b: IS.Op): map<string, string> {
    if a.Create? && b.Create? then ids[IS.IncidentId(a.nanos, Increment(s.counter)) := SQL.SqlId(b.nanos)] else ids
  }

  // ------------------------------------------------------------ one request

  lemma OtherApprovals(approvals: map<string, IS.Approval>, approvals': map<string, IS.Approval>,
                       q: string, row: SQL.IncidentRow, k: string)
    requires approvals' - {q} == approvals - {q} && k != q
    ensures SQL.Joined(row, approvals', k) == SQL.Joined(row, approvals, k)
    ensures k in approvals' <==> k in approvals
  {
    assert k in approvals' - {q} <==> k in approvals - {q};
    if k in approvals {
      assert approvals'[k] == (approvals' - {q})[k] == (approvals - {q})[k];
    }
  }

  lemma IncidentsStaySame(incidents: map<string, IS.Incident>, rows: map<string, SQL.IncidentRow>,
                          approvals: map<string, IS.Approval>, ids: map<string, string>, m: string,
                          row: SQL.IncidentRow, approvals': map<string, IS.Approval>, i: IS.Incident)
    requires SameIncidents(incidents, rows, approvals, ids) && Injective(ids) && m in ids
    requires approvals' - {ids[m]} == approvals - {ids[m]}
    requires SQL.Joined(row, approvals', ids[m]) == i
    ensures SameIncidents(incidents[m := i], rows[ids[m] := row], approvals', ids)
  {
    forall n | n in ids && n != m
      ensures incidents[n] == SQL.Joined(rows[ids[n]], approvals', ids[n])
    {
      OtherApprovals(approvals, approvals', ids[m], rows[ids[n]], ids[n]);
    }
  }

  /** Replacing one incident on both sides by the same incident. */
  lemma PutAgrees(s: IS.State, t: SQL.Tables, ids: map<string, string>, m: string,
                  row: SQL.IncidentRow, t': SQL.Tables, i: IS.Incident)
    requires Related(s, t, ids) && m in ids
    requires t'.incidents == t.incidents[ids[m] := row] && t'.events == t.events && t'.runs == t.runs
    requires t'.approvals - {ids[m]} == t.approvals - {ids[m]}
    requires SQL.Joined(row, t'.approvals, ids[m]) == i
    ensures Related(IS.Put(s, m, i).0, t', ids)
    ensures SQL.View(t', ids[m]) == i
  {
    IncidentsStaySame(s.incidents, t.incidents, t.approvals, ids, m, row, t'.approvals, i);
    assert t'.incidents.Keys == t.incidents.Keys;
    assert SQL.RowsOwned(t') by {
      forall q | q in t'.approvals ensures q in t'.incidents {
        if q != ids[m] { OtherApprovals(t.approvals, t'.approvals, ids[m], row, q); }
      }
    }
  }

  lemma CreateIncidentsAgree(s: IS.State, t: SQL.Tables, ids: map<string, string>, m: string, q: string,
                             req: IS.CreateRequest)
    requires Related(s, t, ids) && req.context.Some? && m !in s.incidents && q !in t.incidents
    ensures var ids' := ids[m := q];
            var t' := SQL.WithIncident(t, q, req);
            && Injective(ids')
            && SameIncidents(s.incidents[m := IS.NewIncident(req)], t'.incidents, t'.approvals, ids')
  {
  }

  lemma CreateStaysCovered(t: SQL.Tables, ids: map<string, string>, m: string, q: string, req: IS.CreateRequest)
    requires Covered(t, ids) && m !in ids
    ensures Covered(SQL.WithIncident(t, q, req), ids[m := q])
  {
    var ids', t' := ids[m := q], SQL.WithIncident(t, q, req);
    forall k | k in t'.incidents ensures Named(ids', k) {
      if k == q {
        assert ids'[m] == q;
      } else {
        var n :| n in ids && ids[n] == k;
        assert ids'[n] == k;
      }
    }
  }

  lemma RequestStaysCovered(s: IS.State, t: SQL.Tables, ids: map<string, string>, a: IS.Op, b: IS.Op)
    requires Covered(t, ids) && ids.Keys == s.incidents.Keys && SameRequest(s, t, ids, a, b)
    ensures Covered(SQL.SqlApply(t, b).0, NewIds(s, ids, a, b))
  {
    if b.Create? {
      CreateStaysCovered(t, ids, IS.IncidentId(a.nanos, Increment(s.counter)), SQL.SqlId(b.nanos), b.req);
    } else {
      assert SQL.SqlApply(t, b).0.incidents.Keys == t.incidents.Keys;
    }
  }

  lemma CreateLogAgrees(log: IS.Log, rows: seq<SQL.LogRow>, ids: map<string, string>, m: string, q: string)
    requires SameLog(log, rows, ids) && m !in log.entries
    requires forall k | 0 <= k < |rows| :: rows[k].incidentId != q
    ensures SameLog(log, rows, ids[m := q])
  {
    NoRowsNoBodies(rows, q);
  }

  lemma CreateRelated(s: IS.State, t: SQL.Tables, ids: map<string, string>, m: string, q: string, n: nat,
                      req: IS.CreateRequest)
    requires Related(s, t, ids) && req.context.Some? && m !in s.incidents && q !in t.incidents
    ensures Related(s.(counter := n, incidents := s.incidents[m := IS.NewIncident(req)]),
                    SQL.WithIncident(t, q, req), ids[m := q])
  {
    CreateIncidentsAgree(s, t, ids, m, q, req);
    CreateLogAgrees(s.events, t.events, ids, m, q);
    CreateLogAgrees(s.runs, t.runs, ids, m, q);
  }

  lemma CreateAgrees(s: IS.State, t: SQL.Tables, ids: map<string, string>, a: IS.Op, b: IS.Op)
    requires Related(s, t, ids) && a.Create? && b.Create? && SameRequest(s, t, ids, a, b)
    ensures Related(IS.Apply(s, a).0, SQL.SqlApply(t, b).0, NewIds(s, ids, a, b))
    ensures SameReply(IS.Apply(s, a).1, SQL.SqlApply(t, b).1)
  {
    var n := Increment(s.counter);
    CreateRelated(s, t, ids, IS.IncidentId(a.nanos, n), SQL.SqlId(b.nanos), n, b.req);
  }

  lemma {:induction false} NoRowsNoBodies(rows: seq<SQL.LogRow>, id: string)
    requires forall k | 0 <= k < |rows| :: rows[k].incidentId != id
    ensures SQL.BodiesOf(rows, id) == []
  {
    if rows != [] { NoRowsNoBodies(rows[..|rows| - 1], id); }
  }

  lemma AppendAgreesFor(log: IS.Log, rows: seq<SQL.LogRow>, ids: map<string, string>, m: string, body: IS.Body, n: string)
    requires m in ids && n in ids && (n != m ==> ids[n] != ids[m])
    requires Bodies(IS.Listed(log, n)) == SQL.BodiesOf(rows, ids[n])
    ensures Bodies(IS.Listed(IS.Append(log, m, body), n))
         == SQL.BodiesOf(rows + [SQL.LogRow(ids[m], body)], ids[n])
  {
    var more := rows + [SQL.LogRow(ids[m], body)];
    assert more[..|rows|] == rows;
    if n == m {
      assert IS.Listed(IS.Append(log, m, body), n)
          == IS.Listed(log, n) + [IS.Entry(ToInt64(Increment(log.counter)), m, body)];
      assert Bodies(IS.Listed(IS.Append(log, m, body), n)) == Bodies(IS.Listed(log, n)) + [body];
    } else {
      assert IS.Listed(IS.Append(log, m, body), n) == IS.Listed(log, n);
    }
  }

  lemma AppendAgrees(log: IS.Log, rows: seq<SQL.LogRow>, ids: map<string, string>, m: string, body: IS.Body)
    requires SameLog(log, rows, ids) && m in ids && Injective(ids)
    ensures SameLog(IS.Append(log, m, body), rows + [SQL.LogRow(ids[m], body)], ids)
  {
    forall n | n in ids
      ensures Bodies(IS.Listed(IS.Append(log, m, body), n))
           == SQL.BodiesOf(rows + [SQL.LogRow(ids[m], body)], ids[n])
    {
      AppendAgreesFor(log, rows, ids, m, body, n);
    }
  }

  lemma RequestAgrees(s: IS.State, t: SQL.Tables, ids: map<string, string>, a: IS.Op, b: IS.Op)
    requires Related(s, t, ids) && SameRequest(s, t, ids, a, b)
    ensures Related(IS.Apply(s, a).0, SQL.SqlApply(t, b).0, NewIds(s, ids, a, b))
    ensures SameReply(IS.Apply(s, a).1, SQL.SqlApply(t, b).1)
  {
    if a.Create? {
      CreateAgrees(s, t, ids, a, b);
    } else if a.id in ids {
      MutatorAgrees(s, t, ids, a, b);
    }
  }

  lemma MutatorAgrees(s: IS.State, t: SQL.Tables, ids: map<string, string>, a: IS.Op, b: IS.Op)
    requires Related(s, t, ids) && SameRequest(s, t, ids, a, b)
    requires !a.Create? && a.id in ids
    ensures Agree(s, t, ids, a, b)
  {
    var m, q := a.id, ids[a.id];
    match a {
      case RecordEvent(_, body) =>
        assert b == IS.RecordEvent(q, body);
        EventAgrees(s, t, ids, m, body);
      case RecordRun(_, body) =>
        assert b == IS.RecordRun(q, body);
        RunAgrees(s, t, ids, m, body);
      case SaveAnalysis(_, x) =>
        assert b == IS.SaveAnalysis(q, x);
        AnalysisAgrees(s, t, ids, m, x);
      case SaveReport(_, report) =>
        assert b == IS.SaveReport(q, Some(report.value)) && a == IS.SaveReport(m, Some(report.value));
        ReportAgrees(s, t, ids, m, report.value);
      case Review(_, status, reviewer, comment) =>
        assert b == IS.Review(q, status, reviewer, comment);
        ReviewAgrees(s, t, ids, m, status, reviewer, comment);
    }
  }

  /** Both stores answer `a` and `b` alike and stay related. */
  predicate Agree(s: IS.State, t: SQL.Tables, ids: map<string, string>, a: IS.Op, b: IS.Op) {
    Related(IS.Apply(s, a).0, SQL.SqlApply(t, b).0, ids) && SameReply(IS.Apply(s, a).1, SQL.SqlApply(t, b).1)
  }

  lemma AppendStaysOwned(rows: seq<SQL.LogRow>, ids: set<string>, row: SQL.LogRow)
    requires SQL.LogOwned(rows, ids) && row.incidentId in ids
    ensures SQL.LogOwned(rows + [row], ids)
  {
  }

  lemma LogsRelated(s: IS.State, t: SQL.Tables, ids: map<string, string>, events: IS.Log, runs: IS.Log,
                    eventRows: seq<SQL.LogRow>, runRows: seq<SQL.LogRow>)
    requires Related(s, t, ids) && SameLog(events, eventRows, ids) && SameLog(runs, runRows, ids)
    requires IS.LogOwned(events, s.incidents) && IS.LogOwned(runs, s.incidents)
    requires SQL.LogOwned(eventRows, t.incidents.Keys) && SQL.LogOwned(runRows, t.incidents.Keys)
    ensures Related(s.(events := events, runs := runs), t.(events := eventRows, runs := runRows), ids)
  {
  }

  lemma EventAgrees(s: IS.State, t: SQL.Tables, ids: map<string, string>, m: string, body: IS.Body)
    requires Related(s, t, ids) && m in ids
    ensures Agree(s, t, ids, IS.RecordEvent(m, body), IS.RecordEvent(ids[m], body))
  {
    AppendAgrees(s.events, t.events, ids, m, body);
    AppendStaysOwned(t.events, t.incidents.Keys, SQL.LogRow(ids[m], body));
    var rows := t.events + [SQL.LogRow(ids[m], body)];
    LogsRelated(s, t, ids, IS.Append(s.events, m, body), s.runs, rows, t.runs);
    assert SQL.SqlApply(t, IS.RecordEvent(ids[m], body)) == SQL.Shown(t.(events := rows), ids[m]);
  }

  lemma RunAgrees(s: IS.State, t: SQL.Tables, ids: map<string, string>, m: string, body: IS.Body)
    requires Related(s, t, ids) && m in ids
    ensures Agree(s, t, ids, IS.RecordRun(m, body), IS.RecordRun(ids[m], body))
  {
    AppendAgrees(s.runs, t.runs, ids, m, body);
    AppendStaysOwned(t.runs, t.incidents.Keys, SQL.LogRow(ids[m], body));
    var rows := t.runs + [SQL.LogRow(ids[m], body)];
    LogsRelated(s, t, ids, s.events, IS.Append(s.runs, m, body), t.events, rows);
    assert SQL.SqlApply(t, IS.RecordRun(ids[m], body)) == SQL.Shown(t.(runs := rows), ids[m]);
  }

  lemma AnalysisAgrees(s: IS.State, t: SQL.Tables, ids: map<string, string>, m: string, x: IS.Analysis)
    requires Related(s, t, ids) && m in ids
    ensures Agree(s, t, ids, IS.SaveAnalysis(m, x), IS.SaveAnalysis(ids[m], x))
  {
    var i, q := s.incidents[m], ids[m];
    var row := t.incidents[q].(status := SQL.AnalysisStatus(x.action), analysisJson := Some(x));
    PutAgrees(s, t, ids, m, row, SQL.WithAnalysis(t, q, x), IS.Analysed(i, x));
  }

  lemma ReportAgrees(s: IS.State, t: SQL.Tables, ids: map<string, string>, m: string, report: FinalReport)
    requires Related(s, t, ids) && m in ids
    ensures Agree(s, t, ids, IS.SaveReport(m, Some(report)), IS.SaveReport(ids[m], Some(report)))
  {
    var i, q := s.incidents[m], ids[m];
    var row := t.incidents[q].(status := SQL.ReportStatus(report), reportJson := Some(report));
    PutAgrees(s, t, ids, m, row, SQL.WithReport(t, q, report), IS.Reported(i, Some(report)));
  }

  lemma ReviewAgrees(s: IS.State, t: SQL.Tables, ids: map<string, string>, m: string,
                     status: string, reviewer: string, comment: string)
    requires Related(s, t, ids) && m in ids && (status == "approved" || status == "rejected")
    ensures Agree(s, t, ids, IS.Review(m, status, reviewer, comment), IS.Review(ids[m], status, reviewer, comment))
  {
    var i, q := s.incidents[m], ids[m];
    var row := t.incidents[q].(status := status);
    PutAgrees(s, t, ids, m, row, SQL.WithReview(t, q, status, reviewer, comment),
              IS.Reviewed(i, status, reviewer, comment));
  }

  // ------------------------------------------------------------ histories

  datatype Pair = Pair(memory: IS.Op, sql: IS.Op)

  datatype Both = Both(s: IS.State, t: SQL.Tables, ids: map<string, string>)

  function Serve(x: Both, p: Pair): Both {
    Both(IS.Apply(x.s, p.memory).0, SQL.SqlApply(x.t, p.sql).0, NewIds(x.s, x.ids, p.memory, p.sql))
  }

  function ServeAll(pairs: seq<Pair>): Both
    decreases |pairs|
  {
    if pairs == [] then Both(IS.Empty, SQL.EmptyTables, map[])
    else Serve(ServeAll(pairs[..|pairs| - 1]), pairs[|pairs| - 1])
  }

  predicate Corresponds(pairs: seq<Pair>)
    decreases |pairs|
  {
    pairs != [] ==>
      var front, last := pairs[..|pairs| - 1], pairs[|pairs| - 1];
      Corresponds(front) && var x := ServeAll(front); SameRequest(x.s, x.t, x.ids, last.memory, last.sql)
  }

  /** After every sequence of corresponding requests the stores show the same
      incidents and the same logs, and each reply was the same; an unknown id fails
      in both and changes neither. */
  lemma {:induction false} StoresShowTheSame(pairs: seq<Pair>)
    requires Corresponds(pairs)
    ensures var x := ServeAll(pairs); Related(x.s, x.t, x.ids) && Covered(x.t, x.ids)
    ensures pairs != [] ==>
              var x := ServeAll(pairs[..|pairs| - 1]);
              var last := pairs[|pairs| - 1];
              && SameReply(IS.Apply(x.s, last.memory).1, SQL.SqlApply(x.t, last.sql).1)
              && (!last.memory.Create? && last.memory.id !in x.s.incidents ==>
                    IS.Apply(x.s, last.memory).0 == x.s && SQL.SqlApply(x.t, last.sql).0 == x.t)
    decreases |pairs|
  {
    if pairs != [] {
      var front, last := pairs[..|pairs| - 1], pairs[|pairs| - 1];
      StoresShowTheSame(front);
      var x := ServeAll(front);
      RequestAgrees(x.s, x.t, x.ids, last.memory, last.sql);
      RequestStaysCovered(x.s, x.t, x.ids, last.memory, last.sql);
    }
  }

  // ------------------------------------------------------------ where they part

  /** A created incident reads the same in both exactly when it has a context: the
      relational store reads a missing one back as a blank one. */
  lemma ContextsAgreeExactlyWhen(t: SQL.Tables, id: string, req: IS.CreateRequest)
    requires id !in t.incidents && SQL.RowsOwned(t)
    ensures SQL.View(SQL.WithIncident(t, id, req), id) == IS.NewIncident(req) <==> req.context.Some?
  {
  }

  /** Saving a report gets the same reply exactly when there is a report, or the
      incident is unknown. */
  lemma ReportsAgreeExactlyWhen(s: IS.State, t: SQL.Tables, ids: map<string, string>,
                                m: string, q: string, report: Option<FinalReport>)
    requires Related(s, t, ids) && SameTarget(s, t, ids, m, q)
    ensures SameReply(IS.Apply(s, IS.SaveReport(m, report)).1, SQL.SqlApply(t, IS.SaveReport(q, report)).1)
            <==> report.Some? || m !in s.incidents
  {
    if m in ids && report.Some? {
      ReportAgrees(s, t, ids, m, report.value);
    }
  }

  /** A review leaves both with the same incident exactly when it decides, or names
      the status the incident already has. */
  lemma ReviewsAgreeExactlyWhen(s: IS.State, t: SQL.Tables, ids: map<string, string>,
                                m: string, status: string, reviewer: string, comment: string)
    requires Related(s, t, ids) && m in ids
    ensures ids[m] in t.incidents && m in s.incidents &&
            (IS.Reviewed(s.incidents[m], status, reviewer, comment)
             == SQL.View(SQL.WithReview(t, ids[m], status, reviewer, comment), ids[m])
             <==> status == "approved" || status == "rejected" || status == s.incidents[m].status)
  {
  }

  // ------------------------------------------------------------ and histories where they do

  const REQUEST := IS.CreateRequest("order-api", "critical", "errors", "release_config_regression",
                                    Some(IncidentContext("c", "n", "v2", "v1")))

  lemma CreateFirst(req: IS.CreateRequest)
    ensures var (s, t) := (IS.Apply(IS.Empty, IS.Create(0, req)).0, SQL.SqlApply(SQL.EmptyTables, IS.Create(0, req)).0);
            && IS.IncidentId(0, 1) in s.incidents && SQL.SqlId(0) in t.incidents
            && s.incidents[IS.IncidentId(0, 1)] == IS.NewIncident(req)
            && SQL.View(t, SQL.SqlId(0)) == IS.NewIncident(req.(context := Some(SQL.StoredContext(req.context))))
  {
  }

  /** One create without a context: the stores show different incidents. */
  lemma ContextsDifferAfterOneCreate(req: IS.CreateRequest)
    requires req.context.None?
    ensures var (s, t) := (IS.Apply(IS.Empty, IS.Create(0, req)).0, SQL.SqlApply(SQL.EmptyTables, IS.Create(0, req)).0);
            && IS.IncidentId(0, 1) in s.incidents && SQL.SqlId(0) in t.incidents
            && s.incidents[IS.IncidentId(0, 1)] != SQL.View(t, SQL.SqlId(0))
  {
    CreateFirst(req);
  }

  /** A create and then a missing report: one store takes it, the other fails. */
  lemma ReportsDifferAfterOneCreate()
    ensures var (s, t) := (IS.Apply(IS.Empty, IS.Create(0, REQUEST)).0, SQL.SqlApply(SQL.EmptyTables, IS.Create(0, REQUEST)).0);
            var (a, b) := (IS.Apply(s, IS.SaveReport(IS.IncidentId(0, 1), None)).1,
                           SQL.SqlApply(t, IS.SaveReport(SQL.SqlId(0), None)).1);
            a.Found? && b.Failed?
  {
    CreateFirst(REQUEST);
  }

  /** A create and then an undecided review: the same request leaves one incident
      "created" and its twin with the review's word for a status. */
  lemma ReviewsDifferAfterOneCreate(word: string)
    requires word !in {"approved", "rejected", "created"}
    ensures var (s, t) := (IS.Apply(IS.Empty, IS.Create(0, REQUEST)).0, SQL.SqlApply(SQL.EmptyTables, IS.Create(0, REQUEST)).0);
            var (a, b) := (IS.Apply(s, IS.Review(IS.IncidentId(0, 1), word, "bob", "")).1,
                           SQL.SqlApply(t, IS.Review(SQL.SqlId(0), word, "bob", "")).1);
            a.Found? && b.Found? && a.incident.status == "created" && b.incident.status == word
  {
    CreateFirst(REQUEST);
  }
}
