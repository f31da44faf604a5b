/** What holds over every history of runs, resumes, retries and failures, whatever
    the reasoner, the databases and the network answer. */
module GraphSafety {
  import opened Common
  import opened Models
  import opened Gateway
  import opened Planner
  import opened Graph
  import opened GraphInvariant
  import IS = IncidentStore
  import P = RollbackProtocol
  import T = Text
  import R = Report

  // ------------------------------------------------------------ authorised requests

  /** No plan was saved and no run started between the two positions. */
  predicate PlanStands(trace: seq<Event>, from: nat, to: nat)
    requires to <= |trace|
  {
    forall k | from < k < to :: !trace[k].AnalysisSaved? && trace[k] != RunStarted
  }

  predicate NotShownSince(trace: seq<Event>, from: nat, to: nat)
    requires to <= |trace|
  {
    forall k | from < k < to :: !trace[k].InterruptShown?
  }

  predicate DecisionStands(trace: seq<Event>, from: nat, to: nat)
    requires to <= |trace|
  {
    forall k | from < k < to :: !trace[k].PolicyDecided? && !trace[k].GateDecided?
  }

  /** The plan saved at `save` is current at `n`, and the request carries it out. */
  predicate StandingPlan(inc: string, trace: seq<Event>, save: nat, n: nat, req: RollbackRequest)
    requires n <= |trace|
  {
    && save < n && trace[save].AnalysisSaved? && trace[save].saved.Some?
    && PlanStands(trace, save, n) && CarriesOut(inc, trace[save].saved.value, req)
  }

  predicate PolicyPath(inc: string, trace: seq<Event>, n: nat, req: RollbackRequest, save: nat, decided: nat)
    requires n <= |trace|
  {
    && save < decided < n && StandingPlan(inc, trace, save, n, req)
    && trace[decided] == PolicyDecided(Allow) && DecisionStands(trace, decided, n)
  }

  /** The human was shown, in the last interrupt, the very plan saved at `save`, and
      the request is made in that human's name. */
  predicate HumanPath(inc: string, trace: seq<Event>, n: nat, req: RollbackRequest, save: nat, shown: nat, decided: nat)
    requires n <= |trace|
  {
    && save < shown < decided < n && StandingPlan(inc, trace, save, n, req)
    && trace[shown] == InterruptShown(trace[save].saved) && NotShownSince(trace, shown, n)
    && trace[decided].GateDecided? && trace[decided].granted && DecisionStands(trace, decided, n)
    && req.requestedBy == trace[decided].decider
  }

  ghost predicate AllowedByPolicy(inc: string, trace: seq<Event>, n: nat, req: RollbackRequest)
    requires n <= |trace|
  {
    exists save: nat, decided: nat :: PolicyPath(inc, trace, n, req, save, decided)
  }

  ghost predicate ApprovedByHuman(inc: string, trace: seq<Event>, n: nat, req: RollbackRequest)
    requires n <= |trace|
  {
    exists save: nat, shown: nat, decided: nat :: HumanPath(inc, trace, n, req, save, shown, decided)
  }

  ghost predicate Authorised(inc: string, trace: seq<Event>, n: nat, req: RollbackRequest)
    requires n <= |trace|
  {
    AllowedByPolicy(inc, trace, n, req) || ApprovedByHuman(inc, trace, n, req)
  }

  lemma FoldReads(s: Summary, e: Event)
    ensures var s' := Fold(s, e);
            && s'.saved == (if e.AnalysisSaved? then e.saved else if e.RunStarted? then None else s.saved)
            && s'.shown == (if e.InterruptShown? then Some(e.shown)
                            else if e.AnalysisSaved? || e.RunStarted? then None else s.shown)
            && (!e.PolicyDecided? && !e.GateDecided? ==>
                  if e.AnalysisSaved? || e.RunStarted? || e.InterruptShown? then s'.clearance.NotCleared?
                  else s'.clearance == s.clearance)
            && s'.decision == (if e.GateDecided? then Some(HumanDecision(e.granted, e.decider)) else s.decision)
            && (e.PolicyDecided? ==> s'.clearance == if e.decision.Allow? then ByPolicy else NotCleared)
            && (e.GateDecided? ==> s'.clearance == if e.granted then ByHuman else NotCleared)
  {
  }

  lemma {:induction false} FindSave(trace: seq<Event>) returns (save: nat)
    requires Summarize(trace).saved.Some?
    ensures save < |trace| && trace[save].AnalysisSaved? && trace[save].saved == Summarize(trace).saved
    ensures PlanStands(trace, save, |trace|)
    decreases |trace|
  {
    var last := |trace| - 1;
    FoldReads(Summarize(trace[..last]), trace[last]);
    hide Fold;
    if trace[last].AnalysisSaved? {
      save := last;
    } else {
      save := FindSave(trace[..last]);
    }
  }

  lemma {:induction false} FindShown(trace: seq<Event>) returns (shown: nat)
    requires Summarize(trace).shown.Some?
    ensures shown < |trace| && trace[shown] == InterruptShown(Summarize(trace).shown.value)
    ensures NotShownSince(trace, shown, |trace|) && PlanStands(trace, shown, |trace|)
    decreases |trace|
  {
    var last := |trace| - 1;
    FoldReads(Summarize(trace[..last]), trace[last]);
    hide Fold;
    if trace[last].InterruptShown? {
      shown := last;
    } else {
      shown := FindShown(trace[..last]);
    }
  }

  lemma {:induction false} FindDecision(trace: seq<Event>) returns (decided: nat)
    requires !Summarize(trace).clearance.NotCleared?
    ensures decided < |trace| && DecisionStands(trace, decided, |trace|)
    ensures PlanStands(trace, decided, |trace|) && NotShownSince(trace, decided, |trace|)
    ensures if Summarize(trace).clearance.ByPolicy? then trace[decided] == PolicyDecided(Allow)
            else trace[decided].GateDecided? && trace[decided].granted &&
                 Summarize(trace).decision == Some(HumanDecision(true, trace[decided].decider))
    decreases |trace|
  {
    var last := |trace| - 1;
    FoldReads(Summarize(trace[..last]), trace[last]);
    hide Fold;
    if trace[last].PolicyDecided? || trace[last].GateDecided? {
      decided := last;
    } else {
      decided := FindDecision(trace[..last]);
    }
  }

  lemma SaveComesFirst(trace: seq<Event>, save: nat, later: nat)
    requires save < |trace| && later < |trace|
    requires trace[save].AnalysisSaved? && !trace[later].AnalysisSaved?
    requires PlanStands(trace, later, |trace|)
    ensures save < later
  {
  }

  lemma ShowComesFirst(trace: seq<Event>, shown: nat, decided: nat)
    requires shown < |trace| && decided < |trace|
    requires trace[shown].InterruptShown? && !trace[decided].InterruptShown?
    requires NotShownSince(trace, decided, |trace|)
    ensures shown < decided
  {
  }

  lemma PolicyCleared(inc: string, trace: seq<Event>, req: RollbackRequest)
    requires var s := Summarize(trace);
             s.clearance.ByPolicy? && s.saved.Some? && CarriesOut(inc, s.saved.value, req)
    ensures AllowedByPolicy(inc, trace, |trace|, req)
  {
    var save := FindSave(trace);
    var decided := FindDecision(trace);
    SaveComesFirst(trace, save, decided);
    assert PolicyPath(inc, trace, |trace|, req, save, decided);
  }

  lemma HumanCleared(inc: string, trace: seq<Event>, req: RollbackRequest)
    requires var s := Summarize(trace);
             && s.clearance.ByHuman? && s.saved.Some? && s.shown == Some(s.saved)
             && CarriesOut(inc, s.saved.value, req) && req.requestedBy == Requester(s)
    ensures ApprovedByHuman(inc, trace, |trace|, req)
  {
    var save := FindSave(trace);
    var decided := FindDecision(trace);
    var shown := FindShown(trace);
    SaveComesFirst(trace, save, shown);
    ShowComesFirst(trace, shown, decided);
    assert HumanPath(inc, trace, |trace|, req, save, shown, decided);
  }

  lemma {:induction false} SafeAt(inc: string, trace: seq<Event>, n: nat)
    requires SafeTrace(inc, trace) && n < |trace|
    ensures EventSafe(inc, Summarize(trace[..n]), trace[n])
    decreases |trace|
  {
    if n < |trace| - 1 {
      SafeAt(inc, trace[..|trace| - 1], n);
      assert trace[..|trace| - 1][..n] == trace[..n];
    }
  }

  lemma LongerTrace(inc: string, trace: seq<Event>, n: nat, req: RollbackRequest)
    requires n <= |trace|
    ensures AllowedByPolicy(inc, trace[..n], n, req) ==> AllowedByPolicy(inc, trace, n, req)
    ensures ApprovedByHuman(inc, trace[..n], n, req) ==> ApprovedByHuman(inc, trace, n, req)
  {
    var front := trace[..n];
    if AllowedByPolicy(inc, front, n, req) {
      var save: nat, decided: nat :| PolicyPath(inc, front, n, req, save, decided);
      assert PolicyPath(inc, trace, n, req, save, decided);
    }
    if ApprovedByHuman(inc, front, n, req) {
      var save: nat, shown: nat, decided: nat :| HumanPath(inc, front, n, req, save, shown, decided);
      assert HumanPath(inc, trace, n, req, save, shown, decided);
    }
  }

  lemma RequestIsAuthorised(inc: string, trace: seq<Event>, n: nat)
    requires SafeTrace(inc, trace) && n < |trace| && trace[n].RollbackRequested?
    ensures Authorised(inc, trace, n, trace[n].req)
  {
    SafeAt(inc, trace, n);
    if Summarize(trace[..n]).clearance.ByPolicy? {
      PolicyCleared(inc, trace[..n], trace[n].req);
    } else {
      HumanCleared(inc, trace[..n], trace[n].req);
    }
    LongerTrace(inc, trace, n, trace[n].req);
  }

  /** Approval safety: in any history, a request to roll back carries out the plan
      saved last in the same run, after the policy allowed it or a human approved
      it, the human having been shown that very plan in the last interrupt. */
  lemma RollbacksAreAuthorised(cfg: P.Config, w: World, moves: seq<Move>, inc: string, n: nat)
    requires ReachedBy(cfg, w, moves)
    requires n < |ThreadOf(w, inc).trace| && ThreadOf(w, inc).trace[n].RollbackRequested?
    ensures var trace := ThreadOf(w, inc).trace; Authorised(inc, trace, n, trace[n].req)
  {
    ReachedThread(cfg, w, moves, inc);
    RequestIsAuthorised(inc, ThreadOf(w, inc).trace, n);
  }

  lemma RequestIsRollback(inc: string, trace: seq<Event>, n: nat)
    requires SafeTrace(inc, trace) && n < |trace| && trace[n].RollbackRequested?
    ensures trace[n].req.idempotencyKey == inc + ":rollback:" + trace[n].req.targetService
    ensures trace[n].req.incidentId == inc && Accepted(trace[n].req)
  {
    SafeAt(inc, trace, n);
    var save := FindSave(trace[..n]);
    SafeAt(inc, trace, save);
    var (a, service) := (trace[save].saved.value, trace[n].req.targetService);
    assert inc + ":" + a.actionType + ":" + service == inc + ":rollback:" + service;
  }

  lemma {:induction false} PlaybookIsNoted(trace: seq<Event>, n: nat)
    requires n < |trace| && trace[n].RollbackRequested?
    ensures trace[n].req.playbookKey in Summarize(trace).playbooks
    decreases |trace|
  {
    if n < |trace| - 1 { PlaybookIsNoted(trace[..|trace| - 1], n); }
  }

  lemma PlaybookIsStored(inc: string, trace: seq<Event>, incidents: map<string, IS.Incident>, n: nat)
    requires PlaybooksOk(inc, Summarize(trace), incidents) && n < |trace| && trace[n].RollbackRequested?
    ensures inc in incidents && trace[n].req.playbookKey == incidents[inc].playbookKey
  {
    PlaybookIsNoted(trace, n);
  }

  /** Any reasoner, any history: what is sent to the gateway is a rollback of this
      incident under the key of incident and service, from the stored incident's
      playbook, and every field the gateway's handler insists on is filled. */
  lemma RequestsNameTheIncident(cfg: P.Config, w: World, moves: seq<Move>, inc: string, n: nat)
    requires ReachedBy(cfg, w, moves)
    requires n < |ThreadOf(w, inc).trace| && ThreadOf(w, inc).trace[n].RollbackRequested?
    ensures var req := ThreadOf(w, inc).trace[n].req;
            && req.incidentId == inc && req.idempotencyKey == inc + ":rollback:" + req.targetService
            && inc in w.store.incidents && req.playbookKey == w.store.incidents[inc].playbookKey
            && "" !in {inc, req.targetService, req.currentRevision, req.targetRevision, req.idempotencyKey}
  {
    ReachedThread(cfg, w, moves, inc);
    hide Summarize, SafeTrace, PosOk;
    RequestIsRollback(inc, ThreadOf(w, inc).trace, n);
    PlaybookIsStored(inc, ThreadOf(w, inc).trace, w.store.incidents, n);
  }

  /** Any reasoner, any history: what is saved is a plan with hypotheses, all
      confidences between nought and one, that proposes a risky rollback or nothing. */
  lemma SavedPlansAreAdmitted(cfg: P.Config, w: World, moves: seq<Move>, inc: string, n: nat)
    requires ReachedBy(cfg, w, moves)
    requires n < |ThreadOf(w, inc).trace| && ThreadOf(w, inc).trace[n].AnalysisSaved?
    ensures PlanAdmitted(ThreadOf(w, inc).trace[n].hypotheses, ThreadOf(w, inc).trace[n].saved)
  {
    ReachedThread(cfg, w, moves, inc);
    SafeAt(inc, ThreadOf(w, inc).trace, n);
  }

  ghost predicate StemsFrom(inc: string, trace: seq<Event>, n: nat, key: string, row: P.Row) {
    && n < |trace| && trace[n].RollbackRequested?
    && trace[n].req.idempotencyKey == key
    && trace[n].req.targetService == row.receipt.targetService
    && trace[n].req.requestedBy == row.receipt.executor
    && trace[n].req.currentRevision == row.receipt.fromRevision
    && trace[n].req.targetRevision == row.receipt.toRevision
    && ResolvePlaybookKey(trace[n].req.playbookKey) == row.playbookKey
    && Authorised(inc, trace, n, trace[n].req)
  }

  ghost predicate HasAuthority(inc: string, trace: seq<Event>, key: string, row: P.Row) {
    exists n: nat :: StemsFrom(inc, trace, n, key, row)
  }

  /** Every receipt the gateway holds stems from an authorised request of its own
      incident, and reverts exactly the revisions that request names. */
  lemma RowsAreAuthorised(cfg: P.Config, w: World, moves: seq<Move>, key: string)
    requires ReachedBy(cfg, w, moves) && key in w.gateway.rows
    ensures var row := w.gateway.rows[key];
            HasAuthority(row.incidentId, ThreadOf(w, row.incidentId).trace, key, row)
  {
    ReachedInv(cfg, w, moves);
    RowIsAuthorised(cfg, w, key);
  }

  /** The request on the trace that the row stems from. */
  lemma FindRequest(cfg: P.Config, w: World, key: string) returns (n: nat)
    requires Inv(cfg, w) && key in w.gateway.rows
    ensures var row := w.gateway.rows[key];
            var trace := ThreadOf(w, row.incidentId).trace;
            && SafeTrace(row.incidentId, trace) && n < |trace| && trace[n].RollbackRequested?
            && P.Stems(cfg, trace[n].req, key, row)
  {
    var row := w.gateway.rows[key];
    hide SafeTrace, Sound, P.Stems;
    assert P.Requested(cfg, w.gateway.calls, key, row);
    var i :| 0 <= i < |w.gateway.calls| && w.gateway.calls[i].Rollback? &&
             P.Stems(cfg, w.gateway.calls[i].req, key, row);
    SameIncident(cfg, w.gateway.calls[i].req, key, row);
    var trace := w.threads[row.incidentId].trace;
    assert Asks(trace, w.gateway.calls[i].req);
    n :| 0 <= n < |trace| && trace[n] == RollbackRequested(w.gateway.calls[i].req);
    assert ThreadOk(cfg, row.incidentId, ThreadOf(w, row.incidentId), w.store.incidents, w.gateway);
  }

  lemma SameIncident(cfg: P.Config, req: RollbackRequest, key: string, row: P.Row)
    requires P.Stems(cfg, req, key, row)
    ensures req.incidentId == row.incidentId
  {
  }

  lemma RequestStems(cfg: P.Config, inc: string, trace: seq<Event>, n: nat, key: string, row: P.Row)
    requires SafeTrace(inc, trace) && n < |trace| && trace[n].RollbackRequested?
    requires P.Stems(cfg, trace[n].req, key, row)
    ensures StemsFrom(inc, trace, n, key, row)
  {
    hide Authorised, SafeTrace, Summarize;
    RequestIsAuthorised(inc, trace, n);
    SafeAt(inc, trace, n);
  }

  lemma RowIsAuthorised(cfg: P.Config, w: World, key: string)
    requires Inv(cfg, w) && key in w.gateway.rows
    ensures var row := w.gateway.rows[key];
            HasAuthority(row.incidentId, ThreadOf(w, row.incidentId).trace, key, row)
  {
    hide Inv, StemsFrom, SafeTrace, P.Stems;
    var row := w.gateway.rows[key];
    var n := FindRequest(cfg, w, key);
    RequestStems(cfg, row.incidentId, ThreadOf(w, row.incidentId).trace, n, key, row);
  }

  // ------------------------------------------------------------ verification and reports

  predicate VerifiedAt(trace: seq<Event>, v: nat, n: nat)
    requires n <= |trace|
  {
    v < n && trace[v].VerdictGiven? && forall k | v < k < n :: trace[k] != RunStarted
  }

  ghost predicate VerifiedOnce(trace: seq<Event>, n: nat)
    requires n <= |trace|
  {
    exists v: nat :: VerifiedAt(trace, v, n) && forall u: nat | VerifiedAt(trace, u, n) :: u == v
  }

  lemma {:induction false} NeverVerified(trace: seq<Event>, v: nat)
    requires Summarize(trace).verifies == 0
    ensures !VerifiedAt(trace, v, |trace|)
    decreases |trace|
  {
    if v < |trace| - 1 && trace[|trace| - 1] != RunStarted {
      NeverVerified(trace[..|trace| - 1], v);
    }
  }

  lemma {:induction false} FindVerified(trace: seq<Event>) returns (v: nat)
    requires Summarize(trace).verifies == 1
    ensures VerifiedAt(trace, v, |trace|)
    ensures forall u: nat | VerifiedAt(trace, u, |trace|) :: u == v
    decreases |trace|
  {
    var last := |trace| - 1;
    if trace[last].VerdictGiven? {
      v := last;
      forall u: nat | VerifiedAt(trace, u, |trace|) ensures u == v {
        if u < last {
          assert VerifiedAt(trace[..last], u, last);
          NeverVerified(trace[..last], u);
        }
      }
    } else {
      v := FindVerified(trace[..last]);
      forall u: nat | VerifiedAt(trace, u, |trace|) ensures u == v {
        assert VerifiedAt(trace[..last], u, last);
      }
    }
  }

  lemma ReportIsVerified(inc: string, trace: seq<Event>, n: nat)
    requires SafeTrace(inc, trace) && n < |trace| && trace[n].ReportSaved?
    ensures VerifiedOnce(trace, n)
  {
    SafeAt(inc, trace, n);
    var v := FindVerified(trace[..n]);
    assert VerifiedAt(trace, v, n);
    forall u: nat | VerifiedAt(trace, u, n) ensures u == v {
      assert VerifiedAt(trace[..n], u, n);
    }
  }

  /** A report is saved only after the run's one verification. */
  lemma ReportsFollowOneVerification(cfg: P.Config, w: World, moves: seq<Move>, inc: string, n: nat)
    requires ReachedBy(cfg, w, moves)
    requires n < |ThreadOf(w, inc).trace| && ThreadOf(w, inc).trace[n].ReportSaved?
    ensures VerifiedOnce(ThreadOf(w, inc).trace, n)
  {
    ReachedThread(cfg, w, moves, inc);
    ReportIsVerified(inc, ThreadOf(w, inc).trace, n);
  }

  lemma PositionIsShort(t: Thread)
    requires PosOk(t, Summarize(t.trace)) && SavesOk(t, Summarize(t.trace))
    ensures t.pos == Ended ==> VerifiedOnce(t.trace, |t.trace|)
    ensures var s := Summarize(t.trace);
            s.planners <= 2 && s.critics <= 2 && t.ch.replanCount <= 2 && s.saves <= s.planners + s.reviews + 1
  {
    if t.pos == Ended {
      var v := FindVerified(t.trace);
    }
  }

  /** A finished run has completed exactly one verification; no run completes the
      planner or the critic more than twice, or replans more than twice. A planner
      whose save is lost may be retried: a run saves no more analyses than it
      completes planners, but for one per review received meanwhile and one more. */
  lemma RunsAreShort(cfg: P.Config, w: World, moves: seq<Move>, inc: string)
    requires ReachedBy(cfg, w, moves)
    ensures var t := ThreadOf(w, inc);
            var s := Summarize(t.trace);
            && (t.pos == Ended ==> VerifiedOnce(t.trace, |t.trace|))
            && s.planners <= 2 && s.critics <= 2 && t.ch.replanCount <= 2
            && s.saves <= s.planners + s.reviews + 1
  {
    ReachedThread(cfg, w, moves, inc);
    PositionIsShort(ThreadOf(w, inc));
  }

  predicate RolledBack(rows: P.Table, key: string, inc: string) {
    && key in rows && rows[key].incidentId == inc
    && rows[key].receipt.actionType == "rollback" && rows[key].receipt.status == "executed"
  }

  ghost predicate AuthorisedRollback(w: World, key: string, inc: string) {
    RolledBack(w.gateway.rows, key, inc) &&
    HasAuthority(inc, ThreadOf(w, inc).trace, key, w.gateway.rows[key])
  }

  lemma RowIsAuthorisedRollback(cfg: P.Config, w: World, inc: string)
    requires Inv(cfg, w) && P.HasRow(w.gateway.rows, inc)
    ensures exists key :: AuthorisedRollback(w, key, inc)
  {
    var key :| key in w.gateway.rows && w.gateway.rows[key].incidentId == inc;
    RowIsAuthorised(cfg, w, key);
    assert AuthorisedRollback(w, key, inc);
  }

  lemma StatusNeedsRow(cfg: P.Config, inc: string, ch: Channels, rows: P.Table, interrupted: bool)
    requires ValuesOk(cfg, inc, ch, rows) && NothingRecoveredBefore(cfg.scenarios)
    requires DetermineStatus(ch, interrupted) == "recovered"
    ensures P.HasRow(rows, inc)
  {
  }

  lemma RecoveredHasRollback(cfg: P.Config, w: World, inc: string, interrupted: bool)
    requires Inv(cfg, w) && NothingRecoveredBefore(cfg.scenarios)
    requires DetermineStatus(ThreadOf(w, inc).ch, interrupted) == "recovered"
    ensures exists key :: AuthorisedRollback(w, key, inc)
  {
    assert ThreadOk(cfg, inc, ThreadOf(w, inc), w.store.incidents, w.gateway);
    StatusNeedsRow(cfg, inc, ThreadOf(w, inc).ch, w.gateway.rows, interrupted);
    RowIsAuthorisedRollback(cfg, w, inc);
  }

  /** Since no scenario starts out recovered, a response that says "recovered"
      means the gateway holds an executed, authorised rollback of that incident. */
  lemma RecoveredMeansRolledBack(cfg: P.Config, w: World, moves: seq<Move>, inc: string, interrupted: bool)
    requires ReachedBy(cfg, w, moves) && NothingRecoveredBefore(cfg.scenarios)
    requires DetermineStatus(ThreadOf(w, inc).ch, interrupted) == "recovered"
    ensures exists key :: AuthorisedRollback(w, key, inc)
  {
    ReachedInv(cfg, w, moves);
    RecoveredHasRollback(cfg, w, inc, interrupted);
  }

  /** What a thread holds is what the other services hold: its receipt is stored at
      the gateway, and the incident shows the analysis and the report saved last. */
  lemma ValuesAreStored(cfg: P.Config, w: World, moves: seq<Move>, inc: string)
    requires ReachedBy(cfg, w, moves)
    ensures var receipt := ThreadOf(w, inc).ch.receipt;
            receipt.Some? ==> P.Stores(w.gateway.rows, receipt.value.idempotencyKey, receipt.value)
    ensures StoreShows(inc, Summarize(ThreadOf(w, inc).trace), w.store.incidents)
  {
    ReachedThread(cfg, w, moves, inc);
  }

  /** The evidence saved in one analysis never carries an id twice. */
  lemma SavedEvidenceIsDistinct(cfg: P.Config, w: World, moves: seq<Move>, inc: string, n: nat)
    requires ReachedBy(cfg, w, moves)
    requires n < |ThreadOf(w, inc).trace| && ThreadOf(w, inc).trace[n].AnalysisSaved?
    ensures Distinct(Ids(ThreadOf(w, inc).trace[n].evidence))
  {
    ReachedThread(cfg, w, moves, inc);
    SafeAt(inc, ThreadOf(w, inc).trace, n);
  }

  // ------------------------------------------------------------ creates

  /** What the API insists on: the four required fields, and a context without blanks. */
  predicate Complete(req: IS.CreateRequest) {
    && "" !in {req.serviceName, req.severity, req.alertSummary} && req.context.Some?
    && var c := req.context.value;
       && !T.Blank(c.cluster) && !T.Blank(c.namespace)
       && !T.Blank(c.releaseVersion) && !T.Blank(c.previousVersion)
  }

  lemma AdmittedExactlyWhenComplete(req: IS.CreateRequest)
    ensures Admitted(req) <==> Complete(req)
  {
    if req.context.Some? {
      var c := req.context.value;
      T.StrippedAwayExactlyWhenBlank(c.cluster);
      T.StrippedAwayExactlyWhenBlank(c.namespace);
      T.StrippedAwayExactlyWhenBlank(c.releaseVersion);
      T.StrippedAwayExactlyWhenBlank(c.previousVersion);
    }
  }

  predicate Creates(before: map<string, IS.Incident>, after: map<string, IS.Incident>, id: string, req: IS.CreateRequest) {
    && id !in before && id in after && after - {id} == before
    && var i := after[id];
       && (i.serviceName, i.severity, i.alertSummary, i.context)
          == (req.serviceName, req.severity, req.alertSummary, req.context)
       && i.playbookKey == (if req.playbookKey == "" then "release_config_regression" else req.playbookKey)
       && i.status == "created" && i.approval.None? && i.analysis.None? && i.report.None?
  }

  lemma StoreCreates(store: IS.State, nanos: int, req: IS.CreateRequest)
    requires IS.IdsIssued(store) && store.counter + 1 < T.TWO_TO_64
    ensures var (before, after) := (store.incidents, HandleCreate(store, nanos, req).incidents);
            && (after == before <==> !Complete(req))
            && (Complete(req) ==> Creates(before, after, IS.IncidentId(nanos, store.counter + 1), req))
  {
    AdmittedExactlyWhenComplete(req);
    IS.NextIdIsUnused(store, nanos);
    hide Complete, Admitted;
    var (id, after) := (IS.IncidentId(nanos, store.counter + 1), HandleCreate(store, nanos, req).incidents);
    if Complete(req) { assert after - {id} == store.incidents; }
  }

  /** A new incident under an unused id appears exactly when the request is complete;
      it has the request's fields, a playbook in any case, and nothing decided yet. */
  lemma CreatesExactlyWhen(cfg: P.Config, w: World, moves: seq<Move>, nanos: int, req: IS.CreateRequest)
    requires ReachedBy(cfg, w, moves) && |moves| + 1 < T.TWO_TO_64
    ensures var (before, after) := (w.store.incidents, Next(cfg, w, CreateIncident(nanos, req)).store.incidents);
            var id := IS.IncidentId(nanos, w.store.counter + 1);
            && (after == before <==> !Complete(req))
            && (Complete(req) ==> Creates(before, after, id, req))
  {
    HistoryInv(cfg, moves);
    assert IS.IdsIssued(w.store);
    hide Inv, Run, Complete, Creates, HandleCreate;
    StoreCreates(w.store, nanos, req);
  }

  // ------------------------------------------------------------ where expectations fail

  predicate PastTheCritic(pos: Pos) {
    pos in {At(PolicyNode), At(GateNode), At(RollbackNode), At(VerifyNode), At(ReportNode), Interrupted, Ended}
    || pos.AwaitRollback? || pos.AwaitVerify?
  }

  /** The critic's last word was to replan. */
  predicate CriticObjects(ch: Channels) {
    ch.critic.Some? && ch.critic.value.decision.RequestReplan?
  }

  lemma ObjectionAt(t: Thread, s: Summary)
    requires PosOk(t, s) && PastTheCritic(t.pos)
    ensures CriticObjects(t.ch) <==> t.ch.replanCount == 2
  {
  }

  /** A run goes on past the critic's objection exactly when it has replanned twice. */
  lemma CriticIsOverruledExactlyWhen(cfg: P.Config, w: World, moves: seq<Move>, inc: string)
    requires ReachedBy(cfg, w, moves) && PastTheCritic(ThreadOf(w, inc).pos)
    ensures CriticObjects(ThreadOf(w, inc).ch) <==> ThreadOf(w, inc).ch.replanCount == 2
  {
    ReachedThread(cfg, w, moves, inc);
    ObjectionAt(ThreadOf(w, inc), Summarize(ThreadOf(w, inc).trace));
  }

  predicate RefusedAt(trace: seq<Event>, i: nat) {
    && i < |trace| && trace[i].GateDecided? && !trace[i].granted
    && forall k | i < k < |trace| :: !trace[k].GateDecided?
  }

  ghost predicate RefusedAtGate(trace: seq<Event>) {
    exists i: nat :: RefusedAt(trace, i)
  }

  lemma {:induction false} RefusalIsRemembered(trace: seq<Event>)
    ensures var d := Summarize(trace).decision; d.Some? && !d.value.granted <==> RefusedAtGate(trace)
    decreases |trace|
  {
    if trace != [] {
      var last := |trace| - 1;
      var front := trace[..last];
      RefusalIsRemembered(front);
      if trace[last].GateDecided? {
        if !trace[last].granted { assert RefusedAt(trace, last); }
      } else {
        if RefusedAtGate(front) {
          var i: nat :| RefusedAt(front, i);
          assert RefusedAt(trace, i);
        }
        if RefusedAtGate(trace) {
          var i: nat :| RefusedAt(trace, i);
          assert RefusedAt(front, i);
        }
      }
    }
  }

  lemma StatusFollowsApproval(ch: Channels)
    ensures DetermineStatus(ch, false) == "rejected" <==> ch.approval == "rejected"
  {
  }

  lemma ApprovalIsRejected(ch: Channels, trace: seq<Event>)
    requires ApprovalOk(ch, Summarize(trace))
    ensures ch.approval == "rejected" <==> RefusedAtGate(trace)
  {
    RefusalIsRemembered(trace);
  }

  lemma RefusalShows(ch: Channels, trace: seq<Event>)
    requires ApprovalOk(ch, Summarize(trace))
    ensures DetermineStatus(ch, false) == "rejected" <==> RefusedAtGate(trace)
  {
    ApprovalIsRejected(ch, trace);
    StatusFollowsApproval(ch);
  }

  /** A run without a pending interrupt answers "rejected" exactly when the last
      decision ever taken at the incident's interrupt, in whichever run, was a
      refusal. Reviews that reach the thread elsewhere do not count: see
      GraphReviews. */
  lemma RejectedExactlyWhenRefusedAtGate(cfg: P.Config, w: World, moves: seq<Move>, inc: string)
    requires ReachedBy(cfg, w, moves)
    ensures DetermineStatus(ThreadOf(w, inc).ch, false) == "rejected" <==> RefusedAtGate(ThreadOf(w, inc).trace)
    ensures StatusOf(ThreadOf(w, inc)) == "rejected"
            <==> ThreadOf(w, inc).pos != Interrupted && RefusedAtGate(ThreadOf(w, inc).trace)
  {
    ReachedThread(cfg, w, moves, inc);
    RefusalShows(ThreadOf(w, inc).ch, ThreadOf(w, inc).trace);
  }

  /** Saving the finished report leaves the incident in the status the run answers. */
  predicate StatusesAgree(i: IS.Incident, ch: Channels, draft: FinalReport) {
    var final := R.FinishReport(draft, ch.verification, ch.receipt);
    IS.Reported(i, Some(final)).status == DetermineStatus(ch.(report := Some(final)), false)
  }

  /** A held receipt recovered the incident, or nothing was to be done and nothing
      was. */
  predicate Conclusive(ch: Channels) {
    ch.verification.Some? &&
    if ch.receipt.Some? then ch.verification.value.status == "recovered"
    else ch.action.None? && ch.verification.value.status != "recovered"
  }

  lemma StatusesOf(i: IS.Incident, ch: Channels, draft: FinalReport)
    requires Verified(ch) && draft.receipt.None?
    ensures StatusesAgree(i, ch, draft) <==> ch.approval != "rejected" && Conclusive(ch)
  {
  }

  lemma ReportingThread(t: Thread, s: Summary)
    requires PosOk(t, s) && t.pos == At(ReportNode)
    ensures Verified(t.ch)
  {
  }

  /** The stored status and the response agree on a finished run exactly when the
      last decision at the interrupt was no refusal and the run was conclusive: a
      rejected run, for one, is stored as "diagnosed". */
  lemma StatusesAgreeExactlyWhen(cfg: P.Config, w: World, moves: seq<Move>, inc: string, draft: FinalReport)
    requires ReachedBy(cfg, w, moves) && inc in w.store.incidents
    requires ThreadOf(w, inc).pos == At(ReportNode) && draft.receipt.None?
    ensures StatusesAgree(w.store.incidents[inc], ThreadOf(w, inc).ch, draft)
            <==> !RefusedAtGate(ThreadOf(w, inc).trace) && Conclusive(ThreadOf(w, inc).ch)
  {
    ReachedThread(cfg, w, moves, inc);
    ReportingThread(ThreadOf(w, inc), Summarize(ThreadOf(w, inc).trace));
    ApprovalIsRejected(ThreadOf(w, inc).ch, ThreadOf(w, inc).trace);
    StatusesOf(w.store.incidents[inc], ThreadOf(w, inc).ch, draft);
  }
}
