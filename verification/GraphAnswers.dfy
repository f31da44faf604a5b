/** What a run answers, read off its trace. */
module GraphAnswers {
  import opened Common
  import opened Models
  import opened Planner
  import opened Graph
  import opened GraphInvariant
  import GS = GraphSafety
  import IS = IncidentStore
  import P = RollbackProtocol

  // ------------------------------------------------------------ the four marks on a trace

  /** An interrupt was shown at `i` and neither decided nor overtaken by a new run. */
  predicate PendingAt(trace: seq<Event>, i: nat) {
    && i < |trace| && trace[i].InterruptShown?
    && forall k | i < k < |trace| :: !trace[k].GateDecided? && trace[k] != RunStarted
  }

  ghost predicate Pending(trace: seq<Event>) {
    exists i: nat :: PendingAt(trace, i)
  }

  predicate VerdictAt(trace: seq<Event>, i: nat) {
    i < |trace| && trace[i].VerdictGiven? && forall k | i < k < |trace| :: !trace[k].VerdictGiven?
  }

  /** The last verification, in whichever run, found the service recovered. */
  ghost predicate Recovered(trace: seq<Event>) {
    exists i: nat :: VerdictAt(trace, i) && trace[i].result.status == "recovered"
  }

  /** Some run came to its end. */
  predicate Reported(trace: seq<Event>) {
    exists i | 0 <= i < |trace| :: trace[i] == Completed(ReportNode)
  }

  /** The planner completed last at `done`, with what it saved at `save`. */
  predicate PlannedAt(trace: seq<Event>, save: nat, done: nat) {
    && save < done < |trace| && trace[save].AnalysisSaved? && trace[done] == Completed(PlannerNode)
    && GS.PlanStands(trace, save, done)
    && forall k | done < k < |trace| :: trace[k] != Completed(PlannerNode)
  }

  /** The last plan, in whichever run, proposes an action. */
  ghost predicate Proposed(trace: seq<Event>) {
    exists save: nat, done: nat :: PlannedAt(trace, save, done) && trace[save].saved.Some?
  }

  // ------------------------------------------------------------ the summary sees them

  lemma {:induction false} PendingIsSeen(trace: seq<Event>)
    ensures Summarize(trace).pending <==> Pending(trace)
    decreases |trace|
  {
    if trace != [] {
      var last := |trace| - 1;
      var front := trace[..last];
      PendingIsSeen(front);
      if trace[last].InterruptShown? {
        assert PendingAt(trace, last);
      } else if !trace[last].GateDecided? && trace[last] != RunStarted {
        if Pending(front) {
          var i: nat :| PendingAt(front, i);
          assert PendingAt(trace, i);
        }
      }
      if Pending(trace) {
        var i: nat :| PendingAt(trace, i);
        if i < last { assert PendingAt(front, i); }
      }
    }
  }

  lemma {:induction false} VerdictIsSeen(trace: seq<Event>)
    ensures forall i: nat | VerdictAt(trace, i) :: Summarize(trace).verdict == Some(trace[i].result)
    ensures Summarize(trace).verdict.Some? ==> exists i: nat :: VerdictAt(trace, i)
    decreases |trace|
  {
    if trace != [] {
      var last := |trace| - 1;
      var front := trace[..last];
      VerdictIsSeen(front);
      if trace[last].VerdictGiven? {
        assert VerdictAt(trace, last);
      } else {
        forall i: nat | VerdictAt(trace, i) ensures Summarize(trace).verdict == Some(trace[i].result) {
          assert VerdictAt(front, i);
        }
        if Summarize(front).verdict.Some? {
          var i: nat :| VerdictAt(front, i);
          assert VerdictAt(trace, i);
        }
      }
    }
  }

  lemma {:induction false} ReportIsSeen(trace: seq<Event>)
    ensures Summarize(trace).reported <==> Reported(trace)
    decreases |trace|
  {
    if trace != [] {
      var last := |trace| - 1;
      ReportIsSeen(trace[..last]);
      if Reported(trace[..last]) {
        var i :| 0 <= i < last && trace[..last][i] == Completed(ReportNode);
        assert trace[i] == Completed(ReportNode);
      }
      if trace[last] == Completed(ReportNode) { assert Reported(trace); }
      if Reported(trace) {
        var i :| 0 <= i < |trace| && trace[i] == Completed(ReportNode);
        if i < last { assert trace[..last][i] == Completed(ReportNode); }
      }
    }
  }

  lemma {:induction false} SavedStands(trace: seq<Event>, save: nat)
    requires save < |trace| && trace[save].AnalysisSaved? && GS.PlanStands(trace, save, |trace|)
    ensures Summarize(trace).saved == trace[save].saved
    decreases |trace|
  {
    if save < |trace| - 1 { SavedStands(trace[..|trace| - 1], save); }
  }

  lemma {:induction false} PlanIsSeen(trace: seq<Event>, save: nat, done: nat)
    requires PlannedAt(trace, save, done)
    ensures Summarize(trace).plan == trace[save].saved
    decreases |trace|
  {
    var front := trace[..|trace| - 1];
    if done == |trace| - 1 {
      SavedStands(front, save);
    } else {
      assert PlannedAt(front, save, done);
      PlanIsSeen(front, save, done);
    }
  }

  lemma {:induction false} FindPlan(trace: seq<Event>)
    requires Summarize(trace).plan.Some?
    ensures Proposed(trace)
    decreases |trace|
  {
    var last := |trace| - 1;
    var front := trace[..last];
    if trace[last] == Completed(PlannerNode) {
      var save := GS.FindSave(front);
      assert PlannedAt(trace, save, last);
    } else {
      FindPlan(front);
      var save: nat, done: nat :| PlannedAt(front, save, done) && front[save].saved.Some?;
      assert PlannedAt(trace, save, done);
    }
  }

  lemma ProposalIsSeen(trace: seq<Event>)
    ensures Summarize(trace).plan.Some? <==> Proposed(trace)
  {
    if Summarize(trace).plan.Some? { FindPlan(trace); }
    if Proposed(trace) {
      var save: nat, done: nat :| PlannedAt(trace, save, done) && trace[save].saved.Some?;
      PlanIsSeen(trace, save, done);
    }
  }

  lemma RecoveryIsSeen(trace: seq<Event>)
    ensures var v := Summarize(trace).verdict; v.Some? && v.value.status == "recovered" <==> Recovered(trace)
  {
    VerdictIsSeen(trace);
  }

  // ------------------------------------------------------------ the answer

  /** The answer that the marks of a trace amount to. */
  ghost predicate Amounts(answer: string, trace: seq<Event>) {
    var (refused, recovered, reported, proposed) :=
      (GS.RefusedAtGate(trace), Recovered(trace), Reported(trace), Proposed(trace));
    && (answer == "waiting_for_approval" <==> Pending(trace))
    && (answer == "rejected" <==> !Pending(trace) && refused)
    && (answer == "recovered" <==> !Pending(trace) && !refused && recovered)
    && (answer == "completed" <==> !Pending(trace) && !refused && !recovered && reported && proposed)
    && (answer == "diagnosed" <==> !Pending(trace) && !refused && !recovered && reported && !proposed)
    && (answer == "diagnosing" <==> !Pending(trace) && !refused && !recovered && !reported)
  }

  lemma AnswerOf(t: Thread, pending: bool, refused: bool, recovered: bool, reported: bool, proposed: bool)
    requires t.pos == Interrupted <==> pending
    requires t.ch.approval == "rejected" <==> refused
    requires t.ch.verification.Some? && t.ch.verification.value.status == "recovered" <==> recovered
    requires t.ch.report.Some? <==> reported
    requires t.ch.action.Some? <==> proposed
    ensures var answer := StatusOf(t);
            && (answer == "waiting_for_approval" <==> pending)
            && (answer == "rejected" <==> !pending && refused)
            && (answer == "recovered" <==> !pending && !refused && recovered)
            && (answer == "completed" <==> !pending && !refused && !recovered && reported && proposed)
            && (answer == "diagnosed" <==> !pending && !refused && !recovered && reported && !proposed)
            && (answer == "diagnosing" <==> !pending && !refused && !recovered && !reported)
  {
  }

  lemma ThreadAnswers(t: Thread)
    requires Traced(t, Summarize(t.trace)) && ApprovalOk(t.ch, Summarize(t.trace))
    ensures Amounts(StatusOf(t), t.trace)
    ensures StatusOf(t) == "waiting_for_approval" <==> t.pos == Interrupted
  {
    hide Pending, Recovered, Reported, Proposed, GS.RefusedAtGate;
    PendingIsSeen(t.trace);
    RecoveryIsSeen(t.trace);
    ReportIsSeen(t.trace);
    ProposalIsSeen(t.trace);
    GS.ApprovalIsRejected(t.ch, t.trace);
    AnswerOf(t, Pending(t.trace), GS.RefusedAtGate(t.trace), Recovered(t.trace), Reported(t.trace), Proposed(t.trace));
  }

  /** Over all histories of runs, resumes and retries: which of the six words a run
      answers is decided by its trace alone, and it is "waiting_for_approval" exactly
      at the interrupt. */
  lemma AnswersExactlyWhen(cfg: P.Config, w: World, moves: seq<Move>, inc: string)
    requires ReachedBy(cfg, w, moves)
    ensures var t := ThreadOf(w, inc);
            Amounts(StatusOf(t), t.trace) && (StatusOf(t) == "waiting_for_approval" <==> t.pos == Interrupted)
  {
    ReachedThread(cfg, w, moves, inc);
    hide Amounts, Summarize;
    ThreadAnswers(ThreadOf(w, inc));
  }
}
