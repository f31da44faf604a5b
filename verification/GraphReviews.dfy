/** Human reviews: which of them the thread hears, and what becomes of the others.
    `resume` stores a review before it looks at the thread, and anyone may post one
    directly; only a review that arrives at a pending interrupt decides anything. */
module GraphReviews {
  import opened Common
  import opened Models
  import opened Gateway
  import opened Planner
  import opened Graph
  import opened GraphInvariant
  import GS = GraphSafety
  import IS = IncidentStore
  import P = RollbackProtocol
  import T = Text

  // ------------------------------------------------------------ heard reviews

  /** The review recorded at `i` decided the interrupt. */
  predicate Heard(trace: seq<Event>, i: nat) {
    && i + 1 < |trace| && trace[i].Reviewed?
    && trace[i + 1] == GateDecided(trace[i].granted, trace[i].decider)
  }

  /** The move brings a review that the incident store takes. */
  predicate StoresReview(w: World, move: Move) {
    && (move.DirectReview? || (move.Resume? && !move.api.Refused? && !ThreadOf(w, move.inc).active))
    && !T.Blank(move.reviewer) && move.inc in w.store.incidents
  }

  /** It arrives by an acknowledged resume while the run waits at the interrupt. */
  predicate AtTheInterrupt(w: World, move: Move) {
    move.Resume? && move.api.Acknowledged? && ThreadOf(w, move.inc).pos == Interrupted
  }

  /** The thread `t'` has the review on its trace, heard or not. */
  predicate Receives(t: Thread, t': Thread, review: Event, heard: bool) {
    var n := |t.trace|;
    && review.Reviewed? && t.trace <= t'.trace && |t'.trace| == n + (if heard then 2 else 1)
    && t'.trace[n] == review && (Heard(t'.trace, n) <==> heard)
  }

  lemma ResumeReceives(inc: string, t: Thread, incidents: map<string, IS.Incident>, approved: bool,
                       reviewer: string, comment: string, api: Reply)
    requires !api.Refused? && ReviewAdmitted(reviewer) && inc in incidents
    ensures Receives(t, ResumeStep(inc, t, incidents, approved, reviewer, comment, api).thread,
                     Reviewed(approved, reviewer, comment), api.Acknowledged? && t.pos == Interrupted)
  {
    var told := Told(t, approved, reviewer, comment);
    assert ResumeThread(told, approved, reviewer).trace
        == if t.pos == Interrupted then told.trace + [GateDecided(approved, reviewer)] else told.trace;
  }

  /** Where an idle thread stands after a review by `resume`: decided, taken up
      where it raised, or left alone. */
  predicate GoesOn(t: Thread, t': Thread, approved: bool, reviewer: string, api: Reply) {
    && (t'.active <==> api.Acknowledged? && t.pos != NotStarted && t.pos != Ended)
    && (if api.Acknowledged? && t.pos == Interrupted then
          && t'.pos == At(if approved then RollbackNode else VerifyNode)
          && t'.ch == t.ch.(approval := ReviewWord(approved), reviewer := Some(reviewer))
        else t'.pos == t.pos && t'.ch == t.ch)
  }

  lemma ResumeGoesOn(inc: string, t: Thread, incidents: map<string, IS.Incident>, approved: bool,
                     reviewer: string, comment: string, api: Reply)
    requires !api.Refused? && ReviewAdmitted(reviewer) && inc in incidents && !t.active
    ensures GoesOn(t, ResumeStep(inc, t, incidents, approved, reviewer, comment, api).thread, approved, reviewer, api)
  {
  }

  /** A stored review is on the trace, and it is heard exactly if it arrives at the
      interrupt. */
  lemma HeardExactlyAtTheInterrupt(cfg: P.Config, w: World, move: Move)
    requires StoresReview(w, move)
    ensures Receives(ThreadOf(w, move.inc), ThreadOf(Next(cfg, w, move), move.inc),
                     Reviewed(move.approved, move.reviewer, move.comment), AtTheInterrupt(w, move))
  {
    hide Receives;
    T.StrippedAwayExactlyWhenBlank(move.reviewer);
    var t := ThreadOf(w, move.inc);
    if move.Resume? {
      ResumeReceives(move.inc, t, w.store.incidents, move.approved, move.reviewer, move.comment, move.api);
    } else {
      DirectReceives(move.inc, t, w.store.incidents, move.approved, move.reviewer, move.comment);
    }
  }

  lemma DirectReceives(inc: string, t: Thread, incidents: map<string, IS.Incident>, approved: bool,
                       reviewer: string, comment: string)
    requires ReviewAdmitted(reviewer) && inc in incidents
    ensures Receives(t, DirectStep(inc, t, incidents, approved, reviewer, comment).thread,
                     Reviewed(approved, reviewer, comment), false)
  {
  }

  // ------------------------------------------------------------ does the answer follow the review

  predicate LastReview(trace: seq<Event>, i: nat) {
    i < |trace| && trace[i].Reviewed? && forall k | i < k < |trace| :: !trace[k].Reviewed?
  }

  /** What the values in the state say where no interrupt is pending. */
  predicate AnswersRejected(ch: Channels) {
    DetermineStatus(ch, false) == "rejected"
  }

  function ReviewOf(e: Event): IS.Approval
    requires e.Reviewed?
  {
    IS.Approval(ReviewWord(e.granted), e.decider, e.comment)
  }

  lemma EventAfterReview(inc: string, s: Summary, e: Event)
    requires EventSafe(inc, s, e) && !e.Reviewed?
    ensures var s' := Fold(s, e);
            && s'.review == s.review && s'.newest.None?
            && s'.decision == (if e.GateDecided? then s.newest else s.decision)
            && (e.GateDecided? ==> s.newest == Some(HumanDecision(e.granted, e.decider)))
  {
  }

  lemma {:induction false} AfterLastReview(inc: string, trace: seq<Event>, i: nat)
    requires SafeTrace(inc, trace) && LastReview(trace, i)
    ensures Summarize(trace).review == Some(ReviewOf(trace[i]))
    ensures Summarize(trace).newest.Some? <==> i == |trace| - 1
    ensures i == |trace| - 1 ==> Summarize(trace).newest == Some(HumanDecision(trace[i].granted, trace[i].decider))
    ensures Summarize(trace).decision
         == if Heard(trace, i) then Some(HumanDecision(trace[i].granted, trace[i].decider))
            else Summarize(trace[..i]).decision
    decreases |trace|
  {
    var last := |trace| - 1;
    if i < last {
      var front := trace[..last];
      AfterLastReview(inc, front, i);
      assert front[..i] == trace[..i];
      EventAfterReview(inc, Summarize(front), trace[last]);
      hide Fold, EventSafe;
    }
  }

  lemma LastReviewIsStored(cfg: P.Config, inc: string, t: Thread, incidents: map<string, IS.Incident>, g: P.State, i: nat)
    requires ThreadOk(cfg, inc, t, incidents, g) && LastReview(t.trace, i)
    ensures inc in incidents && incidents[inc].approval == Some(ReviewOf(t.trace[i]))
  {
    AfterLastReview(inc, t.trace, i);
  }

  lemma {:induction false} SafePrefix(inc: string, trace: seq<Event>, n: nat)
    requires SafeTrace(inc, trace) && n <= |trace|
    ensures SafeTrace(inc, trace[..n])
    decreases |trace|
  {
    if n < |trace| {
      SafePrefix(inc, trace[..|trace| - 1], n);
      assert trace[..|trace| - 1][..n] == trace[..n];
    } else {
      assert trace[..n] == trace;
    }
  }

  lemma AnswerAfterLastReview(inc: string, t: Thread, i: nat)
    requires SafeTrace(inc, t.trace) && ApprovalOk(t.ch, Summarize(t.trace)) && LastReview(t.trace, i)
    ensures (AnswersRejected(t.ch) <==> !t.trace[i].granted)
            <==> Heard(t.trace, i) || (GS.RefusedAtGate(t.trace[..i]) <==> !t.trace[i].granted)
  {
    AfterLastReview(inc, t.trace, i);
    GS.StatusFollowsApproval(t.ch);
    GS.RefusalIsRemembered(t.trace[..i]);
  }

  /** Over all histories: the store shows the last review, and the run's answer
      follows it exactly when the review was heard, or the decision that stood at
      the interrupt before happened to be the same. */
  lemma AnswerFollowsLastReviewExactlyWhen(cfg: P.Config, w: World, moves: seq<Move>, inc: string, i: nat)
    requires ReachedBy(cfg, w, moves) && LastReview(ThreadOf(w, inc).trace, i)
    ensures var t := ThreadOf(w, inc);
            && inc in w.store.incidents && w.store.incidents[inc].approval == Some(ReviewOf(t.trace[i]))
            && ((AnswersRejected(t.ch) <==> !t.trace[i].granted)
                <==> Heard(t.trace, i) || (GS.RefusedAtGate(t.trace[..i]) <==> !t.trace[i].granted))
  {
    ReachedThread(cfg, w, moves, inc);
    LastReviewIsStored(cfg, inc, ThreadOf(w, inc), w.store.incidents, w.gateway, i);
    AnswerAfterLastReview(inc, ThreadOf(w, inc), i);
  }

  /** The same before the call: a stored review turns the answer exactly when it
      arrives at the interrupt, unless the answer was that already. */
  lemma ReviewTurnsTheAnswerExactlyWhen(cfg: P.Config, w: World, move: Move)
    requires StoresReview(w, move)
    ensures var (before, after) := (ThreadOf(w, move.inc).ch, ThreadOf(Next(cfg, w, move), move.inc).ch);
            (AnswersRejected(after) <==> !move.approved)
            <==> AtTheInterrupt(w, move) || (AnswersRejected(before) <==> !move.approved)
  {
    T.StrippedAwayExactlyWhenBlank(move.reviewer);
    var (before, after) := (ThreadOf(w, move.inc).ch, ThreadOf(Next(cfg, w, move), move.inc).ch);
    GS.StatusFollowsApproval(before);
    GS.StatusFollowsApproval(after);
  }

  // ------------------------------------------------------------ refusals and rollbacks

  predicate Refusal(trace: seq<Event>, i: nat) {
    i < |trace| && trace[i].Reviewed? && !trace[i].granted
  }

  predicate ClearedBetween(trace: seq<Event>, i: nat, n: nat)
    requires n <= |trace|
  {
    exists k | i < k < n :: trace[k] == PolicyDecided(Allow) || (trace[k].GateDecided? && trace[k].granted)
  }

  lemma DecidedBetween(inc: string, trace: seq<Event>, n: nat, i: nat)
    requires n < |trace| && trace[n].RollbackRequested? && i < n && Heard(trace, i) && !trace[i].granted
    requires GS.Authorised(inc, trace, n, trace[n].req)
    ensures ClearedBetween(trace, i, n)
  {
    if GS.AllowedByPolicy(inc, trace, n, trace[n].req) {
      var save: nat, decided: nat :| GS.PolicyPath(inc, trace, n, trace[n].req, save, decided);
      assert i < decided < n;
    } else {
      var save: nat, shown: nat, decided: nat :| GS.HumanPath(inc, trace, n, trace[n].req, save, shown, decided);
      assert i < decided < n;
    }
  }

  /** A refusal that was heard is obeyed: no rollback is requested after it without
      a new clearance in between. So a request that follows a stored refusal
      without one follows a refusal that was not heard. */
  lemma HeardRefusalsAreObeyed(cfg: P.Config, w: World, moves: seq<Move>, inc: string, i: nat, n: nat)
    requires ReachedBy(cfg, w, moves) && Refusal(ThreadOf(w, inc).trace, i)
    requires i < n < |ThreadOf(w, inc).trace| && ThreadOf(w, inc).trace[n].RollbackRequested?
    requires !ClearedBetween(ThreadOf(w, inc).trace, i, n)
    ensures !Heard(ThreadOf(w, inc).trace, i)
  {
    GS.RollbacksAreAuthorised(cfg, w, moves, inc, n);
    if Heard(ThreadOf(w, inc).trace, i) { DecidedBetween(inc, ThreadOf(w, inc).trace, n, i); }
  }

  /** Cleared to roll back, or waiting for that clearance, and not running. */
  predicate AboutToRollBack(t: Thread) {
    !t.active && (t.pos == Interrupted || t.pos == At(RollbackNode))
  }

  function Refuse(inc: string, reviewer: string, comment: string): Move {
    Resume(inc, false, reviewer, comment, Acknowledged, [])
  }

  /** The refusal sends the run on, to the verification from the interrupt and to
      the rollback from anywhere else. */
  lemma AfterRefusedResume(inc: string, t: Thread, incidents: map<string, IS.Incident>, calls: nat,
                           reviewer: string, comment: string)
    requires AboutToRollBack(t) && inc in incidents && ReviewAdmitted(reviewer) && RequestReady(inc, t.ch)
    ensures var resumed := ResumeStep(inc, t, incidents, false, reviewer, comment, Acknowledged).thread;
            var e := RollbackBegin(inc, resumed, calls);
            && resumed.active
            && (t.pos == Interrupted ==>
                  && resumed.pos == At(VerifyNode)
                  && VerifyBegin(inc, resumed, calls).thread.trace
                     == t.trace + [Reviewed(false, reviewer, comment)] + [GateDecided(false, reviewer)])
            && (t.pos != Interrupted ==>
                  && resumed.pos == At(RollbackNode)
                  && e.thread.trace == t.trace + [Reviewed(false, reviewer, comment)]
                                       + [RollbackRequested(RequestFor(inc, t.ch, t.ch.action.value))])
  {
  }

  /** The plan at hand makes a request that the gateway lets through. */
  predicate RequestReady(inc: string, ch: Channels) {
    ch.action.Some? && Accepted(RequestFor(inc, ch, ch.action.value))
  }
}
