/** The rule-based report and the report node's merging loop. */
module Report {
  import opened Common
  import opened Models
  import opened Text

  // ------------------------------------------------------------ specification

  /** The candidates that are new at their position: not in `base` and not seen
      earlier among the candidates. */
  function FirstMissing(base: seq<string>, candidates: seq<string>): seq<string> {
    if candidates == [] then []
    else
      var last := |candidates| - 1;
      var c := candidates[last];
      FirstMissing(base, candidates[..last])
      + (if c in base || c in candidates[..last] then [] else [c])
  }

  function Merged(base: seq<string>, candidates: seq<string>): seq<string> {
    base + FirstMissing(base, candidates)
  }

  predicate NoRepeats(s: seq<string>) {
    forall i, j | 0 <= i < j < |s| :: s[i] != s[j]
  }

  function Describe(a: AnomalyFinding): string {
    "[" + a.severity + "] " + a.description
  }

  function Descriptions(anomalies: seq<AnomalyFinding>): (r: seq<string>)
    ensures |r| == |anomalies|
    ensures forall i | 0 <= i < |r| :: r[i] == "[" + anomalies[i].severity + "] " + anomalies[i].description
  {
    seq(|anomalies|, i requires 0 <= i < |anomalies| => Describe(anomalies[i]))
  }

  /** The stripped suggestions, blank ones left out. */
  function Suggestions(anomalies: seq<AnomalyFinding>): seq<string> {
    if anomalies == [] then []
    else
      var last := |anomalies| - 1;
      var suggestion := Strip(anomalies[last].suggestion);
      Suggestions(anomalies[..last]) + (if suggestion == "" then [] else [suggestion])
  }

  // ------------------------------------------------------------ the merge

  lemma {:induction false} MembersOfMissing(base: seq<string>, candidates: seq<string>, x: string)
    ensures x in FirstMissing(base, candidates) <==> x in candidates && x !in base
  {
    if candidates != [] {
      var last := |candidates| - 1;
      MembersOfMissing(base, candidates[..last], x);
      assert candidates == candidates[..last] + [candidates[last]];
    }
  }

  lemma MembersOfMerged(base: seq<string>, candidates: seq<string>, x: string)
    ensures x in Merged(base, candidates) <==> x in base || x in candidates
  {
    MembersOfMissing(base, candidates, x);
  }

  lemma {:induction false} MissingHasNoRepeats(base: seq<string>, candidates: seq<string>)
    ensures NoRepeats(FirstMissing(base, candidates))
  {
    if candidates != [] {
      var last := |candidates| - 1;
      MissingHasNoRepeats(base, candidates[..last]);
      MembersOfMissing(base, candidates[..last], candidates[last]);
    }
  }

  /** Nothing is lost, nothing is invented, the base list stays in front, and what
      is added is added once. */
  lemma MergeKeepsEverything(base: seq<string>, candidates: seq<string>)
    ensures base <= Merged(base, candidates)
    ensures forall x :: x in Merged(base, candidates) <==> x in base || x in candidates
    ensures NoRepeats(Merged(base, candidates)[|base|..])
    ensures forall x | x in Merged(base, candidates)[|base|..] :: x !in base
  {
    forall x ensures x in Merged(base, candidates) <==> x in base || x in candidates {
      MembersOfMerged(base, candidates, x);
    }
    MissingHasNoRepeats(base, candidates);
    assert Merged(base, candidates)[|base|..] == FirstMissing(base, candidates);
    forall x | x in FirstMissing(base, candidates) ensures x !in base {
      MembersOfMissing(base, candidates, x);
    }
  }

  lemma {:induction false} NothingMissing(base: seq<string>, candidates: seq<string>)
    requires forall c | c in candidates :: c in base
    ensures FirstMissing(base, candidates) == []
  {
    if candidates != [] {
      NothingMissing(base, candidates[..|candidates| - 1]);
    }
  }

  /** Merging the same findings again changes nothing. */
  lemma MergeIsIdempotent(base: seq<string>, candidates: seq<string>)
    ensures Merged(Merged(base, candidates), candidates) == Merged(base, candidates)
  {
    forall c | c in candidates ensures c in Merged(base, candidates) {
      MembersOfMerged(base, candidates, c);
    }
    NothingMissing(Merged(base, candidates), candidates);
  }

  /** Order: `x` is added before `y` exactly when it first occurs before it. */
  lemma {:induction false} MissingKeepsOrder(base: seq<string>, candidates: seq<string>, i: nat, j: nat)
    requires i < j < |FirstMissing(base, candidates)|
    ensures var added := FirstMissing(base, candidates);
            exists a, b | 0 <= a < b < |candidates| ::
              && candidates[a] == added[i] && added[i] !in candidates[..a]
              && candidates[b] == added[j] && added[j] !in candidates[..b]
  {
    var last := |candidates| - 1;
    var front := candidates[..last];
    var added, before := FirstMissing(base, candidates), FirstMissing(base, front);
    if j < |before| {
      MissingKeepsOrder(base, front, i, j);
      var a, b :| 0 <= a < b < |front| && front[a] == before[i] && before[i] !in front[..a]
                  && front[b] == before[j] && before[j] !in front[..b];
      assert front[..a] == candidates[..a] && front[..b] == candidates[..b];
    } else {
      MembersOfMissing(base, front, added[i]);
      var a := FirstIndex(front, added[i]);
      assert front[..a] == candidates[..a];
      assert candidates[last] == added[j];
    }
  }

  function FirstIndex(s: seq<string>, x: string): (a: nat)
    requires x in s
    ensures a < |s| && s[a] == x && x !in s[..a]
  {
    if x in s[..|s| - 1] then
      var a := FirstIndex(s[..|s| - 1], x);
      assert s[..|s| - 1][..a] == s[..a];
      a
    else |s| - 1
  }

  lemma MergedSnoc(base: seq<string>, candidates: seq<string>, c: string)
    ensures Merged(base, candidates + [c])
         == if c in Merged(base, candidates) then Merged(base, candidates) else Merged(base, candidates) + [c]
  {
    assert (candidates + [c])[..|candidates|] == candidates;
    MembersOfMerged(base, candidates, c);
  }

  lemma MergedSuggestionsSnoc(base: seq<string>, anomalies: seq<AnomalyFinding>, i: nat)
    requires i < |anomalies|
    ensures var so := Merged(base, Suggestions(anomalies[..i]));
            var next := Strip(anomalies[i].suggestion);
            Merged(base, Suggestions(anomalies[..i + 1]))
            == if next == "" || next in so then so else so + [next]
  {
    var before := Suggestions(anomalies[..i]);
    var next := Strip(anomalies[i].suggestion);
    assert anomalies[..i + 1][..i] == anomalies[..i];
    MergedSnoc(base, before, next);
    if next == "" {
      assert Suggestions(anomalies[..i + 1]) == before;
    }
  }

  lemma MergedDescriptionsSnoc(base: seq<string>, anomalies: seq<AnomalyFinding>, i: nat)
    requires i < |anomalies|
    ensures var so := Merged(base, Descriptions(anomalies[..i]));
            var next := Describe(anomalies[i]);
            Merged(base, Descriptions(anomalies[..i + 1])) == if next in so then so else so + [next]
  {
    assert Descriptions(anomalies[..i + 1]) == Descriptions(anomalies[..i]) + [Describe(anomalies[i])];
    MergedSnoc(base, Descriptions(anomalies[..i]), Describe(anomalies[i]));
  }

  /** The loop of the report node. */
  method MergeFindings(anomalies: seq<AnomalyFinding>, summaryBase: seq<string>, suggestionBase: seq<string>)
    returns (summary: seq<string>, suggestions: seq<string>)
    ensures summary == Merged(summaryBase, Descriptions(anomalies))
    ensures suggestions == Merged(suggestionBase, Suggestions(anomalies))
  {
    summary, suggestions := summaryBase, suggestionBase;
    for i := 0 to |anomalies|
      invariant summary == Merged(summaryBase, Descriptions(anomalies[..i]))
      invariant suggestions == Merged(suggestionBase, Suggestions(anomalies[..i]))
    {
      var item := anomalies[i];
      MergedDescriptionsSnoc(summaryBase, anomalies, i);
      MergedSuggestionsSnoc(suggestionBase, anomalies, i);
      var description := Describe(item);
      if description !in summary {
        summary := summary + [description];
      }
      var suggestion := Strip(item.suggestion);
      if suggestion != "" && suggestion !in suggestions {
        suggestions := suggestions + [suggestion];
      }
    }
    assert anomalies[..|anomalies|] == anomalies;
  }

  // ------------------------------------------------------------ the rule-based report

  /** The suggestions list of `build_final_report`: a seen-set and a list. */
  method CollectSuggestions(anomalies: seq<AnomalyFinding>) returns (suggestions: seq<string>)
    ensures suggestions == Merged([], Suggestions(anomalies))
  {
    suggestions := [];
    var seen: set<string> := {};
    for i := 0 to |anomalies|
      invariant suggestions == Merged([], Suggestions(anomalies[..i]))
      invariant forall x :: x in seen <==> x in suggestions
    {
      MergedSuggestionsSnoc([], anomalies, i);
      var suggestion := Strip(anomalies[i].suggestion);
      if suggestion != "" && suggestion !in seen {
        seen := seen + {suggestion};
        suggestions := suggestions + [suggestion];
      }
    }
    assert anomalies[..|anomalies|] == anomalies;
  }

  function Recommendation(cause: string, action: Option<ActionPlan>, approval: string): string {
    match action
    case None =>
      if Contains(Lower(cause), "inventory-service")
      then "Do not rollback. Escalate to the downstream owner and continue manual investigation."
      else "Do not rollback yet. Gather more release and runtime evidence before taking write actions."
    case Some(a) =>
      if approval == "rejected" then "Rollback was proposed but rejected during human review."
      else "Execute rollback for " + a.targetService + "."
  }

  function PrimaryCause(hypotheses: seq<Hypothesis>): string {
    if hypotheses == [] then "Insufficient evidence to determine root cause." else hypotheses[0].cause
  }

  /** `build_final_report`, but for the formatted numbers of its verification line. */
  function RuleReport(service: string, hypotheses: seq<Hypothesis>, action: Option<ActionPlan>,
                      verification: Option<VerificationResult>, approval: string): FinalReport
  {
    var cause := PrimaryCause(hypotheses);
    var anomalies := if verification.Some? then verification.value.anomalies else [];
    FinalReport(
      "GraphOps completed a diagnostic run for " + service + ".",
      cause,
      Recommendation(cause, action, approval),
      match verification
      case None => "No rollback was executed. Diagnostic report only."
      case Some(v) =>
        if v.status == "recovered" then "Recovered: " + v.decisionBasis
        else if v.status == "partial_recovered" then "Partially recovered: " + v.summary
        else "Not recovered: " + v.summary,
      Descriptions(anomalies), Merged([], Suggestions(anomalies)),
      if verification.Some? then verification.value.metrics else [],
      if verification.Some? then verification.value.releaseComparisons else [],
      anomalies, None)
  }

  /** What a rule-based report recommends: the rollback itself unless none is
      proposed or a human refused it, and escalation when nothing is proposed and
      the cause names the downstream service, in whatever case. */
  lemma ReportRecommends(service: string, hypotheses: seq<Hypothesis>, action: Option<ActionPlan>,
                         verification: Option<VerificationResult>, approval: string)
    ensures var text := RuleReport(service, hypotheses, action, verification, approval).recommendedAction;
            var downstream := hypotheses != [] && Contains(Lower(hypotheses[0].cause), "inventory-service");
            && (action.Some? && approval != "rejected" ==>
                  text == "Execute rollback for " + action.value.targetService + ".")
            && (action.Some? && approval == "rejected" ==>
                  text == "Rollback was proposed but rejected during human review.")
            && (action.None? && downstream ==>
                  text == "Do not rollback. Escalate to the downstream owner and continue manual investigation.")
            && (action.None? && hypotheses != [] && !downstream ==>
                  text == "Do not rollback yet. Gather more release and runtime evidence before taking write actions.")
  {
    hide Contains, Lower, Merged, Descriptions, Suggestions;
  }

  /** The report names service and leading cause; its verification part follows the
      verdict, and is empty without one. */
  lemma ReportVerifies(service: string, hypotheses: seq<Hypothesis>, action: Option<ActionPlan>,
                       verification: Option<VerificationResult>, approval: string)
    ensures var report := RuleReport(service, hypotheses, action, verification, approval);
            && report.summary == "GraphOps completed a diagnostic run for " + service + "."
            && (hypotheses != [] ==> report.rootCause == hypotheses[0].cause)
            && match verification
            case None =>
              && report.verification == "No rollback was executed. Diagnostic report only."
              && report.anomalies == [] && report.metrics == [] && report.releaseComparisons == []
            case Some(v) =>
              && (v.status == "recovered" ==> report.verification == "Recovered: " + v.decisionBasis)
              && (v.status == "partial_recovered" ==> report.verification == "Partially recovered: " + v.summary)
              && (v.status !in {"recovered", "partial_recovered"} ==> report.verification == "Not recovered: " + v.summary)
              && report.anomalies == v.anomalies && report.metrics == v.metrics
              && report.releaseComparisons == v.releaseComparisons
  {
    hide Contains, Lower, Merged;
  }

  // ------------------------------------------------------------ the finished report

  predicate FirstAt(offers: seq<string>, x: string, k: nat) {
    k < |offers| && offers[k] == x && forall j | 0 <= j < k :: offers[j] != x
  }

  /** `result` is the base list and then, once each and in the order in which they
      are first offered, the non-empty offers it lacks. */
  ghost predicate Collected(base: seq<string>, offers: seq<string>, result: seq<string>) {
    && base <= result
    && (forall k | 0 <= k < |offers| && offers[k] != "" :: offers[k] in result)
    && (forall i | |base| <= i < |result| :: result[i] != "" && result[i] in offers && result[i] !in result[..i])
    && (forall i, j, k: nat, l: nat | |base| <= i < j < |result| &&
          FirstAt(offers, result[i], k) && FirstAt(offers, result[j], l) :: k < l)
  }

  lemma NothingCollected(base: seq<string>)
    ensures Collected(base, [], base)
  {
  }

  lemma NothingMerged(base: seq<string>)
    ensures Merged(base, []) == base && Collected(base, [], Merged(base, []))
  {
    NothingCollected(base);
  }

  lemma FirstAtSnoc(offers: seq<string>, x: string, y: string, k: nat)
    ensures FirstAt(offers + [x], y, k) <==> FirstAt(offers, y, k) || (k == |offers| && x == y && y !in offers)
  {
    if FirstAt(offers + [x], y, k) {
      assert forall j | 0 <= j < k :: (offers + [x])[j] == offers[j];
    }
    if y !in offers && k == |offers| {
      assert forall j | 0 <= j < k :: (offers + [x])[j] == offers[j];
    }
  }

  lemma CollectedKept(base: seq<string>, offers: seq<string>, result: seq<string>, x: string)
    requires Collected(base, offers, result) && (x == "" || x in result)
    ensures Collected(base, offers + [x], result)
  {
    forall i, j, k: nat, l: nat | |base| <= i < j < |result| &&
      FirstAt(offers + [x], result[i], k) && FirstAt(offers + [x], result[j], l)
      ensures k < l
    {
      FirstAtSnoc(offers, x, result[i], k);
      FirstAtSnoc(offers, x, result[j], l);
    }
  }

  lemma CollectedMore(base: seq<string>, offers: seq<string>, result: seq<string>, x: string)
    requires Collected(base, offers, result) && x != "" && x !in result
    ensures Collected(base, offers + [x], result + [x])
  {
    var more := result + [x];
    assert forall i | 0 <= i < |result| :: more[i] == result[i] && more[..i] == result[..i];
    assert more[..|result|] == result;
    forall i, j, k: nat, l: nat | |base| <= i < j < |more| &&
      FirstAt(offers + [x], more[i], k) && FirstAt(offers + [x], more[j], l)
      ensures k < l
    {
      FirstAtSnoc(offers, x, more[i], k);
      FirstAtSnoc(offers, x, more[j], l);
    }
  }

  lemma {:induction false} LinesAreCollected(base: seq<string>, anomalies: seq<AnomalyFinding>, n: nat)
    requires n <= |anomalies|
    ensures Collected(base, Descriptions(anomalies)[..n], Merged(base, Descriptions(anomalies[..n])))
  {
    hide Collected, Merged, Describe;
    var lines := Descriptions(anomalies);
    if n == 0 {
      NothingMerged(base);
      assert lines[..0] == [] && Descriptions(anomalies[..0]) == [];
    } else {
      LinesAreCollected(base, anomalies, n - 1);
      MergedDescriptionsSnoc(base, anomalies, n - 1);
      assert lines[..n] == lines[..n - 1] + [lines[n - 1]];
      assert lines[n - 1] != "" && lines[n - 1] == Describe(anomalies[n - 1]);
      CollectedStep(base, lines[..n - 1], Merged(base, Descriptions(anomalies[..n - 1])), lines[n - 1]);
    }
  }

  lemma {:induction false} TipsAreCollected(base: seq<string>, anomalies: seq<AnomalyFinding>, n: nat)
    requires n <= |anomalies|
    ensures Collected(base, Stripped(anomalies)[..n], Merged(base, Suggestions(anomalies[..n])))
  {
    hide Collected, Merged, Strip;
    var tips := Stripped(anomalies);
    if n == 0 {
      NothingMerged(base);
      assert tips[..0] == [] && Suggestions(anomalies[..0]) == [];
    } else {
      TipsAreCollected(base, anomalies, n - 1);
      MergedSuggestionsSnoc(base, anomalies, n - 1);
      assert tips[..n] == tips[..n - 1] + [tips[n - 1]];
      CollectedStep(base, tips[..n - 1], Merged(base, Suggestions(anomalies[..n - 1])), tips[n - 1]);
    }
  }

  lemma CollectedStep(base: seq<string>, offers: seq<string>, result: seq<string>, x: string)
    requires Collected(base, offers, result)
    ensures Collected(base, offers + [x], if x == "" || x in result then result else result + [x])
  {
    if x == "" || x in result { CollectedKept(base, offers, result, x); } else { CollectedMore(base, offers, result, x); }
  }

  function Stripped(anomalies: seq<AnomalyFinding>): (r: seq<string>)
    ensures |r| == |anomalies|
  {
    seq(|anomalies|, i requires 0 <= i < |anomalies| => Strip(anomalies[i].suggestion))
  }

  /** The report as it is saved: the draft with every finding collected into its
      lists, the verdict's measurements, and the held receipt. */
  ghost predicate Finishes(draft: FinalReport, verification: Option<VerificationResult>,
                     receipt: Option<ActionReceipt>, final: FinalReport)
  {
    && final.summary == draft.summary && final.rootCause == draft.rootCause
    && final.recommendedAction == draft.recommendedAction && final.verification == draft.verification
    && final.receipt == (if receipt.Some? then receipt else draft.receipt)
    && match verification
       case None => Unmeasured(draft, final)
       case Some(v) =>
         && Collected(draft.anomalySummary, Descriptions(v.anomalies), final.anomalySummary)
         && Collected(draft.handlingSuggestions, Stripped(v.anomalies), final.handlingSuggestions)
         && final.metrics == v.metrics && final.releaseComparisons == v.releaseComparisons
         && final.anomalies == v.anomalies
  }

  predicate Unmeasured(draft: FinalReport, final: FinalReport) {
    && final.anomalySummary == draft.anomalySummary && final.handlingSuggestions == draft.handlingSuggestions
    && final.metrics == draft.metrics && final.releaseComparisons == draft.releaseComparisons
    && final.anomalies == draft.anomalies
  }

  /** What the report node saves: findings merged in, receipt attached. */
  function FinishReport(report: FinalReport, verification: Option<VerificationResult>,
                        receipt: Option<ActionReceipt>): FinalReport
  {
    var merged :=
      match verification
      case None => report
      case Some(v) =>
        report.(anomalySummary := Merged(report.anomalySummary, Descriptions(v.anomalies)),
                handlingSuggestions := Merged(report.handlingSuggestions, Suggestions(v.anomalies)),
                metrics := v.metrics, releaseComparisons := v.releaseComparisons,
                anomalies := v.anomalies);
    if receipt.Some? then merged.(receipt := receipt) else merged
  }

  /** A rule-based report already holds everything the merge would add. */
  lemma MergeLeavesRuleReportAlone(service: string, hypotheses: seq<Hypothesis>, action: Option<ActionPlan>,
                                   v: VerificationResult, approval: string, receipt: Option<ActionReceipt>)
    ensures var report := RuleReport(service, hypotheses, action, Some(v), approval);
            FinishReport(report, Some(v), receipt) == report.(receipt := receipt)
  {
    NothingMissing(Descriptions(v.anomalies), Descriptions(v.anomalies));
    MergeIsIdempotent([], Suggestions(v.anomalies));
  }

  /** For every draft, verification and receipt: nothing is lost, nothing invented,
      nothing added twice or out of order. */
  lemma ReportIsFinished(draft: FinalReport, verification: Option<VerificationResult>, receipt: Option<ActionReceipt>)
    ensures Finishes(draft, verification, receipt, FinishReport(draft, verification, receipt))
  {
    hide Collected, Merged, Descriptions, Suggestions, Stripped;
    if verification.Some? {
      var a := verification.value.anomalies;
      LinesAreCollected(draft.anomalySummary, a, |a|);
      TipsAreCollected(draft.handlingSuggestions, a, |a|);
      assert a[..|a|] == a && Descriptions(a)[..|a|] == Descriptions(a) && Stripped(a)[..|a|] == Stripped(a);
    }
  }

}
