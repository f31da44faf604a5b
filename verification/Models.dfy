/** The records exchanged between the incident API, the orchestrator and the
    operations gateway. Timestamps are integers; query references, signal
    checks and free payloads that no decision reads are not represented. */
module Models {
  import opened Common

  datatype IncidentContext = IncidentContext(
    cluster: string, namespace: string,
    releaseVersion: string, previousVersion: string)

  datatype VerificationPolicy = VerificationPolicy(
    windowMinutes: int, maxErrorRate: real, maxP95LatencyMs: int, minimumPassingSignals: int)

  /** What a gateway query or an evidence agent returns. */
  datatype Finding = Finding(sourceRef: string, summary: string, confidence: real)

  datatype Evidence = Evidence(
    id: string, sourceType: string, sourceRef: string, summary: string, confidence: real)

  datatype Hypothesis = Hypothesis(
    id: string, cause: string, support: seq<string>, confidence: real)

  datatype ActionPlan = ActionPlan(
    actionType: string, targetService: string,
    currentRevision: string, targetRevision: string,
    reason: string, riskLevel: string, evidenceIds: seq<string>,
    verificationPolicy: Option<VerificationPolicy>, requiresApproval: bool)

  datatype ActionReceipt = ActionReceipt(
    receiptId: string, idempotencyKey: string, actionType: string,
    targetService: string, executor: string,
    fromRevision: string, toRevision: string,
    status: string, statusDetail: string,
    executedAt: int, verificationStatus: string)

  datatype AnomalyFinding = AnomalyFinding(
    metricKey: string, severity: string, description: string, suggestion: string)

  datatype MetricObservation = MetricObservation(
    key: string, displayName: string, phase: string, value: real, unit: string,
    threshold: string, abnormal: bool, sourceMode: string, summary: string)

  datatype MetricComparison = MetricComparison(
    key: string, displayName: string, beforeValue: real, afterValue: real,
    deltaValue: real, deltaRatio: real, unit: string, summary: string)

  datatype VerificationResult = VerificationResult(
    status: string, errorRate: real, p95LatencyMs: int,
    metrics: seq<MetricObservation>, releaseComparisons: seq<MetricComparison>,
    anomalies: seq<AnomalyFinding>, decisionBasis: string, summary: string)

  datatype FinalReport = FinalReport(
    summary: string, rootCause: string, recommendedAction: string, verification: string,
    anomalySummary: seq<string>, handlingSuggestions: seq<string>,
    metrics: seq<MetricObservation>, releaseComparisons: seq<MetricComparison>,
    anomalies: seq<AnomalyFinding>, receipt: Option<ActionReceipt>)

  /** Equal receipts, but for the verification status that Verify rewrites. */
  predicate SameButVerification(a: ActionReceipt, b: ActionReceipt) {
    a.(verificationStatus := b.verificationStatus) == b
  }
}
