/** The claims-agent dashboard's state bag and its event handlers. Every React
    state variable the handlers read or update is a field (the uploaded image
    references and the agent's notes, which only the display uses, are not);
    every handler is a method whose
    postcondition gives the new value of each field it may change. */
module ClaimsDashboard {
  import opened Decimal
  import opened Ledger
  import opened Status
  import opened Audit
  import Confidence

  class Dashboard {
    // damage assessment ledger
    var estimatedCost: CostRange
    var finalEstimate: string
    var damageResults: seq<Damage>
    var overallConfidence: int
    var hasAIFeedback: bool
    var isAnalyzing: bool
    var hasAnalyzed: bool
    var assessmentTime: Time
    // status lifecycle controller
    var currentStatus: ClaimStatus
    var statusHistory: seq<HistoryEntry>
    var showStatusMessage: bool
    var statusNotice: StatusNotice
    var auditLog: seq<AuditEntry>
    // the injected clock: the time of the latest stamped event
    var clock: Time

    /** What holds in every state the handlers can reach: the history always ends
        with the current status and is chronological, and the cost range is ordered
        and the overall confidence is a percentage. */
    ghost predicate Valid()
      reads this`currentStatus, this`statusHistory, this`auditLog, this`clock
      reads this`estimatedCost, this`overallConfidence
    {
      StatusValid() && LedgerValid()
    }

    /** The history always ends with the current status and is chronological, and
        the log is the handlers' entries, newest first, in front of the initial pair;
        no history entry and no handler's entry is later than the clock. */
    ghost predicate StatusValid()
      reads this`currentStatus, this`statusHistory, this`auditLog, this`clock
    {
      |statusHistory| > 0 &&
      statusHistory[|statusHistory| - 1].status == currentStatus &&
      Chronological(statusHistory, clock) &&
      AuditOrdered(auditLog, clock)
    }

    /** The cost range is ordered and the overall confidence
        is a percentage. */
    ghost predicate LedgerValid()
      reads this`estimatedCost, this`overallConfidence
    {
      0 <= estimatedCost.min <= estimatedCost.max &&
      0 <= overallConfidence <= 100
    }

    /** The cost range is the table summed over the current list and the final
        estimate is its rendered midpoint. This holds right after an add, remove or
        edit, not in general: not initially, and not after a re-run. */
    ghost predicate CostMatches()
      reads this`estimatedCost, this`finalEstimate, this`damageResults
      ensures CostMatches() ==> 2 * Midpoint(estimatedCost) == estimatedCost.min + estimatedCost.max
      ensures CostMatches() && |damageResults| > 0 ==> 0 < estimatedCost.min <= estimatedCost.max
    {
      MidpointExact(damageResults);
      estimatedCost == SumCost(damageResults) &&
      finalEstimate == NatToString(Midpoint(estimatedCost))
    }

    /** The state the view mounts with (the mount effect stamps the assessment time). */
    constructor ()
      ensures Valid() && !CostMatches()
      ensures estimatedCost == CostRange(2800, 3500) && finalEstimate == "3150"
      ensures damageResults == Seed() && overallConfidence == 92
      ensures !hasAIFeedback && !isAnalyzing && hasAnalyzed && assessmentTime == 0
      ensures currentStatus == UnderReview && statusHistory == [HistoryEntry(UnderReview, 0)]
      ensures !showStatusMessage && statusNotice == NoNotice
      ensures auditLog == InitialAudit() && clock == 0
    {
      estimatedCost := CostRange(2800, 3500);
      finalEstimate := "3150";
      damageResults := Seed();
      overallConfidence := 92;
      hasAIFeedback := false;
      isAnalyzing := false;
      hasAnalyzed := true;
      assessmentTime := 0;
      currentStatus := UnderReview;
      statusHistory := [HistoryEntry(UnderReview, 0)];
      showStatusMessage := false;
      statusNotice := NoNotice;
      auditLog := InitialAudit();
      clock := 0;
      SeedCost();
      InitialAuditOrdered(0);
    }

    /** Reads the clock for a new event. */
    method Now() returns (t: Time)
      requires Valid()
      modifies this`clock
      ensures Valid()
      ensures clock == old(clock) + 1 && t == clock
    {
      ChronologicalLater(statusHistory, clock, clock + 1);
      AuditOrderedLater(auditLog, clock, clock + 1);
      clock := clock + 1;
      t := clock;
    }

    // ---- status lifecycle controller ----

    /** The body of `changeStatus` as one render's closure runs it: it builds the
        new history and audit log from the `history` and `audit` that render
        captured, not from whatever the state holds when it runs. */
    method ChangeStatusFrom(history: seq<HistoryEntry>, audit: seq<AuditEntry>, s: ClaimStatus)
      requires Valid()
      requires Chronological(history, clock) && AuditOrdered(audit, clock)
      modifies this`currentStatus, this`statusHistory, this`statusNotice, this`showStatusMessage,
               this`auditLog, this`clock
      ensures Valid()
      ensures clock == old(clock) + 1
      ensures currentStatus == s
      ensures statusHistory == history + [HistoryEntry(s, clock)]
      ensures auditLog == [AuditEntry(clock, StatusChanged(s))] + audit
      ensures statusNotice == Notice(s) && showStatusMessage
    {
      var now := clock + 1;
      StatusStepOrdered(history, audit, s, clock, now);
      clock := now;
      currentStatus := s;
      statusHistory := history + [HistoryEntry(s, now)];
      statusNotice := Notice(s);
      showStatusMessage := true;
      auditLog := [AuditEntry(now, StatusChanged(s))] + audit;
    }

    /** `changeStatus` called from a fresh handler: any status, from any status,
        with no legality check. One history entry is appended, one audit entry is
        prepended, and the damage list and costs are left alone. */
    method ChangeStatus(s: ClaimStatus)
      requires Valid()
      modifies this`currentStatus, this`statusHistory, this`statusNotice, this`showStatusMessage,
               this`auditLog, this`clock
      ensures Valid()
      ensures clock == old(clock) + 1
      ensures currentStatus == s
      ensures statusHistory == old(statusHistory) + [HistoryEntry(s, clock)]
      ensures auditLog == [AuditEntry(clock, StatusChanged(s))] + old(auditLog)
      ensures statusNotice == Notice(s) && showStatusMessage
      ensures statusNotice.text() == statusHistory[|statusHistory| - 1].message() == auditLog[0].details()
      ensures StatusChangePrefix <= auditLog[0].action()
    {
      ChangeStatusFrom(statusHistory, auditLog, s);
    }

    /** `handleSubmitForApproval` as the code runs it: the two timer callbacks reuse
        the `changeStatus` closure of the render in which the button was pressed,
        so each step rebuilds history and audit log from that render's snapshot.
        Only the last step's entries survive. */
    method SubmitForApprovalAsWritten()
      requires Valid()
      modifies this`currentStatus, this`statusHistory, this`statusNotice, this`showStatusMessage,
               this`auditLog, this`clock
      ensures Valid()
      ensures clock == old(clock) + 3
      ensures currentStatus == Closed
      ensures statusHistory == old(statusHistory) + [HistoryEntry(Closed, clock)]
      ensures auditLog == [AuditEntry(clock, StatusChanged(Closed))] + old(auditLog)
      ensures statusNotice == Notice(Closed) && showStatusMessage
    {
      var history, audit := statusHistory, auditLog;
      ChangeStatusFrom(history, audit, Pending);
      ChronologicalLater(history, clock - 1, clock);
      AuditOrderedLater(audit, clock - 1, clock);
      ChangeStatusFrom(history, audit, Approved);
      ChronologicalLater(history, clock - 2, clock);
      AuditOrderedLater(audit, clock - 2, clock);
      ChangeStatusFrom(history, audit, Closed);
    }

    /** `handleSubmitForApproval` as evidently intended: three status changes in turn,
        PENDING, then APPROVED, then CLOSED, each adding its own history and audit
        entry on top of the previous one. */
    method SubmitForApproval()
      requires Valid()
      modifies this`currentStatus, this`statusHistory, this`statusNotice, this`showStatusMessage,
               this`auditLog, this`clock
      ensures Valid()
      ensures clock == old(clock) + 3
      ensures currentStatus == Closed
      ensures statusHistory == old(statusHistory) +
        [HistoryEntry(Pending, clock - 2), HistoryEntry(Approved, clock - 1), HistoryEntry(Closed, clock)]
      ensures auditLog ==
        [AuditEntry(clock, StatusChanged(Closed)), AuditEntry(clock - 1, StatusChanged(Approved)),
         AuditEntry(clock - 2, StatusChanged(Pending))] +
        old(auditLog)
      ensures statusNotice == Notice(Closed) && showStatusMessage
    {
      ChangeStatusFrom(statusHistory, auditLog, Pending);
      ChangeStatusFrom(statusHistory, auditLog, Approved);
      ChangeStatusFrom(statusHistory, auditLog, Closed);
    }

    /** `handleApprove`: a single step to APPROVED. */
    method Approve()
      requires Valid()
      modifies this`currentStatus, this`statusHistory, this`statusNotice, this`showStatusMessage,
               this`auditLog, this`clock
      ensures Valid()
      ensures clock == old(clock) + 1
      ensures currentStatus == Approved
      ensures statusHistory == old(statusHistory) + [HistoryEntry(Approved, clock)]
      ensures auditLog == [AuditEntry(clock, StatusChanged(Approved))] + old(auditLog)
      ensures statusNotice == Notice(Approved) && showStatusMessage
    {
      ChangeStatus(Approved);
    }

    /** `handleSendRA`: a single step to CLOSED. */
    method SendRepairAuthorization()
      requires Valid()
      modifies this`currentStatus, this`statusHistory, this`statusNotice, this`showStatusMessage,
               this`auditLog, this`clock
      ensures Valid()
      ensures clock == old(clock) + 1
      ensures currentStatus == Closed
      ensures statusHistory == old(statusHistory) + [HistoryEntry(Closed, clock)]
      ensures auditLog == [AuditEntry(clock, StatusChanged(Closed))] + old(auditLog)
      ensures statusNotice == Notice(Closed) && showStatusMessage
    {
      ChangeStatus(Closed);
    }

    /** The state effect of `handleDownloadRA`: one audit entry is prepended. */
    method DownloadRepairAuthorization()
      requires Valid()
      modifies this`auditLog, this`clock
      ensures Valid()
      ensures clock == old(clock) + 1
      ensures auditLog == [AuditEntry(clock, AuthorizationDownloaded)] + old(auditLog)
    {
      var now := Now();
      PrependKeepsOrdered(auditLog, AuditEntry(now, AuthorizationDownloaded), now);
      auditLog := [AuditEntry(now, AuthorizationDownloaded)] + auditLog;
    }

    // ---- damage assessment ledger ----

    /** `recalculateCost`: walks the list once, adding up each entry's table range,
        then overwrites the final estimate with the rounded midpoint. */
    method RecalculateCost(damages: seq<Damage>)
      modifies this`estimatedCost, this`finalEstimate
      ensures estimatedCost == SumCost(damages)
      ensures finalEstimate == NatToString(Midpoint(estimatedCost))
    {
      var totalMin, totalMax := 0, 0;
      var k := 0;
      while k < |damages|
        invariant 0 <= k <= |damages|
        invariant CostRange(totalMin, totalMax) == SumCost(damages[..k])
      {
        var cost := SeverityCost(damages[k].severity);
        SumCostPrefix(damages, k);
        totalMin := totalMin + cost.min;
        totalMax := totalMax + cost.max;
        k := k + 1;
      }
      assert damages[..k] == damages;
      estimatedCost := CostRange(totalMin, totalMax);
      var midpoint := Midpoint(estimatedCost);
      finalEstimate := NatToString(midpoint);
    }

    /** `updateDamageSeverity`: entry `index` takes the new severity and is marked
        edited (see `WithSeverity`), feedback is flagged, the cost is recalculated
        and one audit entry naming the entry is prepended. */
    method UpdateDamageSeverity(index: nat, severity: Severity)
      requires Valid()
      requires index < |damageResults|
      modifies this`damageResults, this`hasAIFeedback, this`estimatedCost, this`finalEstimate,
               this`auditLog, this`clock
      ensures Valid() && CostMatches() && hasAIFeedback
      ensures damageResults == WithSeverity(old(damageResults), index, severity)
      ensures clock == old(clock) + 1
      ensures auditLog == [AuditEntry(clock, SeverityEdited(severity, old(damageResults[index].kind)))] + old(auditLog)
    {
      var updated := WithSeverity(damageResults, index, severity);
      damageResults := updated;
      hasAIFeedback := true;
      RecalculateCost(updated);
      var now := Now();
      var entry := AuditEntry(now, SeverityEdited(severity, updated[index].kind));
      PrependKeepsOrdered(auditLog, entry, now);
      auditLog := [entry] + auditLog;
    }

    /** `updateDamageType`: entry `index` takes the new label and is marked edited
        (see `WithKind`), feedback is flagged, the cost is recalculated (to the
        same range, but the final estimate is overwritten all the same) and one
        audit entry is prepended. */
    method UpdateDamageType(index: nat, kind: string)
      requires Valid()
      requires index < |damageResults|
      modifies this`damageResults, this`hasAIFeedback, this`estimatedCost, this`finalEstimate,
               this`auditLog, this`clock
      ensures Valid() && CostMatches() && hasAIFeedback
      ensures damageResults == WithKind(old(damageResults), index, kind)
      ensures clock == old(clock) + 1
      ensures auditLog == [AuditEntry(clock, TypeEdited(kind))] + old(auditLog)
    {
      var updated := WithKind(damageResults, index, kind);
      damageResults := updated;
      hasAIFeedback := true;
      RecalculateCost(updated);
      var now := Now();
      var entry := AuditEntry(now, TypeEdited(kind));
      PrependKeepsOrdered(auditLog, entry, now);
      auditLog := [entry] + auditLog;
    }

    /** `removeDamage`: filters out position `index` (see `WithoutIndex`), flags
        feedback and recalculates the cost. No audit entry is written. */
    method RemoveDamage(index: int)
      requires Valid()
      modifies this`damageResults, this`hasAIFeedback, this`estimatedCost, this`finalEstimate
      ensures Valid() && CostMatches() && hasAIFeedback
      ensures damageResults == WithoutIndex(old(damageResults), index)
    {
      var updated := WithoutIndex(damageResults, index);
      damageResults := updated;
      hasAIFeedback := true;
      RecalculateCost(updated);
    }

    /** `addNewDamage`: appends the default entry, flags feedback and recalculates
        the cost. */
    method AddNewDamage()
      requires Valid()
      modifies this`damageResults, this`hasAIFeedback, this`estimatedCost, this`finalEstimate
      ensures Valid() && CostMatches() && hasAIFeedback
      ensures damageResults == old(damageResults) + [NewDamage()]
    {
      var updated := damageResults + [NewDamage()];
      damageResults := updated;
      hasAIFeedback := true;
      RecalculateCost(updated);
    }

    /** The state effect of `handleRerunAssessment`, its delay collapsed into one step:
        the seed list comes back, feedback is cleared, an automated audit entry is
        prepended, and the cost range and final estimate are not recomputed. */
    method RerunAssessment()
      requires Valid()
      modifies this`isAnalyzing, this`hasAnalyzed, this`assessmentTime, this`damageResults,
               this`hasAIFeedback, this`auditLog, this`clock
      ensures Valid()
      ensures damageResults == Seed() && !hasAIFeedback && !isAnalyzing && hasAnalyzed
      ensures clock == old(clock) + 1 && assessmentTime == clock
      ensures auditLog == [AuditEntry(clock, AssessmentRerun)] + old(auditLog)
      ensures estimatedCost == old(estimatedCost) && finalEstimate == old(finalEstimate)
    {
      isAnalyzing := true;
      var now := Now();
      isAnalyzing := false;
      hasAnalyzed := true;
      assessmentTime := now;
      damageResults := Seed();
      hasAIFeedback := false;
      PrependKeepsOrdered(auditLog, AuditEntry(now, AssessmentRerun), now);
      auditLog := [AuditEntry(now, AssessmentRerun)] + auditLog;
    }

    /** The agent types a final estimate; any text is kept as typed. */
    method SetFinalEstimate(text: string)
      requires Valid()
      modifies this`finalEstimate
      ensures Valid() && finalEstimate == text
    {
      finalEstimate := text;
    }

    /** The agent types an overall confidence; it is clamped into 0..100. */
    method SetOverallConfidence(typed: Confidence.Parsed)
      requires Valid()
      modifies this`overallConfidence, this`hasAIFeedback
      ensures Valid() && overallConfidence == Confidence.ClampConfidence(typed) && hasAIFeedback
    {
      overallConfidence := Confidence.ClampConfidence(typed);
      hasAIFeedback := true;
    }
  }
}
