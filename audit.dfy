/** The audit log: what each recorded event was, the texts it is shown with,
    and the order of the log: handlers only ever prepend, so their entries are
    newest first, in front of an initial pair stored oldest first. */
module Audit {
  import opened Status
  import opened Ledger

  const AgentId: string := "Agent A-4782"
  const SystemId: string := "System"

  /** What every status-change action starts with. */
  const StatusChangePrefix: string := "Status Changed to "

  /** What the details of every edit end with: edits are fed back as training. */
  const TrainingNote: string := " (will train automated system)"

  /** The events the dashboard records. The first two only appear in the log the
      view starts with; the others are written by its handlers. */
  datatype AuditEvent =
    | AssessmentGenerated
    | ClaimOpened
    | StatusChanged(status: ClaimStatus)
    | SeverityEdited(severity: Severity, kind: string)
    | TypeEdited(kind: string)
    | AssessmentRerun
    | AuthorizationDownloaded

  /** One audit record: when it happened and what happened. Its action label,
      user, automated-involvement flag and details are the texts of its event. */
  datatype AuditEntry = AuditEntry(timestamp: Time, event: AuditEvent) {
    function action(): string { Action(event) }
    function user(): string { User(event) }
    function aiUsed(): bool { AiUsed(event) }
    function details(): string { Details(event) }
  }

  /** An action names a status change exactly when it starts with the
      status-change prefix. */
  function Action(e: AuditEvent): (a: string)
    ensures |a| > 0
    ensures e.StatusChanged? <==> StatusChangePrefix <= a
  {
    match e
    case AssessmentGenerated => assert StatusChangePrefix[0] == 'S'; "Automated Assessment Generated"
    case ClaimOpened => assert StatusChangePrefix[0] == 'S'; "Claim Opened"
    case StatusChanged(s) => StatusChangePrefix + StatusName(s)
    case SeverityEdited(_, _) => assert StatusChangePrefix[0] == 'S'; "Damage Assessment Edited"
    case TypeEdited(_) => assert StatusChangePrefix[0] == 'S'; "Damage Type Edited"
    case AssessmentRerun => assert StatusChangePrefix[0] == 'S'; "Automated Assessment Re-run"
    case AuthorizationDownloaded => assert StatusChangePrefix[0] == 'S'; "RA Downloaded"
  }

  /** Every event is the agent's except the initial automated assessment. */
  function User(e: AuditEvent): (u: string)
    ensures u == SystemId <==> e.AssessmentGenerated?
    ensures u == AgentId <==> !e.AssessmentGenerated?
  {
    if e.AssessmentGenerated? then SystemId else AgentId
  }

  /** Automated inference is involved exactly in generating and re-running the
      assessment; status changes, edits, the claim opening and the download are
      manual. */
  function AiUsed(e: AuditEvent): (b: bool)
    ensures b <==> e.AssessmentGenerated? || e.AssessmentRerun?
    ensures e.StatusChanged? || e.SeverityEdited? || e.TypeEdited? ==> !b
  {
    match e
    case AssessmentGenerated => true
    case AssessmentRerun => true
    case _ => false
  }

  predicate EndsWithTrainingNote(d: string) {
    |TrainingNote| <= |d| && d[|d| - |TrainingNote|..] == TrainingNote
  }

  /** An edit's summary followed by the training note. */
  function Trained(summary: string): (d: string)
    ensures EndsWithTrainingNote(d)
  {
    assert (summary + TrainingNote)[|summary|..] == TrainingNote;
    summary + TrainingNote
  }

  /** The details of an edit always end with the training note. */
  function Details(e: AuditEvent): (d: string)
    ensures e.SeverityEdited? || e.TypeEdited? ==> EndsWithTrainingNote(d)
  {
    match e
    case AssessmentGenerated => "Automated damage assessment completed with 92% confidence"
    case ClaimOpened => "Claim POL-2024-8847392 assigned for review"
    case StatusChanged(s) => StatusMessage(s)
    case SeverityEdited(s, kind) => Trained("Severity changed to " + SeverityName(s) + " for " + kind)
    case TypeEdited(kind) => Trained("Damage type changed to \"" + kind + "\"")
    case AssessmentRerun => "Damage assessment regenerated using automated vision model"
    case AuthorizationDownloaded => "Repair Authorization document downloaded"
  }

  /** A status-change entry names the new status in its action and carries the
      status's fixed message as details. */
  lemma StatusChangeTexts(s: ClaimStatus)
    ensures Action(StatusChanged(s)) == "Status Changed to " + StatusName(s)
    ensures Details(StatusChanged(s)) == StatusMessage(s)
  {
  }

  /** Two status-change actions read alike exactly when they are to the same status. */
  lemma StatusChangeActionInjective(s: ClaimStatus, t: ClaimStatus)
    ensures Action(StatusChanged(s)) == Action(StatusChanged(t)) <==> s == t
  {
    var p := "Status Changed to ";
    assert (p + StatusName(s))[|p|..] == StatusName(s);
    assert (p + StatusName(t))[|p|..] == StatusName(t);
    StatusNameInjective(s, t);
  }

  /** Two status-change details read alike exactly when they are to the same status. */
  lemma StatusChangeDetailsInjective(s: ClaimStatus, t: ClaimStatus)
    ensures Details(StatusChanged(s)) == Details(StatusChanged(t)) <==> s == t
  {
    StatusMessageInjective(s, t);
  }

  /** The log the view starts with: the automated assessment five minutes and, after
      it, the claim opening three minutes (in milliseconds) before the view was opened.
      This pair is stored oldest first. */
  function InitialAudit(): (a: seq<AuditEntry>)
    ensures |a| == 2
    ensures a[0].event == AssessmentGenerated && a[1].event == ClaimOpened
    ensures a[0].timestamp == -5 * 60000 && a[1].timestamp == -3 * 60000
    ensures a[0].timestamp < a[1].timestamp < 0
  {
    [ AuditEntry(-5 * 60000, AssessmentGenerated), AuditEntry(-3 * 60000, ClaimOpened) ]
  }

  /** The initial assessment is the system's and automated; the claim opening is
      the agent's and manual. */
  lemma InitialAuditTexts()
    ensures InitialAudit()[0].aiUsed() && !InitialAudit()[1].aiUsed()
    ensures InitialAudit()[0].user() == SystemId && InitialAudit()[1].user() == AgentId
  {
  }

  /** The shape of every log the view holds: the entries its handlers prepended,
      newest first and none later than `now`, in front of the initial pair, which
      stays as it was (oldest first) and is older than every handler's entry.
      Stated one entry at a time: each entry bounds the ones after it. */
  ghost predicate AuditOrdered(a: seq<AuditEntry>, now: Time) {
    if |a| <= 2 then a == InitialAudit() && InitialAudit()[1].timestamp <= now
    else a[0].timestamp <= now && AuditOrdered(a[1..], a[0].timestamp)
  }

  /** What an ordered log means entry by entry: it ends with the initial pair, and
      no entry is later than `now`, and every handler's entry in front of the pair
      is no earlier than any entry after it, the initial pair included. */
  lemma {:induction false} AuditOrderedMeans(a: seq<AuditEntry>, now: Time)
    requires AuditOrdered(a, now)
    ensures |a| >= 2 && a[|a| - 2] == InitialAudit()[0] && a[|a| - 1] == InitialAudit()[1]
    ensures forall k :: 0 <= k < |a| ==> a[k].timestamp <= now
    ensures forall j, k :: 0 <= j < |a| - 2 && j < k < |a| ==> a[k].timestamp <= a[j].timestamp
  {
    if |a| > 2 {
      var r := a[1..];
      AuditOrderedMeans(r, a[0].timestamp);
      assert forall k :: 1 <= k < |a| ==> a[k] == r[k - 1];
    }
  }

  /** The view's first log is ordered. */
  lemma InitialAuditOrdered(now: Time)
    requires InitialAudit()[1].timestamp <= now
    ensures AuditOrdered(InitialAudit(), now)
  {
  }

  /** A clock that moves forward keeps the log ordered. */
  lemma AuditOrderedLater(a: seq<AuditEntry>, now: Time, later: Time)
    requires AuditOrdered(a, now) && now <= later
    ensures AuditOrdered(a, later)
  {
  }

  /** Prepending an entry stamped no earlier than the clock keeps the log ordered,
      with that entry's stamp as the new bound. */
  lemma PrependKeepsOrdered(a: seq<AuditEntry>, e: AuditEntry, now: Time)
    requires AuditOrdered(a, now) && now <= e.timestamp
    ensures AuditOrdered([e] + a, e.timestamp)
  {
    AuditOrderedLater(a, now, e.timestamp);
    assert ([e] + a)[1..] == a;
  }

  /** A status change stamped after the clock keeps both the history it extends
      and the log it prepends to in order. */
  lemma StatusStepOrdered(h: seq<HistoryEntry>, a: seq<AuditEntry>, s: ClaimStatus, now: Time, later: Time)
    requires Chronological(h, now) && AuditOrdered(a, now) && now <= later
    ensures Chronological(h + [HistoryEntry(s, later)], later)
    ensures AuditOrdered([AuditEntry(later, StatusChanged(s))] + a, later)
  {
    AppendKeepsChronological(h, s, now, later);
    PrependKeepsOrdered(a, AuditEntry(later, StatusChanged(s)), now);
  }
}
