/** The claim lifecycle vocabulary: statuses, their fixed messages and badges,
    and the status history a status change appends to. */
module Status {

  datatype ClaimStatus = UnderReview | Pending | Approved | Closed

  /** Timestamps come from an injected counter standing in for the wall clock. */
  type Time = int

  /** One status history record. Its message is not stored separately: every
      record the view creates carries the fixed message of its status, so the
      message is derived from the status. */
  datatype HistoryEntry = HistoryEntry(status: ClaimStatus, timestamp: Time) {
    function message(): string {
      StatusMessage(status)
    }
  }

  /** The status as its string-literal type spells it (used in audit actions). */
  function StatusName(s: ClaimStatus): (n: string)
    ensures |n| > 0
    ensures forall k :: 0 <= k < |n| ==> 'A' <= n[k] <= 'Z' || n[k] == '_'
  {
    match s
    case UnderReview => "UNDER_REVIEW"
    case Pending => "PENDING"
    case Approved => "APPROVED"
    case Closed => "CLOSED"
  }

  /** The fixed human-readable message recorded for a change to `s`. */
  function StatusMessage(s: ClaimStatus): (m: string)
    ensures |m| > 0
  {
    match s
    case UnderReview => "Assessment in progress - claim under initial review by agent"
    case Pending => "Claim submitted for approval - awaiting adjuster review"
    case Approved => "Claim approved by adjuster - repair authorization being prepared"
    case Closed => "Repair Authorization sent to policyholder - claim processing complete"
  }

  /** The confirmation shown after a status change: none before the first change,
      afterwards the fixed message of the status last changed to. */
  datatype StatusNotice = NoNotice | Notice(status: ClaimStatus) {
    function text(): string {
      if NoNotice? then "" else StatusMessage(status)
    }
  }

  /** Each status has its own message, so a history entry's message identifies its status. */
  lemma StatusMessageInjective(s: ClaimStatus, t: ClaimStatus)
    ensures StatusMessage(s) == StatusMessage(t) <==> s == t
  {
    MessagesDiffer();
  }

  lemma MessagesDiffer()
    ensures StatusMessage(UnderReview) != StatusMessage(Pending)
    ensures StatusMessage(UnderReview) != StatusMessage(Approved)
    ensures StatusMessage(UnderReview) != StatusMessage(Closed)
    ensures StatusMessage(Pending) != StatusMessage(Approved)
    ensures StatusMessage(Pending) != StatusMessage(Closed)
    ensures StatusMessage(Approved) != StatusMessage(Closed)
  {
  }

  /** Each status has its own spelling. */
  lemma StatusNameInjective(s: ClaimStatus, t: ClaimStatus)
    ensures StatusName(s) == StatusName(t) <==> s == t
  {
    assert StatusName(UnderReview)[0] == 'U';
    assert StatusName(Pending)[0] == 'P';
    assert StatusName(Approved)[0] == 'A';
    assert StatusName(Closed)[0] == 'C';
  }

  datatype BadgeVariant = Secondary | DefaultVariant | Outline

  datatype Badge = Badge(variant: BadgeVariant, title: string)

  /** The header badge for a status (its CSS classes are presentation and left out). */
  function StatusBadge(s: ClaimStatus): (b: Badge)
    ensures b.variant == Secondary <==> s == UnderReview || s == Pending
    ensures b.variant == DefaultVariant <==> s == Approved
    ensures b.variant == Outline <==> s == Closed
  {
    match s
    case UnderReview => Badge(Secondary, "Under Review")
    case Pending => Badge(Secondary, "Pending Approval")
    case Approved => Badge(DefaultVariant, "Approved")
    case Closed => Badge(Outline, "Closed")
  }

  /** No two statuses share a badge title, so the badge always tells the status apart
      even where two statuses share a variant. */
  lemma BadgeLabelInjective(s: ClaimStatus, t: ClaimStatus)
    ensures StatusBadge(s).title == StatusBadge(t).title <==> s == t
  {
    assert StatusBadge(UnderReview).title[0] == 'U';
    assert StatusBadge(Pending).title[0] == 'P';
    assert StatusBadge(Approved).title[0] == 'A';
    assert StatusBadge(Closed).title[0] == 'C';
  }

  /** The history is in chronological order and no entry is later than `now`.
      Stated one entry at a time, from the newest back. */
  ghost predicate Chronological(h: seq<HistoryEntry>, now: Time) {
    |h| == 0 ||
    (h[|h| - 1].timestamp <= now && Chronological(h[..|h| - 1], h[|h| - 1].timestamp))
  }

  /** What a chronological history means entry by entry: any two entries are in
      time order, and all are no later than `now`. */
  lemma {:induction false} ChronologicalMeans(h: seq<HistoryEntry>, now: Time)
    requires Chronological(h, now)
    ensures forall k :: 0 <= k < |h| ==> h[k].timestamp <= now
    ensures forall j, k :: 0 <= j < k < |h| ==> h[j].timestamp <= h[k].timestamp
  {
    if |h| > 0 {
      var p := h[..|h| - 1];
      ChronologicalMeans(p, h[|h| - 1].timestamp);
      assert forall k :: 0 <= k < |p| ==> p[k] == h[k];
    }
  }

  /** A clock that moves forward keeps a history chronological. */
  lemma ChronologicalLater(h: seq<HistoryEntry>, now: Time, later: Time)
    requires Chronological(h, now) && now <= later
    ensures Chronological(h, later)
  {
  }

  /** Appending the entry for a status change at a time no earlier than the clock
      keeps the history chronological. */
  lemma AppendKeepsChronological(h: seq<HistoryEntry>, s: ClaimStatus, now: Time, later: Time)
    requires Chronological(h, now) && now <= later
    ensures Chronological(h + [HistoryEntry(s, later)], later)
  {
    assert (h + [HistoryEntry(s, later)])[..|h|] == h;
  }
}
