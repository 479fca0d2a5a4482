# Claims agent dashboard — verified model of its state logic

The claims agent dashboard is a single React view (`components/claims-agent-dashboard.tsx`)
in which an insurance agent reviews an automated vehicle-damage assessment. Two pieces of
sequential state logic sit inside it, and this project models both:

- **The damage assessment ledger.** A list of damage records (type label, severity,
  confidence, edited flag). The agent edits a severity or a type, removes an entry or
  appends a default one. Every such change re-derives the cost range, and the final
  estimate becomes the range's midpoint. The cost range is a fixed per-severity
  `{min, max}` table summed over the list.
- **The claim status controller.** A four-value status (`UNDER_REVIEW`, `PENDING`,
  `APPROVED`, `CLOSED`). Each status change appends a history entry carrying the
  status's fixed message and prepends an audit entry. Submitting for approval runs
  PENDING, APPROVED and CLOSED in turn.

Three small pure helpers complete the model:

- the header badge for a status;
- the clamp applied to a typed overall confidence;
- the three-level confidence reading.

Modules:

- `Decimal` renders the midpoint as the final-estimate text and proves that the text reads
  back to the same number.
- `Ledger` holds the damage records, the cost table and sum, and the list operations behind
  each handler, with lemmas relating each operation to the cost.
- `Status` holds the statuses, their messages and badges, and the chronological
  discipline of the history.
- `Audit` holds the audit events, the texts each entry is shown with, and the order of
  the prepend-only log: the handlers' entries come newest first, in front of the two
  entries the view starts with, which are stored oldest first.
- `Confidence` holds the clamp and the level thresholds.
- `ClaimsDashboard` holds the class `Dashboard`: the view's state variables that the
  handlers read or update as fields, and one method per handler. Each method's postcondition gives the new value of every field it may
  change. Its `modifies` clause says which fields stay as they were; for example, a status
  change leaves the damage list and the costs alone.

Timestamps come from an injected clock: a counter field that advances by one for every
stamped event, so a single status change advances it once and the approval cascade three
times. In every reachable state (`Dashboard.Valid`) the history is chronological, the log
is the handlers' entries newest first in front of the initial pair, and no history entry
and no handler's entry is later than the clock.

Points where the model states what the code does, which differs from what one might expect
of such a view:

- Every recalculation overwrites the final estimate with the midpoint, including a value
  the agent typed.
- "Cost range = table sum over the list" is not an invariant of the view. The initial range
  (2800, 3500) is not the seed list's sum, (2100, 4700), and a re-run replaces the list
  without recalculating. The model states the sum only for the states right after an add,
  remove or edit (`Dashboard.CostMatches`).
- Removing the Major entry from the seed list leaves (900, 2200): 500+200+200 and
  1200+500+500.
- The history message and the audit texts are not stored. Each entry stores its status or
  event, and the texts are derived from it. Every entry the view creates carries exactly
  these texts.

## Model

| member | source | states |
|---|---|---|
| Decimal.NatToString | components/claims-agent-dashboard.tsx:343-344 | `midpoint.toString()`: at least one digit, only digits, no leading zero, and "0" exactly for zero |
| Decimal.ParseRendered | components/claims-agent-dashboard.tsx:343-344 | reading the rendered midpoint back as a decimal numeral gives the midpoint, so the final-estimate text loses nothing |
| Decimal.RenderInjective | components/claims-agent-dashboard.tsx:343-344 | two different amounts never render as the same final-estimate text |
| Ledger.SeverityCost | components/claims-agent-dashboard.tsx:326-331 | the table ranges are positive, each min is below its max, and min+max is even for every severity |
| Ledger.SumCost | components/claims-agent-dashboard.tsx:333-340 | the summed range is ordered, and its min is positive for a non-empty list |
| Ledger.SumCostEven | components/claims-agent-dashboard.tsx:326-340 | the bounds of a summed range always add up to an even number |
| Ledger.MidpointExact | components/claims-agent-dashboard.tsx:343 | twice the midpoint of a summed range is exactly min+max, so the rounding never applies to a recalculated estimate |
| Ledger.SumCostPrefix | components/claims-agent-dashboard.tsx:336-340 | one more step of the loop adds entry k's table range to the sum of the first k entries |
| Ledger.RoundHalf | components/claims-agent-dashboard.tsx:343 | `Math.round(n / 2)` on an integer: the nearest integer to n/2, halves rounded up, and exactly n/2 when n is even |
| Ledger.Midpoint | components/claims-agent-dashboard.tsx:343 | the midpoint is non-negative for a non-negative range and is exactly half of min+max when that is even |
| Ledger.WithSeverity | components/claims-agent-dashboard.tsx:283-285 | the edited list keeps its length; entry i takes the new severity and is marked edited, its label and confidence are kept, and every other entry is unchanged |
| Ledger.WithKind | components/claims-agent-dashboard.tsx:301-303 | the edited list keeps its length; entry i takes the new label and is marked edited, its severity and confidence are kept, and every other entry is unchanged |
| Ledger.SeverityName | components/claims-agent-dashboard.tsx:44 | each severity is spelled as a capitalized word of at least five letters, as the selector and the edit details show it |
| Ledger.SeverityNameInjective | components/claims-agent-dashboard.tsx:44 | the four severity spellings are pairwise distinct, so an edit entry's details name the new severity unambiguously |
| Ledger.WithoutIndex | components/claims-agent-dashboard.tsx:319 | the index filter never makes the list longer (what it keeps is stated by `Ledger.WithoutIndexSpec`) |
| Ledger.Seed | components/claims-agent-dashboard.tsx:72-77 | the four entries of the automated assessment, which the re-run (lines 263-268) restores: none is marked edited and every confidence is a percentage |
| Ledger.NewDamage | components/claims-agent-dashboard.tsx:362-368 | the default entry is marked edited, has confidence 0, and costs the Minor range (200, 500) |
| Ledger.WithoutIndexSpec | components/claims-agent-dashboard.tsx:319 | the index filter drops exactly position i when 0 <= i < length, keeping the rest in order, and returns the list unchanged for any other i |
| Ledger.SumCostAppend | components/claims-agent-dashboard.tsx:336-340 | appending an entry adds its table range to the sum |
| Ledger.SumCostConcat | components/claims-agent-dashboard.tsx:336-340 | the sum over a concatenation is the sum of the two sums |
| Ledger.SumCostSwapHalves | components/claims-agent-dashboard.tsx:336-340 | swapping the two halves of a list does not change its cost |
| Ledger.SumCostPermutation | components/claims-agent-dashboard.tsx:336-340 | any two lists that are permutations of each other (equal multisets) cost the same: the order of the list never matters |
| Ledger.SumCostRemove | components/claims-agent-dashboard.tsx:336-340 | the sum over a list is the sum without position i plus that entry's table range |
| Ledger.SumCostReplace | components/claims-agent-dashboard.tsx:336-340 | replacing entry i trades its table range for the new entry's |
| Ledger.SeverityEditCost | components/claims-agent-dashboard.tsx:282-288 | a severity edit moves the cost by exactly the difference between the old and new severities' ranges |
| Ledger.KindEditCost | components/claims-agent-dashboard.tsx:300-306 | a type edit leaves the cost unchanged |
| Ledger.AddNewDamageCost | components/claims-agent-dashboard.tsx:362-372 | appending the default entry raises the cost by the Minor range, (200, 500) |
| Ledger.RemoveCost | components/claims-agent-dashboard.tsx:318-322 | removing an existing entry lowers the cost by exactly that entry's range; an index outside the list leaves the cost as it was |
| Ledger.SeedCost | components/claims-agent-dashboard.tsx:72-77 | the seed list (Moderate, Minor, Major, Minor) costs (2100, 4700), with midpoint 3400 |
| Ledger.SeedWithoutMajorCost | components/claims-agent-dashboard.tsx:318-323 | removing the Major entry (position 2) from the seed list leaves (900, 2200) |
| Status.StatusName | components/claims-agent-dashboard.tsx:49 | each status is spelled as a non-empty word of upper-case letters and underscores, as its string-literal type spells it |
| Status.StatusMessage | components/claims-agent-dashboard.tsx:123-136 | every status has a non-empty fixed message, the text a change to it shows and records (pairwise distinct by `Status.StatusMessageInjective`) |
| Status.StatusMessageInjective | components/claims-agent-dashboard.tsx:123-136 | each status has its own fixed message, so a history entry's message identifies its status |
| Status.StatusNameInjective | components/claims-agent-dashboard.tsx:49 | the four status spellings are pairwise distinct |
| Status.StatusBadge | components/claims-agent-dashboard.tsx:213-240 | the badge variant is secondary exactly for UNDER_REVIEW and PENDING, default exactly for APPROVED, and outline exactly for CLOSED |
| Status.BadgeLabelInjective | components/claims-agent-dashboard.tsx:213-240 | no two statuses share a badge label, so the label tells the status apart even where the variant does not |
| Status.ChronologicalMeans | components/claims-agent-dashboard.tsx:139-144 | in a chronological history every entry is no later than the clock, and any earlier entry is no later than any later one |
| Status.ChronologicalLater | components/claims-agent-dashboard.tsx:141 | a clock that moves forward keeps a history chronological |
| Status.AppendKeepsChronological | components/claims-agent-dashboard.tsx:139-144 | appending the entry of a status change stamped no earlier than the clock keeps the history chronological |
| Audit.Action | components/claims-agent-dashboard.tsx:150 | an action starts with "Status Changed to " exactly when its entry records a status change; no other action text starts that way |
| Audit.Details | components/claims-agent-dashboard.tsx:288-314 | the details of a severity edit and of a type edit always end with " (will train automated system)" |
| Audit.User | components/claims-agent-dashboard.tsx:93-108 | every entry is the agent's, "Agent A-4782", except the automated assessment's, which is "System" |
| Audit.AiUsed | components/claims-agent-dashboard.tsx:271-277 | automated involvement is flagged exactly on the generated and the re-run assessment, and never on a status change or an edit |
| Audit.StatusChangeTexts | components/claims-agent-dashboard.tsx:148-154 | a status-change entry's action is "Status Changed to " followed by the status's name, and its details are the status's message |
| Audit.StatusChangeActionInjective | components/claims-agent-dashboard.tsx:150 | two status-change actions are equal exactly when the statuses are |
| Audit.StatusChangeDetailsInjective | components/claims-agent-dashboard.tsx:123-153 | two status-change details are equal exactly when the statuses are |
| Audit.InitialAudit | components/claims-agent-dashboard.tsx:93-108 | the log starts with two entries, oldest first: the generated assessment five minutes (-300000 ms) before opening, then the claim opening three minutes (-180000 ms) before |
| Audit.InitialAuditTexts | components/claims-agent-dashboard.tsx:93-108 | the initial assessment is by "System" and flagged as automated; the claim opening is by the agent and not flagged |
| Audit.InitialAuditOrdered | components/claims-agent-dashboard.tsx:93-108 | the first log has the ordered shape for any clock no earlier than the claim opening: the initial pair with no handler entries in front |
| Audit.AuditOrderedMeans | components/claims-agent-dashboard.tsx:93-108 | an ordered log ends with the two initial entries, no entry is later than the clock, and every handler's entry in front of them is no earlier than any entry after it, the initial pair included (newest first) |
| Audit.AuditOrderedLater | components/claims-agent-dashboard.tsx:149 | a clock that moves forward keeps the log ordered |
| Audit.PrependKeepsOrdered | components/claims-agent-dashboard.tsx:155 | prepending an entry stamped no earlier than the clock keeps the log ordered, with that entry as the newest |
| Confidence.ClampConfidence | components/claims-agent-dashboard.tsx:776 | the result is in 0..100; it is 0 for non-numeric input and for negatives, 100 above 100, and the typed value inside the range |
| Confidence.ClampIdempotent | components/claims-agent-dashboard.tsx:776 | clamping a clamped value changes nothing |
| Confidence.ClampMonotone | components/claims-agent-dashboard.tsx:776 | clamping preserves the order of two typed numbers |
| Confidence.LevelOf | components/claims-agent-dashboard.tsx:784-788 | High exactly from 90 up, Moderate exactly from 75 to 89, and Low exactly below 75 |
| Confidence.LevelText | components/claims-agent-dashboard.tsx:784-788 | each reading opens with its level's name: "H" exactly for High, "M" exactly for Moderate and "L" exactly for Low, so the three readings differ |
| Confidence.LevelMonotone | components/claims-agent-dashboard.tsx:784-788 | a higher score never reads as a lower level |
| Confidence.InitialLevel | components/claims-agent-dashboard.tsx:78 | the initial score of 92 reads "High confidence - assessment is reliable" |
| ClaimsDashboard.Dashboard.constructor | components/claims-agent-dashboard.tsx:66-118 | the initial state: range (2800, 3500), estimate "3150", the seed list, confidence 92, one UNDER_REVIEW history entry and the two-entry initial log; the state is valid, and its range is not the list's sum |
| Audit.StatusStepOrdered | components/claims-agent-dashboard.tsx:139-155 | a status change stamped after the clock keeps the extended history chronological and the extended log ordered |
| ClaimsDashboard.Dashboard.CostMatches | components/claims-agent-dashboard.tsx:333-344 | whenever the range is the list's sum and the estimate its rendered midpoint, twice that midpoint is exactly min+max, and a non-empty list has a positive, ordered range |
| ClaimsDashboard.Dashboard.Now | components/claims-agent-dashboard.tsx:141 | every stamp a handler takes is one tick after the previous clock, and taking it keeps the state valid |
| ClaimsDashboard.Dashboard.ChangeStatusFrom | components/claims-agent-dashboard.tsx:120-159 | the body of `changeStatus` as a closure runs it: the new history is the captured history plus one entry for s, and the new log is one status-change entry before the captured log; the state stays valid |
| ClaimsDashboard.Dashboard.ChangeStatus | components/claims-agent-dashboard.tsx:120-159 | from any status, with no legality check: the status becomes s, exactly one history entry for s is appended, exactly one status-change entry is prepended, the notice shows s's message, which is also the new history entry's message and the new log entry's details, the log entry's action starts with "Status Changed to ", the clock advances by one, and the damage list and costs are untouched |
| ClaimsDashboard.Dashboard.SubmitForApprovalAsWritten | components/claims-agent-dashboard.tsx:161-173 | the cascade as the code runs it: the status ends CLOSED, but the history gains only the CLOSED entry and the log only its status-change entry |
| ClaimsDashboard.Dashboard.SubmitForApproval | components/claims-agent-dashboard.tsx:161-173 | the cascade as intended: the history gains PENDING, APPROVED and CLOSED entries in that order at increasing times, the log gains their three entries newest first, and the status ends CLOSED |
| ClaimsDashboard.Dashboard.Approve | components/claims-agent-dashboard.tsx:175-177 | one status change to APPROVED |
| ClaimsDashboard.Dashboard.SendRepairAuthorization | components/claims-agent-dashboard.tsx:179-181 | one status change to CLOSED |
| ClaimsDashboard.Dashboard.DownloadRepairAuthorization | components/claims-agent-dashboard.tsx:203-210 | exactly one "RA Downloaded" entry is prepended to the log; only the log and the clock change |
| ClaimsDashboard.Dashboard.RecalculateCost | components/claims-agent-dashboard.tsx:325-345 | after the loop the range is the table summed over the list and the final estimate is the rendered midpoint (exact by `Ledger.MidpointExact`) |
| ClaimsDashboard.Dashboard.UpdateDamageSeverity | components/claims-agent-dashboard.tsx:282-298 | the list becomes `WithSeverity` of the old list, feedback is flagged, the range is the new list's sum and the estimate its midpoint, and exactly one "Damage Assessment Edited" entry naming the severity and the entry's label is prepended |
| ClaimsDashboard.Dashboard.UpdateDamageType | components/claims-agent-dashboard.tsx:300-316 | the list becomes `WithKind` of the old list, feedback is flagged, the range is the new list's sum and the estimate its midpoint, and exactly one "Damage Type Edited" entry naming the label is prepended |
| ClaimsDashboard.Dashboard.RemoveDamage | components/claims-agent-dashboard.tsx:318-323 | the list becomes the old list filtered at the index (any integer), feedback is flagged, the range and estimate are recomputed, and the log is left unchanged |
| ClaimsDashboard.Dashboard.AddNewDamage | components/claims-agent-dashboard.tsx:362-373 | the list becomes the old list plus the default entry ("New Damage", Minor, 0, edited) at the end, feedback is flagged, and the range and estimate are recomputed |
| ClaimsDashboard.Dashboard.RerunAssessment | components/claims-agent-dashboard.tsx:251-279 | the list becomes the seed list, feedback is cleared, analysis is marked done and stamped, exactly one automated re-run entry is prepended, and the range and final estimate are left as they were |
| ClaimsDashboard.Dashboard.SetFinalEstimate | components/claims-agent-dashboard.tsx:816 | the typed text becomes the final estimate as it is |
| ClaimsDashboard.Dashboard.SetOverallConfidence | components/claims-agent-dashboard.tsx:775-778 | the overall confidence becomes the clamp of the typed value, and feedback is flagged |

## Left out

- Rendering, CSS classes, icons, dialogs and tooltips, including `getSeverityColor`, are
  presentation. The badge keeps only its variant and label.
- Timers are collapsed into discrete steps:
  - the 2-second re-run delay;
  - the 3-second and 3-second cascade delays;
  - the 5-second auto-hide of the status notice.

  The model does not say when the notice disappears.
- Wall-clock time and locale formatting are replaced by the clock counter. The assessment
  time is that counter, not a formatted string. The two initial audit entries are stamped
  five and three minutes (in milliseconds) before time 0.
- `Number.parseInt` is a library parser. Its outcome is the input `Confidence.Parsed`,
  either a number or "not a number".
- `Math.round` is modelled on integers only, by `Ledger.RoundHalf`. Floats are not
  modelled. The sum it rounds is always even.
- The repair-authorization download is blob, object-URL and DOM-anchor I/O. Only the audit
  entry it prepends is modelled; the generated document text is not.
- Image upload is browser file I/O. It appends the new image references to the uploaded
  images and starts a re-run; the re-run is modelled, the image list is not.
- The uploaded image references and the agent's free-text notes are display-only state
  variables that no modelled handler reads; they are not fields of the model.
- ClaimsDashboard.Dashboard.UpdateDamageSeverity: the source writes the new severity into
  the record object that the previous list shares, so the old state's record changes too.
  The model treats records as values and does not capture this aliasing. The source's
  out-of-range index throws; the model requires an index inside the list.
- ClaimsDashboard.Dashboard.UpdateDamageType: the same in-place aliasing and the same
  index precondition.
- ClaimsDashboard.Dashboard.RerunAssessment: the delayed callback prepends its entry to the
  log captured when the re-run started. The model runs the re-run atomically, so it keeps
  entries written during the 2-second delay, and the source would lose them.
- ClaimsDashboard.Dashboard.SubmitForApprovalAsWritten: the model runs the three steps
  back to back. In the source, the agent can still edit, add, remove, re-run or set the
  confidence during the 3-second and 6-second windows, since those controls do not depend
  on the status. The APPROVED and CLOSED steps rebuild the log from the captured snapshot,
  so the source also drops the audit entries those handlers wrote in between. The model
  does not run handlers inside the cascade and so does not show this further loss.
  `ChangeStatusFrom` is the shape of one delayed step over a captured snapshot.
- The history message, the latest-notice text and the audit texts are derived from the
  stored status or event rather than stored. This is equivalent, since the view only ever
  stores those fixed texts.

## Findings

| source | as written | input that shows it | evidently intended | confidence | as-written member | corrected member |
|---|---|---|---|---|---|---|
| components/claims-agent-dashboard.tsx:161-173 | the two delayed callbacks call the `changeStatus` of the render in which "Submit for Approval" was pressed, so each step rebuilds history and audit log from that render's `statusHistory` and `auditLog` (lines 144, 155) | submitting from a history of one UNDER_REVIEW entry ends with a history of two entries, UNDER_REVIEW and CLOSED; the PENDING and APPROVED entries and their audit entries are lost, as is any audit entry another handler writes during the two 3-second waits | the history gains PENDING, APPROVED and CLOSED entries in turn, and the log gains their three entries | high, not executed | ClaimsDashboard.Dashboard.SubmitForApprovalAsWritten | ClaimsDashboard.Dashboard.SubmitForApproval |
