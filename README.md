# Disaster report queue: a Dafny model

This project models the report queue of the `DisasterReporter` page component
(`src/app/page.tsx`). A field user fills in a form and submits an incident report.
The report is queued locally as `pending` and delivered to the authorities when the
device is online. Each report carries a delivery `status` (`pending`, `sent` or
`failed`) and a `retryCount`.

The model has four modules:

- `Report` (`report.dfy`) holds the report record, the form and the location.
  `Settle` is the update a single delivery outcome makes to one report.
  `AttemptEvents` and `SubmitEvents` give the toasts, notifications and delivery
  calls that one attempt or one submission produces.
- `Queue` (`queue.dfy`) works on the report list as a value. It covers the update
  by id, the pending filter and `pendingCount`, the prepend done on submission
  (`Submitted`), the auto-sync guard and the photo-removal filter. It also defines
  the list invariant `WellFormed`: ids are unique, a `failed` report has
  `retryCount` > 3, and a `pending` one has `retryCount` <= 3.
- `Sync` (`sync.dfy`) describes the sync sweep. `Run` is what the sweep loop does:
  it takes the snapshot of pending reports made at the start, and for each one in
  order applies its outcome by id to the current list. `Swept` is an independent
  reference: a single walk down the list that settles each pending report with the
  next outcome. The lemma `SweepMatchesReference` proves that the two agree when
  ids are unique. Further lemmas state what a sweep promises.
- `Reporter` (`reporter.dfy`) is the stateful component. It is a class with the
  fields `reports`, `form` and `photos`, plus a ghost event log.
  - `Submit` follows `handleSubmit` step by step.
  - `Sweep` takes the pending snapshot. `AttemptEach` then attempts each report in
    a loop, and its invariants tie the loop to `Run` and `SweepEvents`.

The network is simulated in the source with `Math.random`. Here the outcome of each
delivery is a parameter instead: `delivered` for the immediate attempt, and
`outcomes` for the attempts of a sweep, in order. A notification or toast is an
entry in the event log.

## Behaviour as coded

The model follows what the code does. Some of that differs from what the program's
own labels suggest, or from what a reader might expect:

- **Failure threshold.** The new status is computed from the count *before* the
  increment (`src/app/page.tsx:165`). A report therefore stays `pending` through
  its first three failures and becomes `failed` on the fourth, with
  `retryCount` = 4. The queue's "Retry attempt: n/3" label
  (`src/app/components/ReportItem.tsx:119-121`) suggests three attempts; a report
  can show "Retry attempt: 3/3" and still be pending. See `FailuresUntilTerminal`
  and `RetryBounds`.
- **Failed immediate attempt.** A failed immediate attempt on submission leaves
  `retryCount` unchanged (`src/app/page.tsx:236-238`). Only failures in a sync
  sweep are counted.
- **Order.** New reports are prepended (`src/app/page.tsx:220`) and the sweep walks
  the list from the front, so it attempts the newest pending report first.
- **Submission notifies nobody.** A submission shows a toast only
  (`src/app/page.tsx:232-244`). Of the report-delivery notifications, only the
  sweep sends any.
- **Snapshot versus current state.** The terminal-failure toast tests the
  snapshot's count (`report.retryCount`, line 170). The state update tests the
  current entry (`r.retryCount`, line 165). With unique ids the two are the same
  report, and `SweepToastsMatchState` proves that the toast and the new status
  agree.

## Model

| member | source | states |
|---|---|---|
| `Report.CapturedLocation` | src/app/page.tsx:211-215 | The report's coordinates are the current position, or (0, 0) when there is none. The address is always "Location captured". |
| `Report.NewReport` | src/app/page.tsx:205-219 | A new report is `Pending` with `retryCount` 0. It carries the given id, the form's type, severity and description, the captured photos and the timestamp. |
| `Report.Settle` | src/app/page.tsx:147-168 | A success sets only the status, to `Sent`. A failure increments `retryCount` by exactly 1. The status becomes `Failed` iff the prior count was >= 3 and stays `Pending` iff it was < 3. Every other field is unchanged. |
| `Report.NotificationThrowUndoesDelivery` | src/app/page.tsx:147-169 | If the success notification throws after the success update, the failure update runs on the entry just marked `Sent`: it gets one more failure counted and returns to `Pending` below the limit, or turns `Failed` at the limit, with its payload unchanged. |
| `Report.AttemptEvents` | src/app/page.tsx:150-179 | Each attempt makes exactly one delivery call, first. The sequence has length 1, 2 or 3: after the call, nothing on a non-terminal failure; otherwise the notification (when enabled) and then the toast. The success toast appears iff the attempt succeeded, and the success notification iff it also had notifications enabled. The terminal-failure toast appears iff the report turns `Failed`, and its notification iff notifications are also enabled. |
| `Report.SubmitEvents` | src/app/page.tsx:223-244 | A delivery call happens iff the device is online and not in save-data mode. The "submitted" toast appears iff that attempt succeeded, and "saved for retry" iff it failed. The data-saver toast appears iff online in save-data mode, and the offline toast iff offline. There are exactly two events (the call, then its toast) with an attempt and one toast without, and never a notification. |
| `Report.FailuresUntilTerminal` | src/app/page.tsx:159-169 | Take a pending report with count c <= 3. After k consecutive sweep failures it has count min(c + k, 4). It is `Failed` iff c + k > 3 and is otherwise still `Pending`, with an unchanged payload. A new report fails on its 4th failure. |
| `Queue.PendingReports` | src/app/page.tsx:137 | The filter keeps exactly the reports whose status is `Pending`, and never more reports than the list has. |
| `Queue.PendingAppend` | src/app/page.tsx:137 | The pending filter distributes over concatenation, so it keeps list order. |
| `Queue.PendingCountIsIndexCount` | src/app/page.tsx:287 | `pendingCount` equals the number of positions in the list that hold a pending report. |
| `Queue.PendingCountZero` | src/app/page.tsx:287 | `pendingCount` is 0 iff no report in the list is `Pending`. |
| `Queue.ApplyOutcome` | src/app/page.tsx:159-168 | The `map` by id gives the report with the matching id the outcome's update, and leaves every other report as it is, at the same position. The length is unchanged. |
| `Queue.ApplyOutcomeAbsent` | src/app/page.tsx:232-234 | An update for an id that no report carries leaves the list unchanged. |
| `Queue.Submitted` | src/app/page.tsx:220-238 | After a valid submit there is one more report, at index 0. It is `Sent` iff the immediate attempt was made and succeeded, and otherwise it is the new pending report. Without a success the old list follows it unchanged. |
| `Queue.SubmittedKeepsList` | src/app/page.tsx:220 | With a fresh id the previous list follows the new report unchanged and in order, whatever the immediate attempt did. |
| `Queue.SubmittedWellFormed` | src/app/page.tsx:205-220 | A submit with a fresh id keeps ids unique and keeps the retry bounds. |
| `Queue.ShouldAutoSync` | src/app/page.tsx:190 | A sweep starts iff the device is online and `pendingCount` > 0. |
| `Queue.RemoveAt` | src/app/page.tsx:195-196 | `removePhoto(idx)` removes exactly the element at `idx` and keeps the others in order. An index outside the list removes nothing. |
| `Sync.Run` | src/app/page.tsx:137-169 | Applying the snapshot's outcomes one after another keeps the list's length. Each entry keeps its payload, and so keeps its id. |
| `Sync.Swept` | src/app/page.tsx:136-182 | A sweep keeps the length. It leaves every `Sent` or `Failed` report exactly as it was, and settles every `Pending` one with a success or a failure. |
| `Sync.SweptInListOrder` | src/app/page.tsx:137-138 | The pending report at index i gets outcome number k, where k is the number of pending reports before it. Reports are attempted one at a time, in list order. |
| `Sync.PendingAt` | src/app/page.tsx:137-138 | The pending report at index i is entry k of the sweep's snapshot, where k is the number of pending reports before it. |
| `Sync.SweepToastsMatchState` | src/app/page.tsx:157-178 | Take the attempt for the pending report at index i. Its terminal-failure toast appears iff the sweep leaves that report `Failed`, and its success toast iff the sweep leaves it `Sent`. |
| `Sync.RunPrepend` | src/app/page.tsx:147-148 | Updates by id for ids other than that of a report leave that report untouched at the front of the list. |
| `Sync.SweepMatchesReference` | src/app/page.tsx:136-169 | With unique ids the sweep loop has exactly the effect of the reference walk `Swept`. |
| `Sync.SweptPendingCount` | src/app/page.tsx:137-169 | A sweep never increases `pendingCount`. |
| `Sync.SweptKeepsCounts` | src/app/page.tsx:147-169 | A sweep never lowers any report's `retryCount`. |
| `Sync.SweptAllDelivered` | src/app/page.tsx:147-149 | When every attempt of a sweep succeeds, `pendingCount` afterwards is 0. |
| `Sync.SweptWellFormed` | src/app/page.tsx:159-169 | A sweep keeps ids unique and keeps the retry bounds: `Failed` implies `retryCount` >= 4, and `Pending` implies `retryCount` <= 3. |
| `Sync.AttemptCallsOnce` | src/app/page.tsx:140-146 | One attempt calls the delivery service exactly once, for its own report. |
| `Sync.SweepCallsInOrder` | src/app/page.tsx:138-146 | A sweep calls the delivery service exactly for the ids of its snapshot, once each, in snapshot order. |
| `Sync.SubmitCallsAtMostOnce` | src/app/page.tsx:223-231 | A submission calls the delivery service exactly once, for the new report's id, when online outside save-data mode, and not at all otherwise. |
| `Sync.SweepStep` | src/app/page.tsx:138-179 | One iteration of the loop, for one update by id and its events, keeps both loop invariants. |
| `Reporter.DisasterReporter.constructor` | src/app/page.tsx:55-59 | The component starts from the saved list, with an empty form, no photos and an empty log. |
| `Reporter.DisasterReporter.EditForm` | src/app/components/ReportForm.tsx:65-67 | The form takes the edited fields. Reports, photos and the log are unchanged. |
| `Reporter.DisasterReporter.AddPhoto` | src/app/components/PhotoCapture.tsx:254 | The photo is appended. Nothing else changes. |
| `Reporter.DisasterReporter.RemovePhoto` | src/app/page.tsx:195-196 | The photos become `RemoveAt` of the old photos, one fewer when the index is in range. Nothing else changes. |
| `Reporter.DisasterReporter.Submit` | src/app/page.tsx:198-254 | If a required field is empty, only the "fill in all fields" toast is logged and nothing else changes. Otherwise the list becomes `Submitted(...)` of a new pending report with the fresh id, and the old list follows it unchanged. The form and photos are cleared, the log gains `SubmitEvents`, and the list stays well formed. |
| `Reporter.DisasterReporter.AttemptEach` | src/app/page.tsx:138-181 | The loop over the snapshot leaves the list equal to `Run` of the snapshot and outcomes. The log gains the events of every attempt, in order. |
| `Reporter.DisasterReporter.Sweep` | src/app/page.tsx:136-182 | A sweep attempts the pending snapshot, and the list equals both `Run` and the reference `Swept`. It stays well formed and `pendingCount` does not grow. The log gains `SweepEvents`, whose delivery calls are exactly the snapshot's ids in order, and the form and photos are unchanged. |

## Left out

- Persistence through `localStorage`, `JSON.parse` and `JSON.stringify` (src/app/page.tsx:55-64) is browser I/O. The constructor takes the saved list and requires it to be well formed, since only this component writes it. A corrupt or hand-edited entry is not modelled.
- The simulated network (`setTimeout`, `Math.random`, src/app/page.tsx:140-146, 225-231) is left out. Its results are the `delivered` and `outcomes` parameters, and there are no delays or timeouts.
- Ids come from `Date.now()` (src/app/page.tsx:206). `Submit` takes a fresh id as a precondition, so two submissions in the same millisecond are not modelled. The timestamp is a separate parameter, because the source reads the clock twice.
- React effect scheduling and concurrency are left out. This covers the auto-sync effect re-firing while a sweep awaits (src/app/page.tsx:185-193), overlapping sweeps, and an immediate attempt overlapping a sweep. Submit and sweep run one after the other without interleaving. `ShouldAutoSync` models only the guard.
- Network monitoring (src/app/page.tsx:66-113, NetworkAlert.tsx, NetworkStatus.tsx) is left out. `online` and `saveData` are plain booleans.
- Geolocation (src/app/page.tsx:116-127) is left out. The current position is an optional parameter, and the NaN case of `|| 0` does not arise with `real` coordinates.
- The notification permission, the Notification API wrappers and the random emergency-alert timer (src/app/page.tsx:129-134, 257-285; NotificationManager.tsx, src/lib/notifications.ts) are left out. Notifications are log entries, and the permission is the `notificationsEnabled` parameter.
- The `isSubmitting` busy flag (src/app/page.tsx:204, 253) only drives the submit button, so it is not modelled.
- All rendering components (PhotoCapture, MapView, ReportForm, ReportItem, NetworkStatus, NetworkAlert, Header, MapSection, ReportsQueue) are UI and are not part of this model. Camera and file reading are not modelled either; `AddPhoto` stands for their result.
- Reporter.DisasterReporter.EditForm: replaces the whole form at once. The form fields edit one field at a time through `setFormData`.
- Reporter.DisasterReporter.AttemptEach: the toast and notification branches of one attempt are given by the function `AttemptEvents`, not written as statements in the loop.
- Reporter.DisasterReporter.Sweep: assumes `sendNotification` never throws. It calls `new Notification(...)` without a guard (src/app/components/NotificationManager.tsx:80-105), and that constructor can throw. If the success notification throws (src/app/page.tsx:150-156), the `catch` applies the failure update to the report just marked `sent`. The delivered report then goes back to `pending` with one more failure counted, or to `failed` at the limit, and no success toast is shown. `NotificationThrowUndoesDelivery` states this single-report effect. If the terminal-failure notification throws (line 172), the exception leaves the `catch` and ends the loop, so the rest of the snapshot is not attempted. Neither path is part of `Sweep`, `Run`, `Swept` or `SweepEvents`.
- Reporter.DisasterReporter.Sweep: requires the number of outcomes to equal the number of pending reports at the start of the sweep, because the outcome sequence stands in for the network.
