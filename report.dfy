/**
 * One disaster report, its delivery state, and what a single delivery attempt
 * does to it and reports about it.
 */
module Report {

  datatype Option<T> = None | Some(value: T)

  /** Delivery state of a report: `pending | sent | failed`. */
  datatype Status = Pending | Sent | Failed

  /** Coordinates as the geolocation service hands them over. */
  datatype Coords = Coords(latitude: real, longitude: real)

  /** Where the report was made; the address is a fixed label. */
  datatype Location = Location(latitude: real, longitude: real, address: string)

  /** The three required text fields of the submission form. */
  datatype Form = Form(kind: string, severity: string, description: string)

  /**
   * A queued report. `kind` is the incident type; photos are data URLs;
   * `timestamp` is milliseconds since the epoch.
   */
  datatype Report = Report(
    id: string,
    kind: string,
    severity: string,
    description: string,
    photos: seq<string>,
    location: Location,
    timestamp: int,
    status: Status,
    retryCount: nat)

  /**
   * User-visible side effects, in the order they happen: one `Send` per call of
   * the (simulated) delivery service, toasts, and system notifications.
   */
  datatype Event =
    | Send(reportId: string)
    | ToastMissingFields
    | ToastSubmitted
    | ToastSavedForRetry
    | ToastSavedDataSaver
    | ToastSavedOffline
    | NotifySynced(reportKind: string)
    | ToastSynced(reportKind: string)
    | NotifySyncFailed(reportKind: string)
    | ToastSyncFailed(reportKind: string)

  const EmptyForm := Form("", "", "")

  /** The fixed address label stored with every new report. */
  const CapturedAddress := "Location captured"

  /** A delivery failure whose prior count is at least this makes the report `Failed`. */
  const RetryLimit: nat := 3

  /** True when one of the required form fields is empty. */
  predicate MissingField(f: Form)
  {
    f.kind == "" || f.severity == "" || f.description == ""
  }

  /** Location of a new report: the current position, or (0, 0) when there is none. */
  function CapturedLocation(position: Option<Coords>): (loc: Location)
    ensures loc.address == CapturedAddress
    ensures position.None? ==> loc.latitude == 0.0 && loc.longitude == 0.0
    ensures position.Some? ==> loc.latitude == position.value.latitude && loc.longitude == position.value.longitude
  {
    match position
    case None => Location(0.0, 0.0, CapturedAddress)
    case Some(c) => Location(c.latitude, c.longitude, CapturedAddress)
  }

  /** The record built from the form, the photos and the position at submission. */
  function NewReport(id: string, f: Form, photos: seq<string>, position: Option<Coords>, timestamp: int): (r: Report)
    ensures r.status == Pending && r.retryCount == 0
    ensures r.id == id && r.photos == photos && r.timestamp == timestamp
    ensures r.kind == f.kind && r.severity == f.severity && r.description == f.description
    ensures r.location.address == CapturedAddress
  {
    Report(id, f.kind, f.severity, f.description, photos, CapturedLocation(position), timestamp, Pending, 0)
  }

  /** Same record apart from `status` and `retryCount`. */
  predicate SamePayload(a: Report, b: Report)
  {
    a.(status := b.status, retryCount := b.retryCount) == b
  }

  /**
   * The update one delivery outcome makes to the report it was for: a success
   * marks it `Sent`; a failure bumps the count and marks it `Failed` when the
   * count BEFORE the bump had already reached the limit.
   */
  function Settle(r: Report, delivered: bool): (s: Report)
    ensures SamePayload(r, s)
    ensures delivered ==> s.status == Sent && s.retryCount == r.retryCount
    ensures !delivered ==> s.retryCount == r.retryCount + 1
    ensures !delivered ==> (s.status == Failed <==> r.retryCount >= RetryLimit)
    ensures !delivered ==> (s.status == Pending <==> r.retryCount < RetryLimit)
  {
    if delivered then r.(status := Sent)
    else r.(retryCount := r.retryCount + 1, status := if r.retryCount >= RetryLimit then Failed else Pending)
  }

  /**
   * Side effects of one attempt in a sync sweep for the report `r` as it was
   * when the sweep started: the call to the delivery service, then on success
   * an optional notification and a toast, on a failure whose prior count had
   * reached the limit an optional notification and a toast, otherwise nothing.
   */
  function AttemptEvents(r: Report, delivered: bool, notificationsEnabled: bool): (es: seq<Event>)
    ensures |es| >= 1 && es[0] == Send(r.id)
    ensures forall k :: 1 <= k < |es| ==> !es[k].Send?
    ensures ToastSynced(r.kind) in es <==> delivered
    ensures NotifySynced(r.kind) in es <==> delivered && notificationsEnabled
    ensures ToastSyncFailed(r.kind) in es <==> Settle(r, delivered).status == Failed
    ensures NotifySyncFailed(r.kind) in es <==> Settle(r, delivered).status == Failed && notificationsEnabled
    ensures |es| == 1 + (if delivered || r.retryCount >= RetryLimit then (if notificationsEnabled then 2 else 1) else 0)
    ensures |es| > 1 ==> es[|es| - 1] == (if delivered then ToastSynced(r.kind) else ToastSyncFailed(r.kind))
    ensures |es| == 3 ==> es[1] == (if delivered then NotifySynced(r.kind) else NotifySyncFailed(r.kind))
  {
    var notice := if delivered then NotifySynced(r.kind) else NotifySyncFailed(r.kind);
    var toast := if delivered then ToastSynced(r.kind) else ToastSyncFailed(r.kind);
    var outcome := if notificationsEnabled then [notice, toast] else [toast];
    if delivered || r.retryCount >= RetryLimit then [Send(r.id)] + outcome else [Send(r.id)]
  }

  /**
   * The failure update applied to a report the success update has just marked
   * `Sent`, as happens when the success notification throws inside the same
   * `try`: a report below the limit goes back to `Pending` with one more
   * failure counted, and one at the limit turns `Failed`.
   */
  lemma NotificationThrowUndoesDelivery(r: Report)
    requires r.status == Pending
    ensures Settle(Settle(r, true), false).retryCount == r.retryCount + 1
    ensures Settle(Settle(r, true), false).status == (if r.retryCount < RetryLimit then Pending else Failed)
    ensures SamePayload(r, Settle(Settle(r, true), false))
  {
  }

  /** Submission attempts an immediate delivery only online and outside data-saver mode. */
  predicate ImmediateAttempt(online: bool, saveData: bool)
  {
    online && !saveData
  }

  /**
   * Side effects of a valid submission: with an immediate attempt, the call to
   * the delivery service and a toast for its outcome; without one, a toast
   * saying why the report was only saved.
   */
  function SubmitEvents(id: string, online: bool, saveData: bool, delivered: bool): (es: seq<Event>)
    ensures Send(id) in es <==> ImmediateAttempt(online, saveData)
    ensures ToastSubmitted in es <==> ImmediateAttempt(online, saveData) && delivered
    ensures ToastSavedForRetry in es <==> ImmediateAttempt(online, saveData) && !delivered
    ensures ToastSavedDataSaver in es <==> online && saveData
    ensures ToastSavedOffline in es <==> !online
    ensures |es| == if ImmediateAttempt(online, saveData) then 2 else 1
    ensures ImmediateAttempt(online, saveData) ==> es[0] == Send(id)
    ensures forall k :: 0 <= k < |es| ==> !es[k].NotifySynced? && !es[k].NotifySyncFailed?
  {
    if ImmediateAttempt(online, saveData) then [Send(id), if delivered then ToastSubmitted else ToastSavedForRetry]
    else if online then [ToastSavedDataSaver]
    else [ToastSavedOffline]
  }

  /**
   * The report after it failed in `k` sweeps in a row; a sweep only attempts
   * reports that are still pending, so a report that left `Pending` stays as it is.
   */
  function AfterFailures(r: Report, k: nat): Report
    decreases k
  {
    if k == 0 || r.status != Pending then r else AfterFailures(Settle(r, false), k - 1)
  }

  /**
   * A pending report whose count is at most the limit keeps failing into
   * `Pending` until its count reaches 4, and turns `Failed` on the failure that
   * takes it there: a new report is `Failed` only after its fourth failure.
   */
  lemma {:induction false} FailuresUntilTerminal(r: Report, k: nat)
    requires r.status == Pending && r.retryCount <= RetryLimit
    ensures AfterFailures(r, k).retryCount == if r.retryCount + k <= RetryLimit + 1 then r.retryCount + k else RetryLimit + 1
    ensures AfterFailures(r, k).status == (if r.retryCount + k > RetryLimit then Failed else Pending)
    ensures SamePayload(r, AfterFailures(r, k))
    decreases k
  {
    if k > 0 {
      var s := Settle(r, false);
      if r.retryCount < RetryLimit {
        FailuresUntilTerminal(s, k - 1);
      }
    }
  }
}
