/**
 * The reporter component's state: the report list, the form being filled in,
 * the photos captured for it, and a log of the side effects it produced.
 */
module Reporter {
  import opened Report
  import opened Queue
  import opened Sync

  class DisasterReporter {
    var reports: seq<Report>
    var form: Form
    var photos: seq<string>
    /** Delivery-service calls, toasts and notifications, oldest first. */
    ghost var events: seq<Event>

    ghost predicate Valid()
      reads this
    {
      WellFormed(reports)
    }

    /**
     * Starts from the list saved by an earlier session (empty when nothing was
     * saved); that list was written from this component's own state.
     */
    constructor (saved: seq<Report>)
      requires WellFormed(saved)
      ensures Valid()
      ensures reports == saved && form == EmptyForm && photos == [] && events == []
    {
      reports := saved;
      form := EmptyForm;
      photos := [];
      events := [];
    }

    /** The form's fields as the user edited them. */
    method EditForm(f: Form)
      modifies this
      ensures form == f
      ensures reports == old(reports) && photos == old(photos) && events == old(events)
    {
      form := f;
    }

    /** Appends a captured or uploaded photo. */
    method AddPhoto(photo: string)
      modifies this
      ensures photos == old(photos) + [photo]
      ensures reports == old(reports) && form == old(form) && events == old(events)
    {
      photos := photos + [photo];
    }

    /** Drops the photo at `idx`; an index outside the list drops nothing. */
    method RemovePhoto(idx: int)
      modifies this
      ensures photos == RemoveAt(old(photos), idx)
      ensures 0 <= idx < |old(photos)| ==> |photos| == |old(photos)| - 1
      ensures reports == old(reports) && form == old(form) && events == old(events)
    {
      photos := RemoveAt(photos, idx);
    }

    /**
     * Submits the form. With a required field empty nothing changes but a toast.
     * Otherwise a new pending report goes to the front of the list, the form and
     * photos are cleared, and, online outside data-saver mode, one immediate
     * delivery is attempted whose result is `delivered`: a success marks the new
     * report sent, a failure leaves it pending with its count untouched.
     */
    method Submit(freshId: string, position: Option<Coords>, timestamp: int, online: bool, saveData: bool, delivered: bool)
      returns (queued: bool)
      requires Valid()
      requires freshId !in Ids(reports)
      modifies this
      ensures Valid()
      ensures queued <==> !MissingField(old(form))
      ensures !queued ==> reports == old(reports) && form == old(form) && photos == old(photos)
      ensures !queued ==> events == old(events) + [ToastMissingFields]
      ensures queued ==> form == EmptyForm && photos == []
      ensures queued ==> reports == Submitted(old(reports), NewReport(freshId, old(form), old(photos), position, timestamp),
                                              ImmediateAttempt(online, saveData), delivered)
      ensures queued ==> reports[1..] == old(reports)
      ensures queued ==> events == old(events) + SubmitEvents(freshId, online, saveData, delivered)
    {
      if MissingField(form) {
        events := events + [ToastMissingFields];
        return false;
      }
      var report := NewReport(freshId, form, photos, position, timestamp);
      ghost var before := reports;
      reports := [report] + reports;
      form := EmptyForm;
      photos := [];
      if ImmediateAttempt(online, saveData) {
        events := events + [Send(report.id)];
        if delivered {
          reports := ApplyOutcome(reports, report.id, true);
          events := events + [ToastSubmitted];
        } else {
          events := events + [ToastSavedForRetry];
        }
      } else if online {
        events := events + [ToastSavedDataSaver];
      } else {
        events := events + [ToastSavedOffline];
      }
      SubmittedKeepsList(before, report, ImmediateAttempt(online, saveData), delivered);
      SubmittedWellFormed(before, report, ImmediateAttempt(online, saveData), delivered);
      queued := true;
    }

    /**
     * Attempts the reports of the snapshot `pending` one at a time, in order;
     * `outcomes[k]` is the result of the k-th attempt. Each outcome is applied
     * by id to the list as it is at that moment, and its toasts and
     * notifications follow the outcome and the snapshot's own count.
     */
    method AttemptEach(pending: seq<Report>, outcomes: seq<bool>, notificationsEnabled: bool)
      requires |outcomes| == |pending|
      modifies this`reports, this`events
      ensures reports == Run(old(reports), pending, outcomes)
      ensures events == old(events) + SweepEvents(pending, outcomes, notificationsEnabled)
    {
      var i := 0;
      while i < |pending|
        invariant 0 <= i <= |pending|
        invariant Run(reports, pending[i..], outcomes[i..]) == Run(old(reports), pending, outcomes)
        invariant events + SweepEvents(pending[i..], outcomes[i..], notificationsEnabled)
               == old(events) + SweepEvents(pending, outcomes, notificationsEnabled)
      {
        SweepStep(reports, old(reports), events, old(events), pending, outcomes, notificationsEnabled, i);
        reports := ApplyOutcome(reports, pending[i].id, outcomes[i]);
        events := events + AttemptEvents(pending[i], outcomes[i], notificationsEnabled);
        i := i + 1;
      }
      assert pending[i..] == [] && outcomes[i..] == [];
    }

    /**
     * One sync sweep: the reports pending at its start, in list order, are
     * attempted one after the other. With unique ids this settles each pending
     * report once, with its own outcome, and leaves sent and failed reports alone.
     */
    method Sweep(outcomes: seq<bool>, notificationsEnabled: bool)
      requires Valid()
      requires |outcomes| == PendingCount(reports)
      modifies this
      ensures Valid()
      ensures reports == Run(old(reports), PendingReports(old(reports)), outcomes)
      ensures reports == Swept(old(reports), outcomes)
      ensures PendingCount(reports) <= PendingCount(old(reports))
      ensures events == old(events) + SweepEvents(PendingReports(old(reports)), outcomes, notificationsEnabled)
      ensures Attempts(events[|old(events)|..]) == Ids(PendingReports(old(reports)))
      ensures form == old(form) && photos == old(photos)
    {
      ghost var start := reports;
      ghost var logged := events;
      var pending := PendingReports(reports);
      AttemptEach(pending, outcomes, notificationsEnabled);
      SweepMatchesReference(start, outcomes);
      SweptWellFormed(start, outcomes);
      SweptPendingCount(start, outcomes);
      SweepCallsInOrder(pending, outcomes, notificationsEnabled);
      assert events[|logged|..] == SweepEvents(pending, outcomes, notificationsEnabled);
    }
  }
}
