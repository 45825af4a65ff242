/**
 * The sync sweep as values. `Run` is what the sweep loop does: for each report
 * of the pending snapshot taken at its start, in order, apply that report's
 * delivery outcome by id to the current list. `Swept` is an independent
 * reference: one left-to-right walk that settles each pending report with the
 * next outcome. With unique ids the two agree.
 */
module Sync {
  import opened Report
  import opened Queue

  /** The list after applying `outcomes[k]` to the id of `todo[k]`, for each k in order. */
  function Run(rs: seq<Report>, todo: seq<Report>, outcomes: seq<bool>): (r: seq<Report>)
    requires |outcomes| == |todo|
    ensures |r| == |rs|
    ensures forall i :: 0 <= i < |rs| ==> SamePayload(rs[i], r[i])
    decreases |todo|
  {
    if todo == [] then rs
    else Run(ApplyOutcome(rs, todo[0].id, outcomes[0]), todo[1..], outcomes[1..])
  }

  /** The side effects of a sweep over the snapshot `todo`, attempt after attempt. */
  function SweepEvents(todo: seq<Report>, outcomes: seq<bool>, notificationsEnabled: bool): seq<Event>
    requires |outcomes| == |todo|
    decreases |todo|
  {
    if todo == [] then []
    else AttemptEvents(todo[0], outcomes[0], notificationsEnabled) + SweepEvents(todo[1..], outcomes[1..], notificationsEnabled)
  }

  /** One iteration of the sweep loop keeps both of its invariants. */
  lemma SweepStep(rs: seq<Report>, start: seq<Report>, logged: seq<Event>, logged0: seq<Event>,
                  todo: seq<Report>, outcomes: seq<bool>, notificationsEnabled: bool, i: nat)
    requires i < |todo| == |outcomes|
    requires Run(rs, todo[i..], outcomes[i..]) == Run(start, todo, outcomes)
    requires logged + SweepEvents(todo[i..], outcomes[i..], notificationsEnabled) == logged0 + SweepEvents(todo, outcomes, notificationsEnabled)
    ensures Run(ApplyOutcome(rs, todo[i].id, outcomes[i]), todo[i + 1..], outcomes[i + 1..]) == Run(start, todo, outcomes)
    ensures (logged + AttemptEvents(todo[i], outcomes[i], notificationsEnabled)) + SweepEvents(todo[i + 1..], outcomes[i + 1..], notificationsEnabled)
         == logged0 + SweepEvents(todo, outcomes, notificationsEnabled)
  {
    RunStep(rs, todo, outcomes, i);
    SweepEventsStep(todo, outcomes, notificationsEnabled, i);
  }

  /** Running the snapshot from `i` on is applying outcome `i` and running from `i + 1` on. */
  lemma RunStep(rs: seq<Report>, todo: seq<Report>, outcomes: seq<bool>, i: nat)
    requires i < |todo| == |outcomes|
    ensures Run(rs, todo[i..], outcomes[i..]) == Run(ApplyOutcome(rs, todo[i].id, outcomes[i]), todo[i + 1..], outcomes[i + 1..])
  {
    assert todo[i..][1..] == todo[i + 1..] && outcomes[i..][1..] == outcomes[i + 1..];
  }

  /** The events of the snapshot from `i` on start with those of attempt `i`. */
  lemma SweepEventsStep(todo: seq<Report>, outcomes: seq<bool>, notificationsEnabled: bool, i: nat)
    requires i < |todo| == |outcomes|
    ensures SweepEvents(todo[i..], outcomes[i..], notificationsEnabled)
         == AttemptEvents(todo[i], outcomes[i], notificationsEnabled) + SweepEvents(todo[i + 1..], outcomes[i + 1..], notificationsEnabled)
  {
    assert todo[i..][1..] == todo[i + 1..] && outcomes[i..][1..] == outcomes[i + 1..];
  }

  /**
   * Reference sweep: every pending report is settled with the next unused
   * outcome, in list order; sent and failed reports are left exactly as they are.
   */
  function Swept(rs: seq<Report>, outcomes: seq<bool>): (r: seq<Report>)
    requires |outcomes| == PendingCount(rs)
    ensures |r| == |rs|
    ensures forall i :: 0 <= i < |rs| && rs[i].status != Pending ==> r[i] == rs[i]
    ensures forall i :: 0 <= i < |rs| && rs[i].status == Pending ==>
      r[i] == Settle(rs[i], true) || r[i] == Settle(rs[i], false)
  {
    if rs == [] then []
    else if rs[0].status == Pending then [Settle(rs[0], outcomes[0])] + Swept(rs[1..], outcomes[1..])
    else [rs[0]] + Swept(rs[1..], outcomes)
  }

  /** A sweep never lowers any report's failure count. */
  lemma SweptKeepsCounts(rs: seq<Report>, outcomes: seq<bool>)
    requires |outcomes| == PendingCount(rs)
    ensures forall i :: 0 <= i < |rs| ==> Swept(rs, outcomes)[i].retryCount >= rs[i].retryCount
  {
  }

  /**
   * The pending report at index `i` is settled with the outcome whose position
   * is the number of pending reports before it: reports are attempted in list order.
   */
  lemma {:induction false} SweptInListOrder(rs: seq<Report>, outcomes: seq<bool>, i: nat)
    requires |outcomes| == PendingCount(rs)
    requires i < |rs| && rs[i].status == Pending
    ensures PendingCount(rs[..i]) < |outcomes|
    ensures Swept(rs, outcomes)[i] == Settle(rs[i], outcomes[PendingCount(rs[..i])])
  {
    if i == 0 {
      assert rs[..0] == [];
    } else {
      var tail, prefix := rs[1..], rs[..i];
      assert tail[i - 1] == rs[i];
      assert prefix[0] == rs[0] && prefix[1..] == tail[..i - 1];
      var before := PendingCount(tail[..i - 1]);
      if rs[0].status == Pending {
        SweptInListOrder(tail, outcomes[1..], i - 1);
        assert PendingCount(prefix) == 1 + before;
        assert Swept(rs, outcomes) == [Settle(rs[0], outcomes[0])] + Swept(tail, outcomes[1..]);
        assert outcomes[1..][before] == outcomes[1 + before];
      } else {
        SweptInListOrder(tail, outcomes, i - 1);
        assert PendingCount(prefix) == before;
        assert Swept(rs, outcomes) == [rs[0]] + Swept(tail, outcomes);
      }
    }
  }

  /**
   * The pending report at index `i` is the snapshot's entry at the position
   * given by the number of pending reports before it.
   */
  lemma PendingAt(rs: seq<Report>, i: nat)
    requires i < |rs| && rs[i].status == Pending
    ensures PendingCount(rs[..i]) < PendingCount(rs)
    ensures PendingReports(rs)[PendingCount(rs[..i])] == rs[i]
  {
    assert rs == rs[..i] + rs[i..];
    PendingAppend(rs[..i], rs[i..]);
    assert rs[i..][0] == rs[i];
  }

  /**
   * The terminal-failure toast of the attempt for the report at index `i`
   * appears exactly when the sweep leaves that report `Failed`, and the
   * success toast exactly when it leaves it `Sent`.
   */
  lemma SweepToastsMatchState(rs: seq<Report>, outcomes: seq<bool>, notificationsEnabled: bool, i: nat)
    requires |outcomes| == PendingCount(rs)
    requires i < |rs| && rs[i].status == Pending
    ensures var k := PendingCount(rs[..i]);
      k < |outcomes| &&
      PendingReports(rs)[k] == rs[i] &&
      ((ToastSyncFailed(rs[i].kind) in AttemptEvents(rs[i], outcomes[k], notificationsEnabled)) <==>
         Swept(rs, outcomes)[i].status == Failed) &&
      ((ToastSynced(rs[i].kind) in AttemptEvents(rs[i], outcomes[k], notificationsEnabled)) <==>
         Swept(rs, outcomes)[i].status == Sent)
  {
    PendingAt(rs, i);
    SweptInListOrder(rs, outcomes, i);
  }

  /** An id absent from a list is absent from its pending reports. */
  lemma PendingIdsWithin(rs: seq<Report>, id: string)
    requires id !in Ids(rs)
    ensures id !in Ids(PendingReports(rs))
  {
    var p := PendingReports(rs);
    forall k | 0 <= k < |p| ensures Ids(p)[k] != id {
      assert p[k] in rs;
      var j :| 0 <= j < |rs| && rs[j] == p[k];
      assert Ids(rs)[j] == p[k].id;
    }
  }

  /** Outcomes for ids other than that of the first report leave it alone. */
  lemma {:induction false} RunPrepend(x: Report, rs: seq<Report>, todo: seq<Report>, outcomes: seq<bool>)
    requires |outcomes| == |todo|
    requires x.id !in Ids(todo)
    ensures Run([x] + rs, todo, outcomes) == [x] + Run(rs, todo, outcomes)
    decreases |todo|
  {
    if todo != [] {
      var id := todo[0].id;
      assert Ids(todo)[0] == id;
      assert ApplyOutcome([x] + rs, id, outcomes[0]) == [x] + ApplyOutcome(rs, id, outcomes[0]);
      assert Ids(todo[1..]) == Ids(todo)[1..];
      RunPrepend(x, ApplyOutcome(rs, id, outcomes[0]), todo[1..], outcomes[1..]);
    }
  }

  /**
   * With unique ids the sweep loop, which re-applies each snapshot report's
   * outcome by id to the whole current list, has the same effect as the
   * reference walk.
   */
  lemma {:induction false} SweepMatchesReference(rs: seq<Report>, outcomes: seq<bool>)
    requires UniqueIds(rs)
    requires |outcomes| == PendingCount(rs)
    ensures Run(rs, PendingReports(rs), outcomes) == Swept(rs, outcomes)
  {
    if rs != [] {
      var x, tail := rs[0], rs[1..];
      assert rs == [x] + tail;
      assert UniqueIds(tail);
      forall k | 0 <= k < |tail| ensures Ids(tail)[k] != x.id {
        assert rs[k + 1] == tail[k];
      }
      PendingIdsWithin(tail, x.id);
      if x.status == Pending {
        var s := Settle(x, outcomes[0]);
        assert PendingReports(rs) == [x] + PendingReports(tail);
        assert ApplyOutcome(rs, x.id, outcomes[0]) == [s] + ApplyOutcome(tail, x.id, outcomes[0]);
        ApplyOutcomeAbsent(tail, x.id, outcomes[0]);
        RunPrepend(s, tail, PendingReports(tail), outcomes[1..]);
        SweepMatchesReference(tail, outcomes[1..]);
      } else {
        assert PendingReports(rs) == PendingReports(tail);
        RunPrepend(x, tail, PendingReports(tail), outcomes);
        SweepMatchesReference(tail, outcomes);
      }
    }
  }

  /** A sweep never increases the number of pending reports. */
  lemma {:induction false} SweptPendingCount(rs: seq<Report>, outcomes: seq<bool>)
    requires |outcomes| == PendingCount(rs)
    ensures PendingCount(Swept(rs, outcomes)) <= PendingCount(rs)
  {
    if rs != [] {
      if rs[0].status == Pending {
        SweptPendingCount(rs[1..], outcomes[1..]);
      } else {
        SweptPendingCount(rs[1..], outcomes);
      }
    }
  }

  /** When every attempt succeeds, nothing is left pending. */
  lemma {:induction false} SweptAllDelivered(rs: seq<Report>, outcomes: seq<bool>)
    requires |outcomes| == PendingCount(rs)
    requires forall k :: 0 <= k < |outcomes| ==> outcomes[k]
    ensures PendingCount(Swept(rs, outcomes)) == 0
  {
    if rs != [] {
      if rs[0].status == Pending {
        SweptAllDelivered(rs[1..], outcomes[1..]);
      } else {
        SweptAllDelivered(rs[1..], outcomes);
      }
    }
  }

  /** A sweep keeps ids unique and the retry bounds. */
  lemma SweptWellFormed(rs: seq<Report>, outcomes: seq<bool>)
    requires WellFormed(rs)
    requires |outcomes| == PendingCount(rs)
    ensures WellFormed(Swept(rs, outcomes))
  {
    var r := Swept(rs, outcomes);
    forall i | 0 <= i < |rs| ensures r[i].id == rs[i].id {}
  }

  /** The ids handed to the delivery service, in call order. */
  function Attempts(es: seq<Event>): (ids: seq<string>)
    ensures |ids| <= |es|
  {
    if es == [] then []
    else (if es[0].Send? then [es[0].reportId] else []) + Attempts(es[1..])
  }

  lemma {:induction false} AttemptsAppend(a: seq<Event>, b: seq<Event>)
    ensures Attempts(a + b) == Attempts(a) + Attempts(b)
  {
    if a == [] {
      assert a + b == b;
    } else {
      assert (a + b)[0] == a[0] && (a + b)[1..] == a[1..] + b;
      AttemptsAppend(a[1..], b);
    }
  }

  /** One attempt calls the delivery service once, for its own report. */
  lemma AttemptCallsOnce(r: Report, delivered: bool, notificationsEnabled: bool)
    ensures Attempts(AttemptEvents(r, delivered, notificationsEnabled)) == [r.id]
  {
    var es := AttemptEvents(r, delivered, notificationsEnabled);
    assert es == [es[0]] + es[1..];
    AttemptsAppend([es[0]], es[1..]);
    var rest := es[1..];
    assert Attempts(rest) == [] by {
      if |rest| >= 1 {
        assert rest == [rest[0]] + rest[1..];
        if |rest| == 2 {
          assert rest[1..] == [rest[1]];
        }
      }
    }
  }

  /**
   * A sweep calls the delivery service exactly for the reports of its
   * snapshot, one call each, in the snapshot's order.
   */
  lemma {:induction false} SweepCallsInOrder(todo: seq<Report>, outcomes: seq<bool>, notificationsEnabled: bool)
    requires |outcomes| == |todo|
    ensures Attempts(SweepEvents(todo, outcomes, notificationsEnabled)) == Ids(todo)
    decreases |todo|
  {
    if todo != [] {
      AttemptsAppend(AttemptEvents(todo[0], outcomes[0], notificationsEnabled), SweepEvents(todo[1..], outcomes[1..], notificationsEnabled));
      AttemptCallsOnce(todo[0], outcomes[0], notificationsEnabled);
      SweepCallsInOrder(todo[1..], outcomes[1..], notificationsEnabled);
      assert Ids(todo) == [todo[0].id] + Ids(todo[1..]);
    }
  }

  /** A submission calls the delivery service once, for the new report, exactly when it attempts delivery. */
  lemma SubmitCallsAtMostOnce(id: string, online: bool, saveData: bool, delivered: bool)
    ensures Attempts(SubmitEvents(id, online, saveData, delivered)) == if ImmediateAttempt(online, saveData) then [id] else []
  {
    var es := SubmitEvents(id, online, saveData, delivered);
    assert es == [es[0]] + es[1..];
    AttemptsAppend([es[0]], es[1..]);
    if |es| == 2 {
      assert es[1..] == [es[1]] + [];
    }
  }
}
