/**
 * The report list as a value: the per-id update a delivery outcome makes,
 * the pending filter and its count, the prepend done on submission, the
 * auto-sync guard and the photo-removal filter.
 */
module Queue {
  import opened Report

  /** The ids of the reports, in list order. */
  function Ids(rs: seq<Report>): (ids: seq<string>)
    ensures |ids| == |rs|
    ensures forall i :: 0 <= i < |rs| ==> ids[i] == rs[i].id
  {
    if rs == [] then [] else [rs[0].id] + Ids(rs[1..])
  }

  /** No two reports in the list share an id. */
  predicate UniqueIds(rs: seq<Report>)
  {
    forall i, j :: 0 <= i < j < |rs| ==> rs[i].id != rs[j].id
  }

  /**
   * The retry bounds the delivery rules keep: a `Failed` report has failed more
   * than `RetryLimit` times, a `Pending` one at most `RetryLimit` times.
   */
  predicate RetryBounds(rs: seq<Report>)
  {
    forall i :: 0 <= i < |rs| ==>
      (rs[i].status == Failed ==> rs[i].retryCount > RetryLimit) &&
      (rs[i].status == Pending ==> rs[i].retryCount <= RetryLimit)
  }

  /** The invariant of the stored list. */
  predicate WellFormed(rs: seq<Report>)
  {
    UniqueIds(rs) && RetryBounds(rs)
  }

  /** The reports whose status is `Pending`, in list order. */
  function PendingReports(rs: seq<Report>): (p: seq<Report>)
    ensures |p| <= |rs|
    ensures forall x :: x in p <==> x in rs && x.status == Pending
  {
    if rs == [] then []
    else (if rs[0].status == Pending then [rs[0]] else []) + PendingReports(rs[1..])
  }

  /** Number of reports still waiting for delivery. */
  function PendingCount(rs: seq<Report>): nat
  {
    |PendingReports(rs)|
  }

  /** The pending filter distributes over concatenation, so it keeps list order. */
  lemma {:induction false} PendingAppend(a: seq<Report>, b: seq<Report>)
    ensures PendingReports(a + b) == PendingReports(a) + PendingReports(b)
  {
    if a != [] {
      var head := if a[0].status == Pending then [a[0]] else [];
      assert (a + b)[0] == a[0] && (a + b)[1..] == a[1..] + b;
      PendingAppend(a[1..], b);
      assert PendingReports(a + b) == head + PendingReports(a[1..] + b);
      assert PendingReports(a) == head + PendingReports(a[1..]);
    } else {
      assert a + b == b;
    }
  }

  /** Positions below `n` that hold a pending report. */
  function PendingIndices(rs: seq<Report>, n: nat): set<nat>
    requires n <= |rs|
  {
    set i: nat | i < n && rs[i].status == Pending
  }

  /** `pendingCount` is the number of positions in the list that hold a pending report. */
  lemma {:induction false} PendingCountIsIndexCount(rs: seq<Report>)
    ensures PendingCount(rs) == |PendingIndices(rs, |rs|)|
  {
    PendingPrefixCount(rs, |rs|);
    assert rs[..|rs|] == rs;
  }

  /** The same count for every prefix of the list. */
  lemma {:induction false} PendingPrefixCount(rs: seq<Report>, n: nat)
    requires n <= |rs|
    ensures PendingCount(rs[..n]) == |PendingIndices(rs, n)|
    decreases n
  {
    if n == 0 {
      assert PendingIndices(rs, 0) == {};
    } else {
      PendingPrefixCount(rs, n - 1);
      PendingCountSnoc(rs[..n - 1], rs[n - 1]);
      assert rs[..n] == rs[..n - 1] + [rs[n - 1]];
      PendingIndicesStep(rs, n - 1);
    }
  }

  /** Appending one report adds one to the count exactly when it is pending. */
  lemma PendingCountSnoc(a: seq<Report>, x: Report)
    ensures PendingCount(a + [x]) == PendingCount(a) + (if x.status == Pending then 1 else 0)
  {
    PendingAppend(a, [x]);
    assert [x][1..] == [];
  }

  /** Extending the range by position `m` adds `m` exactly when it holds a pending report. */
  lemma PendingIndicesStep(rs: seq<Report>, m: nat)
    requires m < |rs|
    ensures |PendingIndices(rs, m + 1)| == |PendingIndices(rs, m)| + (if rs[m].status == Pending then 1 else 0)
  {
    assert m !in PendingIndices(rs, m);
    if rs[m].status == Pending {
      assert PendingIndices(rs, m + 1) == PendingIndices(rs, m) + {m};
    } else {
      assert PendingIndices(rs, m + 1) == PendingIndices(rs, m);
    }
  }

  /** The count is zero exactly when no report in the list is pending. */
  lemma {:induction false} PendingCountZero(rs: seq<Report>)
    ensures PendingCount(rs) == 0 <==> forall i :: 0 <= i < |rs| ==> rs[i].status != Pending
  {
    if PendingCount(rs) == 0 {
      forall i | 0 <= i < |rs| ensures rs[i].status != Pending {
        assert rs[i] in rs;
      }
    } else {
      var x := PendingReports(rs)[0];
      assert x in PendingReports(rs);
      var i :| 0 <= i < |rs| && rs[i] == x;
    }
  }

  /**
   * Applies one delivery outcome to every report carrying `id`, leaving every
   * other report as it is.
   */
  function ApplyOutcome(rs: seq<Report>, id: string, delivered: bool): (r: seq<Report>)
    ensures |r| == |rs|
    ensures forall i :: 0 <= i < |rs| ==> r[i] == if rs[i].id == id then Settle(rs[i], delivered) else rs[i]
  {
    if rs == [] then []
    else [if rs[0].id == id then Settle(rs[0], delivered) else rs[0]] + ApplyOutcome(rs[1..], id, delivered)
  }

  /** An outcome for an id that is not in the list changes nothing. */
  lemma {:induction false} ApplyOutcomeAbsent(rs: seq<Report>, id: string, delivered: bool)
    requires id !in Ids(rs)
    ensures ApplyOutcome(rs, id, delivered) == rs
  {
    var r := ApplyOutcome(rs, id, delivered);
    forall i | 0 <= i < |rs| ensures r[i] == rs[i] {
      assert Ids(rs)[i] == rs[i].id;
    }
  }

  /**
   * The list after a valid submission: the new report in front of the old list,
   * then, when an immediate attempt was made and it succeeded, that report's id
   * marked `Sent`; a failed immediate attempt changes nothing.
   */
  function Submitted(rs: seq<Report>, report: Report, attempted: bool, delivered: bool): (r: seq<Report>)
    ensures |r| == |rs| + 1
    ensures r[0] == if attempted && delivered then report.(status := Sent) else report
    ensures !(attempted && delivered) ==> r[1..] == rs
  {
    if attempted && delivered then ApplyOutcome([report] + rs, report.id, true) else [report] + rs
  }

  /**
   * With a fresh id the previous list follows the new report unchanged and in
   * order, whatever the immediate attempt did.
   */
  lemma SubmittedKeepsList(rs: seq<Report>, report: Report, attempted: bool, delivered: bool)
    requires report.id !in Ids(rs)
    ensures Submitted(rs, report, attempted, delivered)[1..] == rs
    ensures Submitted(rs, report, attempted, delivered)[0].id == report.id
  {
    if attempted && delivered {
      var r := Submitted(rs, report, attempted, delivered);
      ApplyOutcomeAbsent(rs, report.id, true);
      assert ApplyOutcome([report] + rs, report.id, true) == [Settle(report, true)] + ApplyOutcome(rs, report.id, true);
    }
  }

  /** A submission with a fresh id keeps the list well formed. */
  lemma SubmittedWellFormed(rs: seq<Report>, report: Report, attempted: bool, delivered: bool)
    requires WellFormed(rs) && report.id !in Ids(rs)
    requires report.status == Pending && report.retryCount == 0
    ensures WellFormed(Submitted(rs, report, attempted, delivered))
  {
    var r := Submitted(rs, report, attempted, delivered);
    SubmittedKeepsList(rs, report, attempted, delivered);
    assert r == [r[0]] + rs;
    forall j | 1 <= j < |r| ensures r[0].id != r[j].id {
      assert Ids(rs)[j - 1] == rs[j - 1].id;
    }
  }

  /** The auto-sync effect starts a sweep when online and some report is pending. */
  function ShouldAutoSync(online: bool, rs: seq<Report>): (sync: bool)
    ensures sync <==> online && PendingCount(rs) > 0
  {
    PendingCountZero(rs);
    online && exists i :: 0 <= i < |rs| && rs[i].status == Pending
  }

  /** The photos with the one at index `idx` filtered out. */
  function RemoveAt(photos: seq<string>, idx: int): (r: seq<string>)
    ensures 0 <= idx < |photos| ==> r == photos[..idx] + photos[idx + 1..]
    ensures !(0 <= idx < |photos|) ==> r == photos
  {
    if photos == [] then []
    else
      var last := |photos| - 1;
      var front := RemoveAt(photos[..last], idx);
      assert photos == photos[..last] + [photos[last]];
      front + (if last == idx then [] else [photos[last]])
  }
}
