/**
 Fairness of the collection scan: while no record joins the queue, none waits for
 more than one round and a call.
 */
module ScanFairness {
  import opened Outcomes
  import opened Vectors
  import opened Ordering
  import opened StoreTables
  import opened Collection
  import opened Receipts

  function Least2(a: nat, b: nat): nat { if a < b then a else b }

  // ----- Positions as indexes into the ordered queue -----------------------------------

  /** Where a call that starts at index `k` of `n` begins, after wrapping at the end. */
  function From(n: nat, k: nat): nat {
    if k == n then 0 else k
  }

  function To(n: nat, k: nat): nat {
    Least2(From(n, k) + RECORD_BATCH, n)
  }

  // ----- The batches as slices ------------------------------------------------------------

  ghost function InOrder(queue: set<RecordId>): seq<RecordId> {
    Minors(Listing(IdKeys(queue)))
  }

  /** The scan position lies just before index `k`. */
  ghost predicate At(queue: set<RecordId>, position: Option<RecordId>, k: nat) {
    var s := InOrder(queue);
    && k <= |s|
    && (position.None? ==> k == 0)
    && (position.Some? ==> (forall i | 0 <= i < k :: s[i] <= position.value) && (forall i | k <= i < |s| :: s[i] > position.value))
  }

  ghost predicate Sorted(s: seq<RecordId>) {
    forall i, j | 0 <= i < j < |s| :: s[i] < s[j]
  }

  lemma {:induction false} SortedUnique(a: seq<RecordId>, b: seq<RecordId>)
    requires Sorted(a) && Sorted(b) && forall r :: r in a <==> r in b
    ensures a == b
    decreases |a|
  {
    if a == [] {
      HasElement(b);
    } else {
      assert a[0] in b && b[0] in a;
      assert a[0] == b[0];
      forall r
        ensures r in a[1..] <==> r in b[1..]
      {
        InTail(a, r);
        InTail(b, r);
      }
      SortedUnique(a[1..], b[1..]);
      assert a == [a[0]] + a[1..] && b == [b[0]] + b[1..];
    }
  }

  lemma HasElement(b: seq<RecordId>)
    ensures b != [] ==> exists r :: r in b
  {
    if b != [] {
      assert b[0] in b;
    }
  }

  lemma InTail(a: seq<RecordId>, r: RecordId)
    requires Sorted(a) && a != []
    ensures r in a[1..] <==> r in a && r != a[0]
  {
    if r in a && r != a[0] {
      var i :| 0 <= i < |a| && a[i] == r;
      assert a[1..][i - 1] == r;
    }
  }

  lemma QueueInOrder(queue: set<RecordId>)
    ensures Sorted(InOrder(queue)) && |InOrder(queue)| == |queue|
    ensures forall r :: r in InOrder(queue) <==> r in queue
  {
    ListedInOrder(queue);
    assert forall r :: r in InOrder(queue) <==> r in Ids(InOrder(queue));
  }

  lemma RestOfListing(queue: set<RecordId>, position: Option<RecordId>, k: nat)
    requires At(queue, position, k)
    ensures InOrder(After(queue, position)) == InOrder(queue)[k..]
  {
    QueueInOrder(queue);
    QueueInOrder(After(queue, position));
    hide InOrder;
    var s, rest := InOrder(queue), InOrder(After(queue, position));
    forall r
      ensures r in s[k..] <==> r in rest
    {
      if r in rest {
        var i :| 0 <= i < |s| && s[i] == r;
        assert s[k..][i - k] == r;
      }
    }
    SortedUnique(s[k..], rest);
  }

  lemma BatchIsSlice(queue: set<RecordId>, position: Option<RecordId>, k: nat)
    requires At(queue, position, k)
    ensures RecordBatch(queue, position) == InOrder(queue)[k..Least2(k + RECORD_BATCH, |InOrder(queue)|)]
  {
    RestOfListing(queue, position, k);
    assert RecordBatch(queue, position) == Prefix(InOrder(After(queue, position)), RECORD_BATCH);
  }

  lemma StartsAt(queue: set<RecordId>)
    ensures At(queue, None, 0)
  {
  }

  lemma StopsAt(queue: set<RecordId>, k: nat)
    requires 0 < k <= |InOrder(queue)|
    ensures At(queue, Some(InOrder(queue)[k - 1]), k)
  {
    QueueInOrder(queue);
    hide InOrder;
  }

  /** One call scans the next slice of the ordered queue, wrapping once at the end. */
  lemma ScanIsSlice(queue: set<RecordId>, position: Option<RecordId>, k: nat)
    requires At(queue, position, k) && queue != {}
    ensures var n := |InOrder(queue)|;
            n > 0 && From(n, k) < To(n, k) <= n && ScanBatch(queue, position) == InOrder(queue)[From(n, k)..To(n, k)]
    ensures var n := |InOrder(queue)|; At(queue, Some(InOrder(queue)[To(n, k) - 1]), To(n, k))
  {
    QueueInOrder(queue);
    BatchIsSlice(queue, position, k);
    StartsAt(queue);
    BatchIsSlice(queue, None, 0);
    hide InOrder, RecordBatch;
    StopsAt(queue, To(|InOrder(queue)|, k));
  }

  lemma NextPosition(t: Tables)
    requires ReachesScan(t) && ScanBatch(t.barriers.Keys, t.scanAfter) != []
    ensures var batch := ScanBatch(t.barriers.Keys, t.scanAfter); CollectEligible(t).scanAfter == Some(batch[|batch| - 1])
  {
    hide ReachesScan, ScanBatch, CollectRecords;
  }

  // ----- How long a record waits ------------------------------------------------------------

  function Calls(n: nat): nat {
    (n + RECORD_BATCH - 1) / RECORD_BATCH
  }

  function UpTo(ids: set<RecordId>, record: RecordId): set<RecordId> {
    set r | r in ids && r <= record
  }

  /** The calls it takes at most until `record` is scanned: those up to it, or to the end and then up to it. */
  function Wait(queue: set<RecordId>, position: Option<RecordId>, record: RecordId): nat {
    if position.None? || position.value < record then Calls(|UpTo(After(queue, position), record)|)
    else Calls(|After(queue, position)|) + Calls(|UpTo(queue, record)|)
  }

  lemma CallsShrink(a: nat, b: nat, taken: nat)
    requires a + taken <= b && (taken == RECORD_BATCH || (0 < taken < RECORD_BATCH && a == 0))
    ensures Calls(a) + 1 <= Calls(b)
  {
  }

  lemma CallsGrow(a: nat, b: nat)
    requires a <= b
    ensures Calls(a) <= Calls(b)
  {
  }

  lemma CallsOfParts(a: nat, b: nat, n: nat)
    requires a + b <= n
    ensures Calls(a) + Calls(b) <= Calls(n) + 1
  {
  }

  lemma WaitIsBounded(queue: set<RecordId>, position: Option<RecordId>, record: RecordId)
    ensures Wait(queue, position, record) <= Calls(|queue|) + 1
  {
    if position.None? || position.value < record {
      SubsetSize(UpTo(After(queue, position), record), queue);
      CallsGrow(|UpTo(After(queue, position), record)|, |queue|);
    } else {
      var a, b := After(queue, position), UpTo(queue, record);
      SubsetSize(a + b, queue);
      assert a !! b && |a + b| == |a| + |b|;
      CallsOfParts(|a|, |b|, |queue|);
    }
  }

  lemma PrefixIsLeast(all: seq<RecordId>, rest: set<RecordId>, b: seq<RecordId>)
    requires Sorted(all) && (forall r :: r in all <==> r in rest) && b == Prefix(all, RECORD_BATCH)
    ensures Sorted(b) && Ids(b) <= rest
    ensures forall x | x in rest && x !in b :: |b| == RECORD_BATCH && x > b[|b| - 1]
  {
    assert forall k | 0 <= k < |b| :: all[k] == b[k] && all[k] in b;
    forall x | x in rest && x !in b
      ensures |b| == RECORD_BATCH && x > b[|b| - 1]
    {
      var i :| 0 <= i < |all| && all[i] == x;
      assert all[i] !in b;
    }
  }

  /** A batch holds the least of what comes after the position. */
  lemma BatchTakesLeast(queue: set<RecordId>, position: Option<RecordId>)
    ensures var b, rest := RecordBatch(queue, position), After(queue, position);
            && Ids(b) <= rest && |Ids(b)| == |b| == Least2(RECORD_BATCH, |rest|) && Sorted(b)
            && forall x | x in rest && x !in b :: |b| == RECORD_BATCH && x > b[|b| - 1]
  {
    var b, rest := RecordBatch(queue, position), After(queue, position);
    assert b == Prefix(InOrder(rest), RECORD_BATCH);
    QueueInOrder(rest);
    hide InOrder, RecordBatch, After, Sorted, Ids;
    PrefixIsLeast(InOrder(rest), rest, b);
    SortedCount(b);
  }

  lemma {:induction false} SortedCount(b: seq<RecordId>)
    requires Sorted(b)
    ensures |Ids(b)| == |b|
  {
    if b != [] {
      var rest, last := b[..|b| - 1], b[|b| - 1];
      SortedCount(rest);
      assert Ids(b) == Ids(rest) + {last};
      assert last !in Ids(rest);
    }
  }

  /** What is left after a batch was taken from the front. */
  lemma TakenAway(left: set<RecordId>, b: seq<RecordId>, all: set<RecordId>)
    requires left <= all && Ids(b) <= all && left !! Ids(b) && |Ids(b)| == |b|
    ensures |left| + |b| <= |all|
  {
    SubsetSize(left + Ids(b), all);
    assert |left + Ids(b)| == |left| + |Ids(b)|;
  }

  lemma BelowLast(b: seq<RecordId>, x: RecordId)
    requires Sorted(b) && x in b
    ensures x <= b[|b| - 1]
  {
  }

  /** A call from before the record's place that does not scan it leaves one call less to wait. */
  lemma ScanForward(queue: set<RecordId>, position: Option<RecordId>, record: RecordId, later: set<RecordId>)
    requires record in queue && later <= queue && (position.None? || position.value < record)
    requires record !in RecordBatch(queue, position)
    ensures var b := RecordBatch(queue, position);
            |b| == RECORD_BATCH && b[|b| - 1] < record && Wait(later, Some(b[|b| - 1]), record) + 1 <= Wait(queue, position, record)
  {
    var b := RecordBatch(queue, position);
    BatchTakesLeast(queue, position);
    hide RecordBatch;
    var last := b[|b| - 1];
    var before, after := UpTo(After(queue, position), record), UpTo(After(later, Some(last)), record);
    forall x | x in b
      ensures x in before && x <= last
    {
      BelowLast(b, x);
    }
    TakenAway(after, b, before);
    CallsShrink(|after|, |before|, RECORD_BATCH);
  }

  /** A call from at or past the record's place goes on to the end of the queue. */
  lemma ScanOnward(queue: set<RecordId>, position: Option<RecordId>, record: RecordId, later: set<RecordId>)
    requires later <= queue && position.Some? && position.value >= record && RecordBatch(queue, position) != []
    ensures var b := RecordBatch(queue, position);
            Wait(later, Some(b[|b| - 1]), record) + 1 <= Wait(queue, position, record)
  {
    var b := RecordBatch(queue, position);
    BatchTakesLeast(queue, position);
    hide RecordBatch;
    var last := b[|b| - 1];
    assert last in Ids(b);
    var before, after := After(queue, position), After(later, Some(last));
    forall x | x in b
      ensures x <= last
    {
      BelowLast(b, x);
    }
    TakenAway(after, b, before);
    CallsShrink(|after|, |before|, |b|);
    SubsetSize(UpTo(later, record), UpTo(queue, record));
    CallsGrow(|UpTo(later, record)|, |UpTo(queue, record)|);
  }

  lemma ScanShortensWait(queue: set<RecordId>, position: Option<RecordId>, record: RecordId, later: set<RecordId>)
    requires record in queue && later <= queue && record !in ScanBatch(queue, position)
    ensures var b := ScanBatch(queue, position);
            b != [] && Wait(later, Some(b[|b| - 1]), record) + 1 <= Wait(queue, position, record)
  {
    if position.None? || position.value < record {
      ScanForward(queue, position, record, later);
    } else if RecordBatch(queue, position) != [] {
      ScanOnward(queue, position, record, later);
    } else {
      ScanForward(queue, None, record, later);
      BatchTakesLeast(queue, position);
      hide RecordBatch;
      assert After(queue, position) == {};
      assert After(queue, None) == queue;
    }
  }

  lemma WaitIsPositive(queue: set<RecordId>, position: Option<RecordId>, record: RecordId)
    requires record in queue
    ensures Wait(queue, position, record) > 0
  {
    if position.None? || position.value < record {
      assert record in UpTo(After(queue, position), record);
    } else {
      assert record in UpTo(queue, record);
    }
  }

  /** Calls that reach the scan while no record joins the queue, each starting where the last one stopped. */
  ghost predicate Calling(states: seq<Tables>, record: RecordId) {
    && (forall i | 0 <= i < |states| :: record in states[i].barriers && ReachesScan(states[i]))
    && (forall i | 0 < i < |states| :: states[i].barriers.Keys <= states[i - 1].barriers.Keys)
    && (forall i | 0 < i < |states| :: states[i].scanAfter == CollectEligible(states[i - 1]).scanAfter)
  }

  ghost predicate ScannedBy(states: seq<Tables>, record: RecordId) {
    exists i | 0 <= i < |states| :: record in ScanBatch(states[i].barriers.Keys, states[i].scanAfter)
  }

  lemma CallingOn(states: seq<Tables>, record: RecordId)
    requires Calling(states, record) && |states| > 1
    ensures Calling(states[1..], record) && record in states[0].barriers && ReachesScan(states[0])
    ensures states[1].barriers.Keys <= states[0].barriers.Keys && states[1].scanAfter == CollectEligible(states[0]).scanAfter
  {
    hide ReachesScan, CollectEligible;
    var rest := states[1..];
    forall i | 0 < i < |rest|
      ensures rest[i].barriers.Keys <= rest[i - 1].barriers.Keys && rest[i].scanAfter == CollectEligible(rest[i - 1]).scanAfter
    {
      assert rest[i] == states[i + 1] && rest[i - 1] == states[i];
    }
  }

  lemma {:induction false} WaitEnds(states: seq<Tables>, record: RecordId)
    requires Calling(states, record) && states != [] && |states| >= Wait(states[0].barriers.Keys, states[0].scanAfter, record)
    ensures ScannedBy(states, record)
    decreases |states|
  {
    var queue, position := states[0].barriers.Keys, states[0].scanAfter;
    assert record in queue && ReachesScan(states[0]);
    if record !in ScanBatch(queue, position) {
      if |states| == 1 {
        ScanShortensWait(queue, position, record, queue);
        var b := ScanBatch(queue, position);
        WaitIsPositive(queue, Some(b[|b| - 1]), record);
        assert false;
      }
      CallingOn(states, record);
      ScanShortensWait(queue, position, record, states[1].barriers.Keys);
      NextPosition(states[0]);
      hide Calling, Wait, ScanBatch, CollectEligible, ReachesScan;
      WaitEnds(states[1..], record);
      ScannedLater(states, record);
    }
  }

  lemma ScannedLater(states: seq<Tables>, record: RecordId)
    requires states != [] && ScannedBy(states[1..], record)
    ensures ScannedBy(states, record)
  {
    hide ScanBatch;
    var i :| 0 <= i < |states[1..]| && record in ScanBatch(states[1..][i].barriers.Keys, states[1..][i].scanAfter);
    assert states[i + 1] == states[1..][i];
  }

  /**
   Scan fairness: from a queue of n records, ceil(n / 32) + 1 consecutive calls that reach the scan
   visit every record that stays queued, wherever the first one starts and whatever leaves the queue.
   */
  lemma ScanIsFair(states: seq<Tables>, record: RecordId)
    requires Calling(states, record) && states != [] && |states| >= Calls(|states[0].barriers|) + 1
    ensures ScannedBy(states, record)
  {
    hide Calling, ScannedBy, ReachesScan;
    assert |states[0].barriers| == |states[0].barriers.Keys|;
    WaitIsBounded(states[0].barriers.Keys, states[0].scanAfter, record);
    WaitEnds(states, record);
  }
}
