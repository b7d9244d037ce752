/**
 Progress of collection: aged history of a converged record is gone after a
 bounded number of passes.
 */
module CollectionProgress {
  import opened Outcomes
  import opened Uint64
  import opened Vectors
  import opened StoreTables
  import opened Collection
  import opened CollectionProofs
  import opened CollectionEffects
  import opened ScanFairness
  import Receipts

  // ----- Aged history goes --------------------------------------------------------------------------------

  /** At most one head, and an authenticated one. */
  predicate Converged(t: Tables, record: RecordId) {
    forall h | h in t.heads && InRecord(t, record, h) ::
      t.revisions[h].metadata.authenticator.Some? && forall k | k in t.heads && InRecord(t, record, k) :: k == h
  }

  /** Aged history of a converged record that everyone has seen: not a live head, and at most `n` older ones before it. */
  ghost predicate Waiting(t: Tables, record: RecordId, r: RevisionId, n: nat) {
    && SeenByAll(t, record) && Converged(t, record) && Aged(t, record, r)
    && (r in t.heads ==> t.revisions[r].metadata.tombstone) && |AheadOf(t, record, r)| <= n
  }

  lemma CoveredByFrontier(t: Tables, record: RecordId, c: RevisionId)
    requires HeadsInv(t.revisions, t.heads) && CoverageInv(t.revisions, t.heads, t.markers) && MarkersInv(t.revisions, t.heads, t.markers)
    requires Converged(t, record) && Aged(t, record, c) && (c in t.heads ==> t.revisions[c].metadata.tombstone)
    requires forall w :: !SoleHead(t, record, w)
    ensures UnderMarker(t, record, c)
  {
    if c in t.heads {
      assert !SoleHead(t, record, c);
    } else {
      assert Covered(t.revisions, t.heads, t.markers, c);
      if h :| h in HeadsOf(t.revisions, t.heads, record) && Dominates(VectorOf(t.revisions, h), VectorOf(t.revisions, c)) {
        assert !SoleHead(t, record, h);
      }
    }
  }

  /** A visit takes every one of the oldest 256 but a live head. */
  lemma VisitTakes(t: Tables, record: RecordId, r: RevisionId, g: nat)
    requires StoreInv(t) && SeenByAll(t, record) && Converged(t, record) && t.cursor < MAX_UINT64
    requires ItsTurn(t, record, r) && (r in t.heads ==> t.revisions[r].metadata.tombstone)
    ensures r in CollectRecord(t, record, g).revisions && !Retained(CollectRecord(t, record, g).revisions[r])
  {
    TurnIsAged(t, record, r);
    hide StoreInv, CollectRecord, ItsTurn, AheadOf, Dequeued, SeenByAll, RestKept, Aged, UnderMarker, MarkedBy;
    HeadParts(t);
    hide HeadsInv, CoverageInv, MarkersInv, QueueInv, DistinctVectors;
    if w :| SoleHead(t, record, w) {
      AgedIsReplaced(t, record, w, r);
      hide SoleHead, Converged;
      VisitReplaces(t, record, w, g);
    } else {
      CoveredByFrontier(t, record, r);
      hide SoleHead, Converged;
      VisitPrunes(t, record, g);
      assert r in UnderOwnMarker(t, record);
    }
  }

  lemma TurnIsAged(t: Tables, record: RecordId, r: RevisionId)
    requires ItsTurn(t, record, r)
    ensures Aged(t, record, r) && r in t.revisions
  {
  }

  lemma AgedIsReplaced(t: Tables, record: RecordId, w: RevisionId, r: RevisionId)
    requires SoleHead(t, record, w) && Aged(t, record, r) && (r in t.heads ==> t.revisions[r].metadata.tombstone) && t.cursor < MAX_UINT64
    ensures Replaces(t, record, w) && r in t.revisions
    ensures ItsTurn(t, record, r) ==> r in Replaced(t, record, w)
  {
    hide AheadOf;
  }

  predicate Gone(t: Tables, r: RevisionId) {
    r in t.revisions && !Retained(t.revisions[r])
  }

  /** What collection wears down: rows lose their bytes and nothing else, heads and queue only shrink. */
  ghost predicate Wears(a: Tables, b: Tables) {
    && TookOnlyEligible(a, b) && RowsEvolve(a.revisions, b.revisions)
  }

  lemma FewerAhead(a: Tables, b: Tables, record: RecordId, r: RevisionId)
    requires Wears(a, b) && r in a.revisions
    ensures r in b.revisions && AheadOf(b, record, r) <= AheadOf(a, record, r)
    ensures forall q :: Aged(b, record, q) ==> Aged(a, record, q)
  {
    forall q | Aged(b, record, q)
      ensures Aged(a, record, q)
    {
      assert b.revisions[q].(collected := a.revisions[q].collected) == a.revisions[q];
    }
    assert b.revisions[r].(collected := a.revisions[r].collected) == a.revisions[r];
    forall q | q in AheadOf(b, record, r)
      ensures q in AheadOf(a, record, r)
    {
      assert b.revisions[q].(collected := a.revisions[q].collected) == a.revisions[q];
    }
  }

  lemma ConvergedLasts(a: Tables, b: Tables, record: RecordId)
    requires Wears(a, b) && Converged(a, record)
    ensures Converged(b, record)
  {
    forall h | h in b.heads && InRecord(b, record, h)
      ensures h in a.heads && InRecord(a, record, h) && b.revisions[h].metadata == a.revisions[h].metadata
    {
      assert b.revisions[h].(collected := a.revisions[h].collected) == a.revisions[h];
    }
  }

  lemma SeenLasts(a: Tables, b: Tables, record: RecordId, r: RevisionId)
    requires Wears(a, b) && SeenByAll(a, record) && Aged(a, record, r) && !Gone(b, r)
    requires QueueInv(b.cursor, b.uptime, b.revisions, b.candidates, b.barriers)
    ensures SeenByAll(b, record) && Aged(b, record, r)
  {
    assert b.revisions[r].(collected := a.revisions[r].collected) == a.revisions[r];
    assert r in b.candidates;
  }

  /** What waits and is not taken goes on waiting. */
  lemma WaitingLasts(a: Tables, b: Tables, record: RecordId, r: RevisionId, n: nat)
    requires Waiting(a, record, r, n) && Wears(a, b) && StoreInv(b) && !Gone(b, r)
    ensures Waiting(b, record, r, n)
  {
    HeadParts(b);
    hide StoreInv, Converged, SeenByAll, HeadsInv, CoverageInv, MarkersInv, DistinctVectors, QueueInv;
    FewerAhead(a, b, record, r);
    ConvergedLasts(a, b, record);
    SeenLasts(a, b, record, r);
    hide AheadOf;
    SubsetSize(AheadOf(b, record, r), AheadOf(a, record, r));
    assert b.revisions[r].(collected := a.revisions[r].collected) == a.revisions[r];
  }

  lemma GoneStays(a: Tables, b: Tables, r: RevisionId)
    requires Wears(a, b) && Gone(a, r)
    ensures Gone(b, r)
  {
  }

  // ----- A full batch -----------------------------------------------------------------------------------------

  /** Whoever has fewer before it comes before. */
  lemma TurnIsAhead(t: Tables, record: RecordId, q: RevisionId, r: RevisionId)
    requires ItsTurn(t, record, q) && Aged(t, record, r) && !ItsTurn(t, record, r)
    ensures q in AheadOf(t, record, r)
  {
    if !Older(t, q, r) {
      assert AheadOf(t, record, r) <= AheadOf(t, record, q);
      SubsetSize(AheadOf(t, record, r), AheadOf(t, record, q));
    }
  }

  lemma {:induction false} DistinctSize(ids: seq<RevisionId>)
    requires Distinct(ids)
    ensures |Receipts.Ids(ids)| == |ids|
  {
    if ids != [] {
      var rest, last := ids[..|ids| - 1], ids[|ids| - 1];
      DistinctSize(rest);
      assert Receipts.Ids(ids) == Receipts.Ids(rest) + {last};
      assert last !in Receipts.Ids(rest);
    }
  }

  /** Before a revision whose turn it is not stand 256 whose turn it is. */
  lemma FullBatch(t: Tables, record: RecordId, r: RevisionId) returns (batch: set<RevisionId>)
    requires QueueInv(t.cursor, t.uptime, t.revisions, t.candidates, t.barriers) && Aged(t, record, r) && !ItsTurn(t, record, r)
    ensures |batch| == 256 && batch <= AheadOf(t, record, r) && forall q | q in batch :: ItsTurn(t, record, q)
  {
    BatchIsFullOrAll(t, record);
    BatchMember(t, record, r);
    var listed := CandidateBatch(t, record);
    hide CandidateBatch;
    DistinctSize(listed);
    batch := Receipts.Ids(listed);
    forall q | q in batch
      ensures ItsTurn(t, record, q) && q in AheadOf(t, record, r)
    {
      BatchMember(t, record, q);
      TurnIsAhead(t, record, q, r);
    }
  }

  lemma VisitTakesAll(t: Tables, record: RecordId, batch: set<RevisionId>, g: nat)
    requires StoreInv(t) && SeenByAll(t, record) && Converged(t, record) && t.cursor < MAX_UINT64
    requires forall q | q in batch :: ItsTurn(t, record, q)
    ensures forall q | q in batch && q !in t.heads :: Gone(CollectRecord(t, record, g), q)
    ensures forall q, k | q in batch && k in batch && q in t.heads && k in t.heads :: q == k
  {
    forall q | q in batch && q !in t.heads
      ensures Gone(CollectRecord(t, record, g), q)
    {
      hide *;
      VisitTakesOne(t, record, q, g);
    }
    hide StoreInv, CollectRecord, AheadOf;
  }

  lemma VisitTakesOne(t: Tables, record: RecordId, q: RevisionId, g: nat)
    requires StoreInv(t) && SeenByAll(t, record) && Converged(t, record) && t.cursor < MAX_UINT64 && ItsTurn(t, record, q)
    requires q in t.heads ==> q in t.revisions && t.revisions[q].metadata.tombstone
    ensures Gone(CollectRecord(t, record, g), q)
  {
    hide StoreInv, CollectRecord, SeenByAll, Converged;
    VisitTakes(t, record, q, g);
  }

  lemma AtMostOneHead(batch: set<RevisionId>, heads: set<RevisionId>)
    requires |batch| == 256 && forall q, k | q in batch && k in batch && q in heads && k in heads :: q == k
    ensures |batch - heads| >= 255
  {
    var both := batch * heads;
    if q :| q in both {
      assert both == {q};
    }
    assert batch == (batch - heads) + both;
  }

  lemma ShorterQueue(taken: set<RevisionId>, before: set<RevisionId>, after: set<RevisionId>)
    requires taken <= before && after <= before && taken !! after && |taken| >= 255
    ensures |after| + 255 <= |before|
  {
    SubsetSize(taken + after, before);
    assert |taken + after| == |taken| + |after|;
  }

  /** A visit takes the revision, or at least 255 of those before it. */
  lemma VisitServes(t: Tables, record: RecordId, r: RevisionId, n: nat, g: nat)
    requires StoreInv(t) && Waiting(t, record, r, n) && t.cursor < MAX_UINT64
    requires StoreInv(CollectRecord(t, record, g)) && Wears(t, CollectRecord(t, record, g))
    ensures Served(CollectRecord(t, record, g), record, r, n)
  {
    HeadParts(t);
    WaitingParts(t, record, r, n);
    hide StoreInv, CollectRecord, HeadsInv, CoverageInv, MarkersInv, DistinctVectors, QueueInv, SeenByAll, Converged, Wears;
    var u := CollectRecord(t, record, g);
    if ItsTurn(t, record, r) {
      VisitTakesOne(t, record, r, g);
    } else if !Gone(u, r) {
      WaitingLasts(t, u, record, r, n);
      FewerAhead(t, u, record, r);
      var batch := FullBatch(t, record, r);
      VisitTakesAll(t, record, batch, g);
      AtMostOneHead(batch, t.heads);
      ShorterQueue(batch - t.heads, AheadOf(t, record, r), AheadOf(u, record, r));
    }
  }

  lemma WaitingParts(t: Tables, record: RecordId, r: RevisionId, n: nat)
    requires Waiting(t, record, r, n)
    ensures SeenByAll(t, record) && Converged(t, record) && Aged(t, record, r) && r in t.revisions
    ensures r in t.heads ==> t.revisions[r].metadata.tombstone
  {
  }

  /** The revision is gone, or waits with at least 255 fewer before it. */
  ghost predicate Served(u: Tables, record: RecordId, r: RevisionId, n: nat) {
    Gone(u, r) || (n >= 256 && Waiting(u, record, r, n - 255))
  }

  lemma ServedLasts(a: Tables, b: Tables, record: RecordId, r: RevisionId, n: nat)
    requires Served(a, record, r, n) && Wears(a, b) && StoreInv(b)
    ensures Served(b, record, r, n)
  {
    hide StoreInv, Waiting;
    if Gone(a, r) {
      GoneStays(a, b, r);
    } else if !Gone(b, r) {
      WaitingLasts(a, b, record, r, n - 255);
    }
  }

  // ----- Whole passes -------------------------------------------------------------------------------------------

  lemma VisitKeeps(t: Tables, record: RecordId, g: nat)
    requires StoreInv(t) && t.collectionGeneration <= g
    ensures var u := CollectRecord(t, record, g);
            StoreInv(u) && Wears(t, u) && u.collectionGeneration <= g && u.cursor <= t.cursor + 1
  {
    hide StoreInv, CollectRecord, TookOnlyEligible, SeenByAll, Replaces, Collected, Dequeued, UnderOwnMarker;
    CollectRecordKeepsInv(t, record, g);
    CollectRecordTakesOnlyEligible(t, record, g);
    CollectRecordGeneration(t, record, g);
    if !SeenByAll(t, record) {
      VisitLeaves(t, record, g);
    } else if w :| Replaces(t, record, w) {
      VisitReplaces(t, record, w, g);
    } else {
      VisitPrunes(t, record, g);
    }
  }

  lemma WearsOn(a: Tables, b: Tables, c: Tables)
    requires Wears(a, b) && Wears(b, c)
    ensures Wears(a, c)
  {
    hide TookOnlyEligible;
    TookOnlyEligibleTransitive(a, b, c);
  }

  lemma {:induction false} VisitsKeep(t: Tables, records: seq<RecordId>, g: nat)
    requires StoreInv(t) && t.collectionGeneration <= g
    ensures var u := CollectRecords(t, records, g);
            StoreInv(u) && Wears(t, u) && u.collectionGeneration <= g && u.cursor <= t.cursor + |records|
    decreases |records|
  {
    hide StoreInv, Wears, CollectRecord;
    if records == [] {
      WearsNothing(t);
    } else {
      var u := CollectRecord(t, records[0], g);
      VisitKeeps(t, records[0], g);
      VisitsKeep(u, records[1..], g);
      WearsOn(t, u, CollectRecords(u, records[1..], g));
    }
  }

  lemma WearsNothing(t: Tables)
    ensures Wears(t, t)
  {
  }

  /** Visiting several records serves what waits in one of them. */
  lemma {:induction false} VisitsServe(t: Tables, records: seq<RecordId>, record: RecordId, r: RevisionId, n: nat, g: nat)
    requires StoreInv(t) && t.collectionGeneration <= g && Waiting(t, record, r, n)
    requires record in records && t.cursor + |records| <= MAX_UINT64
    ensures Served(CollectRecords(t, records, g), record, r, n)
    decreases |records|
  {
    hide StoreInv, Wears, CollectRecord, Waiting;
    var u, rest := CollectRecord(t, records[0], g), records[1..];
    VisitKeeps(t, records[0], g);
    VisitsKeep(u, rest, g);
    if records[0] == record {
      VisitServes(t, record, r, n, g);
      ServedLasts(u, CollectRecords(u, rest, g), record, r, n);
    } else if Gone(u, r) {
      ServedLasts(u, CollectRecords(u, rest, g), record, r, n);
    } else {
      WaitingLasts(t, u, record, r, n);
      VisitsServe(u, rest, record, r, n, g);
    }
  }

  /** An active device, and counters with room for this many passes. */
  ghost predicate Room(t: Tables, passes: nat) {
    && StoreInv(t) && (exists d | d in t.devices :: !t.devices[d].revoked)
    && t.collectionGeneration + passes <= MAX_UINT64 && t.cursor + 32 * passes <= MAX_UINT64
  }

  lemma ScanIsShort(queue: set<RecordId>, position: Option<RecordId>)
    ensures |ScanBatch(queue, position)| <= 32
  {
  }

  /** The store after the visits of a pass, but for the scan position. */
  lemma PassVisits(t: Tables)
    requires ReachesScan(t)
    ensures var u := CollectRecords(t, ScanBatch(t.barriers.Keys, t.scanAfter), t.collectionGeneration + 1);
            CollectEligible(t) == u.(scanAfter := CollectEligible(t).scanAfter)
  {
    hide ScanBatch, ReachesScan;
  }

  lemma PositionIsAside(t: Tables, u: Tables, position: Option<RecordId>)
    ensures StoreInv(u) ==> StoreInv(u.(scanAfter := position))
    ensures Wears(t, u) ==> Wears(t, u.(scanAfter := position))
  {
    hide LogInv, RowLogInv, ObjectsInv, HeadsInv, SiblingsInv, DistinctVectors, CoverageInv, MarkersInv, QueueInv, RegistryInv, AuthorsInv, RowsEvolve, Eligible;
  }

  lemma ServedAside(u: Tables, record: RecordId, r: RevisionId, n: nat, position: Option<RecordId>)
    requires Served(u, record, r, n)
    ensures Served(u.(scanAfter := position), record, r, n)
  {
    var v := u.(scanAfter := position);
    if r in u.revisions {
      assert AheadOf(v, record, r) == AheadOf(u, record, r);
    }
  }

  lemma PassKeeps(t: Tables, passes: nat)
    requires Room(t, passes) && passes > 0
    ensures ReachesScan(t) && Room(CollectEligible(t), passes - 1) && Wears(t, CollectEligible(t))
  {
    hide StoreInv, Wears, CollectRecords, CollectEligible, ScanBatch;
    var batch := ScanBatch(t.barriers.Keys, t.scanAfter);
    PassVisits(t);
    ScanIsShort(t.barriers.Keys, t.scanAfter);
    VisitsKeep(t, batch, t.collectionGeneration + 1);
    var u := CollectRecords(t, batch, t.collectionGeneration + 1);
    PositionIsAside(t, u, CollectEligible(t).scanAfter);
    SameDevices(t, u);
  }

  lemma SameDevices(t: Tables, u: Tables)
    requires Wears(t, u)
    ensures u.devices == t.devices && u.barriers.Keys <= t.barriers.Keys
  {
  }

  lemma PassServes(t: Tables, passes: nat, record: RecordId, r: RevisionId, n: nat)
    requires Room(t, passes) && passes > 0 && Waiting(t, record, r, n) && record in ScanBatch(t.barriers.Keys, t.scanAfter)
    ensures Served(CollectEligible(t), record, r, n)
  {
    PassKeeps(t, passes);
    hide StoreInv, Waiting, CollectRecords, CollectEligible, ScanBatch, Served, ReachesScan, Wears;
    var batch := ScanBatch(t.barriers.Keys, t.scanAfter);
    PassVisits(t);
    ScanIsShort(t.barriers.Keys, t.scanAfter);
    VisitsServe(t, batch, record, r, n, t.collectionGeneration + 1);
    var u := CollectRecords(t, batch, t.collectionGeneration + 1);
    ServedAside(u, record, r, n, CollectEligible(t).scanAfter);
  }

  // ----- Rounds of passes ------------------------------------------------------------------------------------------

  /** Consecutive passes. */
  ghost predicate Passing(states: seq<Tables>) {
    states != [] && forall i | 0 < i < |states| :: states[i] == CollectEligible(states[i - 1])
  }

  lemma {:induction false} PassesKeep(states: seq<Tables>, i: nat, k: nat)
    requires Passing(states) && Room(states[0], |states| - 1) && i <= k < |states|
    ensures Room(states[k], |states| - 1 - k) && Wears(states[i], states[k])
    decreases k
  {
    hide Room, Wears, CollectEligible;
    if k == 0 {
      WearsNothing(states[0]);
    } else {
      PassesKeep(states, if i < k then i else k - 1, k - 1);
      assert states[k] == CollectEligible(states[k - 1]);
      PassKeeps(states[k - 1], |states| - k);
      if i < k {
        WearsOn(states[i], states[k - 1], states[k]);
      } else {
        WearsNothing(states[k]);
      }
    }
  }

  lemma RoomHasStore(t: Tables, passes: nat)
    requires Room(t, passes)
    ensures StoreInv(t)
  {
  }

  lemma WaitingIsQueued(t: Tables, record: RecordId, r: RevisionId, n: nat)
    requires Waiting(t, record, r, n)
    ensures record in t.barriers
  {
  }

  /** What is not gone at the end of some passes waited in each of them, and its record was queued. */
  lemma WaitingThroughout(states: seq<Tables>, record: RecordId, r: RevisionId, n: nat, k: nat)
    requires Passing(states) && Room(states[0], |states| - 1) && Waiting(states[0], record, r, n)
    requires !Gone(states[|states| - 1], r) && k < |states|
    ensures Waiting(states[k], record, r, n)
  {
    hide Room, Wears, Waiting, CollectEligible, Passing, StoreInv;
    PassesKeep(states, 0, k);
    PassesKeep(states, k, |states| - 1);
    RoomHasStore(states[k], |states| - 1 - k);
    if Gone(states[k], r) {
      GoneStays(states[k], states[|states| - 1], r);
    }
    WaitingLasts(states[0], states[k], record, r, n);
  }

  lemma PassesAreCalls(states: seq<Tables>, record: RecordId, r: RevisionId, n: nat)
    requires Passing(states) && |states| > 1 && Room(states[0], |states| - 1) && Waiting(states[0], record, r, n)
    requires !Gone(states[|states| - 1], r)
    ensures Calling(states[..|states| - 1], record)
  {
    hide Room, Wears, Waiting, CollectEligible, ReachesScan, StoreInv;
    var calls := states[..|states| - 1];
    forall i | 0 <= i < |calls|
      ensures record in calls[i].barriers && ReachesScan(calls[i])
    {
      WaitingThroughout(states, record, r, n, i);
      WaitingIsQueued(states[i], record, r, n);
      PassesKeep(states, i, i);
      PassKeeps(states[i], |states| - 1 - i);
    }
    forall i | 0 < i < |calls|
      ensures calls[i].barriers.Keys <= calls[i - 1].barriers.Keys
      ensures calls[i].scanAfter == CollectEligible(calls[i - 1]).scanAfter
    {
      assert states[i] == CollectEligible(states[i - 1]);
      PassesKeep(states, i - 1, i);
      SameDevices(states[i - 1], states[i]);
    }
  }

  /** One round: ceil(n / 32) + 1 passes over a queue of n records serve whatever waits. */
  lemma RoundServes(states: seq<Tables>, record: RecordId, r: RevisionId, n: nat)
    requires Passing(states) && Room(states[0], |states| - 1) && Waiting(states[0], record, r, n)
    requires |states| >= Calls(|states[0].barriers|) + 2
    ensures Served(states[|states| - 1], record, r, n)
  {
    hide Room, Wears, Waiting, CollectEligible, Passing, StoreInv, Calling, ScanBatch;
    var last := |states| - 1;
    if !Gone(states[last], r) {
      PassesAreCalls(states, record, r, n);
      var calls := states[..last];
      ScanIsFair(calls, record);
      var i :| 0 <= i < |calls| && record in ScanBatch(calls[i].barriers.Keys, calls[i].scanAfter);
      assert calls[i] == states[i];
      PassesKeep(states, 0, i);
      WaitingThroughout(states, record, r, n, i);
      PassServes(states[i], last - i, record, r, n);
      NextState(states, i);
      PassesKeep(states, i + 1, last);
      RoomHasStore(states[last], 0);
      ServedLasts(states[i + 1], states[last], record, r, n);
    }
  }

  lemma NextState(states: seq<Tables>, i: nat)
    requires Passing(states) && i + 1 < |states|
    ensures states[i + 1] == CollectEligible(states[i])
  {
    assert states[i + 1] == CollectEligible(states[i + 1 - 1]);
  }

  lemma SplitPasses(states: seq<Tables>, k: nat)
    requires Passing(states) && k < |states|
    ensures Passing(states[..k + 1]) && Passing(states[k..])
  {
    hide CollectEligible;
    var rest := states[k..];
    forall i | 0 < i < |rest|
      ensures rest[i] == CollectEligible(rest[i - 1])
    {
      assert rest[i] == states[k + i] && rest[i - 1] == states[k + i - 1];
    }
  }

  lemma LessRoom(t: Tables, passes: nat, fewer: nat)
    requires Room(t, passes) && fewer <= passes
    ensures Room(t, fewer)
  {
    hide StoreInv;
  }

  lemma QueueShrinks(a: Tables, b: Tables)
    requires Wears(a, b)
    ensures |b.barriers| <= |a.barriers|
  {
    SameDevices(a, b);
    hide Wears;
    SubsetSize(b.barriers.Keys, a.barriers.Keys);
    assert |b.barriers| == |b.barriers.Keys| && |a.barriers| == |a.barriers.Keys|;
  }

  /**
   Aged history goes.  Take a record that every active device has seen, with at most one head and an
   authenticated one, and an aged revision of it that is not a live head.  Within ceil(n / 32) + 1
   passes over a queue of n records its bytes are gone if at most 255 aged revisions of the record are
   older; with more before it, every further round of passes is good for another 255 of them.
   */
  lemma {:induction false} AgedHistoryGoes(states: seq<Tables>, record: RecordId, r: RevisionId, rounds: nat)
    requires Passing(states) && Room(states[0], |states| - 1) && Waiting(states[0], record, r, 255 * rounds) && rounds > 0
    requires |states| > rounds * (Calls(|states[0].barriers|) + 1)
    ensures Gone(states[|states| - 1], r)
    decreases rounds
  {
    hide Room, Wears, Waiting, CollectEligible, Passing, StoreInv;
    var m := Calls(|states[0].barriers|) + 1;
    assert rounds * m == m + (rounds - 1) * m;
    RoundFits(rounds, m, |states|);
    SplitPasses(states, m);
    LessRoom(states[0], |states| - 1, m);
    PassesKeep(states, 0, m);
    QueueShrinks(states[0], states[m]);
    RoundServes(states[..m + 1], record, r, 255 * rounds);
    assert states[..m + 1][m] == states[m];
    PassesKeep(states, m, |states| - 1);
    if Gone(states[m], r) {
      GoneStays(states[m], states[|states| - 1], r);
    } else {
      var rest := states[m..];
      CallsGrow(|states[m].barriers|, |states[0].barriers|);
      RoundsGrow(rounds - 1, Calls(|states[m].barriers|) + 1, m);
      AgedHistoryGoes(rest, record, r, rounds - 1);
    }
  }

  lemma RoundFits(rounds: nat, m: nat, length: nat)
    requires rounds > 0 && length > rounds * m
    ensures m < length && length - m > (rounds - 1) * m
  {
    assert rounds * m == m + (rounds - 1) * m;
  }

  lemma {:induction false} RoundsGrow(rounds: nat, a: nat, b: nat)
    requires a <= b
    ensures rounds * a <= rounds * b
  {
    if rounds > 0 {
      RoundsGrow(rounds - 1, a, b);
    }
  }
}
