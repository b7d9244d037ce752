/**
 What a collection visit to one record does, told from the rows alone: which
 marker is written, which revisions go, and when nothing happens.
 */
module CollectionEffects {
  import opened Outcomes
  import opened Uint64
  import opened Vectors
  import opened Ordering
  import opened StoreTables
  import opened Collection
  import opened CollectionProofs

  const NINETY_DAYS_MS: nat := 7_776_000_000

  // ----- The rows a pass looks at --------------------------------------------------------------

  predicate InRecord(t: Tables, record: RecordId, r: RevisionId) {
    r in t.revisions && t.revisions[r].metadata.record == record
  }

  /** A retained revision of the record, accepted at least ninety days of uptime ago. */
  predicate Aged(t: Tables, record: RecordId, r: RevisionId) {
    InRecord(t, record, r) && t.revisions[r].collected.None? && t.revisions[r].accepted + NINETY_DAYS_MS <= t.uptime
  }

  /** Accepted earlier, ties by identifier. */
  predicate Older(t: Tables, q: RevisionId, r: RevisionId)
    requires q in t.revisions && r in t.revisions
  {
    || t.revisions[q].accepted < t.revisions[r].accepted
    || (t.revisions[q].accepted == t.revisions[r].accepted && q < r)
  }

  function AheadOf(t: Tables, record: RecordId, r: RevisionId): set<RevisionId>
    requires r in t.revisions
  {
    set q | q in t.revisions && Aged(t, record, q) && Older(t, q, r)
  }

  /** One of the oldest 256 aged revisions of the record. */
  predicate ItsTurn(t: Tables, record: RecordId, r: RevisionId) {
    Aged(t, record, r) && |AheadOf(t, record, r)| < 256
  }

  /** Every active device acknowledged the record's barrier. */
  predicate SeenByAll(t: Tables, record: RecordId) {
    record in t.barriers && forall d | d in t.devices && !t.devices[d].revoked :: t.barriers[record] <= t.devices[d].ack
  }

  /** The record's only head, authenticated and strictly above any frontier. */
  predicate SoleHead(t: Tables, record: RecordId, w: RevisionId) {
    && w in t.heads && InRecord(t, record, w)
    && (forall h | h in t.heads && InRecord(t, record, h) :: h == w)
    && t.revisions[w].metadata.authenticator.Some?
    && (record in t.markers ==> Dominates(t.revisions[w].metadata.vector, t.markers[record].frontier))
  }

  /** A sole head with something to replace: an aged revision other than itself, or itself as a tombstone. */
  predicate Replaces(t: Tables, record: RecordId, w: RevisionId) {
    && SoleHead(t, record, w) && t.cursor < MAX_UINT64
    && exists r | r in t.revisions :: Aged(t, record, r) && (r == w ==> t.revisions[w].metadata.tombstone)
  }

  /** The record's marker covers `r`: it lies strictly below the frontier, or is a tombstone at it. */
  predicate UnderMarker(t: Tables, record: RecordId, r: RevisionId) {
    && record in t.markers && r in t.revisions
    && (|| Dominates(t.markers[record].frontier, t.revisions[r].metadata.vector)
        || (t.revisions[r].metadata.vector == t.markers[record].frontier && t.revisions[r].metadata.tombstone))
  }

  // ----- The batch is the oldest 256 ----------------------------------------------------------------

  lemma {:induction false} ElementsCount(keys: seq<Key>)
    requires Increasing(keys)
    ensures |Elements(keys)| == |keys|
  {
    if keys != [] {
      var rest, last := keys[..|keys| - 1], keys[|keys| - 1];
      ElementsCount(rest);
      assert Elements(keys) == Elements(rest) + {last};
      assert last !in Elements(rest);
    }
  }

  function Below(keys: set<Key>, k: Key): set<Key> {
    set other | other in keys && KeyLess(other, k)
  }

  /** A row's place in an ordered answer is the number of rows below it. */
  lemma PlaceInListing(keys: set<Key>, i: nat)
    requires i < |Listing(keys)|
    ensures |Below(keys, Listing(keys)[i])| == i
  {
    var listing := Listing(keys);
    ListingIsOrdered(keys);
    hide Listing;
    forall k
      ensures k in Elements(listing[..i]) <==> k in Below(keys, listing[i])
    {
      if k in Below(keys, listing[i]) {
        assert k in Elements(listing);
        var j :| 0 <= j < |listing| && listing[j] == k;
        assert j < i;
        assert listing[..i][j] == k;
      }
      if k in Elements(listing[..i]) {
        assert k in Elements(listing);
      }
    }
    assert Elements(listing[..i]) == Below(keys, listing[i]);
    assert Increasing(listing[..i]);
    ElementsCount(listing[..i]);
  }

  lemma {:induction false} AgeKeysCount(t: Tables, ids: set<RevisionId>)
    ensures |AgeKeys(t, ids)| == |ids|
  {
    if ids != {} {
      var id :| id in ids;
      AgeKeysCount(t, ids - {id});
      assert AgeKeys(t, ids) == AgeKeys(t, ids - {id}) + {AgeKey(t, id)};
      assert AgeKey(t, id) !in AgeKeys(t, ids - {id});
    }
  }

  lemma AgedAreCandidates(t: Tables, record: RecordId, r: RevisionId)
    requires QueueInv(t.cursor, t.uptime, t.revisions, t.candidates, t.barriers)
    ensures r in AgedCandidates(t, record) <==> Aged(t, record, r)
  {
  }

  lemma AheadAsKeys(t: Tables, record: RecordId, r: RevisionId)
    requires QueueInv(t.cursor, t.uptime, t.revisions, t.candidates, t.barriers) && Aged(t, record, r)
    ensures Below(AgeKeys(t, AgedCandidates(t, record)), AgeKey(t, r)) == AgeKeys(t, AheadOf(t, record, r))
    ensures |Below(AgeKeys(t, AgedCandidates(t, record)), AgeKey(t, r))| == |AheadOf(t, record, r)|
  {
    var ids, ahead := AgedCandidates(t, record), AheadOf(t, record, r);
    forall q
      ensures q in ids <==> Aged(t, record, q)
    {
      AgedAreCandidates(t, record, q);
    }
    hide AgedCandidates, QueueInv;
    forall k
      ensures k in Below(AgeKeys(t, ids), AgeKey(t, r)) <==> k in AgeKeys(t, ahead)
    {
      if k in AgeKeys(t, ids) {
        var q :| q in ids && k == AgeKey(t, q);
        assert KeyLess(k, AgeKey(t, r)) <==> q in ahead;
      }
    }
    AgeKeysCount(t, ahead);
  }

  lemma BatchMember(t: Tables, record: RecordId, r: RevisionId)
    requires QueueInv(t.cursor, t.uptime, t.revisions, t.candidates, t.barriers)
    ensures r in CandidateBatch(t, record) <==> ItsTurn(t, record, r)
  {
    var keys := AgeKeys(t, AgedCandidates(t, record));
    var listing := Listing(keys);
    ListingIsOrdered(keys);
    AgedAreCandidates(t, record, r);
    hide QueueInv, Listing;
    if r in CandidateBatch(t, record) {
      var i :| 0 <= i < |listing| && i < 256 && listing[i].minor == r;
      assert listing[i] in Elements(listing);
      assert listing[i] == AgeKey(t, r) && r in AgedCandidates(t, record);
      PlaceInListing(keys, i);
      AheadAsKeys(t, record, r);
    }
    if ItsTurn(t, record, r) {
      assert AgeKey(t, r) in keys && AgeKey(t, r) in Elements(listing);
      var i :| 0 <= i < |listing| && listing[i] == AgeKey(t, r);
      PlaceInListing(keys, i);
      AheadAsKeys(t, record, r);
      assert CandidateBatch(t, record)[i] == r;
    }
  }

  /** The batch is full, or it holds every aged revision. */
  lemma BatchIsFullOrAll(t: Tables, record: RecordId)
    requires QueueInv(t.cursor, t.uptime, t.revisions, t.candidates, t.barriers)
    ensures Distinct(CandidateBatch(t, record)) && |CandidateBatch(t, record)| <= 256
    ensures |CandidateBatch(t, record)| < 256 ==> forall r :: Aged(t, record, r) ==> r in CandidateBatch(t, record)
  {
    var keys := AgeKeys(t, AgedCandidates(t, record));
    var listing := Listing(keys);
    ListingIsOrdered(keys);
    CandidateBatchFacts(t, record);
    hide Listing;
    if |CandidateBatch(t, record)| < 256 {
      forall r | Aged(t, record, r)
        ensures r in CandidateBatch(t, record)
      {
        AgedAreCandidates(t, record, r);
        assert AgeKey(t, r) in keys && AgeKey(t, r) in Elements(listing);
        var i :| 0 <= i < |listing| && listing[i] == AgeKey(t, r);
        assert CandidateBatch(t, record)[i] == r;
      }
    }
  }

  // ----- What the plan is ----------------------------------------------------------------------------

  lemma SoleHeadIsWitness(t: Tables, record: RecordId, w: RevisionId)
    requires HeadsInv(t.revisions, t.heads)
    ensures IsWitness(t, record, w) <==> SoleHead(t, record, w)
  {
    if IsWitness(t, record, w) {
      WitnessIsSoleHead(t, record, w);
      forall h | h in t.heads && InRecord(t, record, h)
        ensures h == w
      {
        assert h in HeadsOf(t.revisions, t.heads, record);
      }
    }
  }

  /** What the witness covers of the batch: all of it but a live witness itself. */
  lemma WitnessTakes(t: Tables, record: RecordId, w: RevisionId, c: RevisionId)
    requires StoreInv(t) && SoleHead(t, record, w) && ItsTurn(t, record, c)
    ensures WitnessCovers(t, w, c) <==> (c == w ==> t.revisions[w].metadata.tombstone)
  {
    HeadParts(t);
    hide StoreInv;
    SoleHeadIsWitness(t, record, w);
    if c != w {
      WitnessDominatesRetained(t, record, w, c);
    }
  }

  lemma HeadParts(t: Tables)
    requires StoreInv(t)
    ensures HeadsInv(t.revisions, t.heads) && CoverageInv(t.revisions, t.heads, t.markers) && DistinctVectors(t.revisions)
    ensures MarkersInv(t.revisions, t.heads, t.markers) && QueueInv(t.cursor, t.uptime, t.revisions, t.candidates, t.barriers)
  {
    hide LogInv, RowLogInv, ObjectsInv, HeadsInv, SiblingsInv, DistinctVectors, CoverageInv, MarkersInv, QueueInv, RegistryInv, AuthorsInv;
  }

  /** Of a batch some revision is not the witness, or the witness is a tombstone. */
  lemma SomethingToTake(t: Tables, record: RecordId, w: RevisionId) returns (c: RevisionId)
    requires QueueInv(t.cursor, t.uptime, t.revisions, t.candidates, t.barriers) && Replaces(t, record, w)
    ensures c in CandidateBatch(t, record) && (c == w ==> t.revisions[w].metadata.tombstone)
  {
    var batch := CandidateBatch(t, record);
    BatchIsFullOrAll(t, record);
    hide QueueInv, CandidateBatch;
    if |batch| < 256 {
      c :| c in t.revisions && Aged(t, record, c) && (c == w ==> t.revisions[w].metadata.tombstone);
    } else {
      assert batch[0] != batch[1];
      c := if batch[0] != w then batch[0] else batch[1];
    }
  }

  lemma WitnessFound(t: Tables, record: RecordId, w: RevisionId)
    requires HeadsInv(t.revisions, t.heads) && SoleHead(t, record, w)
    ensures WitnessFor(t, record) == Some(w)
  {
    SoleHeadIsWitness(t, record, w);
    hide IsWitness, SoleHead, HeadsInv;
    var found := WitnessFor(t, record);
    WitnessUnique(t, record, found.value, w);
  }

  /** The revisions a sole head `w` replaces in one visit. */
  function Replaced(t: Tables, record: RecordId, w: RevisionId): set<RevisionId> {
    set r | r in t.revisions && ItsTurn(t, record, r) && (r == w ==> t.revisions[w].metadata.tombstone)
  }

  lemma TakenByWitness(t: Tables, record: RecordId, w: RevisionId)
    requires StoreInv(t) && Replaces(t, record, w)
    ensures WitnessFor(t, record) == Some(w) && ByWitness(t, record) != []
    ensures forall c :: c in ByWitness(t, record) <==> c in Replaced(t, record, w)
  {
    HeadParts(t);
    hide StoreInv, HeadsInv, CoverageInv, MarkersInv, QueueInv, DistinctVectors, CandidateBatch, WitnessCovers, SoleHead, Filter, AheadOf;
    WitnessFound(t, record, w);
    var found := WitnessFor(t, record);
    FilterKeeps(CandidateBatch(t, record), (c: RevisionId) => WitnessCovers(t, found.value, c));
    forall c
      ensures c in ByWitness(t, record) <==> c in Replaced(t, record, w)
    {
      BatchMember(t, record, c);
      if ItsTurn(t, record, c) {
        WitnessTakes(t, record, w, c);
      }
    }
    var c := SomethingToTake(t, record, w);
    BatchMember(t, record, c);
    assert c in ByWitness(t, record);
  }

  lemma PlanAdvances(t: Tables, record: RecordId, w: RevisionId)
    requires StoreInv(t) && SeenByAll(t, record) && Replaces(t, record, w)
    ensures PlanFor(t, record) == Advance(w, ByWitness(t, record))
  {
    TakenByWitness(t, record, w);
    hide StoreInv, ByWitness, WitnessFor, SoleHead, Aged;
  }

  lemma MarkerCoversIff(t: Tables, record: RecordId, c: RevisionId)
    requires MarkersInv(t.revisions, t.heads, t.markers) && DistinctVectors(t.revisions) && InRecord(t, record, c)
    ensures MarkerCovers(t, record, c) <==> UnderMarker(t, record, c)
  {
    if record in t.markers {
      DominatesIsStrictOrder(t.markers[record].frontier, t.markers[record].frontier, t.markers[record].frontier);
    }
  }

  lemma TakenByMarker(t: Tables, record: RecordId)
    requires StoreInv(t)
    ensures forall c :: c in ByMarker(t, record) <==> ItsTurn(t, record, c) && UnderMarker(t, record, c)
  {
    HeadParts(t);
    hide StoreInv, HeadsInv, CoverageInv, MarkersInv, QueueInv, DistinctVectors, CandidateBatch, MarkerCovers, UnderMarker, Filter, AheadOf;
    FilterKeeps(CandidateBatch(t, record), (c: RevisionId) => MarkerCovers(t, record, c));
    forall c
      ensures c in ByMarker(t, record) <==> ItsTurn(t, record, c) && UnderMarker(t, record, c)
    {
      BatchMember(t, record, c);
      if ItsTurn(t, record, c) {
        MarkerCoversIff(t, record, c);
      }
    }
  }

  /** Without such a head the plan is what the marker covers of the batch. */
  lemma PlanPrunes(t: Tables, record: RecordId)
    requires StoreInv(t) && SeenByAll(t, record) && forall w :: !Replaces(t, record, w)
    ensures PlanFor(t, record) == if ByMarker(t, record) == [] then Skip else Prune(ByMarker(t, record))
  {
    if PlanFor(t, record).Advance? {
      AdvanceReplaces(t, record);
    }
    hide StoreInv, Replaces, ByMarker, ByWitness;
  }

  lemma AdvanceReplaces(t: Tables, record: RecordId)
    requires StoreInv(t) && PlanFor(t, record).Advance?
    ensures Replaces(t, record, PlanFor(t, record).w)
  {
    hide *;
    HeadParts(t);
    CursorWithin(t);
    PlanFacts(t, record);
    var w, r := PlanFor(t, record).w, PlanFor(t, record).selected[0];
    assert r in PlanFor(t, record).selected;
    SoleHeadIsWitness(t, record, w);
    AgedAreCandidates(t, record, r);
    CoversIsReplaced(t, record, w, r);
  }

  lemma CoversIsReplaced(t: Tables, record: RecordId, w: RevisionId, r: RevisionId)
    requires SoleHead(t, record, w) && t.cursor < MAX_UINT64 && Aged(t, record, r) && WitnessCovers(t, w, r)
    ensures Replaces(t, record, w)
  {
  }

  // ----- One record ---------------------------------------------------------------------------------------

  /** Exactly the revisions in `gone` lost their bytes, in generation `g`, and with them heads and queue entries. */
  ghost predicate Collected(t: Tables, gone: set<RevisionId>, g: nat, u: Tables) {
    && u.revisions.Keys == t.revisions.Keys
    && (forall r | r in t.revisions :: u.revisions[r] == if r in gone then t.revisions[r].(collected := Some(g)) else t.revisions[r])
    && u.heads == t.heads - gone && u.candidates == t.candidates - gone
  }

  /** What a visit leaves alone. */
  ghost predicate RestKept(t: Tables, u: Tables) {
    u.uptime == t.uptime && u.devices == t.devices && u.snapshots == t.snapshots
  }

  predicate SomeLeft(revisions: map<RevisionId, Row>, record: RecordId) {
    exists r | r in revisions :: revisions[r].metadata.record == record && revisions[r].collected.None?
  }

  /** A record stays queued exactly while it has a retained revision left. */
  ghost predicate Dequeued(barriers: map<RecordId, Cursor>, record: RecordId, u: Tables) {
    u.barriers == if SomeLeft(u.revisions, record) then barriers else barriers - {record}
  }

  lemma LeftIsQueued(cursor: Cursor, uptime: nat, revisions: map<RevisionId, Row>, candidates: set<RevisionId>, barriers: map<RecordId, Cursor>, record: RecordId)
    requires QueueInv(cursor, uptime, revisions, candidates, barriers)
    ensures SomeLeft(revisions, record) <==> HasCandidate(revisions, candidates, record)
  {
    if SomeLeft(revisions, record) {
      var r :| r in revisions && revisions[r].metadata.record == record && revisions[r].collected.None?;
      assert r in candidates;
    }
  }

  /** Distinct revisions that the markers of these tables allow to collect. */
  ghost predicate CanTake(t: Tables, selected: seq<RevisionId>) {
    Distinct(selected) && forall c | c in selected :: c in t.revisions && Collectable(t, c)
  }

  lemma CollectedFrom(t: Tables, selected: seq<RevisionId>, gone: set<RevisionId>, record: RecordId, g: nat)
    requires CanTake(t, selected) && forall c :: c in selected <==> c in gone
    ensures var u := CloseRecord(CollectAll(t, selected, g), record, g);
            && Collected(t, gone, g, u) && u.markers == t.markers && u.cursor == t.cursor && u.collectionGeneration == g && RestKept(t, u)
  {
    CollectAllExact(t, selected, g);
    CollectAllFrame(t, selected, g);
    hide HasCandidate, CollectAll;
  }

  lemma CloseDequeues(u: Tables, record: RecordId, g: nat)
    requires QueueInv(u.cursor, u.uptime, u.revisions, u.candidates, u.barriers)
    ensures Dequeued(u.barriers, record, CloseRecord(u, record, g))
  {
    hide QueueInv, SomeLeft, HasCandidate;
    LeftIsQueued(u.cursor, u.uptime, u.revisions, u.candidates, u.barriers, record);
  }

  lemma CanTakeParts(t: Tables, selected: seq<RevisionId>)
    requires CanTake(t, selected)
    ensures Distinct(selected) && forall c | c in selected :: c in t.revisions && Collectable(t, c)
  {
  }

  lemma CollectedDequeues(t: Tables, selected: seq<RevisionId>, record: RecordId, g: nat)
    requires StoreInv(t) && CanTake(t, selected)
    ensures Dequeued(t.barriers, record, CloseRecord(CollectAll(t, selected, g), record, g))
  {
    CanTakeParts(t, selected);
    hide *;
    CollectAllKeepsInv(t, selected, g);
    CollectAllFrame(t, selected, g);
    var u := CollectAll(t, selected, g);
    HeadParts(u);
    CloseDequeues(u, record, g);
  }

  /** The record's marker names `w`, its vector and authenticator, and is written at the next cursor. */
  ghost predicate MarkedBy(t: Tables, record: RecordId, w: RevisionId, g: nat, u: Tables) {
    && record in t.barriers && w in t.revisions && t.revisions[w].metadata.authenticator.Some?
    && u.cursor == t.cursor + 1 && u.collectionGeneration == g
    && u.markers == t.markers[record := Marker(w, t.revisions[w].metadata.vector, t.revisions[w].metadata.authenticator.value,
                                               t.barriers[record], t.cursor + 1)]
  }

  lemma CollectedFrame(t: Tables, a: Tables, gone: set<RevisionId>, g: nat, u: Tables)
    requires a.revisions == t.revisions && a.heads == t.heads && a.candidates == t.candidates && RestKept(t, a)
    requires Collected(a, gone, g, u) && RestKept(a, u)
    ensures Collected(t, gone, g, u) && RestKept(t, u)
  {
  }

  predicate AdvanceReady(t: Tables, record: RecordId, w: RevisionId) {
    w in t.revisions && t.revisions[w].metadata.authenticator.Some? && record in t.barriers
  }

  lemma AdvancedRecord(t: Tables, record: RecordId, w: RevisionId, selected: seq<RevisionId>, g: nat)
    requires AdvanceReady(t, record, w) && PlanFor(t, record) == Advance(w, selected)
    requires forall c | c in selected :: c in t.revisions
    ensures CollectRecord(t, record, g) == CloseRecord(CollectAll(AdvanceMarker(t, record, w), selected, g), record, g)
    ensures var a := AdvanceMarker(t, record, w);
            && a.revisions == t.revisions && a.heads == t.heads && a.candidates == t.candidates && a.barriers == t.barriers
            && MarkedBy(t, record, w, a.collectionGeneration, a) && RestKept(t, a)
  {
    hide PlanFor, CollectAll, CloseRecord;
  }

  /**
   A record that every active device has seen, whose only head is authenticated and above any
   frontier, and which has aged history: a visit writes the marker of that head at the next cursor
   and collects the oldest 256 aged revisions, all but the head itself unless it is a tombstone.
   */
  lemma VisitReplaces(t: Tables, record: RecordId, w: RevisionId, g: nat)
    requires StoreInv(t) && SeenByAll(t, record) && Replaces(t, record, w)
    ensures MarkedBy(t, record, w, g, CollectRecord(t, record, g))
    ensures Collected(t, Replaced(t, record, w), g, CollectRecord(t, record, g))
    ensures Dequeued(t.barriers, record, CollectRecord(t, record, g)) && RestKept(t, CollectRecord(t, record, g))
  {
    hide *;
    var selected := ByWitness(t, record);
    ReplacesParts(t, record, w);
    PlanAdvances(t, record, w);
    TakenByWitness(t, record, w);
    AdvanceTakes(t, record, w, selected);
    AdvancedRecord(t, record, w, selected, g);
    var a := AdvanceMarker(t, record, w);
    AdvanceKeepsInv(t, record, w);
    CollectedFrom(a, selected, Replaced(t, record, w), record, g);
    CollectedDequeues(a, selected, record, g);
    CollectedFrame(t, a, Replaced(t, record, w), g, CollectRecord(t, record, g));
    MarkedFrame(t, a, record, w, g, CollectRecord(t, record, g));
  }

  lemma AdvanceTakes(t: Tables, record: RecordId, w: RevisionId, selected: seq<RevisionId>)
    requires AdvanceReady(t, record, w) && PlanFor(t, record) == Advance(w, selected)
    ensures IsWitness(t, record, w) && record in t.barriers && CanTake(AdvanceMarker(t, record, w), selected)
    ensures forall c | c in selected :: c in t.revisions
  {
    hide PlanFor, IsWitness, Acknowledged, AgedCandidates, MarkerCovers;
    AdvanceFacts(t, record);
  }

  lemma MarkedFrame(t: Tables, a: Tables, record: RecordId, w: RevisionId, g: nat, u: Tables)
    requires MarkedBy(t, record, w, a.collectionGeneration, a) && u.markers == a.markers && u.cursor == a.cursor && u.collectionGeneration == g
    ensures MarkedBy(t, record, w, g, u)
  {
  }

  lemma ReplacesParts(t: Tables, record: RecordId, w: RevisionId)
    requires Replaces(t, record, w) && SeenByAll(t, record)
    ensures AdvanceReady(t, record, w) && t.cursor < MAX_UINT64
  {
  }

  /** What one visit takes under the record's own marker. */
  function UnderOwnMarker(t: Tables, record: RecordId): set<RevisionId> {
    set r | r in t.revisions && ItsTurn(t, record, r) && UnderMarker(t, record, r)
  }

  /**
   Without such a head nothing is written but the deletions: of the oldest 256 aged revisions those
   the marker covers go, and if there is none, the visit leaves everything as it was.
   */
  lemma VisitPrunes(t: Tables, record: RecordId, g: nat)
    requires StoreInv(t) && SeenByAll(t, record) && forall w :: !Replaces(t, record, w)
    ensures var u := CollectRecord(t, record, g);
            if UnderOwnMarker(t, record) == {} then u == t
            else
              && u.cursor == t.cursor && u.markers == t.markers && u.collectionGeneration == g
              && Collected(t, UnderOwnMarker(t, record), g, u) && Dequeued(t.barriers, record, u) && RestKept(t, u)
  {
    hide StoreInv, Collected, Dequeued, ItsTurn, UnderMarker, Replaces, CollectAll, CloseRecord, ByMarker, Acknowledged, Collectable, AgedCandidates,
         PlanFor;
    PlanPrunes(t, record);
    TakenByMarker(t, record);
    var selected, gone := ByMarker(t, record), UnderOwnMarker(t, record);
    InBatchIsStored(t, record);
    assert forall c :: c in selected <==> c in gone;
    if selected == [] {
      assert gone == {};
    } else {
      assert selected[0] in gone;
      PruneFacts(t, record);
      CollectedFrom(t, selected, gone, record, g);
      CollectedDequeues(t, selected, record, g);
    }
  }

  lemma InBatchIsStored(t: Tables, record: RecordId)
    ensures forall c :: ItsTurn(t, record, c) ==> c in t.revisions
  {
  }

  /** A record some active device has not seen, or that is not queued, is left alone. */
  lemma VisitLeaves(t: Tables, record: RecordId, g: nat)
    requires !SeenByAll(t, record)
    ensures CollectRecord(t, record, g) == t
  {
  }
}
