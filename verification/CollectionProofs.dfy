/**
 Collection safety: every write of a collection pass keeps the joint invariant,
 removes no live head, and only drops what the frontier covers.
 */
module CollectionProofs {
  import opened Outcomes
  import opened Uint64
  import opened Vectors
  import opened Ordering
  import opened StoreTables
  import opened Collection

  // ----- Writing the marker -------------------------------------------------------

  /** With undominated heads, a witness is the only head of its record. */
  lemma WitnessIsSoleHead(t: Tables, record: RecordId, w: RevisionId)
    requires HeadsInv(t.revisions, t.heads) && IsWitness(t, record, w)
    ensures HeadsOf(t.revisions, t.heads, record) == {w}
  {
    forall h | h in HeadsOf(t.revisions, t.heads, record)
      ensures h == w
    {
      DominatesIsStrictOrder(VectorOf(t.revisions, w), VectorOf(t.revisions, h), map[]);
    }
  }

  /** The witness strictly dominates every other retained revision of its record, as the protocol demands. */
  lemma WitnessDominatesRetained(t: Tables, record: RecordId, w: RevisionId, r: RevisionId)
    requires HeadsInv(t.revisions, t.heads) && CoverageInv(t.revisions, t.heads, t.markers) && IsWitness(t, record, w)
    requires r in t.revisions && Retained(t.revisions[r]) && RecordOf(t.revisions, r) == record && r != w
    ensures Dominates(VectorOf(t.revisions, w), VectorOf(t.revisions, r))
  {
    WitnessIsSoleHead(t, record, w);
    if r in t.heads {
      assert r in HeadsOf(t.revisions, t.heads, record);
    } else {
      assert Covered(t.revisions, t.heads, t.markers, r);
      if record in t.markers {
        DominatesAtOrAbove(VectorOf(t.revisions, w), t.markers[record].frontier, VectorOf(t.revisions, r));
      }
    }
  }

  lemma AdvanceKeepsLog(t: Tables, record: RecordId, w: RevisionId)
    requires LogInv(t.cursor, t.floor, t.origins, t.changes) && RowLogInv(t.floor, t.revisions, t.origins, t.changes)
    requires IsWitness(t, record, w) && record in t.barriers && t.cursor < MAX_UINT64
    ensures var u := AdvanceMarker(t, record, w);
            LogInv(u.cursor, u.floor, u.origins, u.changes) && RowLogInv(u.floor, u.revisions, u.origins, u.changes)
            && OriginsEvolve(t.origins, u.origins)
  {
    hide LogInv, RowLogInv, OriginsEvolve;
    LogGrows(t.cursor, t.floor, t.revisions, t.origins, t.changes, AdvanceMarker(t, record, w).changes[t.cursor + 1]);
  }

  lemma AdvanceKeepsMarkers(t: Tables, record: RecordId, w: RevisionId)
    requires HeadsInv(t.revisions, t.heads) && MarkersInv(t.revisions, t.heads, t.markers)
    requires IsWitness(t, record, w) && record in t.barriers
    ensures var u := AdvanceMarker(t, record, w);
            MarkersInv(u.revisions, u.heads, u.markers) && MarkersEvolve(t.markers, u.markers)
  {
    hide Dominates;
    var u := AdvanceMarker(t, record, w);
    WitnessIsSoleHead(t, record, w);
    forall h | h in u.heads && h in u.revisions && RecordOf(u.revisions, h) in u.markers
      ensures AtOrAbove(VectorOf(u.revisions, h), u.markers[RecordOf(u.revisions, h)].frontier)
    {
      if RecordOf(u.revisions, h) == record {
        assert h in HeadsOf(t.revisions, t.heads, record);
      }
    }
    forall r | r in u.revisions && !Retained(u.revisions[r])
      ensures RecordOf(u.revisions, r) in u.markers
      ensures AtOrAbove(u.markers[RecordOf(u.revisions, r)].frontier, VectorOf(u.revisions, r))
    {
      if RecordOf(u.revisions, r) == record {
        DominatesAtOrAbove(VectorOf(t.revisions, w), t.markers[record].frontier, VectorOf(u.revisions, r));
      }
    }
  }

  lemma AdvanceKeepsCoverage(t: Tables, record: RecordId, w: RevisionId)
    requires HeadsInv(t.revisions, t.heads) && CoverageInv(t.revisions, t.heads, t.markers)
    requires IsWitness(t, record, w) && record in t.barriers
    ensures var u := AdvanceMarker(t, record, w);
            CoverageInv(u.revisions, u.heads, u.markers)
  {
    var u := AdvanceMarker(t, record, w);
    forall r | r in u.revisions && Retained(u.revisions[r]) && r !in u.heads
      ensures Covered(u.revisions, u.heads, u.markers, r)
    {
      assert Covered(t.revisions, t.heads, t.markers, r);
      if RecordOf(t.revisions, r) == record {
        WitnessDominatesRetained(t, record, w, r);
      }
    }
  }

  lemma AdvanceKeepsQueue(t: Tables, record: RecordId, w: RevisionId)
    requires QueueInv(t.cursor, t.uptime, t.revisions, t.candidates, t.barriers) && RegistryInv(t.cursor, t.devices, t.revisions)
    requires IsWitness(t, record, w) && record in t.barriers
    ensures var u := AdvanceMarker(t, record, w);
            QueueInv(u.cursor, u.uptime, u.revisions, u.candidates, u.barriers) && RegistryInv(u.cursor, u.devices, u.revisions)
  {
  }

  lemma AdvanceKeepsInv(t: Tables, record: RecordId, w: RevisionId)
    requires StoreInv(t) && IsWitness(t, record, w) && record in t.barriers && t.cursor < MAX_UINT64
    ensures StoreInv(AdvanceMarker(t, record, w)) && Evolves(t, AdvanceMarker(t, record, w))
  {
    AdvanceKeepsLog(t, record, w);
    AdvanceKeepsMarkers(t, record, w);
    AdvanceKeepsCoverage(t, record, w);
    AdvanceKeepsQueue(t, record, w);
  }

  // ----- Collecting one revision -----------------------------------------------------

  /** What the collector may drop: a retained revision the marker covers. */
  predicate Collectable(t: Tables, r: RevisionId) {
    r in t.revisions && Retained(t.revisions[r]) && MarkerCovers(t, RecordOf(t.revisions, r), r)
  }

  /** A head is dropped only if it is a tombstone whose vector the frontier equals. */
  lemma CollectedHeadIsTombstone(t: Tables, r: RevisionId)
    requires MarkersInv(t.revisions, t.heads, t.markers) && Collectable(t, r) && r in t.heads
    ensures t.revisions[r].metadata.tombstone && VectorOf(t.revisions, r) == t.markers[RecordOf(t.revisions, r)].frontier
  {
    var frontier := t.markers[RecordOf(t.revisions, r)].frontier;
    DominatesIsStrictOrder(frontier, VectorOf(t.revisions, r), map[]);
  }

  /** The rows after `r` was collected in generation `g`. */
  function Dropped(revisions: map<RevisionId, Row>, r: RevisionId, g: nat): map<RevisionId, Row>
    requires r in revisions
  {
    revisions[r := revisions[r].(collected := Some(g))]
  }

  lemma CollectOneFields(t: Tables, r: RevisionId, g: nat)
    requires r in t.revisions
    ensures var u := CollectOne(t, r, g);
            && u == t.(revisions := Dropped(t.revisions, r, g), heads := t.heads - {r}, candidates := t.candidates - {r},
                       changes := t.changes - {t.revisions[r].cursor}, floor := Max(t.floor, t.revisions[r].cursor),
                       objects := if Pinned(t.snapshots, r) then t.objects else t.objects - {t.revisions[r].hash})
  {
  }

  lemma DroppedRows(revisions: map<RevisionId, Row>, r: RevisionId, g: nat)
    requires r in revisions
    ensures Dropped(revisions, r, g).Keys == revisions.Keys
    ensures forall q | q in revisions ::
              var after := Dropped(revisions, r, g);
              after[q].metadata == revisions[q].metadata && after[q].hash == revisions[q].hash
              && after[q].cursor == revisions[q].cursor && after[q].accepted == revisions[q].accepted
              && (Retained(after[q]) <==> Retained(revisions[q]) && q != r)
    ensures Retained(revisions[r]) ==> RowsEvolve(revisions, Dropped(revisions, r, g))
  {
  }

  lemma DropKeepsLog(cursor: Cursor, floor: Cursor, revisions: map<RevisionId, Row>, origins: map<Cursor, Kind>, changes: map<Cursor, Change>, r: RevisionId)
    requires LogInv(cursor, floor, origins, changes) && RowLogInv(floor, revisions, origins, changes)
    requires r in revisions
    ensures LogInv(cursor, Max(floor, revisions[r].cursor), origins, changes - {revisions[r].cursor})
  {
  }

  lemma DropKeepsRowLog(cursor: Cursor, floor: Cursor, revisions: map<RevisionId, Row>, origins: map<Cursor, Kind>, changes: map<Cursor, Change>, r: RevisionId, g: nat)
    requires RowLogInv(floor, revisions, origins, changes)
    requires r in revisions && Retained(revisions[r])
    ensures RowLogInv(Max(floor, revisions[r].cursor), Dropped(revisions, r, g), origins, changes - {revisions[r].cursor})
  {
    DroppedRows(revisions, r, g);
    var after, log := Dropped(revisions, r, g), changes - {revisions[r].cursor};
    forall q | q in after && Retained(after[q])
      ensures after[q].cursor in log && log[after[q].cursor] == RevisionChange(q)
    {
      assert q != r && revisions[q].cursor != revisions[r].cursor;
    }
    forall c | c in log && log[c].RevisionChange?
      ensures log[c].revision in after && after[log[c].revision].cursor == c
    {
      assert c in changes && changes[c].RevisionChange?;
    }
  }

  lemma DropKeepsObjects(revisions: map<RevisionId, Row>, objects: map<ContentHash, Revision>, snapshots: map<SnapshotId, Snapshot>, r: RevisionId, g: nat)
    requires ObjectsInv(revisions, objects, snapshots) && r in revisions
    ensures ObjectsInv(Dropped(revisions, r, g), if Pinned(snapshots, r) then objects else objects - {revisions[r].hash}, snapshots)
  {
    DroppedRows(revisions, r, g);
    var after := Dropped(revisions, r, g);
    var left := if Pinned(snapshots, r) then objects else objects - {revisions[r].hash};
    forall q | q in after
      ensures after[q].hash in left <==> Retained(after[q]) || Pinned(snapshots, q)
    {
      assert revisions[q].hash.of.id == q && revisions[r].hash.of.id == r;
    }
  }

  lemma DropKeepsHeads(revisions: map<RevisionId, Row>, heads: set<RevisionId>, r: RevisionId, g: nat)
    requires HeadsInv(revisions, heads) && SiblingsInv(revisions, heads) && r in revisions
    ensures HeadsInv(Dropped(revisions, r, g), heads - {r}) && SiblingsInv(Dropped(revisions, r, g), heads - {r})
  {
    DroppedRows(revisions, r, g);
    var after := Dropped(revisions, r, g);
    forall record
      ensures |HeadsOf(after, heads - {r}, record)| <= MAX_SIBLINGS
    {
      SubsetSize(HeadsOf(after, heads - {r}, record), HeadsOf(revisions, heads, record));
    }
  }

  lemma DropKeepsCoverage(t: Tables, r: RevisionId, g: nat)
    requires MarkersInv(t.revisions, t.heads, t.markers) && CoverageInv(t.revisions, t.heads, t.markers) && Collectable(t, r)
    ensures CoverageInv(Dropped(t.revisions, r, g), t.heads - {r}, t.markers)
  {
    DroppedRows(t.revisions, r, g);
    var after, heads := Dropped(t.revisions, r, g), t.heads - {r};
    forall q | q in after && Retained(after[q]) && q !in heads
      ensures Covered(after, heads, t.markers, q)
    {
      assert Covered(t.revisions, t.heads, t.markers, q);
      var record := RecordOf(t.revisions, q);
      if h :| h in HeadsOf(t.revisions, t.heads, record) && Dominates(VectorOf(t.revisions, h), VectorOf(t.revisions, q)) {
        if h == r {
          CollectedHeadIsTombstone(t, r);
        } else {
          assert h in HeadsOf(after, heads, record) && VectorOf(after, h) == VectorOf(t.revisions, h);
        }
      }
    }
  }

  lemma DropKeepsMarkers(t: Tables, r: RevisionId, g: nat)
    requires MarkersInv(t.revisions, t.heads, t.markers) && Collectable(t, r)
    ensures MarkersInv(Dropped(t.revisions, r, g), t.heads - {r}, t.markers)
  {
    DroppedRows(t.revisions, r, g);
  }

  lemma DropKeepsQueue(cursor: Cursor, uptime: nat, revisions: map<RevisionId, Row>, candidates: set<RevisionId>, barriers: map<RecordId, Cursor>, r: RevisionId, g: nat)
    requires QueueInv(cursor, uptime, revisions, candidates, barriers) && r in revisions
    ensures QueueInv(cursor, uptime, Dropped(revisions, r, g), candidates - {r}, barriers)
  {
    DroppedRows(revisions, r, g);
  }

  lemma DropKeepsRegistry(cursor: Cursor, devices: map<DeviceId, Device>, revisions: map<RevisionId, Row>, r: RevisionId, g: nat)
    requires RegistryInv(cursor, devices, revisions) && DistinctVectors(revisions) && AuthorsInv(revisions) && r in revisions
    ensures RegistryInv(cursor, devices, Dropped(revisions, r, g))
    ensures DistinctVectors(Dropped(revisions, r, g)) && AuthorsInv(Dropped(revisions, r, g))
  {
    DroppedRows(revisions, r, g);
  }

  lemma CollectOneKeepsInv(t: Tables, r: RevisionId, g: nat)
    requires StoreInv(t) && Collectable(t, r)
    ensures StoreInv(CollectOne(t, r, g)) && Evolves(t, CollectOne(t, r, g))
  {
    hide QueueInv, LogInv, RowLogInv, ObjectsInv, HeadsInv, SiblingsInv, DistinctVectors, CoverageInv, MarkersInv, RegistryInv, AuthorsInv,
         RowsEvolve, MarkersEvolve, AdmissionsDominate, DevicesEvolve, OriginsEvolve, CollectOne, Dropped;
    DropKeepsLog(t.cursor, t.floor, t.revisions, t.origins, t.changes, r);
    DropKeepsRowLog(t.cursor, t.floor, t.revisions, t.origins, t.changes, r, g);
    DropKeepsObjects(t.revisions, t.objects, t.snapshots, r, g);
    DropKeepsHeads(t.revisions, t.heads, r, g);
    DropKeepsCoverage(t, r, g);
    DropKeepsMarkers(t, r, g);
    DropKeepsQueue(t.cursor, t.uptime, t.revisions, t.candidates, t.barriers, r, g);
    DropKeepsRegistry(t.cursor, t.devices, t.revisions, r, g);
    CollectOneFields(t, r, g);
    DropEvolves(t, r, g);
  }

  lemma DropEvolves(t: Tables, r: RevisionId, g: nat)
    requires r in t.revisions && Retained(t.revisions[r])
    ensures RowsEvolve(t.revisions, Dropped(t.revisions, r, g)) && AdmissionsDominate(t, Dropped(t.revisions, r, g))
    ensures MarkersEvolve(t.markers, t.markers) && DevicesEvolve(t.devices, t.devices) && OriginsEvolve(t.origins, t.origins)
  {
    DroppedRows(t.revisions, r, g);
  }

  // ----- What a record's plan selects ---------------------------------------------------

  predicate Distinct(ids: seq<RevisionId>) {
    forall i, j | 0 <= i < j < |ids| :: ids[i] != ids[j]
  }

  lemma CandidateBatchFacts(t: Tables, record: RecordId)
    ensures forall c | c in CandidateBatch(t, record) :: c in AgedCandidates(t, record)
    ensures Distinct(CandidateBatch(t, record))
  {
    var ids := AgedCandidates(t, record);
    var listing := Listing(AgeKeys(t, ids));
    ListingIsOrdered(AgeKeys(t, ids));
    forall i | 0 <= i < |listing|
      ensures listing[i].minor in ids && listing[i] == AgeKey(t, listing[i].minor)
    {
      assert listing[i] in Elements(listing);
    }
    assert Minors(listing) == seq(|listing|, i requires 0 <= i < |listing| => listing[i].minor);
    assert forall i, j | 0 <= i < j < |listing| :: KeyLess(listing[i], listing[j]);
  }

  lemma {:induction false} FilterDistinct(s: seq<RevisionId>, keep: RevisionId -> bool)
    requires Distinct(s)
    ensures Distinct(Filter(s, keep))
  {
    if s != [] {
      FilterDistinct(s[1..], keep);
      FilterKeeps(s[1..], keep);
      assert s[0] !in s[1..];
    }
  }

  /** The selected revisions are distinct aged candidates of an acknowledged record. */
  lemma PlanFacts(t: Tables, record: RecordId)
    ensures PlanFor(t, record) != Skip ==>
              && record in t.barriers && Acknowledged(t.devices, t.barriers[record])
              && Distinct(PlanFor(t, record).selected) && PlanFor(t, record).selected != []
              && forall c | c in PlanFor(t, record).selected :: c in AgedCandidates(t, record)
    ensures PlanFor(t, record).Advance? ==>
              && IsWitness(t, record, PlanFor(t, record).w) && t.cursor != MAX_UINT64
              && forall c | c in PlanFor(t, record).selected :: WitnessCovers(t, PlanFor(t, record).w, c)
    ensures PlanFor(t, record).Prune? ==> forall c | c in PlanFor(t, record).selected :: MarkerCovers(t, record, c)
  {
    CandidateBatchFacts(t, record);
    var batch := CandidateBatch(t, record);
    var w := WitnessFor(t, record);
    if w.Some? {
      FilterDistinct(batch, (c: RevisionId) => WitnessCovers(t, w.value, c));
      FilterKeeps(batch, (c: RevisionId) => WitnessCovers(t, w.value, c));
    }
    FilterDistinct(batch, (c: RevisionId) => MarkerCovers(t, record, c));
    FilterKeeps(batch, (c: RevisionId) => MarkerCovers(t, record, c));
  }

  // ----- Collecting a whole selection ------------------------------------------------------

  lemma {:induction false} CollectAllKeepsInv(t: Tables, selected: seq<RevisionId>, g: nat)
    requires StoreInv(t) && Distinct(selected) && forall c | c in selected :: c in t.revisions && Collectable(t, c)
    ensures StoreInv(CollectAll(t, selected, g)) && Evolves(t, CollectAll(t, selected, g))
    decreases |selected|
  {
    hide StoreInv, Evolves;
    if selected == [] {
      EvolvesReflexive(t);
    } else {
      var u := CollectOne(t, selected[0], g);
      CollectOneKeepsInv(t, selected[0], g);
      CollectOneFields(t, selected[0], g);
      forall c | c in selected[1..]
        ensures Collectable(u, c)
      {
        assert c in selected && c != selected[0];
      }
      CollectAllKeepsInv(u, selected[1..], g);
      EvolvesTransitive(t, u, CollectAll(u, selected[1..], g));
    }
  }

  /** Exactly the selected revisions lose their bytes, change rows, heads and queue entries. */
  lemma {:induction false} CollectAllExact(t: Tables, selected: seq<RevisionId>, g: nat)
    requires forall c | c in selected :: c in t.revisions && Retained(t.revisions[c])
    requires Distinct(selected)
    ensures var u := CollectAll(t, selected, g);
            && u.revisions.Keys == t.revisions.Keys
            && (forall r | r in t.revisions ::
                  u.revisions[r] == if r in selected then t.revisions[r].(collected := Some(g)) else t.revisions[r])
            && (forall r :: r in u.heads <==> r in t.heads && r !in selected)
            && (forall r :: r in u.candidates <==> r in t.candidates && r !in selected)
            && (forall c :: c in u.changes <==> c in t.changes && forall r | r in selected :: t.revisions[r].cursor != c)
            && (forall c | c in u.changes :: u.changes[c] == t.changes[c])
            && (forall r | r in selected :: t.revisions[r].cursor <= u.floor)
            && (u.floor == t.floor || exists r :: r in selected && t.revisions[r].cursor == u.floor)
    decreases |selected|
  {
    if selected != [] {
      var first, rest := selected[0], selected[1..];
      var v := CollectOne(t, first, g);
      CollectOneFields(t, first, g);
      DroppedRows(t.revisions, first, g);
      assert forall c | c in rest :: c in selected && c != first;
      assert forall r :: r in selected <==> r == first || r in rest;
      CollectAllExact(v, rest, g);
      CollectAllFrame(v, rest, g);
    }
  }

  lemma {:induction false} CollectAllFrame(t: Tables, selected: seq<RevisionId>, g: nat)
    requires forall c | c in selected :: c in t.revisions
    ensures var u := CollectAll(t, selected, g);
            && u == t.(revisions := u.revisions, heads := u.heads, candidates := u.candidates, changes := u.changes,
                       floor := u.floor, objects := u.objects)
            && t.floor <= u.floor
    decreases |selected|
  {
    if selected != [] {
      CollectOneFields(t, selected[0], g);
      CollectAllFrame(CollectOne(t, selected[0], g), selected[1..], g);
    }
  }

  // ----- One record ---------------------------------------------------------------------------

  lemma CloseKeepsQueue(cursor: Cursor, uptime: nat, revisions: map<RevisionId, Row>, candidates: set<RevisionId>, barriers: map<RecordId, Cursor>, record: RecordId)
    requires QueueInv(cursor, uptime, revisions, candidates, barriers) && !HasCandidate(revisions, candidates, record)
    ensures QueueInv(cursor, uptime, revisions, candidates, barriers - {record})
  {
  }

  lemma CloseKeepsInv(t: Tables, record: RecordId, g: nat)
    requires StoreInv(t) && t.collectionGeneration <= g
    ensures StoreInv(CloseRecord(t, record, g)) && Evolves(t, CloseRecord(t, record, g))
  {
    hide QueueInv, LogInv, RowLogInv, ObjectsInv, HeadsInv, SiblingsInv, DistinctVectors, CoverageInv, MarkersInv, RegistryInv, AuthorsInv;
    if !HasCandidate(t.revisions, t.candidates, record) {
      CloseKeepsQueue(t.cursor, t.uptime, t.revisions, t.candidates, t.barriers, record);
    }
  }

  lemma PruneFacts(t: Tables, record: RecordId)
    requires PlanFor(t, record).Prune?
    ensures record in t.barriers && Acknowledged(t.devices, t.barriers[record]) && Distinct(PlanFor(t, record).selected)
    ensures forall c | c in PlanFor(t, record).selected :: c in t.revisions && Collectable(t, c) && c in AgedCandidates(t, record)
  {
    PlanFacts(t, record);
  }

  /** After the marker advanced to its witness, everything the witness covers is collectable. */
  lemma AdvanceFacts(t: Tables, record: RecordId)
    requires PlanFor(t, record).Advance?
    ensures var w := PlanFor(t, record).w;
            && w in t.revisions && t.revisions[w].metadata.authenticator.Some? && record in t.barriers
            && IsWitness(t, record, w) && t.cursor != MAX_UINT64
            && Acknowledged(t.devices, t.barriers[record]) && Distinct(PlanFor(t, record).selected)
            && forall c | c in PlanFor(t, record).selected ::
                 c in t.revisions && Collectable(AdvanceMarker(t, record, w), c)
                 && c in AgedCandidates(AdvanceMarker(t, record, w), record)
  {
    PlanFacts(t, record);
  }

  lemma CursorWithin(t: Tables)
    requires StoreInv(t)
    ensures t.cursor <= MAX_UINT64
  {
    hide RowLogInv, ObjectsInv, HeadsInv, SiblingsInv, DistinctVectors, CoverageInv, MarkersInv, QueueInv, RegistryInv, AuthorsInv;
  }

  lemma CollectRecordKeepsInv(t: Tables, record: RecordId, g: nat)
    requires StoreInv(t) && t.collectionGeneration <= g
    ensures StoreInv(CollectRecord(t, record, g)) && Evolves(t, CollectRecord(t, record, g))
  {
    hide StoreInv, Evolves, PlanFor, CollectAll, Acknowledged, AgedCandidates, IsWitness;
    CursorWithin(t);
    match PlanFor(t, record)
    case Skip =>
      EvolvesReflexive(t);
    case Prune(selected) =>
      PruneFacts(t, record);
      CollectKeepsInv(t, record, selected, g);
    case Advance(w, selected) =>
      AdvanceFacts(t, record);
      assert t.cursor < MAX_UINT64;
      AdvanceKeepsInv(t, record, w);
      var u := AdvanceMarker(t, record, w);
      CollectKeepsInv(u, record, selected, g);
      EvolvesTransitive(t, u, CollectRecord(t, record, g));
  }

  lemma CollectKeepsInv(t: Tables, record: RecordId, selected: seq<RevisionId>, g: nat)
    requires StoreInv(t) && t.collectionGeneration <= g && Distinct(selected)
    requires forall c | c in selected :: c in t.revisions && Collectable(t, c)
    ensures var u := CloseRecord(CollectAll(t, selected, g), record, g);
            StoreInv(u) && Evolves(t, u)
  {
    hide StoreInv, Evolves;
    var u := CollectAll(t, selected, g);
    CollectAllKeepsInv(t, selected, g);
    CollectAllFrame(t, selected, g);
    CloseKeepsInv(u, record, g);
    EvolvesTransitive(t, u, CloseRecord(u, record, g));
  }

  // ----- What collection may take, and what it must leave ---------------------------------------

  /**
   The retention promise: ninety days of uptime, and an acknowledgement from every active device
   that reached the record's barrier, and with it every revision the record has.
   */
  ghost predicate Eligible(t: Tables, r: RevisionId) {
    && r in t.revisions
    && t.revisions[r].accepted + MINIMUM_RETENTION_MS <= t.uptime
    && RecordOf(t.revisions, r) in t.barriers
    && Acknowledged(t.devices, t.barriers[RecordOf(t.revisions, r)])
  }

  /** `b` differs from `a` only by eligible collections. */
  ghost predicate TookOnlyEligible(a: Tables, b: Tables) {
    && b.uptime == a.uptime && b.devices == a.devices && b.snapshots == a.snapshots
    && b.revisions.Keys == a.revisions.Keys
    && (forall r | r in a.revisions :: b.revisions[r].(collected := a.revisions[r].collected) == a.revisions[r])
    && (forall r | r in a.revisions && Retained(a.revisions[r]) && !Retained(b.revisions[r]) :: Eligible(a, r))
    && (forall r | r in a.heads && r in a.revisions && r !in b.heads :: a.revisions[r].metadata.tombstone)
    && b.heads <= a.heads
    && (forall record | record in b.barriers :: record in a.barriers && b.barriers[record] == a.barriers[record])
  }

  lemma TookOnlyEligibleTransitive(a: Tables, b: Tables, c: Tables)
    requires TookOnlyEligible(a, b) && TookOnlyEligible(b, c)
    ensures TookOnlyEligible(a, c)
  {
    forall r | r in a.revisions && Retained(a.revisions[r]) && !Retained(c.revisions[r])
      ensures Eligible(a, r)
    {
      assert Retained(b.revisions[r]) ==> Eligible(b, r);
    }
  }

  lemma AdvanceTakesNothing(t: Tables, record: RecordId, w: RevisionId)
    requires IsWitness(t, record, w) && record in t.barriers
    ensures TookOnlyEligible(t, AdvanceMarker(t, record, w))
  {
  }

  lemma CollectAllTakesOnlyEligible(t: Tables, record: RecordId, selected: seq<RevisionId>, g: nat)
    requires QueueInv(t.cursor, t.uptime, t.revisions, t.candidates, t.barriers) && MarkersInv(t.revisions, t.heads, t.markers)
    requires record in t.barriers && Acknowledged(t.devices, t.barriers[record]) && Distinct(selected)
    requires forall c | c in selected :: c in t.revisions && Collectable(t, c) && c in AgedCandidates(t, record)
    ensures TookOnlyEligible(t, CollectAll(t, selected, g))
  {
    var u := CollectAll(t, selected, g);
    CollectAllExact(t, selected, g);
    CollectAllFrame(t, selected, g);
    forall r | r in t.revisions && Retained(t.revisions[r]) && !Retained(u.revisions[r])
      ensures Eligible(t, r)
    {
      assert r in selected && RecordOf(t.revisions, r) == record;
    }
    forall r | r in t.heads && r in t.revisions && r !in u.heads
      ensures t.revisions[r].metadata.tombstone
    {
      assert r in selected;
      CollectedHeadIsTombstone(t, r);
    }
  }

  lemma TookFrame(a: Tables, b: Tables, c: Tables)
    requires TookOnlyEligible(a, b)
    requires c.uptime == b.uptime && c.devices == b.devices && c.snapshots == b.snapshots && c.revisions == b.revisions && c.heads == b.heads
    requires forall record | record in c.barriers :: record in b.barriers && c.barriers[record] == b.barriers[record]
    ensures TookOnlyEligible(a, c)
  {
  }

  lemma CloseTakesOnlyEligible(t: Tables, u: Tables, record: RecordId, g: nat)
    requires TookOnlyEligible(t, u)
    ensures TookOnlyEligible(t, CloseRecord(u, record, g))
  {
    hide TookOnlyEligible, HasCandidate;
    TookFrame(t, u, CloseRecord(u, record, g));
  }

  lemma CollectRecordTakesOnlyEligible(t: Tables, record: RecordId, g: nat)
    requires StoreInv(t)
    ensures TookOnlyEligible(t, CollectRecord(t, record, g))
  {
    hide TookOnlyEligible, AgedCandidates, Acknowledged, QueueInv, MarkersInv, HeadsInv, RegistryInv;
    match PlanFor(t, record)
    case Skip =>
      assert TookOnlyEligible(t, t) by { TookNothing(t); }
    case Prune(selected) =>
      PruneFacts(t, record);
      CollectAllTakesOnlyEligible(t, record, selected, g);
      CloseTakesOnlyEligible(t, CollectAll(t, selected, g), record, g);
    case Advance(w, selected) =>
      AdvanceFacts(t, record);
      var u := AdvanceMarker(t, record, w);
      AdvanceKeepsMarkers(t, record, w);
      AdvanceKeepsQueue(t, record, w);
      AdvanceTakesNothing(t, record, w);
      CollectAllTakesOnlyEligible(u, record, selected, g);
      TookOnlyEligibleTransitive(t, u, CollectAll(u, selected, g));
      CloseTakesOnlyEligible(t, CollectAll(u, selected, g), record, g);
  }

  lemma TookNothing(t: Tables)
    ensures TookOnlyEligible(t, t)
  {
  }

  // ----- A whole pass -----------------------------------------------------------------------------

  lemma {:induction false} CollectRecordsKeepsInv(t: Tables, records: seq<RecordId>, g: nat)
    requires StoreInv(t) && t.collectionGeneration <= g
    ensures var u := CollectRecords(t, records, g);
            StoreInv(u) && Evolves(t, u) && TookOnlyEligible(t, u) && u.collectionGeneration <= g
    decreases |records|
  {
    hide StoreInv, Evolves, TookOnlyEligible;
    if records == [] {
      EvolvesReflexive(t);
      TookNothing(t);
    } else {
      var u := CollectRecord(t, records[0], g);
      CollectRecordKeepsInv(t, records[0], g);
      CollectRecordTakesOnlyEligible(t, records[0], g);
      CollectRecordGeneration(t, records[0], g);
      CollectRecordsKeepsInv(u, records[1..], g);
      EvolvesTransitive(t, u, CollectRecords(u, records[1..], g));
      TookOnlyEligibleTransitive(t, u, CollectRecords(u, records[1..], g));
    }
  }

  lemma CollectRecordGeneration(t: Tables, record: RecordId, g: nat)
    requires t.collectionGeneration <= g
    ensures CollectRecord(t, record, g).collectionGeneration <= g
  {
  }

  /**
   Collection safety.  One pass keeps the joint invariant; it takes only
   revisions older than ninety days of uptime whose record's barrier every active
   device acknowledged; it removes no live head; and a tombstone head goes only under a
   frontier equal to its vector.
   */
  lemma CollectEligibleSafe(t: Tables)
    requires StoreInv(t)
    ensures var u := CollectEligible(t);
            StoreInv(u) && Evolves(t, u) && TookOnlyEligible(t, u)
  {
    hide TookOnlyEligible, LogInv, RowLogInv, ObjectsInv, HeadsInv, SiblingsInv, DistinctVectors, CoverageInv, MarkersInv,
         QueueInv, RegistryInv, AuthorsInv, RowsEvolve, MarkersEvolve, AdmissionsDominate, DevicesEvolve, OriginsEvolve;
    EvolvesReflexive(t);
    TookNothing(t);
    if ReachesScan(t) {
      var batch := ScanBatch(t.barriers.Keys, t.scanAfter);
      CollectRecordsKeepsInv(t, batch, t.collectionGeneration + 1);
      var u := CollectRecords(t, batch, t.collectionGeneration + 1);
      TookFrame(t, t, t.(scanAfter := None));
      if batch != [] {
        TookFrame(t, u, u.(scanAfter := Some(batch[|batch| - 1])));
      }
    }
  }

  // ----- Tombstone heads ----------------------------------------------------------------------------

  /** A head that left did so under a frontier equal to its vector, as its record's last head. */
  ghost predicate HeadsLeftUnderFrontier(a: Tables, b: Tables) {
    && b.heads <= a.heads && b.revisions.Keys == a.revisions.Keys
    && (forall r | r in a.revisions :: b.revisions[r].metadata == a.revisions[r].metadata)
    && (forall record | record in a.markers && HeadsOf(a.revisions, a.heads, record) == {} ::
          record in b.markers && b.markers[record] == a.markers[record])
    && (forall r | r in a.heads && r in a.revisions && r !in b.heads ::
          && RecordOf(a.revisions, r) in b.markers
          && b.markers[RecordOf(a.revisions, r)].frontier == VectorOf(a.revisions, r)
          && HeadsOf(b.revisions, b.heads, RecordOf(a.revisions, r)) == {})
  }

  lemma HeadsLeftTransitive(a: Tables, b: Tables, c: Tables)
    requires HeadsLeftUnderFrontier(a, b) && HeadsLeftUnderFrontier(b, c)
    ensures HeadsLeftUnderFrontier(a, c)
  {
    forall record | HeadsOf(b.revisions, b.heads, record) == {}
      ensures HeadsOf(c.revisions, c.heads, record) == {}
    {
      assert HeadsOf(c.revisions, c.heads, record) <= HeadsOf(b.revisions, b.heads, record);
    }
    forall record | HeadsOf(a.revisions, a.heads, record) == {}
      ensures HeadsOf(b.revisions, b.heads, record) == {}
    {
      assert HeadsOf(b.revisions, b.heads, record) <= HeadsOf(a.revisions, a.heads, record);
    }
  }

  lemma CollectedHeadWasAlone(t: Tables, r: RevisionId, h: RevisionId)
    requires HeadsInv(t.revisions, t.heads) && DistinctVectors(t.revisions) && MarkersInv(t.revisions, t.heads, t.markers)
    requires Collectable(t, r) && r in t.heads && h in HeadsOf(t.revisions, t.heads, RecordOf(t.revisions, r))
    ensures h == r
  {
    CollectedHeadIsTombstone(t, r);
  }

  lemma CollectOneHeads(t: Tables, r: RevisionId, g: nat)
    requires HeadsInv(t.revisions, t.heads) && DistinctVectors(t.revisions) && MarkersInv(t.revisions, t.heads, t.markers)
    requires Collectable(t, r)
    ensures HeadsLeftUnderFrontier(t, CollectOne(t, r, g))
  {
    CollectOneFields(t, r, g);
    DroppedRows(t.revisions, r, g);
    var u := CollectOne(t, r, g);
    if r in t.heads {
      CollectedHeadIsTombstone(t, r);
      forall h | h in HeadsOf(t.revisions, t.heads, RecordOf(t.revisions, r))
        ensures h == r
      {
        CollectedHeadWasAlone(t, r, h);
      }
      assert HeadsOf(u.revisions, u.heads, RecordOf(t.revisions, r)) <= HeadsOf(t.revisions, t.heads, RecordOf(t.revisions, r));
    }
  }

  lemma {:induction false} CollectAllHeads(t: Tables, selected: seq<RevisionId>, g: nat)
    requires StoreInv(t) && Distinct(selected) && forall c | c in selected :: c in t.revisions && Collectable(t, c)
    ensures HeadsLeftUnderFrontier(t, CollectAll(t, selected, g))
    decreases |selected|
  {
    hide Evolves, HeadsLeftUnderFrontier, HeadsInv, MarkersInv, DistinctVectors, LogInv, RowLogInv, ObjectsInv, SiblingsInv,
         CoverageInv, QueueInv, RegistryInv, AuthorsInv;
    if selected == [] {
      HeadsLeftReflexive(t);
    } else {
      var u := CollectOne(t, selected[0], g);
      CollectOneKeepsInv(t, selected[0], g);
      CollectOneFields(t, selected[0], g);
      CollectOneHeads(t, selected[0], g);
      forall c | c in selected[1..]
        ensures c in u.revisions && Collectable(u, c)
      {
        assert c in selected && c != selected[0];
      }
      CollectAllHeads(u, selected[1..], g);
      HeadsLeftTransitive(t, u, CollectAll(u, selected[1..], g));
    }
  }

  lemma HeadsLeftFrame(a: Tables, b: Tables, c: Tables)
    requires HeadsLeftUnderFrontier(a, b) && c.revisions == b.revisions && c.heads == b.heads && c.markers == b.markers
    ensures HeadsLeftUnderFrontier(a, c)
  {
  }

  lemma HeadsLeftReflexive(t: Tables)
    ensures HeadsLeftUnderFrontier(t, t)
  {
  }

  lemma AdvanceHeads(t: Tables, record: RecordId, w: RevisionId)
    requires IsWitness(t, record, w) && record in t.barriers
    ensures HeadsLeftUnderFrontier(t, AdvanceMarker(t, record, w))
  {
    assert w in HeadsOf(t.revisions, t.heads, record);
  }

  lemma CloseHeads(t: Tables, u: Tables, record: RecordId, g: nat)
    requires HeadsLeftUnderFrontier(t, u)
    ensures HeadsLeftUnderFrontier(t, CloseRecord(u, record, g))
  {
    hide HeadsLeftUnderFrontier, HasCandidate;
    HeadsLeftFrame(t, u, CloseRecord(u, record, g));
  }

  lemma CollectRecordHeads(t: Tables, record: RecordId, g: nat)
    requires StoreInv(t)
    ensures HeadsLeftUnderFrontier(t, CollectRecord(t, record, g))
  {
    hide HeadsLeftUnderFrontier, Evolves;
    match PlanFor(t, record)
    case Skip =>
      HeadsLeftReflexive(t);
    case Prune(selected) =>
      PruneFacts(t, record);
      CollectAllHeads(t, selected, g);
      CloseHeads(t, CollectAll(t, selected, g), record, g);
    case Advance(w, selected) =>
      AdvanceFacts(t, record);
      assert t.cursor < MAX_UINT64;
      hide StoreInv;
      AdvanceKeepsInv(t, record, w);
      AdvanceHeads(t, record, w);
      var u := AdvanceMarker(t, record, w);
      CollectAllHeads(u, selected, g);
      HeadsLeftTransitive(t, u, CollectAll(u, selected, g));
      CloseHeads(t, CollectAll(u, selected, g), record, g);
  }

  lemma {:induction false} CollectRecordsHeads(t: Tables, records: seq<RecordId>, g: nat)
    requires StoreInv(t) && t.collectionGeneration <= g
    ensures HeadsLeftUnderFrontier(t, CollectRecords(t, records, g))
    decreases |records|
  {
    hide StoreInv, Evolves, HeadsLeftUnderFrontier;
    if records == [] {
      HeadsLeftReflexive(t);
    } else {
      var u := CollectRecord(t, records[0], g);
      CollectRecordKeepsInv(t, records[0], g);
      CollectRecordHeads(t, records[0], g);
      CollectRecordGeneration(t, records[0], g);
      CollectRecordsHeads(u, records[1..], g);
      HeadsLeftTransitive(t, u, CollectRecords(u, records[1..], g));
    }
  }

  /** A pass removes a head only if it is a tombstone, the frontier then equals its vector, and no sibling is left. */
  lemma TombstoneHeadsGoUnderEqualFrontier(t: Tables, r: RevisionId)
    requires StoreInv(t) && r in t.heads && r !in CollectEligible(t).heads
    ensures var u := CollectEligible(t);
            && r in u.revisions && u.revisions[r].metadata.tombstone
            && RecordOf(u.revisions, r) in u.markers
            && u.markers[RecordOf(u.revisions, r)].frontier == VectorOf(u.revisions, r)
            && HeadsOf(u.revisions, u.heads, RecordOf(u.revisions, r)) == {}
  {
    hide LogInv, RowLogInv, ObjectsInv, SiblingsInv, DistinctVectors, CoverageInv, MarkersInv, QueueInv, RegistryInv, AuthorsInv,
         Evolves, Eligible, ScanBatch, CollectRecords;
    CollectEligibleSafe(t);
    CollectRecordsHeads(t, ScanBatch(t.barriers.Keys, t.scanAfter), t.collectionGeneration + 1);
  }
}
