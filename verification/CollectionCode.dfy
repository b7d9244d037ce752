/**
 The collection pass as the server runs it, loop by loop, proved equal to the
 set-level description in `Collection`.
 */
module CollectionCode {
  import opened Outcomes
  import opened Uint64
  import opened Vectors
  import opened Ordering
  import opened StoreTables
  import opened Collection
  import opened CollectionProofs

  method LoadActiveAcknowledgements(devices: map<DeviceId, Device>) returns (acks: seq<Cursor>)
    ensures forall barrier: Cursor :: (forall i | 0 <= i < |acks| :: barrier <= acks[i]) <==> Acknowledged(devices, barrier)
    ensures acks == [] <==> forall d | d in devices :: devices[d].revoked
  {
    acks := [];
    ghost var seen: seq<DeviceId> := [];
    var rest := devices.Keys;
    while rest != {}
      invariant rest <= devices.Keys && |seen| == |acks|
      invariant forall d | d in devices && d !in rest && !devices[d].revoked :: d in seen
      invariant forall i | 0 <= i < |seen| :: seen[i] in devices && !devices[seen[i]].revoked && acks[i] == devices[seen[i]].ack
      decreases |rest|
    {
      var d :| d in rest;
      if !devices[d].revoked {
        acks := acks + [devices[d].ack];
        seen := seen + [d];
      }
      rest := rest - {d};
    }
    forall d | d in devices && !devices[d].revoked
      ensures acks != []
    {
      assert d in seen;
    }
    if acks != [] {
      assert !devices[seen[0]].revoked;
    }
    forall barrier: Cursor | forall i | 0 <= i < |acks| :: barrier <= acks[i]
      ensures Acknowledged(devices, barrier)
    {
      forall d | d in devices && !devices[d].revoked
        ensures barrier <= devices[d].ack
      {
        var i :| 0 <= i < |seen| && seen[i] == d;
        assert barrier <= acks[i];
      }
    }
  }

  method AllAcknowledged(acks: seq<Cursor>, barrier: Cursor) returns (all: bool)
    ensures all <==> forall i | 0 <= i < |acks| :: barrier <= acks[i]
  {
    for i := 0 to |acks|
      invariant forall j | 0 <= j < i :: barrier <= acks[j]
    {
      if acks[i] < barrier {
        return false;
      }
    }
    all := true;
  }

  /** The first head that may witness a new marker; there is at most one. */
  method SelectAdvancingWitness(t: Tables, record: RecordId) returns (w: Option<RevisionId>)
    ensures w == WitnessFor(t, record)
  {
    var heads := HeadsOf(t.revisions, t.heads, record);
    var rest := heads;
    while rest != {}
      invariant rest <= heads
      invariant forall h | h in heads && h !in rest :: !IsWitness(t, record, h)
      decreases |rest|
    {
      var h :| h in rest;
      rest := rest - {h};
      var accepted := t.revisions[h].metadata.authenticator.Some?;
      if accepted && record in t.markers {
        accepted := VectorDominates(VectorOf(t.revisions, h), t.markers[record].frontier);
      }
      if accepted {
        accepted := DominatesAll(t, h, heads);
      }
      if accepted {
        assert IsWitness(t, record, h);
        WitnessUnique(t, record, h, WitnessFor(t, record).value);
        return Some(h);
      }
    }
    w := None;
  }

  method DominatesAll(t: Tables, h: RevisionId, heads: set<RevisionId>) returns (all: bool)
    requires h in t.revisions && forall o | o in heads :: o in t.revisions
    ensures all <==> forall o | o in heads && o != h :: Dominates(VectorOf(t.revisions, h), VectorOf(t.revisions, o))
  {
    var rest := heads - {h};
    while rest != {}
      invariant rest <= heads - {h}
      invariant forall o | o in heads && o != h && o !in rest :: Dominates(VectorOf(t.revisions, h), VectorOf(t.revisions, o))
      decreases |rest|
    {
      var o :| o in rest;
      var above := VectorDominates(VectorOf(t.revisions, h), VectorOf(t.revisions, o));
      if !above {
        return false;
      }
      rest := rest - {o};
    }
    all := true;
  }

  method SelectWitnessCovered(t: Tables, batch: seq<RevisionId>, w: Option<RevisionId>) returns (selected: seq<RevisionId>)
    requires w.Some? ==> w.value in t.revisions
    requires forall i | 0 <= i < |batch| :: batch[i] in t.revisions
    ensures selected == if w.None? then [] else Filter(batch, (c: RevisionId) => WitnessCovers(t, w.value, c))
  {
    selected := [];
    if w.None? {
      return;
    }
    ghost var keep := (c: RevisionId) => WitnessCovers(t, w.value, c);
    for i := 0 to |batch|
      invariant Filter(batch, keep) == selected + Filter(batch[i..], keep)
    {
      var c := batch[i];
      FilterStep(batch, keep, i, selected);
      if c == w.value {
        if t.revisions[w.value].metadata.tombstone {
          selected := selected + [c];
        }
      } else {
        var below := VectorDominates(VectorOf(t.revisions, w.value), VectorOf(t.revisions, c));
        if below {
          selected := selected + [c];
        }
      }
    }
  }

  method SelectMarkerCovered(t: Tables, record: RecordId, batch: seq<RevisionId>) returns (selected: seq<RevisionId>)
    requires forall i | 0 <= i < |batch| :: batch[i] in t.revisions
    requires record in t.markers ==> Positive(t.markers[record].frontier)
    requires forall i | 0 <= i < |batch| :: Positive(VectorOf(t.revisions, batch[i]))
    ensures selected == Filter(batch, (c: RevisionId) => MarkerCovers(t, record, c))
  {
    selected := [];
    ghost var keep := (c: RevisionId) => MarkerCovers(t, record, c);
    if record !in t.markers {
      FilterNone(batch, keep);
      return;
    }
    var marker := t.markers[record];
    for i := 0 to |batch|
      invariant Filter(batch, keep) == selected + Filter(batch[i..], keep)
    {
      var c := batch[i];
      FilterStep(batch, keep, i, selected);
      var same := VectorsEqual(VectorOf(t.revisions, c), marker.frontier);
      SameEntriesIsEquality(VectorOf(t.revisions, c), marker.frontier);
      if c == marker.witnessId && same {
        if t.revisions[c].metadata.tombstone {
          selected := selected + [c];
        }
      } else {
        var below := VectorDominates(marker.frontier, VectorOf(t.revisions, c));
        if below {
          selected := selected + [c];
        }
      }
    }
  }

  lemma {:induction false} FilterNone(s: seq<RevisionId>, keep: RevisionId -> bool)
    requires forall i | 0 <= i < |s| :: !keep(s[i])
    ensures Filter(s, keep) == []
  {
    if s != [] {
      FilterNone(s[1..], keep);
    }
  }

  /** Candidates whose stored eight-byte acceptance time is at most the cutoff, oldest first. */
  method LoadCandidates(t: Tables, record: RecordId) returns (batch: seq<RevisionId>)
    requires t.uptime <= MAX_UINT64 && forall r | r in t.revisions :: t.revisions[r].accepted <= MAX_UINT64
    ensures batch == CandidateBatch(t, record)
  {
    var aged: set<RevisionId> := {};
    if MINIMUM_RETENTION_MS <= t.uptime {
      var cutoff := EncodeUint64(t.uptime - MINIMUM_RETENTION_MS);
      var rest := t.candidates;
      while rest != {}
        invariant rest <= t.candidates
        invariant forall r :: r in aged <==> r in AgedCandidates(t, record) && r !in rest
        decreases |rest|
      {
        var r :| r in rest;
        if r in t.revisions && RecordOf(t.revisions, r) == record && Retained(t.revisions[r]) {
          Uint64BlobOrder(t.uptime - MINIMUM_RETENTION_MS, t.revisions[r].accepted);
          if !BlobLess(cutoff, EncodeUint64(t.revisions[r].accepted)) {
            aged := aged + {r};
          }
        }
        rest := rest - {r};
      }
    }
    assert aged == AgedCandidates(t, record);
    var listing := OrderBy(AgeKeys(t, aged));
    batch := Prefix(Minors(listing), CANDIDATE_BATCH);
  }

  method CollectSelected(t: Tables, selected: seq<RevisionId>, generation: nat) returns (u: Tables)
    requires forall r | r in selected :: r in t.revisions
    ensures u == CollectAll(t, selected, generation)
  {
    u := t;
    for k := 0 to |selected|
      invariant u.revisions.Keys == t.revisions.Keys
      invariant forall r | r in selected[k..] :: r in u.revisions
      invariant CollectAll(u, selected[k..], generation) == CollectAll(t, selected, generation)
    {
      var r := selected[k];
      assert r in selected;
      assert selected[k..][0] == r && selected[k..][1..] == selected[k + 1..];
      var row := u.revisions[r];
      ghost var before := u;
      u := u.(revisions := u.revisions[r := row.(collected := Some(generation))]);
      u := u.(heads := u.heads - {r});
      u := u.(changes := u.changes - {row.cursor});
      u := u.(candidates := u.candidates - {r});
      if row.cursor > u.floor {
        u := u.(floor := row.cursor);
      }
      if !Pinned(u.snapshots, r) {
        u := u.(objects := u.objects - {row.hash});
      }
      assert u == CollectOne(before, r, generation);
    }
  }

  lemma CandidateBatchRows(t: Tables, record: RecordId)
    ensures forall i | 0 <= i < |CandidateBatch(t, record)| :: CandidateBatch(t, record)[i] in t.revisions
  {
    var keys := AgeKeys(t, AgedCandidates(t, record));
    var listing := Listing(keys);
    ListingIsOrdered(keys);
    forall i | 0 <= i < |listing|
      ensures listing[i].minor in t.revisions
    {
      assert listing[i] in Elements(listing);
    }
  }

  /** One record of the pass: skip it, prune under the existing marker, or advance the marker and prune. */
  method CollectRecordTx(t: Tables, record: RecordId, acks: seq<Cursor>, generation: nat) returns (u: Tables)
    requires record in t.barriers
    requires (forall i | 0 <= i < |acks| :: t.barriers[record] <= acks[i]) <==> Acknowledged(t.devices, t.barriers[record])
    requires t.uptime <= MAX_UINT64 && forall r | r in t.revisions :: t.revisions[r].accepted <= MAX_UINT64
    requires forall r | r in t.revisions :: Positive(VectorOf(t.revisions, r))
    requires record in t.markers ==> Positive(t.markers[record].frontier)
    ensures u == CollectRecord(t, record, generation)
  {
    hide WitnessCovers, MarkerCovers, CandidateBatch, IsWitness, Acknowledged, Positive, CollectAll, HasCandidate;
    u := t;
    var acknowledged := AllAcknowledged(acks, t.barriers[record]);
    if !acknowledged {
      return;
    }
    var batch := LoadCandidates(t, record);
    CandidateBatchRows(t, record);
    var w := SelectAdvancingWitness(t, record);
    WitnessIsStored(t, record);
    var selected := SelectWitnessCovered(t, batch, w);
    var markerAdvanced := w.Some? && selected != [] && t.cursor != MAX_UINT64;
    if !markerAdvanced {
      selected := SelectMarkerCovered(t, record, batch);
      if selected == [] {
        return;
      }
    }
    PlanSelectsRows(t, record);
    if markerAdvanced {
      u := AdvanceMarker(u, record, w.value);
    }
    u := CollectSelected(u, selected, generation);
    u := CloseRecord(u, record, generation);
  }

  lemma WitnessIsStored(t: Tables, record: RecordId)
    ensures WitnessFor(t, record).Some? ==>
              WitnessFor(t, record).value in t.revisions && t.revisions[WitnessFor(t, record).value].metadata.authenticator.Some?
  {
  }

  // ----- The whole pass ----------------------------------------------------------------

  method LoadRecordBatch(queued: set<RecordId>, position: Option<RecordId>) returns (batch: seq<RecordId>)
    ensures batch == RecordBatch(queued, position)
  {
    var listing := OrderBy(IdKeys(After(queued, position)));
    batch := Prefix(Minors(listing), RECORD_BATCH);
  }

  lemma RecordBatchRows(queued: set<RecordId>, position: Option<RecordId>)
    ensures forall i | 0 <= i < |RecordBatch(queued, position)| :: RecordBatch(queued, position)[i] in After(queued, position)
    ensures forall i, j | 0 <= i < j < |RecordBatch(queued, position)| :: RecordBatch(queued, position)[i] < RecordBatch(queued, position)[j]
  {
    var keys := IdKeys(After(queued, position));
    var listing := Listing(keys);
    ListingIsOrdered(keys);
    forall i | 0 <= i < |listing|
      ensures listing[i].major == 0 && listing[i].minor in After(queued, position)
    {
      assert listing[i] in Elements(listing);
    }
    assert forall i, j | 0 <= i < j < |listing| :: KeyLess(listing[i], listing[j]);
  }

  lemma StoredValuesBounded(t: Tables)
    requires StoreInv(t)
    ensures t.uptime <= MAX_UINT64 && forall r | r in t.revisions :: t.revisions[r].accepted <= MAX_UINT64
    ensures forall r | r in t.revisions :: Positive(VectorOf(t.revisions, r))
    ensures forall record | record in t.markers :: Positive(t.markers[record].frontier)
  {
    hide LogInv, RowLogInv, ObjectsInv, HeadsInv, SiblingsInv, DistinctVectors, CoverageInv, AuthorsInv;
    forall r | r in t.revisions
      ensures Positive(VectorOf(t.revisions, r))
    {
      assert Known(t.devices, VectorOf(t.revisions, r));
    }
    forall record | record in t.markers
      ensures Positive(t.markers[record].frontier)
    {
      assert t.markers[record].witnessId in t.revisions;
    }
  }

  lemma CollectRecordBarriers(t: Tables, record: RecordId, g: nat)
    ensures var u := CollectRecord(t, record, g);
            && u.devices == t.devices
            && forall other | other in t.barriers && other != record :: other in u.barriers && u.barriers[other] == t.barriers[other]
  {
    hide HasCandidate, CollectAll;
    PlanSelectsRows(t, record);
    match PlanFor(t, record)
    case Skip =>
    case Prune(selected) =>
      CollectAllFrame(t, selected, g);
    case Advance(w, selected) =>
      CollectAllFrame(AdvanceMarker(t, record, w), selected, g);
  }

  method CollectBatch(t: Tables, batch: seq<RecordId>, acks: seq<Cursor>, generation: nat) returns (u: Tables)
    requires StoreInv(t) && t.collectionGeneration <= generation
    requires forall i | 0 <= i < |batch| :: batch[i] in t.barriers
    requires forall i, j | 0 <= i < j < |batch| :: batch[i] < batch[j]
    requires forall barrier: Cursor :: (forall i | 0 <= i < |acks| :: barrier <= acks[i]) <==> Acknowledged(t.devices, barrier)
    ensures u == CollectRecords(t, batch, generation)
  {
    hide StoreInv, Acknowledged, CollectRecord, Positive;
    u := t;
    for k := 0 to |batch|
      invariant StoreInv(u) && u.collectionGeneration <= generation && u.devices == t.devices
      invariant forall i | k <= i < |batch| :: batch[i] in u.barriers
      invariant CollectRecords(u, batch[k..], generation) == CollectRecords(t, batch, generation)
    {
      assert batch[k..][0] == batch[k] && batch[k..][1..] == batch[k + 1..];
      StoredValuesBounded(u);
      CollectRecordKeepsInv(u, batch[k], generation);
      CollectRecordGeneration(u, batch[k], generation);
      CollectRecordBarriers(u, batch[k], generation);
      u := CollectRecordTx(u, batch[k], acks, generation);
    }
  }

  /** The collection half of a sync request. */
  method CollectEligibleTx(t: Tables) returns (u: Tables)
    requires StoreInv(t)
    ensures u == CollectEligible(t)
  {
    hide StoreInv, CollectRecords, RecordBatch;
    u := t;
    if t.collectionGeneration == MAX_UINT64 {
      return;
    }
    var acks := LoadActiveAcknowledgements(t.devices);
    if acks == [] {
      return;
    }
    var batch := LoadRecordBatch(t.barriers.Keys, t.scanAfter);
    RecordBatchRows(t.barriers.Keys, t.scanAfter);
    if batch == [] {
      if t.scanAfter.Some? {
        u := u.(scanAfter := None);
        batch := LoadRecordBatch(t.barriers.Keys, None);
        RecordBatchRows(t.barriers.Keys, None);
      }
      if batch == [] {
        return;
      }
    }
    u := CollectBatch(t, batch, acks, t.collectionGeneration + 1);
    u := u.(scanAfter := Some(batch[|batch| - 1]));
  }
}
