/**
 Admission of client mutations, one at a time: the reference the batch
 validation of a sync request is proved against.
 */
module Admission {
  import opened Outcomes
  import opened Uint64
  import opened Vectors
  import opened StoreTables

  const MAX_VECTOR_ENTRIES := 64
  const MAX_MUTATIONS := 256

  /** The request-shape checks on one mutation of `device`. */
  predicate WellShaped(device: DeviceId, rev: Revision) {
    var m := rev.metadata;
    && m.author == device
    && 0 < m.counter <= MAX_UINT64
    && 1 <= |m.vector| <= MAX_VECTOR_ENTRIES
    && Positive(m.vector)
    && m.author in m.vector && m.vector[m.author] == m.counter
  }

  predicate AllWellShaped(device: DeviceId, batch: seq<Revision>) {
    forall i | 0 <= i < |batch| :: batch[i].metadata.author == device && WellShaped(device, batch[i])
  }

  function Superseded(revisions: map<RevisionId, Row>, heads: set<RevisionId>, rev: Revision): set<RevisionId> {
    set h | h in HeadsOf(revisions, heads, rev.metadata.record) && Dominates(rev.metadata.vector, VectorOf(revisions, h))
  }

  predicate EntersAsHead(revisions: map<RevisionId, Row>, heads: set<RevisionId>, rev: Revision) {
    forall h | h in HeadsOf(revisions, heads, rev.metadata.record) :: !Dominates(VectorOf(revisions, h), rev.metadata.vector)
  }

  function HeadsAfter(revisions: map<RevisionId, Row>, heads: set<RevisionId>, rev: Revision): set<RevisionId> {
    var kept := heads - Superseded(revisions, heads, rev);
    if EntersAsHead(revisions, heads, rev) then kept + {rev.id} else kept
  }

  function NewRow(t: Tables, rev: Revision): Row {
    Row(rev.metadata, ContentHash(rev), t.uptime, t.cursor + 1, None)
  }

  /** Write one new revision at the next cursor. */
  function AdmitOne(t: Tables, rev: Revision): Tables
    requires rev.metadata.author in t.devices
  {
    var c := t.cursor + 1;
    var author := rev.metadata.author;
    t.(cursor := c,
       revisions := t.revisions[rev.id := NewRow(t, rev)],
       objects := t.objects[ContentHash(rev) := rev],
       heads := HeadsAfter(t.revisions, t.heads, rev),
       candidates := t.candidates + {rev.id},
       barriers := t.barriers[rev.metadata.record := c],
       origins := t.origins[c := RecordRevision],
       changes := t.changes[c := RevisionChange(rev.id)],
       devices := t.devices[author := t.devices[author].(maxCounter := rev.metadata.counter)])
  }

  predicate VectorTaken(revisions: map<RevisionId, Row>, rev: Revision) {
    exists q | q in revisions ::
      q != rev.id && RecordOf(revisions, q) == rev.metadata.record && VectorOf(revisions, q) == rev.metadata.vector
  }

  predicate Registered(devices: map<DeviceId, Device>, rev: Revision) {
    forall d | d in rev.metadata.vector && d != rev.metadata.author :: d in devices
  }

  predicate WithinCounters(devices: map<DeviceId, Device>, rev: Revision) {
    forall d | d in rev.metadata.vector && d != rev.metadata.author && d in devices ::
      rev.metadata.vector[d] <= devices[d].maxCounter
  }

  /** Heads the record would have once `rev` is stored. */
  function SiblingsAfter(t: Tables, rev: Revision): set<RevisionId> {
    HeadsOf(t.revisions[rev.id := NewRow(t, rev)], HeadsAfter(t.revisions, t.heads, rev), rev.metadata.record)
  }

  /** The first rule a new mutation breaks, in the order the server checks them. */
  function Refusal(t: Tables, rev: Revision): Option<Error>
    requires rev.metadata.author in t.devices
  {
    var m := rev.metadata;
    if VectorTaken(t.revisions, rev) then Some(RevisionEquivocation)
    else if t.devices[m.author].maxCounter == MAX_UINT64 then Some(CounterExhausted)
    else if m.counter != t.devices[m.author].maxCounter + 1 then Some(CounterConflict)
    else if !Registered(t.devices, rev) then Some(InvalidRequest)
    else if !WithinCounters(t.devices, rev) then Some(CounterConflict)
    else if m.record in t.markers && !Dominates(m.vector, t.markers[m.record].frontier) then Some(StaleAfterCollection)
    else if |SiblingsAfter(t, rev)| > MAX_SIBLINGS then Some(TooManySiblings)
    else None
  }

  function AdmitNext(t: Tables, rev: Revision): Result<Tables>
    requires rev.metadata.author in t.devices
  {
    if rev.id in t.revisions then
      if t.revisions[rev.id].hash == ContentHash(rev) then Ok(t) else Err(RevisionEquivocation)
    else
      match Refusal(t, rev)
      case Some(e) => Err(e)
      case None => Ok(AdmitOne(t, rev))
  }

  /** Admit a batch one mutation after the other; the first refusal refuses the batch. */
  function AdmitAll(t: Tables, device: DeviceId, batch: seq<Revision>): Result<Tables>
    requires device in t.devices && forall i | 0 <= i < |batch| :: batch[i].metadata.author == device
    decreases |batch|
  {
    if batch == [] then Ok(t)
    else
      match AdmitNext(t, batch[0])
      case Err(e) => Err(e)
      case Ok(u) => AdmitAll(u, device, batch[1..])
  }

  /** A batch the cursor space cannot hold is refused whole. */
  function AdmitWithinCursors(t: Tables, device: DeviceId, batch: seq<Revision>): Result<Tables>
    requires device in t.devices && forall i | 0 <= i < |batch| :: batch[i].metadata.author == device
  {
    var r := AdmitAll(t, device, batch);
    if r.Ok? && r.value.cursor > MAX_UINT64 then Err(ServerCursorExhausted) else r
  }

  /** Everything the server checks before it writes a new revision. */
  ghost predicate Admissible(t: Tables, rev: Revision) {
    && rev.metadata.author in t.devices && rev.id !in t.revisions
    && WellShaped(rev.metadata.author, rev)
    && Refusal(t, rev).None?
  }

  // ----- Each admission keeps the joint invariant ------------------------------------

  lemma AdmitKeepsLog(t: Tables, rev: Revision)
    requires LogInv(t.cursor, t.floor, t.origins, t.changes) && t.cursor < MAX_UINT64
    ensures LogInv(t.cursor + 1, t.floor, t.origins[t.cursor + 1 := RecordRevision], t.changes[t.cursor + 1 := RevisionChange(rev.id)])
    ensures OriginsEvolve(t.origins, t.origins[t.cursor + 1 := RecordRevision])
  {
  }

  lemma RowLogGrows(cursor: Cursor, floor: Cursor, revisions: map<RevisionId, Row>, origins: map<Cursor, Kind>, changes: map<Cursor, Change>,
                    id: RevisionId, row: Row)
    requires RowLogInv(floor, revisions, origins, changes) && id !in revisions && row.cursor == cursor + 1 && Retained(row)
    requires (forall c | c in origins :: c <= cursor) && (forall c | c in changes :: c <= cursor)
    ensures RowLogInv(floor, revisions[id := row], origins[cursor + 1 := RecordRevision], changes[cursor + 1 := RevisionChange(id)])
  {
    forall r | r in revisions
      ensures revisions[r].cursor <= cursor
    {
      assert revisions[r].cursor in origins;
    }
  }

  lemma AdmitKeepsRowLog(t: Tables, rev: Revision)
    requires LogInv(t.cursor, t.floor, t.origins, t.changes) && RowLogInv(t.floor, t.revisions, t.origins, t.changes)
    requires rev.id !in t.revisions
    ensures RowLogInv(t.floor, t.revisions[rev.id := NewRow(t, rev)], t.origins[t.cursor + 1 := RecordRevision],
                      t.changes[t.cursor + 1 := RevisionChange(rev.id)])
  {
    hide RowLogInv;
    RowLogGrows(t.cursor, t.floor, t.revisions, t.origins, t.changes, rev.id, NewRow(t, rev));
  }

  lemma AdmitKeepsObjects(t: Tables, rev: Revision)
    requires ObjectsInv(t.revisions, t.objects, t.snapshots) && rev.id !in t.revisions
    ensures ObjectsInv(t.revisions[rev.id := NewRow(t, rev)], t.objects[ContentHash(rev) := rev], t.snapshots)
  {
    var rows := t.revisions[rev.id := NewRow(t, rev)];
    forall r | r in rows && r != rev.id
      ensures rows[r].hash != ContentHash(rev)
    {
      assert t.revisions[r].hash.of.id == r;
    }
    assert !Pinned(t.snapshots, rev.id);
  }

  /** A revision that supersedes a head is itself undominated. */
  lemma SupersedingEnters(t: Tables, rev: Revision, h: RevisionId)
    requires HeadsInv(t.revisions, t.heads) && h in Superseded(t.revisions, t.heads, rev)
    ensures EntersAsHead(t.revisions, t.heads, rev)
  {
    forall g | g in HeadsOf(t.revisions, t.heads, rev.metadata.record)
      ensures !Dominates(VectorOf(t.revisions, g), rev.metadata.vector)
    {
      if Dominates(VectorOf(t.revisions, g), rev.metadata.vector) {
        DominatesTransitive(VectorOf(t.revisions, g), rev.metadata.vector, VectorOf(t.revisions, h));
      }
    }
  }

  lemma AdmitKeepsHeads(t: Tables, rev: Revision)
    requires HeadsInv(t.revisions, t.heads) && rev.id !in t.revisions
    ensures HeadsInv(t.revisions[rev.id := NewRow(t, rev)], HeadsAfter(t.revisions, t.heads, rev))
  {
    DominatesIsStrictOrder(rev.metadata.vector, rev.metadata.vector, rev.metadata.vector);
    var rows, heads := t.revisions[rev.id := NewRow(t, rev)], HeadsAfter(t.revisions, t.heads, rev);
    forall g, h | g in heads && h in heads && RecordOf(rows, g) == RecordOf(rows, h)
      ensures !Dominates(VectorOf(rows, g), VectorOf(rows, h))
    {
      if g != rev.id && h == rev.id {
        assert g in HeadsOf(t.revisions, t.heads, rev.metadata.record);
      }
      if h != rev.id && g == rev.id {
        assert h in HeadsOf(t.revisions, t.heads, rev.metadata.record);
      }
    }
  }

  lemma AdmitKeepsSiblings(t: Tables, rev: Revision)
    requires HeadsInv(t.revisions, t.heads) && SiblingsInv(t.revisions, t.heads)
    requires rev.id !in t.revisions && |SiblingsAfter(t, rev)| <= MAX_SIBLINGS
    ensures SiblingsInv(t.revisions[rev.id := NewRow(t, rev)], HeadsAfter(t.revisions, t.heads, rev))
  {
    var rows, heads := t.revisions[rev.id := NewRow(t, rev)], HeadsAfter(t.revisions, t.heads, rev);
    forall record
      ensures |HeadsOf(rows, heads, record)| <= MAX_SIBLINGS
    {
      if record != rev.metadata.record {
        assert HeadsOf(rows, heads, record) == HeadsOf(t.revisions, t.heads, record);
      }
    }
  }

  lemma AdmitKeepsCoverage(t: Tables, rev: Revision)
    requires HeadsInv(t.revisions, t.heads) && CoverageInv(t.revisions, t.heads, t.markers) && rev.id !in t.revisions
    ensures CoverageInv(t.revisions[rev.id := NewRow(t, rev)], HeadsAfter(t.revisions, t.heads, rev), t.markers)
  {
    var rows, heads := t.revisions[rev.id := NewRow(t, rev)], HeadsAfter(t.revisions, t.heads, rev);
    forall r | r in rows && Retained(rows[r]) && r !in heads
      ensures Covered(rows, heads, t.markers, r)
    {
      AdmittedCovered(t, rev, r);
    }
  }

  lemma AdmittedCovered(t: Tables, rev: Revision, r: RevisionId)
    requires HeadsInv(t.revisions, t.heads) && CoverageInv(t.revisions, t.heads, t.markers) && rev.id !in t.revisions
    requires r == rev.id || (r in t.revisions && Retained(t.revisions[r]))
    requires r !in HeadsAfter(t.revisions, t.heads, rev)
    ensures Covered(t.revisions[rev.id := NewRow(t, rev)], HeadsAfter(t.revisions, t.heads, rev), t.markers, r)
  {
    hide CoverageInv;
    var rows, heads := t.revisions[rev.id := NewRow(t, rev)], HeadsAfter(t.revisions, t.heads, rev);
    var record := RecordOf(rows, r);
    if r == rev.id {
      var h :| h in HeadsOf(t.revisions, t.heads, record) && Dominates(VectorOf(t.revisions, h), rev.metadata.vector);
      DominatesIsStrictOrder(VectorOf(t.revisions, h), rev.metadata.vector, map[]);
      assert h in HeadsOf(rows, heads, record);
    } else if r in t.heads {
      assert r in Superseded(t.revisions, t.heads, rev);
      SupersedingEnters(t, rev, r);
      assert rev.id in HeadsOf(rows, heads, record);
    } else {
      assert Covered(t.revisions, t.heads, t.markers, r) by { CoverageAt(t, r); }
      if h :| h in HeadsOf(t.revisions, t.heads, record) && Dominates(VectorOf(t.revisions, h), VectorOf(t.revisions, r)) {
        if h in Superseded(t.revisions, t.heads, rev) {
          SupersedingEnters(t, rev, h);
          DominatesTransitive(rev.metadata.vector, VectorOf(t.revisions, h), VectorOf(t.revisions, r));
          assert rev.id in HeadsOf(rows, heads, record);
        } else {
          assert h in HeadsOf(rows, heads, record);
        }
      }
    }
  }

  lemma CoverageAt(t: Tables, r: RevisionId)
    requires CoverageInv(t.revisions, t.heads, t.markers) && r in t.revisions && Retained(t.revisions[r]) && r !in t.heads
    ensures Covered(t.revisions, t.heads, t.markers, r)
  {
  }

  lemma AdmitKeepsMarkers(t: Tables, rev: Revision)
    requires MarkersInv(t.revisions, t.heads, t.markers) && rev.id !in t.revisions
    requires rev.metadata.record in t.markers ==> Dominates(rev.metadata.vector, t.markers[rev.metadata.record].frontier)
    ensures MarkersInv(t.revisions[rev.id := NewRow(t, rev)], HeadsAfter(t.revisions, t.heads, rev), t.markers)
  {
    MarkersGrow(t.revisions, t.heads, t.markers, rev, NewRow(t, rev));
    hide MarkersInv;
    NewHeadsAreOldOrNew(t.revisions, t.heads, rev);
    MarkersWithFewerHeads(t.revisions[rev.id := NewRow(t, rev)], t.heads + {rev.id}, HeadsAfter(t.revisions, t.heads, rev), t.markers);
  }

  lemma MarkersGrow(revisions: map<RevisionId, Row>, heads: set<RevisionId>, markers: map<RecordId, Marker>, rev: Revision, row: Row)
    requires MarkersInv(revisions, heads, markers) && rev.id !in revisions && row.metadata == rev.metadata && Retained(row)
    requires rev.metadata.record in markers ==> Dominates(rev.metadata.vector, markers[rev.metadata.record].frontier)
    ensures MarkersInv(revisions[rev.id := row], heads + {rev.id}, markers)
  {
    hide Dominates;
  }

  lemma MarkersWithFewerHeads(revisions: map<RevisionId, Row>, heads: set<RevisionId>, fewer: set<RevisionId>, markers: map<RecordId, Marker>)
    requires MarkersInv(revisions, heads, markers) && fewer <= heads
    ensures MarkersInv(revisions, fewer, markers)
  {
    hide Dominates, AtOrAbove;
  }

  lemma NewHeadsAreOldOrNew(revisions: map<RevisionId, Row>, heads: set<RevisionId>, rev: Revision)
    ensures HeadsAfter(revisions, heads, rev) <= heads + {rev.id}
  {
  }

  lemma CursorsBelow(t: Tables)
    requires LogInv(t.cursor, t.floor, t.origins, t.changes) && RowLogInv(t.floor, t.revisions, t.origins, t.changes)
    ensures forall r | r in t.revisions :: 1 <= t.revisions[r].cursor <= t.cursor
  {
  }

  lemma QueueGrows(cursor: Cursor, uptime: nat, revisions: map<RevisionId, Row>, candidates: set<RevisionId>, barriers: map<RecordId, Cursor>,
                   id: RevisionId, row: Row)
    requires QueueInv(cursor, uptime, revisions, candidates, barriers) && id !in revisions
    requires forall r | r in revisions :: revisions[r].cursor <= cursor
    requires Retained(row) && row.accepted == uptime && row.cursor == cursor + 1
    ensures QueueInv(cursor + 1, uptime, revisions[id := row], candidates + {id}, barriers[row.metadata.record := cursor + 1])
  {
    var rows := revisions[id := row];
    forall r | r in rows
      ensures RecordOf(rows, r) in barriers[row.metadata.record := cursor + 1] ==> rows[r].cursor <= barriers[row.metadata.record := cursor + 1][RecordOf(rows, r)]
      ensures r in candidates + {id} <==> Retained(rows[r])
    {
      if r != id {
        assert rows[r] == revisions[r] && RecordOf(rows, r) == RecordOf(revisions, r);
      }
    }
  }

  lemma AdmitKeepsQueue(t: Tables, rev: Revision)
    requires forall r | r in t.revisions :: t.revisions[r].cursor <= t.cursor
    requires QueueInv(t.cursor, t.uptime, t.revisions, t.candidates, t.barriers) && rev.id !in t.revisions
    ensures QueueInv(t.cursor + 1, t.uptime, t.revisions[rev.id := NewRow(t, rev)], t.candidates + {rev.id},
                     t.barriers[rev.metadata.record := t.cursor + 1])
  {
    hide QueueInv;
    QueueGrows(t.cursor, t.uptime, t.revisions, t.candidates, t.barriers, rev.id, NewRow(t, rev));
  }

  /** A new row whose other entries are known counters and whose author entry is the author's next one. */
  lemma RegistryGrows(cursor: Cursor, devices: map<DeviceId, Device>, revisions: map<RevisionId, Row>, id: RevisionId, row: Row)
    requires RegistryInv(cursor, devices, revisions) && row.metadata.author in devices
    requires devices[row.metadata.author].maxCounter < row.metadata.counter <= MAX_UINT64
    requires forall d | d in row.metadata.vector :: row.metadata.vector[d] > 0
    requires forall d | d in row.metadata.vector && d != row.metadata.author :: d in devices && row.metadata.vector[d] <= devices[d].maxCounter
    requires row.metadata.author in row.metadata.vector && row.metadata.vector[row.metadata.author] == row.metadata.counter
    ensures var after := devices[row.metadata.author := devices[row.metadata.author].(maxCounter := row.metadata.counter)];
            RegistryInv(cursor + 1, after, revisions[id := row]) && DevicesEvolve(devices, after)
  {
    var rows := revisions[id := row];
    var after := devices[row.metadata.author := devices[row.metadata.author].(maxCounter := row.metadata.counter)];
    forall r | r in rows
      ensures Known(after, VectorOf(rows, r))
    {
      if r != id {
        assert Known(devices, VectorOf(revisions, r));
      }
    }
    forall d | d in after
      ensures after[d].ack <= after[d].maxReturned <= cursor + 1 && after[d].maxCounter <= MAX_UINT64
    {
      assert d in devices;
    }
  }

  lemma AuthorsGrow(cursor: Cursor, devices: map<DeviceId, Device>, revisions: map<RevisionId, Row>, id: RevisionId, row: Row)
    requires RegistryInv(cursor, devices, revisions) && AuthorsInv(revisions) && id !in revisions && row.metadata.author in devices
    requires devices[row.metadata.author].maxCounter < row.metadata.counter
    requires row.metadata.author in row.metadata.vector && row.metadata.vector[row.metadata.author] == row.metadata.counter
    ensures AuthorsInv(revisions[id := row])
  {
    forall r | r in revisions && revisions[r].metadata.author == row.metadata.author
      ensures revisions[r].metadata.counter != row.metadata.counter
    {
      assert Known(devices, VectorOf(revisions, r));
    }
  }

  lemma DistinctGrow(revisions: map<RevisionId, Row>, rev: Revision, row: Row)
    requires DistinctVectors(revisions) && rev.id !in revisions && row.metadata == rev.metadata && !VectorTaken(revisions, rev)
    ensures DistinctVectors(revisions[rev.id := row])
  {
  }

  lemma AdmitKeepsRegistry(t: Tables, rev: Revision)
    requires RegistryInv(t.cursor, t.devices, t.revisions) && AuthorsInv(t.revisions) && DistinctVectors(t.revisions)
    requires Admissible(t, rev)
    ensures var author := rev.metadata.author;
            var devices := t.devices[author := t.devices[author].(maxCounter := rev.metadata.counter)];
            var rows := t.revisions[rev.id := NewRow(t, rev)];
            && RegistryInv(t.cursor + 1, devices, rows) && AuthorsInv(rows) && DistinctVectors(rows)
            && DevicesEvolve(t.devices, devices)
  {
    hide RegistryInv, AuthorsInv, DistinctVectors, DevicesEvolve, VectorTaken, SiblingsAfter;
    RegistryGrows(t.cursor, t.devices, t.revisions, rev.id, NewRow(t, rev));
    AuthorsGrow(t.cursor, t.devices, t.revisions, rev.id, NewRow(t, rev));
    DistinctGrow(t.revisions, rev, NewRow(t, rev));
  }

  lemma AdmitEvolves(t: Tables, rev: Revision)
    requires rev.id !in t.revisions
    requires rev.metadata.record in t.markers ==> Dominates(rev.metadata.vector, t.markers[rev.metadata.record].frontier)
    ensures RowsEvolve(t.revisions, t.revisions[rev.id := NewRow(t, rev)])
    ensures AdmissionsDominate(t, t.revisions[rev.id := NewRow(t, rev)])
    ensures MarkersEvolve(t.markers, t.markers)
  {
  }

  lemma AdmitOneKeepsInv(t: Tables, rev: Revision)
    requires StoreInv(t) && Admissible(t, rev) && t.cursor < MAX_UINT64
    ensures StoreInv(AdmitOne(t, rev)) && Evolves(t, AdmitOne(t, rev))
  {
    hide QueueInv, LogInv, RowLogInv, ObjectsInv, HeadsInv, SiblingsInv, DistinctVectors, CoverageInv, MarkersInv, RegistryInv,
         AuthorsInv, RowsEvolve, MarkersEvolve, AdmissionsDominate, DevicesEvolve, OriginsEvolve, HeadsAfter, WellShaped,
         VectorTaken, Registered, WithinCounters;
    AdmitKeepsLog(t, rev);
    AdmitKeepsRowLog(t, rev);
    AdmitKeepsObjects(t, rev);
    AdmitKeepsHeads(t, rev);
    AdmitKeepsSiblings(t, rev);
    AdmitKeepsCoverage(t, rev);
    AdmitKeepsMarkers(t, rev);
    CursorsBelow(t);
    AdmitKeepsQueue(t, rev);
    AdmitKeepsRegistry(t, rev);
    AdmitEvolves(t, rev);
  }

  lemma {:induction false} AdmitAllCursor(t: Tables, device: DeviceId, batch: seq<Revision>)
    requires device in t.devices && forall i | 0 <= i < |batch| :: batch[i].metadata.author == device
    requires AdmitAll(t, device, batch).Ok?
    ensures t.cursor <= AdmitAll(t, device, batch).value.cursor
    decreases |batch|
  {
    if batch != [] {
      AdmitAllCursor(AdmitNext(t, batch[0]).value, device, batch[1..]);
    }
  }

  /** An admitted batch keeps the joint invariant. */
  lemma {:induction false} AdmitAllKeepsInv(t: Tables, device: DeviceId, batch: seq<Revision>)
    requires StoreInv(t) && device in t.devices && AllWellShaped(device, batch)
    requires AdmitAll(t, device, batch).Ok? && AdmitAll(t, device, batch).value.cursor <= MAX_UINT64
    ensures StoreInv(AdmitAll(t, device, batch).value) && Evolves(t, AdmitAll(t, device, batch).value)
    decreases |batch|
  {
    hide StoreInv, Evolves, Refusal;
    if batch == [] {
      EvolvesReflexive(t);
    } else {
      var u := AdmitNext(t, batch[0]).value;
      AdmitAllCursor(u, device, batch[1..]);
      if batch[0].id in t.revisions {
        EvolvesReflexive(t);
      } else {
        AdmitOneKeepsInv(t, batch[0]);
      }
      AdmitAllKeepsInv(u, device, batch[1..]);
      EvolvesTransitive(t, u, AdmitAll(u, device, batch[1..]).value);
    }
  }
}
