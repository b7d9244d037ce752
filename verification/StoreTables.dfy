/**
 The sync store's tables and the joint invariant every transaction keeps.

 Each part of the invariant reads only the tables it speaks about, so that a
 transaction has to argue only for the parts whose tables it writes.
 */
module StoreTables {
  import opened Outcomes
  import opened Uint64
  import opened Vectors

  // UUIDs are 128-bit numbers; their canonical text sorts in numeric order.
  type RecordId = nat
  type RevisionId = nat
  type SnapshotId = nat
  type Cursor = nat

  const MAX_SIBLINGS := 32
  const MAX_DEVICES := 64

  datatype Metadata = Metadata(
    record: RecordId, author: DeviceId, counter: nat, vector: Vector,
    authenticator: Option<nat>, tombstone: bool)

  /** A record revision as a client authored it; the payload is opaque ciphertext. */
  datatype Revision = Revision(id: RevisionId, metadata: Metadata, payload: nat)

  /** SHA-256 of the canonical revision bytes, taken to be injective. */
  datatype ContentHash = ContentHash(of: Revision)

  /** A permanent revision row; `collected` is the generation that collected its bytes. */
  datatype Row = Row(metadata: Metadata, hash: ContentHash, accepted: nat, cursor: Cursor, collected: Option<nat>)

  predicate Retained(row: Row) {
    row.collected.None?
  }

  datatype Marker = Marker(witnessId: RevisionId, frontier: Vector, authenticator: nat, barrier: Cursor, cursor: Cursor)

  datatype Kind = RecordRevision | CollectionMarker | EnvelopeChanged(generation: nat) | DeviceChanged

  datatype Change =
    | RevisionChange(revision: RevisionId)
    | MarkerChange(record: RecordId, marker: Marker)
    | EnvelopeChange(generation: nat)
    | DeviceChange(device: DeviceId, enrolled: bool)

  function KindOf(change: Change): Kind {
    match change
    case RevisionChange(_) => RecordRevision
    case MarkerChange(_, _) => CollectionMarker
    case EnvelopeChange(generation) => EnvelopeChanged(generation)
    case DeviceChange(_, _) => DeviceChanged
  }

  datatype Device = Device(revoked: bool, ack: Cursor, maxCounter: nat, maxReturned: Cursor)

  datatype SourceDevice = SourceDevice(device: DeviceId, maxCounter: nat)

  datatype RecordMarker = RecordMarker(record: RecordId, marker: Marker)

  /** One stored snapshot page: at most one of the three lists is nonempty. */
  datatype Descriptor = Descriptor(
    revisions: seq<RevisionId>, markers: seq<RecordMarker>, devices: seq<SourceDevice>, next: Option<nat>)

  datatype Snapshot = Snapshot(
    owner: DeviceId, request: nat, fingerprint: nat, cut: Cursor, envelopeGeneration: nat, firstToken: nat,
    pages: map<nat, Descriptor>, references: map<RevisionId, ContentHash>, bytes: nat)

  datatype Tables = Tables(
    cursor: Cursor, floor: Cursor, envelopeGeneration: nat, collectionGeneration: nat, uptime: nat,
    scanAfter: Option<RecordId>,
    devices: map<DeviceId, Device>,
    envelope: Option<nat>,
    revisions: map<RevisionId, Row>,
    heads: set<RevisionId>,
    objects: map<ContentHash, Revision>,
    candidates: set<RevisionId>,
    barriers: map<RecordId, Cursor>,
    markers: map<RecordId, Marker>,
    origins: map<Cursor, Kind>,
    changes: map<Cursor, Change>,
    snapshots: map<SnapshotId, Snapshot>)

  const EMPTY: Tables := Tables(0, 0, 0, 0, 0, None, map[], None, map[], {}, map[], {}, map[], map[], map[], map[], map[])

  // ----- The change log ---------------------------------------------------

  /** Every cursor has exactly one origin, and every change above the floor is still there. */
  ghost predicate LogInv(cursor: Cursor, floor: Cursor, origins: map<Cursor, Kind>, changes: map<Cursor, Change>) {
    && floor <= cursor <= MAX_UINT64
    && (forall c :: c in origins <==> 1 <= c <= cursor)
    && (forall c | floor < c <= cursor :: c in changes)
    && (forall c | c in changes :: c in origins && KindOf(changes[c]) == origins[c])
  }

  /** Revision rows and revision changes are in bijection while the bytes are retained. */
  ghost predicate RowLogInv(floor: Cursor, revisions: map<RevisionId, Row>, origins: map<Cursor, Kind>, changes: map<Cursor, Change>) {
    && (forall r | r in revisions :: revisions[r].cursor in origins && origins[revisions[r].cursor] == RecordRevision)
    && (forall r, q | r in revisions && q in revisions && revisions[r].cursor == revisions[q].cursor :: r == q)
    && (forall r | r in revisions && Retained(revisions[r]) ::
          revisions[r].cursor in changes && changes[revisions[r].cursor] == RevisionChange(r))
    && (forall r | r in revisions && !Retained(revisions[r]) ::
          revisions[r].cursor !in changes && revisions[r].cursor <= floor)
    && (forall c | c in changes && changes[c].RevisionChange? ::
          changes[c].revision in revisions && revisions[changes[c].revision].cursor == c)
  }

  // ----- Content-addressed objects ------------------------------------------

  predicate Pinned(snapshots: map<SnapshotId, Snapshot>, revision: RevisionId) {
    exists s | s in snapshots :: revision in snapshots[s].references
  }

  predicate RowsMatchHashes(revisions: map<RevisionId, Row>) {
    forall r | r in revisions ::
      revisions[r].hash.of.id == r && revisions[r].hash.of.metadata == revisions[r].metadata
  }

  /** The stored objects are exactly those of retained or pinned revisions: nothing dangles, nothing leaks. */
  ghost predicate ObjectsInv(revisions: map<RevisionId, Row>, objects: map<ContentHash, Revision>, snapshots: map<SnapshotId, Snapshot>) {
    && RowsMatchHashes(revisions)
    && (forall h | h in objects :: objects[h] == h.of)
    && (forall r | r in revisions :: revisions[r].hash in objects <==> Retained(revisions[r]) || Pinned(snapshots, r))
    && (forall h | h in objects :: h.of.id in revisions && revisions[h.of.id].hash == h)
    && (forall s, r | s in snapshots && r in snapshots[s].references ::
          r in revisions && snapshots[s].references[r] == revisions[r].hash)
  }

  // ----- Heads, frontiers and coverage ---------------------------------------

  function VectorOf(revisions: map<RevisionId, Row>, r: RevisionId): Vector
    requires r in revisions
  {
    revisions[r].metadata.vector
  }

  function RecordOf(revisions: map<RevisionId, Row>, r: RevisionId): RecordId
    requires r in revisions
  {
    revisions[r].metadata.record
  }

  function HeadsOf(revisions: map<RevisionId, Row>, heads: set<RevisionId>, record: RecordId): set<RevisionId> {
    set h | h in heads && h in revisions && RecordOf(revisions, h) == record
  }

  /** `r` lies strictly below a live head of its record or below the record's marker frontier. */
  ghost predicate Covered(revisions: map<RevisionId, Row>, heads: set<RevisionId>, markers: map<RecordId, Marker>, r: RevisionId)
    requires r in revisions
  {
    || (exists h :: h in HeadsOf(revisions, heads, RecordOf(revisions, r)) && Dominates(VectorOf(revisions, h), VectorOf(revisions, r)))
    || (RecordOf(revisions, r) in markers && Dominates(markers[RecordOf(revisions, r)].frontier, VectorOf(revisions, r)))
  }

  ghost predicate HeadsInv(revisions: map<RevisionId, Row>, heads: set<RevisionId>) {
    && (forall h | h in heads :: h in revisions && Retained(revisions[h]))
    && (forall g, h | g in heads && h in heads && RecordOf(revisions, g) == RecordOf(revisions, h) ::
          !Dominates(VectorOf(revisions, g), VectorOf(revisions, h)))
  }

  ghost predicate SiblingsInv(revisions: map<RevisionId, Row>, heads: set<RevisionId>) {
    forall record :: |HeadsOf(revisions, heads, record)| <= MAX_SIBLINGS
  }

  /** One record never holds two revisions with one vector: equivocation stays detectable after collection. */
  ghost predicate DistinctVectors(revisions: map<RevisionId, Row>) {
    forall r, q | r in revisions && q in revisions && RecordOf(revisions, r) == RecordOf(revisions, q)
                  && VectorOf(revisions, r) == VectorOf(revisions, q) :: r == q
  }

  ghost predicate CoverageInv(revisions: map<RevisionId, Row>, heads: set<RevisionId>, markers: map<RecordId, Marker>) {
    forall r | r in revisions && Retained(revisions[r]) && r !in heads :: Covered(revisions, heads, markers, r)
  }

  /** A marker names a stored, authenticated witness; heads stay at or above it and collected rows at or below it. */
  ghost predicate MarkersInv(revisions: map<RevisionId, Row>, heads: set<RevisionId>, markers: map<RecordId, Marker>) {
    && (forall record | record in markers ::
          && markers[record].witnessId in revisions
          && RecordOf(revisions, markers[record].witnessId) == record
          && VectorOf(revisions, markers[record].witnessId) == markers[record].frontier
          && revisions[markers[record].witnessId].metadata.authenticator == Some(markers[record].authenticator))
    && (forall h | h in heads && h in revisions && RecordOf(revisions, h) in markers ::
          AtOrAbove(VectorOf(revisions, h), markers[RecordOf(revisions, h)].frontier))
    && (forall r | r in revisions && !Retained(revisions[r]) ::
          RecordOf(revisions, r) in markers && AtOrAbove(markers[RecordOf(revisions, r)].frontier, VectorOf(revisions, r)))
  }

  // ----- The collection queue -------------------------------------------------

  ghost predicate QueueInv(cursor: Cursor, uptime: nat, revisions: map<RevisionId, Row>, candidates: set<RevisionId>, barriers: map<RecordId, Cursor>) {
    && uptime <= MAX_UINT64
    && (forall r | r in candidates :: r in revisions)
    && (forall r | r in revisions :: r in candidates <==> Retained(revisions[r]))
    && (forall r | r in revisions :: revisions[r].accepted <= uptime)
    && (forall r | r in candidates && r in revisions :: RecordOf(revisions, r) in barriers)
    && (forall r | r in revisions && RecordOf(revisions, r) in barriers :: revisions[r].cursor <= barriers[RecordOf(revisions, r)])
    && (forall record | record in barriers :: 1 <= barriers[record] <= cursor)
  }

  predicate HasCandidate(revisions: map<RevisionId, Row>, candidates: set<RevisionId>, record: RecordId) {
    exists r | r in candidates :: r in revisions && RecordOf(revisions, r) == record
  }

  // ----- The device registry --------------------------------------------------

  ghost predicate Known(devices: map<DeviceId, Device>, vector: Vector) {
    forall d | d in vector :: d in devices && 0 < vector[d] <= devices[d].maxCounter
  }

  /** Every vector entry names a registered device and a counter that device has used. */
  ghost predicate RegistryInv(cursor: Cursor, devices: map<DeviceId, Device>, revisions: map<RevisionId, Row>) {
    && (forall d | d in devices :: devices[d].ack <= devices[d].maxReturned <= cursor && devices[d].maxCounter <= MAX_UINT64)
    && (forall r | r in revisions :: Known(devices, VectorOf(revisions, r)))
  }

  /** An author's counters are never reused, not even after collection. */
  ghost predicate AuthorsInv(revisions: map<RevisionId, Row>) {
    && (forall r | r in revisions ::
          revisions[r].metadata.author in VectorOf(revisions, r)
          && VectorOf(revisions, r)[revisions[r].metadata.author] == revisions[r].metadata.counter)
    && (forall r, q | r in revisions && q in revisions
                      && revisions[r].metadata.author == revisions[q].metadata.author
                      && revisions[r].metadata.counter == revisions[q].metadata.counter :: r == q)
  }

  // ----- The joint invariant --------------------------------------------------

  ghost predicate StoreInv(t: Tables) {
    && LogInv(t.cursor, t.floor, t.origins, t.changes)
    && RowLogInv(t.floor, t.revisions, t.origins, t.changes)
    && ObjectsInv(t.revisions, t.objects, t.snapshots)
    && HeadsInv(t.revisions, t.heads)
    && SiblingsInv(t.revisions, t.heads)
    && DistinctVectors(t.revisions)
    && CoverageInv(t.revisions, t.heads, t.markers)
    && MarkersInv(t.revisions, t.heads, t.markers)
    && QueueInv(t.cursor, t.uptime, t.revisions, t.candidates, t.barriers)
    && RegistryInv(t.cursor, t.devices, t.revisions)
    && AuthorsInv(t.revisions)
  }

  /** One more change of another kind than a revision. */
  lemma LogGrows(cursor: Cursor, floor: Cursor, revisions: map<RevisionId, Row>, origins: map<Cursor, Kind>, changes: map<Cursor, Change>, change: Change)
    requires LogInv(cursor, floor, origins, changes) && RowLogInv(floor, revisions, origins, changes)
    requires cursor < MAX_UINT64 && !change.RevisionChange?
    ensures var o, c := origins[cursor + 1 := KindOf(change)], changes[cursor + 1 := change];
            LogInv(cursor + 1, floor, o, c) && RowLogInv(floor, revisions, o, c) && OriginsEvolve(origins, o)
  {
    var o, c := origins[cursor + 1 := KindOf(change)], changes[cursor + 1 := change];
    assert LogInv(cursor + 1, floor, o, c) by { hide RowLogInv; }
    RowLogKeeps(cursor, floor, revisions, origins, changes, KindOf(change), change);
    hide RowLogInv;
  }

  lemma RowLogKeeps(cursor: Cursor, floor: Cursor, revisions: map<RevisionId, Row>, origins: map<Cursor, Kind>, changes: map<Cursor, Change>,
                    kind: Kind, change: Change)
    requires RowLogInv(floor, revisions, origins, changes) && !change.RevisionChange? && floor <= cursor
    requires cursor + 1 !in origins && cursor + 1 !in changes
    ensures RowLogInv(floor, revisions, origins[cursor + 1 := kind], changes[cursor + 1 := change])
  {
    forall r | r in revisions
      ensures revisions[r].cursor != cursor + 1
    {
      assert revisions[r].cursor in origins;
    }
  }

  // ----- What no transaction ever undoes --------------------------------------

  /** A revision row keeps everything but its bytes, and collected bytes never come back. */
  ghost predicate RowsEvolve(a: map<RevisionId, Row>, b: map<RevisionId, Row>) {
    forall r | r in a ::
      r in b && b[r].(collected := a[r].collected) == a[r] && (!Retained(a[r]) ==> b[r] == a[r])
  }

  /** A marker is kept or replaced by one with a strictly dominating frontier. */
  ghost predicate MarkersEvolve(a: map<RecordId, Marker>, b: map<RecordId, Marker>) {
    forall record | record in a ::
      record in b && (b[record] == a[record] || Dominates(b[record].frontier, a[record].frontier))
  }

  /** Revisions admitted since `a` strictly dominate the frontier that was in force. */
  ghost predicate AdmissionsDominate(a: Tables, b: map<RevisionId, Row>) {
    forall r | r in b && r !in a.revisions ::
      && b[r].cursor > a.cursor
      && (RecordOf(b, r) in a.markers ==> Dominates(VectorOf(b, r), a.markers[RecordOf(b, r)].frontier))
  }

  ghost predicate DevicesEvolve(a: map<DeviceId, Device>, b: map<DeviceId, Device>) {
    forall d | d in a ::
      d in b && (a[d].revoked ==> b[d].revoked) && a[d].ack <= b[d].ack && a[d].maxCounter <= b[d].maxCounter
      && a[d].maxReturned <= b[d].maxReturned
  }

  ghost predicate OriginsEvolve(a: map<Cursor, Kind>, b: map<Cursor, Kind>) {
    forall c | c in a :: c in b && b[c] == a[c]
  }

  ghost predicate Evolves(a: Tables, b: Tables) {
    && a.cursor <= b.cursor && a.floor <= b.floor && a.uptime <= b.uptime
    && a.envelopeGeneration <= b.envelopeGeneration && a.collectionGeneration <= b.collectionGeneration
    && RowsEvolve(a.revisions, b.revisions)
    && MarkersEvolve(a.markers, b.markers)
    && AdmissionsDominate(a, b.revisions)
    && DevicesEvolve(a.devices, b.devices)
    && OriginsEvolve(a.origins, b.origins)
  }

  lemma EvolvesReflexive(a: Tables)
    ensures Evolves(a, a)
  {
  }

  lemma MarkersEvolveTransitive(a: map<RecordId, Marker>, b: map<RecordId, Marker>, c: map<RecordId, Marker>)
    requires MarkersEvolve(a, b) && MarkersEvolve(b, c)
    ensures MarkersEvolve(a, c)
  {
    forall record | record in a
      ensures record in c && (c[record] == a[record] || Dominates(c[record].frontier, a[record].frontier))
    {
      assert record in b;
      DominatesAtOrAbove(c[record].frontier, b[record].frontier, a[record].frontier);
    }
  }

  lemma AdmissionsDominateTransitive(a: Tables, b: Tables, c: Tables)
    requires a.cursor <= b.cursor && RowsEvolve(b.revisions, c.revisions) && MarkersEvolve(a.markers, b.markers)
    requires AdmissionsDominate(a, b.revisions) && AdmissionsDominate(b, c.revisions)
    ensures AdmissionsDominate(a, c.revisions)
  {
    forall r | r in c.revisions && r !in a.revisions
      ensures c.revisions[r].cursor > a.cursor
      ensures RecordOf(c.revisions, r) in a.markers ==>
                Dominates(VectorOf(c.revisions, r), a.markers[RecordOf(c.revisions, r)].frontier)
    {
      if r in b.revisions {
        assert c.revisions[r].metadata == b.revisions[r].metadata && c.revisions[r].cursor == b.revisions[r].cursor;
      } else {
        var record := RecordOf(c.revisions, r);
        if record in a.markers {
          DominatesAtOrAbove(VectorOf(c.revisions, r), b.markers[record].frontier, a.markers[record].frontier);
        }
      }
    }
  }

  lemma EvolvesTransitive(a: Tables, b: Tables, c: Tables)
    requires Evolves(a, b) && Evolves(b, c)
    ensures Evolves(a, c)
  {
    MarkersEvolveTransitive(a.markers, b.markers, c.markers);
    AdmissionsDominateTransitive(a, b, c);
  }

  /**
   No resurrection: once a revision's bytes were collected, every revision of its
   record admitted later strictly dominates it, so stale uploads cannot bring
   collected state back.
   */
  lemma NoResurrection(a: Tables, b: Tables, collected: RevisionId, later: RevisionId)
    requires MarkersInv(a.revisions, a.heads, a.markers) && Evolves(a, b)
    requires collected in a.revisions && !Retained(a.revisions[collected])
    requires later in b.revisions && later !in a.revisions
    requires RecordOf(b.revisions, later) == RecordOf(a.revisions, collected)
    ensures Dominates(VectorOf(b.revisions, later), VectorOf(a.revisions, collected))
    ensures collected in b.revisions && !Retained(b.revisions[collected])
  {
    var record := RecordOf(a.revisions, collected);
    DominatesAtOrAbove(VectorOf(b.revisions, later), a.markers[record].frontier, VectorOf(a.revisions, collected));
  }
}
