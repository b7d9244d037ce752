/**
 The whole sync transaction: admission, acknowledgement, expiry, collection and
 the delta that answers the request.
 */
module Sync {
  import opened Outcomes
  import opened Uint64
  import opened Vectors
  import opened Ordering
  import opened StoreTables
  import opened Collection
  import opened CollectionProofs
  import opened CollectionCode
  import opened Admission
  import opened BatchAdmission
  import opened SnapshotPlan
  import opened Snapshots
  import opened SnapshotCode
  import opened Registry

  const MAX_CHANGES := 128

  // ----- The delta -------------------------------------------------------------------

  /** One delivered change; a revision travels with its content. */
  datatype Item =
    | RevisionItem(revision: Revision)
    | MarkerItem(record: RecordId, marker: Marker)
    | EnvelopeItem
    | DeviceItem

  datatype Entry = Entry(cursor: Cursor, item: Item)

  datatype Delta = Delta(entries: seq<Entry>, next: Cursor, hasMore: bool)

  /** A change row can be delivered when its revision, if it names one, still has its object. */
  predicate Deliverable(t: Tables, c: Cursor) {
    && c in t.changes
    && (t.changes[c].RevisionChange? ==>
          && t.changes[c].revision in t.revisions && Retained(t.revisions[t.changes[c].revision])
          && t.revisions[t.changes[c].revision].hash in t.objects)
  }

  function ItemAt(t: Tables, c: Cursor): Item
    requires Deliverable(t, c)
  {
    match t.changes[c]
    case RevisionChange(r) => RevisionItem(t.objects[t.revisions[r].hash])
    case MarkerChange(record, marker) => MarkerItem(record, marker)
    case EnvelopeChange(_) => EnvelopeItem
    case DeviceChange(_, _) => DeviceItem
  }

  /** Every change after the floor can be delivered, with the content its author wrote. */
  lemma ChangesAreDeliverable(t: Tables, c: Cursor)
    requires LogInv(t.cursor, t.floor, t.origins, t.changes) && RowLogInv(t.floor, t.revisions, t.origins, t.changes)
    requires ObjectsInv(t.revisions, t.objects, t.snapshots) && t.floor < c <= t.cursor
    ensures Deliverable(t, c)
    ensures t.changes[c].RevisionChange? ==>
              ItemAt(t, c).revision.id == t.changes[c].revision
              && ItemAt(t, c).revision.metadata == t.revisions[t.changes[c].revision].metadata
  {
  }

  /** The entries of consecutive cursors after `after`. */
  ghost function Entries(t: Tables, after: Cursor, n: nat): seq<Entry>
    requires forall c | after < c <= after + n :: Deliverable(t, c)
  {
    seq(n, i requires 0 <= i < n => Entry(after + 1 + i, ItemAt(t, after + 1 + i)))
  }

  /** A delta is complete: exactly the cursors after `after` up to `next`, and more exactly when some remain. */
  ghost predicate CompleteDelta(t: Tables, after: Cursor, d: Delta) {
    && after <= d.next <= t.cursor && d.next - after <= MAX_CHANGES
    && (forall c | after < c <= d.next :: Deliverable(t, c))
    && d.entries == Entries(t, after, d.next - after)
    && (d.hasMore <==> d.next < t.cursor)
    && (after < t.cursor ==> after < d.next)
  }

  function CursorKeys(changes: map<Cursor, Change>, after: Cursor): set<Key> {
    set c | c in changes && c > after :: Key(0, c)
  }

  ghost function CountFrom(after: Cursor, n: nat): seq<Key> {
    seq(n, i requires 0 <= i < n => Key(0, after + 1 + i))
  }

  /** Above the floor the ordered query answers with consecutive cursors. */
  lemma LogIsContiguous(t: Tables, after: Cursor)
    requires LogInv(t.cursor, t.floor, t.origins, t.changes) && t.floor <= after <= t.cursor
    ensures Listing(CursorKeys(t.changes, after)) == CountFrom(after, t.cursor - after)
  {
    var keys, count := CursorKeys(t.changes, after), CountFrom(after, t.cursor - after);
    ListingIsOrdered(keys);
    forall k
      ensures k in Elements(count) <==> k in keys
    {
      if k in keys {
        assert count[k.minor - after - 1] == k;
      }
    }
    ListingUnique(Listing(keys), count);
  }

  method LoadChanges(t: Tables, after: Cursor) returns (d: Delta)
    requires LogInv(t.cursor, t.floor, t.origins, t.changes) && RowLogInv(t.floor, t.revisions, t.origins, t.changes)
    requires ObjectsInv(t.revisions, t.objects, t.snapshots) && t.floor <= after <= t.cursor
    ensures CompleteDelta(t, after, d)
    ensures |d.entries| == if t.cursor - after <= MAX_CHANGES then t.cursor - after else MAX_CHANGES
  {
    var listing := OrderBy(CursorKeys(t.changes, after));
    LogIsContiguous(t, after);
    hide LogInv, RowLogInv, ObjectsInv;
    var stored := Prefix(listing, MAX_CHANGES + 1);
    var hasMore := |stored| > MAX_CHANGES;
    if hasMore {
      stored := stored[..MAX_CHANGES];
    }
    var entries: seq<Entry> := [];
    var next := after;
    forall c | after < c <= after + |stored|
      ensures Deliverable(t, c)
    {
      ChangesAreDeliverable(t, c);
    }
    for i := 0 to |stored|
      invariant next == after + i
      invariant entries == Entries(t, after, i)
    {
      var c := stored[i].minor;
      assert c == after + 1 + i;
      entries := entries + [Entry(c, ItemAt(t, c))];
      next := c;
    }
    d := Delta(entries, next, hasMore);
  }

  /** Drop entries from the end until the body fits; a single entry that does not fit is an error. */
  method TrimToBody(t: Tables, after: Cursor, loaded: Delta, bytes: (seq<Entry>, bool) -> nat) returns (r: Result<Delta>)
    requires CompleteDelta(t, after, loaded)
    ensures r.Ok? ==> CompleteDelta(t, after, r.value) && bytes(r.value.entries, r.value.hasMore) <= MAX_BODY_BYTES
    ensures r.Ok? ==> r.value.next <= loaded.next
    ensures r.Ok? ==> forall n | |r.value.entries| < n <= |loaded.entries| :: bytes(loaded.entries[..n], n < |loaded.entries| || loaded.hasMore) > MAX_BODY_BYTES
    ensures r.Err? ==> r.error == InternalError && bytes(loaded.entries, loaded.hasMore) > MAX_BODY_BYTES
                       && forall n | 1 <= n <= |loaded.entries| :: bytes(loaded.entries[..n], n < |loaded.entries| || loaded.hasMore) > MAX_BODY_BYTES
  {
    var d := loaded;
    assert loaded.entries[..|loaded.entries|] == loaded.entries;
    while bytes(d.entries, d.hasMore) > MAX_BODY_BYTES
      invariant CompleteDelta(t, after, d) && d.next <= loaded.next
      invariant |d.entries| <= |loaded.entries| && d.entries == loaded.entries[..|d.entries|]
      invariant d.hasMore == (|d.entries| < |loaded.entries| || loaded.hasMore)
      invariant forall n | |d.entries| < n <= |loaded.entries| :: bytes(loaded.entries[..n], n < |loaded.entries| || loaded.hasMore) > MAX_BODY_BYTES
      invariant d == loaded || bytes(loaded.entries, loaded.hasMore) > MAX_BODY_BYTES
      decreases |d.entries|
    {
      if |d.entries| <= 1 {
        return Err(InternalError);
      }
      var kept := d.entries[..|d.entries| - 1];
      assert kept == Entries(t, after, |kept|);
      d := Delta(kept, kept[|kept| - 1].cursor, true);
    }
    r := Ok(d);
  }

  /** A client that repeats the request from `next` receives every change once, in order. */
  lemma DeltasJoin(t: Tables, after: Cursor, first: Delta, second: Delta)
    requires CompleteDelta(t, after, first) && CompleteDelta(t, first.next, second)
    ensures forall c | after < c <= second.next :: Deliverable(t, c)
    ensures first.entries + second.entries == Entries(t, after, second.next - after)
    ensures first.next < t.cursor ==> after < first.next < second.next
  {
  }

  // ----- The transaction -----------------------------------------------------------------

  /** A sync request with what the environment adds: the accumulated uptime and the running leases. */
  datatype Request = Request(device: DeviceId, after: Cursor, ack: Cursor, mutations: seq<Revision>,
                             uptime: nat, live: set<SnapshotId>, bytes: (seq<Entry>, bool) -> nat)

  datatype Synced = Synced(tables: Tables, delta: Delta)

  function MutationKeyLess(a: Revision, b: Revision): bool {
    if a.metadata.counter != b.metadata.counter then a.metadata.counter < b.metadata.counter
    else if a.metadata.record != b.metadata.record then a.metadata.record < b.metadata.record
    else a.id < b.id
  }

  predicate ShapesValid(device: DeviceId, mutations: seq<Revision>) {
    && |mutations| <= MAX_MUTATIONS
    && AllWellShaped(device, mutations)
    && forall i | 0 < i < |mutations| :: MutationKeyLess(mutations[i - 1], mutations[i])
  }

  function Acknowledge(t: Tables, d: DeviceId, ack: Cursor): Tables
    requires d in t.devices
  {
    t.(devices := t.devices[d := t.devices[d].(ack := ack)])
  }

  /** The checks on the two cursors a request carries. */
  function CursorRefusal(t: Tables, q: Request): Option<Error>
    requires q.device in t.devices
  {
    if q.after < t.floor then Some(CursorExpired)
    else if q.after > t.cursor || q.after > t.devices[q.device].maxReturned then Some(InvalidRequest)
    else if q.ack < t.devices[q.device].ack || q.ack > t.devices[q.device].maxReturned then Some(InvalidRequest)
    else None
  }

  /** Everything the transaction writes before it reads its delta. */
  ghost function Advanced(t: Tables, q: Request): Result<Tables>
    requires q.device in t.devices
  {
    if !ShapesValid(q.device, q.mutations) then Err(InvalidRequest)
    else if CursorRefusal(t, q).Some? then Err(CursorRefusal(t, q).value)
    else
      match AdmitWithinCursors(t.(uptime := q.uptime), q.device, q.mutations)
      case Err(e) => Err(e)
      case Ok(admitted) =>
        if q.device !in admitted.devices then Err(InternalError)
        else
          var u := CollectEligible(PruneSnapshots(Acknowledge(admitted, q.device, q.ack), q.live));
          if q.after < u.floor then Err(CursorExpired) else Ok(u)
  }

  // ----- Frames ------------------------------------------------------------------------------

  /** Neither the device list nor the envelope nor the snapshots changed. */
  ghost predicate Quiet(a: Tables, b: Tables) {
    && b.devices.Keys == a.devices.Keys && b.envelope == a.envelope && b.envelopeGeneration == a.envelopeGeneration
    && b.snapshots == a.snapshots && NoEnvelopeLogged(a.origins, b.origins)
  }

  lemma QuietTransitive(a: Tables, b: Tables, c: Tables)
    requires Quiet(a, b) && Quiet(b, c)
    ensures Quiet(a, c)
  {
  }

  lemma AdmitOneQuiet(t: Tables, rev: Revision)
    requires rev.metadata.author in t.devices && t.cursor + 1 !in t.origins
    ensures Quiet(t, AdmitOne(t, rev))
  {
    hide HeadsAfter;
  }

  lemma {:induction false} AdmitAllQuiet(t: Tables, device: DeviceId, batch: seq<Revision>)
    requires StoreInv(t) && device in t.devices && AllWellShaped(device, batch)
    requires AdmitAll(t, device, batch).Ok? && AdmitAll(t, device, batch).value.cursor <= MAX_UINT64
    ensures Quiet(t, AdmitAll(t, device, batch).value)
    ensures var u := AdmitAll(t, device, batch).value;
            u.devices[device] == t.devices[device].(maxCounter := u.devices[device].maxCounter)
    decreases |batch|
  {
    hide StoreInv, Evolves, Refusal, NoEnvelopeLogged;
    LogIsQuiet(0, map[], RecordRevision);
    if batch == [] {
      QuietReflexive(t);
    } else {
      var u := AdmitNext(t, batch[0]).value;
      AdmitAllCursor(u, device, batch[1..]);
      if batch[0].id in t.revisions {
        QuietReflexive(t);
      } else {
        AdmitOneKeepsInv(t, batch[0]);
        StoreParts(t);
        AdmitOneQuiet(t, batch[0]);
      }
      AdmitAllQuiet(u, device, batch[1..]);
      QuietTransitive(t, u, AdmitAll(u, device, batch[1..]).value);
    }
  }

  lemma QuietReflexive(t: Tables)
    ensures Quiet(t, t)
  {
  }

  lemma CollectRecordQuiet(t: Tables, record: RecordId, g: nat)
    requires forall c | c in t.origins :: c <= t.cursor
    ensures Quiet(t, CollectRecord(t, record, g))
  {
    hide HasCandidate, CollectAll;
    PlanSelectsRows(t, record);
    match PlanFor(t, record)
    case Skip =>
    case Prune(selected) =>
      CollectAllFrame(t, selected, g);
    case Advance(w, selected) =>
      CollectAllFrame(AdvanceMarker(t, record, w), selected, g);
  }

  lemma {:induction false} CollectRecordsQuiet(t: Tables, records: seq<RecordId>, g: nat)
    requires StoreInv(t) && t.collectionGeneration <= g
    ensures Quiet(t, CollectRecords(t, records, g))
    decreases |records|
  {
    hide StoreInv, Evolves, Quiet, CollectRecord;
    if records == [] {
      QuietReflexive(t);
    } else {
      var u := CollectRecord(t, records[0], g);
      StoreParts(t);
      CollectRecordQuiet(t, records[0], g);
      CollectRecordKeepsInv(t, records[0], g);
      CollectRecordGeneration(t, records[0], g);
      CollectRecordsQuiet(u, records[1..], g);
      QuietTransitive(t, u, CollectRecords(u, records[1..], g));
    }
  }

  lemma CollectEligibleQuiet(t: Tables)
    requires StoreInv(t)
    ensures Quiet(t, CollectEligible(t))
  {
    hide StoreInv, NoEnvelopeLogged, CollectRecords, ScanBatch, ReachesScan;
    QuietReflexive(t);
    if ReachesScan(t) {
      CollectRecordsQuiet(t, ScanBatch(t.barriers.Keys, t.scanAfter), t.collectionGeneration + 1);
    }
  }

  lemma UptimeKeepsInv(t: Tables, uptime: nat)
    requires StoreInv(t) && t.uptime <= uptime <= MAX_UINT64
    ensures StoreInv(t.(uptime := uptime)) && Evolves(t, t.(uptime := uptime)) && Quiet(t, t.(uptime := uptime))
  {
    hide LogInv, RowLogInv, ObjectsInv, HeadsInv, SiblingsInv, DistinctVectors, CoverageInv, MarkersInv, RegistryInv, AuthorsInv;
  }

  lemma AcknowledgeKeepsInv(t: Tables, d: DeviceId, ack: Cursor)
    requires StoreInv(t) && d in t.devices && t.devices[d].ack <= ack <= t.devices[d].maxReturned
    ensures StoreInv(Acknowledge(t, d, ack)) && Evolves(t, Acknowledge(t, d, ack)) && Quiet(t, Acknowledge(t, d, ack))
  {
    hide StoreInv, Evolves, RegistryInv, DevicesEvolve, ObjectsInv;
    StoreParts(t);
    var u := Acknowledge(t, d, ack);
    RegistryAt(t.cursor, t.devices, u.devices, t.revisions, d, t.devices[d].(ack := ack));
    DeviceStep(t.devices, d, t.devices[d].(ack := ack));
    ObjectsPart(t);
    SnapshotFrame(t, u);
  }

  lemma ObjectsPart(t: Tables)
    requires StoreInv(t)
    ensures ObjectsInv(t.revisions, t.objects, t.snapshots) && HeadsInv(t.revisions, t.heads)
    ensures LogInv(t.cursor, t.floor, t.origins, t.changes) && RowLogInv(t.floor, t.revisions, t.origins, t.changes)
  {
    hide LogInv, RowLogInv, ObjectsInv, HeadsInv, SiblingsInv, DistinctVectors, CoverageInv, MarkersInv, QueueInv, RegistryInv, AuthorsInv;
  }

  // ----- What a sync keeps ----------------------------------------------------------------------

  /** The store as every transaction leaves it. */
  ghost predicate RunInv(t: Tables) {
    && StoreInv(t)
    && SnapshotsInv(t.snapshots)
    && EnvelopeInv(t.envelopeGeneration, t.envelope, t.origins)
    && |t.devices| <= MAX_DEVICES
  }

  lemma RunInvParts(t: Tables)
    requires RunInv(t)
    ensures StoreInv(t) && SnapshotsInv(t.snapshots)
  {
    hide StoreInv, SnapshotsInv;
  }

  lemma ShapesParts(q: Request)
    requires ShapesValid(q.device, q.mutations)
    ensures AllWellShaped(q.device, q.mutations)
  {
  }

  lemma QuietKeepsRunInv(t: Tables, u: Tables)
    requires RunInv(t) && StoreInv(u) && Quiet(t, u)
    ensures RunInv(u)
  {
    hide StoreInv, SnapshotsInv, EnvelopeInv, NoEnvelopeLogged;
    QuietKeepsEnvelope(t.envelopeGeneration, t.envelope, t.origins, u.origins);
    assert |t.devices| == |t.devices.Keys| && |u.devices| == |u.devices.Keys|;
  }

  lemma PruneKeepsRunInv(t: Tables, live: set<SnapshotId>)
    requires RunInv(t)
    ensures RunInv(PruneSnapshots(t, live)) && Evolves(t, PruneSnapshots(t, live))
  {
    hide StoreInv, SnapshotsInv, EnvelopeInv, Evolves;
    var gone := t.snapshots.Keys - live;
    DropKeepsInv(t, gone);
    DropKeepsSnapshots(t, gone);
  }

  lemma AdmittedKeepsRunInv(t: Tables, device: DeviceId, batch: seq<Revision>)
    requires RunInv(t) && device in t.devices && AllWellShaped(device, batch) && AdmitWithinCursors(t, device, batch).Ok?
    ensures var u := AdmitWithinCursors(t, device, batch).value;
            && RunInv(u) && Evolves(t, u) && device in u.devices
            && u.devices[device] == t.devices[device].(maxCounter := u.devices[device].maxCounter)
  {
    hide StoreInv, SnapshotsInv, EnvelopeInv, Evolves, AdmitAll, NoEnvelopeLogged;
    AdmitAllKeepsInv(t, device, batch);
    AdmitAllQuiet(t, device, batch);
    QuietKeepsRunInv(t, AdmitWithinCursors(t, device, batch).value);
  }

  /** The writes of a sync keep the joint invariant and undo nothing. */
  lemma AdvancedKeepsInv(t: Tables, q: Request)
    requires RunInv(t) && q.device in t.devices && t.uptime <= q.uptime <= MAX_UINT64
    requires Advanced(t, q).Ok?
    ensures var u := Advanced(t, q).value;
            RunInv(u) && Evolves(t, u) && q.device in u.devices && u.floor <= q.after <= t.cursor <= u.cursor
  {
    hide RunInv, StoreInv, Evolves, Quiet, PruneSnapshots, CollectEligible, AdmitWithinCursors, ShapesValid;
    var a := t.(uptime := q.uptime);
    RunInvParts(t);
    UptimeKeepsInv(t, q.uptime);
    QuietKeepsRunInv(t, a);
    ShapesParts(q);
    AdmittedKeepsRunInv(a, q.device, q.mutations);
    var b := AdmitWithinCursors(a, q.device, q.mutations).value;
    var c := Acknowledge(b, q.device, q.ack);
    RunInvParts(b);
    AcknowledgeKeepsInv(b, q.device, q.ack);
    QuietKeepsRunInv(b, c);
    var d := PruneSnapshots(c, q.live);
    PruneKeepsRunInv(c, q.live);
    RunInvParts(d);
    var e := CollectEligible(d);
    CollectEligibleSafe(d);
    CollectEligibleQuiet(d);
    QuietKeepsRunInv(d, e);
    EvolvesTransitive(t, a, b);
    EvolvesTransitive(t, b, c);
    EvolvesTransitive(t, c, d);
    EvolvesTransitive(t, d, e);
    EvolvesDevice(t, e, q.device);
  }

  lemma EvolvesDevice(t: Tables, u: Tables, d: DeviceId)
    requires Evolves(t, u) && d in t.devices
    ensures d in u.devices && t.cursor <= u.cursor && t.floor <= u.floor
  {
  }

  /** Not even a single change fits a response body. */
  ghost predicate NoDeltaFits(u: Tables, q: Request) {
    forall d: Delta | CompleteDelta(u, q.after, d) :: q.bytes(d.entries, d.hasMore) > MAX_BODY_BYTES
  }

  /** No longer delta fits a response body. */
  ghost predicate LongestDelta(u: Tables, q: Request, delta: Delta) {
    forall d: Delta | CompleteDelta(u, q.after, d) && d.next > delta.next :: q.bytes(d.entries, d.hasMore) > MAX_BODY_BYTES
  }

  /** Every complete delta is a prefix of the one that was loaded. */
  lemma DeltaIsPrefix(u: Tables, after: Cursor, loaded: Delta, d: Delta)
    requires CompleteDelta(u, after, loaded) && CompleteDelta(u, after, d) && d.next <= loaded.next
    ensures d.next - after == |d.entries| <= |loaded.entries| && d.entries == loaded.entries[..|d.entries|]
    ensures d.hasMore == (|d.entries| < |loaded.entries| || loaded.hasMore)
    ensures after < u.cursor ==> 1 <= |d.entries|
  {
  }

  /** What trimming found out, told of all complete deltas. */
  lemma TrimmedIsLongest(u: Tables, q: Request, loaded: Delta, r: Result<Delta>)
    requires CompleteDelta(u, q.after, loaded) && |loaded.entries| == (if u.cursor - q.after <= MAX_CHANGES then u.cursor - q.after else MAX_CHANGES)
    requires r.Ok? ==> CompleteDelta(u, q.after, r.value) && r.value.next <= loaded.next
                       && forall n | |r.value.entries| < n <= |loaded.entries| :: q.bytes(loaded.entries[..n], n < |loaded.entries| || loaded.hasMore) > MAX_BODY_BYTES
    requires r.Err? ==> q.bytes(loaded.entries, loaded.hasMore) > MAX_BODY_BYTES
                        && forall n | 1 <= n <= |loaded.entries| :: q.bytes(loaded.entries[..n], n < |loaded.entries| || loaded.hasMore) > MAX_BODY_BYTES
    ensures r.Ok? ==> LongestDelta(u, q, r.value)
    ensures r.Err? ==> NoDeltaFits(u, q)
  {
    forall d: Delta | CompleteDelta(u, q.after, d)
      ensures r.Err? ==> q.bytes(d.entries, d.hasMore) > MAX_BODY_BYTES
      ensures r.Ok? && d.next > r.value.next ==> q.bytes(d.entries, d.hasMore) > MAX_BODY_BYTES
    {
      DeltaIsPrefix(u, q.after, loaded, d);
      if r.Ok? {
        DeltaIsPrefix(u, q.after, loaded, r.value);
      }
      if q.after == u.cursor {
        assert d.entries == loaded.entries && d.hasMore == loaded.hasMore;
      }
    }
  }

  /**
   The answer to a request: the advanced store, the longest delta that fits a body, and the raised
   returned cursor.  After the writes succeeded, the only refusal is that no delta fits.
   */
  ghost predicate SyncAnswers(t: Tables, q: Request, r: Result<Synced>)
    requires q.device in t.devices
  {
    match Advanced(t, q)
    case Err(e) => r == Err(e)
    case Ok(u) =>
      match r
      case Err(e) => e == InternalError && NoDeltaFits(u, q)
      case Ok(s) =>
        && q.device in u.devices
        && CompleteDelta(u, q.after, s.delta) && q.bytes(s.delta.entries, s.delta.hasMore) <= MAX_BODY_BYTES
        && LongestDelta(u, q, s.delta)
        && s.tables == u.(devices := RaiseReturned(u.devices, q.device, s.delta.next))
  }

  /**
   A successful sync keeps the joint invariant, undoes nothing, and delivers exactly the changes
   after the client's cursor: consecutive, with more to come if and only if the log goes on.
   */
  lemma SyncKeepsInv(t: Tables, q: Request, r: Result<Synced>)
    requires RunInv(t) && q.device in t.devices && t.uptime <= q.uptime <= MAX_UINT64
    requires SyncAnswers(t, q, r) && r.Ok?
    ensures RunInv(r.value.tables) && Evolves(t, r.value.tables)
    ensures CompleteDelta(r.value.tables, q.after, r.value.delta)
  {
    hide RunInv, StoreInv, Evolves, Quiet, Advanced, RegistryInv, DevicesEvolve, ObjectsInv;
    AdvancedKeepsInv(t, q);
    var u := Advanced(t, q).value;
    var v := r.value.tables;
    RunInvParts(u);
    StoreParts(u);
    ObjectsPart(u);
    RaiseKeepsRegistry(u, q.device, r.value.delta.next);
    SnapshotFrame(u, v);
    ReturnedIsQuiet(u, q.device, r.value.delta.next);
    QuietKeepsRunInv(u, v);
    EvolvesTransitive(t, u, v);
    DeltaFrame(u, v, q.after, r.value.delta);
  }

  lemma DeltaFrame(u: Tables, v: Tables, after: Cursor, d: Delta)
    requires CompleteDelta(u, after, d) && v == u.(devices := v.devices)
    ensures CompleteDelta(v, after, d)
  {
    assert forall c | Deliverable(u, c) :: Deliverable(v, c) && ItemAt(v, c) == ItemAt(u, c);
    assert Entries(v, after, d.next - after) == Entries(u, after, d.next - after);
  }

  lemma ReturnedIsQuiet(u: Tables, d: DeviceId, cursor: Cursor)
    requires d in u.devices
    ensures Quiet(u, u.(devices := RaiseReturned(u.devices, d, cursor)))
  {
  }

  method SyncTransaction(t: Tables, q: Request) returns (r: Result<Synced>)
    requires RunInv(t) && q.device in t.devices && t.uptime <= q.uptime <= MAX_UINT64
    ensures SyncAnswers(t, q, r)
  {
    hide RunInv, StoreInv, Evolves, Quiet, CollectEligible, AdmitWithinCursors, LogInv, RowLogInv, ObjectsInv, HeadsInv,
         DropSnapshots, CompleteDelta;
    if !ShapesValid(q.device, q.mutations) {
      return Err(InvalidRequest);
    }
    var device := t.devices[q.device];
    if q.after < t.floor {
      return Err(CursorExpired);
    }
    if q.after > t.cursor || q.after > device.maxReturned || q.ack < device.ack || q.ack > device.maxReturned {
      return Err(InvalidRequest);
    }
    var u := t.(uptime := q.uptime);
    SyncSteps(t, q);
    var admitted := AdmitBatch(u, q.device, q.mutations);
    if admitted.Err? {
      return Err(admitted.error);
    }
    u := Acknowledge(admitted.value, q.device, q.ack);
    u := PruneExpired(u, q.live);
    u := CollectEligibleTx(u);
    if q.after < u.floor {
      return Err(CursorExpired);
    }
    AdvancedKeepsInv(t, q);
    RunInvParts(u);
    ObjectsPart(u);
    var loaded := LoadChanges(u, q.after);
    var delta := TrimToBody(u, q.after, loaded, q.bytes);
    TrimmedIsLongest(u, q, loaded, delta);
    hide NoDeltaFits, LongestDelta;
    if delta.Err? {
      return Err(InternalError);
    }
    u := u.(devices := RaiseReturned(u.devices, q.device, delta.value.next));
    r := Ok(Synced(u, delta.value));
  }

  /** What each step of the transaction may rely on. */
  lemma SyncSteps(t: Tables, q: Request)
    requires RunInv(t) && q.device in t.devices && t.uptime <= q.uptime <= MAX_UINT64
    requires ShapesValid(q.device, q.mutations) && CursorRefusal(t, q).None?
    ensures var a := t.(uptime := q.uptime);
            && HeadsInv(a.revisions, a.heads) && a.cursor <= MAX_UINT64 && AllWellShaped(q.device, q.mutations)
            && var b := AdmitWithinCursors(a, q.device, q.mutations);
               b.Ok? ==>
                 && q.device in b.value.devices
                 && var c := Acknowledge(b.value, q.device, q.ack);
                    ObjectsInv(c.revisions, c.objects, c.snapshots) && StoreInv(PruneSnapshots(c, q.live))
  {
    hide RunInv, StoreInv, Evolves, Quiet, AdmitWithinCursors, LogInv, RowLogInv, ObjectsInv, HeadsInv, PruneSnapshots;
    var a := t.(uptime := q.uptime);
    RunInvParts(t);
    UptimeKeepsInv(t, q.uptime);
    QuietKeepsRunInv(t, a);
    ObjectsPart(a);
    CursorBound(a);
    if AdmitWithinCursors(a, q.device, q.mutations).Ok? {
      AdmittedKeepsRunInv(a, q.device, q.mutations);
      var b := AdmitWithinCursors(a, q.device, q.mutations).value;
      RunInvParts(b);
      AcknowledgeKeepsInv(b, q.device, q.ack);
      var c := Acknowledge(b, q.device, q.ack);
      ObjectsPart(c);
      QuietKeepsRunInv(b, c);
      PruneKeepsRunInv(c, q.live);
      RunInvParts(PruneSnapshots(c, q.live));
    }
  }

  lemma CursorBound(t: Tables)
    requires StoreInv(t)
    ensures t.cursor <= MAX_UINT64
  {
    StoreParts(t);
  }
}
