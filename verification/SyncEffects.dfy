/**
 What a sync does to the store, told from the request and the tables alone: the
 device's cursors and counter, the stored uploads, the dropped snapshots; and
 which requests succeed.
 */
module SyncEffects {
  import opened Outcomes
  import opened Uint64
  import opened Vectors
  import opened StoreTables
  import opened Collection
  import opened CollectionProofs
  import opened Admission
  import opened AdmissionRules
  import opened SnapshotPlan
  import opened Snapshots
  import opened Sync

  // ----- What a successful sync writes ------------------------------------------------------------

  /** The caller acknowledges what it said, may acknowledge what it was sent, and has used a counter for each new mutation. */
  ghost predicate CallerMoved(before: map<DeviceId, Device>, after: map<DeviceId, Device>, q: Request, uploads: int, sent: Cursor) {
    && q.device in before && uploads >= 0
    && after == before[q.device := Device(before[q.device].revoked, q.ack, before[q.device].maxCounter + uploads,
                                          if before[q.device].maxReturned < sent then sent else before[q.device].maxReturned)]
  }

  /** An upload is stored with its content; a new one is retained, stamped with the request's uptime, at a new cursor. */
  predicate UploadStored(t: Tables, q: Request, rev: Revision, u: Tables) {
    && rev.id in u.revisions && u.revisions[rev.id].hash.of == rev
    && (rev.id !in t.revisions ==>
          && u.revisions[rev.id].metadata == rev.metadata && u.revisions[rev.id].collected.None?
          && u.revisions[rev.id].accepted == q.uptime && t.cursor < u.revisions[rev.id].cursor <= u.cursor)
  }

  /** The rows are the old ones, which at most lost their bytes, and those of the uploads. */
  ghost predicate OnlyUploads(t: Tables, q: Request, u: Tables) {
    && (forall r | r in t.revisions :: r in u.revisions && u.revisions[r].(collected := t.revisions[r].collected) == t.revisions[r])
    && (forall r | r in u.revisions && r !in t.revisions :: Brings(q.mutations, r))
    && |t.revisions| <= |u.revisions|
  }

  /** The cursors of a request are within what the device was sent, and the acknowledgement does not go back. */
  predicate CursorsInOrder(t: Tables, q: Request) {
    && q.device in t.devices
    && t.floor <= q.after <= t.cursor && q.after <= t.devices[q.device].maxReturned
    && t.devices[q.device].ack <= q.ack <= t.devices[q.device].maxReturned
  }

  lemma TookKeepsUploads(a: Tables, b: Tables, rows: map<RevisionId, Row>, r: RevisionId, q: Request)
    requires TookOnlyEligible(a, b) && a.revisions == rows && r in rows
    ensures r in b.revisions && b.revisions[r].(collected := rows[r].collected) == rows[r]
    ensures rows[r].accepted == a.uptime && Retained(rows[r]) ==> Retained(b.revisions[r])
  {
  }

  /** The tables as they are right before the collection pass. */
  ghost function BeforeCollection(t: Tables, q: Request, admitted: Tables): Tables
    requires q.device in admitted.devices
  {
    PruneSnapshots(Acknowledge(admitted, q.device, q.ack), q.live)
  }

  /** The steps of a successful sync. */
  lemma SyncPath(t: Tables, q: Request, r: Result<Synced>) returns (admitted: Tables, u: Tables)
    requires RunInv(t) && q.device in t.devices && t.uptime <= q.uptime <= MAX_UINT64 && SyncAnswers(t, q, r) && r.Ok?
    ensures ShapesValid(q.device, q.mutations) && CursorsInOrder(t, q)
    ensures AdmitAll(t.(uptime := q.uptime), q.device, q.mutations) == Ok(admitted) && q.device in admitted.devices
    ensures u == CollectEligible(BeforeCollection(t, q, admitted)) && TookOnlyEligible(BeforeCollection(t, q, admitted), u)
    ensures q.device in u.devices && r.value.tables == u.(devices := RaiseReturned(u.devices, q.device, r.value.delta.next))
    ensures u.cursor >= admitted.cursor
  {
    hide RunInv, StoreInv, CollectEligible, AdmitAll, ShapesValid, LogInv, ObjectsInv, HeadsInv, CompleteDelta, LongestDelta, TookOnlyEligible,
         DropSnapshots;
    ShapesAuthors(q);
    admitted := AdmitWithinCursors(t.(uptime := q.uptime), q.device, q.mutations).value;
    u := Advanced(t, q).value;
    SyncSteps(t, q);
    CollectEligibleSafe(BeforeCollection(t, q, admitted));
    SameCursor(t, q, admitted);
  }

  lemma SameCursor(t: Tables, q: Request, admitted: Tables)
    requires q.device in admitted.devices
    ensures var p := BeforeCollection(t, q, admitted);
            && p.cursor == admitted.cursor && p.floor == admitted.floor && p.uptime == admitted.uptime && p.revisions == admitted.revisions
            && p.devices == admitted.devices[q.device := admitted.devices[q.device].(ack := q.ack)]
            && p.snapshots == admitted.snapshots - (admitted.snapshots.Keys - q.live)
  {
  }

  lemma TookParts(a: Tables, b: Tables)
    requires TookOnlyEligible(a, b)
    ensures b.uptime == a.uptime && b.devices == a.devices && b.snapshots == a.snapshots && b.revisions.Keys == a.revisions.Keys
  {
  }

  lemma CallerPath(a: map<DeviceId, Device>, b: map<DeviceId, Device>, c: map<DeviceId, Device>, d: map<DeviceId, Device>, q: Request, uploads: int, sent: Cursor)
    requires CountersTaken(a, q.device, uploads, b) && q.device in b
    requires c == b[q.device := b[q.device].(ack := q.ack)] && d == RaiseReturned(c, q.device, sent)
    ensures CallerMoved(a, d, q, uploads, sent)
  {
  }

  lemma SameSize(a: map<RevisionId, Row>, b: map<RevisionId, Row>)
    requires a.Keys == b.Keys
    ensures |a| == |b|
  {
    assert |a| == |a.Keys| && |b| == |b.Keys|;
  }

  lemma UploadLasts(t: Tables, q: Request, a: Tables, p: Tables, u: Tables, rev: Revision)
    requires IsStored(t.revisions, rev, q.uptime, t.cursor, a.revisions, a.cursor)
    requires p.revisions == a.revisions && p.uptime == q.uptime && TookOnlyEligible(p, u) && a.cursor <= u.cursor
    ensures UploadStored(t, q, rev, u)
  {
    TookKeepsUploads(p, u, a.revisions, rev.id, q);
  }

  lemma OnlyUploadsLast(t: Tables, q: Request, a: Tables, p: Tables, u: Tables)
    requires RowsKept(t.revisions, a.revisions) && OnlyBrought(t.revisions, q.mutations, a.revisions) && |t.revisions| <= |a.revisions|
    requires p.revisions == a.revisions && TookOnlyEligible(p, u)
    ensures OnlyUploads(t, q, u) && |u.revisions| == |a.revisions|
  {
    hide Brings;
    SameSize(u.revisions, a.revisions);
    forall r | r in t.revisions
      ensures r in u.revisions && u.revisions[r].(collected := t.revisions[r].collected) == t.revisions[r]
    {
      TookKeepsUploads(p, u, a.revisions, r, q);
    }
  }

  lemma DevicesAside(t: Tables, q: Request, u: Tables, devices: map<DeviceId, Device>)
    ensures OnlyUploads(t, q, u) ==> OnlyUploads(t, q, u.(devices := devices))
    ensures forall rev :: UploadStored(t, q, rev, u) ==> UploadStored(t, q, rev, u.(devices := devices))
  {
  }

  /** Everything a successful sync writes, beside what collection takes and the snapshots whose leases ended. */
  ghost predicate SyncWrote(t: Tables, q: Request, u: Tables, sent: Cursor) {
    && CallerMoved(t.devices, u.devices, q, |u.revisions| - |t.revisions|, sent)
    && OnlyUploads(t, q, u)
    && (forall i | 0 <= i < |q.mutations| :: UploadStored(t, q, q.mutations[i], u))
    && u.uptime == q.uptime
  }

  /**
   A successful sync stores the acknowledgement it carries, remembers how far the device was sent, leaves
   every other device alone, and stores every upload with its content; at most it takes the bytes of
   older revisions away.
   */
  lemma SyncStores(t: Tables, q: Request, r: Result<Synced>)
    requires RunInv(t) && q.device in t.devices && t.uptime <= q.uptime <= MAX_UINT64 && SyncAnswers(t, q, r) && r.Ok?
    ensures CursorsInOrder(t, q) && SyncWrote(t, q, r.value.tables, r.value.delta.next)
  {
    hide *;
    var a, u := SyncPath(t, q, r);
    var p := BeforeCollection(t, q, a);
    ShapesAuthors(q);
    AcceptedBatchIsStored(t.(uptime := q.uptime), q.device, q.mutations);
    BatchParts(t.revisions, q.mutations, q.uptime, t.cursor, a.revisions, a.cursor);
    SameCursor(t, q, a);
    TookParts(p, u);
    OnlyUploadsLast(t, q, a, p, u);
    CallerPath(t.devices, a.devices, u.devices, r.value.tables.devices, q, |a.revisions| - |t.revisions|, r.value.delta.next);
    forall i | 0 <= i < |q.mutations|
      ensures UploadStored(t, q, q.mutations[i], u)
    {
      UploadLasts(t, q, a, p, u, q.mutations[i]);
    }
    DevicesAside(t, q, u, r.value.tables.devices);
    WroteAll(t, q, r.value.tables, r.value.delta.next);
  }

  lemma WroteAll(t: Tables, q: Request, u: Tables, sent: Cursor)
    requires CallerMoved(t.devices, u.devices, q, |u.revisions| - |t.revisions|, sent) && OnlyUploads(t, q, u) && u.uptime == q.uptime
    requires forall i | 0 <= i < |q.mutations| :: UploadStored(t, q, q.mutations[i], u)
    ensures SyncWrote(t, q, u, sent)
  {
  }

  lemma ShapesAuthors(q: Request)
    requires ShapesValid(q.device, q.mutations)
    ensures forall i | 0 <= i < |q.mutations| :: q.mutations[i].metadata.author == q.device
  {
  }

  lemma BatchParts(rows: map<RevisionId, Row>, batch: seq<Revision>, uptime: nat, before: Cursor, stored: map<RevisionId, Row>, after: Cursor)
    requires BatchStored(rows, batch, uptime, before, stored, after)
    ensures RowsKept(rows, stored) && OnlyBrought(rows, batch, stored) && |rows| <= |stored|
    ensures forall i | 0 <= i < |batch| :: IsStored(rows, batch[i], uptime, before, stored, after)
  {
  }

  // ----- Which requests succeed ---------------------------------------------------------------------

  /** The floor stands where it stood, or at a revision that was just collected. */
  ghost predicate FloorAtCollected(a: Tables, b: Tables) {
    b.floor == a.floor || exists r :: r in a.revisions && Retained(a.revisions[r]) && r in b.revisions && !Retained(b.revisions[r]) && a.revisions[r].cursor == b.floor
  }

  lemma CollectAllFloor(t: Tables, selected: seq<RevisionId>, g: nat, u: Tables)
    requires CollectionProofs.Distinct(selected) && (forall c | c in selected :: c in t.revisions && Collectable(t, c)) && u == CollectAll(t, selected, g)
    ensures FloorAtCollected(t, u)
  {
    CollectAllExact(t, selected, g);
    hide CollectAll, Collectable;
    if u.floor != t.floor {
      var r :| r in selected && t.revisions[r].cursor == u.floor;
      CollectableIsRetained(t, r);
    }
  }

  lemma CollectableIsRetained(t: Tables, r: RevisionId)
    requires Collectable(t, r)
    ensures r in t.revisions && Retained(t.revisions[r])
  {
  }

  lemma FloorFrame(a: Tables, t: Tables, u: Tables, v: Tables)
    requires FloorAtCollected(t, u) && a.revisions == t.revisions && a.floor == t.floor && v.revisions == u.revisions && v.floor == u.floor
    ensures FloorAtCollected(a, v)
  {
  }

  lemma CollectRecordFloor(t: Tables, record: RecordId, g: nat)
    ensures FloorAtCollected(t, CollectRecord(t, record, g))
  {
    hide FloorAtCollected, CollectAll, PlanFor, Collectable, HasCandidate, IsWitness, Acknowledged, AgedCandidates;
    match PlanFor(t, record)
    case Skip =>
      SameFloor(t);
    case Prune(selected) =>
      PruneFacts(t, record);
      var u := CollectAll(t, selected, g);
      CollectAllFloor(t, selected, g, u);
      FloorFrame(t, t, u, CloseRecord(u, record, g));
    case Advance(w, selected) =>
      AdvanceFacts(t, record);
      var a := AdvanceMarker(t, record, w);
      var u := CollectAll(a, selected, g);
      CollectAllFloor(a, selected, g, u);
      FloorFrame(t, a, u, CloseRecord(u, record, g));
  }

  lemma SameFloor(t: Tables)
    ensures FloorAtCollected(t, t)
  {
  }

  lemma FloorOn(a: Tables, b: Tables, c: Tables)
    requires FloorAtCollected(a, b) && FloorAtCollected(b, c) && RowsEvolve(a.revisions, b.revisions) && RowsEvolve(b.revisions, c.revisions)
    requires b.revisions.Keys == a.revisions.Keys
    ensures FloorAtCollected(a, c)
  {
    if c.floor != a.floor {
      if c.floor == b.floor {
        var r :| r in a.revisions && Retained(a.revisions[r]) && r in b.revisions && !Retained(b.revisions[r]) && a.revisions[r].cursor == b.floor;
        assert c.revisions[r] == b.revisions[r];
      } else {
        var r :| r in b.revisions && Retained(b.revisions[r]) && r in c.revisions && !Retained(c.revisions[r]) && b.revisions[r].cursor == c.floor;
        assert b.revisions[r].(collected := a.revisions[r].collected) == a.revisions[r];
      }
    }
  }

  lemma {:induction false} CollectRecordsFloor(t: Tables, records: seq<RecordId>, g: nat)
    requires StoreInv(t) && t.collectionGeneration <= g
    ensures FloorAtCollected(t, CollectRecords(t, records, g))
    decreases |records|
  {
    hide StoreInv, FloorAtCollected, CollectRecord, RowsEvolve, MarkersEvolve, AdmissionsDominate, DevicesEvolve, OriginsEvolve, TookOnlyEligible;
    if records == [] {
      SameFloor(t);
    } else {
      var u := CollectRecord(t, records[0], g);
      CollectRecordKeepsInv(t, records[0], g);
      CollectRecordGeneration(t, records[0], g);
      CollectRecordTakesOnlyEligible(t, records[0], g);
      CollectRecordFloor(t, records[0], g);
      TookParts(t, u);
      CollectRecordsKeepsInv(u, records[1..], g);
      CollectRecordsFloor(u, records[1..], g);
      FloorOn(t, u, CollectRecords(u, records[1..], g));
    }
  }

  lemma CollectEligibleFloor(t: Tables)
    requires StoreInv(t)
    ensures FloorAtCollected(t, CollectEligible(t))
  {
    hide StoreInv, CollectRecords, ScanBatch, ReachesScan, FloorAtCollected;
    SameFloor(t);
    FloorFrame(t, t, t, t.(scanAfter := None));
    if ReachesScan(t) {
      var batch := ScanBatch(t.barriers.Keys, t.scanAfter);
      CollectRecordsFloor(t, batch, t.collectionGeneration + 1);
      var u := CollectRecords(t, batch, t.collectionGeneration + 1);
      FloorFrame(t, t, u, CollectEligible(t).(revisions := u.revisions, floor := u.floor));
    }
  }

  /** A newly collected revision was at or below what every active device acknowledged. */
  lemma CollectedWasSeen(t: Tables, u: Tables, d: DeviceId)
    requires QueueInv(t.cursor, t.uptime, t.revisions, t.candidates, t.barriers) && TookOnlyEligible(t, u) && FloorAtCollected(t, u)
    requires d in t.devices && !t.devices[d].revoked
    ensures u.floor <= Max(t.floor, t.devices[d].ack)
  {
    hide QueueInv;
    if u.floor != t.floor {
      var r :| r in t.revisions && Retained(t.revisions[r]) && r in u.revisions && !Retained(u.revisions[r]) && t.revisions[r].cursor == u.floor;
      assert Eligible(t, r);
      BelowBarrier(t, r);
    }
  }

  /** A pass does not raise the floor above what an active device has acknowledged. */
  lemma CollectionLeavesUnseen(t: Tables, d: DeviceId)
    requires StoreInv(t) && d in t.devices && !t.devices[d].revoked
    ensures CollectEligible(t).floor <= Max(t.floor, t.devices[d].ack)
  {
    hide *;
    QueuePart(t);
    CollectEligibleSafe(t);
    CollectEligibleFloor(t);
    CollectedWasSeen(t, CollectEligible(t), d);
  }

  lemma QueuePart(t: Tables)
    requires StoreInv(t)
    ensures QueueInv(t.cursor, t.uptime, t.revisions, t.candidates, t.barriers)
  {
    hide LogInv, RowLogInv, ObjectsInv, HeadsInv, SiblingsInv, DistinctVectors, CoverageInv, MarkersInv, QueueInv, RegistryInv, AuthorsInv;
  }

  lemma BelowBarrier(t: Tables, r: RevisionId)
    requires QueueInv(t.cursor, t.uptime, t.revisions, t.candidates, t.barriers) && r in t.revisions && RecordOf(t.revisions, r) in t.barriers
    ensures t.revisions[r].cursor <= t.barriers[RecordOf(t.revisions, r)]
  {
  }

  /** Why a sync is refused before its uploads are looked at. */
  lemma CursorRefusals(t: Tables, q: Request, r: Result<Synced>)
    requires q.device in t.devices && SyncAnswers(t, q, r)
    ensures !ShapesValid(q.device, q.mutations) ==> r == Err(InvalidRequest)
    ensures ShapesValid(q.device, q.mutations) && q.after < t.floor ==> r == Err(CursorExpired)
    ensures ShapesValid(q.device, q.mutations) && t.floor <= q.after && !CursorsInOrder(t, q) ==> r == Err(InvalidRequest)
  {
    hide ShapesValid, CollectEligible, AdmitWithinCursors, CompleteDelta, PruneSnapshots, NoDeltaFits, LongestDelta;
  }

  /** A body always holds a single change, or none. */
  ghost predicate HoldsOneChange(bytes: (seq<Entry>, bool) -> nat) {
    forall entries: seq<Entry>, more: bool | |entries| <= 1 :: bytes(entries, more) <= MAX_BODY_BYTES
  }

  lemma OneChangeFits(u: Tables, q: Request)
    requires RunInv(u) && u.floor <= q.after <= u.cursor && HoldsOneChange(q.bytes)
    ensures !NoDeltaFits(u, q)
  {
    RunInvParts(u);
    ObjectsPart(u);
    hide RunInv, StoreInv, LogInv, RowLogInv, ObjectsInv, HeadsInv;
    var n := if q.after < u.cursor then 1 else 0;
    if n == 1 {
      ChangesAreDeliverable(u, q.after + 1);
    }
    var d := Delta(Entries(u, q.after, n), q.after + n, q.after + n < u.cursor);
    assert CompleteDelta(u, q.after, d);
  }

  /**
   An active device whose request is well-formed, whose cursors are in order with `after` at or past its
   acknowledgement, and whose uploads are admitted, is answered with a delta: the collection its own
   request runs never expires it, and a body that holds one change holds some delta.
   */
  lemma SyncSucceeds(t: Tables, q: Request, r: Result<Synced>)
    requires RunInv(t) && q.device in t.devices && t.uptime <= q.uptime <= MAX_UINT64 && SyncAnswers(t, q, r)
    requires ShapesValid(q.device, q.mutations) && CursorsInOrder(t, q) && !t.devices[q.device].revoked && q.ack <= q.after
    requires AuthoredBy(q) && UploadsAdmitted(t.(uptime := q.uptime), q)
    ensures r.Ok? || r == Err(InternalError)
    ensures HoldsOneChange(q.bytes) ==> r.Ok?
  {
    hide RunInv, StoreInv, CollectEligible, AdmitAll, ShapesValid, LogInv, ObjectsInv, HeadsInv, CompleteDelta, LongestDelta, NoDeltaFits,
         TookOnlyEligible, DropSnapshots, CountersTaken, BatchStored, AdmitWithinCursors, HoldsOneChange, Evolves, UploadsAdmitted, AuthoredBy;
    WithinCursors(t.(uptime := q.uptime), q);
    SameAuthor(q);
    var admitted := AdmitWithinCursors(t.(uptime := q.uptime), q.device, q.mutations).value;
    SyncSteps(t, q);
    AdmittedPath(t, q, admitted);
    SameCursor(t, q, admitted);
    var p := BeforeCollection(t, q, admitted);
    CollectionLeavesUnseen(p, q.device);
    AdvancedKeepsInv(t, q);
    FitsOrNot(t, q, r);
    if HoldsOneChange(q.bytes) {
      OneChangeFits(Advanced(t, q).value, q);
    }
  }

  /** The uploads are admitted one by one, and the cursors suffice for them. */
  ghost predicate UploadsAdmitted(t: Tables, q: Request)
    requires q.device in t.devices && AuthoredBy(q)
  {
    AdmitAll(t, q.device, q.mutations).Ok? && AdmitAll(t, q.device, q.mutations).value.cursor <= MAX_UINT64
  }

  lemma WithinCursors(t: Tables, q: Request)
    requires q.device in t.devices && AuthoredBy(q)
    ensures UploadsAdmitted(t, q) ==> AdmitWithinCursors(t, q.device, q.mutations).Ok?
  {
    hide AdmitAll;
  }

  lemma SameAuthor(q: Request)
    requires AuthoredBy(q)
    ensures forall i | 0 <= i < |q.mutations| :: q.mutations[i].metadata.author == q.device
  {
  }

  predicate AuthoredBy(q: Request) {
    forall i | 0 <= i < |q.mutations| :: q.mutations[i].metadata.author == q.device
  }

  lemma AdmittedPath(t: Tables, q: Request, admitted: Tables)
    requires q.device in t.devices && AuthoredBy(q) && AdmitWithinCursors(t.(uptime := q.uptime), q.device, q.mutations) == Ok(admitted)
    ensures q.device in admitted.devices && admitted.devices[q.device].revoked == t.devices[q.device].revoked
    ensures admitted.floor == t.floor
  {
    hide AdmitAll;
    AcceptedBatchIsStored(t.(uptime := q.uptime), q.device, q.mutations);
    AdmissionKeepsFloor(t.(uptime := q.uptime), q.device, q.mutations);
  }

  lemma {:induction false} AdmissionKeepsFloor(t: Tables, device: DeviceId, batch: seq<Revision>)
    requires device in t.devices && (forall i | 0 <= i < |batch| :: batch[i].metadata.author == device) && AdmitAll(t, device, batch).Ok?
    ensures AdmitAll(t, device, batch).value.floor == t.floor
    decreases |batch|
  {
    hide Refusal, HeadsAfter;
    if batch != [] {
      AdmissionKeepsFloor(AdmitNext(t, batch[0]).value, device, batch[1..]);
    }
  }

  lemma FitsOrNot(t: Tables, q: Request, r: Result<Synced>)
    requires q.device in t.devices && SyncAnswers(t, q, r) && Advanced(t, q).Ok?
    ensures r.Ok? || r == Err(InternalError)
    ensures r == Err(InternalError) <==> NoDeltaFits(Advanced(t, q).value, q)
  {
    hide Advanced, LongestDelta, CompleteDelta;
  }

  /**
   A successful sync answers with the changes right after the client's cursor, at most 128 of them; if every body is
   small enough, with exactly 128 or all there are; and it says that there is more exactly when there is.
   */
  lemma DeltaIsFull(t: Tables, q: Request, r: Result<Synced>)
    requires RunInv(t) && q.device in t.devices && t.uptime <= q.uptime <= MAX_UINT64 && SyncAnswers(t, q, r) && r.Ok?
    ensures var (u, d) := (r.value.tables, r.value.delta);
            && q.after <= d.next <= u.cursor && |d.entries| == d.next - q.after <= 128 && (d.hasMore <==> d.next < u.cursor)
            && (forall i | 0 <= i < |d.entries| :: d.entries[i].cursor == q.after + 1 + i)
            && ((forall entries: seq<Entry>, more: bool :: q.bytes(entries, more) <= MAX_BODY_BYTES) ==>
                  d.next == if u.cursor - q.after <= 128 then u.cursor else q.after + 128)
  {
    hide RunInv, StoreInv, Evolves, Advanced;
    SyncKeepsInv(t, q, r);
    AdvancedKeepsInv(t, q);
    var (u, d) := (Advanced(t, q).value, r.value.delta);
    if forall entries: seq<Entry>, more: bool :: q.bytes(entries, more) <= MAX_BODY_BYTES {
      LongestIsFull(u, q, d);
    }
  }

  lemma LongestIsFull(u: Tables, q: Request, d: Delta)
    requires RunInv(u) && u.floor <= q.after <= u.cursor && CompleteDelta(u, q.after, d) && LongestDelta(u, q, d)
    requires forall entries: seq<Entry>, more: bool :: q.bytes(entries, more) <= MAX_BODY_BYTES
    ensures d.next == if u.cursor - q.after <= 128 then u.cursor else q.after + 128
  {
    RunInvParts(u);
    ObjectsPart(u);
    hide RunInv, StoreInv, LogInv, RowLogInv, ObjectsInv, HeadsInv;
    var n := if u.cursor - q.after <= 128 then u.cursor - q.after else 128;
    forall c | q.after < c <= q.after + n
      ensures Deliverable(u, c)
    {
      ChangesAreDeliverable(u, c);
    }
    var full := Delta(Entries(u, q.after, n), q.after + n, q.after + n < u.cursor);
    assert CompleteDelta(u, q.after, full);
  }
}
