/**
 The running store: the committed database, the receipts beside it, and what
 lives in memory only.  Each method is one request; a request that fails leaves
 the database as it was.
 */
module StoreClass {
  import opened Outcomes
  import opened Uint64
  import opened Vectors
  import opened StoreTables
  import opened Collection
  import opened SnapshotPlan
  import opened Snapshots
  import opened SnapshotCode
  import opened Registry
  import opened Admission
  import opened CollectionProofs
  import opened Sync
  import opened SyncEffects
  import opened StoreRuns
  import opened Receipts
  import opened Uptime

  const SNAPSHOT_LIFETIME: int := 15 * 60 * 1_000_000_000

  /** The leases still running at a clock reading. */
  function Running(deadlines: map<SnapshotId, int>, now: int): set<SnapshotId> {
    set s | s in deadlines && now < deadlines[s]
  }

  function OnlyRunning(deadlines: map<SnapshotId, int>, now: int): map<SnapshotId, int> {
    map s | s in deadlines && now < deadlines[s] :: deadlines[s]
  }

  lemma UptimeBound(t: Tables)
    requires RunInv(t)
    ensures t.uptime <= MAX_UINT64
  {
    hide LogInv, RowLogInv, ObjectsInv, HeadsInv, SiblingsInv, DistinctVectors, CoverageInv, MarkersInv, RegistryInv, AuthorsInv,
         SnapshotsInv, EnvelopeInv;
  }

  /** A sync keeps exactly the snapshots whose leases run. */
  lemma SyncFrame(t: Tables, q: Request, r: Result<Synced>)
    requires RunInv(t) && q.device in t.devices && UptimeMayBe(t, q.uptime) && SyncAnswers(t, q, r) && r.Ok?
    ensures r.value.tables.snapshots == t.snapshots - (t.snapshots.Keys - q.live)
  {
    hide RunInv, StoreInv, Evolves, CollectEligible, AdmitAll, ShapesValid, LogInv, ObjectsInv, HeadsInv, CompleteDelta;
    ShapesParts(q);
    SyncSteps(t, q);
    RunInvParts(t);
    var u := t.(uptime := q.uptime);
    UptimeKeepsInv(t, q.uptime);
    AdmitAllQuiet(u, q.device, q.mutations);
    var admitted := AdmitWithinCursors(u, q.device, q.mutations).value;
    var pruned := PruneSnapshots(Acknowledge(admitted, q.device, q.ack), q.live);
    CollectEligibleQuiet(pruned);
    CollectEligibleSafe(pruned);
  }

  datatype Reply = Replayed(body: nat) | Fresh(body: nat)

  predicate IsFresh(r: Result<Reply>) {
    r.Ok? && r.value.Fresh?
  }

  /** A reply as the lookup of its receipt would tell it. */
  function AsLookup(r: Result<Reply>): Result<Option<nat>> {
    match r
    case Err(e) => Err(e)
    case Ok(Replayed(body)) => Ok(Some(body))
    case Ok(Fresh(_)) => Ok(None)
  }

  ghost predicate KeyTaken(ledger: Ledger, device: DeviceId, operation: Operation, request: nat) {
    exists n | n in ledger.receipts :: SameKey(ledger.receipts[n], device, operation, request)
  }

  lemma NothingKnown(ledger: Ledger, device: DeviceId, operation: Operation, request: nat, fingerprint: nat)
    ensures Answers(ledger, device, operation, request, fingerprint, Ok(None)) ==>
              !KeyTaken(ledger, device, operation, request)
              && forall body: nat, created: nat :: KeyFree(ledger, Receipt(device, operation, request, fingerprint, body, created))
  {
  }

  /** Only a known key is answered otherwise than with nothing. */
  lemma ErrorsAreKnown(ledger: Ledger, device: DeviceId, operation: Operation, request: nat, fingerprint: nat, r: Result<Option<nat>>)
    requires Answers(ledger, device, operation, request, fingerprint, r) && r != Ok(None)
    ensures KeyTaken(ledger, device, operation, request)
  {
  }

  lemma RevokeUptime(t: Tables, target: DeviceId, allowZeroActive: bool)
    ensures Revoke(t, target, allowZeroActive).Ok? ==> Revoke(t, target, allowZeroActive).value.uptime == t.uptime
  {
    hide Active;
  }

  lemma NoReceiptsHold()
    ensures LedgerInv(NO_RECEIPTS)
  {
  }

  lemma UptimeGrows(t: Tables, elapsed: nat)
    requires t.uptime <= MAX_UINT64
    ensures UptimeMayBe(t, AddSaturating(t.uptime, elapsed))
  {
  }

  lemma RunningLeases(deadlines: map<SnapshotId, int>, now: int)
    ensures OnlyRunning(deadlines, now).Keys == Running(deadlines, now) <= deadlines.Keys
  {
  }

  lemma SyncIsStep(t: Tables, q: Request, r: Result<Synced>)
    requires q.device in t.devices && UptimeMayBe(t, q.uptime) && SyncAnswers(t, q, r) && r.Ok?
    ensures Step(t, SyncEvent(q, r.value.delta), r.value.tables)
  {
    hide SyncAnswers;
  }

  /** A request identifier used for one revocation target may not be used for another. */
  predicate ReusedAcrossTargets(ledger: Ledger, device: DeviceId, request: nat, target: DeviceId) {
    exists n | n in ledger.receipts ::
      && ledger.receipts[n].device == device && ledger.receipts[n].request == request
      && ledger.receipts[n].operation.RevocationOperation? && ledger.receipts[n].operation.target != target
  }

  /** The request identifier was used for some revocation. */
  predicate RevokedUnder(ledger: Ledger, device: DeviceId, request: nat) {
    exists n | n in ledger.receipts ::
      ledger.receipts[n].device == device && ledger.receipts[n].request == request && ledger.receipts[n].operation.RevocationOperation?
  }

  lemma OtherRevocations(ledger: Ledger, device: DeviceId, request: nat, target: DeviceId)
    ensures !KeyTaken(ledger, device, RevocationOperation(target), request) && RevokedUnder(ledger, device, request) ==>
              ReusedAcrossTargets(ledger, device, request, target)
  {
  }

  method AppendReceipt(ledger: Ledger, receipt: Receipt) returns (l: Ledger)
    requires LedgerInv(ledger) && KeyFree(ledger, receipt)
    ensures LedgerInv(l) && l == WithReceipt(ledger, receipt)
  {
    hide LedgerInv, KeyFree, Appended;
    var stored, sequence := StoreReceipt(ledger, receipt);
    AppendKeepsInv(ledger, sequence - 1, receipt);
    l := stored.value;
  }

  ghost predicate ReplaysSome(snapshots: map<SnapshotId, Snapshot>, c: Create) {
    exists s | s in snapshots :: Replays(snapshots[s], c)
  }

  predicate IsCreated(r: Result<SnapshotId>) {
    r.Ok?
  }

  lemma CreatedSnapshots(t: Tables, live: set<SnapshotId>, c: Create)
    requires CanCreate(PruneSnapshots(t, live), c)
    ensures Created(PruneSnapshots(t, live), c).snapshots.Keys == (t.snapshots.Keys - (t.snapshots.Keys - live)) + {c.id}
  {
    hide NewSnapshot, Accepted;
  }

  /** The store's tables once the uptime up to a clock reading is counted. */
  function UptimeCounted(t: Tables, checkpoint: int, now: int): Tables {
    t.(uptime := AddSaturating(t.uptime, ElapsedMs(checkpoint, now)))
  }

  /** The reply to a fresh request whose transaction gives `outcome`. */
  function ReplyTo(outcome: Result<Tables>, booted: bool, body: nat): Result<Reply> {
    match outcome
    case Err(e) => Err(e)
    case Ok(_) => if booted then Ok(Fresh(body)) else Err(InternalError)
  }

  /** The sync transaction refuses with this reply's error. */
  ghost predicate SyncRefuses(t: Tables, q: Request, r: Result<Reply>) {
    q.device in t.devices && r.Err? && SyncAnswers(t, q, Err(r.error))
  }

  /** A known create request is answered with its snapshot, or refused for another body. */
  ghost predicate CreateReplays(snapshots: map<SnapshotId, Snapshot>, c: Create, r: Result<SnapshotId>) {
    exists s | s in snapshots :: Replays(snapshots[s], c) && r == if snapshots[s].fingerprint == c.fingerprint then Ok(s) else Err(RequestIdReused)
  }

  /** The answer to a new create request, with its exact condition. */
  ghost predicate CreateAnswers(p: Tables, c: Create, r: Result<SnapshotId>) {
    && (r.Ok? <==> CanCreate(p, c)) && (r.Ok? ==> r.value == c.id)
    && (r.Err? ==> CreateRefused(p, c, r.error))
  }

  /** A page of the caller's own snapshot that a body can hold. */
  ghost predicate Servable(snapshots: map<SnapshotId, Snapshot>, s: SnapshotId, caller: DeviceId, token: nat, sizes: Sizes) {
    s in snapshots && snapshots[s].owner == caller && token in snapshots[s].pages && ServedBytes(sizes, snapshots[s].pages[token]) <= MAX_BODY_BYTES
  }

  // ----- Leases ------------------------------------------------------------------------------

  /** A lease and its snapshot are as they were. */
  ghost predicate SameLease(was: map<SnapshotId, int>, before: map<SnapshotId, Snapshot>,
                            deadlines: map<SnapshotId, int>, snapshots: map<SnapshotId, Snapshot>, s: SnapshotId) {
    s in was && s in before && s in deadlines && s in snapshots && deadlines[s] == was[s] && snapshots[s] == before[s]
  }

  /** Every lease still running at `now` is as it was, and so is its snapshot. */
  ghost predicate LeasesKept(was: map<SnapshotId, int>, before: map<SnapshotId, Snapshot>,
                             deadlines: map<SnapshotId, int>, snapshots: map<SnapshotId, Snapshot>, now: int) {
    forall s | s in was && s in before && now < was[s] :: SameLease(was, before, deadlines, snapshots, s)
  }

  lemma NothingTouched(deadlines: map<SnapshotId, int>, snapshots: map<SnapshotId, Snapshot>, now: int)
    ensures LeasesKept(deadlines, snapshots, deadlines, snapshots, now)
    ensures LeasesKept(deadlines, snapshots, OnlyRunning(deadlines, now), snapshots, now)
  {
  }

  lemma PrunedLeases(deadlines: map<SnapshotId, int>, snapshots: map<SnapshotId, Snapshot>, now: int)
    ensures LeasesKept(deadlines, snapshots, OnlyRunning(deadlines, now), snapshots - (snapshots.Keys - Running(deadlines, now)), now)
  {
  }

  lemma AddedLease(deadlines: map<SnapshotId, int>, snapshots: map<SnapshotId, Snapshot>, now: int, id: SnapshotId, snapshot: Snapshot, deadline: int)
    requires id !in snapshots - (snapshots.Keys - Running(deadlines, now))
    ensures LeasesKept(deadlines, snapshots, OnlyRunning(deadlines, now)[id := deadline],
                       (snapshots - (snapshots.Keys - Running(deadlines, now)))[id := snapshot], now)
  {
  }

  /** The transaction of a sync request that is not a replay, and the receipt stored in it. */
  method CommitSync(t: Tables, ledger: Ledger, q: Request, request: nat, fingerprint: nat, encode: Delta -> nat)
    returns (r: Result<Synced>, l: Ledger)
    requires RunInv(t) && LedgerInv(ledger) && q.device in t.devices && UptimeMayBe(t, q.uptime)
    requires forall body: nat, created: nat :: KeyFree(ledger, Receipt(q.device, SyncOperation, request, fingerprint, body, created))
    ensures SyncAnswers(t, q, r)
    ensures r.Ok? ==>
              && RunInv(r.value.tables) && LedgerInv(l)
              && Step(t, SyncEvent(q, r.value.delta), r.value.tables)
              && r.value.tables.snapshots == t.snapshots - (t.snapshots.Keys - q.live)
              && SyncWrote(t, q, r.value.tables, r.value.delta.next)
              && l == WithReceipt(ledger, Receipt(q.device, SyncOperation, request, fingerprint, encode(r.value.delta), q.uptime))
  {
    hide RunInv, LedgerInv, SyncAnswers, WithReceipt, Step, KeyFree, Evolves, CompleteDelta, CallerMoved, OnlyUploads, UploadStored;
    l := ledger;
    r := SyncTransaction(t, q);
    if r.Ok? {
      SyncKeepsInv(t, q, r);
      SyncFrame(t, q, r);
      SyncStores(t, q, r);
      SyncIsStep(t, q, r);
      l := AppendReceipt(ledger, Receipt(q.device, SyncOperation, request, fingerprint, encode(r.value.delta), q.uptime));
    }
  }

  /** The transaction of a create request that is not a replay. */
  method CommitCreate(t: Tables, deadlines: map<SnapshotId, int>, c: Create, now: int) returns (r: Result<Tables>)
    requires RunInv(t) && c.owner in t.devices && !ReplaysSome(t.snapshots, c)
    ensures CreateAnswers(PruneSnapshots(t, Running(deadlines, now)), c, if r.Ok? then Ok(c.id) else Err(r.error))
    ensures r.Ok? ==>
              && RunInv(r.value) && Step(t, CreateEvent(Running(deadlines, now), c), r.value)
              && r.value.snapshots.Keys == (t.snapshots.Keys * Running(deadlines, now)) + {c.id}
              && LeasesKept(deadlines, t.snapshots, OnlyRunning(deadlines, now)[c.id := now + SNAPSHOT_LIFETIME], r.value.snapshots, now)
  {
    hide RunInv, StoreInv, Evolves, SnapshotsInv, ObjectsInv, HeadsInv, LogInv, RowLogInv, CanCreate, DropSnapshots, Running, OnlyRunning,
         LeasesKept, CreateRefused, NewSnapshot;
    RunInvParts(t);
    ObjectsPart(t);
    var live := Running(deadlines, now);
    var served: SnapshotId;
    r, served := CreateSnapshot(t, live, c);
    if r.Ok? {
      CreateStep(t, live, c);
      CreatedSnapshots(t, live, c);
      PrunedSnapshots(t, live);
      NewIdIsFree(t, live, c);
      AddedLease(deadlines, t.snapshots, now, c.id, NewSnapshot(PruneSnapshots(t, live), c), now + SNAPSHOT_LIFETIME);
    }
  }

  lemma PrunedSnapshots(t: Tables, live: set<SnapshotId>)
    ensures PruneSnapshots(t, live).snapshots == t.snapshots - (t.snapshots.Keys - live)
  {
  }

  lemma NewIdIsFree(t: Tables, live: set<SnapshotId>, c: Create)
    requires CanCreate(PruneSnapshots(t, live), c)
    ensures c.id !in PruneSnapshots(t, live).snapshots
  {
    hide NewSnapshot, Accepted;
  }

  class Store {
    var db: Tables
    var ledger: Ledger
    var booted: bool
    var checkpoint: int
    var deadlines: map<SnapshotId, int>

    ghost predicate Valid()
      reads this
    {
      RunInv(db) && LedgerInv(ledger) && deadlines.Keys <= db.snapshots.Keys
    }

    constructor ()
      ensures Valid() && db == EMPTY && ledger == NO_RECEIPTS && !booted
    {
      db, ledger, booted, checkpoint, deadlines := EMPTY, NO_RECEIPTS, false, 0, map[];
      EmptyHolds();
      NoReceiptsHold();
      hide RunInv, LedgerInv;
    }

    /** A restart forgets every lease, so every snapshot goes and its objects are released. */
    method StartBoot(now: int)
      requires Valid()
      modifies this
      ensures Valid() && booted && Step(old(db), Boot, db) && db.snapshots == map[]
      ensures ledger == old(ledger) && checkpoint == now && deadlines == map[]
    {
      hide RunInv, StoreInv, LedgerInv, DropSnapshots, SnapshotsInv;
      RunInvParts(db);
      ObjectsPart(db);
      BootStep(db);
      assert db.snapshots.Keys - {} == db.snapshots.Keys;
      db := PruneExpired(db, {});
      booted, checkpoint, deadlines := true, now, map[];
    }

    /** The request a sync call makes of the current state. */
    ghost function RequestAt(device: DeviceId, after: Cursor, ack: Cursor, mutations: seq<Revision>,
                             bytes: (seq<Entry>, bool) -> nat, now: int): Request
      reads this
    {
      Request(device, after, ack, mutations, AddSaturating(db.uptime, ElapsedMs(checkpoint, now)), Running(deadlines, now), bytes)
    }

    /**
     A sync request: replay a known one, or run the transaction and store its receipt.
     Everything it changes, it changes in one committed step.
     */
    method SyncRequest(device: DeviceId, request: nat, fingerprint: nat, after: Cursor, ack: Cursor, mutations: seq<Revision>,
                       bytes: (seq<Entry>, bool) -> nat, encode: Delta -> nat, now: int)
      returns (r: Result<Reply>, delta: Delta)
      requires Valid() && device in db.devices
      modifies this
      ensures Valid() && booted == old(booted)
      ensures !ShapesValid(device, mutations) ==> r == Err(InvalidRequest)
      ensures ShapesValid(device, mutations) && KeyTaken(old(ledger), device, SyncOperation, request) ==>
                deadlines == old(deadlines) && Answers(old(ledger), device, SyncOperation, request, fingerprint, AsLookup(r))
      ensures ShapesValid(device, mutations) && !KeyTaken(old(ledger), device, SyncOperation, request) && !booted ==> r == Err(InternalError)
      ensures ShapesValid(device, mutations) && !KeyTaken(old(ledger), device, SyncOperation, request) && booted ==>
                IsFresh(r) || SyncRefuses(old(db), old(RequestAt(device, after, ack, mutations, bytes, now)), r)
      ensures !IsFresh(r) ==>
                && db == old(db) && ledger == old(ledger) && checkpoint == old(checkpoint)
                && (deadlines == old(deadlines) || deadlines == OnlyRunning(old(deadlines), now))
      ensures IsFresh(r) ==>
                && r == Ok(Fresh(encode(delta)))
                && Step(old(db), SyncEvent(old(RequestAt(device, after, ack, mutations, bytes, now)), delta), db)
                && checkpoint == NextCheckpoint(old(checkpoint), now)
                && SyncWrote(old(db), old(RequestAt(device, after, ack, mutations, bytes, now)), db, delta.next)
                && deadlines == OnlyRunning(old(deadlines), now)
                && (forall s :: s in db.snapshots <==> s in old(db).snapshots && s in old(deadlines) && now < old(deadlines)[s])
                && ledger == WithReceipt(old(ledger), Receipt(device, SyncOperation, request, fingerprint, encode(delta), db.uptime))
      ensures LeasesKept(old(deadlines), old(db).snapshots, deadlines, db.snapshots, now)
    {
      hide RunInv, StoreInv, LedgerInv, SnapshotsInv, SyncAnswers, WithReceipt, ShapesValid, Step, Answers, KeyTaken, KeyFree,
           Evolves, CompleteDelta, OnlyRunning, AddSaturating, ElapsedMs, NextCheckpoint, LeasesKept, CallerMoved, OnlyUploads, UploadStored;
      delta := Delta([], 0, false);
      NothingTouched(deadlines, db.snapshots, now);
      PrunedLeases(deadlines, db.snapshots, now);
      RunningLeases(deadlines, now);
      if !ShapesValid(device, mutations) {
        return Err(InvalidRequest), delta;
      }
      var known := LookupReceipt(ledger, device, SyncOperation, request, fingerprint);
      if known.Err? {
        ErrorsAreKnown(ledger, device, SyncOperation, request, fingerprint, known);
        return Err(known.error), delta;
      }
      if known.value.Some? {
        ErrorsAreKnown(ledger, device, SyncOperation, request, fingerprint, known);
        return Ok(Replayed(known.value.value)), delta;
      }
      NothingKnown(ledger, device, SyncOperation, request, fingerprint);
      if !booted {
        return Err(InternalError), delta;
      }
      UptimeBound(db);
      UptimeGrows(db, ElapsedMs(checkpoint, now));
      var uptime := AddSaturating(db.uptime, ElapsedMs(checkpoint, now));
      var q := Request(device, after, ack, mutations, uptime, Running(deadlines, now), bytes);
      var synced, stored := CommitSync(db, ledger, q, request, fingerprint, encode);
      if synced.Err? {
        // Leases are forgotten as soon as they are found expired, before the rollback.
        if synced.error == InternalError || (synced.error == CursorExpired && db.floor <= after) {
          deadlines := OnlyRunning(deadlines, now);
        }
        return Err(synced.error), delta;
      }
      db, ledger := synced.value.tables, stored;
      checkpoint := NextCheckpoint(checkpoint, now);
      deadlines := OnlyRunning(deadlines, now);
      delta := synced.value.delta;
      r := Ok(Fresh(encode(delta)));
    }

    /** Counting uptime alone. */
    method CheckpointUptime(now: int) returns (r: Result<nat>)
      requires Valid()
      modifies this
      ensures Valid() && booted == old(booted) && ledger == old(ledger) && deadlines == old(deadlines)
      ensures !booted ==> r == Err(InternalError) && db == old(db) && checkpoint == old(checkpoint)
      ensures booted ==>
                && r == Ok(db.uptime) && Step(old(db), Checkpoint(db.uptime), db) && db == UptimeCounted(old(db), old(checkpoint), now)
                && checkpoint == NextCheckpoint(old(checkpoint), now)
    {
      hide RunInv, LedgerInv, Evolves;
      if !booted {
        return Err(InternalError);
      }
      UptimeBound(db);
      UptimeGrows(db, ElapsedMs(checkpoint, now));
      var uptime := AddSaturating(db.uptime, ElapsedMs(checkpoint, now));
      CheckpointStep(db, uptime);
      db := db.(uptime := uptime);
      checkpoint := NextCheckpoint(checkpoint, now);
      r := Ok(uptime);
    }

    /** Creating a snapshot: replay a known request, or prune, plan and store in one step and start the lease. */
    method CreateSnapshotRequest(c: Create, now: int) returns (r: Result<SnapshotId>)
      requires Valid() && c.owner in db.devices
      modifies this
      ensures Valid() && booted == old(booted) && ledger == old(ledger) && checkpoint == old(checkpoint)
      ensures ReplaysSome(old(db).snapshots, c) ==> db == old(db) && deadlines == old(deadlines) && CreateReplays(old(db).snapshots, c, r)
      ensures !ReplaysSome(old(db).snapshots, c) && !booted ==> r == Err(InternalError) && deadlines == old(deadlines)
      ensures !ReplaysSome(old(db).snapshots, c) && booted ==> CreateAnswers(PruneSnapshots(old(db), Running(old(deadlines), now)), c, r)
      ensures r.Err? ==> db == old(db) && (deadlines == old(deadlines) || deadlines == OnlyRunning(old(deadlines), now))
      ensures IsCreated(r) && !ReplaysSome(old(db).snapshots, c) ==>
                && Step(old(db), CreateEvent(Running(old(deadlines), now), c), db)
                && deadlines == OnlyRunning(old(deadlines), now)[c.id := now + SNAPSHOT_LIFETIME]
      ensures LeasesKept(old(deadlines), old(db).snapshots, deadlines, db.snapshots, now)
    {
      hide RunInv, LedgerInv, CreateAnswers, Step, Running, OnlyRunning, LeasesKept, PruneSnapshots;
      NothingTouched(deadlines, db.snapshots, now);
      RunningLeases(deadlines, now);
      if s :| s in db.snapshots && Replays(db.snapshots[s], c) {
        if db.snapshots[s].fingerprint != c.fingerprint {
          return Err(RequestIdReused);
        }
        return Ok(s);
      }
      if !booted {
        return Err(InternalError);
      }
      var created := CommitCreate(db, deadlines, c, now);
      deadlines := OnlyRunning(deadlines, now);
      if created.Err? {
        return Err(created.error);
      }
      db := created.value;
      deadlines := deadlines[c.id := now + SNAPSHOT_LIFETIME];
      r := Ok(c.id);
    }

    /** Reading a page changes nothing; its answer is told by the snapshot and its lease alone. */
    method SnapshotPageRequest(caller: DeviceId, s: SnapshotId, token: nat, sizes: Sizes, now: int) returns (r: Result<PageBody>)
      requires Valid()
      ensures r == PageAnswer(db.snapshots, caller, s, s in Running(deadlines, now), token, sizes)
      ensures s !in db.snapshots || db.snapshots[s].owner != caller ==> r == Err(SnapshotNotFound)
      ensures s in db.snapshots && db.snapshots[s].owner == caller && !(s in deadlines && now < deadlines[s]) ==> r == Err(SnapshotExpired)
      ensures s in deadlines && now < deadlines[s] && s in db.snapshots && db.snapshots[s].owner == caller && token !in db.snapshots[s].pages ==>
                r == Err(InvalidRequest)
      ensures s in deadlines && now < deadlines[s] && Servable(db.snapshots, s, caller, token, sizes) ==> r.Ok?
    {
      hide StoreInv, LedgerInv, ObjectsInv, HeadsInv, LogInv, RowLogInv, SnapshotsInv, EnvelopeInv, Readable, ServedBytes;
      ObjectsPart(db);
      r := ReadPage(db, caller, s, s in Running(deadlines, now), token, sizes);
    }

    method EnrollRequest(device: DeviceId, tokenTaken: bool) returns (r: Result<()>)
      requires Valid()
      modifies this
      ensures Valid() && booted == old(booted) && ledger == old(ledger) && checkpoint == old(checkpoint) && deadlines == old(deadlines)
      ensures r.Err? ==> db == old(db) && Enroll(old(db), device, tokenTaken) == Err(r.error)
      ensures r == Ok(()) ==> Step(old(db), EnrollEvent(device), db) && Enroll(old(db), device, tokenTaken) == Ok(db)
      ensures db.snapshots == old(db).snapshots
    {
      hide RunInv, LedgerInv, Evolves;
      var enrolled := Enroll(db, device, tokenTaken);
      if enrolled.Err? {
        return Err(enrolled.error);
      }
      EnrollStep(db, device, enrolled.value);
      EnrollKeepsSnapshots(db, device);
      db := enrolled.value;
      r := Ok(());
    }

    /** The envelope's compare-and-set: replay, or one step with its receipt. */
    method PutEnvelopeRequest(device: DeviceId, request: nat, fingerprint: nat, expected: nat, proposed: nat, wellFormed: bool, body: nat, now: int)
      returns (r: Result<Reply>)
      requires Valid() && device in db.devices
      modifies this
      ensures Valid() && booted == old(booted) && deadlines == old(deadlines) && db.snapshots == old(db).snapshots
      ensures !IsFresh(r) ==> db == old(db) && ledger == old(ledger) && checkpoint == old(checkpoint)
      ensures KeyTaken(old(ledger), device, EnvelopeOperation, request) ==>
                Answers(old(ledger), device, EnvelopeOperation, request, fingerprint, AsLookup(r))
      ensures !KeyTaken(old(ledger), device, EnvelopeOperation, request) ==>
                r == ReplyTo(PutEnvelope(UptimeCounted(old(db), old(checkpoint), now), expected, proposed, wellFormed), booted, body)
      ensures IsFresh(r) ==>
                && PutEnvelope(UptimeCounted(old(db), old(checkpoint), now), expected, proposed, wellFormed) == Ok(db)
                && Step(old(db), EnvelopeEvent(expected, proposed, db.uptime), db)
                && checkpoint == NextCheckpoint(old(checkpoint), now)
                && ledger == WithReceipt(old(ledger), Receipt(device, EnvelopeOperation, request, fingerprint, body, db.uptime))
    {
      hide RunInv, LedgerInv, Answers, KeyTaken, KeyFree, Evolves, WithReceipt, AddSaturating, ElapsedMs, NextCheckpoint;
      var known := LookupReceipt(ledger, device, EnvelopeOperation, request, fingerprint);
      if known.Err? {
        ErrorsAreKnown(ledger, device, EnvelopeOperation, request, fingerprint, known);
        return Err(known.error);
      }
      if known.value.Some? {
        ErrorsAreKnown(ledger, device, EnvelopeOperation, request, fingerprint, known);
        return Ok(Replayed(known.value.value));
      }
      NothingKnown(ledger, device, EnvelopeOperation, request, fingerprint);
      UptimeBound(db);
      UptimeGrows(db, ElapsedMs(checkpoint, now));
      var counted := UptimeCounted(db, checkpoint, now);
      CheckpointStep(db, counted.uptime);
      var put := PutEnvelope(counted, expected, proposed, wellFormed);
      if put.Err? {
        return Err(put.error);
      }
      if !booted {
        return Err(InternalError);
      }
      EnvelopeStep(counted, expected, proposed, put.value);
      EnvelopeKeepsSnapshots(counted, expected, proposed);
      var l := AppendReceipt(ledger, Receipt(device, EnvelopeOperation, request, fingerprint, body, counted.uptime));
      db, ledger, checkpoint := put.value, l, NextCheckpoint(checkpoint, now);
      r := Ok(Fresh(body));
    }

    /** Revocation: replay, answer again for a device already revoked, or one step with its receipt. */
    method RevokeRequest(device: DeviceId, request: nat, fingerprint: nat, target: DeviceId, allowZeroActive: bool, body: nat, now: int)
      returns (r: Result<Reply>)
      requires Valid() && device in db.devices
      modifies this
      ensures Valid() && booted == old(booted) && deadlines == old(deadlines) && db.snapshots == old(db).snapshots
      ensures !IsFresh(r) ==> db == old(db) && ledger == old(ledger) && checkpoint == old(checkpoint)
      ensures KeyTaken(old(ledger), device, RevocationOperation(target), request) ==>
                Answers(old(ledger), device, RevocationOperation(target), request, fingerprint, AsLookup(r))
      ensures !KeyTaken(old(ledger), device, RevocationOperation(target), request) ==>
                r == if ReusedAcrossTargets(old(ledger), device, request, target) then Err(RequestIdReused)
                     else ReplyTo(Revoke(UptimeCounted(old(db), old(checkpoint), now), target, allowZeroActive), booted, body)
      ensures !KeyTaken(old(ledger), device, RevocationOperation(target), request) && RevokedUnder(old(ledger), device, request) ==>
                r == Err(RequestIdReused)
      ensures IsFresh(r) ==>
                && Revoke(UptimeCounted(old(db), old(checkpoint), now), target, allowZeroActive) == Ok(db)
                && Step(old(db), RevokeEvent(target, allowZeroActive, db.uptime), db)
                && checkpoint == NextCheckpoint(old(checkpoint), now)
                && ledger == WithReceipt(old(ledger), Receipt(device, RevocationOperation(target), request, fingerprint, body, db.uptime))
    {
      hide RunInv, LedgerInv, Answers, KeyTaken, KeyFree, Evolves, WithReceipt, AddSaturating, ElapsedMs, NextCheckpoint, Active, WithDevice,
           ReusedAcrossTargets, RevokedUnder;
      var known := LookupReceipt(ledger, device, RevocationOperation(target), request, fingerprint);
      if known.Err? {
        ErrorsAreKnown(ledger, device, RevocationOperation(target), request, fingerprint, known);
        return Err(known.error);
      }
      if known.value.Some? {
        ErrorsAreKnown(ledger, device, RevocationOperation(target), request, fingerprint, known);
        return Ok(Replayed(known.value.value));
      }
      NothingKnown(ledger, device, RevocationOperation(target), request, fingerprint);
      OtherRevocations(ledger, device, request, target);
      if ReusedAcrossTargets(ledger, device, request, target) {
        return Err(RequestIdReused);
      }
      UptimeBound(db);
      UptimeGrows(db, ElapsedMs(checkpoint, now));
      var counted := UptimeCounted(db, checkpoint, now);
      CheckpointStep(db, counted.uptime);
      var revoked := Revoke(counted, target, allowZeroActive);
      if revoked.Err? {
        return Err(revoked.error);
      }
      if !booted {
        return Err(InternalError);
      }
      RevokeStep(counted, target, allowZeroActive, revoked.value);
      RevokeKeepsSnapshots(counted, target, allowZeroActive);
      RevokeUptime(counted, target, allowZeroActive);
      var l := AppendReceipt(ledger, Receipt(device, RevocationOperation(target), request, fingerprint, body, counted.uptime));
      db, ledger, checkpoint := revoked.value, l, NextCheckpoint(checkpoint, now);
      r := Ok(Fresh(body));
    }
  }
}
