/**
 Every run of the store: any sequence of committed transactions from the empty
 database.  An aborted transaction leaves no trace and so is no step.
 */
module StoreRuns {
  import opened Outcomes
  import opened Uint64
  import opened Vectors
  import opened Ordering
  import opened StoreTables
  import opened Collection
  import opened CollectionProofs
  import opened Admission
  import opened SnapshotPlan
  import opened Snapshots
  import opened SnapshotCode
  import opened Registry
  import opened Sync

  datatype Event =
    | Boot
    | Checkpoint(uptime: nat)
    | SyncEvent(q: Request, delta: Delta)
    | CreateEvent(live: set<SnapshotId>, c: Create)
    | EnrollEvent(device: DeviceId)
    | RevokeEvent(target: DeviceId, allowZeroActive: bool, uptime: nat)
    | EnvelopeEvent(expected: nat, proposed: nat, uptime: nat)

  /** Accumulated uptime as a committed checkpoint may set it. */
  predicate UptimeMayBe(t: Tables, uptime: nat) {
    t.uptime <= uptime <= MAX_UINT64
  }

  /** One committed transaction. */
  ghost predicate Step(a: Tables, e: Event, b: Tables) {
    match e
    case Boot => b == DropSnapshots(a, a.snapshots.Keys)
    case Checkpoint(uptime) => UptimeMayBe(a, uptime) && b == a.(uptime := uptime)
    case SyncEvent(q, delta) =>
      q.device in a.devices && UptimeMayBe(a, q.uptime) && SyncAnswers(a, q, Ok(Synced(b, delta)))
    case CreateEvent(live, c) =>
      var p := PruneSnapshots(a, live);
      CanCreate(p, c) && b == Created(p, c)
    case EnrollEvent(device) => Enroll(a, device, false) == Ok(b)
    case RevokeEvent(target, allowZeroActive, uptime) =>
      UptimeMayBe(a, uptime) && Revoke(a.(uptime := uptime), target, allowZeroActive) == Ok(b)
    case EnvelopeEvent(expected, proposed, uptime) =>
      UptimeMayBe(a, uptime) && PutEnvelope(a.(uptime := uptime), expected, proposed, true) == Ok(b)
  }

  ghost predicate IsRun(states: seq<Tables>, events: seq<Event>) {
    && |states| == |events| + 1 && states[0] == EMPTY
    && forall i | 0 <= i < |events| :: Step(states[i], events[i], states[i + 1])
  }

  // ----- One step ---------------------------------------------------------------------------

  lemma EmptyLog()
    ensures LogInv(0, 0, map[], map[]) && RowLogInv(0, map[], map[], map[])
  {
  }

  lemma EmptyObjects()
    ensures ObjectsInv(map[], map[], map[]) && QueueInv(0, 0, map[], {}, map[]) && RegistryInv(0, map[], map[]) && AuthorsInv(map[])
  {
  }

  lemma EmptyHeads()
    ensures HeadsInv(map[], {}) && DistinctVectors(map[]) && CoverageInv(map[], {}, map[]) && MarkersInv(map[], {}, map[])
  {
  }

  lemma EmptyRest()
    ensures EnvelopeInv(0, None, map[]) && SnapshotsInv(map[])
  {
    hide Readable;
  }

  lemma EmptySiblings()
    ensures SiblingsInv(map[], {})
  {
    forall record
      ensures |HeadsOf(map[], {}, record)| <= MAX_SIBLINGS
    {
      assert HeadsOf(map[], {}, record) == {};
    }
  }

  lemma EmptyHolds()
    ensures RunInv(EMPTY)
  {
    hide LogInv, RowLogInv, ObjectsInv, HeadsInv, SiblingsInv, DistinctVectors, CoverageInv, MarkersInv, QueueInv, RegistryInv, AuthorsInv,
         SnapshotsInv, EnvelopeInv;
    EmptyLog();
    EmptyObjects();
    EmptyHeads();
    EmptyRest();
    EmptySiblings();
  }

  lemma CreateStep(a: Tables, live: set<SnapshotId>, c: Create)
    requires RunInv(a) && CanCreate(PruneSnapshots(a, live), c)
    ensures var b := Created(PruneSnapshots(a, live), c); RunInv(b) && Evolves(a, b)
  {
    hide RunInv, StoreInv, Evolves, SnapshotsInv, HeadsInv, EnvelopeInv, DropSnapshots, NewSnapshot, Accepted, ObjectsInv, LogInv, RowLogInv;
    var p := PruneSnapshots(a, live);
    PruneKeepsRunInv(a, live);
    RunInvParts(p);
    ObjectsPart(p);
    CreateKeepsInv(p, c);
    CreateKeepsSnapshots(p, c);
    EvolvesTransitive(a, p, Created(p, c));
    CreateKeepsRest(p, c);
  }

  lemma CreateKeepsRest(p: Tables, c: Create)
    requires RunInv(p) && c.owner in p.devices && StoreInv(Created(p, c)) && SnapshotsInv(Created(p, c).snapshots)
    ensures RunInv(Created(p, c))
  {
    hide StoreInv, SnapshotsInv, EnvelopeInv, NewSnapshot;
    var b := Created(p, c);
    assert b.devices.Keys == p.devices.Keys;
    assert |b.devices| == |b.devices.Keys| && |p.devices| == |p.devices.Keys|;
  }

  lemma EnrollStep(a: Tables, device: DeviceId, b: Tables)
    requires RunInv(a) && Enroll(a, device, false) == Ok(b)
    ensures RunInv(b) && Evolves(a, b)
  {
    hide StoreInv, SnapshotsInv, EnvelopeInv, Evolves, NoEnvelopeLogged;
    EnrollKeepsInv(a, device, false);
    QuietKeepsEnvelope(a.envelopeGeneration, a.envelope, a.origins, b.origins);
  }

  lemma CheckpointStep(a: Tables, uptime: nat)
    requires RunInv(a) && UptimeMayBe(a, uptime)
    ensures RunInv(a.(uptime := uptime)) && Evolves(a, a.(uptime := uptime))
  {
    hide StoreInv, SnapshotsInv, EnvelopeInv, Evolves, Quiet;
    UptimeKeepsInv(a, uptime);
    QuietKeepsRunInv(a, a.(uptime := uptime));
  }

  lemma RevokeIsQuiet(a: Tables, target: DeviceId, allowZeroActive: bool)
    requires Revoke(a, target, allowZeroActive).Ok? && NoEnvelopeLogged(a.origins, Revoke(a, target, allowZeroActive).value.origins)
    ensures Quiet(a, Revoke(a, target, allowZeroActive).value)
  {
    hide Active, NoEnvelopeLogged, WithDevice;
    WithDeviceFields(a, target, a.devices[target].(revoked := true), false);
    WithDeviceSnapshots(a, target, a.devices[target].(revoked := true), false);
  }

  lemma WithDeviceSnapshots(a: Tables, d: DeviceId, device: Device, enrolled: bool)
    ensures WithDevice(a, d, device, enrolled).snapshots == a.snapshots
  {
  }

  lemma RevokeStep(a: Tables, target: DeviceId, allowZeroActive: bool, b: Tables)
    requires RunInv(a) && Revoke(a, target, allowZeroActive) == Ok(b)
    ensures RunInv(b) && Evolves(a, b)
  {
    hide StoreInv, SnapshotsInv, EnvelopeInv, Evolves, NoEnvelopeLogged, Active;
    RevokeKeepsInv(a, target, allowZeroActive);
    RevokeIsQuiet(a, target, allowZeroActive);
    hide Revoke, Quiet;
    QuietKeepsRunInv(a, b);
  }

  lemma EnvelopeStep(a: Tables, expected: nat, proposed: nat, b: Tables)
    requires RunInv(a) && PutEnvelope(a, expected, proposed, true) == Ok(b)
    ensures RunInv(b) && Evolves(a, b)
  {
    hide StoreInv, SnapshotsInv, EnvelopeInv, Evolves;
    PutEnvelopeKeepsInv(a, expected, proposed, true);
  }

  lemma BootStep(a: Tables)
    requires RunInv(a)
    ensures var b := DropSnapshots(a, a.snapshots.Keys); RunInv(b) && Evolves(a, b) && b.snapshots == map[]
  {
    hide RunInv, Evolves;
    PruneKeepsRunInv(a, {});
    assert a.snapshots.Keys - {} == a.snapshots.Keys;
  }

  /** Every transaction keeps the joint invariant and undoes nothing. */
  lemma StepKeepsInv(a: Tables, e: Event, b: Tables)
    requires RunInv(a) && Step(a, e, b)
    ensures RunInv(b) && Evolves(a, b)
  {
    hide RunInv, Evolves, DropSnapshots, SyncAnswers, CanCreate, Created, Enroll, Revoke, PutEnvelope;
    match e
    case Boot => BootStep(a);
    case Checkpoint(uptime) => CheckpointStep(a, uptime);
    case SyncEvent(q, delta) => SyncKeepsInv(a, q, Ok(Synced(b, delta)));
    case CreateEvent(live, c) => CreateStep(a, live, c);
    case EnrollEvent(device) => EnrollStep(a, device, b);
    case RevokeEvent(target, allowZeroActive, uptime) =>
      CheckpointStep(a, uptime);
      RevokeStep(a.(uptime := uptime), target, allowZeroActive, b);
      EvolvesTransitive(a, a.(uptime := uptime), b);
    case EnvelopeEvent(expected, proposed, uptime) =>
      CheckpointStep(a, uptime);
      EnvelopeStep(a.(uptime := uptime), expected, proposed, b);
      EvolvesTransitive(a, a.(uptime := uptime), b);
  }

  // ----- Safety over whole runs ---------------------------------------------------------------

  /** The joint invariant holds in every reachable state. */
  lemma {:induction false} RunsAreSafe(states: seq<Tables>, events: seq<Event>, k: nat)
    requires IsRun(states, events) && k < |states|
    ensures RunInv(states[k])
  {
    hide RunInv, Step;
    if k == 0 {
      EmptyHolds();
    } else {
      RunsAreSafe(states, events, k - 1);
      assert Step(states[k - 1], events[k - 1], states[k]);
      StepKeepsInv(states[k - 1], events[k - 1], states[k]);
    }
  }

  /** Between any two states of a run nothing is undone. */
  lemma {:induction false} RunsOnlyEvolve(states: seq<Tables>, events: seq<Event>, i: nat, k: nat)
    requires IsRun(states, events) && i <= k < |states|
    ensures Evolves(states[i], states[k])
    decreases k - i
  {
    hide RunInv, Step, Evolves;
    if i == k {
      EvolvesReflexive(states[i]);
    } else {
      RunsOnlyEvolve(states, events, i, k - 1);
      RunsAreSafe(states, events, k - 1);
      assert Step(states[k - 1], events[k - 1], states[k]);
      StepKeepsInv(states[k - 1], events[k - 1], states[k]);
      EvolvesTransitive(states[i], states[k - 1], states[k]);
    }
  }

  /** No stale upload ever brings collected state back. */
  lemma RunsNeverResurrect(states: seq<Tables>, events: seq<Event>, i: nat, k: nat, collected: RevisionId, later: RevisionId)
    requires IsRun(states, events) && i <= k < |states|
    requires collected in states[i].revisions && !Retained(states[i].revisions[collected])
    requires later in states[k].revisions && later !in states[i].revisions
    requires RecordOf(states[k].revisions, later) == RecordOf(states[i].revisions, collected)
    ensures Dominates(VectorOf(states[k].revisions, later), VectorOf(states[i].revisions, collected))
    ensures collected in states[k].revisions && !Retained(states[k].revisions[collected])
  {
    hide IsRun, Evolves;
    RunsAreSafe(states, events, i);
    RunsOnlyEvolve(states, events, i, k);
    MarkersPart(states[i]);
    hide RunInv;
    NoResurrection(states[i], states[k], collected, later);
  }

  lemma MarkersPart(t: Tables)
    requires RunInv(t)
    ensures MarkersInv(t.revisions, t.heads, t.markers)
  {
    hide LogInv, RowLogInv, ObjectsInv, HeadsInv, SiblingsInv, DistinctVectors, CoverageInv, MarkersInv, QueueInv, RegistryInv, AuthorsInv,
         SnapshotsInv, EnvelopeInv;
  }

  // ----- Nothing is collected too early ---------------------------------------------------------

  /**
   Ninety days of accumulated uptime since acceptance, and every active device acknowledged a
   barrier at or after every revision of the record: each has seen what superseded these bytes.
   */
  ghost predicate Ripe(t: Tables, r: RevisionId, barrier: Cursor) {
    && r in t.revisions
    && t.revisions[r].accepted + MINIMUM_RETENTION_MS <= t.uptime
    && (forall q | q in t.revisions && RecordOf(t.revisions, q) == RecordOf(t.revisions, r) :: t.revisions[q].cursor <= barrier)
    && Acknowledged(t.devices, barrier)
  }

  lemma {:induction false} AdmitKeepsRows(t: Tables, device: DeviceId, batch: seq<Revision>)
    requires device in t.devices && (forall i | 0 <= i < |batch| :: batch[i].metadata.author == device) && AdmitAll(t, device, batch).Ok?
    ensures var u := AdmitAll(t, device, batch).value;
            && u.uptime == t.uptime
            && (forall r | r in t.revisions :: r in u.revisions && u.revisions[r] == t.revisions[r])
            && (forall r | r in u.revisions && r !in t.revisions :: Retained(u.revisions[r]))
    decreases |batch|
  {
    hide Refusal;
    if batch != [] {
      AdmitKeepsRows(AdmitNext(t, batch[0]).value, device, batch[1..]);
    }
  }

  lemma RaiseKeepsAcks(devices: map<DeviceId, Device>, d: DeviceId, cursor: Cursor, c: Cursor)
    requires d in devices && Acknowledged(devices, c)
    ensures Acknowledged(RaiseReturned(devices, d, cursor), c)
  {
  }

  lemma BarrierIsLast(t: Tables, r: RevisionId)
    requires QueueInv(t.cursor, t.uptime, t.revisions, t.candidates, t.barriers) && Eligible(t, r)
    ensures Ripe(t, r, t.barriers[RecordOf(t.revisions, r)])
  {
  }

  lemma RipeFrame(t: Tables, u: Tables, r: RevisionId, barrier: Cursor)
    requires Ripe(t, r, barrier) && TookOnlyEligible(t, u)
    ensures Ripe(u, r, barrier)
  {
  }

  lemma QueuePart(t: Tables)
    requires StoreInv(t)
    ensures QueueInv(t.cursor, t.uptime, t.revisions, t.candidates, t.barriers)
  {
    hide LogInv, RowLogInv, ObjectsInv, HeadsInv, SiblingsInv, DistinctVectors, CoverageInv, MarkersInv, QueueInv, RegistryInv, AuthorsInv;
  }

  lemma TookIsEligible(d: Tables, e: Tables, r: RevisionId)
    requires TookOnlyEligible(d, e) && r in e.revisions && !Retained(e.revisions[r]) && (r in d.revisions ==> Retained(d.revisions[r]))
    ensures Eligible(d, r)
  {
  }

  /** The barrier is the one recorded in the queue when the pass starts. */
  lemma AdvancedCollectsRipe(t: Tables, q: Request, r: RevisionId) returns (barrier: Cursor)
    requires RunInv(t) && q.device in t.devices && UptimeMayBe(t, q.uptime) && Advanced(t, q).Ok?
    requires r in t.revisions ==> Retained(t.revisions[r])
    requires r in Advanced(t, q).value.revisions && !Retained(Advanced(t, q).value.revisions[r])
    ensures Ripe(Advanced(t, q).value, r, barrier)
  {
    hide RunInv, StoreInv, Evolves, CollectEligible, AdmitAll, ShapesValid, LogInv, ObjectsInv, HeadsInv, QueueInv, Ripe, TookOnlyEligible, Eligible;
    ShapesParts(q);
    SyncSteps(t, q);
    var a := t.(uptime := q.uptime);
    AdmitKeepsRows(a, q.device, q.mutations);
    var b := AdmitWithinCursors(a, q.device, q.mutations).value;
    var d := PruneSnapshots(Acknowledge(b, q.device, q.ack), q.live);
    CollectEligibleSafe(d);
    QueuePart(d);
    TookIsEligible(d, CollectEligible(d), r);
    EligibleIsQueued(d, r);
    BarrierIsLast(d, r);
    barrier := d.barriers[RecordOf(d.revisions, r)];
    RipeFrame(d, CollectEligible(d), r, barrier);
  }

  lemma EligibleIsQueued(t: Tables, r: RevisionId)
    requires Eligible(t, r)
    ensures r in t.revisions && RecordOf(t.revisions, r) in t.barriers
  {
  }

  lemma RaiseKeepsRipe(t: Tables, u: Tables, d: DeviceId, cursor: Cursor, r: RevisionId, barrier: Cursor)
    requires Ripe(t, r, barrier) && d in t.devices && u == t.(devices := RaiseReturned(t.devices, d, cursor))
    ensures Ripe(u, r, barrier)
  {
    RaiseKeepsAcks(t.devices, d, cursor, barrier);
    hide Acknowledged;
  }

  /** A step that drops a revision's bytes is a sync, and the revision was ripe. */
  lemma StepCollectsRipe(a: Tables, e: Event, b: Tables, r: RevisionId) returns (barrier: Cursor)
    requires RunInv(a) && Step(a, e, b) && (r in a.revisions ==> Retained(a.revisions[r]))
    requires r in b.revisions && !Retained(b.revisions[r])
    ensures e.SyncEvent? && Ripe(b, r, barrier)
  {
    hide RunInv, Evolves, CanCreate, Advanced, Ripe;
    barrier := 0;
    match e
    case SyncEvent(q, delta) =>
      barrier := AdvancedCollectsRipe(a, q, r);
      RaiseKeepsRipe(Advanced(a, q).value, b, q.device, delta.next, r, barrier);
    case _ =>
  }

  /**
   In every run, bytes that are gone were ripe when they went: at the step after which they were
   gone, every active device had acknowledged all the record's revisions there were.
   */
  lemma {:induction false} RunsCollectOnlyRipe(states: seq<Tables>, events: seq<Event>, k: nat, r: RevisionId) returns (i: nat, barrier: Cursor)
    requires IsRun(states, events) && k < |states| && r in states[k].revisions && !Retained(states[k].revisions[r])
    ensures 0 < i <= k && events[i - 1].SyncEvent? && Ripe(states[i], r, barrier)
    ensures states[i].revisions[r] == states[k].revisions[r] && (r in states[i - 1].revisions ==> Retained(states[i - 1].revisions[r]))
  {
    hide RunInv, Step, Evolves, Ripe;
    RunsAreSafe(states, events, k);
    assert k > 0;
    RunsAreSafe(states, events, k - 1);
    assert Step(states[k - 1], events[k - 1], states[k]);
    StepKeepsInv(states[k - 1], events[k - 1], states[k]);
    if r in states[k - 1].revisions && !Retained(states[k - 1].revisions[r]) {
      RowsStep(states[k - 1], states[k], r);
      i, barrier := RunsCollectOnlyRipe(states, events, k - 1, r);
    } else {
      i := k;
      barrier := StepCollectsRipe(states[k - 1], events[k - 1], states[k], r);
    }
  }

  lemma RowsStep(a: Tables, b: Tables, r: RevisionId)
    requires Evolves(a, b) && r in a.revisions && !Retained(a.revisions[r])
    ensures r in b.revisions && b.revisions[r] == a.revisions[r]
  {
  }

  // ----- Repeatable reads ---------------------------------------------------------------------------

  predicate Creates(e: Event, s: SnapshotId) {
    e.CreateEvent? && e.c.id == s
  }

  /** Pruning leaves the cut itself alone. */
  lemma PrunedCut(a: Tables, live: set<SnapshotId>, snapshot: Snapshot)
    requires HoldsCut(PruneSnapshots(a, live), snapshot)
    ensures HoldsCut(a, snapshot)
  {
    hide AllRevisions, AllMarkers, AllDevices, PagesOf;
    PruneFrame(a, live);
    var p := PruneSnapshots(a, live);
    assert HeadListing(p) == HeadListing(a) && MarkerListing(p) == MarkerListing(a) && DeviceListing(p) == DeviceListing(a);
  }

  lemma SyncKeepsSnapshots(a: Tables, q: Request, b: Tables, delta: Delta, s: SnapshotId)
    requires RunInv(a) && q.device in a.devices && UptimeMayBe(a, q.uptime) && SyncAnswers(a, q, Ok(Synced(b, delta))) && s in b.snapshots
    ensures s in a.snapshots && b.snapshots[s] == a.snapshots[s]
  {
    hide RunInv, StoreInv, Evolves, CollectEligible, AdmitAll, ShapesValid, LogInv, ObjectsInv, HeadsInv;
    ShapesParts(q);
    SyncSteps(a, q);
    RunInvParts(a);
    var u := a.(uptime := q.uptime);
    UptimeKeepsInv(a, q.uptime);
    AdmitAllQuiet(u, q.device, q.mutations);
    var admitted := AdmitWithinCursors(u, q.device, q.mutations).value;
    CollectEligibleQuiet(PruneSnapshots(Acknowledge(admitted, q.device, q.ack), q.live));
  }

  /** A step leaves a snapshot alone, drops it, or creates it as the cut of the state before. */
  lemma StepSnapshots(a: Tables, e: Event, b: Tables, s: SnapshotId)
    requires RunInv(a) && Step(a, e, b) && s in b.snapshots
    ensures Creates(e, s) ==> HoldsCut(a, b.snapshots[s])
    ensures !Creates(e, s) ==> s in a.snapshots && b.snapshots[s] == a.snapshots[s]
  {
    hide RunInv, SyncAnswers, HoldsCut, CanCreate, Created, DropSnapshots, Enroll, Revoke, PutEnvelope;
    match e
    case Boot => BootStep(a);
    case Checkpoint(_) =>
    case SyncEvent(q, delta) => SyncKeepsSnapshots(a, q, b, delta, s);
    case CreateEvent(live, c) => CreateSnapshotsStep(a, live, c, s);
    case EnrollEvent(device) => EnrollKeepsSnapshots(a, device);
    case RevokeEvent(target, allowZeroActive, uptime) => RevokeKeepsSnapshots(a.(uptime := uptime), target, allowZeroActive);
    case EnvelopeEvent(expected, proposed, uptime) => EnvelopeKeepsSnapshots(a.(uptime := uptime), expected, proposed);
  }

  lemma CreateSnapshotsStep(a: Tables, live: set<SnapshotId>, c: Create, s: SnapshotId)
    requires CanCreate(PruneSnapshots(a, live), c) && s in Created(PruneSnapshots(a, live), c).snapshots
    ensures c.id == s ==> HoldsCut(a, Created(PruneSnapshots(a, live), c).snapshots[s])
    ensures c.id != s ==> s in a.snapshots && Created(PruneSnapshots(a, live), c).snapshots[s] == a.snapshots[s]
  {
    hide HoldsCut, NewSnapshot, Accepted;
    if c.id == s {
      CreatedHoldsCut(PruneSnapshots(a, live), c);
      PrunedCut(a, live, NewSnapshot(PruneSnapshots(a, live), c));
    }
  }

  lemma EnrollKeepsSnapshots(a: Tables, device: DeviceId)
    ensures Enroll(a, device, false).Ok? ==> Enroll(a, device, false).value.snapshots == a.snapshots
  {
  }

  lemma RevokeKeepsSnapshots(a: Tables, target: DeviceId, allowZeroActive: bool)
    ensures Revoke(a, target, allowZeroActive).Ok? ==> Revoke(a, target, allowZeroActive).value.snapshots == a.snapshots
  {
    hide Active;
  }

  lemma EnvelopeKeepsSnapshots(a: Tables, expected: nat, proposed: nat)
    ensures PutEnvelope(a, expected, proposed, true).Ok? ==> PutEnvelope(a, expected, proposed, true).value.snapshots == a.snapshots
  {
  }

  /** Every reference of a stored snapshot reads as the revision it pinned. */
  ghost predicate ReadsAsPinned(t: Tables, snapshot: Snapshot) {
    forall r | r in snapshot.references ::
      snapshot.references[r] in t.objects && t.objects[snapshot.references[r]] == snapshot.references[r].of
  }

  lemma SnapshotReadsAsPinned(t: Tables, s: SnapshotId)
    requires RunInv(t) && s in t.snapshots
    ensures ReadsAsPinned(t, t.snapshots[s])
  {
    RunInvParts(t);
    ObjectsPart(t);
    hide RunInv, StoreInv, SnapshotsInv, ObjectsInv;
    forall r | r in t.snapshots[s].references
      ensures t.snapshots[s].references[r] in t.objects && t.objects[t.snapshots[s].references[r]] == t.snapshots[s].references[r].of
    {
      ReferenceStored(t, s, r);
    }
  }

  /**
   Repeatable reads.  A snapshot present in a reachable state was created from some earlier state
   whose heads, markers and devices its pages list, and from then on neither its pages nor the
   revisions they resolve to have changed, whatever was collected, revoked or dropped in between.
   */
  lemma {:induction false} SnapshotsAreRepeatable(states: seq<Tables>, events: seq<Event>, k: nat, s: SnapshotId) returns (i: nat)
    requires IsRun(states, events) && k < |states| && s in states[k].snapshots
    ensures i < k && Creates(events[i], s) && HoldsCut(states[i], states[k].snapshots[s])
    ensures forall m | i < m <= k ::
              && s in states[m].snapshots && states[m].snapshots[s] == states[k].snapshots[s]
              && ReadsAsPinned(states[m], states[k].snapshots[s])
  {
    hide RunInv, Step, HoldsCut, ReadsAsPinned;
    RunsAreSafe(states, events, k);
    SnapshotReadsAsPinned(states[k], s);
    assert k > 0;
    assert Step(states[k - 1], events[k - 1], states[k]);
    RunsAreSafe(states, events, k - 1);
    StepSnapshots(states[k - 1], events[k - 1], states[k], s);
    if Creates(events[k - 1], s) {
      i := k - 1;
    } else {
      i := SnapshotsAreRepeatable(states, events, k - 1, s);
    }
  }

  // ----- A cut is closed ------------------------------------------------------------------------------

  /** Every counter a vector names is covered by the device list beside it. */
  ghost predicate CoveredBy(vector: Vector, devices: seq<SourceDevice>) {
    forall d | d in vector :: exists i | 0 <= i < |devices| :: devices[i].device == d && vector[d] <= devices[i].maxCounter
  }

  lemma ListingCovers(t: Tables, vector: Vector)
    requires forall d | d in vector :: d in t.devices && vector[d] <= t.devices[d].maxCounter
    ensures CoveredBy(vector, DeviceListing(t))
  {
    var listing := Listing(IdKeys(t.devices.Keys));
    IdListing(t.devices.Keys);
    forall d | d in vector
      ensures exists i | 0 <= i < |DeviceListing(t)| :: DeviceListing(t)[i].device == d && vector[d] <= DeviceListing(t)[i].maxCounter
    {
      var i :| 0 <= i < |listing| && listing[i] == Key(0, d);
      assert DeviceListing(t)[i] == SourceDevice(d, t.devices[d].maxCounter);
    }
  }

  lemma RegisteredCounters(cursor: Cursor, devices: map<DeviceId, Device>, revisions: map<RevisionId, Row>, r: RevisionId)
    requires RegistryInv(cursor, devices, revisions) && r in revisions
    ensures forall d | d in VectorOf(revisions, r) :: d in devices && VectorOf(revisions, r)[d] <= devices[d].maxCounter
  {
    assert Known(devices, VectorOf(revisions, r));
  }

  lemma RowIsCovered(t: Tables, r: RevisionId)
    requires RunInv(t) && r in t.revisions
    ensures CoveredBy(VectorOf(t.revisions, r), DeviceListing(t))
  {
    hide RunInv, StoreInv, SnapshotsInv, RegistryInv, CoveredBy;
    RunInvParts(t);
    StoreParts(t);
    RegisteredCounters(t.cursor, t.devices, t.revisions, r);
    ListingCovers(t, VectorOf(t.revisions, r));
  }

  /** A snapshot never shows a revision or a frontier that its own device list does not account for. */
  lemma CutsAreClosed(states: seq<Tables>, events: seq<Event>, k: nat, s: SnapshotId)
    requires IsRun(states, events) && k < |states| && s in states[k].snapshots
    ensures var snapshot := states[k].snapshots[s];
            && (forall r | r in snapshot.references ::
                  CoveredBy(snapshot.references[r].of.metadata.vector, AllDevices(PagesOf(snapshot))))
            && (forall j | 0 <= j < |AllMarkers(PagesOf(snapshot))| ::
                  CoveredBy(AllMarkers(PagesOf(snapshot))[j].marker.frontier, AllDevices(PagesOf(snapshot))))
  {
    hide RunInv, Step, CoveredBy, AllDevices, AllMarkers, AllRevisions, PagesOf, ReadsAsPinned;
    var snapshot := states[k].snapshots[s];
    var i := SnapshotsAreRepeatable(states, events, k, s);
    var t := states[i];
    RunsAreSafe(states, events, i);
    forall r | r in snapshot.references
      ensures CoveredBy(snapshot.references[r].of.metadata.vector, AllDevices(PagesOf(snapshot)))
    {
      RowIsCovered(t, r);
      HashesMatch(t, r);
    }
    forall j | 0 <= j < |AllMarkers(PagesOf(snapshot))|
      ensures CoveredBy(AllMarkers(PagesOf(snapshot))[j].marker.frontier, AllDevices(PagesOf(snapshot)))
    {
      MarkerIsStored(t, j);
      var w := MarkerListing(t)[j].marker.witnessId;
      RowIsCovered(t, w);
    }
  }

  lemma HashesMatch(t: Tables, r: RevisionId)
    requires RunInv(t) && r in t.revisions
    ensures t.revisions[r].hash.of.metadata == t.revisions[r].metadata
  {
    RunInvParts(t);
    ObjectsPart(t);
    hide RunInv, StoreInv, SnapshotsInv;
  }

  lemma WitnessStored(revisions: map<RevisionId, Row>, heads: set<RevisionId>, markers: map<RecordId, Marker>, record: RecordId)
    requires MarkersInv(revisions, heads, markers) && record in markers
    ensures markers[record].witnessId in revisions && VectorOf(revisions, markers[record].witnessId) == markers[record].frontier
  {
  }

  lemma ListedMarker(t: Tables, j: nat) returns (record: RecordId)
    requires j < |MarkerListing(t)|
    ensures record in t.markers && MarkerListing(t)[j] == RecordMarker(record, t.markers[record])
  {
    hide Listing;
    IdListing(t.markers.Keys);
    record := Listing(IdKeys(t.markers.Keys))[j].minor;
  }

  lemma MarkerIsStored(t: Tables, j: nat)
    requires RunInv(t) && j < |MarkerListing(t)|
    ensures var m := MarkerListing(t)[j].marker;
            m.witnessId in t.revisions && VectorOf(t.revisions, m.witnessId) == m.frontier
  {
    hide RunInv, MarkersInv, MarkerListing;
    MarkersPart(t);
    var record := ListedMarker(t, j);
    WitnessStored(t.revisions, t.heads, t.markers, record);
  }

  // ----- Every page of every snapshot is served ------------------------------------------------------

  /** A frontier names registered devices only, of which there are at most 64. */
  lemma FrontiersAreBounded(t: Tables)
    requires RunInv(t)
    ensures FrontiersBounded(MarkerListing(t))
  {
    hide RunInv, StoreInv, SnapshotsInv, RegistryInv, MarkerListing;
    RunInvParts(t);
    StoreParts(t);
    DevicesBounded(t);
    forall j | 0 <= j < |MarkerListing(t)|
      ensures |MarkerListing(t)[j].marker.frontier| <= MAX_ENTRIES
    {
      MarkerIsStored(t, j);
      var frontier, w := MarkerListing(t)[j].marker.frontier, MarkerListing(t)[j].marker.witnessId;
      RegisteredCounters(t.cursor, t.devices, t.revisions, w);
      SubsetSize(frontier.Keys, t.devices.Keys);
      assert |frontier| == |frontier.Keys| && |t.devices| == |t.devices.Keys|;
    }
  }

  lemma DevicesBounded(t: Tables)
    requires RunInv(t)
    ensures |t.devices| <= MAX_DEVICES
  {
    hide StoreInv, SnapshotsInv, EnvelopeInv;
  }

  lemma CreatedIsServable(t: Tables, c: Create)
    requires RunInv(t) && CanCreate(t, c) && EncodedSizes(c.sizes)
    ensures forall page | page in PagesOf(NewSnapshot(t, c)) :: WithinLimits(c.sizes, page)
  {
    hide RunInv, WithinLimits, EncodedSizes, Accepted, NewSnapshot, HeadListing, MarkerListing, DeviceListing, PlanPages, PagesOf, HoldsCut;
    FrontiersAreBounded(t);
    CreatedHoldsCut(t, c);
    AcceptedIsServable(c.sizes, HeadListing(t), MarkerListing(t), DeviceListing(t), METADATA_LIMIT - MetadataSum(t.snapshots));
    LinkedWithinLimits(c.sizes, PlanOf(t, c), c.token);
  }

  lemma LinkedWithinLimits(sizes: Sizes, plan: seq<Descriptor>, token: nat -> nat)
    requires forall page | page in plan :: WithinLimits(sizes, page)
    ensures forall page | page in Linked(plan, token) :: WithinLimits(sizes, page)
  {
    var linked := Linked(plan, token);
    forall i | 0 <= i < |linked|
      ensures WithinLimits(sizes, linked[i])
    {
      assert WithinLimits(sizes, plan[i]);
      forall next: Option<nat>
        ensures ServedBytes(sizes, linked[i].(next := next)) <= MAX_BODY_BYTES
      {
        assert linked[i].(next := next) == plan[i].(next := next);
      }
    }
  }

  lemma ServedAtMost(sizes: Sizes, page: Descriptor)
    requires WithinLimits(sizes, page)
    ensures ServedBytes(sizes, page) <= MAX_BODY_BYTES
  {
    assert ServedBytes(sizes, page.(next := page.next)) <= MAX_BODY_BYTES;
  }

  /**
   In every reachable store, every stored page of every snapshot is single-phase, within its item
   limits, and served in at most 4 MiB; `i` is the step that created the snapshot.
   */
  lemma SnapshotsAreServable(states: seq<Tables>, events: seq<Event>, k: nat, s: SnapshotId) returns (i: nat)
    requires IsRun(states, events) && k < |states| && s in states[k].snapshots
    ensures i < k && Creates(events[i], s)
    ensures EncodedSizes(events[i].c.sizes) ==>
              forall token | token in states[k].snapshots[s].pages ::
                && WithinLimits(events[i].c.sizes, states[k].snapshots[s].pages[token])
                && ServedBytes(events[i].c.sizes, states[k].snapshots[s].pages[token]) <= MAX_BODY_BYTES
  {
    hide RunInv, WithinLimits, ServedBytes, EncodedSizes, CanCreate, NewSnapshot, HoldsCut, ReadsAsPinned, PruneSnapshots, StoreInv, SnapshotsInv, Readable;
    i := SnapshotsAreRepeatable(states, events, k, s);
    var c := events[i].c;
    var p := PruneSnapshots(states[i], events[i].live);
    assert Step(states[i], events[i], states[i + 1]);
    assert states[k].snapshots[s] == NewSnapshot(p, c);
    RunsAreSafe(states, events, i);
    RunsAreSafe(states, events, k);
    PruneKeepsRunInv(states[i], events[i].live);
    if EncodedSizes(c.sizes) {
      CreatedIsServable(p, c);
      var snapshot := states[k].snapshots[s];
      forall token | token in snapshot.pages
        ensures WithinLimits(c.sizes, snapshot.pages[token]) && ServedBytes(c.sizes, snapshot.pages[token]) <= MAX_BODY_BYTES
      {
        StoredPageIsRead(states[k], s, token);
        ServedAtMost(c.sizes, snapshot.pages[token]);
      }
    }
  }

  lemma StoredPageIsRead(t: Tables, s: SnapshotId, token: nat)
    requires RunInv(t) && s in t.snapshots && token in t.snapshots[s].pages
    ensures t.snapshots[s].pages[token] in PagesOf(t.snapshots[s])
  {
    RunInvParts(t);
    hide RunInv, StoreInv, MetadataSum;
  }
}
