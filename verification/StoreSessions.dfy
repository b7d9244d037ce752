/**
 Sequences of requests between two boots: a snapshot whose lease runs survives
 all of them, and each of its pages is answered the same every time.
 */
module StoreSessions {
  import opened Outcomes
  import opened Vectors
  import opened StoreTables
  import opened SnapshotPlan
  import opened Snapshots
  import opened SnapshotCode
  import opened Sync
  import opened StoreRuns
  import opened Receipts
  import opened StoreClass
  import opened SnapshotReads

  /** One request with the clock reading it is handled at. */
  datatype Call =
    | SyncCall(device: DeviceId, request: nat, fingerprint: nat, after: Cursor, ack: Cursor, mutations: seq<Revision>,
               bytes: (seq<Entry>, bool) -> nat, encode: Delta -> nat, now: int)
    | CreateCall(c: Create, now: int)
    | PageCall(device: DeviceId, s: SnapshotId, token: nat, sizes: Sizes, now: int)
    | EnrollCall(newcomer: DeviceId, tokenTaken: bool, now: int)
    | EnvelopeCall(device: DeviceId, request: nat, fingerprint: nat, expected: nat, proposed: nat, wellFormed: bool, body: nat, now: int)
    | RevokeCall(device: DeviceId, request: nat, fingerprint: nat, target: DeviceId, allowZeroActive: bool, body: nat, now: int)
    | CheckpointCall(now: int)

  /** Handle one request; a caller that is no registered device is turned away. */
  method Handle(store: Store, call: Call)
    requires store.Valid()
    modifies store
    ensures store.Valid() && store.booted == old(store.booted)
    ensures LeasesKept(old(store.deadlines), old(store.db).snapshots, store.deadlines, store.db.snapshots, call.now)
  {
    hide RunInv, LedgerInv, Step, LeasesKept, Answers, KeyTaken, SyncRefuses, CreateAnswers, CreateReplays, ReplaysSome, WithReceipt;
    NothingTouched(store.deadlines, store.db.snapshots, call.now);
    match call
    case SyncCall(device, request, fingerprint, after, ack, mutations, bytes, encode, now) =>
      if device in store.db.devices {
        var r, delta := store.SyncRequest(device, request, fingerprint, after, ack, mutations, bytes, encode, now);
      }
    case CreateCall(c, now) =>
      if c.owner in store.db.devices {
        var r := store.CreateSnapshotRequest(c, now);
      }
    case PageCall(device, s, token, sizes, now) =>
      var r := store.SnapshotPageRequest(device, s, token, sizes, now);
    case EnrollCall(newcomer, tokenTaken, now) =>
      var r := store.EnrollRequest(newcomer, tokenTaken);
    case EnvelopeCall(device, request, fingerprint, expected, proposed, wellFormed, body, now) =>
      if device in store.db.devices {
        var r := store.PutEnvelopeRequest(device, request, fingerprint, expected, proposed, wellFormed, body, now);
      }
    case RevokeCall(device, request, fingerprint, target, allowZeroActive, body, now) =>
      if device in store.db.devices {
        var r := store.RevokeRequest(device, request, fingerprint, target, allowZeroActive, body, now);
      }
    case CheckpointCall(now) =>
      var r := store.CheckpointUptime(now);
  }

  /** The lease on `s` runs at every one of these requests. */
  predicate RunsThrough(deadlines: map<SnapshotId, int>, calls: seq<Call>, s: SnapshotId) {
    s in deadlines && forall i | 0 <= i < |calls| :: calls[i].now < deadlines[s]
  }

  /** While its lease is the same, a snapshot's pages are answered the same. */
  lemma SameLeaseSameAnswer(was: map<SnapshotId, int>, before: map<SnapshotId, Snapshot>,
                            deadlines: map<SnapshotId, int>, snapshots: map<SnapshotId, Snapshot>, s: SnapshotId,
                            caller: DeviceId, token: nat, sizes: Sizes, now: int)
    requires SameLease(was, before, deadlines, snapshots, s)
    ensures PageAnswer(snapshots, caller, s, s in Running(deadlines, now), token, sizes)
         == PageAnswer(before, caller, s, s in Running(was, now), token, sizes)
  {
  }

  lemma SameLeaseThrough(a: map<SnapshotId, int>, x: map<SnapshotId, Snapshot>, b: map<SnapshotId, int>, y: map<SnapshotId, Snapshot>,
                         c: map<SnapshotId, int>, z: map<SnapshotId, Snapshot>, s: SnapshotId, now: int)
    requires SameLease(a, x, b, y, s) && LeasesKept(b, y, c, z, now) && now < a[s]
    ensures SameLease(a, x, c, z, s)
  {
  }

  /**
   Repeatable reads over any sequence of requests, whatever they write, collect, revoke or drop: a
   snapshot whose lease runs throughout is still there, with its lease, and every page request for
   it, at any later reading, is answered as it would have been before.
   */
  method HandleAll(store: Store, calls: seq<Call>)
    requires store.Valid()
    modifies store
    ensures store.Valid() && store.booted == old(store.booted)
    ensures forall s | RunsThrough(old(store.deadlines), calls, s) ::
              SameLease(old(store.deadlines), old(store.db).snapshots, store.deadlines, store.db.snapshots, s)
    ensures forall s, caller, token, sizes: Sizes, later: int | RunsThrough(old(store.deadlines), calls, s) ::
              PageAnswer(store.db.snapshots, caller, s, s in Running(store.deadlines, later), token, sizes)
              == PageAnswer(old(store.db).snapshots, caller, s, s in Running(old(store.deadlines), later), token, sizes)
  {
    hide RunInv, LedgerInv, LeasesKept, SameLease, PageAnswer, Running;
    ghost var was, before := store.deadlines, store.db.snapshots;
    forall s | RunsThrough(was, calls, s)
      ensures SameLease(was, before, was, before, s)
    {
      LeaseIsItself(was, before, s);
    }
    for i := 0 to |calls|
      invariant store.Valid() && store.booted == old(store.booted)
      invariant forall s | RunsThrough(was, calls, s) :: SameLease(was, before, store.deadlines, store.db.snapshots, s)
    {
      ghost var mid, there := store.deadlines, store.db.snapshots;
      Handle(store, calls[i]);
      forall s | RunsThrough(was, calls, s)
        ensures SameLease(was, before, store.deadlines, store.db.snapshots, s)
      {
        SameLeaseThrough(was, before, mid, there, store.deadlines, store.db.snapshots, s, calls[i].now);
      }
    }
    forall s, caller, token, sizes: Sizes, later: int | RunsThrough(was, calls, s)
      ensures PageAnswer(store.db.snapshots, caller, s, s in Running(store.deadlines, later), token, sizes)
           == PageAnswer(before, caller, s, s in Running(was, later), token, sizes)
    {
      SameLeaseSameAnswer(was, before, store.deadlines, store.db.snapshots, s, caller, token, sizes, later);
    }
  }

  lemma LeaseIsItself(deadlines: map<SnapshotId, int>, snapshots: map<SnapshotId, Snapshot>, s: SnapshotId)
    requires s in deadlines && s in snapshots
    ensures SameLease(deadlines, snapshots, deadlines, snapshots, s)
  {
  }

  // ----- A client's reading ---------------------------------------------------------------------------

  lemma PageTold(snapshots: map<SnapshotId, Snapshot>, s: SnapshotId, i: nat, sizes: Sizes, r: Result<PageBody>)
    requires s in snapshots && Readable(snapshots[s]) && AllFit(snapshots[s], sizes) && i < |PagesOf(snapshots[s])|
    requires r == PageAnswer(snapshots, snapshots[s].owner, s, true, TokenAt(snapshots[s], i), sizes)
    ensures r.Ok? && Tells(snapshots[s], PagesOf(snapshots[s])[i], r.value)
    ensures if i + 1 < |PagesOf(snapshots[s])| then r.value.next == Some(TokenAt(snapshots[s], i + 1)) else r.value.next.None?
  {
    hide PagesOf, Readable, AllFit, PageAnswer;
    StoredAtToken(snapshots[s], i);
    PageTells(snapshots, s, TokenAt(snapshots[s], i), sizes);
  }

  /**
   Read a leased snapshot to its end: ask for the page each answer names next until one names none.
   It takes one request for each page, and together the answers tell every page.
   */
  method ReadAll(store: Store, s: SnapshotId, sizes: Sizes, clock: nat -> int) returns (bodies: seq<PageBody>)
    requires store.Valid() && s in store.db.snapshots && AllFit(store.db.snapshots[s], sizes)
    requires s in store.deadlines && forall i: nat :: clock(i) < store.deadlines[s]
    ensures TellsAll(store.db.snapshots[s], PagesOf(store.db.snapshots[s]), bodies)
  {
    hide RunInv, LedgerInv, Readable, AllFit, PagesOf, Tells, PageAnswer, TokenAt, Servable;
    var snapshot := store.db.snapshots[s];
    ghost var pages := PagesOf(snapshot);
    SnapshotIsReadable(store.db, s);
    PagesAreAll(snapshot);
    FirstAsked(snapshot);
    bodies := [];
    var token := snapshot.firstToken;
    var done := false;
    while !done
      invariant |bodies| <= |pages| && (done <==> |bodies| == |pages|)
      invariant forall i | 0 <= i < |bodies| :: Tells(snapshot, pages[i], bodies[i])
      invariant !done ==> token == TokenAt(snapshot, |bodies|)
      decreases |pages| - |bodies|
    {
      var r := store.SnapshotPageRequest(snapshot.owner, s, token, sizes, clock(|bodies|));
      PageTold(store.db.snapshots, s, |bodies|, sizes, r);
      bodies := bodies + [r.value];
      done := r.value.next.None?;
      if !done {
        token := r.value.next.value;
      }
    }
  }
}
