/**
 Leased snapshots: creation at a cut, page reads, expiry, and the release of
 the revision objects a snapshot pinned.
 */
module Snapshots {
  import opened Outcomes
  import opened Vectors
  import opened Ordering
  import opened StoreTables
  import opened Collection
  import opened SnapshotPlan

  const MAX_SNAPSHOTS := 8

  // ----- What is admitted as an active snapshot ------------------------------------

  ghost function MetadataSum(snapshots: map<SnapshotId, Snapshot>): nat
    decreases |snapshots|
  {
    if snapshots == map[] then 0
    else
      var s :| s in snapshots;
      snapshots[s].bytes + MetadataSum(snapshots - {s})
  }

  lemma {:induction false} MetadataSumWithout(snapshots: map<SnapshotId, Snapshot>, s: SnapshotId)
    requires s in snapshots
    ensures MetadataSum(snapshots) == snapshots[s].bytes + MetadataSum(snapshots - {s})
    decreases |snapshots|
  {
    var first :| first in snapshots && MetadataSum(snapshots) == snapshots[first].bytes + MetadataSum(snapshots - {first});
    if first != s {
      MetadataSumWithout(snapshots - {first}, s);
      MetadataSumWithout(snapshots - {s}, first);
      assert snapshots - {first} - {s} == snapshots - {s} - {first};
    }
  }

  lemma {:induction false} MetadataSumWithoutAll(snapshots: map<SnapshotId, Snapshot>, gone: set<SnapshotId>)
    ensures MetadataSum(snapshots - gone) <= MetadataSum(snapshots)
    decreases |gone|
  {
    if gone == {} {
      assert snapshots - gone == snapshots;
    } else {
      var s :| s in gone;
      MetadataSumWithoutAll(snapshots, gone - {s});
      if s in snapshots {
        MetadataSumWithout(snapshots - (gone - {s}), s);
        assert snapshots - (gone - {s}) - {s} == snapshots - gone;
      } else {
        assert snapshots - (gone - {s}) == snapshots - gone;
      }
    }
  }

  predicate OnePerOwner(snapshots: map<SnapshotId, Snapshot>) {
    forall s, u | s in snapshots && u in snapshots && snapshots[s].owner == snapshots[u].owner :: s == u
  }

  predicate TokensApart(snapshots: map<SnapshotId, Snapshot>) {
    forall s, u | s in snapshots && u in snapshots && s != u :: snapshots[s].pages.Keys !! snapshots[u].pages.Keys
  }

  ghost predicate AllReadable(snapshots: map<SnapshotId, Snapshot>) {
    forall s | s in snapshots :: Readable(snapshots[s])
  }

  /** At most eight snapshots, one per device, within the metadata budget, each one readable. */
  ghost predicate SnapshotsInv(snapshots: map<SnapshotId, Snapshot>) {
    && |snapshots| <= MAX_SNAPSHOTS
    && OnePerOwner(snapshots)
    && TokensApart(snapshots)
    && MetadataSum(snapshots) <= METADATA_LIMIT
    && AllReadable(snapshots)
  }

  // ----- What a snapshot holds -------------------------------------------------------

  /** The pages a client reads from the first token on. */
  function PagesOf(snapshot: Snapshot): seq<Descriptor> {
    Walk(snapshot.pages, snapshot.firstToken, |snapshot.pages|)
  }

  /** Page `i` links to the next page, and the last page links to nothing. */
  predicate LinksOn(stored: map<nat, Descriptor>, pages: seq<Descriptor>, i: nat) {
    && i < |pages|
    && if i + 1 == |pages| then pages[i].next.None?
       else pages[i].next.Some? && pages[i].next.value in stored && stored[pages[i].next.value] == pages[i + 1]
  }

  predicate FirstIs(stored: map<nat, Descriptor>, pages: seq<Descriptor>, token: nat) {
    pages != [] && token in stored && stored[token] == pages[0]
  }

  /** Following the tokens reads every page row once and stops, and every listed revision is pinned exactly once. */
  ghost predicate Readable(snapshot: Snapshot) {
    && |PagesOf(snapshot)| == |snapshot.pages|
    && FirstIs(snapshot.pages, PagesOf(snapshot), snapshot.firstToken)
    && (forall i: nat | i < |PagesOf(snapshot)| :: LinksOn(snapshot.pages, PagesOf(snapshot), i))
    && (forall token | token in snapshot.pages :: snapshot.pages[token] in PagesOf(snapshot))
    && (forall r :: r in AllRevisions(PagesOf(snapshot)) <==> r in snapshot.references)
    && |AllRevisions(PagesOf(snapshot))| == |snapshot.references|
  }

  function HeadKeys(revisions: map<RevisionId, Row>, heads: set<RevisionId>): set<Key> {
    set h | h in heads && h in revisions :: Key(RecordOf(revisions, h), h)
  }

  /** Heads in record order, then revision order. */
  ghost function HeadListing(t: Tables): seq<RevisionId> {
    Minors(Listing(HeadKeys(t.revisions, t.heads)))
  }

  function MarkersAt(markers: map<RecordId, Marker>, keys: seq<Key>): seq<RecordMarker>
    requires forall i | 0 <= i < |keys| :: keys[i].minor in markers
  {
    seq(|keys|, i requires 0 <= i < |keys| => RecordMarker(keys[i].minor, markers[keys[i].minor]))
  }

  function DevicesAt(devices: map<DeviceId, Device>, keys: seq<Key>): seq<SourceDevice>
    requires forall i | 0 <= i < |keys| :: keys[i].minor in devices
  {
    seq(|keys|, i requires 0 <= i < |keys| => SourceDevice(keys[i].minor, devices[keys[i].minor].maxCounter))
  }

  lemma IdListing(ids: set<nat>)
    ensures |Listing(IdKeys(ids))| == |ids|
    ensures forall i | 0 <= i < |Listing(IdKeys(ids))| :: Listing(IdKeys(ids))[i].minor in ids
    ensures forall id | id in ids :: Key(0, id) in Listing(IdKeys(ids))
  {
    var keys := IdKeys(ids);
    ListingIsOrdered(keys);
    forall i | 0 <= i < |Listing(keys)|
      ensures Listing(keys)[i].minor in ids
    {
      assert Listing(keys)[i] in Elements(Listing(keys));
    }
    forall id | id in ids
      ensures Key(0, id) in Listing(keys)
    {
      assert Key(0, id) in Elements(Listing(keys));
    }
    IdKeysCount(ids);
  }

  lemma {:induction false} IdKeysCount(ids: set<nat>)
    ensures |IdKeys(ids)| == |ids|
  {
    if ids != {} {
      var id :| id in ids;
      IdKeysCount(ids - {id});
      assert IdKeys(ids) == IdKeys(ids - {id}) + {Key(0, id)};
    }
  }

  ghost function MarkerListing(t: Tables): seq<RecordMarker> {
    IdListing(t.markers.Keys);
    MarkersAt(t.markers, Listing(IdKeys(t.markers.Keys)))
  }

  ghost function DeviceListing(t: Tables): seq<SourceDevice> {
    IdListing(t.devices.Keys);
    DevicesAt(t.devices, Listing(IdKeys(t.devices.Keys)))
  }

  function References(revisions: map<RevisionId, Row>, heads: set<RevisionId>): map<RevisionId, ContentHash> {
    map h | h in heads && h in revisions :: revisions[h].hash
  }

  // ----- Creation ----------------------------------------------------------------------

  /** What a create request brings: random identifier and tokens, and the sizes of the bodies involved. */
  datatype Create = Create(owner: DeviceId, request: nat, fingerprint: nat, id: SnapshotId, token: nat -> nat, sizes: Sizes, createBody: nat)

  ghost function PlanOf(t: Tables, c: Create): seq<Descriptor> {
    PlanPages(c.sizes, HeadListing(t), MarkerListing(t), DeviceListing(t))
  }

  ghost function NewSnapshot(t: Tables, c: Create): Snapshot {
    var pages := Linked(PlanOf(t, c), c.token);
    Snapshot(c.owner, c.request, c.fingerprint, t.cursor, t.envelopeGeneration, c.token(0), Stored(pages, c.token),
             References(t.revisions, t.heads), Footprint(c.sizes, c.createBody, pages, |HeadListing(t)|))
  }

  /** Hand the cut to its owner: from now on it may acknowledge up to the cut. */
  function RaiseReturned(devices: map<DeviceId, Device>, d: DeviceId, cursor: Cursor): map<DeviceId, Device>
    requires d in devices
  {
    devices[d := devices[d].(maxReturned := Max(devices[d].maxReturned, cursor))]
  }

  ghost function Created(t: Tables, c: Create): Tables
    requires c.owner in t.devices
  {
    t.(snapshots := t.snapshots[c.id := NewSnapshot(t, c)], devices := RaiseReturned(t.devices, c.owner, t.cursor))
  }

  predicate TokensFree(snapshots: map<SnapshotId, Snapshot>, n: nat, token: nat -> nat) {
    forall s | s in snapshots :: forall i | 0 <= i < n :: token(i) !in snapshots[s].pages
  }

  /** Exactly when a snapshot is created. */
  ghost predicate CanCreate(t: Tables, c: Create) {
    var budget := METADATA_LIMIT - MetadataSum(t.snapshots);
    && c.owner in t.devices
    && |t.snapshots| < MAX_SNAPSHOTS && (forall s | s in t.snapshots :: t.snapshots[s].owner != c.owner)
    && t.envelope.Some?
    && Accepted(c.sizes, HeadListing(t), MarkerListing(t), DeviceListing(t), budget)
    && NewSnapshot(t, c).bytes <= budget
    && c.id !in t.snapshots && Distinct(|PlanOf(t, c)|, c.token) && TokensFree(t.snapshots, |PlanOf(t, c)|, c.token)
  }

  /** Which error refuses a creation; a plan that cannot be built and is over budget may give either of its two. */
  ghost predicate CreateRefused(t: Tables, c: Create, error: Error) {
    var budget := METADATA_LIMIT - MetadataSum(t.snapshots);
    var feasible := Feasible(c.sizes, HeadListing(t), MarkerListing(t), DeviceListing(t));
    if |t.snapshots| >= MAX_SNAPSHOTS || (exists s | s in t.snapshots :: t.snapshots[s].owner == c.owner) then error == LimitExceeded
    else if t.envelope.None? then error == EnvelopeMissing
    else if feasible then error == (if NewSnapshot(t, c).bytes > budget then LimitExceeded else InternalError)
    else error == InternalError || (error == LimitExceeded && NewSnapshot(t, c).bytes > budget)
  }

  // ----- Expiry --------------------------------------------------------------------------

  /** Drop a set of snapshots and every object that only they kept. */
  function DropSnapshots(t: Tables, gone: set<SnapshotId>): Tables {
    var left := t.snapshots - gone;
    t.(snapshots := left,
       objects := map h | h in t.objects && Needed(t.revisions, left, h) :: t.objects[h])
  }

  predicate Needed(revisions: map<RevisionId, Row>, snapshots: map<SnapshotId, Snapshot>, h: ContentHash) {
    h.of.id in revisions && (Retained(revisions[h.of.id]) || Pinned(snapshots, h.of.id))
  }

  /** Keep only the snapshots whose lease is still running. */
  function PruneSnapshots(t: Tables, live: set<SnapshotId>): Tables {
    DropSnapshots(t, t.snapshots.Keys - live)
  }

  lemma DropKeepsObjects(t: Tables, gone: set<SnapshotId>)
    requires ObjectsInv(t.revisions, t.objects, t.snapshots)
    ensures var u := DropSnapshots(t, gone); ObjectsInv(u.revisions, u.objects, u.snapshots)
  {
    var left := t.snapshots - gone;
    assert forall r | Pinned(left, r) :: Pinned(t.snapshots, r);
  }

  /** A change of snapshots, objects and returned cursors alone. */
  lemma SnapshotFrame(t: Tables, u: Tables)
    requires StoreInv(t) && u == t.(snapshots := u.snapshots, objects := u.objects, devices := u.devices)
    requires ObjectsInv(u.revisions, u.objects, u.snapshots) && RegistryInv(u.cursor, u.devices, u.revisions)
    requires DevicesEvolve(t.devices, u.devices)
    ensures StoreInv(u) && Evolves(t, u)
  {
    hide LogInv, RowLogInv, ObjectsInv, HeadsInv, SiblingsInv, DistinctVectors, CoverageInv, MarkersInv, QueueInv, RegistryInv,
         AuthorsInv, DevicesEvolve;
  }

  lemma SameDevicesEvolve(devices: map<DeviceId, Device>)
    ensures DevicesEvolve(devices, devices)
  {
  }

  /** Dropping snapshots keeps the joint invariant: exactly the objects nobody needs any more go. */
  lemma DropKeepsInv(t: Tables, gone: set<SnapshotId>)
    requires StoreInv(t)
    ensures StoreInv(DropSnapshots(t, gone)) && Evolves(t, DropSnapshots(t, gone))
  {
    hide LogInv, RowLogInv, ObjectsInv, HeadsInv, SiblingsInv, DistinctVectors, CoverageInv, MarkersInv, QueueInv, RegistryInv,
         AuthorsInv, DevicesEvolve, Evolves, RowsEvolve, MarkersEvolve, AdmissionsDominate, OriginsEvolve;
    DropKeepsObjects(t, gone);
    SameDevicesEvolve(t.devices);
    SnapshotFrame(t, DropSnapshots(t, gone));
  }

  lemma DropKeepsSnapshots(t: Tables, gone: set<SnapshotId>)
    requires SnapshotsInv(t.snapshots)
    ensures SnapshotsInv(DropSnapshots(t, gone).snapshots)
  {
    MetadataSumWithoutAll(t.snapshots, gone);
    assert t.snapshots.Keys == (t.snapshots - gone).Keys + (t.snapshots.Keys * gone);
    assert |t.snapshots| == |t.snapshots.Keys| && |t.snapshots - gone| == |(t.snapshots - gone).Keys|;
  }

  // ----- Creation keeps everything ---------------------------------------------------------

  lemma CreateKeepsObjects(revisions: map<RevisionId, Row>, heads: set<RevisionId>, objects: map<ContentHash, Revision>,
                           snapshots: map<SnapshotId, Snapshot>, id: SnapshotId, snapshot: Snapshot)
    requires ObjectsInv(revisions, objects, snapshots) && HeadsInv(revisions, heads)
    requires id !in snapshots && snapshot.references == References(revisions, heads)
    ensures ObjectsInv(revisions, objects, snapshots[id := snapshot])
  {
    var after := snapshots[id := snapshot];
    forall r | r in revisions
      ensures Retained(revisions[r]) || Pinned(after, r) <==> Retained(revisions[r]) || Pinned(snapshots, r)
    {
      if Pinned(snapshots, r) {
        var s :| s in snapshots && r in snapshots[s].references;
        assert s in after && after[s] == snapshots[s];
      }
    }
  }

  lemma RaiseKeepsRegistry(t: Tables, d: DeviceId, cursor: Cursor)
    requires RegistryInv(t.cursor, t.devices, t.revisions) && d in t.devices && cursor <= t.cursor
    ensures RegistryInv(t.cursor, RaiseReturned(t.devices, d, cursor), t.revisions)
    ensures DevicesEvolve(t.devices, RaiseReturned(t.devices, d, cursor))
  {
    var devices := RaiseReturned(t.devices, d, cursor);
    forall r | r in t.revisions
      ensures Known(devices, VectorOf(t.revisions, r))
    {
      assert Known(t.devices, VectorOf(t.revisions, r));
    }
  }

  lemma CreateKeepsInv(t: Tables, c: Create)
    requires StoreInv(t) && c.owner in t.devices && c.id !in t.snapshots
    ensures StoreInv(Created(t, c)) && Evolves(t, Created(t, c))
  {
    hide LogInv, RowLogInv, ObjectsInv, HeadsInv, SiblingsInv, DistinctVectors, CoverageInv, MarkersInv, QueueInv, RegistryInv,
         AuthorsInv, DevicesEvolve, Evolves, RowsEvolve, MarkersEvolve, AdmissionsDominate, OriginsEvolve, NewSnapshot, RaiseReturned;
    NewSnapshotReferences(t, c);
    CreateKeepsObjects(t.revisions, t.heads, t.objects, t.snapshots, c.id, NewSnapshot(t, c));
    RaiseKeepsRegistry(t, c.owner, t.cursor);
    SnapshotFrame(t, Created(t, c));
  }

  /** The listings in a snapshot are the heads, the markers and the device counters at its cut. */
  ghost predicate HoldsCut(t: Tables, snapshot: Snapshot) {
    && snapshot.cut == t.cursor && snapshot.envelopeGeneration == t.envelopeGeneration
    && AllRevisions(PagesOf(snapshot)) == HeadListing(t)
    && AllMarkers(PagesOf(snapshot)) == MarkerListing(t)
    && AllDevices(PagesOf(snapshot)) == DeviceListing(t)
    && snapshot.references == References(t.revisions, t.heads)
  }

  /** A client that follows the tokens of a new snapshot reads the whole cut. */
  lemma CreatedHoldsCut(t: Tables, c: Create)
    requires Distinct(|PlanOf(t, c)|, c.token)
    ensures HoldsCut(t, NewSnapshot(t, c))
    ensures PagesOf(NewSnapshot(t, c)) == Linked(PlanOf(t, c), c.token) && |NewSnapshot(t, c).pages| == |PlanOf(t, c)|
  {
    var plan := PlanOf(t, c);
    PlanIsLossless(c.sizes, HeadListing(t), MarkerListing(t), DeviceListing(t));
    LinkedContent(plan, c.token);
    WalkVisitsEveryPage(plan, c.token, |plan|);
    hide PlanOf, Linked, Stored, Walk, AllRevisions, AllMarkers, AllDevices, HeadListing, MarkerListing, DeviceListing, References, Footprint, Distinct;
  }

  lemma LinkedContent(plan: seq<Descriptor>, token: nat -> nat)
    ensures var linked := Linked(plan, token);
            AllRevisions(linked) == AllRevisions(plan) && AllMarkers(linked) == AllMarkers(plan) && AllDevices(linked) == AllDevices(plan)
  {
    hide AllRevisions, AllMarkers, AllDevices;
    LinkingKeepsContent(plan, token, Linked(plan, token));
  }

  lemma HeadListingFacts(t: Tables)
    requires t.heads <= t.revisions.Keys
    ensures |HeadListing(t)| == |t.heads|
    ensures forall r :: r in HeadListing(t) <==> r in t.heads
  {
    var keys := HeadKeys(t.revisions, t.heads);
    var listing := Listing(keys);
    ListingIsOrdered(keys);
    HeadKeysCount(t.revisions, t.heads);
    forall r
      ensures r in HeadListing(t) <==> r in t.heads
    {
      if r in t.heads {
        var key := Key(RecordOf(t.revisions, r), r);
        assert key in Elements(listing);
        var i :| 0 <= i < |listing| && listing[i] == key;
        assert Minors(listing)[i] == r;
      }
      if r in HeadListing(t) {
        var i :| 0 <= i < |listing| && Minors(listing)[i] == r;
        assert listing[i] in Elements(listing);
      }
    }
  }

  lemma {:induction false} HeadKeysCount(revisions: map<RevisionId, Row>, heads: set<RevisionId>)
    requires heads <= revisions.Keys
    ensures |HeadKeys(revisions, heads)| == |heads|
  {
    if heads != {} {
      var h :| h in heads;
      HeadKeysCount(revisions, heads - {h});
      assert HeadKeys(revisions, heads) == HeadKeys(revisions, heads - {h}) + {Key(RecordOf(revisions, h), h)};
    }
  }

  lemma CreatedLinks(t: Tables, c: Create)
    requires Distinct(|PlanOf(t, c)|, c.token)
    ensures var pages := Linked(PlanOf(t, c), c.token);
            && FirstIs(NewSnapshot(t, c).pages, pages, NewSnapshot(t, c).firstToken)
            && forall i: nat | i < |pages| :: LinksOn(NewSnapshot(t, c).pages, pages, i)
  {
    var pages := Linked(PlanOf(t, c), c.token);
    LinkedIsChained(PlanOf(t, c), c.token);
    assert |pages| > 0;
    assert ChainedAt(Stored(pages, c.token), pages, c.token, 0);
    hide PlanPages, Linked, Distinct, Stored, References, HeadListing, MarkerListing, DeviceListing, Footprint;
    forall i: nat | i < |pages|
      ensures LinksOn(NewSnapshot(t, c).pages, pages, i)
    {
      assert ChainedAt(Stored(pages, c.token), pages, c.token, i);
      assert i + 1 < |pages| ==> ChainedAt(Stored(pages, c.token), pages, c.token, i + 1);
    }
  }

  lemma CreatedIsReadable(t: Tables, c: Create)
    requires HeadsInv(t.revisions, t.heads) && Distinct(|PlanOf(t, c)|, c.token)
    ensures Readable(NewSnapshot(t, c))
  {
    CreatedLinks(t, c);
    hide HeadListing, PlanOf, Linked, LinksOn, FirstIs, Walk;
    var snapshot := NewSnapshot(t, c);
    CreatedHoldsCut(t, c);
    HeadListingFacts(t);
    assert snapshot.references.Keys == t.heads;
    StoredPages(Linked(PlanOf(t, c), c.token), c.token);
  }

  lemma {:induction false} StoredPages(pages: seq<Descriptor>, token: nat -> nat)
    ensures forall k | k in Stored(pages, token) :: Stored(pages, token)[k] in pages
  {
    if pages != [] {
      StoredPages(pages[..|pages| - 1], token);
    }
  }

  lemma NewSnapshotReferences(t: Tables, c: Create)
    ensures NewSnapshot(t, c).references == References(t.revisions, t.heads) && NewSnapshot(t, c).owner == c.owner
  {
  }

  lemma AddOwner(snapshots: map<SnapshotId, Snapshot>, id: SnapshotId, snapshot: Snapshot)
    requires OnePerOwner(snapshots) && forall s | s in snapshots :: snapshots[s].owner != snapshot.owner
    ensures OnePerOwner(snapshots[id := snapshot])
  {
  }

  lemma AddTokens(snapshots: map<SnapshotId, Snapshot>, id: SnapshotId, snapshot: Snapshot)
    requires TokensApart(snapshots) && forall s | s in snapshots :: snapshots[s].pages.Keys !! snapshot.pages.Keys
    ensures TokensApart(snapshots[id := snapshot])
  {
  }

  lemma AddSnapshotKeeps(snapshots: map<SnapshotId, Snapshot>, id: SnapshotId, snapshot: Snapshot)
    requires SnapshotsInv(snapshots) && id !in snapshots && |snapshots| < MAX_SNAPSHOTS
    requires Readable(snapshot) && MetadataSum(snapshots) + snapshot.bytes <= METADATA_LIMIT
    requires forall s | s in snapshots :: snapshots[s].owner != snapshot.owner && snapshots[s].pages.Keys !! snapshot.pages.Keys
    ensures SnapshotsInv(snapshots[id := snapshot])
  {
    hide Readable, MetadataSum, OnePerOwner, TokensApart;
    var after := snapshots[id := snapshot];
    AddOwner(snapshots, id, snapshot);
    AddTokens(snapshots, id, snapshot);
    MetadataSumWithout(after, id);
    assert after - {id} == snapshots;
    assert after.Keys == snapshots.Keys + {id};
  }

  lemma NewTokens(t: Tables, c: Create)
    requires Distinct(|PlanOf(t, c)|, c.token) && TokensFree(t.snapshots, |PlanOf(t, c)|, c.token)
    ensures forall s | s in t.snapshots :: t.snapshots[s].pages.Keys !! NewSnapshot(t, c).pages.Keys
  {
    hide PlanOf;
    StoredExact(Linked(PlanOf(t, c), c.token), c.token);
    assert NewSnapshot(t, c).pages.Keys == set i | 0 <= i < |PlanOf(t, c)| :: c.token(i);
  }

  /** A created snapshot stays within every limit. */
  lemma CreateKeepsSnapshots(t: Tables, c: Create)
    requires HeadsInv(t.revisions, t.heads) && SnapshotsInv(t.snapshots) && CanCreate(t, c)
    ensures SnapshotsInv(Created(t, c).snapshots)
  {
    hide Readable, HeadListing, PlanOf, SnapshotsInv, NewSnapshot, HeadsInv, Accepted;
    CreatedIsReadable(t, c);
    NewTokens(t, c);
    NewSnapshotReferences(t, c);
    AddSnapshotKeeps(t.snapshots, c.id, NewSnapshot(t, c));
  }
}
