/**
 The snapshot transactions as the server runs them, proved against the
 snapshot specification.
 */
module SnapshotCode {
  import opened Outcomes
  import opened Vectors
  import opened Ordering
  import opened StoreTables
  import opened Collection
  import opened SnapshotPlan
  import opened Snapshots

  // ----- Expiry -----------------------------------------------------------------------

  lemma DropOne(t: Tables, s: SnapshotId, u: Tables)
    requires ObjectsInv(t.revisions, t.objects, t.snapshots) && s in t.snapshots
    requires u == t.(snapshots := t.snapshots - {s}, objects := u.objects)
    requires forall h | h in u.objects :: h in t.objects && u.objects[h] == t.objects[h]
    requires forall h | h in t.objects :: h in u.objects <==> Needed(t.revisions, u.snapshots, h) || h.of.id !in t.snapshots[s].references
    ensures u == DropSnapshots(t, {s})
  {
    forall h | h in t.objects
      ensures h in u.objects <==> Needed(t.revisions, u.snapshots, h)
    {
      if h.of.id !in t.snapshots[s].references {
        StillNeeded(t, s, h);
      }
    }
    hide Needed, ObjectsInv;
    assert u.objects == DropSnapshots(t, {s}).objects;
  }

  lemma StillNeeded(t: Tables, s: SnapshotId, h: ContentHash)
    requires ObjectsInv(t.revisions, t.objects, t.snapshots) && s in t.snapshots && h in t.objects
    requires h.of.id !in t.snapshots[s].references
    ensures Needed(t.revisions, t.snapshots - {s}, h)
  {
    var r := h.of.id;
    if !Retained(t.revisions[r]) {
      var p :| p in t.snapshots && r in t.snapshots[p].references;
      assert p in t.snapshots - {s};
    }
  }

  /** What is left once the references in `done` were offered for release. */
  ghost predicate Released(revisions: map<RevisionId, Row>, left: map<SnapshotId, Snapshot>, objects: map<ContentHash, Revision>,
                           kept: map<ContentHash, Revision>, done: seq<RevisionId>) {
    && (forall h | h in kept :: h in objects && kept[h] == objects[h])
    && (forall h | h in objects :: h in kept <==> Needed(revisions, left, h) || h.of.id !in done)
  }

  method ReleaseReferences(t: Tables, left: map<SnapshotId, Snapshot>, references: map<RevisionId, ContentHash>, ids: seq<RevisionId>)
    returns (kept: map<ContentHash, Revision>)
    requires forall h | h in t.objects :: h.of.id in t.revisions && t.revisions[h.of.id].hash == h
    requires forall i | 0 <= i < |ids| :: ids[i] in references && ids[i] in t.revisions && references[ids[i]] == t.revisions[ids[i]].hash
    requires RowsMatchHashes(t.revisions)
    ensures Released(t.revisions, left, t.objects, kept, ids)
  {
    hide Pinned;
    kept := t.objects;
    for i := 0 to |ids|
      invariant Released(t.revisions, left, t.objects, kept, ids[..i])
    {
      var r := ids[i];
      assert ids[..i + 1] == ids[..i] + [r];
      if !Retained(t.revisions[r]) && !Pinned(left, r) {
        kept := kept - {references[r]};
      }
    }
    assert ids[..|ids|] == ids;
  }

  lemma ObjectFacts(t: Tables, s: SnapshotId)
    requires ObjectsInv(t.revisions, t.objects, t.snapshots) && s in t.snapshots
    ensures RowsMatchHashes(t.revisions)
    ensures forall h | h in t.objects :: h.of.id in t.revisions && t.revisions[h.of.id].hash == h
    ensures forall r | r in t.snapshots[s].references :: r in t.revisions && t.snapshots[s].references[r] == t.revisions[r].hash
  {
  }

  lemma IdMinors(ids: set<nat>)
    ensures forall r :: r in Minors(Listing(IdKeys(ids))) <==> r in ids
    ensures var m := Minors(Listing(IdKeys(ids))); forall i, j | 0 <= i < j < |m| :: m[i] < m[j]
  {
    var keys := IdKeys(ids);
    var listing := Listing(keys);
    IdListing(ids);
    ListingIsOrdered(keys);
    forall i | 0 <= i < |listing|
      ensures listing[i].major == 0
    {
      assert listing[i] in Elements(listing);
    }
    forall r
      ensures r in Minors(listing) <==> r in ids
    {
      if r in ids {
        var i :| 0 <= i < |listing| && listing[i] == Key(0, r);
        assert Minors(listing)[i] == r;
      }
    }
    forall i, j | 0 <= i < j < |Minors(listing)|
      ensures Minors(listing)[i] < Minors(listing)[j]
    {
      assert KeyLess(listing[i], listing[j]);
    }
  }

  /** Delete one snapshot, then offer each object it referenced for release. */
  method DeleteSnapshot(t: Tables, s: SnapshotId) returns (u: Tables)
    requires ObjectsInv(t.revisions, t.objects, t.snapshots) && s in t.snapshots
    ensures u == DropSnapshots(t, {s})
  {
    hide ObjectsInv, DropSnapshots, Listing, Needed, RowsMatchHashes;
    var references := t.snapshots[s].references;
    var listing := OrderBy(IdKeys(references.Keys));
    var ids := Minors(listing);
    IdMinors(references.Keys);
    ObjectFacts(t, s);
    assert forall i | 0 <= i < |ids| :: ids[i] in ids;
    var kept := ReleaseReferences(t, t.snapshots - {s}, references, ids);
    u := t.(snapshots := t.snapshots - {s}, objects := kept);
    DropOne(t, s, u);
  }

  lemma DropTwice(t: Tables, a: set<SnapshotId>, b: set<SnapshotId>)
    ensures DropSnapshots(DropSnapshots(t, a), b) == DropSnapshots(t, a + b)
  {
    assert t.snapshots - a - b == t.snapshots - (a + b);
    assert forall r | Pinned(t.snapshots - (a + b), r) :: Pinned(t.snapshots - a, r);
    assert DropSnapshots(DropSnapshots(t, a), b).objects == DropSnapshots(t, a + b).objects;
  }

  lemma DropNone(t: Tables)
    requires ObjectsInv(t.revisions, t.objects, t.snapshots)
    ensures DropSnapshots(t, {}) == t
  {
    assert t.snapshots - {} == t.snapshots;
    assert DropSnapshots(t, {}).objects == t.objects;
  }

  function Expired(ids: seq<SnapshotId>, live: set<SnapshotId>): set<SnapshotId> {
    set s | s in ids && s !in live
  }

  /** Delete, in identifier order, every snapshot whose lease is not running. */
  method PruneExpired(t: Tables, live: set<SnapshotId>) returns (u: Tables)
    requires ObjectsInv(t.revisions, t.objects, t.snapshots)
    ensures u == PruneSnapshots(t, live)
  {
    hide ObjectsInv, DropSnapshots, Listing;
    var listing := OrderBy(IdKeys(t.snapshots.Keys));
    var ids := Minors(listing);
    IdMinors(t.snapshots.Keys);
    DropNone(t);
    assert Expired(ids[..0], live) == {};
    u := t;
    for i := 0 to |ids|
      invariant u == DropSnapshots(t, Expired(ids[..i], live))
    {
      var s := ids[i];
      ghost var gone := Expired(ids[..i], live);
      assert ids[..i + 1] == ids[..i] + [s];
      assert s in ids && s !in ids[..i];
      if s !in live {
        DropKeepsObjects(t, gone);
        SnapshotsLeft(t, gone);
        DropTwice(t, gone, {s});
        u := DeleteSnapshot(u, s);
        assert gone + {s} == Expired(ids[..i + 1], live);
      } else {
        assert gone == Expired(ids[..i + 1], live);
      }
    }
    assert ids[..|ids|] == ids;
    assert Expired(ids, live) == t.snapshots.Keys - live;
  }

  lemma SnapshotsLeft(t: Tables, gone: set<SnapshotId>)
    ensures DropSnapshots(t, gone).snapshots == t.snapshots - gone
  {
  }

  // ----- Creation ------------------------------------------------------------------------

  method SumMetadata(snapshots: map<SnapshotId, Snapshot>) returns (sum: nat)
    ensures sum == MetadataSum(snapshots)
  {
    sum := 0;
    var rest := snapshots;
    while rest != map[]
      invariant sum + MetadataSum(rest) == MetadataSum(snapshots)
      decreases |rest|
    {
      var s :| s in rest;
      MetadataSumWithout(rest, s);
      sum := sum + rest[s].bytes;
      rest := rest - {s};
    }
  }

  predicate Replays(snapshot: Snapshot, c: Create) {
    snapshot.owner == c.owner && snapshot.request == c.request
  }

  /**
   The create transaction.  A known request replays its snapshot and changes nothing; otherwise
   expired snapshots go first and the new one is written exactly when `CanCreate` says so.
   */
  method CreateSnapshot(t: Tables, live: set<SnapshotId>, c: Create) returns (r: Result<Tables>, served: SnapshotId)
    requires ObjectsInv(t.revisions, t.objects, t.snapshots) && HeadsInv(t.revisions, t.heads) && SnapshotsInv(t.snapshots)
    requires c.owner in t.devices
    ensures (exists s | s in t.snapshots :: Replays(t.snapshots[s], c)) ==>
              && served in t.snapshots && Replays(t.snapshots[served], c)
              && r == if t.snapshots[served].fingerprint == c.fingerprint then Ok(t) else Err(RequestIdReused)
    ensures (forall s | s in t.snapshots :: !Replays(t.snapshots[s], c)) ==>
              var p := PruneSnapshots(t, live);
              && (r.Ok? <==> CanCreate(p, c))
              && (r.Ok? ==> r.value == Created(p, c) && served == c.id)
              && (r.Err? ==> CreateRefused(p, c, r.error))
  {
    hide ObjectsInv, SnapshotsInv, DropSnapshots;
    served := c.id;
    if s :| s in t.snapshots && Replays(t.snapshots[s], c) {
      served := s;
      if t.snapshots[s].fingerprint != c.fingerprint {
        return Err(RequestIdReused), served;
      }
      return Ok(t), served;
    }
    var p := PruneExpired(t, live);
    PruneFrame(t, live);
    DropKeepsSnapshots(t, t.snapshots.Keys - live);
    var owned := exists s | s in p.snapshots :: p.snapshots[s].owner == c.owner;
    if owned || |p.snapshots| >= MAX_SNAPSHOTS {
      return Err(LimitExceeded), served;
    }
    if p.envelope.None? {
      return Err(EnvelopeMissing), served;
    }
    r := PlanAndStore(p, c);
  }

  lemma PruneFrame(t: Tables, live: set<SnapshotId>)
    ensures var p := PruneSnapshots(t, live); p == t.(snapshots := p.snapshots, objects := p.objects)
  {
  }

  /** The second half of a creation, once the counts and the envelope are in order. */
  method PlanAndStore(p: Tables, c: Create) returns (r: Result<Tables>)
    requires HeadsInv(p.revisions, p.heads) && SnapshotsInv(p.snapshots) && c.owner in p.devices
    requires |p.snapshots| < MAX_SNAPSHOTS && (forall s | s in p.snapshots :: p.snapshots[s].owner != c.owner) && p.envelope.Some?
    ensures r.Ok? <==> CanCreate(p, c)
    ensures r.Ok? ==> r.value == Created(p, c)
    ensures r.Err? ==> CreateRefused(p, c, r.error)
  {
    hide SnapshotsInv, Accepted, Footprint, Stored, Distinct, TokensFree, Feasible, Linked, References, MetadataSum, RaiseReturned,
         HeadsInv, HeadListing, MarkerListing, DeviceListing, PlanOf;
    var active := SumMetadata(p.snapshots);
    var budget := METADATA_LIMIT - active;
    var plan, heads := PlanCut(p, c, budget);
    if plan.Err? {
      return Err(plan.error);
    }
    var pages := plan.value;
    var account := MetadataBytes(c.sizes, c.createBody, pages, heads);
    if account.overflow || account.total > budget {
      return Err(LimitExceeded);
    }
    if c.id in p.snapshots || !Distinct(|pages|, c.token) || !TokensFree(p.snapshots, |pages|, c.token) {
      return Err(InternalError);
    }
    var snapshot := Snapshot(c.owner, c.request, c.fingerprint, p.cursor, p.envelopeGeneration, c.token(0), Stored(pages, c.token),
                             References(p.revisions, p.heads), account.total);
    r := Ok(p.(snapshots := p.snapshots[c.id := snapshot], devices := RaiseReturned(p.devices, c.owner, p.cursor)));
  }

  /** List the cut and plan its pages. */
  method PlanCut(p: Tables, c: Create, budget: int) returns (r: Result<seq<Descriptor>>, heads: nat)
    requires budget <= MAX_INT64
    ensures heads == |HeadListing(p)|
    ensures r.Ok? <==> Accepted(c.sizes, HeadListing(p), MarkerListing(p), DeviceListing(p), budget)
    ensures r.Ok? ==> r.value == Linked(PlanOf(p, c), c.token)
    ensures r.Err? ==> r.error == LimitExceeded || r.error == InternalError
    ensures r == Err(LimitExceeded) ==> NewSnapshot(p, c).bytes > budget
    ensures r == Err(InternalError) ==> !Feasible(c.sizes, HeadListing(p), MarkerListing(p), DeviceListing(p))
  {
    hide PlanPages, Accepted, Footprint, Stored, Feasible, Linked, References, Listing, HeadKeys, MarkersAt, DevicesAt;
    var headKeys := OrderBy(HeadKeys(p.revisions, p.heads));
    var markerKeys := OrderBy(IdKeys(p.markers.Keys));
    var deviceKeys := OrderBy(IdKeys(p.devices.Keys));
    IdListing(p.markers.Keys);
    IdListing(p.devices.Keys);
    var listed, markers, devices := Minors(headKeys), MarkersAt(p.markers, markerKeys), DevicesAt(p.devices, deviceKeys);
    assert listed == HeadListing(p) && markers == MarkerListing(p) && devices == DeviceListing(p);
    hide HeadListing, MarkerListing, DeviceListing;
    heads := |listed|;
    r := BuildPlan(c.sizes, listed, markers, devices, c.token, budget);
  }

  // ----- Page reads ----------------------------------------------------------------------------

  datatype PageBody = PageBody(cut: Cursor, envelopeGeneration: nat, revisions: seq<Revision>, markers: seq<RecordMarker>,
                               devices: seq<SourceDevice>, next: Option<nat>)

  /** The body of a page, told from the snapshot alone. */
  function Served(snapshot: Snapshot, page: Descriptor): PageBody
    requires forall i | 0 <= i < |page.revisions| :: page.revisions[i] in snapshot.references
  {
    PageBody(snapshot.cut, snapshot.envelopeGeneration,
             seq(|page.revisions|, i requires 0 <= i < |page.revisions| => snapshot.references[page.revisions[i]].of),
             page.markers, page.devices, page.next)
  }

  lemma {:induction false} PageRevisionsListed(pages: seq<Descriptor>, page: Descriptor, r: RevisionId)
    requires page in pages && r in page.revisions
    ensures r in AllRevisions(pages)
  {
    if page != pages[0] {
      PageRevisionsListed(pages[1..], page, r);
    }
  }

  lemma PageIsPinned(snapshot: Snapshot, token: nat)
    requires Readable(snapshot) && token in snapshot.pages
    ensures forall i | 0 <= i < |snapshot.pages[token].revisions| :: snapshot.pages[token].revisions[i] in snapshot.references
  {
    hide AllRevisions, Walk;
    var page := snapshot.pages[token];
    forall i | 0 <= i < |page.revisions|
      ensures page.revisions[i] in snapshot.references
    {
      PageRevisionsListed(PagesOf(snapshot), page, page.revisions[i]);
    }
  }

  predicate ListsPinned(snapshot: Snapshot, page: Descriptor) {
    forall i | 0 <= i < |page.revisions| :: page.revisions[i] in snapshot.references
  }

  /** The answer to a page request, told from the snapshots and the lease alone. */
  function PageAnswer(snapshots: map<SnapshotId, Snapshot>, caller: DeviceId, s: SnapshotId, running: bool, token: nat, sizes: Sizes): Result<PageBody> {
    if s !in snapshots || snapshots[s].owner != caller then Err(SnapshotNotFound)
    else if !running then Err(SnapshotExpired)
    else if token !in snapshots[s].pages then Err(InvalidRequest)
    else
      var page := snapshots[s].pages[token];
      if ListsPinned(snapshots[s], page) && ServedBytes(sizes, page) <= MAX_BODY_BYTES then Ok(Served(snapshots[s], page)) else Err(InternalError)
  }

  /**
   Reading a page joins the pinned references with the stored objects.  The answer depends on the
   snapshot and its lease alone, so nothing that happens elsewhere in the store can change it.
   */
  method ReadPage(t: Tables, caller: DeviceId, s: SnapshotId, running: bool, token: nat, sizes: Sizes) returns (r: Result<PageBody>)
    requires ObjectsInv(t.revisions, t.objects, t.snapshots) && SnapshotsInv(t.snapshots)
    ensures r == PageAnswer(t.snapshots, caller, s, running, token, sizes)
    ensures s in t.snapshots && t.snapshots[s].owner == caller && running && token in t.snapshots[s].pages ==>
              (r.Ok? <==> ServedBytes(sizes, t.snapshots[s].pages[token]) <= MAX_BODY_BYTES)
  {
    hide Readable, ServedBytes, MetadataSum;
    if s !in t.snapshots || t.snapshots[s].owner != caller {
      return Err(SnapshotNotFound);
    }
    if !running {
      return Err(SnapshotExpired);
    }
    var snapshot := t.snapshots[s];
    if token !in snapshot.pages {
      return Err(InvalidRequest);
    }
    var page := snapshot.pages[token];
    PageIsPinned(snapshot, token);
    var revisions: seq<Revision> := [];
    for i := 0 to |page.revisions|
      invariant revisions == Served(snapshot, page).revisions[..i]
    {
      var h := snapshot.references[page.revisions[i]];
      ReferenceStored(t, s, page.revisions[i]);
      revisions := revisions + [t.objects[h]];
    }
    if ServedBytes(sizes, page) > MAX_BODY_BYTES {
      return Err(InternalError);
    }
    assert revisions == Served(snapshot, page).revisions;
    return Ok(PageBody(snapshot.cut, snapshot.envelopeGeneration, revisions, page.markers, page.devices, page.next));
  }

  lemma ReferenceStored(t: Tables, s: SnapshotId, r: RevisionId)
    requires ObjectsInv(t.revisions, t.objects, t.snapshots) && s in t.snapshots && r in t.snapshots[s].references
    ensures var h := t.snapshots[s].references[r]; h in t.objects && t.objects[h] == h.of && h.of.id == r
  {
    assert Pinned(t.snapshots, r);
  }
}
