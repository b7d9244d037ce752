/**
 Reading a snapshot as a client does: ask for the first token's page, then for
 the page each answer names next, until an answer names none.
 */
module SnapshotReads {
  import opened StoreTables
  import opened Vectors
  import opened Ordering
  import opened Collection
  import opened SnapshotPlan
  import opened Snapshots
  import opened SnapshotCode
  import opened Sync
  import opened StoreRuns

  // ----- The answers of one reading -------------------------------------------------------------

  /** The bodies answered from `token` on, for at most `steps` requests under a running lease. */
  function ReadFrom(snapshots: map<SnapshotId, Snapshot>, caller: DeviceId, s: SnapshotId, token: nat, sizes: Sizes, steps: nat): seq<PageBody>
    decreases steps
  {
    if steps == 0 then []
    else
      match PageAnswer(snapshots, caller, s, true, token, sizes)
      case Err(_) => []
      case Ok(body) =>
        [body] + if body.next.None? then [] else ReadFrom(snapshots, caller, s, body.next.value, sizes, steps - 1)
  }

  function BodyRevisions(bodies: seq<PageBody>): seq<Revision> {
    if bodies == [] then [] else bodies[0].revisions + BodyRevisions(bodies[1..])
  }

  function BodyMarkers(bodies: seq<PageBody>): seq<RecordMarker> {
    if bodies == [] then [] else bodies[0].markers + BodyMarkers(bodies[1..])
  }

  function BodyDevices(bodies: seq<PageBody>): seq<SourceDevice> {
    if bodies == [] then [] else bodies[0].devices + BodyDevices(bodies[1..])
  }

  /** The revisions behind pinned identifiers. */
  function Contents(references: map<RevisionId, ContentHash>, ids: seq<RevisionId>): seq<Revision>
    requires forall i | 0 <= i < |ids| :: ids[i] in references
  {
    seq(|ids|, i requires 0 <= i < |ids| => references[ids[i]].of)
  }

  // ----- One answer for each page ---------------------------------------------------------------------

  /** The body that belongs to a page. */
  ghost predicate Tells(snapshot: Snapshot, page: Descriptor, body: PageBody) {
    && (forall i | 0 <= i < |page.revisions| :: page.revisions[i] in snapshot.references)
    && body.revisions == Contents(snapshot.references, page.revisions) && body.markers == page.markers && body.devices == page.devices
    && body.next == page.next && body.cut == snapshot.cut && body.envelopeGeneration == snapshot.envelopeGeneration
  }

  predicate AllFit(snapshot: Snapshot, sizes: Sizes) {
    forall token | token in snapshot.pages :: ServedBytes(sizes, snapshot.pages[token]) <= MAX_BODY_BYTES
  }

  lemma PageTells(snapshots: map<SnapshotId, Snapshot>, s: SnapshotId, token: nat, sizes: Sizes)
    requires s in snapshots && Readable(snapshots[s]) && AllFit(snapshots[s], sizes) && token in snapshots[s].pages
    ensures var r := PageAnswer(snapshots, snapshots[s].owner, s, true, token, sizes);
            r.Ok? && Tells(snapshots[s], snapshots[s].pages[token], r.value)
  {
    PageIsPinned(snapshots[s], token);
    hide Readable, ServedBytes;
  }

  /** Bodies that belong to pages, one by one. */
  ghost predicate TellsAll(snapshot: Snapshot, pages: seq<Descriptor>, bodies: seq<PageBody>) {
    |bodies| == |pages| && forall i | 0 <= i < |pages| :: Tells(snapshot, pages[i], bodies[i])
  }

  lemma TellsFirst(snapshot: Snapshot, pages: seq<Descriptor>, body: PageBody, rest: seq<PageBody>)
    requires pages != [] && Tells(snapshot, pages[0], body) && TellsAll(snapshot, pages[1..], rest)
    ensures TellsAll(snapshot, pages, [body] + rest)
  {
    hide Tells;
    forall i | 0 <= i < |pages|
      ensures Tells(snapshot, pages[i], ([body] + rest)[i])
    {
      if i > 0 {
        assert pages[i] == pages[1..][i - 1];
      }
    }
  }

  /** Where page `i` is asked for. */
  function TokenAt(snapshot: Snapshot, i: nat): nat
    requires i <= |PagesOf(snapshot)|
  {
    if i == 0 || PagesOf(snapshot)[i - 1].next.None? then snapshot.firstToken else PagesOf(snapshot)[i - 1].next.value
  }

  lemma StoredAtToken(snapshot: Snapshot, i: nat)
    requires Readable(snapshot) && i < |PagesOf(snapshot)|
    ensures TokenAt(snapshot, i) in snapshot.pages && snapshot.pages[TokenAt(snapshot, i)] == PagesOf(snapshot)[i]
    ensures LinksOn(snapshot.pages, PagesOf(snapshot), i)
  {
    hide PagesOf, AllRevisions;
    if i > 0 {
      assert LinksOn(snapshot.pages, PagesOf(snapshot), i - 1);
    }
  }

  lemma {:induction false} ReadingTells(snapshots: map<SnapshotId, Snapshot>, s: SnapshotId, sizes: Sizes, i: nat, steps: nat)
    requires s in snapshots && Readable(snapshots[s]) && AllFit(snapshots[s], sizes)
    requires i < |PagesOf(snapshots[s])| <= i + steps
    ensures TellsAll(snapshots[s], PagesOf(snapshots[s])[i..], ReadFrom(snapshots, snapshots[s].owner, s, TokenAt(snapshots[s], i), sizes, steps))
    decreases steps
  {
    hide Readable, AllFit, PagesOf, Tells, TellsAll, PageAnswer;
    var snapshot := snapshots[s];
    var pages, token := PagesOf(snapshot), TokenAt(snapshot, i);
    StoredAtToken(snapshot, i);
    PageTells(snapshots, s, token, sizes);
    var body := PageAnswer(snapshots, snapshot.owner, s, true, token, sizes).value;
    SameNext(snapshot, pages[i], body);
    if i + 1 < |pages| {
      ReadingTells(snapshots, s, sizes, i + 1, steps - 1);
      var rest := ReadFrom(snapshots, snapshot.owner, s, TokenAt(snapshot, i + 1), sizes, steps - 1);
      assert pages[i..][1..] == pages[i + 1..];
      TellsFirst(snapshot, pages[i..], body, rest);
    } else {
      assert pages[i..] == [pages[i]];
      NoneLeft(snapshot);
      assert pages[i..][1..] == [];
      TellsFirst(snapshot, pages[i..], body, []);
      assert [body] + [] == [body];
    }
  }

  lemma NoneLeft(snapshot: Snapshot)
    ensures TellsAll(snapshot, [], [])
  {
  }

  lemma SameNext(snapshot: Snapshot, page: Descriptor, body: PageBody)
    requires Tells(snapshot, page, body)
    ensures body.next == page.next
  {
  }

  // ----- What the answers say together ------------------------------------------------------------------

  lemma ContentsOfConcat(references: map<RevisionId, ContentHash>, a: seq<RevisionId>, b: seq<RevisionId>)
    requires forall i | 0 <= i < |a + b| :: (a + b)[i] in references
    ensures (forall i | 0 <= i < |a| :: a[i] in references) && (forall i | 0 <= i < |b| :: b[i] in references)
    ensures Contents(references, a + b) == Contents(references, a) + Contents(references, b)
  {
    assert forall i | 0 <= i < |a| :: (a + b)[i] == a[i];
    assert forall i | 0 <= i < |b| :: (a + b)[|a| + i] == b[i];
  }

  lemma {:induction false} BodiesTell(snapshot: Snapshot, pages: seq<Descriptor>, bodies: seq<PageBody>)
    requires TellsAll(snapshot, pages, bodies)
    ensures forall i | 0 <= i < |AllRevisions(pages)| :: AllRevisions(pages)[i] in snapshot.references
    ensures BodyRevisions(bodies) == Contents(snapshot.references, AllRevisions(pages))
    ensures BodyMarkers(bodies) == AllMarkers(pages) && BodyDevices(bodies) == AllDevices(pages)
    decreases |pages|
  {
    if pages != [] {
      assert Tells(snapshot, pages[0], bodies[0]);
      BodiesTell(snapshot, pages[1..], bodies[1..]);
      var first, rest := pages[0].revisions, AllRevisions(pages[1..]);
      forall i | 0 <= i < |first + rest|
        ensures (first + rest)[i] in snapshot.references
      {
      }
      ContentsOfConcat(snapshot.references, first, rest);
    }
  }

  /** What a reader of the whole snapshot has been told, of the cut it was made at. */
  ghost predicate TellsCut(t: Tables, bodies: seq<PageBody>) {
    && bodies != [] && bodies[|bodies| - 1].next.None?
    && (forall i | 0 <= i < |bodies| :: bodies[i].cut == t.cursor && bodies[i].envelopeGeneration == t.envelopeGeneration)
    && |BodyRevisions(bodies)| == |HeadListing(t)|
    && (forall i | 0 <= i < |HeadListing(t)| :: HeadListing(t)[i] in t.revisions && BodyRevisions(bodies)[i] == t.revisions[HeadListing(t)[i]].hash.of)
    && BodyMarkers(bodies) == MarkerListing(t)
    && BodyDevices(bodies) == DeviceListing(t)
  }

  lemma LastTold(snapshot: Snapshot, pages: seq<Descriptor>, bodies: seq<PageBody>)
    requires TellsAll(snapshot, pages, bodies) && pages != [] && pages[|pages| - 1].next.None?
    ensures bodies != [] && bodies[|bodies| - 1].next.None?
    ensures forall i | 0 <= i < |bodies| :: bodies[i].cut == snapshot.cut && bodies[i].envelopeGeneration == snapshot.envelopeGeneration
  {
    assert forall i | 0 <= i < |bodies| :: Tells(snapshot, pages[i], bodies[i]);
  }

  lemma LastLinksNowhere(snapshot: Snapshot)
    requires Readable(snapshot)
    ensures PagesOf(snapshot) != [] && PagesOf(snapshot)[|PagesOf(snapshot)| - 1].next.None?
  {
    hide PagesOf, AllRevisions;
    assert LinksOn(snapshot.pages, PagesOf(snapshot), |PagesOf(snapshot)| - 1);
  }

  lemma HeadsTold(t: Tables, ids: seq<RevisionId>, told: seq<Revision>)
    requires ids == HeadListing(t) && (forall i | 0 <= i < |ids| :: ids[i] in References(t.revisions, t.heads))
    requires told == Contents(References(t.revisions, t.heads), ids)
    ensures |told| == |HeadListing(t)|
    ensures forall i | 0 <= i < |HeadListing(t)| :: HeadListing(t)[i] in t.revisions && told[i] == t.revisions[HeadListing(t)[i]].hash.of
  {
    hide HeadListing;
  }

  lemma CutParts(t: Tables, snapshot: Snapshot)
    requires HoldsCut(t, snapshot)
    ensures snapshot.cut == t.cursor && snapshot.envelopeGeneration == t.envelopeGeneration && snapshot.references == References(t.revisions, t.heads)
    ensures AllRevisions(PagesOf(snapshot)) == HeadListing(t) && AllMarkers(PagesOf(snapshot)) == MarkerListing(t)
    ensures AllDevices(PagesOf(snapshot)) == DeviceListing(t)
  {
  }

  lemma CutTold(t: Tables, bodies: seq<PageBody>)
    requires bodies != [] && bodies[|bodies| - 1].next.None?
    requires forall i | 0 <= i < |bodies| :: bodies[i].cut == t.cursor && bodies[i].envelopeGeneration == t.envelopeGeneration
    requires |BodyRevisions(bodies)| == |HeadListing(t)|
    requires forall i | 0 <= i < |HeadListing(t)| :: HeadListing(t)[i] in t.revisions && BodyRevisions(bodies)[i] == t.revisions[HeadListing(t)[i]].hash.of
    requires BodyMarkers(bodies) == MarkerListing(t) && BodyDevices(bodies) == DeviceListing(t)
    ensures TellsCut(t, bodies)
  {
    hide BodyRevisions, BodyMarkers, BodyDevices, HeadListing, MarkerListing, DeviceListing;
  }

  lemma ToldIsCut(t: Tables, snapshot: Snapshot, bodies: seq<PageBody>)
    requires HoldsCut(t, snapshot) && Readable(snapshot) && TellsAll(snapshot, PagesOf(snapshot), bodies)
    ensures TellsCut(t, bodies)
  {
    hide *;
    var pages := PagesOf(snapshot);
    LastLinksNowhere(snapshot);
    CutParts(t, snapshot);
    LastTold(snapshot, pages, bodies);
    BodiesTell(snapshot, pages, bodies);
    HeadsTold(t, AllRevisions(pages), BodyRevisions(bodies));
    CutTold(t, bodies);
  }

  // ----- The cut itself -----------------------------------------------------------------------------------

  /** The listings of a cut are its heads, its markers and its devices with their counters, each of them once. */
  lemma CutListsAll(t: Tables)
    requires t.heads <= t.revisions.Keys
    ensures |HeadListing(t)| == |t.heads| && forall h :: h in HeadListing(t) <==> h in t.heads
    ensures |MarkerListing(t)| == |t.markers| && forall record | record in t.markers :: RecordMarker(record, t.markers[record]) in MarkerListing(t)
    ensures |DeviceListing(t)| == |t.devices| && forall d | d in t.devices :: SourceDevice(d, t.devices[d].maxCounter) in DeviceListing(t)
  {
    HeadListingFacts(t);
    IdListing(t.markers.Keys);
    IdListing(t.devices.Keys);
    hide HeadListing, Listing;
    assert |t.markers| == |t.markers.Keys| && |t.devices| == |t.devices.Keys|;
    forall record | record in t.markers
      ensures RecordMarker(record, t.markers[record]) in MarkerListing(t)
    {
      var i :| 0 <= i < |Listing(IdKeys(t.markers.Keys))| && Listing(IdKeys(t.markers.Keys))[i] == Key(0, record);
      assert MarkerListing(t)[i] == RecordMarker(record, t.markers[record]);
    }
    forall d | d in t.devices
      ensures SourceDevice(d, t.devices[d].maxCounter) in DeviceListing(t)
    {
      var i :| 0 <= i < |Listing(IdKeys(t.devices.Keys))| && Listing(IdKeys(t.devices.Keys))[i] == Key(0, d);
      assert DeviceListing(t)[i] == SourceDevice(d, t.devices[d].maxCounter);
    }
  }

  /**
   Reading a snapshot in any reachable state, from its first token, following what each answer names
   next: one answer for each page and then no more, and together they tell the heads with their contents,
   the markers and the devices of the state the snapshot was created in, whatever has happened since.
   */
  lemma ReaderSeesTheCut(states: seq<Tables>, events: seq<Event>, k: nat, s: SnapshotId, sizes: Sizes, steps: nat) returns (i: nat)
    requires IsRun(states, events) && k < |states| && s in states[k].snapshots
    requires AllFit(states[k].snapshots[s], sizes) && steps >= |states[k].snapshots[s].pages|
    ensures i < k && Creates(events[i], s)
    ensures var snapshot := states[k].snapshots[s];
            var bodies := ReadFrom(states[k].snapshots, snapshot.owner, s, snapshot.firstToken, sizes, steps);
            |bodies| == |snapshot.pages| && TellsCut(states[i], bodies)
  {
    hide *;
    i := SnapshotsAreRepeatable(states, events, k, s);
    var snapshot := states[k].snapshots[s];
    RunsAreSafe(states, events, k);
    SnapshotIsReadable(states[k], s);
    PagesAreAll(snapshot);
    ReadingTells(states[k].snapshots, s, sizes, 0, steps);
    FirstAsked(snapshot);
    var bodies := ReadFrom(states[k].snapshots, snapshot.owner, s, snapshot.firstToken, sizes, steps);
    ToldEach(snapshot, PagesOf(snapshot), bodies);
    ToldIsCut(states[i], snapshot, bodies);
  }

  lemma ToldEach(snapshot: Snapshot, pages: seq<Descriptor>, bodies: seq<PageBody>)
    requires TellsAll(snapshot, pages, bodies)
    ensures |bodies| == |pages|
  {
  }

  lemma FirstAsked(snapshot: Snapshot)
    ensures TokenAt(snapshot, 0) == snapshot.firstToken && PagesOf(snapshot)[0..] == PagesOf(snapshot)
  {
  }

  lemma PagesAreAll(snapshot: Snapshot)
    requires Readable(snapshot)
    ensures 0 < |PagesOf(snapshot)| == |snapshot.pages|
  {
    hide PagesOf, AllRevisions, LinksOn;
  }

  lemma SnapshotIsReadable(t: Tables, s: SnapshotId)
    requires RunInv(t) && s in t.snapshots
    ensures Readable(t.snapshots[s])
  {
    RunInvParts(t);
    hide RunInv, StoreInv, Readable, MetadataSum;
  }
}
