/**
 When a snapshot is created, told from the store and the request, and what a
 created snapshot answers to the request that made it.
 */
module SnapshotCreation {
  import opened StoreTables
  import opened SnapshotPlan
  import opened Snapshots
  import opened Sync
  import opened StoreRuns

  // One listed device: two quoted members of bounded text.
  const DEVICE_BYTES := 96

  ghost predicate DeviceSizes(sizes: Sizes) {
    forall d: SourceDevice :: sizes.device(d) <= DEVICE_BYTES
  }

  /** Every head fits a page of its own. */
  predicate EachHeadFits(t: Tables, sizes: Sizes) {
    forall h | h in t.heads :: sizes.fixed + sizes.revision(h) + 55 <= 4_194_304
  }

  lemma OneHeadFits(sizes: Sizes, h: RevisionId)
    ensures RevisionFits(sizes)([h]) <==> sizes.fixed + sizes.revision(h) + 55 <= 4_194_304
  {
    TotalAppend([], h, sizes.revision);
    assert [] + [h] == [h];
  }

  lemma HeadsFitIff(t: Tables, sizes: Sizes)
    requires t.heads <= t.revisions.Keys
    ensures SinglesFit(HeadListing(t), RevisionFits(sizes)) <==> EachHeadFits(t, sizes)
  {
    HeadListingFacts(t);
    hide HeadListing, RevisionFits;
    var listing := HeadListing(t);
    forall h
      ensures RevisionFits(sizes)([h]) <==> sizes.fixed + sizes.revision(h) + 55 <= 4_194_304
    {
      OneHeadFits(sizes, h);
    }
    if SinglesFit(listing, RevisionFits(sizes)) {
      forall h | h in t.heads
        ensures sizes.fixed + sizes.revision(h) + 55 <= 4_194_304
      {
        assert h in listing;
        var i :| 0 <= i < |listing| && listing[i] == h;
      }
    }
  }

  lemma {:induction false} TotalIsBounded(devices: seq<SourceDevice>, size: SourceDevice -> nat)
    requires forall d: SourceDevice :: size(d) <= DEVICE_BYTES
    ensures Total(devices, size) <= DEVICE_BYTES * |devices|
  {
    if devices != [] {
      TotalIsBounded(devices[..|devices| - 1], size);
    }
  }

  lemma DevicesAlwaysFit(sizes: Sizes, devices: seq<SourceDevice>)
    requires EncodedSizes(sizes) && DeviceSizes(sizes) && |devices| <= MAX_DEVICES
    ensures DevicesFit(sizes, devices)
  {
    TotalIsBounded(devices, sizes.device);
  }

  lemma MarkersAlwaysFit(sizes: Sizes, markers: seq<RecordMarker>)
    requires EncodedSizes(sizes) && FrontiersBounded(markers)
    ensures FirstFits(markers, MarkerFits(sizes)) && MarkersReadable(sizes, markers)
  {
    if markers != [] {
      BoundedMarkerFits(sizes, markers[0]);
    }
  }

  lemma ListedDevices(t: Tables)
    ensures |DeviceListing(t)| == |t.devices|
  {
    IdListing(t.devices.Keys);
    assert |t.devices| == |t.devices.Keys|;
  }

  /** The running total of the planner never refuses what the final account allows. */
  lemma FinalAccountDecides(t: Tables, c: Create, budget: int)
    requires NewSnapshot(t, c).bytes <= budget
    ensures PlanBytes(c.sizes, HeadListing(t), MarkerListing(t), DeviceListing(t)) <= budget
  {
    PlanIsUnlinked(c.sizes, HeadListing(t), MarkerListing(t), DeviceListing(t));
    var pages := PlanOf(t, c);
    hide PlanPages, HeadListing, MarkerListing, DeviceListing, Footprint, Linked, Stored, References;
    RunningTotalIsLower(c.sizes, pages, pages, c.token, |HeadListing(t)|, |HeadListing(t)|, c.createBody);
  }

  /** The planner accepts a cut whose heads each fit a page, within the budget. */
  lemma AcceptedIff(t: Tables, c: Create, budget: int)
    requires t.heads <= t.revisions.Keys && FrontiersBounded(MarkerListing(t)) && |t.devices| <= MAX_DEVICES
    requires EncodedSizes(c.sizes) && DeviceSizes(c.sizes) && NewSnapshot(t, c).bytes <= budget
    ensures Accepted(c.sizes, HeadListing(t), MarkerListing(t), DeviceListing(t), budget) <==> EachHeadFits(t, c.sizes)
  {
    hide HeadListing, MarkerListing, DeviceListing, NewSnapshot, EncodedSizes, DeviceSizes, DevicesFit, FrontiersBounded, PlanBytes, SinglesFit, EachHeadFits,
         FirstFits, MarkersReadable;
    HeadsFitIff(t, c.sizes);
    MarkersAlwaysFit(c.sizes, MarkerListing(t));
    ListedDevices(t);
    DevicesAlwaysFit(c.sizes, DeviceListing(t));
    FinalAccountDecides(t, c, budget);
  }

  /**
   A snapshot is created exactly when fewer than eight are leased, none of them the caller's, the envelope is set, every
   head fits a page of its own, the metadata fits what is left of 64 MiB, and the drawn identifiers are free.
   */
  lemma CreatedIff(t: Tables, c: Create)
    requires RunInv(t) && c.owner in t.devices && EncodedSizes(c.sizes) && DeviceSizes(c.sizes)
    ensures CanCreate(t, c) <==>
              && |t.snapshots| < 8 && (forall s | s in t.snapshots :: t.snapshots[s].owner != c.owner)
              && t.envelope.Some? && EachHeadFits(t, c.sizes)
              && MetadataSum(t.snapshots) + NewSnapshot(t, c).bytes <= 67_108_864
              && c.id !in t.snapshots && Distinct(|PlanOf(t, c)|, c.token) && TokensFree(t.snapshots, |PlanOf(t, c)|, c.token)
  {
    hide RunInv, StoreInv, LogInv, RowLogInv, ObjectsInv, HeadListing, MarkerListing, DeviceListing, NewSnapshot, EncodedSizes, DeviceSizes,
         EachHeadFits, Accepted, PlanOf, Distinct, TokensFree, MetadataSum, FrontiersBounded, SnapshotsInv;
    RunInvParts(t);
    ObjectsPart(t);
    DevicesBounded(t);
    FrontiersAreBounded(t);
    assert t.heads <= t.revisions.Keys;
    var budget := METADATA_LIMIT - MetadataSum(t.snapshots);
    if NewSnapshot(t, c).bytes <= budget {
      AcceptedIff(t, c, budget);
    }
  }

  /**
   A created snapshot belongs to its request: its owner may acknowledge up to the cut, and the same request repeated
   finds it, with its body, while any other device's request finds nothing new.
   */
  lemma CreatedAnswersItsRequest(t: Tables, c: Create)
    requires CanCreate(t, c)
    ensures var u := Created(t, c);
            && c.id in u.snapshots && u.snapshots[c.id].owner == c.owner && u.snapshots[c.id].request == c.request
            && u.snapshots[c.id].fingerprint == c.fingerprint && u.snapshots[c.id].cut == t.cursor
            && u.snapshots.Keys == t.snapshots.Keys + {c.id} && (forall s | s in t.snapshots :: u.snapshots[s] == t.snapshots[s])
            && u.devices == t.devices[c.owner := t.devices[c.owner].(maxReturned :=
                              if t.devices[c.owner].maxReturned < t.cursor then t.cursor else t.devices[c.owner].maxReturned)]
            && forall s | s in u.snapshots && u.snapshots[s].owner == c.owner :: s == c.id
  {
    hide Accepted, PlanOf, HeadListing, MarkerListing, DeviceListing, MetadataSum, Distinct, TokensFree, Linked, Stored, References, Footprint;
  }
}
