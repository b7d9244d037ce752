/**
 The page plan of a snapshot: greedy pages under item and byte limits, the
 metadata account that bounds a snapshot's footprint, and the token chain a
 client follows.
 */
module SnapshotPlan {
  import opened Outcomes
  import opened StoreTables

  const MAX_BODY_BYTES: nat := 4 * 1024 * 1024
  const METADATA_LIMIT: nat := 64 * 1024 * 1024
  const MAX_INT64: nat := 0x7FFF_FFFF_FFFF_FFFF
  const PAGE_ITEMS := 128
  const UUID_BYTES := 36
  const TOKEN_BYTES := 43

  // ----- Serialized sizes -------------------------------------------------------------

  /** Sizes of the variable parts of a page body; `fixed` covers the other members. */
  datatype Sizes = Sizes(fixed: nat, revision: RevisionId -> nat, marker: RecordMarker -> nat, device: SourceDevice -> nat)

  function Total<T>(items: seq<T>, size: T -> nat): nat {
    if items == [] then 0 else Total(items[..|items| - 1], size) + size(items[|items| - 1])
  }

  /** A JSON array: brackets, items and separating commas. */
  function ArrayBytes<T>(items: seq<T>, size: T -> nat): nat {
    if items == [] then 2 else 2 + Total(items, size) + (|items| - 1)
  }

  /** The two link members: a quoted token and `true`, or `null` and `false`. */
  function LinkBytes(more: bool): nat {
    if more then TOKEN_BYTES + 2 + 4 else 4 + 5
  }

  /** The body served for a stored page. */
  function ServedBytes(sizes: Sizes, page: Descriptor): nat {
    sizes.fixed + ArrayBytes(page.revisions, sizes.revision) + ArrayBytes(page.markers, sizes.marker)
    + ArrayBytes(page.devices, sizes.device) + LinkBytes(page.next.Some?)
  }

  /** What the planner measures: a page with a placeholder link; an absent revision list prints as `null`. */
  predicate RevisionsFit(sizes: Sizes, ids: seq<RevisionId>) {
    |ids| <= PAGE_ITEMS && sizes.fixed + ArrayBytes(ids, sizes.revision) + 2 + 2 + LinkBytes(true) <= MAX_BODY_BYTES
  }

  predicate MarkersFit(sizes: Sizes, markers: seq<RecordMarker>) {
    |markers| <= PAGE_ITEMS && sizes.fixed + 4 + ArrayBytes(markers, sizes.marker) + 2 + LinkBytes(true) <= MAX_BODY_BYTES
  }

  predicate DevicesFit(sizes: Sizes, devices: seq<SourceDevice>) {
    sizes.fixed + 4 + 2 + ArrayBytes(devices, sizes.device) + LinkBytes(true) <= MAX_BODY_BYTES
  }

  /** What the planner measures is the served body with a next link, but for a marker page's empty revision list. */
  lemma PlannerMeasuresServed(sizes: Sizes, ids: seq<RevisionId>, markers: seq<RecordMarker>, devices: seq<SourceDevice>, next: nat)
    ensures RevisionsFit(sizes, ids) <==> |ids| <= 128 && ServedBytes(sizes, Descriptor(ids, [], [], Some(next))) <= 4_194_304
    ensures MarkersFit(sizes, markers) <==> |markers| <= 128 && ServedBytes(sizes, Descriptor([], markers, [], Some(next))) + 2 <= 4_194_304
    ensures DevicesFit(sizes, devices) <==> ServedBytes(sizes, Descriptor([], [], devices, Some(next))) + 2 <= 4_194_304
  {
  }

  // ----- Greedy pages --------------------------------------------------------------------

  /** Close `page` when the next item does not fit, and go on with a page holding that item. */
  function Greedy<T>(page: seq<T>, items: seq<T>, fits: seq<T> -> bool): seq<seq<T>>
    decreases |items|
  {
    if items == [] then (if page == [] then [] else [page])
    else if fits(page + [items[0]]) || page == [] then Greedy(page + [items[0]], items[1..], fits)
    else [page] + Greedy([items[0]], items[1..], fits)
  }

  function Flatten<T>(pages: seq<seq<T>>): seq<T> {
    if pages == [] then [] else pages[0] + Flatten(pages[1..])
  }

  /** Nothing is lost, repeated or reordered. */
  lemma {:induction false} GreedyIsLossless<T>(page: seq<T>, items: seq<T>, fits: seq<T> -> bool)
    ensures Flatten(Greedy(page, items, fits)) == page + items
    decreases |items|
  {
    if items == [] {
      assert Flatten([page]) == page + Flatten<T>([]);
    } else if fits(page + [items[0]]) || page == [] {
      GreedyIsLossless(page + [items[0]], items[1..], fits);
      assert (page + [items[0]]) + items[1..] == page + items;
    } else {
      GreedyIsLossless([items[0]], items[1..], fits);
      var rest := Greedy([items[0]], items[1..], fits);
      assert ([page] + rest)[1..] == rest;
      assert [items[0]] + items[1..] == items;
    }
  }

  predicate SinglesFit<T>(items: seq<T>, fits: seq<T> -> bool) {
    forall i | 0 <= i < |items| :: fits([items[i]])
  }

  /** No page could have taken the item that the next page starts with. */
  predicate Tight<T(==)>(pages: seq<seq<T>>, fits: seq<T> -> bool) {
    forall k | 0 < k < |pages| :: pages[k] != [] && !fits(pages[k - 1] + [pages[k][0]])
  }

  /** Every page is nonempty, all later pages are tight, and the first page extends the open one. */
  lemma {:induction false} GreedyIsTight<T>(page: seq<T>, items: seq<T>, fits: seq<T> -> bool)
    ensures forall p | p in Greedy(page, items, fits) :: p != []
    ensures page != [] ==> Greedy(page, items, fits) != [] && page <= Greedy(page, items, fits)[0]
    ensures Tight(Greedy(page, items, fits), fits)
    decreases |items|
  {
    if items != [] {
      if fits(page + [items[0]]) || page == [] {
        GreedyIsTight(page + [items[0]], items[1..], fits);
      } else {
        var rest := Greedy([items[0]], items[1..], fits);
        GreedyIsTight([items[0]], items[1..], fits);
        assert rest[0][0] == items[0];
        forall k | 0 < k < |[page] + rest|
          ensures ([page] + rest)[k] != [] && !fits(([page] + rest)[k - 1] + [([page] + rest)[k][0]])
        {
          if k > 1 {
            assert ([page] + rest)[k - 1] == rest[k - 2] && ([page] + rest)[k] == rest[k - 1];
          }
        }
      }
    }
  }

  /** Every page is within the limits exactly when every item is on its own. */
  lemma {:induction false} GreedyPagesFit<T>(page: seq<T>, items: seq<T>, fits: seq<T> -> bool)
    requires SinglesFit(items, fits) && (page == [] || fits(page))
    ensures forall p | p in Greedy(page, items, fits) :: fits(p)
    decreases |items|
  {
    if items != [] {
      assert fits([items[0]]);
      if fits(page + [items[0]]) || page == [] {
        assert page == [] ==> page + [items[0]] == [items[0]];
        GreedyPagesFit(page + [items[0]], items[1..], fits);
      } else {
        GreedyPagesFit([items[0]], items[1..], fits);
      }
    }
  }

  // ----- The plan ---------------------------------------------------------------------------

  function RevisionPage(ids: seq<RevisionId>): Descriptor { Descriptor(ids, [], [], None) }
  function MarkerPage(markers: seq<RecordMarker>): Descriptor { Descriptor([], markers, [], None) }
  function DevicePage(devices: seq<SourceDevice>): Descriptor { Descriptor([], [], devices, None) }

  function Each<S, T>(items: seq<S>, f: S -> T): (r: seq<T>)
    ensures |r| == |items| && forall i | 0 <= i < |items| :: r[i] == f(items[i])
  {
    seq(|items|, i requires 0 <= i < |items| => f(items[i]))
  }

  function RevisionFits(sizes: Sizes): seq<RevisionId> -> bool {
    (ids: seq<RevisionId>) => RevisionsFit(sizes, ids)
  }

  function MarkerFits(sizes: Sizes): seq<RecordMarker> -> bool {
    (markers: seq<RecordMarker>) => MarkersFit(sizes, markers)
  }

  function RevisionPages(sizes: Sizes, revisions: seq<RevisionId>): seq<Descriptor> {
    Each(Greedy([], revisions, RevisionFits(sizes)), RevisionPage)
  }

  function MarkerPages(sizes: Sizes, markers: seq<RecordMarker>): seq<Descriptor> {
    Each(Greedy([], markers, MarkerFits(sizes)), MarkerPage)
  }

  function DevicePages(devices: seq<SourceDevice>): seq<Descriptor> {
    if devices == [] then [] else [DevicePage(devices)]
  }

  /** All heads, then all markers, then all devices; one empty page when there is nothing. */
  function PlanPages(sizes: Sizes, revisions: seq<RevisionId>, markers: seq<RecordMarker>, devices: seq<SourceDevice>): (pages: seq<Descriptor>)
    ensures pages != []
  {
    var pages := RevisionPages(sizes, revisions) + MarkerPages(sizes, markers) + DevicePages(devices);
    if pages == [] then [RevisionPage([])] else pages
  }

  predicate Feasible(sizes: Sizes, revisions: seq<RevisionId>, markers: seq<RecordMarker>, devices: seq<SourceDevice>) {
    && SinglesFit(revisions, RevisionFits(sizes))
    && SinglesFit(markers, MarkerFits(sizes))
    && |devices| <= MAX_DEVICES && DevicesFit(sizes, devices)
  }

  function AllRevisions(pages: seq<Descriptor>): seq<RevisionId> {
    if pages == [] then [] else pages[0].revisions + AllRevisions(pages[1..])
  }

  function AllMarkers(pages: seq<Descriptor>): seq<RecordMarker> {
    if pages == [] then [] else pages[0].markers + AllMarkers(pages[1..])
  }

  function AllDevices(pages: seq<Descriptor>): seq<SourceDevice> {
    if pages == [] then [] else pages[0].devices + AllDevices(pages[1..])
  }

  lemma {:induction false} RevisionsOfConcat(a: seq<Descriptor>, b: seq<Descriptor>)
    ensures AllRevisions(a + b) == AllRevisions(a) + AllRevisions(b)
  {
    if a == [] {
      assert a + b == b;
    } else {
      assert (a + b)[1..] == a[1..] + b && (a + b)[0] == a[0];
      RevisionsOfConcat(a[1..], b);
    }
  }

  lemma {:induction false} MarkersOfConcat(a: seq<Descriptor>, b: seq<Descriptor>)
    ensures AllMarkers(a + b) == AllMarkers(a) + AllMarkers(b)
  {
    if a == [] {
      assert a + b == b;
    } else {
      assert (a + b)[1..] == a[1..] + b && (a + b)[0] == a[0];
      MarkersOfConcat(a[1..], b);
    }
  }

  lemma {:induction false} DevicesOfConcat(a: seq<Descriptor>, b: seq<Descriptor>)
    ensures AllDevices(a + b) == AllDevices(a) + AllDevices(b)
  {
    if a == [] {
      assert a + b == b;
    } else {
      assert (a + b)[1..] == a[1..] + b && (a + b)[0] == a[0];
      DevicesOfConcat(a[1..], b);
    }
  }

  lemma ContentOfThree(a: seq<Descriptor>, b: seq<Descriptor>, c: seq<Descriptor>)
    ensures AllRevisions(a + b + c) == AllRevisions(a) + AllRevisions(b) + AllRevisions(c)
    ensures AllMarkers(a + b + c) == AllMarkers(a) + AllMarkers(b) + AllMarkers(c)
    ensures AllDevices(a + b + c) == AllDevices(a) + AllDevices(b) + AllDevices(c)
  {
    hide AllRevisions, AllMarkers, AllDevices;
    RevisionsOfConcat(a + b, c);
    RevisionsOfConcat(a, b);
    MarkersOfConcat(a + b, c);
    MarkersOfConcat(a, b);
    DevicesOfConcat(a + b, c);
    DevicesOfConcat(a, b);
  }

  lemma {:induction false} RevisionPagesContent(pages: seq<seq<RevisionId>>)
    ensures var ds := Each(pages, RevisionPage);
            AllRevisions(ds) == Flatten(pages) && AllMarkers(ds) == [] && AllDevices(ds) == []
  {
    if pages != [] {
      RevisionPagesContent(pages[1..]);
      assert Each(pages, RevisionPage)[1..] == Each(pages[1..], RevisionPage);
      assert Each(pages, RevisionPage)[0] == RevisionPage(pages[0]);
    } else {
      assert Each(pages, RevisionPage) == [];
    }
  }

  lemma {:induction false} MarkerPagesContent(pages: seq<seq<RecordMarker>>)
    ensures var ds := Each(pages, MarkerPage);
            AllMarkers(ds) == Flatten(pages) && AllRevisions(ds) == [] && AllDevices(ds) == []
  {
    if pages != [] {
      MarkerPagesContent(pages[1..]);
      assert Each(pages, MarkerPage)[1..] == Each(pages[1..], MarkerPage);
      assert Each(pages, MarkerPage)[0] == MarkerPage(pages[0]);
    } else {
      assert Each(pages, MarkerPage) == [];
    }
  }

  /** The plan is a lossless partition of the three listings. */
  lemma PlanIsLossless(sizes: Sizes, revisions: seq<RevisionId>, markers: seq<RecordMarker>, devices: seq<SourceDevice>)
    ensures var pages := PlanPages(sizes, revisions, markers, devices);
            AllRevisions(pages) == revisions && AllMarkers(pages) == markers && AllDevices(pages) == devices
  {
    RevisionPhase(sizes, revisions);
    MarkerPhase(sizes, markers);
    DevicePhase(devices);
    hide RevisionPages, MarkerPages, DevicePages, AllRevisions, AllMarkers, AllDevices;
    var a, b, c := RevisionPages(sizes, revisions), MarkerPages(sizes, markers), DevicePages(devices);
    ContentOfThree(a, b, c);
    NothingPlanned();
  }

  lemma RevisionPhase(sizes: Sizes, revisions: seq<RevisionId>)
    ensures var a := RevisionPages(sizes, revisions); AllRevisions(a) == revisions && AllMarkers(a) == [] && AllDevices(a) == []
  {
    hide AllRevisions, AllMarkers, AllDevices, Greedy, Flatten;
    RevisionPagesContent(Greedy([], revisions, RevisionFits(sizes)));
    GreedyIsLossless([], revisions, RevisionFits(sizes));
    assert [] + revisions == revisions;
  }

  lemma MarkerPhase(sizes: Sizes, markers: seq<RecordMarker>)
    ensures var b := MarkerPages(sizes, markers); AllRevisions(b) == [] && AllMarkers(b) == markers && AllDevices(b) == []
  {
    hide AllRevisions, AllMarkers, AllDevices, Greedy, Flatten;
    MarkerPagesContent(Greedy([], markers, MarkerFits(sizes)));
    GreedyIsLossless([], markers, MarkerFits(sizes));
    assert [] + markers == markers;
  }

  lemma DevicePhase(devices: seq<SourceDevice>)
    ensures var c := DevicePages(devices); AllRevisions(c) == [] && AllMarkers(c) == [] && AllDevices(c) == devices
  {
  }

  lemma NothingPlanned()
    ensures AllRevisions([]) == [] && AllMarkers([]) == [] && AllDevices([]) == []
    ensures AllRevisions([RevisionPage([])]) == [] && AllMarkers([RevisionPage([])]) == [] && AllDevices([RevisionPage([])]) == []
  {
  }

  predicate SinglePhase(page: Descriptor) {
    || (page.markers == [] && page.devices == [])
    || (page.revisions == [] && page.devices == [])
    || (page.revisions == [] && page.markers == [])
  }

  ghost predicate WithinLimits(sizes: Sizes, page: Descriptor) {
    && SinglePhase(page)
    && |page.revisions| <= PAGE_ITEMS && |page.markers| <= PAGE_ITEMS && |page.devices| <= MAX_DEVICES
    && forall next: Option<nat> :: ServedBytes(sizes, page.(next := next)) <= MAX_BODY_BYTES
  }

  lemma PagesWithinLimits(sizes: Sizes, ids: seq<RevisionId>, markers: seq<RecordMarker>, devices: seq<SourceDevice>)
    ensures RevisionsFit(sizes, ids) ==> WithinLimits(sizes, RevisionPage(ids))
    ensures MarkersFit(sizes, markers) ==> WithinLimits(sizes, MarkerPage(markers))
    ensures DevicesFit(sizes, devices) && |devices| <= MAX_DEVICES ==> WithinLimits(sizes, DevicePage(devices))
    ensures DevicesFit(sizes, devices) ==> WithinLimits(sizes, RevisionPage([]))
  {
  }

  // ----- The metadata account ---------------------------------------------------------------

  /** A running 64-bit total that latches its first overflow. */
  datatype Account = Account(total: nat, overflow: bool)

  function AddLength(account: Account, length: nat): Account {
    if account.overflow || account.total > MAX_INT64 || length > MAX_INT64 - account.total
    then account.(overflow := true)
    else account.(total := account.total + length)
  }

  function AddField(account: Account, length: nat): Account {
    AddLength(AddLength(account, 8), length)
  }

  function AddFields(account: Account, fields: seq<nat>): Account {
    if fields == [] then account else AddField(AddFields(account, fields[..|fields| - 1]), fields[|fields| - 1])
  }

  /** A record: its tag, its field count and its fields, each prefixed with its length. */
  function AddRecord(account: Account, tag: nat, fields: seq<nat>): Account {
    AddFields(AddLength(AddField(account, tag), 8), fields)
  }

  /** The account shows the true sum, or has latched an overflow because the sum passed 2^63 - 1. */
  predicate Shows(account: Account, sum: nat) {
    if sum <= MAX_INT64 then account == Account(sum, false) else account.overflow
  }

  function Sum(lengths: seq<nat>): nat {
    if lengths == [] then 0 else Sum(lengths[..|lengths| - 1]) + lengths[|lengths| - 1]
  }

  function RecordBytes(tag: nat, fields: seq<nat>): nat {
    16 + tag + 8 * |fields| + Sum(fields)
  }

  lemma {:induction false} AddFieldsShows(account: Account, fields: seq<nat>, before: nat)
    requires Shows(account, before)
    ensures Shows(AddFields(account, fields), before + 8 * |fields| + Sum(fields))
  {
    if fields != [] {
      AddFieldsShows(account, fields[..|fields| - 1], before);
    }
  }

  /** No addition ever wraps: an account shows the exact size of everything charged to it. */
  lemma AddRecordShows(account: Account, tag: nat, fields: seq<nat>, before: nat)
    requires Shows(account, before)
    ensures Shows(AddRecord(account, tag, fields), before + RecordBytes(tag, fields))
  {
    AddFieldsShows(AddLength(AddField(account, tag), 8), fields, before + 16 + tag);
  }

  lemma SumAppend(fields: seq<nat>, last: nat)
    ensures Sum(fields + [last]) == Sum(fields) + last
  {
    assert (fields + [last])[..|fields|] == fields;
  }

  const ROW_FIELDS: seq<nat> := [UUID_BYTES, UUID_BYTES, UUID_BYTES, 32, 8, 8, 8, 8, 8]
  const PAGE_FIELDS: seq<nat> := [UUID_BYTES, 8, TOKEN_BYTES]

  /** The snapshot row, its primary key, its owner-and-request index entry and its lease. */
  function AddBase(account: Account, createBody: nat): Account {
    var row := AddRecord(account, 13, ROW_FIELDS + [createBody]);
    var key := AddRecord(row, 12, [UUID_BYTES]);
    var unique := AddRecord(key, 30, [UUID_BYTES, UUID_BYTES, UUID_BYTES]);
    AddRecord(unique, 25, [UUID_BYTES, 8])
  }

  function BaseBytes(createBody: nat): nat {
    RecordBytes(13, ROW_FIELDS + [createBody]) + RecordBytes(12, [UUID_BYTES])
    + RecordBytes(30, [UUID_BYTES, UUID_BYTES, UUID_BYTES]) + RecordBytes(25, [UUID_BYTES, 8])
  }

  function AddPage(account: Account, body: nat): Account {
    var row := AddRecord(account, 18, PAGE_FIELDS + [body]);
    var key := AddRecord(row, 17, [UUID_BYTES, 8]);
    AddRecord(key, 27, [TOKEN_BYTES, UUID_BYTES, 8])
  }

  function PageBytes(body: nat): nat {
    RecordBytes(18, PAGE_FIELDS + [body]) + RecordBytes(17, [UUID_BYTES, 8]) + RecordBytes(27, [TOKEN_BYTES, UUID_BYTES, 8])
  }

  function AddReference(account: Account): Account {
    AddRecord(AddRecord(account, 26, [UUID_BYTES, UUID_BYTES, 32]), 25, [UUID_BYTES, UUID_BYTES])
  }

  function ReferenceBytes(): nat {
    RecordBytes(26, [UUID_BYTES, UUID_BYTES, 32]) + RecordBytes(25, [UUID_BYTES, UUID_BYTES])
  }

  lemma ChargesShow(account: Account, before: nat, body: nat)
    requires Shows(account, before)
    ensures Shows(AddBase(account, body), before + BaseBytes(body))
    ensures Shows(AddPage(account, body), before + PageBytes(body))
    ensures Shows(AddReference(account), before + ReferenceBytes())
  {
    hide Shows, AddRecord, RecordBytes;
    AddRecordShows(account, 13, ROW_FIELDS + [body], before);
    var row := AddRecord(account, 13, ROW_FIELDS + [body]);
    var size := before + RecordBytes(13, ROW_FIELDS + [body]);
    AddRecordShows(row, 12, [UUID_BYTES], size);
    AddRecordShows(AddRecord(row, 12, [UUID_BYTES]), 30, [UUID_BYTES, UUID_BYTES, UUID_BYTES], size + RecordBytes(12, [UUID_BYTES]));
    AddRecordShows(AddRecord(AddRecord(row, 12, [UUID_BYTES]), 30, [UUID_BYTES, UUID_BYTES, UUID_BYTES]), 25, [UUID_BYTES, 8],
                   size + RecordBytes(12, [UUID_BYTES]) + RecordBytes(30, [UUID_BYTES, UUID_BYTES, UUID_BYTES]));
    var page := AddRecord(account, 18, PAGE_FIELDS + [body]);
    var pageSize := before + RecordBytes(18, PAGE_FIELDS + [body]);
    AddRecordShows(account, 18, PAGE_FIELDS + [body], before);
    AddRecordShows(page, 17, [UUID_BYTES, 8], pageSize);
    AddRecordShows(AddRecord(page, 17, [UUID_BYTES, 8]), 27, [TOKEN_BYTES, UUID_BYTES, 8], pageSize + RecordBytes(17, [UUID_BYTES, 8]));
    AddRecordShows(account, 26, [UUID_BYTES, UUID_BYTES, 32], before);
    AddRecordShows(AddRecord(account, 26, [UUID_BYTES, UUID_BYTES, 32]), 25, [UUID_BYTES, UUID_BYTES],
                   before + RecordBytes(26, [UUID_BYTES, UUID_BYTES, 32]));
  }

  lemma ChargesGrow(small: nat, large: nat)
    requires small <= large
    ensures BaseBytes(small) <= BaseBytes(large) && PageBytes(small) <= PageBytes(large)
  {
    SumAppend(ROW_FIELDS, small);
    SumAppend(ROW_FIELDS, large);
    SumAppend(PAGE_FIELDS, small);
    SumAppend(PAGE_FIELDS, large);
  }

  // ----- The footprint of a plan --------------------------------------------------------------

  const DESCRIPTOR_FRAME := 88

  /** The stored form of a page; a revision is stored as its quoted identifier. */
  function DescriptorBytes(sizes: Sizes, page: Descriptor): nat {
    DESCRIPTOR_FRAME + ArrayBytes(page.revisions, (id: RevisionId) => UUID_BYTES + 2) + ArrayBytes(page.markers, sizes.marker)
    + ArrayBytes(page.devices, sizes.device) + LinkBytes(page.next.Some?)
  }

  function PagesBytes(sizes: Sizes, pages: seq<Descriptor>): nat {
    if pages == [] then 0
    else PagesBytes(sizes, pages[..|pages| - 1]) + PageBytes(DescriptorBytes(sizes, pages[|pages| - 1]))
  }

  function Footprint(sizes: Sizes, createBody: nat, pages: seq<Descriptor>, references: nat): nat {
    BaseBytes(createBody) + PagesBytes(sizes, pages) + references * ReferenceBytes()
  }

  lemma NothingCharged()
    ensures Shows(Account(0, false), 0)
  {
  }

  method MetadataBytes(sizes: Sizes, createBody: nat, pages: seq<Descriptor>, references: nat) returns (account: Account)
    ensures Shows(account, Footprint(sizes, createBody, pages, references))
  {
    hide Shows, AddBase, AddPage, AddReference, BaseBytes, PageBytes, ReferenceBytes, DescriptorBytes;
    account := AddBase(Account(0, false), createBody);
    NothingCharged();
    ChargesShow(Account(0, false), 0, createBody);
    for i := 0 to |pages|
      invariant Shows(account, BaseBytes(createBody) + PagesBytes(sizes, pages[..i]))
    {
      ChargesShow(account, BaseBytes(createBody) + PagesBytes(sizes, pages[..i]), DescriptorBytes(sizes, pages[i]));
      assert pages[..i + 1][..i] == pages[..i];
      account := AddPage(account, DescriptorBytes(sizes, pages[i]));
    }
    assert pages[..|pages|] == pages;
    hide PagesBytes;
    for i := 0 to references
      invariant Shows(account, Footprint(sizes, createBody, pages, i))
    {
      ChargesShow(account, Footprint(sizes, createBody, pages, i), 0);
      FootprintStep(sizes, createBody, pages, i);
      account := AddReference(account);
    }
  }

  lemma FootprintStep(sizes: Sizes, createBody: nat, pages: seq<Descriptor>, references: nat)
    ensures Footprint(sizes, createBody, pages, references + 1) == Footprint(sizes, createBody, pages, references) + ReferenceBytes()
  {
    hide BaseBytes, PagesBytes, ReferenceBytes;
    assert (references + 1) * ReferenceBytes() == references * ReferenceBytes() + ReferenceBytes();
  }

  // ----- Tokens -----------------------------------------------------------------------------------

  /** Each page but the last links to the next page's token. */
  function Linked(pages: seq<Descriptor>, token: nat -> nat): (linked: seq<Descriptor>)
    ensures |linked| == |pages|
  {
    seq(|pages|, i requires 0 <= i < |pages| => pages[i].(next := if i + 1 < |pages| then Some(token(i + 1)) else None))
  }

  predicate Unlinked(pages: seq<Descriptor>) {
    forall i | 0 <= i < |pages| :: pages[i].next.None?
  }

  predicate Distinct(n: nat, token: nat -> nat) {
    forall i, j | 0 <= i < j < n :: token(i) != token(j)
  }

  /** The stored page rows, keyed by token. */
  function Stored(pages: seq<Descriptor>, token: nat -> nat): map<nat, Descriptor> {
    if pages == [] then map[]
    else Stored(pages[..|pages| - 1], token)[token(|pages| - 1) := pages[|pages| - 1]]
  }

  lemma {:induction false} StoredExact(pages: seq<Descriptor>, token: nat -> nat)
    requires Distinct(|pages|, token)
    ensures forall i | 0 <= i < |pages| :: token(i) in Stored(pages, token) && Stored(pages, token)[token(i)] == pages[i]
    ensures Stored(pages, token).Keys == set i | 0 <= i < |pages| :: token(i)
  {
    if pages != [] {
      StoredExact(pages[..|pages| - 1], token);
    }
  }

  /** What a client reads by following next tokens from `at` for at most `steps` pages. */
  function Walk(stored: map<nat, Descriptor>, at: nat, steps: nat): seq<Descriptor>
    decreases steps
  {
    if steps == 0 || at !in stored then []
    else if stored[at].next.None? then [stored[at]]
    else [stored[at]] + Walk(stored, stored[at].next.value, steps - 1)
  }

  /** Page `j` is stored under its token and links to the next token, if there is a next page. */
  predicate ChainedAt(stored: map<nat, Descriptor>, linked: seq<Descriptor>, token: nat -> nat, j: nat) {
    j < |linked| && token(j) in stored && stored[token(j)] == linked[j]
    && linked[j].next == if j + 1 < |linked| then Some(token(j + 1)) else None
  }

  lemma {:induction false} WalkFrom(stored: map<nat, Descriptor>, linked: seq<Descriptor>, token: nat -> nat, i: nat, steps: nat)
    requires i < |linked| && steps >= |linked| - i
    requires forall j: nat | j < |linked| :: ChainedAt(stored, linked, token, j)
    ensures Walk(stored, token(i), steps) == linked[i..]
    decreases |linked| - i
  {
    assert ChainedAt(stored, linked, token, i);
    if i + 1 < |linked| {
      WalkFrom(stored, linked, token, i + 1, steps - 1);
      assert linked[i..] == [linked[i]] + linked[i + 1..];
    } else {
      assert linked[i..] == [linked[i]];
    }
  }

  /** Following tokens from the first page visits every page once, in order, and then stops. */
  lemma WalkVisitsEveryPage(pages: seq<Descriptor>, token: nat -> nat, steps: nat)
    requires pages != [] && Distinct(|pages|, token) && steps >= |pages|
    ensures Walk(Stored(Linked(pages, token), token), token(0), steps) == Linked(pages, token)
    ensures |Stored(Linked(pages, token), token)| == |pages|
  {
    LinkedIsChained(pages, token);
    StoredCount(Linked(pages, token), token);
    hide Walk, Stored, Linked, ChainedAt, Distinct;
    var linked := Linked(pages, token);
    WalkFrom(Stored(linked, token), linked, token, 0, steps);
    assert linked[0..] == linked;
  }

  lemma {:induction false} StoredAt(pages: seq<Descriptor>, token: nat -> nat, j: nat)
    requires Distinct(|pages|, token) && j < |pages|
    ensures token(j) in Stored(pages, token) && Stored(pages, token)[token(j)] == pages[j]
  {
    if j < |pages| - 1 {
      StoredAt(pages[..|pages| - 1], token, j);
      assert token(j) != token(|pages| - 1);
    }
  }

  lemma LinkedIsChained(pages: seq<Descriptor>, token: nat -> nat)
    requires Distinct(|pages|, token)
    ensures var linked := Linked(pages, token); forall j: nat | j < |linked| :: ChainedAt(Stored(linked, token), linked, token, j)
  {
    hide Stored, Distinct;
    var linked := Linked(pages, token);
    forall j: nat | j < |linked|
      ensures ChainedAt(Stored(linked, token), linked, token, j)
    {
      StoredAt(linked, token, j);
    }
  }

  lemma StoredCount(pages: seq<Descriptor>, token: nat -> nat)
    requires Distinct(|pages|, token)
    ensures |Stored(pages, token)| == |pages|
  {
    StoredExact(pages, token);
    DistinctCount(|pages|, token);
    hide Stored, Distinct;
    assert |Stored(pages, token)| == |Stored(pages, token).Keys|;
  }

  lemma {:induction false} DistinctCount(n: nat, token: nat -> nat)
    requires Distinct(n, token)
    ensures |set i | 0 <= i < n :: token(i)| == n
  {
    if n > 0 {
      DistinctCount(n - 1, token);
      assert (set i | 0 <= i < n :: token(i)) == (set i | 0 <= i < n - 1 :: token(i)) + {token(n - 1)};
    }
  }

  lemma {:induction false} LinkingKeepsContent(pages: seq<Descriptor>, token: nat -> nat, linked: seq<Descriptor>)
    requires |linked| == |pages| && forall i | 0 <= i < |pages| :: linked[i].(next := pages[i].next) == pages[i]
    ensures AllRevisions(linked) == AllRevisions(pages)
    ensures AllMarkers(linked) == AllMarkers(pages)
    ensures AllDevices(linked) == AllDevices(pages)
  {
    if pages != [] {
      LinkingKeepsContent(pages[1..], token, linked[1..]);
      assert linked[0].(next := pages[0].next) == pages[0];
    }
  }

  /** The running total of unlinked pages never exceeds the final total of the linked plan. */
  lemma {:induction false} PagesBytesBound(sizes: Sizes, part: seq<Descriptor>, linked: seq<Descriptor>)
    requires |part| <= |linked| && forall i | 0 <= i < |part| :: part[i] == linked[i].(next := None)
    ensures PagesBytes(sizes, part) <= PagesBytes(sizes, linked)
    decreases |linked|
  {
    hide PageBytes;
    if |part| < |linked| {
      PagesBytesBound(sizes, part, linked[..|linked| - 1]);
    } else if part != [] {
      PagesBytesBound(sizes, part[..|part| - 1], linked[..|linked| - 1]);
      var p, l := part[|part| - 1], linked[|linked| - 1];
      assert DescriptorBytes(sizes, p) <= DescriptorBytes(sizes, l);
      ChargesGrow(DescriptorBytes(sizes, p), DescriptorBytes(sizes, l));
    }
  }

  lemma TimesGrow(a: nat, b: nat, c: nat)
    requires a <= b
    ensures a * c <= b * c
  {
  }

  /**
   Early rejection is sound: whatever prefix of the pages and references has been charged, the
   running total is at most the final one, for every create response and every choice of tokens.
   */
  lemma RunningTotalIsLower(sizes: Sizes, part: seq<Descriptor>, pages: seq<Descriptor>, token: nat -> nat,
                            charged: nat, references: nat, createBody: nat)
    requires part <= pages && Unlinked(pages) && charged <= references
    ensures Footprint(sizes, 0, part, charged) <= Footprint(sizes, createBody, Linked(pages, token), references)
  {
    PagesBytesBound(sizes, part, Linked(pages, token));
    ChargesGrow(0, createBody);
    hide ReferenceBytes, BaseBytes, PagesBytes, Linked;
    TimesGrow(charged, references, ReferenceBytes());
  }

  // ----- Building the plan ------------------------------------------------------------------------

  function PlanBytes(sizes: Sizes, revisions: seq<RevisionId>, markers: seq<RecordMarker>, devices: seq<SourceDevice>): nat {
    Footprint(sizes, 0, PlanPages(sizes, revisions, markers, devices), |revisions|)
  }

  lemma PagesBytesAppend(sizes: Sizes, pages: seq<Descriptor>, page: Descriptor)
    ensures PagesBytes(sizes, pages + [page]) == PagesBytes(sizes, pages) + PageBytes(DescriptorBytes(sizes, page))
  {
    assert (pages + [page])[..|pages|] == pages;
  }

  /** Charging a page or a reference, and whether the running total still fits. */
  method ChargePage(sizes: Sizes, lower: Account, pages: seq<Descriptor>, references: nat, page: Descriptor, available: nat)
    returns (after: Account, fits: bool)
    requires available <= MAX_INT64 && Shows(lower, Footprint(sizes, 0, pages, references))
    ensures Shows(after, Footprint(sizes, 0, pages + [page], references))
    ensures fits == (Footprint(sizes, 0, pages + [page], references) <= available)
  {
    hide AddPage, BaseBytes, PagesBytes, PageBytes, ReferenceBytes, DescriptorBytes;
    after := AddPage(lower, DescriptorBytes(sizes, page));
    ChargesShow(lower, Footprint(sizes, 0, pages, references), DescriptorBytes(sizes, page));
    PagesBytesAppend(sizes, pages, page);
    fits := !after.overflow && after.total <= available;
  }

  method ChargeReference(sizes: Sizes, lower: Account, pages: seq<Descriptor>, references: nat, available: nat)
    returns (after: Account, fits: bool)
    requires available <= MAX_INT64 && Shows(lower, Footprint(sizes, 0, pages, references))
    ensures Shows(after, Footprint(sizes, 0, pages, references + 1))
    ensures fits == (Footprint(sizes, 0, pages, references + 1) <= available)
  {
    hide AddReference, BaseBytes, PagesBytes, ReferenceBytes;
    after := AddReference(lower);
    ChargesShow(lower, Footprint(sizes, 0, pages, references), 0);
    FootprintStep(sizes, 0, pages, references);
    fits := !after.overflow && after.total <= available;
  }

  lemma FootprintGrows(sizes: Sizes, part: seq<Descriptor>, pages: seq<Descriptor>, charged: nat, references: nat)
    requires part <= pages && charged <= references
    ensures Footprint(sizes, 0, part, charged) <= Footprint(sizes, 0, pages, references)
    decreases |pages|
  {
    hide BaseBytes, ReferenceBytes, PageBytes;
    if |part| < |pages| {
      FootprintGrows(sizes, part, pages[..|pages| - 1], charged, references);
    } else {
      assert part == pages;
      TimesGrow(charged, references, ReferenceBytes());
    }
  }

  /** The next item joins the open page. */
  lemma GreedyTakes<T>(page: seq<T>, all: seq<T>, i: nat, fits: seq<T> -> bool)
    requires i < |all| && (fits(page + [all[i]]) || page == [])
    ensures Greedy(page, all[i..], fits) == Greedy(page + [all[i]], all[i + 1..], fits)
  {
    assert all[i..][1..] == all[i + 1..];
  }

  /** The open page is closed, and the next item starts a new one. */
  lemma GreedyCloses<T>(done: seq<seq<T>>, page: seq<T>, all: seq<T>, i: nat, fits: seq<T> -> bool)
    requires i < |all| && page != [] && !fits(page + [all[i]])
    ensures done + Greedy(page, all[i..], fits) == (done + [page]) + Greedy([all[i]], all[i + 1..], fits)
  {
    assert all[i..][1..] == all[i + 1..];
    var rest := Greedy([all[i]], all[i + 1..], fits);
    assert done + ([page] + rest) == (done + [page]) + rest;
  }

  lemma GreedyEnds<T>(done: seq<seq<T>>, page: seq<T>, all: seq<T>, fits: seq<T> -> bool)
    ensures done + Greedy(page, all[|all|..], fits) == if page == [] then done else done + [page]
  {
  }

  lemma EachAppend<S, T>(items: seq<S>, item: S, f: S -> T)
    ensures Each(items + [item], f) == Each(items, f) + [f(item)]
  {
  }

  lemma EachConcat<S, T>(a: seq<S>, b: seq<S>, f: S -> T)
    ensures Each(a + b, f) == Each(a, f) + Each(b, f)
  {
  }

  /** The revision phase: page the heads and charge a reference for each of them. */
  method PlanRevisions(sizes: Sizes, revisions: seq<RevisionId>, start: Account, available: nat)
    returns (r: Result<seq<Descriptor>>, lower: Account)
    requires available <= MAX_INT64 && Shows(start, Footprint(sizes, 0, [], 0)) && Footprint(sizes, 0, [], 0) <= available
    ensures r.Ok? ==> r.value == RevisionPages(sizes, revisions) && SinglesFit(revisions, RevisionFits(sizes))
    ensures r.Ok? ==> Shows(lower, Footprint(sizes, 0, r.value, |revisions|)) && Footprint(sizes, 0, r.value, |revisions|) <= available
    ensures r.Err? ==> r.error == InternalError || r.error == LimitExceeded
    ensures r == Err(InternalError) ==> !SinglesFit(revisions, RevisionFits(sizes))
    ensures r == Err(LimitExceeded) ==> Footprint(sizes, 0, RevisionPages(sizes, revisions), |revisions|) > available
  {
    hide Shows, Footprint, RevisionsFit, Greedy, Each;
    ghost var fits := RevisionFits(sizes);
    ghost var done: seq<seq<RevisionId>> := [];
    var page: seq<RevisionId> := [];
    var descriptors: seq<Descriptor> := [];
    var charged: bool;
    lower := start;
    for i := 0 to |revisions|
      invariant done + Greedy(page, revisions[i..], fits) == Greedy([], revisions, fits)
      invariant descriptors == Each(done, RevisionPage)
      invariant Shows(lower, Footprint(sizes, 0, descriptors, i)) && Footprint(sizes, 0, descriptors, i) <= available
      invariant SinglesFit(revisions[..i], fits)
      invariant page == [] <==> i == 0
    {
      var id := revisions[i];
      assert revisions[..i + 1] == revisions[..i] + [id];
      if !RevisionsFit(sizes, page + [id]) {
        if page == [] {
          assert !fits([revisions[i]]) by { assert page + [id] == [revisions[i]]; }
          return Err(InternalError), lower;
        }
        GreedyCloses(done, page, revisions, i, fits);
        EachAppend(done, page, RevisionPage);
        lower, charged := ChargePage(sizes, lower, descriptors, i, RevisionPage(page), available);
        ghost var rest := Greedy([id], revisions[i + 1..], fits);
        if !charged {
          EachConcat(done + [page], rest, RevisionPage);
          FootprintGrows(sizes, descriptors + [RevisionPage(page)], RevisionPages(sizes, revisions), i, |revisions|);
          return Err(LimitExceeded), lower;
        }
        descriptors := descriptors + [RevisionPage(page)];
        done := done + [page];
        page := [id];
        if !RevisionsFit(sizes, page) {
          assert !fits([revisions[i]]);
          return Err(InternalError), lower;
        }
      } else {
        GreedyTakes(page, revisions, i, fits);
        page := page + [id];
      }
      assert fits([id]) by { SingleFits(sizes, page, id); }
      lower, charged := ChargeReference(sizes, lower, descriptors, i, available);
      if !charged {
        EachConcat(done, Greedy(page, revisions[i + 1..], fits), RevisionPage);
        FootprintGrows(sizes, descriptors, RevisionPages(sizes, revisions), i + 1, |revisions|);
        return Err(LimitExceeded), lower;
      }
    }
    assert revisions[..|revisions|] == revisions;
    GreedyEnds(done, page, revisions, fits);
    if page != [] {
      EachAppend(done, page, RevisionPage);
      lower, charged := ChargePage(sizes, lower, descriptors, |revisions|, RevisionPage(page), available);
      descriptors := descriptors + [RevisionPage(page)];
      if !charged {
        return Err(LimitExceeded), lower;
      }
    }
    return Ok(descriptors), lower;
  }

  lemma TotalAppend<T>(items: seq<T>, item: T, size: T -> nat)
    ensures Total(items + [item], size) == Total(items, size) + size(item)
  {
    assert (items + [item])[..|items|] == items;
  }

  lemma SingleFits(sizes: Sizes, page: seq<RevisionId>, id: RevisionId)
    requires page != [] && page[|page| - 1] == id && RevisionsFit(sizes, page)
    ensures RevisionsFit(sizes, [id])
  {
    assert page == page[..|page| - 1] + [id] && [id] == [] + [id];
    TotalAppend(page[..|page| - 1], id, sizes.revision);
    TotalAppend([], id, sizes.revision);
  }

  /** The marker phase; only a first marker is ever measured on its own. */
  method PlanMarkers(sizes: Sizes, markers: seq<RecordMarker>, prior: seq<Descriptor>, references: nat, start: Account, available: nat)
    returns (r: Result<seq<Descriptor>>, lower: Account)
    requires available <= MAX_INT64 && Shows(start, Footprint(sizes, 0, prior, references))
    requires Footprint(sizes, 0, prior, references) <= available
    ensures r.Ok? ==> r.value == prior + MarkerPages(sizes, markers) && FirstFits(markers, MarkerFits(sizes)) && MarkersReadable(sizes, markers)
    ensures r.Ok? ==> Shows(lower, Footprint(sizes, 0, r.value, references)) && Footprint(sizes, 0, r.value, references) <= available
    ensures r.Err? ==> r.error == InternalError || r.error == LimitExceeded
    ensures r == Err(InternalError) ==> !FirstFits(markers, MarkerFits(sizes)) || !MarkersReadable(sizes, markers)
    ensures r == Err(LimitExceeded) ==> Footprint(sizes, 0, prior + MarkerPages(sizes, markers), references) > available
  {
    hide Shows, Footprint, MarkersFit, Greedy, Each;
    ghost var fits := MarkerFits(sizes);
    ghost var done: seq<seq<RecordMarker>> := [];
    var page: seq<RecordMarker> := [];
    var descriptors := prior;
    var charged: bool;
    lower := start;
    for i := 0 to |markers|
      invariant done + Greedy(page, markers[i..], fits) == Greedy([], markers, fits)
      invariant descriptors == prior + Each(done, MarkerPage)
      invariant Shows(lower, Footprint(sizes, 0, descriptors, references)) && Footprint(sizes, 0, descriptors, references) <= available
      invariant page == [] <==> i == 0
      invariant i > 0 ==> FirstFits(markers, fits)
      invariant MarkersReadable(sizes, markers[..i])
    {
      var marker := markers[i];
      if sizes.marker(marker) > MAX_BODY_BYTES {
        return Err(InternalError), lower;
      }
      assert markers[..i + 1] == markers[..i] + [marker];
      if !MarkersFit(sizes, page + [marker]) {
        if page == [] {
          assert !fits([markers[0]]) by { assert page + [marker] == [markers[0]]; }
          return Err(InternalError), lower;
        }
        GreedyCloses(done, page, markers, i, fits);
        EachAppend(done, page, MarkerPage);
        lower, charged := ChargePage(sizes, lower, descriptors, references, MarkerPage(page), available);
        if !charged {
          EachConcat(done + [page], Greedy([marker], markers[i + 1..], fits), MarkerPage);
          FootprintGrows(sizes, descriptors + [MarkerPage(page)], prior + MarkerPages(sizes, markers), references, references);
          return Err(LimitExceeded), lower;
        }
        descriptors := descriptors + [MarkerPage(page)];
        done := done + [page];
        page := [marker];
      } else {
        assert page == [] ==> page + [marker] == [markers[0]];
        GreedyTakes(page, markers, i, fits);
        page := page + [marker];
      }
    }
    assert markers[..|markers|] == markers;
    GreedyEnds(done, page, markers, fits);
    if page != [] {
      EachAppend(done, page, MarkerPage);
      lower, charged := ChargePage(sizes, lower, descriptors, references, MarkerPage(page), available);
      descriptors := descriptors + [MarkerPage(page)];
      assert descriptors == prior + Each(done + [page], MarkerPage);
      if !charged {
        return Err(LimitExceeded), lower;
      }
    }
    return Ok(descriptors), lower;
  }

  /** A stored marker row over the body limit is not read at all. */
  predicate MarkersReadable(sizes: Sizes, markers: seq<RecordMarker>) {
    forall i | 0 <= i < |markers| :: sizes.marker(markers[i]) <= MAX_BODY_BYTES
  }

  predicate FirstFits<T>(items: seq<T>, fits: seq<T> -> bool) {
    items == [] || fits([items[0]])
  }

  /** Exactly when a plan is built. */
  predicate Accepted(sizes: Sizes, revisions: seq<RevisionId>, markers: seq<RecordMarker>, devices: seq<SourceDevice>, available: int) {
    && SinglesFit(revisions, RevisionFits(sizes))
    && FirstFits(markers, MarkerFits(sizes)) && MarkersReadable(sizes, markers)
    && (devices == [] || (|devices| <= MAX_DEVICES && DevicesFit(sizes, devices)))
    && PlanBytes(sizes, revisions, markers, devices) <= available
  }

  lemma FeasibleIsReadable(sizes: Sizes, revisions: seq<RevisionId>, markers: seq<RecordMarker>, devices: seq<SourceDevice>)
    ensures Feasible(sizes, revisions, markers, devices) ==> FirstFits(markers, MarkerFits(sizes)) && MarkersReadable(sizes, markers)
  {
    if Feasible(sizes, revisions, markers, devices) {
      forall i | 0 <= i < |markers|
        ensures sizes.marker(markers[i]) <= MAX_BODY_BYTES
      {
        assert MarkerFits(sizes)([markers[i]]);
        TotalAppend([], markers[i], sizes.marker);
        assert [] + [markers[i]] == [markers[i]];
      }
    }
  }

  lemma PlanIsUnlinked(sizes: Sizes, revisions: seq<RevisionId>, markers: seq<RecordMarker>, devices: seq<SourceDevice>)
    ensures Unlinked(PlanPages(sizes, revisions, markers, devices))
  {
    assert Unlinked(RevisionPages(sizes, revisions));
    assert Unlinked(MarkerPages(sizes, markers));
  }

  lemma RejectionIsFinal(sizes: Sizes, pages: seq<Descriptor>, token: nat -> nat, references: nat, available: int)
    requires Unlinked(pages)
    ensures Footprint(sizes, 0, pages, references) > available ==>
              forall createBody: nat :: Footprint(sizes, createBody, Linked(pages, token), references) > available
  {
    forall createBody: nat
      ensures Footprint(sizes, 0, pages, references) <= Footprint(sizes, createBody, Linked(pages, token), references)
    {
      RunningTotalIsLower(sizes, pages, pages, token, references, references, createBody);
    }
  }

  lemma BaseIsCharged(sizes: Sizes, available: nat)
    requires available <= MAX_INT64
    ensures var lower := AddBase(Account(0, false), 0);
            Shows(lower, Footprint(sizes, 0, [], 0))
            && ((!lower.overflow && lower.total <= available) == (Footprint(sizes, 0, [], 0) <= available))
  {
    hide AddBase, BaseBytes;
    ChargesShow(Account(0, false), 0, 0);
  }

  /**
   Building a plan from the ordered listings.  It is built exactly when it is accepted; a
   `LimitExceeded` answer is given only when the final footprint would exceed the budget as well.
   */
  method BuildPlan(sizes: Sizes, revisions: seq<RevisionId>, markers: seq<RecordMarker>, devices: seq<SourceDevice>,
                   token: nat -> nat, available: int) returns (r: Result<seq<Descriptor>>)
    requires available <= MAX_INT64
    ensures r.Ok? <==> Accepted(sizes, revisions, markers, devices, available)
    ensures r.Ok? ==> r.value == Linked(PlanPages(sizes, revisions, markers, devices), token)
    ensures r.Err? ==> r.error == LimitExceeded || r.error == InternalError
    ensures r == Err(LimitExceeded) ==>
              forall createBody: nat ::
                Footprint(sizes, createBody, Linked(PlanPages(sizes, revisions, markers, devices), token), |revisions|) > available
    ensures r == Err(InternalError) ==> !Feasible(sizes, revisions, markers, devices)
  {
    hide Shows, Footprint, DevicesFit, MarkersFit, RevisionsFit, RevisionPages, MarkerPages;
    ghost var plan := PlanPages(sizes, revisions, markers, devices);
    PlanIsUnlinked(sizes, revisions, markers, devices);
    RejectionIsFinal(sizes, plan, token, |revisions|, available);
    if available < 0 {
      return Err(LimitExceeded);
    }
    var lower := AddBase(Account(0, false), 0);
    var fits: bool := !lower.overflow && lower.total <= available;
    BaseIsCharged(sizes, available);
    if !fits {
      FootprintGrows(sizes, [], plan, 0, |revisions|);
      return Err(LimitExceeded);
    }
    var phase: Result<seq<Descriptor>>;
    phase, lower := PlanRevisions(sizes, revisions, lower, available);
    if phase.Err? {
      FootprintGrows(sizes, RevisionPages(sizes, revisions), plan, |revisions|, |revisions|);
      return Err(phase.error);
    }
    ghost var both := RevisionPages(sizes, revisions) + MarkerPages(sizes, markers);
    FeasibleIsReadable(sizes, revisions, markers, devices);
    phase, lower := PlanMarkers(sizes, markers, phase.value, |revisions|, lower, available);
    if phase.Err? {
      FootprintGrows(sizes, both, plan, |revisions|, |revisions|);
      return Err(phase.error);
    }
    var descriptors := phase.value;
    if |devices| > MAX_DEVICES {
      return Err(InternalError);
    }
    if devices != [] {
      if !DevicesFit(sizes, devices) {
        return Err(InternalError);
      }
      lower, fits := ChargePage(sizes, lower, descriptors, |revisions|, DevicePage(devices), available);
      descriptors := descriptors + [DevicePage(devices)];
      if !fits {
        return Err(LimitExceeded);
      }
    }
    if descriptors == [] {
      lower, fits := ChargePage(sizes, lower, descriptors, |revisions|, RevisionPage([]), available);
      descriptors := descriptors + [RevisionPage([])];
      assert plan == descriptors;
      if !fits {
        return Err(LimitExceeded);
      }
    }
    assert plan == descriptors;
    assert PlanBytes(sizes, revisions, markers, devices) == Footprint(sizes, 0, descriptors, |revisions|);
    return Ok(Linked(descriptors, token));
  }

  // ----- Served bodies --------------------------------------------------------------------------

  /** A greedy page fits unless it is one item on its own. */
  lemma {:induction false} GreedyPagesFitOrSingle<T>(page: seq<T>, items: seq<T>, fits: seq<T> -> bool)
    requires page == [] || fits(page) || |page| == 1
    ensures forall p | p in Greedy(page, items, fits) :: fits(p) || |p| == 1
    decreases |items|
  {
    if items != [] {
      if fits(page + [items[0]]) || page == [] {
        GreedyPagesFitOrSingle(page + [items[0]], items[1..], fits);
      } else {
        GreedyPagesFitOrSingle([items[0]], items[1..], fits);
      }
    }
  }

  lemma {:induction false} TotalHolds<T>(items: seq<T>, size: T -> nat, i: nat)
    requires i < |items|
    ensures size(items[i]) <= Total(items, size)
  {
    if i < |items| - 1 {
      TotalHolds(items[..|items| - 1], size, i);
    }
  }

  lemma MarkerPageBoundsItems(sizes: Sizes, markers: seq<RecordMarker>, i: nat)
    requires i < |markers| && WithinLimits(sizes, MarkerPage(markers))
    ensures WithinLimits(sizes, MarkerPage([markers[i]]))
  {
    TotalHolds(markers, sizes.marker, i);
    TotalAppend([], markers[i], sizes.marker);
    assert [] + [markers[i]] == [markers[i]];
    forall next: Option<nat>
      ensures ServedBytes(sizes, MarkerPage([markers[i]]).(next := next)) <= MAX_BODY_BYTES
    {
      assert ServedBytes(sizes, MarkerPage(markers).(next := next)) <= MAX_BODY_BYTES;
    }
  }

  lemma {:induction false} FlattenHolds<T>(pages: seq<seq<T>>, item: T) returns (p: nat, i: nat)
    requires item in Flatten(pages)
    ensures p < |pages| && i < |pages[p]| && pages[p][i] == item
  {
    if item in pages[0] {
      p := 0;
      i :| 0 <= i < |pages[0]| && pages[0][i] == item;
    } else {
      p, i := FlattenHolds(pages[1..], item);
      p := p + 1;
    }
  }

  /**
   The planner measures a marker on its own only when it is the first, so an accepted plan
   serves every page within 4 MiB exactly when each marker on its own would be.
   */
  lemma ServedWithinLimitsIff(sizes: Sizes, revisions: seq<RevisionId>, markers: seq<RecordMarker>, devices: seq<SourceDevice>, available: int)
    requires Accepted(sizes, revisions, markers, devices, available) && devices != []
    ensures (forall page | page in PlanPages(sizes, revisions, markers, devices) :: WithinLimits(sizes, page))
       <==> (forall i | 0 <= i < |markers| :: WithinLimits(sizes, MarkerPage([markers[i]])))
  {
    if forall page | page in PlanPages(sizes, revisions, markers, devices) :: WithinLimits(sizes, page) {
      ItemsWithinLimits(sizes, revisions, markers, devices);
    }
    if forall i | 0 <= i < |markers| :: WithinLimits(sizes, MarkerPage([markers[i]])) {
      MarkerPagesWithinLimits(sizes, markers);
      RevisionPagesWithinLimits(sizes, revisions);
      PagesWithinLimits(sizes, [], [], devices);
    }
  }

  lemma RevisionPagesWithinLimits(sizes: Sizes, revisions: seq<RevisionId>)
    requires SinglesFit(revisions, RevisionFits(sizes))
    ensures forall page | page in RevisionPages(sizes, revisions) :: WithinLimits(sizes, page)
  {
    hide WithinLimits;
    var rp := Greedy([], revisions, RevisionFits(sizes));
    GreedyPagesFit([], revisions, RevisionFits(sizes));
    forall page | page in RevisionPages(sizes, revisions)
      ensures WithinLimits(sizes, page)
    {
      var i :| 0 <= i < |rp| && page == RevisionPage(rp[i]);
      assert RevisionFits(sizes)(rp[i]);
      PagesWithinLimits(sizes, rp[i], [], []);
    }
  }

  lemma MarkerPagesWithinLimits(sizes: Sizes, markers: seq<RecordMarker>)
    requires forall i | 0 <= i < |markers| :: WithinLimits(sizes, MarkerPage([markers[i]]))
    ensures forall page | page in MarkerPages(sizes, markers) :: WithinLimits(sizes, page)
  {
    hide WithinLimits;
    var mp := Greedy([], markers, MarkerFits(sizes));
    GreedyPagesFitOrSingle([], markers, MarkerFits(sizes));
    GreedyIsLossless([], markers, MarkerFits(sizes));
    assert [] + markers == markers;
    forall page | page in MarkerPages(sizes, markers)
      ensures WithinLimits(sizes, page)
    {
      hide Greedy, Flatten;
      var i :| 0 <= i < |mp| && page == MarkerPage(mp[i]);
      if |mp[i]| == 1 {
        FlattenContains(mp, i, 0);
        var k :| 0 <= k < |markers| && markers[k] == mp[i][0];
        assert mp[i] == [markers[k]];
      } else {
        assert MarkerFits(sizes)(mp[i]);
        PagesWithinLimits(sizes, [], mp[i], []);
      }
    }
  }

  lemma ItemsWithinLimits(sizes: Sizes, revisions: seq<RevisionId>, markers: seq<RecordMarker>, devices: seq<SourceDevice>)
    requires forall page | page in PlanPages(sizes, revisions, markers, devices) :: WithinLimits(sizes, page)
    ensures forall i | 0 <= i < |markers| :: WithinLimits(sizes, MarkerPage([markers[i]]))
  {
    hide WithinLimits;
    var mp := Greedy([], markers, MarkerFits(sizes));
    GreedyIsLossless([], markers, MarkerFits(sizes));
    assert [] + markers == markers;
    forall i | 0 <= i < |markers|
      ensures WithinLimits(sizes, MarkerPage([markers[i]]))
    {
      var p, k := FlattenHolds(mp, markers[i]);
      assert MarkerPages(sizes, markers)[p] == MarkerPage(mp[p]);
      assert MarkerPage(mp[p]) in PlanPages(sizes, revisions, markers, devices);
      MarkerPageBoundsItems(sizes, mp[p], k);
    }
  }

  // ----- Every accepted plan is served ----------------------------------------------------------

  // The members of a page around its lists, a marker around its frontier, and one frontier entry with its comma.
  const PAGE_FRAME := 242
  const MARKER_FRAME := 248
  const ENTRY_BYTES := 86
  const MAX_ENTRIES := 64

  /** The sizes the encodings have: identifiers, counters and tokens have bounded text. */
  ghost predicate EncodedSizes(sizes: Sizes) {
    && sizes.fixed <= PAGE_FRAME
    && forall m: RecordMarker :: sizes.marker(m) <= MARKER_FRAME + ENTRY_BYTES * |m.marker.frontier|
  }

  predicate FrontiersBounded(markers: seq<RecordMarker>) {
    forall i | 0 <= i < |markers| :: |markers[i].marker.frontier| <= MAX_ENTRIES
  }

  lemma BoundedMarkerFits(sizes: Sizes, m: RecordMarker)
    requires EncodedSizes(sizes) && |m.marker.frontier| <= MAX_ENTRIES
    ensures MarkersFit(sizes, [m])
  {
    TotalAppend([], m, sizes.marker);
    assert [] + [m] == [m];
  }

  /** Every page of an accepted plan is single-phase, within its item limits and served in at most 4 MiB. */
  lemma AcceptedIsServable(sizes: Sizes, revisions: seq<RevisionId>, markers: seq<RecordMarker>, devices: seq<SourceDevice>, available: int)
    requires Accepted(sizes, revisions, markers, devices, available) && EncodedSizes(sizes) && FrontiersBounded(markers)
    ensures forall page | page in PlanPages(sizes, revisions, markers, devices) :: WithinLimits(sizes, page)
  {
    hide WithinLimits, EncodedSizes, MarkersFit, RevisionsFit, DevicesFit;
    forall i | 0 <= i < |markers|
      ensures WithinLimits(sizes, MarkerPage([markers[i]]))
    {
      BoundedMarkerFits(sizes, markers[i]);
      PagesWithinLimits(sizes, [], [markers[i]], []);
    }
    MarkerPagesWithinLimits(sizes, markers);
    RevisionPagesWithinLimits(sizes, revisions);
    PagesWithinLimits(sizes, [], [], devices);
    EmptyPageFits(sizes);
    hide RevisionPages, MarkerPages;
  }

  lemma EmptyPageFits(sizes: Sizes)
    requires EncodedSizes(sizes)
    ensures WithinLimits(sizes, RevisionPage([]))
  {
  }

  lemma {:induction false} FlattenContains<T>(pages: seq<seq<T>>, p: nat, i: nat)
    requires p < |pages| && i < |pages[p]|
    ensures pages[p][i] in Flatten(pages)
  {
    if p > 0 {
      FlattenContains(pages[1..], p - 1, i);
    }
  }
}
