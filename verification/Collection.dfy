/**
 Retention: which revision bytes a collection pass may drop, and the frontier
 marker that replaces them.
 */
module Collection {
  import opened Outcomes
  import opened Uint64
  import opened Vectors
  import opened Ordering
  import opened StoreTables

  const MINIMUM_RETENTION_MS: nat := 90 * 24 * 60 * 60 * 1000
  const CANDIDATE_BATCH := 256
  const RECORD_BATCH := 32

  // ----- Selection --------------------------------------------------------------

  /** Candidates of `record` accepted at least ninety days of uptime ago. */
  function AgedCandidates(t: Tables, record: RecordId): set<RevisionId> {
    if t.uptime < MINIMUM_RETENTION_MS then
      {}
    else
      set r | r in t.candidates && r in t.revisions && RecordOf(t.revisions, r) == record
              && Retained(t.revisions[r]) && t.revisions[r].accepted <= t.uptime - MINIMUM_RETENTION_MS
  }

  function AgeKey(t: Tables, r: RevisionId): Key {
    if r in t.revisions then Key(t.revisions[r].accepted, r) else Key(0, r)
  }

  function AgeKeys(t: Tables, ids: set<RevisionId>): set<Key> {
    set r | r in ids :: AgeKey(t, r)
  }

  function Minors(keys: seq<Key>): seq<nat> {
    seq(|keys|, i requires 0 <= i < |keys| => keys[i].minor)
  }

  function Prefix<T>(s: seq<T>, limit: nat): seq<T> {
    if |s| <= limit then s else s[..limit]
  }

  /** The oldest aged candidates first, at most one batch of them. */
  ghost function CandidateBatch(t: Tables, record: RecordId): seq<RevisionId> {
    Prefix(Minors(Listing(AgeKeys(t, AgedCandidates(t, record)))), CANDIDATE_BATCH)
  }

  predicate Acknowledged(devices: map<DeviceId, Device>, barrier: Cursor) {
    forall d | d in devices && !devices[d].revoked :: barrier <= devices[d].ack
  }

  /** A head that may witness a new marker: authorized, above the old frontier and above every other head. */
  predicate IsWitness(t: Tables, record: RecordId, w: RevisionId) {
    && w in HeadsOf(t.revisions, t.heads, record)
    && t.revisions[w].metadata.authenticator.Some?
    && (record in t.markers ==> Dominates(VectorOf(t.revisions, w), t.markers[record].frontier))
    && (forall h | h in HeadsOf(t.revisions, t.heads, record) && h != w :: Dominates(VectorOf(t.revisions, w), VectorOf(t.revisions, h)))
  }

  lemma WitnessUnique(t: Tables, record: RecordId, v: RevisionId, w: RevisionId)
    requires IsWitness(t, record, v) && IsWitness(t, record, w)
    ensures v == w
  {
    if v != w {
      DominatesIsStrictOrder(VectorOf(t.revisions, v), VectorOf(t.revisions, w), map[]);
    }
  }

  ghost function WitnessFor(t: Tables, record: RecordId): (w: Option<RevisionId>)
    ensures w.Some? ==> IsWitness(t, record, w.value)
    ensures w.None? ==> forall h :: !IsWitness(t, record, h)
  {
    if h: RevisionId :| IsWitness(t, record, h) then Some(h) else None
  }

  predicate WitnessCovers(t: Tables, w: RevisionId, c: RevisionId) {
    && w in t.revisions && c in t.revisions
    && (if c == w then t.revisions[w].metadata.tombstone else Dominates(VectorOf(t.revisions, w), VectorOf(t.revisions, c)))
  }

  predicate MarkerCovers(t: Tables, record: RecordId, c: RevisionId) {
    && record in t.markers && c in t.revisions
    && (if c == t.markers[record].witnessId && VectorOf(t.revisions, c) == t.markers[record].frontier then
          t.revisions[c].metadata.tombstone
        else
          Dominates(t.markers[record].frontier, VectorOf(t.revisions, c)))
  }

  function Filter(s: seq<RevisionId>, keep: RevisionId -> bool): seq<RevisionId> {
    if s == [] then []
    else if keep(s[0]) then [s[0]] + Filter(s[1..], keep)
    else Filter(s[1..], keep)
  }

  lemma {:induction false} FilterKeeps(s: seq<RevisionId>, keep: RevisionId -> bool)
    ensures forall r :: r in Filter(s, keep) <==> r in s && keep(r)
  {
    if s != [] {
      FilterKeeps(s[1..], keep);
      assert forall r :: r in s <==> r == s[0] || r in s[1..];
    }
  }

  lemma FilterStep(s: seq<RevisionId>, keep: RevisionId -> bool, i: nat, kept: seq<RevisionId>)
    requires i < |s| && Filter(s, keep) == kept + Filter(s[i..], keep)
    ensures Filter(s, keep) == (if keep(s[i]) then kept + [s[i]] else kept) + Filter(s[i + 1..], keep)
  {
    assert s[i..][0] == s[i] && s[i..][1..] == s[i + 1..];
  }

  // ----- The three writes of a collection ---------------------------------------

  /** Write the record's marker from its witness and log it at the next cursor. */
  function AdvanceMarker(t: Tables, record: RecordId, w: RevisionId): Tables
    requires w in t.revisions && t.revisions[w].metadata.authenticator.Some? && record in t.barriers
  {
    var marker := Marker(w, VectorOf(t.revisions, w), t.revisions[w].metadata.authenticator.value, t.barriers[record], t.cursor + 1);
    t.(cursor := t.cursor + 1,
       markers := t.markers[record := marker],
       origins := t.origins[t.cursor + 1 := CollectionMarker],
       changes := t.changes[t.cursor + 1 := MarkerChange(record, marker)])
  }

  /** Drop an object unless its revision is retained or a snapshot still references it. */
  function ReleaseObject(t: Tables, r: RevisionId): Tables {
    if r !in t.revisions || Retained(t.revisions[r]) || Pinned(t.snapshots, r) then t
    else t.(objects := t.objects - {t.revisions[r].hash})
  }

  function Max(a: nat, b: nat): nat { if a < b then b else a }

  /** Collect one revision: its bytes, change row, head and queue entry go, its row stays. */
  function CollectOne(t: Tables, r: RevisionId, generation: nat): Tables
    requires r in t.revisions
  {
    var row := t.revisions[r];
    ReleaseObject(
      t.(revisions := t.revisions[r := row.(collected := Some(generation))],
         heads := t.heads - {r},
         candidates := t.candidates - {r},
         changes := t.changes - {row.cursor},
         floor := Max(t.floor, row.cursor)), r)
  }

  function CollectAll(t: Tables, selected: seq<RevisionId>, generation: nat): Tables
    requires forall r | r in selected :: r in t.revisions
    decreases |selected|
  {
    if selected == [] then t
    else CollectAll(CollectOne(t, selected[0], generation), selected[1..], generation)
  }

  function CloseRecord(t: Tables, record: RecordId, generation: nat): Tables {
    t.(collectionGeneration := generation,
       barriers := if HasCandidate(t.revisions, t.candidates, record) then t.barriers else t.barriers - {record})
  }

  // ----- One record and one batch ------------------------------------------------

  datatype Plan = Skip | Prune(selected: seq<RevisionId>) | Advance(w: RevisionId, selected: seq<RevisionId>)

  /** What the witness, if there is one, covers of the batch. */
  ghost function ByWitness(t: Tables, record: RecordId): seq<RevisionId> {
    var w := WitnessFor(t, record);
    if w.None? then [] else Filter(CandidateBatch(t, record), (c: RevisionId) => WitnessCovers(t, w.value, c))
  }

  /** What the record's marker, if it has one, covers of the batch. */
  ghost function ByMarker(t: Tables, record: RecordId): seq<RevisionId> {
    Filter(CandidateBatch(t, record), (c: RevisionId) => MarkerCovers(t, record, c))
  }

  ghost function PlanFor(t: Tables, record: RecordId): Plan {
    if record !in t.barriers || !Acknowledged(t.devices, t.barriers[record]) then Skip
    else if ByWitness(t, record) != [] && t.cursor != MAX_UINT64 then Advance(WitnessFor(t, record).value, ByWitness(t, record))
    else if ByMarker(t, record) == [] then Skip
    else Prune(ByMarker(t, record))
  }

  lemma PlanSelectsRows(t: Tables, record: RecordId)
    ensures !PlanFor(t, record).Skip? ==> forall r | r in PlanFor(t, record).selected :: r in t.revisions
  {
    var batch := CandidateBatch(t, record);
    var w := WitnessFor(t, record);
    if w.Some? {
      FilterKeeps(batch, (c: RevisionId) => WitnessCovers(t, w.value, c));
    }
    FilterKeeps(batch, (c: RevisionId) => MarkerCovers(t, record, c));
  }

  ghost function CollectRecord(t: Tables, record: RecordId, generation: nat): Tables {
    PlanSelectsRows(t, record);
    match PlanFor(t, record)
    case Skip => t
    case Prune(selected) =>
      CloseRecord(CollectAll(t, selected, generation), record, generation)
    case Advance(w, selected) =>
      CloseRecord(CollectAll(AdvanceMarker(t, record, w), selected, generation), record, generation)
  }

  ghost function CollectRecords(t: Tables, records: seq<RecordId>, generation: nat): Tables
    decreases |records|
  {
    if records == [] then t else CollectRecords(CollectRecord(t, records[0], generation), records[1..], generation)
  }

  function IdKeys(ids: set<nat>): set<Key> {
    set r | r in ids :: Key(0, r)
  }

  function After(ids: set<nat>, position: Option<nat>): set<nat> {
    set r | r in ids && (position.None? || position.value < r)
  }

  /** The next records in identifier order after the scan position. */
  ghost function RecordBatch(queued: set<RecordId>, position: Option<RecordId>): seq<RecordId> {
    Prefix(Minors(Listing(IdKeys(After(queued, position)))), RECORD_BATCH)
  }

  /** The records one call scans: the next batch, or the first batch once the end is passed. */
  ghost function ScanBatch(queued: set<RecordId>, position: Option<RecordId>): seq<RecordId> {
    var batch := RecordBatch(queued, position);
    if batch == [] && position.Some? then RecordBatch(queued, None) else batch
  }

  ghost predicate ReachesScan(t: Tables) {
    t.collectionGeneration != MAX_UINT64 && exists d | d in t.devices :: !t.devices[d].revoked
  }

  ghost function CollectEligible(t: Tables): Tables {
    if !ReachesScan(t) then t
    else
      var batch := ScanBatch(t.barriers.Keys, t.scanAfter);
      if batch == [] then t.(scanAfter := None)
      else
        CollectRecords(t, batch, t.collectionGeneration + 1).(scanAfter := Some(batch[|batch| - 1]))
  }
}
