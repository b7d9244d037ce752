/**
 Admission told without the order in which the server checks: which new
 mutations get in, what each broken rule answers, and what an accepted batch
 stores.
 */
module AdmissionRules {
  import opened Outcomes
  import opened Uint64
  import opened Vectors
  import opened StoreTables
  import opened Admission

  // ----- The rules, each on its own ----------------------------------------------------------

  /** The counter is the author's next one. */
  predicate NextCounter(t: Tables, rev: Revision) {
    rev.metadata.author in t.devices && rev.metadata.counter == t.devices[rev.metadata.author].maxCounter + 1
  }

  /** Every other entry of the vector names a registered device. */
  predicate NamesDevices(t: Tables, rev: Revision) {
    forall d | d in rev.metadata.vector && d != rev.metadata.author :: d in t.devices
  }

  /** Every other entry of the vector that names a registered device is a counter it has used. */
  predicate NamesUsedCounters(t: Tables, rev: Revision) {
    forall d | d in rev.metadata.vector && d != rev.metadata.author && d in t.devices :: rev.metadata.vector[d] <= t.devices[d].maxCounter
  }

  /** No revision of the record, retained or collected, has the vector. */
  predicate VectorUnused(t: Tables, rev: Revision) {
    forall q | q in t.revisions && t.revisions[q].metadata.record == rev.metadata.record :: t.revisions[q].metadata.vector != rev.metadata.vector
  }

  /** The vector is strictly above the frontier left by a collection, if there is one. */
  predicate AboveFrontier(t: Tables, rev: Revision) {
    rev.metadata.record in t.markers ==> Dominates(rev.metadata.vector, t.markers[rev.metadata.record].frontier)
  }

  /** The vectors of the record's heads and of the newcomer. */
  function Rivals(t: Tables, rev: Revision): map<RevisionId, Vector> {
    (map h | h in t.heads && h in t.revisions && t.revisions[h].metadata.record == rev.metadata.record :: t.revisions[h].metadata.vector)
    [rev.id := rev.metadata.vector]
  }

  function Unbeaten(rivals: map<RevisionId, Vector>): set<RevisionId> {
    set i | i in rivals && forall j | j in rivals :: !Dominates(rivals[j], rivals[i])
  }

  predicate FewSiblings(t: Tables, rev: Revision) {
    |Unbeaten(Rivals(t, rev))| <= 32
  }

  lemma UnbeatenAt(t: Tables, rev: Revision, i: RevisionId)
    requires HeadsInv(t.revisions, t.heads) && rev.id !in t.revisions && !Dominates(rev.metadata.vector, rev.metadata.vector)
    ensures i in SiblingsAfter(t, rev) <==> i in Unbeaten(Rivals(t, rev))
  {
    hide Dominates;
    var rivals, record := Rivals(t, rev), rev.metadata.record;
    assert forall h :: h in HeadsOf(t.revisions, t.heads, record) <==> h in rivals && h != rev.id;
    if i in HeadsOf(t.revisions, t.heads, record) {
      assert i in SiblingsAfter(t, rev) <==> !Dominates(rev.metadata.vector, rivals[i]);
      assert forall j | j in rivals && j != rev.id :: !Dominates(rivals[j], rivals[i]);
      assert i in Unbeaten(rivals) <==> !Dominates(rivals[rev.id], rivals[i]);
    } else if i == rev.id {
      assert i in SiblingsAfter(t, rev) <==> EntersAsHead(t.revisions, t.heads, rev);
      assert forall j | j in rivals && j != rev.id :: rivals[j] == VectorOf(t.revisions, j);
    } else {
      assert i !in SiblingsAfter(t, rev) && i !in rivals;
    }
  }

  /** Heads are pairwise undominated, so the heads after a write are the unbeaten rivals. */
  lemma SiblingsAreUnbeaten(t: Tables, rev: Revision)
    requires HeadsInv(t.revisions, t.heads) && rev.id !in t.revisions
    ensures SiblingsAfter(t, rev) == Unbeaten(Rivals(t, rev))
  {
    hide HeadsInv, SiblingsAfter, Unbeaten, Rivals;
    DominatesIsStrictOrder(rev.metadata.vector, rev.metadata.vector, rev.metadata.vector);
    forall i
      ensures i in SiblingsAfter(t, rev) <==> i in Unbeaten(Rivals(t, rev))
    {
      UnbeatenAt(t, rev, i);
    }
  }

  lemma RulesAsChecked(t: Tables, rev: Revision)
    requires HeadsInv(t.revisions, t.heads) && rev.id !in t.revisions
    ensures VectorTaken(t.revisions, rev) <==> !VectorUnused(t, rev)
    ensures Registered(t.devices, rev) <==> NamesDevices(t, rev)
    ensures WithinCounters(t.devices, rev) <==> NamesUsedCounters(t, rev)
    ensures |SiblingsAfter(t, rev)| > MAX_SIBLINGS <==> !FewSiblings(t, rev)
  {
    SiblingsAreUnbeaten(t, rev);
    hide SiblingsAfter, Unbeaten, Rivals;
  }

  /** A new mutation is admitted if and only if it keeps every rule. */
  lemma AdmittedIff(t: Tables, rev: Revision)
    requires HeadsInv(t.revisions, t.heads) && rev.metadata.author in t.devices && rev.id !in t.revisions
    requires WellShaped(rev.metadata.author, rev)
    ensures AdmitNext(t, rev).Ok? <==>
              && NextCounter(t, rev) && NamesDevices(t, rev) && NamesUsedCounters(t, rev)
              && VectorUnused(t, rev) && AboveFrontier(t, rev) && FewSiblings(t, rev)
  {
    RulesAsChecked(t, rev);
    hide HeadsInv, VectorTaken, VectorUnused, Registered, NamesDevices, WithinCounters, NamesUsedCounters, SiblingsAfter, FewSiblings;
  }

  /** A broken rule has its own answer, the first of them in this order. */
  lemma RefusalsAreExact(t: Tables, rev: Revision)
    requires HeadsInv(t.revisions, t.heads) && rev.metadata.author in t.devices && rev.id !in t.revisions
    requires WellShaped(rev.metadata.author, rev)
    ensures AdmitNext(t, rev) == Err(RevisionEquivocation) <==> !VectorUnused(t, rev)
    ensures AdmitNext(t, rev) == Err(CounterExhausted) <==> VectorUnused(t, rev) && t.devices[rev.metadata.author].maxCounter == MAX_UINT64
    ensures AdmitNext(t, rev) == Err(CounterConflict) <==>
              && VectorUnused(t, rev) && t.devices[rev.metadata.author].maxCounter != MAX_UINT64
              && (!NextCounter(t, rev) || (NamesDevices(t, rev) && !NamesUsedCounters(t, rev)))
    ensures AdmitNext(t, rev) == Err(InvalidRequest) <==> VectorUnused(t, rev) && NextCounter(t, rev) && !NamesDevices(t, rev)
    ensures AdmitNext(t, rev) == Err(StaleAfterCollection) <==>
              && VectorUnused(t, rev) && NextCounter(t, rev) && NamesDevices(t, rev) && NamesUsedCounters(t, rev)
              && !AboveFrontier(t, rev)
    ensures AdmitNext(t, rev) == Err(TooManySiblings) <==>
              && VectorUnused(t, rev) && NextCounter(t, rev) && NamesDevices(t, rev) && NamesUsedCounters(t, rev)
              && AboveFrontier(t, rev) && !FewSiblings(t, rev)
  {
    RulesAsChecked(t, rev);
    hide HeadsInv, VectorTaken, VectorUnused, Registered, NamesDevices, WithinCounters, NamesUsedCounters, SiblingsAfter, FewSiblings;
  }

  /** A known identifier is accepted again with the same content, changing nothing, and with no other. */
  lemma KnownIsIdempotent(t: Tables, rev: Revision)
    requires rev.metadata.author in t.devices && rev.id in t.revisions
    ensures AdmitNext(t, rev) == if t.revisions[rev.id].hash.of == rev then Ok(t) else Err(RevisionEquivocation)
  {
  }

  // ----- What an accepted batch stores -----------------------------------------------------------

  /** `row` is the row of a revision admitted after cursor `before`, at this uptime. */
  predicate NewlyStored(row: Row, rev: Revision, uptime: nat, before: Cursor, after: Cursor) {
    && row.metadata == rev.metadata && row.hash.of == rev && Retained(row)
    && row.accepted == uptime && before < row.cursor <= after
  }

  /** `rev` is stored with its content, and if it is new, as a new row. */
  predicate IsStored(rows: map<RevisionId, Row>, rev: Revision, uptime: nat, before: Cursor, stored: map<RevisionId, Row>, after: Cursor) {
    && rev.id in stored && stored[rev.id].hash.of == rev
    && (rev.id !in rows ==> NewlyStored(stored[rev.id], rev, uptime, before, after))
  }

  predicate Brings(batch: seq<Revision>, r: RevisionId) {
    exists i | 0 <= i < |batch| :: batch[i].id == r
  }

  ghost predicate RowsKept(rows: map<RevisionId, Row>, stored: map<RevisionId, Row>) {
    forall r | r in rows :: r in stored && stored[r] == rows[r]
  }

  ghost predicate OnlyBrought(rows: map<RevisionId, Row>, batch: seq<Revision>, stored: map<RevisionId, Row>) {
    forall r | r in stored && r !in rows :: Brings(batch, r)
  }

  ghost predicate AllStored(rows: map<RevisionId, Row>, batch: seq<Revision>, uptime: nat, before: Cursor, stored: map<RevisionId, Row>, after: Cursor) {
    forall i | 0 <= i < |batch| :: IsStored(rows, batch[i], uptime, before, stored, after)
  }

  /** Every mutation of a batch is stored with its content, one cursor for each new one; nothing else is added or changed. */
  ghost predicate BatchStored(rows: map<RevisionId, Row>, batch: seq<Revision>, uptime: nat, before: Cursor,
                              stored: map<RevisionId, Row>, after: Cursor) {
    && RowsKept(rows, stored) && OnlyBrought(rows, batch, stored)
    && AllStored(rows, batch, uptime, before, stored, after)
    && |rows| <= |stored| && after == before + |stored| - |rows|
  }

  lemma OneRowStored(rows: map<RevisionId, Row>, rev: Revision, uptime: nat, before: Cursor, row: Row)
    requires row == Row(rev.metadata, ContentHash(rev), uptime, before + 1, None)
    ensures rev.id in rows && rows[rev.id].hash == ContentHash(rev) ==> BatchStored(rows, [rev], uptime, before, rows, before)
    ensures rev.id !in rows ==> BatchStored(rows, [rev], uptime, before, rows[rev.id := row], before + 1)
    ensures rev.id !in rows ==> |rows[rev.id := row]| == |rows| + 1
  {
    assert [rev][0] == rev;
    if rev.id !in rows {
      var stored := rows[rev.id := row];
      assert stored.Keys == rows.Keys + {rev.id};
      assert |stored| == |stored.Keys| && |rows| == |rows.Keys|;
      assert Brings([rev], rev.id);
    }
  }

  lemma AdmittedFields(t: Tables, rev: Revision)
    requires rev.metadata.author in t.devices && AdmitNext(t, rev).Ok?
    ensures var u, known := AdmitNext(t, rev).value, rev.id in t.revisions;
            && (known ==> u == t && t.revisions[rev.id].hash == ContentHash(rev))
            && u.uptime == t.uptime && u.cursor == (if known then t.cursor else t.cursor + 1)
            && (!known ==> u.revisions == t.revisions[rev.id := Row(rev.metadata, ContentHash(rev), t.uptime, t.cursor + 1, None)])
            && (!known ==> u.devices == t.devices[rev.metadata.author :=
                             t.devices[rev.metadata.author].(maxCounter := t.devices[rev.metadata.author].maxCounter + 1)])
  {
    hide VectorTaken, Registered, WithinCounters, SiblingsAfter, HeadsAfter;
  }

  lemma StaysStored(a: map<RevisionId, Row>, b: map<RevisionId, Row>, rest: seq<Revision>, c: map<RevisionId, Row>,
                    uptime: nat, x: Cursor, y: Cursor, z: Cursor, rev: Revision)
    requires IsStored(a, rev, uptime, x, b, y) && BatchStored(b, rest, uptime, y, c, z)
    ensures IsStored(a, rev, uptime, x, c, z)
  {
  }

  lemma StoredLater(a: map<RevisionId, Row>, rev: Revision, b: map<RevisionId, Row>, rest: seq<Revision>, c: map<RevisionId, Row>,
                    uptime: nat, x: Cursor, y: Cursor, z: Cursor, i: nat)
    requires BatchStored(a, [rev], uptime, x, b, y) && BatchStored(b, rest, uptime, y, c, z) && i < |rest|
    ensures IsStored(a, rest[i], uptime, x, c, z)
  {
    assert IsStored(b, rest[i], uptime, y, c, z);
    if rest[i].id in b && rest[i].id !in a {
      assert Brings([rev], rest[i].id);
      assert IsStored(a, [rev][0], uptime, x, b, y);
    }
  }

  lemma BroughtBy(rev: Revision, rest: seq<Revision>, r: RevisionId)
    requires Brings([rev], r) || Brings(rest, r)
    ensures Brings([rev] + rest, r)
  {
    var batch := [rev] + rest;
    if Brings([rev], r) {
      assert batch[0].id == r;
    } else {
      var i :| 0 <= i < |rest| && rest[i].id == r;
      assert batch[i + 1].id == r;
    }
  }

  lemma BroughtThenBrought(a: map<RevisionId, Row>, rev: Revision, b: map<RevisionId, Row>, rest: seq<Revision>, c: map<RevisionId, Row>)
    requires OnlyBrought(a, [rev], b) && OnlyBrought(b, rest, c)
    ensures OnlyBrought(a, [rev] + rest, c)
  {
    hide Brings;
    forall r | r in c && r !in a
      ensures Brings([rev] + rest, r)
    {
      BroughtBy(rev, rest, r);
    }
  }

  lemma KeptThenKept(a: map<RevisionId, Row>, b: map<RevisionId, Row>, c: map<RevisionId, Row>)
    requires RowsKept(a, b) && RowsKept(b, c)
    ensures RowsKept(a, c)
  {
  }

  lemma StoredThenStored(a: map<RevisionId, Row>, rev: Revision, b: map<RevisionId, Row>, rest: seq<Revision>, c: map<RevisionId, Row>,
                         uptime: nat, x: Cursor, y: Cursor, z: Cursor)
    requires BatchStored(a, [rev], uptime, x, b, y) && BatchStored(b, rest, uptime, y, c, z)
    ensures BatchStored(a, [rev] + rest, uptime, x, c, z)
  {
    hide IsStored, OnlyBrought, RowsKept;
    KeptThenKept(a, b, c);
    BroughtThenBrought(a, rev, b, rest, c);
    var batch := [rev] + rest;
    forall i | 0 <= i < |batch|
      ensures IsStored(a, batch[i], uptime, x, c, z)
    {
      if i == 0 {
        assert IsStored(a, [rev][0], uptime, x, b, y);
        StaysStored(a, b, rest, c, uptime, x, y, z, rev);
      } else {
        StoredLater(a, rev, b, rest, c, uptime, x, y, z, i - 1);
      }
    }
  }

  lemma NoneStored(rows: map<RevisionId, Row>, devices: map<DeviceId, Device>, device: DeviceId, uptime: nat, cursor: Cursor)
    requires device in devices
    ensures BatchStored(rows, [], uptime, cursor, rows, cursor) && CountersTaken(devices, device, 0, devices)
  {
    NoCounterTaken(devices, device);
  }

  /** One counter of the author for each new mutation, and no other device touched. */
  ghost predicate CountersTaken(before: map<DeviceId, Device>, device: DeviceId, taken: int, after: map<DeviceId, Device>) {
    && device in before && taken >= 0
    && after == before[device := before[device].(maxCounter := before[device].maxCounter + taken)]
  }

  lemma CountersAdd(a: map<DeviceId, Device>, b: map<DeviceId, Device>, c: map<DeviceId, Device>, device: DeviceId, x: int, y: int)
    requires CountersTaken(a, device, x, b) && CountersTaken(b, device, y, c)
    ensures CountersTaken(a, device, x + y, c)
  {
  }

  lemma NoCounterTaken(devices: map<DeviceId, Device>, device: DeviceId)
    requires device in devices
    ensures CountersTaken(devices, device, 0, devices)
  {
    assert devices == devices[device := devices[device].(maxCounter := devices[device].maxCounter + 0)];
  }

  lemma OneCounterTaken(devices: map<DeviceId, Device>, device: DeviceId, after: map<DeviceId, Device>)
    requires device in devices && after == devices[device := devices[device].(maxCounter := devices[device].maxCounter + 1)]
    ensures CountersTaken(devices, device, 1, after)
  {
  }

  lemma FirstStored(t: Tables, rev: Revision)
    requires rev.metadata.author in t.devices && AdmitNext(t, rev).Ok?
    ensures var u := AdmitNext(t, rev).value;
            && u.uptime == t.uptime && BatchStored(t.revisions, [rev], t.uptime, t.cursor, u.revisions, u.cursor)
            && CountersTaken(t.devices, rev.metadata.author, |u.revisions| - |t.revisions|, u.devices)
  {
    hide *;
    AdmittedFields(t, rev);
    OneRowStored(t.revisions, rev, t.uptime, t.cursor, Row(rev.metadata, ContentHash(rev), t.uptime, t.cursor + 1, None));
    if rev.id in t.revisions {
      NoCounterTaken(t.devices, rev.metadata.author);
    } else {
      OneCounterTaken(t.devices, rev.metadata.author, AdmitNext(t, rev).value.devices);
    }
  }

  /**
   After an accepted batch every mutation of it is a stored row with its content, stamped with the
   uptime it was accepted at; nothing else was added or changed; and each new one took one cursor and
   one counter of its author.
   */
  lemma {:induction false} AcceptedBatchIsStored(t: Tables, device: DeviceId, batch: seq<Revision>)
    requires device in t.devices && (forall i | 0 <= i < |batch| :: batch[i].metadata.author == device) && AdmitAll(t, device, batch).Ok?
    ensures var u := AdmitAll(t, device, batch).value;
            && u.uptime == t.uptime && BatchStored(t.revisions, batch, t.uptime, t.cursor, u.revisions, u.cursor)
            && CountersTaken(t.devices, device, |u.revisions| - |t.revisions|, u.devices)
    decreases |batch|
  {
    hide AdmitNext, BatchStored, CountersTaken;
    if batch == [] {
      NoneStored(t.revisions, t.devices, device, t.uptime, t.cursor);
    } else {
      var rev, rest := batch[0], batch[1..];
      FirstStored(t, rev);
      var v := AdmitNext(t, rev).value;
      StillThere(t.devices, v.devices, device, |v.revisions| - |t.revisions|);
      AcceptedBatchIsStored(v, device, rest);
      var u := AdmitAll(v, device, rest).value;
      StoredThenStored(t.revisions, rev, v.revisions, rest, u.revisions, t.uptime, t.cursor, v.cursor, u.cursor);
      CountersAdd(t.devices, v.devices, u.devices, device, |v.revisions| - |t.revisions|, |u.revisions| - |v.revisions|);
      assert batch == [rev] + rest;
    }
  }

  lemma StillThere(before: map<DeviceId, Device>, after: map<DeviceId, Device>, device: DeviceId, taken: int)
    requires CountersTaken(before, device, taken, after)
    ensures device in after
  {
  }

  lemma EmptyBatchIsAccepted(t: Tables, device: DeviceId)
    requires device in t.devices
    ensures AdmitAll(t, device, []) == Ok(t)
  {
  }

  /**
   A batch is answered as its mutations are, in turn, on the tables the ones before them left: the
   first refusal is the answer.
   */
  lemma {:induction false} AcceptedOneByOne(t: Tables, device: DeviceId, batch: seq<Revision>, k: nat)
    requires device in t.devices && (forall i | 0 <= i < |batch| :: batch[i].metadata.author == device) && k < |batch|
    requires AdmitAll(t, device, batch[..k]).Ok?
    ensures var u := AdmitAll(t, device, batch[..k]).value;
            && device in u.devices
            && (AdmitNext(u, batch[k]).Err? ==> AdmitAll(t, device, batch) == Err(AdmitNext(u, batch[k]).error))
            && (AdmitNext(u, batch[k]).Ok? ==> AdmitAll(t, device, batch[..k + 1]) == AdmitNext(u, batch[k]))
    decreases k
  {
    hide AdmitNext, BatchStored;
    if k == 0 {
      assert batch[..1][1..] == [];
    } else {
      var v := AdmitNext(t, batch[0]).value;
      assert batch[..k][1..] == batch[1..][..k - 1] && batch[..k + 1][1..] == batch[1..][..k];
      assert AdmitNext(t, batch[..k][0]).Ok?;
      FirstStored(t, batch[0]);
      AcceptedOneByOne(v, device, batch[1..], k - 1);
    }
  }
}
