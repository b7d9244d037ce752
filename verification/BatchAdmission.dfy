/**
 Batch admission as a sync request runs it: validate every mutation against the
 stored tables and the mutations pending before it, then write all new ones.
 It is proved equal to admitting the mutations one after the other.
 */
module BatchAdmission {
  import opened Outcomes
  import opened Uint64
  import opened Vectors
  import opened StoreTables
  import opened Admission

  // ----- Undominated siblings --------------------------------------------------------

  ghost predicate Undominated(vectors: map<RevisionId, Vector>, i: RevisionId) {
    i in vectors && forall j | j in vectors :: !Dominates(vectors[j], vectors[i])
  }

  ghost function Maximal(vectors: map<RevisionId, Vector>): set<RevisionId> {
    set i | i in vectors && Undominated(vectors, i)
  }

  datatype Sibling = Sibling(id: RevisionId, vector: Vector)

  predicate DistinctIds(siblings: seq<Sibling>) {
    forall i, j | 0 <= i < j < |siblings| :: siblings[i].id != siblings[j].id
  }

  function AsMap(siblings: seq<Sibling>): (m: map<RevisionId, Vector>)
    ensures forall id :: id in m <==> exists i | 0 <= i < |siblings| :: siblings[i].id == id
  {
    if siblings == [] then map[]
    else
      var last := siblings[|siblings| - 1];
      AsMap(siblings[..|siblings| - 1])[last.id := last.vector]
  }

  lemma {:induction false} AsMapAt(siblings: seq<Sibling>, i: nat)
    requires DistinctIds(siblings) && i < |siblings|
    ensures siblings[i].id in AsMap(siblings) && AsMap(siblings)[siblings[i].id] == siblings[i].vector
  {
    if i < |siblings| - 1 {
      AsMapAt(siblings[..|siblings| - 1], i);
    }
  }

  /** The undominated identifiers among the first `n` siblings. */
  ghost function FoundAmong(siblings: seq<Sibling>, n: nat): set<RevisionId>
    requires n <= |siblings|
  {
    set i | 0 <= i < n && Undominated(AsMap(siblings), siblings[i].id) :: siblings[i].id
  }

  lemma FoundStep(siblings: seq<Sibling>, n: nat)
    requires DistinctIds(siblings) && n < |siblings|
    ensures siblings[n].id !in FoundAmong(siblings, n)
    ensures FoundAmong(siblings, n + 1) ==
              FoundAmong(siblings, n) + if Undominated(AsMap(siblings), siblings[n].id) then {siblings[n].id} else {}
  {
  }

  lemma FoundAll(siblings: seq<Sibling>)
    ensures FoundAmong(siblings, |siblings|) == Maximal(AsMap(siblings))
  {
    forall id | id in Maximal(AsMap(siblings))
      ensures id in FoundAmong(siblings, |siblings|)
    {
      var i :| 0 <= i < |siblings| && siblings[i].id == id;
    }
  }

  method IsDominated(siblings: seq<Sibling>, left: nat) returns (dominated: bool)
    requires DistinctIds(siblings) && left < |siblings|
    ensures dominated == !Undominated(AsMap(siblings), siblings[left].id)
  {
    dominated := false;
    for right := 0 to |siblings|
      invariant !dominated
      invariant forall j | 0 <= j < right :: j == left || !Dominates(siblings[j].vector, siblings[left].vector)
    {
      if left != right {
        var above := VectorDominates(siblings[right].vector, siblings[left].vector);
        if above {
          dominated := true;
          break;
        }
      }
    }
    UndominatedIsMaximal(siblings, left);
  }

  /** Count the vectors no other vector dominates. */
  method CountUndominated(siblings: seq<Sibling>) returns (count: nat)
    requires DistinctIds(siblings)
    ensures count == |Maximal(AsMap(siblings))|
  {
    count := 0;
    for left := 0 to |siblings|
      invariant count == |FoundAmong(siblings, left)|
    {
      var dominated := IsDominated(siblings, left);
      FoundStep(siblings, left);
      if !dominated {
        count := count + 1;
      }
    }
    FoundAll(siblings);
  }

  lemma UndominatedIsMaximal(siblings: seq<Sibling>, left: nat)
    requires DistinctIds(siblings) && left < |siblings|
    ensures Undominated(AsMap(siblings), siblings[left].id) <==>
              forall j | 0 <= j < |siblings| :: j == left || !Dominates(siblings[j].vector, siblings[left].vector)
  {
    var m := AsMap(siblings);
    AsMapAt(siblings, left);
    DominatesIsStrictOrder(siblings[left].vector, map[], map[]);
    forall j | 0 <= j < |siblings|
      ensures siblings[j].id in m && m[siblings[j].id] == siblings[j].vector
    {
      AsMapAt(siblings, j);
    }
  }

  // ----- Pending mutations -------------------------------------------------------------

  ghost predicate Fresh(t: Tables, device: DeviceId, news: seq<Revision>) {
    && device in t.devices
    && (forall i | 0 <= i < |news| :: news[i].metadata.author == device && news[i].id !in t.revisions)
    && (forall i, j | 0 <= i < j < |news| :: news[i].id != news[j].id)
  }

  /** The tables after the pending mutations are written. */
  function InsertAll(t: Tables, news: seq<Revision>): (u: Tables)
    requires forall i | 0 <= i < |news| :: news[i].metadata.author in t.devices
    ensures u.devices.Keys == t.devices.Keys
  {
    if news == [] then t else AdmitOne(InsertAll(t, news[..|news| - 1]), news[|news| - 1])
  }

  ghost function NewIds(news: seq<Revision>): set<RevisionId> {
    set i | 0 <= i < |news| :: news[i].id
  }

  lemma NewIdsAppend(news: seq<Revision>)
    requires news != []
    ensures NewIds(news) == NewIds(news[..|news| - 1]) + {news[|news| - 1].id}
  {
    var before := news[..|news| - 1];
    forall r
      ensures r in NewIds(news) <==> r in NewIds(before) + {news[|news| - 1].id}
    {
      if r in NewIds(news) {
        var i :| 0 <= i < |news| && news[i].id == r;
        assert i < |before| ==> before[i].id == r;
      }
      if r in NewIds(before) {
        var i :| 0 <= i < |before| && before[i].id == r;
        assert news[i].id == r;
      }
    }
  }

  lemma AdmitOneFields(u: Tables, rev: Revision)
    requires rev.metadata.author in u.devices
    ensures var v := AdmitOne(u, rev);
            && v.cursor == u.cursor + 1 && v.markers == u.markers && v.uptime == u.uptime
            && v.devices == u.devices[rev.metadata.author := u.devices[rev.metadata.author].(maxCounter := rev.metadata.counter)]
            && v.revisions == u.revisions[rev.id := NewRow(u, rev)]
  {
    hide HeadsAfter, NewRow;
  }

  lemma {:induction false} InsertAllScalars(t: Tables, device: DeviceId, news: seq<Revision>)
    requires Fresh(t, device, news)
    ensures var u := InsertAll(t, news);
            && u.cursor == t.cursor + |news| && u.markers == t.markers && u.uptime == t.uptime
            && u.devices == (if news == [] then t.devices
                             else t.devices[device := t.devices[device].(maxCounter := news[|news| - 1].metadata.counter)])
  {
    hide AdmitOne, NewRow;
    if news != [] {
      InsertAllScalars(t, device, news[..|news| - 1]);
      AdmitOneFields(InsertAll(t, news[..|news| - 1]), news[|news| - 1]);
    }
  }

  ghost predicate HoldsNew(rows: map<RevisionId, Row>, rev: Revision) {
    rev.id in rows && rows[rev.id].hash == ContentHash(rev) && rows[rev.id].metadata == rev.metadata
  }

  /** The rows of `base` unchanged, and one row for each new revision. */
  ghost predicate RowsHold(base: map<RevisionId, Row>, news: seq<Revision>, rows: map<RevisionId, Row>) {
    && rows.Keys == base.Keys + NewIds(news)
    && (forall r | r in base :: rows[r] == base[r])
    && (forall i | 0 <= i < |news| :: HoldsNew(rows, news[i]))
  }

  lemma RowsHoldLast(base: map<RevisionId, Row>, news: seq<Revision>, rows: map<RevisionId, Row>, row: Row)
    requires news != [] && RowsHold(base, news[..|news| - 1], rows)
    requires news[|news| - 1].id !in base && forall i | 0 <= i < |news| - 1 :: news[i].id != news[|news| - 1].id
    requires row.hash == ContentHash(news[|news| - 1]) && row.metadata == news[|news| - 1].metadata
    ensures RowsHold(base, news, rows[news[|news| - 1].id := row])
  {
    var before, last := news[..|news| - 1], news[|news| - 1];
    NewIdsAppend(news);
    hide NewIds;
    forall i | 0 <= i < |news|
      ensures HoldsNew(rows[last.id := row], news[i])
    {
      if i < |before| {
        assert before[i] == news[i] && HoldsNew(rows, before[i]);
      }
    }
  }

  lemma {:induction false} InsertAllRows(t: Tables, device: DeviceId, news: seq<Revision>)
    requires Fresh(t, device, news)
    ensures RowsHold(t.revisions, news, InsertAll(t, news).revisions)
  {
    hide AdmitOne;
    if news == [] {
      assert NewIds(news) == {};
    } else {
      var before, last := news[..|news| - 1], news[|news| - 1];
      InsertAllRows(t, device, before);
      var u := InsertAll(t, before);
      AdmitOneFields(u, last);
      hide RowsHold;
      RowsHoldLast(t.revisions, news, u.revisions, NewRow(u, last));
    }
  }

  lemma NextIsFresh(t: Tables, device: DeviceId, news: seq<Revision>)
    requires Fresh(t, device, news) && news != []
    ensures Fresh(t, device, news[..|news| - 1])
    ensures news[|news| - 1].id !in InsertAll(t, news[..|news| - 1]).revisions
  {
    var before := news[..|news| - 1];
    InsertAllRows(t, device, before);
    hide InsertAll;
    FreshPrefix(t, device, news, |news| - 1);
    FreshIsNew(t, device, news, |news| - 1);
  }

  lemma {:induction false} InsertAllHeads(t: Tables, device: DeviceId, news: seq<Revision>)
    requires HeadsInv(t.revisions, t.heads) && Fresh(t, device, news)
    ensures HeadsInv(InsertAll(t, news).revisions, InsertAll(t, news).heads)
  {
    hide HeadsInv;
    if news != [] {
      var before := news[..|news| - 1];
      NextIsFresh(t, device, news);
      InsertAllHeads(t, device, before);
      AdmitKeepsHeads(InsertAll(t, before), news[|news| - 1]);
    }
  }

  // ----- Sibling count over pending mutations equals the heads after writing them --------

  /** Every contender is undominated or lies below an undominated one. */
  ghost predicate Grounded(vectors: map<RevisionId, Vector>) {
    forall i | i in vectors && !Undominated(vectors, i) :: BelowMaximal(vectors, i)
  }

  ghost predicate BelowMaximal(vectors: map<RevisionId, Vector>, i: RevisionId)
    requires i in vectors
  {
    exists h :: Undominated(vectors, h) && Dominates(vectors[h], vectors[i])
  }

  lemma JoinUndominated(vectors: map<RevisionId, Vector>, id: RevisionId, v: Vector)
    requires Grounded(vectors) && id !in vectors
    ensures Undominated(vectors[id := v], id) <==> forall h | Undominated(vectors, h) :: !Dominates(vectors[h], v)
  {
    hide Dominates;
    var all := vectors[id := v];
    DominatesIsStrictOrder(v, v, v);
    if forall h | Undominated(vectors, h) :: !Dominates(vectors[h], v) {
      forall j | j in all
        ensures !Dominates(all[j], v)
      {
        if j != id && !Undominated(vectors, j) && Dominates(vectors[j], v) {
          assert BelowMaximal(vectors, j);
          var h :| Undominated(vectors, h) && Dominates(vectors[h], vectors[j]);
          DominatesTransitive(vectors[h], vectors[j], v);
        }
      }
    } else {
      var h :| Undominated(vectors, h) && Dominates(vectors[h], v);
      assert h in all && all[h] == vectors[h];
    }
  }

  lemma OthersUndominated(vectors: map<RevisionId, Vector>, id: RevisionId, v: Vector, i: RevisionId)
    requires id !in vectors && i != id
    ensures Undominated(vectors[id := v], i) <==> Undominated(vectors, i) && !Dominates(v, vectors[i])
  {
    var all := vectors[id := v];
    assert i in all <==> i in vectors;
    assert forall j | j in vectors :: j in all && all[j] == vectors[j];
    assert id in all && all[id] == v;
  }

  lemma JoinGrounded(vectors: map<RevisionId, Vector>, id: RevisionId, v: Vector)
    requires Grounded(vectors) && id !in vectors
    ensures Grounded(vectors[id := v])
  {
    var all := vectors[id := v];
    JoinUndominated(vectors, id, v);
    forall i | i in all && !Undominated(all, i)
      ensures BelowMaximal(all, i)
    {
      if i == id {
        var h :| Undominated(vectors, h) && Dominates(vectors[h], v);
        DominatesIsStrictOrder(vectors[h], v, v);
        OthersUndominated(vectors, id, v, h);
        assert Undominated(all, h) && Dominates(all[h], all[i]);
      } else {
        BelowAfterJoin(vectors, id, v, i);
      }
    }
  }

  lemma BelowAfterJoin(vectors: map<RevisionId, Vector>, id: RevisionId, v: Vector, i: RevisionId)
    requires Grounded(vectors) && id !in vectors && i in vectors && !Undominated(vectors[id := v], i)
    ensures BelowMaximal(vectors[id := v], i)
  {
    hide Dominates;
    var all := vectors[id := v];
    OthersUndominated(vectors, id, v, i);
    if Undominated(vectors, i) {
      JoinsAbove(vectors, id, v, i);
    } else {
      assert BelowMaximal(vectors, i);
      var h :| Undominated(vectors, h) && Dominates(vectors[h], vectors[i]);
      OthersUndominated(vectors, id, v, h);
      if Dominates(v, vectors[h]) {
        JoinsAbove(vectors, id, v, h);
        DominatesTransitive(v, vectors[h], vectors[i]);
        assert Undominated(all, id) && Dominates(all[id], all[i]);
      } else {
        assert Undominated(all, h) && Dominates(all[h], all[i]);
      }
    }
  }

  /** A vector above an undominated one is undominated. */
  lemma JoinsAbove(vectors: map<RevisionId, Vector>, id: RevisionId, v: Vector, i: RevisionId)
    requires Grounded(vectors) && id !in vectors && Undominated(vectors, i) && Dominates(v, vectors[i])
    ensures Undominated(vectors[id := v], id) && Dominates(vectors[id := v][id], vectors[id := v][i])
  {
    forall h | Undominated(vectors, h)
      ensures !Dominates(vectors[h], v)
    {
      if Dominates(vectors[h], v) {
        DominatesTransitive(vectors[h], v, vectors[i]);
      }
    }
    JoinUndominated(vectors, id, v);
  }

  /** The vectors of stored revisions, by identifier. */
  ghost function HeadVectors(revisions: map<RevisionId, Row>, ids: set<RevisionId>): map<RevisionId, Vector> {
    map h | h in ids && h in revisions :: VectorOf(revisions, h)
  }

  /** The record's stored heads and pending mutations, by identifier. */
  ghost function Contenders(t: Tables, news: seq<Revision>, record: RecordId): map<RevisionId, Vector> {
    if news == [] then
      HeadVectors(t.revisions, HeadsOf(t.revisions, t.heads, record))
    else
      var rest := Contenders(t, news[..|news| - 1], record);
      var last := news[|news| - 1];
      if last.metadata.record == record then rest[last.id := last.metadata.vector] else rest
  }

  ghost predicate HeadsAre(revisions: map<RevisionId, Row>, heads: set<RevisionId>, record: RecordId, vectors: map<RevisionId, Vector>) {
    && (forall i :: i in HeadsOf(revisions, heads, record) <==> Undominated(vectors, i))
    && (forall i | i in vectors :: i in revisions && VectorOf(revisions, i) == vectors[i])
    && Grounded(vectors)
  }

  lemma HeadsAfterMembers(t: Tables, rev: Revision)
    requires rev.id !in t.revisions && rev.id !in t.heads
    ensures var rows, heads := t.revisions[rev.id := NewRow(t, rev)], HeadsAfter(t.revisions, t.heads, rev);
            && (forall i | i != rev.id :: i in HeadsOf(rows, heads, rev.metadata.record) <==>
                  i in HeadsOf(t.revisions, t.heads, rev.metadata.record) && !Dominates(rev.metadata.vector, VectorOf(t.revisions, i)))
            && (rev.id in HeadsOf(rows, heads, rev.metadata.record) <==> EntersAsHead(t.revisions, t.heads, rev))
  {
  }

  lemma HeadsAreStep(t: Tables, rev: Revision, vectors: map<RevisionId, Vector>)
    requires rev.id !in t.revisions && rev.id !in t.heads && HeadsAre(t.revisions, t.heads, rev.metadata.record, vectors)
    ensures HeadsAre(t.revisions[rev.id := NewRow(t, rev)], HeadsAfter(t.revisions, t.heads, rev), rev.metadata.record,
                     vectors[rev.id := rev.metadata.vector])
  {
    hide Grounded, HeadsAfter, HeadsOf, EntersAsHead, Dominates;
    var record, v := rev.metadata.record, rev.metadata.vector;
    var rows, heads := t.revisions[rev.id := NewRow(t, rev)], HeadsAfter(t.revisions, t.heads, rev);
    var all := vectors[rev.id := v];
    assert rev.id !in vectors;
    JoinGrounded(vectors, rev.id, v);
    HeadsAfterMembers(t, rev);
    forall i
      ensures i in HeadsOf(rows, heads, record) <==> Undominated(all, i)
    {
      if i == rev.id {
        JoinUndominated(vectors, rev.id, v);
        EntersIffUndominated(t, rev, vectors);
      } else {
        OthersUndominated(vectors, rev.id, v, i);
      }
    }
  }

  lemma EntersIffUndominated(t: Tables, rev: Revision, vectors: map<RevisionId, Vector>)
    requires rev.id !in t.revisions && HeadsAre(t.revisions, t.heads, rev.metadata.record, vectors)
    ensures EntersAsHead(t.revisions, t.heads, rev) <==> forall h | Undominated(vectors, h) :: !Dominates(vectors[h], rev.metadata.vector)
  {
    hide Grounded;
    if EntersAsHead(t.revisions, t.heads, rev) {
      forall h | Undominated(vectors, h)
        ensures !Dominates(vectors[h], rev.metadata.vector)
      {
        assert h in HeadsOf(t.revisions, t.heads, rev.metadata.record);
      }
    } else {
      var h :| h in HeadsOf(t.revisions, t.heads, rev.metadata.record) && Dominates(VectorOf(t.revisions, h), rev.metadata.vector);
      assert Undominated(vectors, h);
    }
  }

  lemma HeadsAreAtStart(t: Tables, record: RecordId)
    requires HeadsInv(t.revisions, t.heads)
    ensures HeadsAre(t.revisions, t.heads, record, Contenders(t, [], record))
  {
    var vectors := Contenders(t, [], record);
    forall i
      ensures i in HeadsOf(t.revisions, t.heads, record) <==> Undominated(vectors, i)
    {
    }
  }

  lemma OtherRecordHeads(t: Tables, rev: Revision, record: RecordId, vectors: map<RevisionId, Vector>)
    requires rev.id !in t.revisions && rev.metadata.record != record && HeadsAre(t.revisions, t.heads, record, vectors)
    ensures HeadsAre(t.revisions[rev.id := NewRow(t, rev)], HeadsAfter(t.revisions, t.heads, rev), record, vectors)
  {
    hide Grounded;
    var rows, heads := t.revisions[rev.id := NewRow(t, rev)], HeadsAfter(t.revisions, t.heads, rev);
    assert forall i :: i in HeadsOf(rows, heads, record) <==> i in HeadsOf(t.revisions, t.heads, record);
  }

  lemma HeadsAreStored(t: Tables)
    requires HeadsInv(t.revisions, t.heads)
    ensures t.heads <= t.revisions.Keys
  {
  }

  lemma {:induction false} HeadsAreContenders(t: Tables, device: DeviceId, news: seq<Revision>, record: RecordId)
    requires HeadsInv(t.revisions, t.heads) && Fresh(t, device, news)
    ensures HeadsAre(InsertAll(t, news).revisions, InsertAll(t, news).heads, record, Contenders(t, news, record))
  {
    hide HeadsAre, HeadsInv;
    if news == [] {
      HeadsAreAtStart(t, record);
    } else {
      var before, last := news[..|news| - 1], news[|news| - 1];
      NextIsFresh(t, device, news);
      HeadsAreContenders(t, device, before, record);
      InsertAllHeads(t, device, before);
      HeadsAreStored(InsertAll(t, before));
      if last.metadata.record == record {
        HeadsAreStep(InsertAll(t, before), last, Contenders(t, before, record));
      } else {
        OtherRecordHeads(InsertAll(t, before), last, record, Contenders(t, before, record));
      }
    }
  }

  // ----- The first pass: validation against stored and pending mutations -------------------

  lemma {:induction false} ContenderIds(t: Tables, news: seq<Revision>, record: RecordId)
    ensures Contenders(t, news, record).Keys <= t.revisions.Keys + NewIds(news)
  {
    if news != [] {
      ContenderIds(t, news[..|news| - 1], record);
      NewIdsAppend(news);
    }
  }

  lemma AppendSibling(siblings: seq<Sibling>, next: Sibling)
    requires DistinctIds(siblings) && next.id !in AsMap(siblings)
    ensures DistinctIds(siblings + [next]) && AsMap(siblings + [next]) == AsMap(siblings)[next.id := next.vector]
  {
    assert (siblings + [next])[..|siblings|] == siblings;
    assert forall i | 0 <= i < |siblings| :: siblings[i].id in AsMap(siblings);
  }

  /** The stored heads of a record. */
  method GatherHeads(revisions: map<RevisionId, Row>, heads: set<RevisionId>) returns (siblings: seq<Sibling>)
    requires heads <= revisions.Keys
    ensures DistinctIds(siblings) && AsMap(siblings) == HeadVectors(revisions, heads)
  {
    hide DistinctIds, AsMap;
    siblings := [];
    NoSiblings();
    var rest := heads;
    while rest != {}
      invariant rest <= heads && DistinctIds(siblings)
      invariant AsMap(siblings) == HeadVectors(revisions, heads - rest)
      decreases |rest|
    {
      var h :| h in rest;
      var next := Sibling(h, VectorOf(revisions, h));
      AppendSibling(siblings, next);
      HeadVectorsAdd(revisions, heads - rest, h);
      assert heads - (rest - {h}) == (heads - rest) + {h};
      siblings := siblings + [next];
      rest := rest - {h};
    }
    assert heads - rest == heads;
  }

  lemma HeadVectorsAdd(revisions: map<RevisionId, Row>, ids: set<RevisionId>, h: RevisionId)
    requires h in revisions
    ensures HeadVectors(revisions, ids + {h}) == HeadVectors(revisions, ids)[h := VectorOf(revisions, h)]
  {
  }

  lemma NoSiblings()
    ensures DistinctIds([]) && AsMap([]) == map[]
  {
  }

  /** List the record's heads, the pending mutations before this one, and the mutation itself. */
  method GatherSiblings(t: Tables, device: DeviceId, news: seq<Revision>, rev: Revision) returns (siblings: seq<Sibling>)
    requires Fresh(t, device, news + [rev])
    ensures DistinctIds(siblings) && AsMap(siblings) == Contenders(t, news + [rev], rev.metadata.record)
  {
    hide DistinctIds, AsMap;
    var record := rev.metadata.record;
    siblings := GatherHeads(t.revisions, HeadsOf(t.revisions, t.heads, record));
    var batch := news + [rev];
    for i := 0 to |batch|
      invariant DistinctIds(siblings)
      invariant AsMap(siblings) == Contenders(t, batch[..i], record)
    {
      ContenderIds(t, batch[..i], record);
      FreshIsNew(t, device, batch, i);
      assert batch[..i + 1][..i] == batch[..i];
      if batch[i].metadata.record == record {
        AppendSibling(siblings, Sibling(batch[i].id, batch[i].metadata.vector));
        siblings := siblings + [Sibling(batch[i].id, batch[i].metadata.vector)];
      }
    }
    assert batch[..|batch|] == batch;
  }

  lemma FreshIsNew(t: Tables, device: DeviceId, batch: seq<Revision>, i: nat)
    requires Fresh(t, device, batch) && i < |batch|
    ensures batch[i].id !in t.revisions.Keys + NewIds(batch[..i])
  {
    forall k | 0 <= k < i
      ensures batch[..i][k].id != batch[i].id
    {
      assert batch[..i][k] == batch[k];
    }
  }

  method PendingVectorTaken(news: seq<Revision>, rev: Revision) returns (taken: bool)
    requires Positive(rev.metadata.vector)
    ensures taken <==> PendingTaken(news, rev)
  {
    for i := 0 to |news|
      invariant forall j | 0 <= j < i ::
                  !(news[j].id != rev.id && news[j].metadata.record == rev.metadata.record && news[j].metadata.vector == rev.metadata.vector)
    {
      if news[i].metadata.record == rev.metadata.record {
        var same := VectorsEqual(rev.metadata.vector, news[i].metadata.vector);
        SameEntriesIsEquality(rev.metadata.vector, news[i].metadata.vector);
        if news[i].id != rev.id && same {
          return true;
        }
      }
    }
    taken := false;
  }

  ghost predicate PendingTaken(news: seq<Revision>, rev: Revision) {
    exists i | 0 <= i < |news| ::
      news[i].id != rev.id && news[i].metadata.record == rev.metadata.record && news[i].metadata.vector == rev.metadata.vector
  }

  lemma VectorTakenRows(base: map<RevisionId, Row>, news: seq<Revision>, rows: map<RevisionId, Row>, rev: Revision)
    requires RowsHold(base, news, rows)
    ensures VectorTaken(rows, rev) <==> VectorTaken(base, rev) || PendingTaken(news, rev)
  {
    if VectorTaken(rows, rev) {
      var q :| q in rows && q != rev.id && RecordOf(rows, q) == rev.metadata.record && VectorOf(rows, q) == rev.metadata.vector;
      if q in base {
        assert VectorTaken(base, rev);
      } else {
        var i :| 0 <= i < |news| && news[i].id == q;
        assert HoldsNew(rows, news[i]);
      }
    }
    if VectorTaken(base, rev) {
      var q :| q in base && q != rev.id && RecordOf(base, q) == rev.metadata.record && VectorOf(base, q) == rev.metadata.vector;
      assert q in rows;
    }
    if i :| 0 <= i < |news| && news[i].id != rev.id && news[i].metadata.record == rev.metadata.record && news[i].metadata.vector == rev.metadata.vector {
      assert HoldsNew(rows, news[i]);
    }
  }

  lemma VectorTakenSplit(t: Tables, device: DeviceId, news: seq<Revision>, rev: Revision)
    requires Fresh(t, device, news)
    ensures VectorTaken(InsertAll(t, news).revisions, rev) <==> VectorTaken(t.revisions, rev) || PendingTaken(news, rev)
  {
    InsertAllRows(t, device, news);
    hide InsertAll, RowsHold, VectorTaken, PendingTaken;
    VectorTakenRows(t.revisions, news, InsertAll(t, news).revisions, rev);
  }

  lemma SiblingsAreMaximal(t: Tables, device: DeviceId, news: seq<Revision>, rev: Revision)
    requires HeadsInv(t.revisions, t.heads) && Fresh(t, device, news + [rev])
    ensures Fresh(t, device, news)
    ensures SiblingsAfter(InsertAll(t, news), rev) == Maximal(Contenders(t, news + [rev], rev.metadata.record))
  {
    hide HeadsInv, HeadsAfter;
    assert (news + [rev])[..|news|] == news;
    NextIsFresh(t, device, news + [rev]);
    HeadsAreContenders(t, device, news + [rev], rev.metadata.record);
  }

  lemma SameRegistry(before: map<DeviceId, Device>, after: map<DeviceId, Device>, rev: Revision)
    requires rev.metadata.author in before && rev.metadata.author in after
    requires after == before[rev.metadata.author := after[rev.metadata.author]]
    ensures Registered(after, rev) == Registered(before, rev) && WithinCounters(after, rev) == WithinCounters(before, rev)
  {
  }

  /** The rules on one new mutation, checked without writing the pending ones. */
  method RefusalWhilePending(t: Tables, device: DeviceId, news: seq<Revision>, lastCounter: nat, rev: Revision)
    returns (refusal: Option<Error>)
    requires HeadsInv(t.revisions, t.heads) && Fresh(t, device, news + [rev]) && Fresh(t, device, news) && WellShaped(device, rev)
    requires lastCounter == InsertAll(t, news).devices[device].maxCounter
    ensures refusal == Refusal(InsertAll(t, news), rev)
  {
    InsertAllScalars(t, device, news);
    VectorTakenSplit(t, device, news, rev);
    SiblingsAreMaximal(t, device, news, rev);
    SameRegistry(t.devices, InsertAll(t, news).devices, rev);
    hide HeadsInv, SiblingsAfter, Dominates, VectorTaken, PendingTaken, Maximal, Contenders, DistinctIds, AsMap, WithinCounters, Registered, InsertAll;
    var taken := PendingVectorTaken(news, rev);
    if taken || VectorTaken(t.revisions, rev) {
      return Some(RevisionEquivocation);
    }
    if lastCounter == MAX_UINT64 {
      return Some(CounterExhausted);
    }
    if rev.metadata.counter != lastCounter + 1 {
      return Some(CounterConflict);
    }
    if !Registered(t.devices, rev) {
      return Some(InvalidRequest);
    }
    if !WithinCounters(t.devices, rev) {
      return Some(CounterConflict);
    }
    if rev.metadata.record in t.markers {
      var above := VectorDominates(rev.metadata.vector, t.markers[rev.metadata.record].frontier);
      if !above {
        return Some(StaleAfterCollection);
      }
    }
    var siblings := GatherSiblings(t, device, news, rev);
    var count := CountUndominated(siblings);
    refusal := if count > MAX_SIBLINGS then Some(TooManySiblings) else None;
  }

  lemma ExtendFresh(t: Tables, device: DeviceId, news: seq<Revision>, rev: Revision)
    requires Fresh(t, device, news) && rev.metadata.author == device && rev.id !in t.revisions && rev.id !in NewIds(news)
    ensures Fresh(t, device, news + [rev])
    ensures InsertAll(t, news + [rev]) == AdmitOne(InsertAll(t, news), rev)
  {
    assert (news + [rev])[..|news|] == news;
    assert forall i | 0 <= i < |news| :: news[i].id in NewIds(news);
  }

  /** How a repeated identifier is answered, by a stored row or by a pending mutation. */
  lemma RowLookup(base: map<RevisionId, Row>, news: seq<Revision>, rows: map<RevisionId, Row>, rev: Revision)
    requires RowsHold(base, news, rows)
    ensures rev.id in rows <==> rev.id in base || rev.id in NewIds(news)
    ensures rev.id in base ==> rows[rev.id] == base[rev.id]
    ensures forall i | 0 <= i < |news| :: news[i].id in rows && rows[news[i].id].hash == ContentHash(news[i])
  {
    forall i | 0 <= i < |news|
      ensures news[i].id in rows && rows[news[i].id].hash == ContentHash(news[i])
    {
      assert HoldsNew(rows, news[i]);
    }
  }

  /** What one mutation adds to the pending ones: itself, nothing, or a refusal. */
  method ValidateNext(t: Tables, device: DeviceId, news: seq<Revision>, pendingById: map<RevisionId, Revision>, lastCounter: nat, rev: Revision)
    returns (r: Result<bool>)
    requires HeadsInv(t.revisions, t.heads) && WellShaped(device, rev) && Pending(t, device, news, pendingById, lastCounter)
    ensures r.Err? ==> AdmitNext(InsertAll(t, news), rev) == Err(r.error)
    ensures r == Ok(false) ==> AdmitNext(InsertAll(t, news), rev) == Ok(InsertAll(t, news))
    ensures r == Ok(true) ==> Fresh(t, device, news + [rev]) && AdmitNext(InsertAll(t, news), rev) == Ok(InsertAll(t, news + [rev]))
  {
    hide HeadsInv, AdmitOne, Refusal, RowsHold;
    InsertAllRows(t, device, news);
    RowLookup(t.revisions, news, InsertAll(t, news).revisions, rev);
    hide InsertAll;
    if rev.id in t.revisions {
      if t.revisions[rev.id].hash != ContentHash(rev) {
        return Err(RevisionEquivocation);
      }
      return Ok(false);
    }
    if rev.id in pendingById {
      ghost var i :| 0 <= i < |news| && news[i].id == rev.id;
      if pendingById[rev.id] != rev {
        return Err(RevisionEquivocation);
      }
      return Ok(false);
    }
    ExtendFresh(t, device, news, rev);
    var refusal := RefusalWhilePending(t, device, news, lastCounter, rev);
    if refusal.Some? {
      return Err(refusal.value);
    }
    return Ok(true);
  }

  lemma AdmitAllAt(u: Tables, device: DeviceId, batch: seq<Revision>, k: nat)
    requires device in u.devices && k < |batch| && forall i | 0 <= i < |batch| :: batch[i].metadata.author == device
    ensures AdmitNext(u, batch[k]).Err? ==> AdmitAll(u, device, batch[k..]) == Err(AdmitNext(u, batch[k]).error)
    ensures AdmitNext(u, batch[k]).Ok? && device in AdmitNext(u, batch[k]).value.devices ==>
              AdmitAll(u, device, batch[k..]) == AdmitAll(AdmitNext(u, batch[k]).value, device, batch[k + 1..])
  {
    hide AdmitNext;
    assert batch[k..][0] == batch[k] && batch[k..][1..] == batch[k + 1..];
  }

  /** The pending mutations, by position and by identifier, with the author's last counter. */
  ghost predicate Pending(t: Tables, device: DeviceId, news: seq<Revision>, pendingById: map<RevisionId, Revision>, lastCounter: nat) {
    && Fresh(t, device, news)
    && pendingById.Keys == NewIds(news) && (forall i | 0 <= i < |news| :: news[i].id in pendingById && pendingById[news[i].id] == news[i])
    && lastCounter == InsertAll(t, news).devices[device].maxCounter
  }

  lemma PendingGrows(t: Tables, device: DeviceId, news: seq<Revision>, pendingById: map<RevisionId, Revision>, lastCounter: nat, rev: Revision)
    requires Pending(t, device, news, pendingById, lastCounter) && Fresh(t, device, news + [rev])
    ensures Pending(t, device, news + [rev], pendingById[rev.id := rev], rev.metadata.counter)
  {
    hide InsertAll;
    InsertAllScalars(t, device, news + [rev]);
    assert forall i | 0 <= i < |news| :: (news + [rev])[i] == news[i];
    ExtendPending(news, pendingById, rev);
  }

  lemma PendingShape(t: Tables, device: DeviceId, news: seq<Revision>, pendingById: map<RevisionId, Revision>, lastCounter: nat)
    requires Pending(t, device, news, pendingById, lastCounter)
    ensures Fresh(t, device, news) && device in InsertAll(t, news).devices
    ensures forall i | 0 <= i < |news| :: news[i].metadata.author in t.devices
  {
  }

  /**
   Validate a whole batch before anything is written.  The answer is the new
   mutations in order, or the refusal one-at-a-time admission would give.
   */
  method ValidateMutations(t: Tables, device: DeviceId, batch: seq<Revision>) returns (r: Result<seq<Revision>>)
    requires HeadsInv(t.revisions, t.heads) && device in t.devices && AllWellShaped(device, batch)
    ensures r.Err? ==> AdmitAll(t, device, batch) == Err(r.error)
    ensures r.Ok? ==> Fresh(t, device, r.value) && AdmitAll(t, device, batch) == Ok(InsertAll(t, r.value))
  {
    var news: seq<Revision> := [];
    var pendingById: map<RevisionId, Revision> := map[];
    var lastCounter := t.devices[device].maxCounter;
    NothingInserted(t, news);
    assert Pending(t, device, news, pendingById, lastCounter);
    hide HeadsInv, AdmitNext, WellShaped, AdmitAll, InsertAll, Fresh, Pending;
    PendingShape(t, device, news, pendingById, lastCounter);
    assert batch[0..] == batch;
    for k := 0 to |batch|
      invariant Pending(t, device, news, pendingById, lastCounter)
      invariant Fresh(t, device, news) && device in InsertAll(t, news).devices
      invariant forall i | 0 <= i < |news| :: news[i].metadata.author in t.devices
      invariant AdmitAll(t, device, batch) == AdmitAll(InsertAll(t, news), device, batch[k..])
    {
      var rev := batch[k];
      var admitted := ValidateNext(t, device, news, pendingById, lastCounter, rev);
      AdmitAllAt(InsertAll(t, news), device, batch, k);
      if admitted.Err? {
        return Err(admitted.error);
      }
      if admitted.value {
        PendingGrows(t, device, news, pendingById, lastCounter, rev);
        news := news + [rev];
        pendingById := pendingById[rev.id := rev];
        lastCounter := rev.metadata.counter;
        PendingShape(t, device, news, pendingById, lastCounter);
      }
    }
    NothingLeft(InsertAll(t, news), device, batch);
    r := Ok(news);
  }

  lemma ExtendPending(news: seq<Revision>, pendingById: map<RevisionId, Revision>, rev: Revision)
    requires pendingById.Keys == NewIds(news) && forall i | 0 <= i < |news| :: news[i].id in pendingById && pendingById[news[i].id] == news[i]
    requires forall i | 0 <= i < |news| :: news[i].id != rev.id
    ensures pendingById[rev.id := rev].Keys == NewIds(news + [rev])
    ensures forall i | 0 <= i < |news + [rev]| ::
              (news + [rev])[i].id in pendingById[rev.id := rev] && pendingById[rev.id := rev][(news + [rev])[i].id] == (news + [rev])[i]
  {
    NewIdsAppend(news + [rev]);
    assert (news + [rev])[..|news|] == news;
  }

  lemma NothingLeft(u: Tables, device: DeviceId, batch: seq<Revision>)
    requires device in u.devices && forall i | 0 <= i < |batch| :: batch[i].metadata.author == device
    ensures AdmitAll(u, device, batch[|batch|..]) == Ok(u)
  {
  }

  method ClassifyFrontier(revisions: map<RevisionId, Row>, heads: set<RevisionId>, rev: Revision)
    returns (undominated: bool, dominated: set<RevisionId>)
    ensures undominated == EntersAsHead(revisions, heads, rev) && dominated == Superseded(revisions, heads, rev)
  {
    hide Dominates;
    undominated, dominated := true, {};
    var all := HeadsOf(revisions, heads, rev.metadata.record);
    var rest := all;
    while rest != {}
      invariant rest <= all
      invariant undominated == NoneAbove(revisions, all - rest, rev.metadata.vector)
      invariant dominated == AllBelow(revisions, all - rest, rev.metadata.vector)
      decreases |rest|
    {
      var h :| h in rest;
      assert all - (rest - {h}) == (all - rest) + {h};
      ClassifyOne(revisions, all - rest, h, rev.metadata.vector);
      var above := VectorDominates(VectorOf(revisions, h), rev.metadata.vector);
      if above {
        undominated := false;
      }
      var below := VectorDominates(rev.metadata.vector, VectorOf(revisions, h));
      if below {
        dominated := dominated + {h};
      }
      rest := rest - {h};
    }
    assert all - rest == all;
  }

  ghost predicate NoneAbove(revisions: map<RevisionId, Row>, ids: set<RevisionId>, v: Vector) {
    forall h | h in ids && h in revisions :: !Dominates(VectorOf(revisions, h), v)
  }

  ghost function AllBelow(revisions: map<RevisionId, Row>, ids: set<RevisionId>, v: Vector): set<RevisionId> {
    set h | h in ids && h in revisions && Dominates(v, VectorOf(revisions, h))
  }

  lemma ClassifyOne(revisions: map<RevisionId, Row>, ids: set<RevisionId>, h: RevisionId, v: Vector)
    requires h in revisions
    ensures NoneAbove(revisions, ids + {h}, v) <==> NoneAbove(revisions, ids, v) && !Dominates(VectorOf(revisions, h), v)
    ensures AllBelow(revisions, ids + {h}, v)
         == if Dominates(v, VectorOf(revisions, h)) then AllBelow(revisions, ids, v) + {h} else AllBelow(revisions, ids, v)
  {
    hide Dominates;
  }

  method InsertRevision(t: Tables, rev: Revision, cursor: Cursor) returns (u: Tables)
    requires rev.metadata.author in t.devices && cursor == t.cursor + 1
    ensures u == AdmitOne(t, rev).(devices := t.devices)
  {
    var undominated, dominated := ClassifyFrontier(t.revisions, t.heads, rev);
    var heads := t.heads - dominated;
    if undominated {
      heads := heads + {rev.id};
    }
    u := t.(cursor := cursor,
            objects := t.objects[ContentHash(rev) := rev],
            heads := heads,
            revisions := t.revisions[rev.id := Row(rev.metadata, ContentHash(rev), t.uptime, cursor, None)],
            candidates := t.candidates + {rev.id},
            barriers := t.barriers[rev.metadata.record := cursor],
            origins := t.origins[cursor := RecordRevision],
            changes := t.changes[cursor := RevisionChange(rev.id)]);
  }

  lemma InsertIgnoresDevices(t: Tables, u: Tables, rev: Revision)
    requires u == t.(devices := u.devices) && rev.metadata.author in t.devices && rev.metadata.author in u.devices
    ensures AdmitOne(u, rev).(devices := u.devices) == AdmitOne(t, rev).(devices := u.devices)
  {
    hide HeadsAfter;
  }

  lemma FreshPrefix(t: Tables, device: DeviceId, news: seq<Revision>, k: nat)
    requires Fresh(t, device, news) && k <= |news|
    ensures Fresh(t, device, news[..k])
  {
  }

  lemma InsertAllStep(t: Tables, device: DeviceId, news: seq<Revision>, k: nat)
    requires Fresh(t, device, news) && k < |news|
    ensures Fresh(t, device, news[..k]) && Fresh(t, device, news[..k + 1])
    ensures InsertAll(t, news[..k + 1]) == AdmitOne(InsertAll(t, news[..k]), news[k])
  {
    hide AdmitOne;
    assert news[..k + 1][..k] == news[..k];
  }

  method WriteAll(t: Tables, device: DeviceId, news: seq<Revision>) returns (u: Tables)
    requires Fresh(t, device, news)
    ensures u == InsertAll(t, news)
  {
    hide AdmitOne;
    InsertAllScalars(t, device, news);
    hide InsertAll;
    u := t;
    FreshPrefix(t, device, news, 0);
    NothingInserted(t, news[..0]);
    for k := 0 to |news|
      invariant Fresh(t, device, news[..k])
      invariant u == InsertAll(t, news[..k]).(devices := t.devices)
    {
      InsertAllStep(t, device, news, k);
      ghost var v := InsertAll(t, news[..k]);
      InsertAllScalars(t, device, news[..k]);
      InsertIgnoresDevices(v, u, news[k]);
      u := InsertRevision(u, news[k], u.cursor + 1);
    }
    assert news[..|news|] == news;
    if news != [] {
      u := u.(devices := u.devices[device := u.devices[device].(maxCounter := news[|news| - 1].metadata.counter)]);
    }
  }

  lemma NothingInserted(t: Tables, news: seq<Revision>)
    requires news == []
    ensures InsertAll(t, news) == t
  {
  }

  /**
   The writing half of a sync request.  Batch admission is one-at-a-time
   admission, with one extra refusal when the cursor space cannot hold the batch.
   */
  method AdmitBatch(t: Tables, device: DeviceId, batch: seq<Revision>) returns (r: Result<Tables>)
    requires HeadsInv(t.revisions, t.heads) && device in t.devices && t.cursor <= MAX_UINT64
    requires AllWellShaped(device, batch)
    ensures r == AdmitWithinCursors(t, device, batch)
  {
    hide HeadsInv, AdmitAll;
    var validated := ValidateMutations(t, device, batch);
    if validated.Err? {
      return Err(validated.error);
    }
    var news := validated.value;
    InsertAllScalars(t, device, news);
    if |news| > MAX_UINT64 - t.cursor {
      return Err(ServerCursorExhausted);
    }
    var u := WriteAll(t, device, news);
    r := Ok(u);
  }
}
