/**
 Delivery over whole runs: what one device uploads, every other device that
 syncs past its cursor receives as it was written.
 */
module StoreDelivery {
  import opened Outcomes
  import opened StoreTables
  import opened Sync
  import opened SyncEffects
  import opened StoreRuns

  /** The row of an upload, from the sync that brought it on. */
  lemma UploadKeepsItsRow(states: seq<Tables>, events: seq<Event>, i: nat, k: nat, m: nat)
    requires IsRun(states, events) && i < k < |states| && events[i].SyncEvent? && m < |events[i].q.mutations|
    ensures var rev := events[i].q.mutations[m]; rev.id in states[k].revisions && states[k].revisions[rev.id].hash.of == rev
  {
    hide RunInv, Step, Evolves;
    RunsAreSafe(states, events, i);
    RunsOnlyEvolve(states, events, i + 1, k);
    StepStores(states, events, i, m);
    RowKept(states[i + 1], states[k], events[i].q.mutations[m]);
  }

  lemma StepStores(states: seq<Tables>, events: seq<Event>, i: nat, m: nat)
    requires IsRun(states, events) && i < |events| && events[i].SyncEvent? && m < |events[i].q.mutations| && RunInv(states[i])
    ensures i + 1 < |states| && UploadStored(states[i], events[i].q, events[i].q.mutations[m], states[i + 1])
  {
    hide RunInv, SyncAnswers, CallerMoved, OnlyUploads, UploadStored;
    assert Step(states[i], events[i], states[i + 1]);
    SyncStores(states[i], events[i].q, Ok(Synced(states[i + 1], events[i].delta)));
  }

  lemma RowKept(a: Tables, b: Tables, rev: Revision)
    requires Evolves(a, b) && rev.id in a.revisions && a.revisions[rev.id].hash.of == rev
    ensures rev.id in b.revisions && b.revisions[rev.id].hash.of == rev
  {
  }

  /** A cursor that is delivered and belongs to a revision is delivered with that revision's content. */
  lemma DeliveredAsWritten(t: Tables, after: Cursor, d: Delta, r: RevisionId)
    requires RowLogInv(t.floor, t.revisions, t.origins, t.changes) && ObjectsInv(t.revisions, t.objects, t.snapshots)
    requires CompleteDelta(t, after, d) && r in t.revisions && after < t.revisions[r].cursor <= d.next
    ensures var c := t.revisions[r].cursor;
            c - after - 1 < |d.entries| && d.entries[c - after - 1] == Entry(c, RevisionItem(t.revisions[r].hash.of))
  {
    var c := t.revisions[r].cursor;
    assert Deliverable(t, c);
    assert d.entries[c - after - 1] == Entry(c, ItemAt(t, c));
  }

  lemma SyncDelivers(t: Tables, q: Request, r: Result<Synced>, rev: Revision)
    requires RunInv(t) && q.device in t.devices && UptimeMayBe(t, q.uptime) && SyncAnswers(t, q, r) && r.Ok?
    requires rev.id in r.value.tables.revisions && r.value.tables.revisions[rev.id].hash.of == rev
    requires q.after < r.value.tables.revisions[rev.id].cursor <= r.value.delta.next
    ensures var c := r.value.tables.revisions[rev.id].cursor;
            c - q.after - 1 < |r.value.delta.entries| && r.value.delta.entries[c - q.after - 1] == Entry(c, RevisionItem(rev))
  {
    hide RunInv, StoreInv, Evolves, SyncAnswers, CompleteDelta, LogInv, RowLogInv, ObjectsInv, HeadsInv;
    SyncKeepsInv(t, q, r);
    RunInvParts(r.value.tables);
    ObjectsPart(r.value.tables);
    DeliveredAsWritten(r.value.tables, q.after, r.value.delta, rev.id);
  }

  /** The cursor an upload has. */
  ghost function CursorOf(t: Tables, rev: Revision): Cursor
    requires rev.id in t.revisions
  {
    t.revisions[rev.id].cursor
  }

  /**
   Over every run: an upload that one sync stored is in the delta of every later sync, by whichever
   device, that starts before its cursor and ends at or after it, at its place and exactly as written.
   */
  lemma UploadsAreDelivered(states: seq<Tables>, events: seq<Event>, i: nat, k: nat, m: nat)
    requires IsRun(states, events) && i <= k < |events| && events[i].SyncEvent? && m < |events[i].q.mutations| && events[k].SyncEvent?
    ensures var rev := events[i].q.mutations[m];
            var (after, delta) := (events[k].q.after, events[k].delta);
            && rev.id in states[k + 1].revisions
            && var c := CursorOf(states[k + 1], rev);
               after < c <= delta.next ==> c - after - 1 < |delta.entries| && delta.entries[c - after - 1] == Entry(c, RevisionItem(rev))
  {
    hide RunInv, SyncAnswers;
    var rev := events[i].q.mutations[m];
    UploadKeepsItsRow(states, events, i, k + 1, m);
    RunsAreSafe(states, events, k);
    assert Step(states[k], events[k], states[k + 1]);
    var c := CursorOf(states[k + 1], rev);
    if events[k].q.after < c <= events[k].delta.next {
      SyncDelivers(states[k], events[k].q, Ok(Synced(states[k + 1], events[k].delta)), rev);
    }
  }
}
