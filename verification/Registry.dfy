/**
 Enrollment, revocation and the envelope's compare-and-set: the small
 transactions that each take one cursor.
 */
module Registry {
  import opened Outcomes
  import opened Uint64
  import opened Vectors
  import opened StoreTables

  /** Log one change at the next cursor. */
  function Log(t: Tables, change: Change): Tables {
    t.(cursor := t.cursor + 1,
       origins := t.origins[t.cursor + 1 := KindOf(change)],
       changes := t.changes[t.cursor + 1 := change])
  }

  function Enroll(t: Tables, device: DeviceId, tokenTaken: bool): Result<Tables> {
    if device in t.devices || tokenTaken then Err(EnrollmentReplayMismatch)
    else if |t.devices| >= MAX_DEVICES then Err(LimitExceeded)
    else if t.cursor >= MAX_UINT64 then Err(ServerCursorExhausted)
    else Ok(WithDevice(t, device, Device(false, 0, 0, 0), true))
  }

  function Active(devices: map<DeviceId, Device>): set<DeviceId> {
    set d | d in devices && !devices[d].revoked
  }

  function Revoke(t: Tables, target: DeviceId, allowZeroActive: bool): Result<Tables> {
    if target !in t.devices then Err(DeviceNotFound)
    else if t.devices[target].revoked then Ok(t)
    else if |Active(t.devices)| == 1 && !allowZeroActive then Err(ZeroActiveConfirmationRequired)
    else if t.cursor >= MAX_UINT64 then Err(ServerCursorExhausted)
    else Ok(WithDevice(t, target, t.devices[target].(revoked := true), false))
  }

  /** Compare the expected generation, then set the next one. */
  function PutEnvelope(t: Tables, expected: nat, proposed: nat, wellFormed: bool): Result<Tables> {
    if expected != t.envelopeGeneration then Err(GenerationConflict)
    else if t.envelopeGeneration >= MAX_UINT64 then Err(GenerationExhausted)
    else if proposed != t.envelopeGeneration + 1 then Err(InvalidRequest)
    else if t.cursor >= MAX_UINT64 then Err(ServerCursorExhausted)
    else if !wellFormed then Err(InvalidRequest)
    else Ok(Log(t.(envelopeGeneration := proposed, envelope := Some(proposed)), EnvelopeChange(proposed)))
  }

  // ----- The envelope's history -------------------------------------------------------------

  ghost predicate GenerationLogged(origins: map<Cursor, Kind>, generation: nat) {
    exists c :: c in origins && origins[c] == EnvelopeChanged(generation)
  }

  /** Generations 1 to the current one were each set exactly once, in cursor order. */
  ghost predicate EnvelopeInv(generation: nat, envelope: Option<nat>, origins: map<Cursor, Kind>) {
    && generation <= MAX_UINT64
    && envelope == (if generation == 0 then None else Some(generation))
    && (forall c | c in origins && origins[c].EnvelopeChanged? :: 1 <= origins[c].generation <= generation)
    && (forall c, d | c in origins && d in origins && c < d && origins[c].EnvelopeChanged? && origins[d].EnvelopeChanged? ::
          origins[c].generation < origins[d].generation)
    && (forall g | 1 <= g <= generation :: GenerationLogged(origins, g))
  }

  /** Nothing but other kinds of change was logged. */
  ghost predicate NoEnvelopeLogged(a: map<Cursor, Kind>, b: map<Cursor, Kind>) {
    OriginsEvolve(a, b) && forall c | c in b && c !in a :: !b[c].EnvelopeChanged?
  }

  lemma QuietKeepsEnvelope(generation: nat, envelope: Option<nat>, a: map<Cursor, Kind>, b: map<Cursor, Kind>)
    requires EnvelopeInv(generation, envelope, a) && NoEnvelopeLogged(a, b)
    ensures EnvelopeInv(generation, envelope, b)
  {
    forall g | 1 <= g <= generation
      ensures GenerationLogged(b, g)
    {
      assert GenerationLogged(a, g);
      var c :| c in a && a[c] == EnvelopeChanged(g);
      assert c in b;
    }
  }

  lemma PutKeepsEnvelope(t: Tables, proposed: nat)
    requires EnvelopeInv(t.envelopeGeneration, t.envelope, t.origins) && proposed == t.envelopeGeneration + 1 <= MAX_UINT64
    requires forall c | c in t.origins :: c <= t.cursor
    ensures EnvelopeInv(proposed, Some(proposed), t.origins[t.cursor + 1 := EnvelopeChanged(proposed)])
  {
    var after := t.origins[t.cursor + 1 := EnvelopeChanged(proposed)];
    forall g | 1 <= g <= proposed
      ensures GenerationLogged(after, g)
    {
      if g == proposed {
        assert t.cursor + 1 in after;
      } else {
        assert GenerationLogged(t.origins, g);
        var c :| c in t.origins && t.origins[c] == EnvelopeChanged(g);
        assert c in after;
      }
    }
  }

  // ----- Each of them keeps the joint invariant ------------------------------------------------

  lemma RegistryAt(cursor: Cursor, before: map<DeviceId, Device>, after: map<DeviceId, Device>, revisions: map<RevisionId, Row>, d: DeviceId, device: Device)
    requires RegistryInv(cursor, before, revisions) && after == before[d := device]
    requires device.ack <= device.maxReturned <= cursor && device.maxCounter <= MAX_UINT64
    requires d in before ==> before[d].maxCounter <= device.maxCounter
    ensures RegistryInv(cursor + 1, after, revisions) && RegistryInv(cursor, after, revisions)
  {
    forall r | r in revisions
      ensures Known(after, VectorOf(revisions, r))
    {
      assert Known(before, VectorOf(revisions, r));
    }
  }

  /** One logged change that touches devices and the envelope only. */
  lemma LoggedFrame(t: Tables, u: Tables, change: Change)
    requires StoreInv(t) && t.cursor < MAX_UINT64 && !change.RevisionChange?
    requires u == Log(t.(devices := u.devices, envelope := u.envelope, envelopeGeneration := u.envelopeGeneration), change)
    requires t.envelopeGeneration <= u.envelopeGeneration
    requires RegistryInv(u.cursor, u.devices, u.revisions) && DevicesEvolve(t.devices, u.devices)
    ensures StoreInv(u) && Evolves(t, u)
  {
    hide LogInv, RowLogInv, ObjectsInv, HeadsInv, SiblingsInv, DistinctVectors, CoverageInv, MarkersInv, QueueInv, RegistryInv,
         AuthorsInv, DevicesEvolve, OriginsEvolve;
    LogGrows(t.cursor, t.floor, t.revisions, t.origins, t.changes, change);
    QueueAtNext(t);
  }

  lemma QueueAtNext(t: Tables)
    requires QueueInv(t.cursor, t.uptime, t.revisions, t.candidates, t.barriers)
    ensures QueueInv(t.cursor + 1, t.uptime, t.revisions, t.candidates, t.barriers)
  {
  }

  lemma DevicesUnchanged(t: Tables)
    requires RegistryInv(t.cursor, t.devices, t.revisions)
    ensures RegistryInv(t.cursor + 1, t.devices, t.revisions) && DevicesEvolve(t.devices, t.devices)
  {
  }

  lemma StoreParts(t: Tables)
    requires StoreInv(t)
    ensures LogInv(t.cursor, t.floor, t.origins, t.changes) && RegistryInv(t.cursor, t.devices, t.revisions)
    ensures forall c | c in t.origins :: c <= t.cursor
    ensures forall d | d in t.devices ::
              t.devices[d].ack <= t.devices[d].maxReturned <= t.cursor && t.devices[d].maxCounter <= MAX_UINT64
  {
    hide RowLogInv, ObjectsInv, HeadsInv, SiblingsInv, DistinctVectors, CoverageInv, MarkersInv, QueueInv, AuthorsInv;
  }

  lemma LogIsQuiet(cursor: Cursor, origins: map<Cursor, Kind>, kind: Kind)
    requires !kind.EnvelopeChanged? && cursor + 1 !in origins
    ensures NoEnvelopeLogged(origins, origins[cursor + 1 := kind]) && NoEnvelopeLogged(origins, origins)
  {
  }

  lemma DeviceStep(devices: map<DeviceId, Device>, d: DeviceId, device: Device)
    requires d in devices ==> (devices[d].revoked ==> device.revoked) && devices[d].ack <= device.ack
                              && devices[d].maxCounter <= device.maxCounter && devices[d].maxReturned <= device.maxReturned
    ensures DevicesEvolve(devices, devices[d := device])
  {
  }

  lemma OneMore(devices: map<DeviceId, Device>, d: DeviceId, device: Device)
    requires d !in devices
    ensures |devices[d := device]| == |devices| + 1 && devices[d := device].Keys == devices.Keys + {d}
  {
    var after := devices[d := device];
    assert after.Keys == devices.Keys + {d};
    assert |after| == |after.Keys| && |devices| == |devices.Keys|;
  }

  /** What a device change writes. */
  function WithDevice(t: Tables, d: DeviceId, device: Device, enrolled: bool): Tables {
    Log(t.(devices := t.devices[d := device]), DeviceChange(d, enrolled))
  }

  lemma WithDeviceFields(t: Tables, d: DeviceId, device: Device, enrolled: bool)
    ensures var u := WithDevice(t, d, device, enrolled);
            && u.devices == t.devices[d := device] && u.cursor == t.cursor + 1 && u.revisions == t.revisions
            && u.origins == t.origins[t.cursor + 1 := DeviceChanged] && u.envelopeGeneration == t.envelopeGeneration && u.envelope == t.envelope
  {
  }

  /** One device changes, as one logged change. */
  lemma WithDeviceKeepsInv(t: Tables, d: DeviceId, device: Device, enrolled: bool)
    requires StoreInv(t) && t.cursor < MAX_UINT64
    requires device.ack <= device.maxReturned <= t.cursor && device.maxCounter <= MAX_UINT64
    requires d in t.devices ==> (t.devices[d].revoked ==> device.revoked) && t.devices[d].ack <= device.ack
                                && t.devices[d].maxCounter <= device.maxCounter && t.devices[d].maxReturned <= device.maxReturned
    ensures StoreInv(WithDevice(t, d, device, enrolled)) && Evolves(t, WithDevice(t, d, device, enrolled))
    ensures NoEnvelopeLogged(t.origins, WithDevice(t, d, device, enrolled).origins)
  {
    hide StoreInv, Evolves, RegistryInv, DevicesEvolve, NoEnvelopeLogged;
    StoreParts(t);
    WithDeviceFields(t, d, device, enrolled);
    var u := WithDevice(t, d, device, enrolled);
    LogIsQuiet(t.cursor, t.origins, DeviceChanged);
    DeviceStep(t.devices, d, device);
    RegistryAt(t.cursor, t.devices, u.devices, t.revisions, d, device);
    LoggedFrame(t, u, DeviceChange(d, enrolled));
  }

  /** Enrollment takes one cursor and adds one device that has acknowledged nothing. */
  lemma EnrollKeepsInv(t: Tables, device: DeviceId, tokenTaken: bool)
    requires StoreInv(t) && Enroll(t, device, tokenTaken).Ok?
    ensures var u := Enroll(t, device, tokenTaken).value;
            && StoreInv(u) && Evolves(t, u) && u.cursor == t.cursor + 1
            && u.devices == t.devices[device := Device(false, 0, 0, 0)]
            && u.devices.Keys == t.devices.Keys + {device} && |u.devices| <= MAX_DEVICES
            && NoEnvelopeLogged(t.origins, u.origins)
  {
    hide StoreInv, Evolves, NoEnvelopeLogged;
    var newcomer := Device(false, 0, 0, 0);
    WithDeviceFields(t, device, newcomer, true);
    hide WithDevice;
    OneMore(t.devices, device, newcomer);
    WithDeviceKeepsInv(t, device, newcomer, true);
  }

  lemma ActiveWithout(devices: map<DeviceId, Device>, target: DeviceId)
    requires target in devices
    ensures var after := devices[target := devices[target].(revoked := true)];
            after.Keys == devices.Keys && Active(after) == Active(devices) - {target}
            && (!devices[target].revoked ==> |Active(after)| == |Active(devices)| - 1)
  {
    var after := devices[target := devices[target].(revoked := true)];
    if !devices[target].revoked {
      assert Active(devices) == Active(after) + {target};
    }
  }

  /** Revocation takes one cursor, is final, and never leaves zero active devices unconfirmed. */
  lemma RevokeKeepsInv(t: Tables, target: DeviceId, allowZeroActive: bool)
    requires StoreInv(t) && Revoke(t, target, allowZeroActive).Ok?
    ensures var u := Revoke(t, target, allowZeroActive).value;
            && StoreInv(u) && Evolves(t, u) && u.devices.Keys == t.devices.Keys && u.devices[target].revoked
            && (u != t <==> !t.devices[target].revoked) && (u != t ==> u.cursor == t.cursor + 1)
            && Active(u.devices) == Active(t.devices) - {target}
            && (Active(u.devices) == {} && !allowZeroActive ==> u == t)
            && NoEnvelopeLogged(t.origins, u.origins)
  {
    hide StoreInv, Evolves, NoEnvelopeLogged, Active;
    ActiveWithout(t.devices, target);
    if t.devices[target].revoked {
      EvolvesReflexive(t);
      SameLogIsQuiet(t.origins);
      assert t.devices[target := t.devices[target].(revoked := true)] == t.devices;
    } else {
      StoreParts(t);
      var gone := t.devices[target].(revoked := true);
      WithDeviceFields(t, target, gone, false);
      hide WithDevice;
      WithDeviceKeepsInv(t, target, gone, false);
    }
  }

  lemma SameLogIsQuiet(origins: map<Cursor, Kind>)
    ensures NoEnvelopeLogged(origins, origins)
  {
  }

  /** The compare-and-set takes one cursor and advances the generation by exactly one. */
  lemma PutEnvelopeKeepsInv(t: Tables, expected: nat, proposed: nat, wellFormed: bool)
    requires StoreInv(t) && EnvelopeInv(t.envelopeGeneration, t.envelope, t.origins)
    requires PutEnvelope(t, expected, proposed, wellFormed).Ok?
    ensures var u := PutEnvelope(t, expected, proposed, wellFormed).value;
            && StoreInv(u) && Evolves(t, u) && u.cursor == t.cursor + 1 && u.envelopeGeneration == t.envelopeGeneration + 1
            && EnvelopeInv(u.envelopeGeneration, u.envelope, u.origins) && u.devices == t.devices
  {
    hide StoreInv, Evolves, RegistryInv, DevicesEvolve, EnvelopeInv;
    StoreParts(t);
    var u := PutEnvelope(t, expected, proposed, wellFormed).value;
    PutKeepsEnvelope(t, proposed);
    DevicesUnchanged(t);
    LoggedFrame(t, u, EnvelopeChange(proposed));
  }

  // ----- When each of them is refused -----------------------------------------------------------

  /** A new device joins while there are fewer than 64 and a cursor is left; each refusal has its own reason. */
  lemma EnrollIff(t: Tables, device: DeviceId, tokenTaken: bool)
    ensures Enroll(t, device, tokenTaken).Ok? <==> device !in t.devices && !tokenTaken && |t.devices| < 64 && t.cursor < MAX_UINT64
    ensures Enroll(t, device, tokenTaken) == Err(EnrollmentReplayMismatch) <==> device in t.devices || tokenTaken
    ensures Enroll(t, device, tokenTaken) == Err(LimitExceeded) <==> device !in t.devices && !tokenTaken && |t.devices| >= 64
    ensures Enroll(t, device, tokenTaken).Ok? ==>
              var u := Enroll(t, device, tokenTaken).value;
              t.cursor + 1 in u.changes && u.changes[t.cursor + 1] == DeviceChange(device, true)
  {
  }

  /** Some device other than `target` is active. */
  predicate OthersActive(devices: map<DeviceId, Device>, target: DeviceId) {
    exists d | d in devices :: d != target && !devices[d].revoked
  }

  lemma LastActive(devices: map<DeviceId, Device>, target: DeviceId)
    requires target in devices && !devices[target].revoked
    ensures |Active(devices)| == 1 <==> !OthersActive(devices, target)
  {
    if d :| d in devices && d != target && !devices[d].revoked {
      SubsetSize({d, target}, Active(devices));
    } else {
      assert Active(devices) == {target};
    }
  }

  /**
   Revoking one of several active devices needs no confirmation, revoking the last one does, and revoking a revoked
   one changes nothing.
   */
  lemma RevokeIff(t: Tables, target: DeviceId, allowZeroActive: bool)
    ensures Revoke(t, target, allowZeroActive) == Err(DeviceNotFound) <==> target !in t.devices
    ensures target in t.devices && t.devices[target].revoked ==> Revoke(t, target, allowZeroActive) == Ok(t)
    ensures target in t.devices && !t.devices[target].revoked ==>
              && (Revoke(t, target, allowZeroActive) == Err(ZeroActiveConfirmationRequired) <==> !OthersActive(t.devices, target) && !allowZeroActive)
              && (Revoke(t, target, allowZeroActive).Ok? <==> (OthersActive(t.devices, target) || allowZeroActive) && t.cursor < MAX_UINT64)
    ensures target in t.devices && !t.devices[target].revoked && Revoke(t, target, allowZeroActive).Ok? ==>
              var u := Revoke(t, target, allowZeroActive).value;
              && t.cursor + 1 in u.changes && u.changes[t.cursor + 1] == DeviceChange(target, false)
              && u.devices == t.devices[target := t.devices[target].(revoked := true)]
  {
    if target in t.devices && !t.devices[target].revoked {
      LastActive(t.devices, target);
    }
    hide Active, OthersActive;
  }

  /** The envelope is set exactly when the expected generation is the current one and the proposed one is the next. */
  lemma PutEnvelopeIff(t: Tables, expected: nat, proposed: nat, wellFormed: bool)
    requires t.envelopeGeneration <= MAX_UINT64
    ensures PutEnvelope(t, expected, proposed, wellFormed).Ok? <==>
              && expected == t.envelopeGeneration && proposed == expected + 1 && proposed <= MAX_UINT64
              && wellFormed && t.cursor < MAX_UINT64
    ensures PutEnvelope(t, expected, proposed, wellFormed) == Err(GenerationConflict) <==> expected != t.envelopeGeneration
    ensures PutEnvelope(t, expected, proposed, wellFormed) == Err(GenerationExhausted) <==>
              expected == t.envelopeGeneration && expected == MAX_UINT64
    ensures PutEnvelope(t, expected, proposed, wellFormed).Ok? ==>
              var u := PutEnvelope(t, expected, proposed, wellFormed).value;
              && u.envelopeGeneration == proposed && u.envelope == Some(proposed)
              && t.cursor + 1 in u.changes && u.changes[t.cursor + 1] == EnvelopeChange(proposed)
  {
  }
}
