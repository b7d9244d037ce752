/**
 The uptime clock: half of it durable (accumulated milliseconds), half of it in
 memory (the checkpoint up to which time has been counted).  Requests run
 concurrently over one database connection and one mutex.
 */
module Uptime {
  import opened Outcomes
  import opened Uint64

  const MS: int := 1_000_000

  /** Whole milliseconds from the checkpoint to a clock reading; a backward reading counts nothing. */
  function ElapsedMs(checkpoint: int, now: int): nat {
    if now <= checkpoint then 0 else (now - checkpoint) / MS
  }

  function NextCheckpoint(checkpoint: int, now: int): int {
    checkpoint + ElapsedMs(checkpoint, now) * MS
  }

  /** Addition that stops at the largest 64-bit value. */
  function AddSaturating(a: nat, b: nat): nat {
    if a + b > MAX_UINT64 then MAX_UINT64 else a + b
  }

  lemma AddSaturatingTwice(a: nat, b: nat, c: nat)
    ensures AddSaturating(AddSaturating(a, b), c) == AddSaturating(a, b + c)
  {
  }

  // ----- The machine ---------------------------------------------------------------------

  type TxId = nat

  /**
   A transaction has the connection from `Open` to `Locked`, and the mutex in `Locked` and
   `Committed`: it commits with the mutex held and publishes its checkpoint before letting go.
   */
  datatype Tx =
    | Open
    | Sampled(next: int, elapsed: nat)
    | Counted(next: int, total: nat)
    | Locked(next: int, total: nat)
    | Committed(next: int)

  /** `latest` is the largest clock reading used since boot. */
  datatype Machine = Machine(
    accumulated: nat, checkpoint: int, connection: Option<TxId>, mutex: Option<TxId>, txs: map<TxId, Tx>,
    bootAccumulated: nat, bootCheckpoint: int, latest: int)

  datatype Event =
    | Begin(tx: TxId)
    | Sample(tx: TxId, now: int)
    | Count(tx: TxId)
    | Lock(tx: TxId)
    | Commit(tx: TxId)
    | CommitFails(tx: TxId)
    | Publish(tx: TxId)
    | Abort(tx: TxId)
    | Reboot(now: int)

  predicate Enabled(m: Machine, e: Event) {
    match e
    case Begin(x) => m.connection.None? && x !in m.txs
    case Sample(x, _) => x in m.txs && m.txs[x].Open? && m.mutex.None?
    case Count(x) => x in m.txs && m.txs[x].Sampled?
    case Lock(x) => x in m.txs && m.txs[x].Counted? && m.mutex.None?
    case Commit(x) => x in m.txs && m.txs[x].Locked?
    case CommitFails(x) => x in m.txs && m.txs[x].Locked?
    case Publish(x) => x in m.txs && m.txs[x].Committed?
    case Abort(x) => x in m.txs && (m.txs[x].Open? || m.txs[x].Sampled? || m.txs[x].Counted?)
    case Reboot(_) => true
  }

  function Larger(a: int, b: int): int { if a < b then b else a }

  function Next(m: Machine, e: Event): Machine
    requires Enabled(m, e)
  {
    match e
    case Begin(x) => m.(connection := Some(x), txs := m.txs[x := Open])
    case Sample(x, now) =>
      m.(txs := m.txs[x := Sampled(NextCheckpoint(m.checkpoint, now), ElapsedMs(m.checkpoint, now))], latest := Larger(m.latest, now))
    case Count(x) => m.(txs := m.txs[x := Counted(m.txs[x].next, AddSaturating(m.accumulated, m.txs[x].elapsed))])
    case Lock(x) => m.(mutex := Some(x), txs := m.txs[x := Locked(m.txs[x].next, m.txs[x].total)])
    case Commit(x) => m.(accumulated := m.txs[x].total, connection := None, txs := m.txs[x := Committed(m.txs[x].next)])
    case CommitFails(x) => m.(connection := None, mutex := None, txs := m.txs - {x})
    case Publish(x) => m.(checkpoint := Larger(m.checkpoint, m.txs[x].next), mutex := None, txs := m.txs - {x})
    case Abort(x) => m.(connection := None, txs := m.txs - {x})
    case Reboot(now) => Machine(m.accumulated, now, None, None, map[], m.accumulated, now, now)
  }

  function Start(now: int): Machine {
    Machine(0, now, None, None, map[], 0, now, now)
  }

  // ----- Conservation ----------------------------------------------------------------------

  /** The checkpoint that the durable half already accounts for. */
  ghost function Accounted(m: Machine): int {
    if m.mutex.Some? && m.mutex.value in m.txs && m.txs[m.mutex.value].Committed? then m.txs[m.mutex.value].next else m.checkpoint
  }

  ghost predicate HoldsConnection(tx: Tx) {
    !tx.Committed?
  }

  ghost predicate HoldsMutex(tx: Tx) {
    tx.Locked? || tx.Committed?
  }

  ghost predicate LocksInv(m: Machine) {
    && (forall x | x in m.txs :: HoldsConnection(m.txs[x]) <==> m.connection == Some(x))
    && (forall x | x in m.txs :: HoldsMutex(m.txs[x]) <==> m.mutex == Some(x))
    && (m.connection.Some? ==> m.connection.value in m.txs)
    && (m.mutex.Some? ==> m.mutex.value in m.txs)
  }

  /** What a transaction has in hand is what is still uncounted at the checkpoint it read. */
  ghost predicate InHand(m: Machine, tx: Tx) {
    match tx
    case Open => true
    case Sampled(next, elapsed) => Accounted(m) == m.checkpoint && next == m.checkpoint + elapsed * MS && next <= m.latest
    case Counted(next, total) => Accounted(m) == m.checkpoint && Extends(m, next, total)
    case Locked(next, total) => Extends(m, next, total)
    case Committed(next) => m.checkpoint <= next <= m.latest
  }

  ghost predicate Extends(m: Machine, next: int, total: nat) {
    exists elapsed: nat :: next == m.checkpoint + elapsed * MS && next <= m.latest && total == AddSaturating(m.accumulated, elapsed)
  }

  /** Accumulated uptime since boot is exactly the advance of the checkpoint, in whole milliseconds, up to saturation. */
  ghost predicate Conserved(m: Machine) {
    && m.bootCheckpoint <= Accounted(m)
    && (Accounted(m) - m.bootCheckpoint) % MS == 0
    && m.accumulated == AddSaturating(m.bootAccumulated, (Accounted(m) - m.bootCheckpoint) / MS)
  }

  ghost predicate MachineInv(m: Machine) {
    && LocksInv(m)
    && (forall x | x in m.txs :: InHand(m, m.txs[x]))
    && Conserved(m)
    && m.bootCheckpoint <= m.checkpoint <= m.latest
    && m.accumulated <= MAX_UINT64
  }

  lemma SampleBounds(checkpoint: int, now: int)
    ensures checkpoint <= NextCheckpoint(checkpoint, now) <= Larger(checkpoint, now)
    ensures now - MS < NextCheckpoint(checkpoint, now)
  {
  }

  lemma CommitConserves(m: Machine, next: int, total: nat)
    requires Conserved(m) && Accounted(m) == m.checkpoint && Extends(m, next, total)
    ensures m.bootCheckpoint <= m.checkpoint <= next && (next - m.bootCheckpoint) % MS == 0
    ensures total == AddSaturating(m.bootAccumulated, (next - m.bootCheckpoint) / MS)
  {
    var elapsed: nat :| next == m.checkpoint + elapsed * MS && next <= m.latest && total == AddSaturating(m.accumulated, elapsed);
    AddSaturatingTwice(m.bootAccumulated, (m.checkpoint - m.bootCheckpoint) / MS, elapsed);
  }

  /** Starting and giving up leave the clock alone. */
  lemma EdgesKeepInv(m: Machine, e: Event)
    requires MachineInv(m) && Enabled(m, e) && (e.Begin? || e.CommitFails? || e.Abort? || e.Reboot?)
    ensures MachineInv(Next(m, e))
  {
  }

  lemma SampleKeepsInv(m: Machine, e: Event)
    requires MachineInv(m) && Enabled(m, e) && e.Sample?
    ensures MachineInv(Next(m, e))
  {
    SampleBounds(m.checkpoint, e.now);
    hide NextCheckpoint, ElapsedMs;
    assert NextCheckpoint(m.checkpoint, e.now) == m.checkpoint + ElapsedMs(m.checkpoint, e.now) * MS by { CheckpointAdvance(m.checkpoint, e.now); }
  }

  lemma CheckpointAdvance(checkpoint: int, now: int)
    ensures NextCheckpoint(checkpoint, now) == checkpoint + ElapsedMs(checkpoint, now) * MS
  {
  }

  lemma CountKeepsInv(m: Machine, e: Event)
    requires MachineInv(m) && Enabled(m, e) && e.Count?
    ensures MachineInv(Next(m, e))
  {
    hide AddSaturating;
  }

  lemma LockKeepsInv(m: Machine, e: Event)
    requires MachineInv(m) && Enabled(m, e) && e.Lock?
    ensures MachineInv(Next(m, e))
  {
    hide AddSaturating;
  }

  lemma CommitKeepsInv(m: Machine, e: Event)
    requires MachineInv(m) && Enabled(m, e) && e.Commit?
    ensures MachineInv(Next(m, e))
  {
    CommitConserves(m, m.txs[e.tx].next, m.txs[e.tx].total);
    AddBound(m.accumulated);
    hide AddSaturating;
  }

  lemma AddBound(a: nat)
    ensures forall b: nat :: AddSaturating(a, b) <= MAX_UINT64
  {
  }

  lemma PublishKeepsInv(m: Machine, e: Event)
    requires MachineInv(m) && Enabled(m, e) && e.Publish?
    ensures MachineInv(Next(m, e))
  {
    hide AddSaturating;
  }

  /** Every step of every transaction keeps the clock conserved. */
  lemma NextKeepsInv(m: Machine, e: Event)
    requires MachineInv(m) && Enabled(m, e)
    ensures MachineInv(Next(m, e))
  {
    hide MachineInv, Next, Enabled;
    match e
    case Sample(_, _) => SampleKeepsInv(m, e);
    case Count(_) => CountKeepsInv(m, e);
    case Lock(_) => LockKeepsInv(m, e);
    case Commit(_) => CommitKeepsInv(m, e);
    case Publish(_) => PublishKeepsInv(m, e);
    case _ => EdgesKeepInv(m, e);
  }

  ghost predicate IsRun(states: seq<Machine>, events: seq<Event>) {
    && |states| == |events| + 1 && (exists now :: states[0] == Start(now))
    && forall i | 0 <= i < |events| :: Enabled(states[i], events[i]) && states[i + 1] == Next(states[i], events[i])
  }

  /**
   Conservation of uptime.  In every interleaving of transactions, aborts, failed commits, late or
   backward readings and reboots: whenever no commit is being published, the uptime gained since
   boot equals the checkpoint's advance in whole milliseconds (up to saturation), and never more
   than the clock was seen to advance.
   */
  lemma {:induction false} UptimeIsConserved(states: seq<Machine>, events: seq<Event>, k: nat)
    requires IsRun(states, events) && k < |states|
    ensures MachineInv(states[k])
    ensures var m := states[k];
            && (m.mutex.None? ==> m.accumulated == AddSaturating(m.bootAccumulated, (m.checkpoint - m.bootCheckpoint) / MS))
            && m.accumulated <= AddSaturating(m.bootAccumulated, (m.latest - m.bootCheckpoint) / MS)
  {
    if k > 0 {
      UptimeIsConserved(states, events, k - 1);
      assert Enabled(states[k - 1], events[k - 1]);
      NextKeepsInv(states[k - 1], events[k - 1]);
    }
  }

  /** Durable uptime never goes back, not even over a reboot. */
  lemma {:induction false} UptimeNeverDecreases(states: seq<Machine>, events: seq<Event>, i: nat, k: nat)
    requires IsRun(states, events) && i <= k < |states|
    ensures states[i].accumulated <= states[k].accumulated
    decreases k - i
  {
    if i < k {
      UptimeNeverDecreases(states, events, i, k - 1);
      UptimeIsConserved(states, events, k - 1);
      var m, e := states[k - 1], events[k - 1];
      assert Enabled(m, e);
      if e.Commit? {
        assert InHand(m, m.txs[e.tx]);
      }
    }
  }

  /** A published checkpoint leaves less than a millisecond uncounted before the reading it was made from. */
  lemma PublishedCountsAll(m: Machine, x: TxId, now: int)
    requires MachineInv(m) && Enabled(m, Sample(x, now))
    ensures var sampled := Next(m, Sample(x, now));
            var counted := Next(sampled, Count(x));
            var locked := Next(counted, Lock(x));
            var committed := Next(locked, Commit(x));
            var published := Next(committed, Publish(x));
            && now - MS < published.checkpoint
            && published.accumulated == AddSaturating(m.accumulated, ElapsedMs(m.checkpoint, now))
  {
    SampleBounds(m.checkpoint, now);
  }

  lemma WholeMilliseconds(boot: int, checkpoint: int, now: int)
    requires boot <= checkpoint <= now && (checkpoint - boot) % MS == 0
    ensures (checkpoint - boot) / MS + (now - checkpoint) / MS == (now - boot) / MS
  {
  }

  /**
   Nothing is lost to rounding and nobody is shut out: in every reachable machine without a transaction in flight, the
   next one gets through, and the uptime it commits at a reading at or past the checkpoint is that of the boot plus all
   whole milliseconds since, however many checkpoints there were between.
   */
  lemma IdleClockCountsAll(states: seq<Machine>, events: seq<Event>, k: nat, x: TxId, now: int)
    requires IsRun(states, events) && k < |states| && states[k].txs == map[] && states[k].checkpoint <= now
    ensures var m := states[k];
            && Enabled(m, Begin(x))
            && var begun := Next(m, Begin(x));
               Enabled(begun, Sample(x, now))
               && var sampled := Next(begun, Sample(x, now));
                  var counted := Next(sampled, Count(x));
                  var locked := Next(counted, Lock(x));
                  var committed := Next(locked, Commit(x));
                  var published := Next(committed, Publish(x));
                  && published.txs == map[] && m.bootCheckpoint <= now
                  && published.accumulated == AddSaturating(m.bootAccumulated, (now - m.bootCheckpoint) / MS)
  {
    UptimeIsConserved(states, events, k);
    var m := states[k];
    assert m.connection.None? && m.mutex.None?;
    var begun := Next(m, Begin(x));
    NextKeepsInv(m, Begin(x));
    PublishedCountsAll(begun, x, now);
    WholeMilliseconds(m.bootCheckpoint, m.checkpoint, now);
    AddSaturatingTwice(m.bootAccumulated, (m.checkpoint - m.bootCheckpoint) / MS, (now - m.checkpoint) / MS);
    assert m.txs[x := Open] - {x} == map[];
  }
}
