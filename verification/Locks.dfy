/**
 The lock protocol around the lifecycle: mutators serialize on the home
 directory and take the lock file exclusively; previews and enrollment leases
 share it, and a preview must cope with a lock file that does not exist yet.
 */
module Locks {
  import opened Outcomes
  import opened Deployment

  type Pid = nat

  /** What an enrollment expects the active deployment to be. */
  datatype Binding = Binding(generation: nat, release: Release)

  /**
   A preview remembers, for each of its reads, how many writes had happened.  A lease remembers the
   binding it was granted for and the executable that serves it.
   */
  datatype Process =
    | Admitted
    | Opened
    | Mutating
    | Reading(locked: bool, seen: seq<nat>)
    | Returned(seen: seq<nat>)
    | Sharing(binding: Binding)
    | Leased(binding: Binding, executable: Release)
    | Finished

  /** The lock file, its holders, the home-directory lock, and the disk with its count of writes. */
  datatype World = World(present: bool, exclusive: Option<Pid>, shared: set<Pid>, bootstrap: Option<Pid>,
                         writes: nat, disk: Host, processes: map<Pid, Process>)

  datatype Event =
    | TakeBootstrap(p: Pid)
    | OpenLock(p: Pid)
    | TakeExclusive(p: Pid)
    | Write(p: Pid, disk: Host)
    | Leave(p: Pid)
    | StartPreview(p: Pid)
    | ReadDisk(p: Pid)
    | FinishPreview(p: Pid)
    | StartLease(p: Pid, binding: Binding)
    | CheckLease(p: Pid, executable: Release)
    | CloseLease(p: Pid)

  predicate Is(w: World, p: Pid, process: Process) {
    p in w.processes && w.processes[p] == process
  }

  predicate Enabled(w: World, e: Event) {
    match e
    case TakeBootstrap(p) => p !in w.processes && w.bootstrap.None?
    case OpenLock(p) => Is(w, p, Admitted)
    case TakeExclusive(p) => Is(w, p, Opened)
    case Write(p, _) => Is(w, p, Mutating)
    case Leave(p) => Is(w, p, Admitted) || Is(w, p, Opened) || Is(w, p, Mutating)
    case StartPreview(p) => p !in w.processes
    case ReadDisk(p) => p in w.processes && w.processes[p].Reading?
    case FinishPreview(p) => p in w.processes && w.processes[p].Reading?
    case StartLease(p, _) => p !in w.processes
    case CheckLease(p, _) => p in w.processes && w.processes[p].Sharing?
    case CloseLease(p) => p in w.processes && w.processes[p].Leased?
  }

  function Became(w: World, p: Pid, process: Process): World {
    w.(processes := w.processes[p := process])
  }

  /** Let go of everything a process holds. */
  function Released(w: World, p: Pid, process: Process): World {
    Became(w, p, process).(
      exclusive := if w.exclusive == Some(p) then None else w.exclusive,
      bootstrap := if w.bootstrap == Some(p) then None else w.bootstrap,
      shared := w.shared - {p})
  }

  /** Take the shared side without waiting and without creating the file; an exclusive holder refuses it. */
  function TryShared(w: World, p: Pid, absent: Process, granted: Process): World {
    if !w.present then Became(w, p, absent)
    else if w.exclusive.Some? then Became(w, p, Finished)
    else Became(w, p, granted).(shared := w.shared + {p})
  }

  /** The recorded deployment is active, is the serving executable, and is what was expected. */
  predicate BindingHolds(h: Host, b: Binding) {
    && h.journal.None? && h.state.Some? && h.state.value.status != UninstalledStatus
    && h.state.value.active == Some(b.release) && h.state.value.generation == b.generation
  }

  function Next(w: World, e: Event): World
    requires Enabled(w, e)
  {
    match e
    case TakeBootstrap(p) => Became(w, p, Admitted).(bootstrap := Some(p))
    case OpenLock(p) => Became(w, p, Opened).(present := true)
    case TakeExclusive(p) =>
      if w.exclusive.Some? || w.shared != {} then Released(w, p, Finished)
      else Became(w, p, Mutating).(exclusive := Some(p))
    case Write(p, disk) => w.(disk := disk, writes := w.writes + 1)
    case Leave(p) => Released(w, p, Finished)
    case StartPreview(p) => TryShared(w, p, Reading(false, []), Reading(true, []))
    case ReadDisk(p) => Became(w, p, w.processes[p].(seen := w.processes[p].seen + [w.writes]))
    case FinishPreview(p) =>
      if w.processes[p].locked then Released(w, p, Returned(w.processes[p].seen))
      else TryShared(w, p, Returned(w.processes[p].seen), Reading(true, []))
    case StartLease(p, b) => TryShared(w, p, Finished, Sharing(b))
    case CheckLease(p, executable) =>
      var b := w.processes[p].binding;
      if BindingHolds(w.disk, b) && b.release == executable then Became(w, p, Leased(b, executable)) else Released(w, p, Finished)
    case CloseLease(p) => Released(w, p, Finished)
  }

  function Start(present: bool, disk: Host): World {
    World(present, None, {}, None, 0, disk, map[])
  }

  // ----- Safety ---------------------------------------------------------------------------

  /** All reads saw the disk after the same writes. */
  predicate OneMoment(seen: seq<nat>) {
    forall i, k | 0 <= i < k < |seen| :: seen[i] == seen[k]
  }

  predicate AllAt(seen: seq<nat>, writes: nat) {
    forall i | 0 <= i < |seen| :: seen[i] == writes
  }

  predicate ProcessOk(w: World, p: Pid, process: Process) {
    match process
    case Admitted => w.bootstrap == Some(p)
    case Opened => w.bootstrap == Some(p) && w.present
    case Mutating => w.exclusive == Some(p) && w.bootstrap == Some(p)
    case Reading(locked, seen) => if locked then p in w.shared && AllAt(seen, w.writes) else w.present || AllAt(seen, w.writes)
    case Returned(seen) => OneMoment(seen)
    case Sharing(b) => p in w.shared
    case Leased(b, executable) => p in w.shared && BindingHolds(w.disk, b) && executable == b.release
    case Finished => true
  }

  predicate WorldInv(w: World) {
    && (w.exclusive.Some? ==> w.present && w.shared == {} && Is(w, w.exclusive.value, Mutating))
    && (w.shared != {} ==> w.present)
    && (forall p | p in w.shared :: p in w.processes && !w.processes[p].Mutating?)
    && (w.bootstrap.Some? ==> w.bootstrap.value in w.processes)
    && (forall p | p in w.processes :: ProcessOk(w, p, w.processes[p]))
  }

  lemma MutatorKeepsInv(w: World, e: Event)
    requires WorldInv(w) && Enabled(w, e) && (e.TakeBootstrap? || e.OpenLock? || e.TakeExclusive?)
    ensures WorldInv(Next(w, e))
  {
    hide BindingHolds, OneMoment, AllAt;
  }

  /** Writing needs the exclusive side, so no reader and no lease is beside it. */
  lemma WriteKeepsInv(w: World, e: Event)
    requires WorldInv(w) && Enabled(w, e) && e.Write?
    ensures WorldInv(Next(w, e))
  {
    hide BindingHolds, OneMoment, AllAt;
  }

  lemma LeaveKeepsInv(w: World, e: Event)
    requires WorldInv(w) && Enabled(w, e) && (e.Leave? || e.CloseLease?)
    ensures WorldInv(Next(w, e))
  {
    hide BindingHolds, OneMoment, AllAt;
  }

  lemma PreviewKeepsInv(w: World, e: Event)
    requires WorldInv(w) && Enabled(w, e) && (e.StartPreview? || e.ReadDisk? || e.FinishPreview?)
    ensures WorldInv(Next(w, e))
  {
    hide BindingHolds;
  }

  lemma LeaseKeepsInv(w: World, e: Event)
    requires WorldInv(w) && Enabled(w, e) && (e.StartLease? || e.CheckLease?)
    ensures WorldInv(Next(w, e))
  {
    hide BindingHolds, OneMoment, AllAt;
  }

  /** A lease is granted exactly when no journal is there and the record and the executable are what was expected. */
  lemma LeaseGrantedIff(w: World, p: Pid, executable: Release)
    requires WorldInv(w) && Enabled(w, CheckLease(p, executable))
    ensures var b := w.processes[p].binding;
            var n := Next(w, CheckLease(p, executable));
            && (p in n.processes && n.processes[p].Leased? <==>
                  && w.disk.journal.None? && w.disk.state.Some? && w.disk.state.value.status != UninstalledStatus
                  && w.disk.state.value.active == Some(executable) && executable == b.release && w.disk.state.value.generation == b.generation)
            && (p in n.processes && n.processes[p].Leased? ==> w.exclusive.None? && n.disk == w.disk)
  {
    assert ProcessOk(w, p, w.processes[p]);
  }

  lemma NextKeepsInv(w: World, e: Event)
    requires WorldInv(w) && Enabled(w, e)
    ensures WorldInv(Next(w, e))
  {
    hide WorldInv, Next, Enabled;
    match e
    case Write(_, _) => WriteKeepsInv(w, e);
    case Leave(_) => LeaveKeepsInv(w, e);
    case CloseLease(_) => LeaveKeepsInv(w, e);
    case StartPreview(_) => PreviewKeepsInv(w, e);
    case ReadDisk(_) => PreviewKeepsInv(w, e);
    case FinishPreview(_) => PreviewKeepsInv(w, e);
    case StartLease(_, _) => LeaseKeepsInv(w, e);
    case CheckLease(_, _) => LeaseKeepsInv(w, e);
    case _ => MutatorKeepsInv(w, e);
  }

  ghost predicate IsRun(worlds: seq<World>, events: seq<Event>) {
    && |worlds| == |events| + 1 && (exists present, disk :: worlds[0] == Start(present, disk))
    && forall i | 0 <= i < |events| :: Enabled(worlds[i], events[i]) && worlds[i + 1] == Next(worlds[i], events[i])
  }

  /**
   In every interleaving of mutations, interruptions, previews and leases: a returned preview saw
   one moment of the disk; a held lease's generation and release are still the recorded ones, the
   release is the serving executable, and nothing is being mutated beside it; and at most one process mutates.
   */
  lemma {:induction false} ProtocolIsSafe(worlds: seq<World>, events: seq<Event>, k: nat)
    requires IsRun(worlds, events) && k < |worlds|
    ensures WorldInv(worlds[k])
    ensures var w := worlds[k];
            && (forall p | p in w.processes && w.processes[p].Returned? :: OneMoment(w.processes[p].seen))
            && (forall p, q | p in w.processes && q in w.processes && w.processes[p].Leased? ::
                  && BindingHolds(w.disk, w.processes[p].binding) && w.processes[p].executable == w.processes[p].binding.release
                  && !w.processes[q].Mutating?)
            && (forall p, q | p in w.processes && q in w.processes && w.processes[p].Mutating? && w.processes[q].Mutating? :: p == q)
  {
    if k > 0 {
      ProtocolIsSafe(worlds, events, k - 1);
      assert Enabled(worlds[k - 1], events[k - 1]);
      NextKeepsInv(worlds[k - 1], events[k - 1]);
    }
    var w := worlds[k];
    forall p, q | p in w.processes && q in w.processes && w.processes[p].Leased?
      ensures BindingHolds(w.disk, w.processes[p].binding) && w.processes[p].executable == w.processes[p].binding.release
      ensures !w.processes[q].Mutating?
    {
      assert ProcessOk(w, p, w.processes[p]) && ProcessOk(w, q, w.processes[q]);
    }
    forall p, q | p in w.processes && q in w.processes && w.processes[p].Mutating? && w.processes[q].Mutating?
      ensures p == q
    {
      assert ProcessOk(w, p, w.processes[p]) && ProcessOk(w, q, w.processes[q]);
    }
  }

  /** What a preview returns is the disk as it is at the moment it returns, lock file or not. */
  lemma PreviewReturnsThePresent(worlds: seq<World>, events: seq<Event>, k: nat)
    requires IsRun(worlds, events) && k < |events| && events[k].FinishPreview?
    ensures var p := events[k].p;
            p in worlds[k + 1].processes && worlds[k + 1].processes[p].Returned? ==>
              AllAt(worlds[k + 1].processes[p].seen, worlds[k].writes) && worlds[k + 1].writes == worlds[k].writes
  {
    ProtocolIsSafe(worlds, events, k);
    assert Enabled(worlds[k], events[k]);
    assert ProcessOk(worlds[k], events[k].p, worlds[k].processes[events[k].p]);
  }

  /** The lock file, once there, stays. */
  lemma {:induction false} LockFileStays(worlds: seq<World>, events: seq<Event>, i: nat, k: nat)
    requires IsRun(worlds, events) && i <= k < |worlds| && worlds[i].present
    ensures worlds[k].present
    decreases k - i
  {
    if i < k {
      LockFileStays(worlds, events, i, k - 1);
      assert Enabled(worlds[k - 1], events[k - 1]);
    }
  }

  // ----- Who gets through ------------------------------------------------------------------

  /** A mutator that reached the lock file starts exactly when nobody holds it; otherwise it gives up and holds nothing. */
  lemma MutatorStartsIff(w: World, p: Pid)
    requires WorldInv(w) && Enabled(w, TakeExclusive(p))
    ensures var n := Next(w, TakeExclusive(p));
            if w.exclusive.None? && w.shared == {} then Is(n, p, Mutating) && n.exclusive == Some(p)
            else Is(n, p, Finished) && n.bootstrap.None? && n.exclusive == w.exclusive && n.shared == w.shared - {p}
  {
    assert ProcessOk(w, p, w.processes[p]);
  }

  /** A preview is turned away exactly when a mutator holds the lock file; without a lock file it reads unlocked. */
  lemma PreviewStartsIff(w: World, p: Pid)
    requires Enabled(w, StartPreview(p))
    ensures var n := Next(w, StartPreview(p));
            && (Is(n, p, Finished) <==> w.present && w.exclusive.Some?)
            && (!w.present ==> Is(n, p, Reading(false, [])))
            && (w.present && w.exclusive.None? ==> Is(n, p, Reading(true, [])) && p in n.shared)
  {
  }

  /**
   A preview that read under the lock returns; one that read without a lock file returns if there still is none, and
   otherwise starts over under the lock, or is turned away by a mutator.
   */
  lemma PreviewReturnsIff(w: World, p: Pid)
    requires Enabled(w, FinishPreview(p))
    ensures var seen := w.processes[p].seen;
            var n := Next(w, FinishPreview(p));
            && (Is(n, p, Returned(seen)) <==> w.processes[p].locked || !w.present)
            && (!w.processes[p].locked && w.present ==> Is(n, p, if w.exclusive.Some? then Finished else Reading(true, [])))
            && (Is(n, p, Returned(seen)) && w.processes[p].locked ==> p !in n.shared)
  {
  }

  /** A lease is checked only under the shared lock, which an existing lock file without a mutator gives. */
  lemma LeaseSharesIff(w: World, p: Pid, binding: Binding)
    requires Enabled(w, StartLease(p, binding))
    ensures var n := Next(w, StartLease(p, binding));
            && (Is(n, p, Sharing(binding)) <==> w.present && w.exclusive.None?)
            && (Is(n, p, Sharing(binding)) ==> p in n.shared)
            && (!Is(n, p, Sharing(binding)) ==> Is(n, p, Finished))
  {
  }

  /** Only a process at work holds anything. */
  predicate HeldInv(w: World) {
    && (w.bootstrap.Some? ==>
          var p := w.bootstrap.value; p in w.processes && (w.processes[p].Admitted? || w.processes[p].Opened? || w.processes[p].Mutating?))
    && (forall p | p in w.shared ::
          p in w.processes && (w.processes[p].Sharing? || w.processes[p].Leased? || (w.processes[p].Reading? && w.processes[p].locked)))
    && (w.exclusive.Some? ==> Is(w, w.exclusive.value, Mutating))
  }

  lemma NextKeepsHeld(w: World, e: Event)
    requires WorldInv(w) && HeldInv(w) && Enabled(w, e)
    ensures HeldInv(Next(w, e))
  {
    hide BindingHolds, OneMoment, AllAt;
  }

  lemma {:induction false} HoldersAreAtWork(worlds: seq<World>, events: seq<Event>, k: nat)
    requires IsRun(worlds, events) && k < |worlds|
    ensures HeldInv(worlds[k])
  {
    hide WorldInv;
    if k > 0 {
      HoldersAreAtWork(worlds, events, k - 1);
      ProtocolIsSafe(worlds, events, k - 1);
      assert Enabled(worlds[k - 1], events[k - 1]);
      NextKeepsHeld(worlds[k - 1], events[k - 1]);
    }
  }

  /** Every process has come to its end. */
  predicate AtRest(w: World) {
    forall p | p in w.processes :: w.processes[p].Finished? || w.processes[p].Returned?
  }

  /**
   Nothing is leaked: in every reachable world in which all processes have come to their end, however they ended, no
   lock is held, and the next mutator gets through to its writes.
   */
  lemma NextMutatorGetsThrough(worlds: seq<World>, events: seq<Event>, k: nat, p: Pid)
    requires IsRun(worlds, events) && k < |worlds| && AtRest(worlds[k]) && p !in worlds[k].processes
    ensures var w := worlds[k];
            && w.exclusive.None? && w.shared == {} && w.bootstrap.None?
            && Enabled(w, TakeBootstrap(p))
            && var a := Next(w, TakeBootstrap(p));
               Enabled(a, OpenLock(p))
               && var b := Next(a, OpenLock(p));
                  Enabled(b, TakeExclusive(p)) && Is(Next(b, TakeExclusive(p)), p, Mutating)
  {
    HoldersAreAtWork(worlds, events, k);
    var w := worlds[k];
    assert forall q :: q !in w.shared;
  }
}
