/**
 The journaled deployment lifecycle: what apply, rollback and uninstall do to
 the disk and the user service, as programs of primitive actions, each of which
 can fail or be interrupted before, within or after its effect.
 */
module Deployment {
  import opened Outcomes
  import opened Uint64

  // ----- What is on disk ------------------------------------------------------------------

  /** An installed release; `rest` stands for everything but its manifest digest and storage schema. */
  datatype Release = Release(manifest: nat, schema: nat, rest: nat)

  datatype Status = ActiveStatus | ForegroundStatus | UninstalledStatus

  datatype Manager = Systemd | Launchd | ForegroundManager | NoManager

  /** The committed deployment state. */
  datatype State = State(generation: nat, status: Status, manager: Manager, path: Option<nat>,
                         active: Option<Release>, previous: Option<Release>)

  datatype Operation = ApplyOperation | RollbackOperation | UninstallOperation

  datatype Phase =
    | Planned | ArtifactStaged | InstanceReady | PriorServiceStopped | DefinitionInstalled | Activated | HealthVerified
    | DefinitionRemoved | RemovingArtifacts | ArtifactsRemoved | Committing | StateSaved

  datatype Journal = Journal(operation: Operation, phase: Phase, manager: Manager, path: Option<nat>, sources: nat,
                             desired: Option<Release>, prior: Option<State>)

  /** The disk and the user service; `definition` and `running` are the releases they name. */
  datatype Host = Host(state: Option<State>, journal: Option<Journal>, staged: set<Release>, ready: bool,
                       definition: Option<Release>, running: Option<Release>)

  const FRESH := Host(None, None, {}, false, None, None)

  predicate Native(m: Manager) {
    m == Systemd || m == Launchd
  }

  /** What a state file must satisfy to be saved or loaded. */
  predicate StateOk(s: State) {
    && 0 < s.generation <= MAX_UINT64
    && (s.active.Some? && s.previous.Some? ==> s.active.value.manifest != s.previous.value.manifest)
    && match s.status
       case ActiveStatus => s.active.Some? && Native(s.manager) && s.path.Some?
       case ForegroundStatus => s.active.Some? && s.manager == ForegroundManager && s.path.None?
       case UninstalledStatus => s.active.None? && s.manager == NoManager && s.path.None?
  }

  // ----- The committed outcome of a journal ------------------------------------------------

  /** Generations are 64-bit counters. */
  function Successor(generation: nat): nat {
    (generation + 1) % (MAX_UINT64 + 1)
  }

  function StatusFor(m: Manager): Status {
    if m == ForegroundManager then ForegroundStatus else ActiveStatus
  }

  /** The release kept for rollback: the replaced one, or the one kept before when the manifest is the same. */
  function PreviousAfterApply(prior: Option<State>, desired: Release): Option<Release> {
    if prior.None? || prior.value.active.None? then None
    else if prior.value.active.value.manifest != desired.manifest then prior.value.active
    else prior.value.previous
  }

  function Committed(j: Journal): State
    requires j.operation != UninstallOperation ==> j.desired.Some?
    requires j.operation != ApplyOperation ==> j.prior.Some?
  {
    match j.operation
    case ApplyOperation =>
      State(if j.prior.None? then 1 else Successor(j.prior.value.generation), StatusFor(j.manager), j.manager, j.path,
            j.desired, PreviousAfterApply(j.prior, j.desired.value))
    case RollbackOperation =>
      State(Successor(j.prior.value.generation), StatusFor(j.manager), j.manager, j.path, j.desired, j.prior.value.active)
    case UninstallOperation =>
      State(Successor(j.prior.value.generation), UninstalledStatus, NoManager, None, None, j.prior.value.active)
  }

  // ----- Phases -------------------------------------------------------------------------------

  const APPLY_ORDER := [Planned, ArtifactStaged, InstanceReady, PriorServiceStopped, DefinitionInstalled, Activated, HealthVerified, Committing, StateSaved]
  const ROLLBACK_ORDER := [Planned, PriorServiceStopped, DefinitionInstalled, Activated, HealthVerified, Committing, StateSaved]
  const UNINSTALL_ORDER := [Planned, PriorServiceStopped, DefinitionRemoved, RemovingArtifacts, ArtifactsRemoved, Committing, StateSaved]

  /** One position per phase over all three operations; each order is increasing in it. */
  function Position(phase: Phase): nat {
    match phase
    case Planned => 0
    case ArtifactStaged => 1
    case InstanceReady => 2
    case PriorServiceStopped => 3
    case DefinitionInstalled => 4
    case Activated => 5
    case HealthVerified => 6
    case DefinitionRemoved => 7
    case RemovingArtifacts => 8
    case ArtifactsRemoved => 9
    case Committing => 10
    case StateSaved => 11
  }

  /** The phases an operation passes; a foreground deployment has no service to activate. */
  predicate Passes(operation: Operation, m: Manager, phase: Phase) {
    match operation
    case ApplyOperation =>
      phase in {Planned, ArtifactStaged, InstanceReady, PriorServiceStopped, DefinitionInstalled, Committing, StateSaved}
      || (phase in {Activated, HealthVerified} && m != ForegroundManager)
    case RollbackOperation =>
      phase in {Planned, PriorServiceStopped, DefinitionInstalled, Committing, StateSaved}
      || (phase in {Activated, HealthVerified} && m != ForegroundManager)
    case UninstallOperation =>
      phase in {Planned, PriorServiceStopped, DefinitionRemoved, RemovingArtifacts, ArtifactsRemoved, Committing, StateSaved}
  }

  /** The phase recorded after `phase`. */
  function NextPhase(operation: Operation, m: Manager, phase: Phase): (next: Phase)
    ensures phase != StateSaved ==> Position(phase) < Position(next)
    ensures Passes(operation, m, phase) ==> Passes(operation, m, next)
  {
    match phase
    case Planned => if operation == ApplyOperation then ArtifactStaged else PriorServiceStopped
    case ArtifactStaged => InstanceReady
    case InstanceReady => PriorServiceStopped
    case PriorServiceStopped => if operation == UninstallOperation then DefinitionRemoved else DefinitionInstalled
    case DefinitionInstalled => if m == ForegroundManager then Committing else Activated
    case Activated => HealthVerified
    case HealthVerified => Committing
    case DefinitionRemoved => RemovingArtifacts
    case RemovingArtifacts => ArtifactsRemoved
    case ArtifactsRemoved => Committing
    case Committing => StateSaved
    case StateSaved => StateSaved
  }

  // ----- Actions --------------------------------------------------------------------------------

  datatype Action =
    | Stage(release: Release)
    | Verify(release: Release)
    | Initialize
    | StopPrior
    | Install(release: Release)
    | ActivateDesired(release: Release)
    | ActivateDefinition
    | Health(release: Release)
    | RemoveService
    | RemoveArtifacts
    | SaveState(state: State)
    | RemoveStateFile
    | ValidateCommitted(state: State)
    | Checkpoint(phase: Phase)
    | RemoveJournal

  /** How an action ends; a crash, or a lost lease, ends the whole invocation without compensation. */
  datatype Ending = Fine | FailBefore | FailPartly | FailAfter | CrashBefore | CrashPartly | CrashAfter

  /** The environment's answer to one action. */
  datatype Answer = Answer(ending: Ending, attested: bool, kept: set<Release>)

  datatype Outcome = Done | Failed | Crashed

  /** The host, the journal in memory, and how it went. */
  datatype Run = Run(host: Host, memory: Journal, outcome: Outcome)

  function Settle(before: Host, partly: Host, after: Host, memory: Journal, answer: Answer): Run {
    match answer.ending
    case Fine => Run(after, memory, Done)
    case FailBefore => Run(before, memory, Failed)
    case FailPartly => Run(partly, memory, Failed)
    case FailAfter => Run(after, memory, Failed)
    case CrashBefore => Run(before, memory, Crashed)
    case CrashPartly => Run(partly, memory, Crashed)
    case CrashAfter => Run(after, memory, Crashed)
  }

  predicate Crashes(answer: Answer) {
    answer.ending == CrashBefore || answer.ending == CrashPartly || answer.ending == CrashAfter
  }

  /** An action that cannot succeed on this host fails, unless the invocation is interrupted first. */
  function Refused(h: Host, memory: Journal, answer: Answer): Run {
    Run(h, memory, if Crashes(answer) then Crashed else Failed)
  }

  function Do(h: Host, memory: Journal, a: Action, answer: Answer): Run {
    match a
    case Stage(r) => Settle(h, h, h.(staged := h.staged + {r}), memory, answer)
    case Verify(r) => if r in h.staged then Settle(h, h, h, memory, answer) else Refused(h, memory, answer)
    case Initialize => Settle(h, h, h.(ready := true), memory, answer)
    case StopPrior =>
      if memory.prior.Some? && memory.prior.value.status == ActiveStatus
      then Settle(h, h, h.(running := None), memory, answer) else Settle(h, h, h, memory, answer)
    case Install(r) => Settle(h, h, h.(definition := Some(r)), memory, answer)
    case ActivateDesired(r) =>
      if h.running == Some(r) && answer.attested then Settle(h, h, h, memory, answer)
      else if h.definition.None? then Refused(h.(running := None), memory, answer)
      else Settle(h, h.(running := None), h.(running := h.definition), memory, answer)
    case ActivateDefinition =>
      if h.definition.None? then Refused(h, memory, answer) else Settle(h, h, h.(running := h.definition), memory, answer)
    case Health(r) => if h.running == Some(r) then Settle(h, h, h, memory, answer) else Refused(h, memory, answer)
    case RemoveService => Settle(h, h.(running := None), h.(running := None, definition := None), memory, answer)
    case RemoveArtifacts => Settle(h, h.(staged := h.staged * answer.kept), h.(staged := {}), memory, answer)
    case SaveState(s) => if StateOk(s) then Settle(h, h, h.(state := Some(s)), memory, answer) else Refused(h, memory, answer)
    case RemoveStateFile => Settle(h, h, h.(state := None), memory, answer)
    case ValidateCommitted(s) => if h.state == Some(s) then Settle(h, h, h, memory, answer) else Refused(h, memory, answer)
    case Checkpoint(p) => Settle(h, h, h.(journal := Some(memory.(phase := p))), memory.(phase := p), answer)
    case RemoveJournal => Settle(h, h, h.(journal := None), memory, answer)
  }

  const ALL_WELL := Answer(Fine, false, {})

  function First(answers: seq<Answer>): Answer {
    if answers == [] then ALL_WELL else answers[0]
  }

  function Rest(answers: seq<Answer>): seq<Answer> {
    if answers == [] then [] else answers[1..]
  }

  function Skip(answers: seq<Answer>, n: nat): seq<Answer> {
    if n <= |answers| then answers[n..] else []
  }

  /** Run a program until its end or its first failure. */
  function Exec(h: Host, memory: Journal, program: seq<Action>, answers: seq<Answer>): Run
    decreases |program|
  {
    if program == [] then Run(h, memory, Done)
    else
      var r := Do(h, memory, program[0], First(answers));
      if r.outcome != Done then r else Exec(r.host, r.memory, program[1..], Rest(answers))
  }

  lemma {:induction false} ExecConcat(h: Host, memory: Journal, a: seq<Action>, b: seq<Action>, answers: seq<Answer>)
    ensures var r := Exec(h, memory, a, answers);
            Exec(h, memory, a + b, answers) == if r.outcome != Done then r else Exec(r.host, r.memory, b, Skip(answers, |a|))
    decreases |a|
  {
    if a == [] {
      assert a + b == b;
    } else {
      assert (a + b)[1..] == a[1..] + b;
      var r := Do(h, memory, a[0], First(answers));
      ExecConcat(r.host, r.memory, a[1..], b, Rest(answers));
      assert Skip(Rest(answers), |a| - 1) == Skip(answers, |a|);
    }
  }

  // ----- The three programs ------------------------------------------------------------------------

  /** What is done before phase `p` is recorded. */
  function Work(j: Journal, p: Phase): seq<Action>
    requires j.operation != UninstallOperation ==> j.desired.Some?
    requires j.operation != ApplyOperation ==> j.prior.Some?
  {
    match p
    case Planned => []
    case ArtifactStaged => if j.desired.Some? then [Stage(j.desired.value), Verify(j.desired.value)] else []
    case InstanceReady => [Initialize]
    case PriorServiceStopped => [StopPrior]
    case DefinitionInstalled => if j.desired.Some? && j.manager != ForegroundManager then [Install(j.desired.value)] else []
    case Activated => if j.desired.Some? then [ActivateDesired(j.desired.value)] else []
    case HealthVerified => if j.desired.Some? then [Health(j.desired.value)] else []
    case DefinitionRemoved => if j.manager != ForegroundManager && j.manager != NoManager then [RemoveService] else []
    case RemovingArtifacts => []
    case ArtifactsRemoved => [RemoveArtifacts]
    case Committing => []
    case StateSaved => [SaveState(Committed(j))]
  }

  /** The rest of a transaction that has recorded phase `p`. */
  function From(j: Journal, p: Phase): seq<Action>
    requires j.operation != UninstallOperation ==> j.desired.Some?
    requires j.operation != ApplyOperation ==> j.prior.Some?
    decreases 11 - Position(p)
  {
    if p == StateSaved then [RemoveJournal]
    else
      var next := NextPhase(j.operation, j.manager, p);
      Work(j, next) + [Checkpoint(next)] + From(j, next)
  }

  /** A resumed transaction first proves its release, or its saved state. */
  function Entry(j: Journal): seq<Action>
    requires j.operation != UninstallOperation ==> j.desired.Some?
    requires j.operation != ApplyOperation ==> j.prior.Some?
  {
    if j.phase == StateSaved then [ValidateCommitted(Committed(j))]
    else if j.operation == RollbackOperation || (j.operation == ApplyOperation && j.phase != Planned) then [Verify(j.desired.value)]
    else []
  }

  /** A journal as the three operations write it. */
  predicate JournalOk(j: Journal) {
    && Passes(j.operation, j.manager, j.phase)
    && (j.prior.Some? ==> StateOk(j.prior.value))
    && match j.operation
       case ApplyOperation => j.desired.Some? && (Native(j.manager) || j.manager == ForegroundManager) && (Native(j.manager) <==> j.path.Some?)
       case RollbackOperation =>
         && j.desired.Some? && (Native(j.manager) || j.manager == ForegroundManager) && (Native(j.manager) <==> j.path.Some?)
         && j.prior.Some? && j.prior.value.status != UninstalledStatus && j.prior.value.previous == j.desired
       case UninstallOperation =>
         j.desired.None? && j.prior.Some? && j.prior.value.status != UninstalledStatus && j.manager == j.prior.value.manager
  }

  function Program(j: Journal): seq<Action>
    requires JournalOk(j)
  {
    Entry(j) + From(j, j.phase)
  }

  // ----- Compensation -------------------------------------------------------------------------------

  /** Bring a release back as the user service. */
  function Revive(r: Release): seq<Action> {
    [Verify(r), Install(r), ActivateDefinition, Health(r)]
  }

  function RevivePrior(j: Journal): seq<Action> {
    if j.prior.Some? && j.prior.value.status == ActiveStatus && j.prior.value.active.Some? then Revive(j.prior.value.active.value) else []
  }

  /** Undo a failed transaction; `attested` tells that the prior service still answers as itself. */
  function Compensation(j: Journal, attested: bool): seq<Action> {
    match j.operation
    case ApplyOperation =>
      if Position(j.phase) < Position(PriorServiceStopped) then
        (if j.phase == InstanceReady && !attested then RevivePrior(j) else []) + [RemoveJournal]
      else
        (if j.manager != ForegroundManager then [RemoveService] else [])
        + (if j.prior.None? then [RemoveStateFile] else RevivePrior(j) + [SaveState(j.prior.value)])
        + [RemoveJournal]
    case RollbackOperation =>
      (if j.manager != ForegroundManager then [RemoveService] else [])
      + RevivePrior(j) + (if j.prior.Some? then [SaveState(j.prior.value)] else []) + [RemoveJournal]
    case UninstallOperation =>
      RevivePrior(j) + (if j.prior.Some? then [SaveState(j.prior.value)] else []) + [RemoveJournal]
  }

  /** Past its point of no return a failed transaction is left to be resumed. */
  predicate Compensates(j: Journal) {
    match j.operation
    case UninstallOperation => Position(j.phase) < Position(RemovingArtifacts)
    case _ => j.phase != StateSaved
  }

  /** One invocation on an existing journal: run it, and compensate a failure. */
  function Invoke(h: Host, j: Journal, answers: seq<Answer>, attested: bool, undo: seq<Answer>): Run
    requires JournalOk(j)
  {
    var r := Exec(h, j, Program(j), answers);
    if r.outcome == Failed && Compensates(r.memory) then
      var c := Exec(r.host, r.memory, Compensation(r.memory, attested), undo);
      c.(outcome := if c.outcome == Crashed then Crashed else Failed)
    else r
  }
}
