/**
 What the deployment commands do: when a command starts a transaction and when
 it leaves the host alone, what it leaves when nothing goes wrong, and that no
 rollback changes the storage schema.
 */
module DeploymentCommands {
  import opened Outcomes
  import opened Uint64
  import opened Deployment
  import opened DeploymentProofs
  import opened DeploymentRuns
  import opened DeploymentSteps

  // ----- Which commands start a transaction ------------------------------------------------------------------

  /** The command is interrupted right after its first write. */
  const AT_ONCE := Env(Answer(CrashAfter, false, {}), [], false, [])

  /** Nothing goes wrong. */
  const NO_TROUBLE := Env(ALL_WELL, [], false, [])

  ghost predicate LeftAlone(h: Host, c: Command) {
    forall env: Env :: RunCommand(h, c, env) == h
  }

  /** A service is deployed and the command brings no service manager. */
  predicate LosesService(h: Host, m: Manager) {
    h.state.Some? && h.state.value.status == ActiveStatus && m == ForegroundManager
  }

  predicate AlreadyActive(h: Host, desired: Release, m: Manager) {
    h.state.Some? && h.state.value.active == Some(desired) && h.state.value.manager == m
  }

  /**
   Apply on a host without a journal: refused if it would lose the service, a mere restaging if the release is
   active already under the same manager, and otherwise a transaction from the saved state to the release.
   */
  lemma ApplyStartsIff(h: Host, desired: Release, m: Manager, path: Option<nat>, sources: nat)
    requires DiskInv(h) && h.journal.None? && CommandOk(Apply(desired, m, path, sources))
    ensures LosesService(h, m) ==> LeftAlone(h, Apply(desired, m, path, sources))
    ensures !LosesService(h, m) && AlreadyActive(h, desired, m) ==>
              && RunCommand(h, Apply(desired, m, path, sources), NO_TROUBLE) == h.(staged := h.staged + {desired})
              && forall env: Env :: RunCommand(h, Apply(desired, m, path, sources), env) in {h, h.(staged := h.staged + {desired})}
    ensures !LosesService(h, m) && !AlreadyActive(h, desired, m) ==>
              RunCommand(h, Apply(desired, m, path, sources), AT_ONCE)
              == h.(journal := Some(Journal(ApplyOperation, Planned, m, path, sources, Some(desired), h.state)))
  {
    hide Invoke, StateOk, Kept;
  }

  /** There is a deployment with a kept release of the same storage schema, and a manager for its service. */
  predicate CanRollBack(h: Host, m: Manager) {
    && h.state.Some? && h.state.value.status != UninstalledStatus
    && h.state.value.active.Some? && h.state.value.previous.Some?
    && h.state.value.active.value.schema == h.state.value.previous.value.schema
    && h.state.value.previous.value in h.staged
    && (h.state.value.status == ActiveStatus ==> m != ForegroundManager)
  }

  /** Rollback on a host without a journal starts exactly then, and leaves the host alone otherwise. */
  lemma RollbackStartsIff(h: Host, m: Manager, path: Option<nat>)
    requires DiskInv(h) && h.journal.None? && CommandOk(Rollback(m, path))
    ensures CanRollBack(h, m) ==>
              RunCommand(h, Rollback(m, path), AT_ONCE)
              == h.(journal := Some(Journal(RollbackOperation, Planned, m, path, 0, h.state.value.previous, h.state)))
    ensures !CanRollBack(h, m) ==> LeftAlone(h, Rollback(m, path))
  {
    hide Invoke, StateOk, Kept;
  }

  /** Uninstall: a transaction on a deployed host, a first record on a fresh one, nothing on an uninstalled one. */
  lemma UninstallStartsIff(h: Host)
    requires DiskInv(h) && h.journal.None?
    ensures h.state.None? ==>
              && RunCommand(h, Uninstall, NO_TROUBLE) == h.(state := Some(State(1, UninstalledStatus, NoManager, None, None, None)))
              && forall env: Env :: RunCommand(h, Uninstall, env) in {h, h.(state := Some(State(1, UninstalledStatus, NoManager, None, None, None)))}
    ensures h.state.Some? && h.state.value.status == UninstalledStatus ==> LeftAlone(h, Uninstall)
    ensures h.state.Some? && h.state.value.status != UninstalledStatus ==>
              RunCommand(h, Uninstall, AT_ONCE)
              == h.(journal := Some(Journal(UninstallOperation, Planned, h.state.value.manager, h.state.value.path, 0, None, h.state)))
  {
    hide Invoke, StateOk, Kept;
  }

  /** The command asks for what the journal is about. */
  predicate Continues(j: Journal, c: Command) {
    match c
    case Apply(desired, m, path, _) => j.operation == ApplyOperation && j.desired == Some(desired) && j.manager == m && j.path == path
    case Rollback(_, _) => j.operation == RollbackOperation
    case Uninstall => j.operation == UninstallOperation
  }

  /** The sources of an apply may still be exchanged while nothing but the plan is recorded. */
  predicate ExchangesSources(j: Journal, c: Command) {
    c.Apply? && j.phase == Planned && j.sources != c.sources
  }

  /**
   On a host with a journal, a command that continues it resumes it, after recording other sources if it
   brings them in time; every other command leaves the host alone.
   */
  lemma ResumesIff(h: Host, j: Journal, c: Command)
    requires DiskInv(h) && h.journal == Some(j) && CommandOk(c)
    ensures JournalOk(j)
    ensures !Continues(j, c) ==> LeftAlone(h, c)
    ensures Continues(j, c) && !ExchangesSources(j, c) ==>
              forall env: Env :: RunCommand(h, c, env) == Invoke(h, j, env.answers, env.attested, env.undo).host
    ensures Continues(j, c) && ExchangesSources(j, c) ==> RunCommand(h, c, AT_ONCE) == h.(journal := Some(j.(sources := c.sources)))
  {
    assert h.(journal := Some(j)) == h;
    hide Invoke, StateOk, Kept, SavedMatches, StagedMatches;
    match c
    case Apply(_, _, _, _) =>
      if Continues(j, c) {
        ReboundIsInOrder(h, c);
      }
    case Rollback(_, _) =>
    case Uninstall =>
  }

  // ----- The storage schema ------------------------------------------------------------------------------------

  /** A rollback in flight goes to a release with the storage schema of the one it replaces. */
  predicate SameSchema(h: Host) {
    h.journal.Some? && h.journal.value.operation == RollbackOperation ==>
      var j := h.journal.value;
      && j.desired.Some? && j.prior.Some? && j.prior.value.active.Some? && j.desired == j.prior.value.previous
      && j.desired.value.schema == j.prior.value.active.value.schema
  }

  lemma RunKeepsSchema(h: Host, j: Journal, save: bool, env: Env)
    requires DiskInv(h.(journal := Some(j))) && JournalOk(j) && SameSchema(h.(journal := Some(j))) && SameSchema(h)
    ensures SameSchema(RunJournal(h, j, save, env))
  {
    hide DiskInv, JournalOk, Invoke, Committed;
    InvokeSound(h.(journal := Some(j)), j, env.answers, env.attested, env.undo);
  }

  lemma CommandKeepsSchema(h: Host, c: Command, env: Env)
    requires DiskInv(h) && CommandOk(c) && SameSchema(h)
    ensures SameSchema(RunCommand(h, c, env))
  {
    match Decide(h, c)
    case Refuse =>
    case Unchanged =>
    case Restage(r) =>
    case RecordUninstalled =>
    case Begin(j) =>
      BegunIsInOrder(h, c);
      hide DiskInv, JournalOk, RunJournal;
      RunKeepsSchema(h, j, true, env);
    case Resume(j, rebound) =>
      ReboundIsInOrder(h, c);
      hide DiskInv, JournalOk, RunJournal;
      RunKeepsSchema(h, j, rebound, env);
  }

  /** In every reachable disk state a rollback in flight keeps the storage schema. */
  lemma {:induction false} HistoriesKeepSchema(hosts: seq<Host>, commands: seq<Command>, envs: seq<Env>, k: nat)
    requires IsHistory(hosts, commands, envs) && k < |hosts|
    ensures SameSchema(hosts[k])
  {
    hide DiskInv, OneStep, RunCommand;
    if k > 0 {
      HistoriesKeepSchema(hosts, commands, envs, k - 1);
      HistoriesAreSafe(hosts, commands, envs, k - 1);
      assert hosts[k - 1 + 1] == RunCommand(hosts[k - 1], commands[k - 1], envs[k - 1]);
      CommandKeepsSchema(hosts[k - 1], commands[k - 1], envs[k - 1]);
    }
  }

  /** The journal a command runs is committed, or the state before it stays. */
  lemma RunEndsSomewhere(h: Host, j: Journal, save: bool, env: Env)
    requires DiskInv(h.(journal := Some(j))) && JournalOk(j) && RunJournal(h, j, save, env).journal.None?
    ensures RunJournal(h, j, save, env).state in {h.state, j.prior, Some(Committed(j))}
  {
    hide DiskInv, JournalOk, Invoke, Committed;
    InvokeSound(h.(journal := Some(j)), j, env.answers, env.attested, env.undo);
  }

  /** What a rollback that took effect makes active. */
  predicate BackTo(before: Option<State>, after: Option<State>) {
    && before.Some? && before.value.active.Some? && before.value.previous.Some? && after.Some?
    && after.value.active == before.value.previous && after.value.previous == before.value.active
    && before.value.previous.value.schema == before.value.active.value.schema
  }

  lemma RolledBack(j: Journal, before: Option<State>)
    requires JournalOk(j) && j.operation == RollbackOperation && j.prior == before && SameSchema(FRESH.(journal := Some(j)))
    ensures BackTo(before, Some(Committed(j)))
  {
  }

  lemma RollbackOnceSwaps(h: Host, m: Manager, path: Option<nat>, env: Env)
    requires DiskInv(h) && CommandOk(Rollback(m, path)) && SameSchema(h)
    requires var g := RunCommand(h, Rollback(m, path), env); g.journal.None? && g.state != Base(h) && h.journal.None?
    ensures BackTo(Base(h), RunCommand(h, Rollback(m, path), env).state)
  {
    var c := Rollback(m, path);
    RollbackBegins(h, m, path, env);
    BegunIsInOrder(h, c);
    var j := Decide(h, c).journal;
    RunEndsSomewhere(h, j, true, env);
    RolledBack(j, h.state);
    hide DiskInv, RunJournal, Committed;
  }

  lemma RollbackResumedSwaps(h: Host, m: Manager, path: Option<nat>, env: Env)
    requires DiskInv(h) && CommandOk(Rollback(m, path)) && SameSchema(h) && h.journal.Some?
    requires var g := RunCommand(h, Rollback(m, path), env); g.journal.None? && g.state != Base(h)
    ensures BackTo(Base(h), RunCommand(h, Rollback(m, path), env).state)
  {
    var c, j := Rollback(m, path), h.journal.value;
    ResumesIff(h, j, c);
    assert Continues(j, c);
    InvokeSound(h, j, env.answers, env.attested, env.undo);
    hide DiskInv, RunCommand, Invoke, Committed, JournalOk;
    RolledBack(j, Base(h));
  }

  /**
   Over every history: a rollback that took effect, begun or resumed, made the kept release active and kept the
   replaced one, and the storage schema is the same.
   */
  lemma RollbacksKeepSchema(hosts: seq<Host>, commands: seq<Command>, envs: seq<Env>, k: nat)
    requires IsHistory(hosts, commands, envs) && k < |commands| && commands[k].Rollback?
    requires hosts[k + 1].journal.None? && hosts[k + 1].state != Base(hosts[k])
    ensures BackTo(Base(hosts[k]), hosts[k + 1].state)
  {
    hide DiskInv, RunCommand, SameSchema, OneStep, Base, BackTo;
    HistoriesKeepSchema(hosts, commands, envs, k);
    HistoriesAreSafe(hosts, commands, envs, k);
    var c := commands[k];
    if hosts[k].journal.None? {
      RollbackOnceSwaps(hosts[k], c.manager, c.path, envs[k]);
    } else {
      RollbackResumedSwaps(hosts[k], c.manager, c.path, envs[k]);
    }
  }

  // ----- What a command leaves when nothing goes wrong ---------------------------------------------------------

  /** The host serves this release: it is staged, and with a service manager it is defined and running. */
  predicate Serves(h: Host, release: Release, m: Manager) {
    && h.journal.None? && release in h.staged
    && (Native(m) ==> h.definition == Some(release) && h.running == Some(release))
  }

  lemma BegunFinishes(h: Host, j: Journal)
    requires DiskInv(h.(journal := Some(j))) && JournalOk(j) && j.phase == Planned && StateOk(Committed(j))
    ensures var g := RunJournal(h, j, true, NO_TROUBLE); Finished(g, j) && DiskInv(g)
  {
    var b := h.(journal := Some(j));
    assert ServiceAt(b, j);
    hide DiskInv, JournalOk, StateOk, Committed, Exec, Program, Finished, ServiceAt;
    AllWellFinishes(b, j);
    InvokeSound(b, j, [], false, []);
  }

  lemma SavedIsStaged(h: Host, release: Release)
    requires DiskInv(h) && h.journal.None? && h.state.Some? && h.state.value.active == Some(release)
    ensures release in h.staged
  {
  }

  /** The generation after this state, while there is one. */
  predicate HasNext(state: Option<State>) {
    state.Some? ==> state.value.generation < MAX_UINT64
  }

  lemma CommittedIsOk(j: Journal)
    requires JournalOk(j) && HasNext(j.prior)
    ensures StateOk(Committed(j)) && Committed(j).generation == Generation(j.prior) + 1
  {
  }

  /** What a finished journal leaves of the service, the files and the state. */
  lemma FinishedParts(g: Host, j: Journal)
    requires JournalOk(j) && Finished(g, j) && DiskInv(g)
    ensures g.journal.None? && g.state == Some(Committed(j))
    ensures j.operation != UninstallOperation ==> j.desired.Some? && Committed(j).active == j.desired && Serves(g, j.desired.value, j.manager)
    ensures j.operation == ApplyOperation ==> g.ready
    ensures j.operation == UninstallOperation ==> g.staged == {} && (Native(j.manager) ==> g.definition.None? && g.running.None?)
  {
    JournalShape(j);
    if j.operation != UninstallOperation {
      SavedIsStaged(g, j.desired.value);
    }
    hide DiskInv, StateOk;
  }

  /**
   An apply that starts and meets no trouble leaves the release active, staged, on an initialized instance and, with
   a service manager, defined and running, one generation on; a replaced release is kept for rollback.
   */
  lemma ApplyInstalls(h: Host, desired: Release, m: Manager, path: Option<nat>, sources: nat)
    requires DiskInv(h) && h.journal.None? && CommandOk(Apply(desired, m, path, sources)) && HasNext(h.state)
    requires !LosesService(h, m) && !AlreadyActive(h, desired, m)
    ensures var g := RunCommand(h, Apply(desired, m, path, sources), NO_TROUBLE);
            && Serves(g, desired, m) && g.ready && g.state.Some?
            && g.state.value.active == Some(desired) && g.state.value.manager == m && g.state.value.path == path
            && g.state.value.status == (if m == ForegroundManager then ForegroundStatus else ActiveStatus)
            && g.state.value.generation == Generation(h.state) + 1
            && (h.state.Some? && h.state.value.active.Some? && h.state.value.active.value.manifest != desired.manifest ==>
                  g.state.value.previous == h.state.value.active)
  {
    var c := Apply(desired, m, path, sources);
    var j := Journal(ApplyOperation, Planned, m, path, sources, Some(desired), h.state);
    assert Decide(h, c) == Begin(j);
    BegunIsInOrder(h, c);
    CommittedIsOk(j);
    BegunFinishes(h, j);
    FinishedParts(RunJournal(h, j, true, NO_TROUBLE), j);
    hide DiskInv, RunJournal, Finished, StateOk, JournalOk, Serves;
  }

  /** A rollback that may start and meets no trouble brings the kept release back and keeps the replaced one. */
  lemma RollbackReturns(h: Host, m: Manager, path: Option<nat>)
    requires DiskInv(h) && h.journal.None? && CommandOk(Rollback(m, path)) && CanRollBack(h, m) && HasNext(h.state)
    ensures var g := RunCommand(h, Rollback(m, path), NO_TROUBLE);
            && g.state.Some? && BackTo(h.state, g.state) && Serves(g, h.state.value.previous.value, m)
            && g.state.value.generation == h.state.value.generation + 1
  {
    var c := Rollback(m, path);
    var j := Journal(RollbackOperation, Planned, m, path, 0, h.state.value.previous, h.state);
    assert Decide(h, c) == Begin(j);
    BegunIsInOrder(h, c);
    CommittedIsOk(j);
    BegunFinishes(h, j);
    FinishedParts(RunJournal(h, j, true, NO_TROUBLE), j);
    hide DiskInv, RunJournal, Finished, StateOk, JournalOk, Serves;
  }

  /** An uninstall that meets no trouble removes every artifact and the service, and remembers the last release. */
  lemma UninstallRemoves(h: Host)
    requires DiskInv(h) && h.journal.None? && h.state.Some? && h.state.value.status != UninstalledStatus && HasNext(h.state)
    ensures var g := RunCommand(h, Uninstall, NO_TROUBLE);
            && g.journal.None? && g.staged == {}
            && g.state == Some(State(h.state.value.generation + 1, UninstalledStatus, NoManager, None, None, h.state.value.active))
            && (Native(h.state.value.manager) ==> g.definition.None? && g.running.None?)
  {
    var j := Journal(UninstallOperation, Planned, h.state.value.manager, h.state.value.path, 0, None, h.state);
    assert Decide(h, Uninstall) == Begin(j);
    BegunIsInOrder(h, Uninstall);
    CommittedIsOk(j);
    BegunFinishes(h, j);
    FinishedParts(RunJournal(h, j, true, NO_TROUBLE), j);
    hide DiskInv, RunJournal, Finished, StateOk, JournalOk;
  }
}
