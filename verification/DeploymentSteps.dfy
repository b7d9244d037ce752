/**
 The three operations written out step by step, that they finish when nothing
 goes wrong, and that a failure is undone when its compensation meets no trouble.
 */
module DeploymentSteps {
  import opened Outcomes
  import opened Deployment
  import opened DeploymentProofs
  import opened DeploymentCode
  import opened DeploymentRuns

  // ----- The operations, step by step ----------------------------------------------------------------

  lemma Four(a: Action, b: Action, c: Action, d: Action, rest: seq<Action>)
    ensures [a] + ([b] + ([c] + ([d] + rest))) == [a, b, c, d] + rest
  {
  }

  lemma Three(a: Action, b: Action, c: Action, rest: seq<Action>)
    ensures [a] + ([b] + ([c] + rest)) == [a, b, c] + rest
  {
  }

  /** Commit: record that it begins, save the state, record that it is saved, and drop the journal. */
  function CommitSteps(j: Journal): seq<Action>
    requires JournalOk(j)
  {
    [Checkpoint(Committing), SaveState(Committed(j)), Checkpoint(StateSaved), RemoveJournal]
  }

  lemma CommitAsWritten(j: Journal, p: Phase)
    requires JournalOk(j) && p != StateSaved && NextPhase(j.operation, j.manager, p) == Committing
    ensures From(j, p) == CommitSteps(j)
  {
    RecordBlock(j, p);
    WorkBlock(j, Committing, SaveState(Committed(j)));
    assert From(j, StateSaved) == [RemoveJournal];
    hide From, Committed, JournalOk, Work;
    Four(Checkpoint(Committing), SaveState(Committed(j)), Checkpoint(StateSaved), RemoveJournal, []);
    assert [RemoveJournal] + [] == [RemoveJournal];
    assert CommitSteps(j) + [] == CommitSteps(j);
  }

  /** Switch the service: install the definition, activate it, check that it answers, each recorded; then commit. */
  function ServiceSteps(j: Journal): seq<Action>
    requires JournalOk(j) && j.operation != UninstallOperation
  {
    var d := j.desired.value;
    [Install(d), Checkpoint(DefinitionInstalled), ActivateDesired(d), Checkpoint(Activated)]
    + ([Health(d), Checkpoint(HealthVerified)] + CommitSteps(j))
  }

  lemma ServiceAsWritten(j: Journal)
    requires JournalOk(j) && j.operation != UninstallOperation && Native(j.manager)
    ensures From(j, PriorServiceStopped) == ServiceSteps(j)
  {
    var d := j.desired.value;
    WorkBlock(j, PriorServiceStopped, Install(d));
    WorkBlock(j, DefinitionInstalled, ActivateDesired(d));
    WorkBlock(j, Activated, Health(d));
    CommitAsWritten(j, HealthVerified);
    hide From, Committed, JournalOk, Work, CommitSteps;
    Four(Install(d), Checkpoint(DefinitionInstalled), ActivateDesired(d), Checkpoint(Activated), From(j, Activated));
    assert From(j, Activated) == [Health(d), Checkpoint(HealthVerified)] + CommitSteps(j);
  }

  /** Apply, with a service manager. */
  lemma ApplySteps(j: Journal)
    requires JournalOk(j) && j.operation == ApplyOperation && j.phase == Planned && Native(j.manager)
    ensures var d := j.desired.value;
            Program(j) == [Stage(d), Verify(d), Checkpoint(ArtifactStaged)]
                          + ([Initialize, Checkpoint(InstanceReady), StopPrior, Checkpoint(PriorServiceStopped)] + ServiceSteps(j))
  {
    var d := j.desired.value;
    FreshApply(j);
    WorkBlock(j, ArtifactStaged, Initialize);
    WorkBlock(j, InstanceReady, StopPrior);
    ServiceAsWritten(j);
    hide From, Committed, JournalOk, Work, Program, ServiceSteps;
    Three(Stage(d), Verify(d), Checkpoint(ArtifactStaged), From(j, ArtifactStaged));
    Four(Initialize, Checkpoint(InstanceReady), StopPrior, Checkpoint(PriorServiceStopped), From(j, PriorServiceStopped));
  }

  /** Rollback, with a service manager: the kept release is verified, and nothing is staged. */
  lemma RollbackSteps(j: Journal)
    requires JournalOk(j) && j.operation == RollbackOperation && j.phase == Planned && Native(j.manager)
    ensures Program(j) == [Verify(j.desired.value), StopPrior, Checkpoint(PriorServiceStopped)] + ServiceSteps(j)
  {
    WorkBlock(j, Planned, StopPrior);
    ServiceAsWritten(j);
    hide From, Committed, JournalOk, Work, ServiceSteps;
    Three(Verify(j.desired.value), StopPrior, Checkpoint(PriorServiceStopped), From(j, PriorServiceStopped));
  }

  /** Uninstall, of a deployment with a service: the point of no return is recorded before anything is removed. */
  lemma UninstallSteps(j: Journal)
    requires JournalOk(j) && j.operation == UninstallOperation && j.phase == Planned && Native(j.manager)
    ensures Program(j) == [StopPrior, Checkpoint(PriorServiceStopped), RemoveService, Checkpoint(DefinitionRemoved)]
                          + ([Checkpoint(RemovingArtifacts), RemoveArtifacts, Checkpoint(ArtifactsRemoved)] + CommitSteps(j))
  {
    WorkBlock(j, Planned, StopPrior);
    WorkBlock(j, PriorServiceStopped, RemoveService);
    RecordBlock(j, DefinitionRemoved);
    WorkBlock(j, RemovingArtifacts, RemoveArtifacts);
    CommitAsWritten(j, ArtifactsRemoved);
    assert Entry(j) + From(j, Planned) == From(j, Planned);
    hide From, Committed, JournalOk, Work, Entry, CommitSteps;
    Four(StopPrior, Checkpoint(PriorServiceStopped), RemoveService, Checkpoint(DefinitionRemoved), From(j, DefinitionRemoved));
    Three(Checkpoint(RemovingArtifacts), RemoveArtifacts, Checkpoint(ArtifactsRemoved), From(j, ArtifactsRemoved));
  }

  // ----- When nothing goes wrong -----------------------------------------------------------------------

  /** The program runs to its end when every action goes well. */
  predicate RunsWell(h: Host, m: Journal, program: seq<Action>) {
    Exec(h, m, program, []).outcome == Done
  }

  lemma WellConcat(h: Host, m: Journal, a: seq<Action>, b: seq<Action>)
    requires RunsWell(h, m, a) && RunsWell(Exec(h, m, a, []).host, Exec(h, m, a, []).memory, b)
    ensures RunsWell(h, m, a + b)
    ensures Exec(h, m, a + b, []) == Exec(Exec(h, m, a, []).host, Exec(h, m, a, []).memory, b, [])
  {
    ExecConcat(h, m, a, b, []);
    assert Skip([], |a|) == [];
    hide Exec;
  }

  lemma OneWell(h: Host, m: Journal, a: Action)
    ensures Exec(h, m, [a], []) == Do(h, m, a, ALL_WELL)
  {
    ExecOne(h, m, a, []);
    hide Do;
  }

  /** The work before a phase goes well on a host that matches the phases recorded so far. */
  lemma WorkWell(h: Host, j: Journal, next: Phase)
    requires DiskInv(h) && h.journal == Some(j) && JournalOk(j) && ServiceAt(h, j) && j.phase != StateSaved
    requires next == NextPhase(j.operation, j.manager, j.phase) && StateOk(Committed(j))
    ensures RunsWell(h, j, Work(j, next))
  {
    var work := Work(j, next);
    if next == ArtifactStaged {
      var d := j.desired.value;
      OneWell(h, j, Stage(d));
      OneWell(h.(staged := h.staged + {d}), j, Verify(d));
      WellConcat(h, j, [Stage(d)], [Verify(d)]);
      assert work == [Stage(d)] + [Verify(d)];
    } else if work != [] {
      assert work == [work[0]];
      ActionWell(h, j, next, work[0]);
    }
  }

  lemma ActionWell(h: Host, j: Journal, next: Phase, a: Action)
    requires JournalOk(j) && ServiceAt(h, j) && j.phase != StateSaved
    requires next == NextPhase(j.operation, j.manager, j.phase) && Work(j, next) == [a] && StateOk(Committed(j))
    ensures RunsWell(h, j, [a])
  {
    OneWell(h, j, a);
    hide Exec, StateOk, Committed;
  }

  lemma {:induction false} FromWell(h: Host, j: Journal)
    requires DiskInv(h) && h.journal == Some(j) && JournalOk(j) && ServiceAt(h, j) && StateOk(Committed(j))
    ensures RunsWell(h, j, From(j, j.phase))
    decreases 11 - Position(j.phase)
  {
    hide DiskInv, JournalOk, ServiceAt, StateOk, Committed, ReadyFor, InStep, Do, Work, Exec, RunsWell;
    JournalShape(j);
    if j.phase == StateSaved {
      OneWell(h, j, RemoveJournal);
      EndWell(h, j);
    } else {
      var next := NextPhase(j.operation, j.manager, j.phase);
      var n, work, rest := j.(phase := next), Work(j, next), From(j, next);
      WorkWell(h, j, next);
      WorkSound(h, j, next, []);
      WorkService(h, j, next, []);
      var w := Exec(h, j, work, []);
      WellIsDone(h, j, work);
      CheckpointSound(w.host, j, next, ALL_WELL);
      CheckpointService(w.host, j, next, ALL_WELL);
      var c := Do(w.host, j, Checkpoint(next), ALL_WELL);
      RecordWell(w.host, j, next);
      FromIgnoresPhase(j, n, next);
      SamePlan(j, n);
      FromWell(c.host, n);
      OneWell(w.host, j, Checkpoint(next));
      WellConcat(w.host, j, [Checkpoint(next)], rest);
      WellConcat(h, j, work, [Checkpoint(next)] + rest);
      assert work + [Checkpoint(next)] + rest == work + ([Checkpoint(next)] + rest);
    }
  }

  lemma WellIsDone(h: Host, m: Journal, program: seq<Action>)
    ensures RunsWell(h, m, program) <==> Exec(h, m, program, []).outcome == Done
  {
  }

  lemma EndWell(h: Host, j: Journal)
    requires j.phase == StateSaved && Exec(h, j, [RemoveJournal], []) == Do(h, j, RemoveJournal, ALL_WELL)
    requires j.operation != UninstallOperation ==> j.desired.Some?
    requires j.operation != ApplyOperation ==> j.prior.Some?
    ensures RunsWell(h, j, From(j, j.phase))
  {
    assert From(j, j.phase) == [RemoveJournal];
  }

  lemma RecordWell(h: Host, j: Journal, next: Phase)
    ensures Do(h, j, Checkpoint(next), ALL_WELL).outcome == Done && RunsWell(h, j, [Checkpoint(next)])
  {
    OneWell(h, j, Checkpoint(next));
  }

  lemma SamePlan(j: Journal, n: Journal)
    requires JournalOk(j) && JournalOk(n) && n == j.(phase := n.phase)
    ensures Committed(n) == Committed(j)
  {
  }

  /**
   A transaction resumed on a host that matches its recorded phases, whose next generation exists,
   finishes when nothing goes wrong.
   */
  lemma AllWellFinishes(h: Host, j: Journal)
    requires DiskInv(h) && h.journal == Some(j) && JournalOk(j) && ServiceAt(h, j) && StateOk(Committed(j))
    ensures Exec(h, j, Program(j), []).outcome == Done && Finished(Exec(h, j, Program(j), []).host, j)
  {
    EntryWell(h, j);
    FromWell(h, j);
    EntrySound(h, j, []);
    hide DiskInv, JournalOk, ServiceAt, StateOk, Committed, Exec, Entry, From;
    WellConcat(h, j, Entry(j), From(j, j.phase));
    DoneIsFinished(h, j);
  }

  lemma EntryWell(h: Host, j: Journal)
    requires DiskInv(h) && h.journal == Some(j) && JournalOk(j)
    ensures RunsWell(h, j, Entry(j))
  {
    if Entry(j) != [] {
      var a := Entry(j)[0];
      assert Entry(j) == [a];
      OneWell(h, j, a);
      hide Exec, StateOk, Committed;
    }
  }

  lemma DoneIsFinished(h: Host, j: Journal)
    requires DiskInv(h) && h.journal == Some(j) && JournalOk(j) && ServiceAt(h, j) && Exec(h, j, Program(j), []).outcome == Done
    ensures Finished(Exec(h, j, Program(j), []).host, j)
  {
    hide DiskInv, JournalOk, ServiceAt, Exec, Program, Committed;
    ProgramSound(h, j, []);
    ProgramService(h, j, []);
  }

  // ----- When a failure is undone ------------------------------------------------------------------------

  lemma ReviveWell(h: Host, m: Journal, r: Release)
    requires r in h.staged
    ensures RunsWell(h, m, Revive(r))
    ensures Exec(h, m, Revive(r), []) == Run(h.(definition := Some(r), running := Some(r)), m, Done)
  {
    var a, b := h.(definition := Some(r)), h.(definition := Some(r), running := Some(r));
    OneWell(h, m, Verify(r));
    OneWell(h, m, Install(r));
    OneWell(a, m, ActivateDefinition);
    OneWell(b, m, Health(r));
    hide Exec;
    WellConcat(h, m, [Verify(r)], [Install(r)]);
    WellConcat(h, m, [Verify(r)] + [Install(r)], [ActivateDefinition]);
    WellConcat(h, m, [Verify(r)] + [Install(r)] + [ActivateDefinition], [Health(r)]);
    assert Revive(r) == [Verify(r)] + [Install(r)] + [ActivateDefinition] + [Health(r)];
  }

  /** Bringing the prior service back, if there was one. */
  lemma RevivePriorWell(h: Host, m: Journal)
    requires m.prior.Some? ==> Kept(h.staged, m.prior.value)
    ensures RunsWell(h, m, RevivePrior(m)) && Exec(h, m, RevivePrior(m), []).memory == m
  {
    if RevivePrior(m) != [] {
      ReviveWell(h, m, m.prior.value.active.value);
    }
  }

  lemma UndoServiceWell(h: Host, m: Journal, attested: bool)
    requires m.prior.Some? ==> Kept(h.staged, m.prior.value)
    ensures RunsWell(h, m, UndoService(m, attested)) && Exec(h, m, UndoService(m, attested), []).memory == m
  {
    var gone := h.(running := None, definition := None);
    RevivePriorWell(h, m);
    RevivePriorWell(gone, m);
    OneWell(h, m, RemoveService);
    hide Exec, Kept, RevivePrior;
    WellConcat(h, m, [RemoveService], RevivePrior(m));
    NothingWell(h, m);
    assert [] + RevivePrior(m) == RevivePrior(m) && [RemoveService] + [] == [RemoveService];
  }

  lemma NothingWell(h: Host, m: Journal)
    ensures Exec(h, m, [], []) == Run(h, m, Done) && RunsWell(h, m, [])
  {
  }

  lemma UndoStateWell(h: Host, m: Journal)
    requires m.prior.Some? ==> StateOk(m.prior.value)
    ensures RunsWell(h, m, UndoState(m) + [RemoveJournal])
  {
    var undo := UndoState(m);
    if undo == [] {
      assert undo + [RemoveJournal] == [RemoveJournal];
      OneWell(h, m, RemoveJournal);
    } else {
      assert undo == [undo[0]];
      OneWell(h, m, undo[0]);
      var r := Do(h, m, undo[0], ALL_WELL);
      OneWell(r.host, r.memory, RemoveJournal);
      hide Exec, StateOk;
      WellConcat(h, m, undo, [RemoveJournal]);
    }
  }

  lemma CompensationWell(h: Host, m: Journal, attested: bool)
    requires DiskInv(h) && InStep(h, m) && Compensates(m)
    ensures RunsWell(h, m, Compensation(m, attested))
  {
    PriorIsKept(h, m);
    hide DiskInv, JournalOk, InStep, StateOk, Kept, UndoService, UndoState, Compensation, Exec;
    CompensationShape(m, attested);
    UndoServiceWell(h, m, attested);
    var r := Exec(h, m, UndoService(m, attested), []);
    UndoStateWell(r.host, m);
    WellConcat(h, m, UndoService(m, attested), UndoState(m) + [RemoveJournal]);
    assert UndoService(m, attested) + UndoState(m) + [RemoveJournal] == UndoService(m, attested) + (UndoState(m) + [RemoveJournal]);
  }

  lemma PriorIsKept(h: Host, m: Journal)
    requires DiskInv(h) && InStep(h, m) && Compensates(m)
    ensures m.prior.Some? ==> Kept(h.staged, m.prior.value) && StateOk(m.prior.value)
  {
    hide SavedMatches, Kept, StateOk;
  }

  /** A failure with this journal in memory is undone rather than left to be resumed. */
  predicate BeforeNoReturn(m: Journal) {
    if m.operation == UninstallOperation then m.phase in {Planned, PriorServiceStopped, DefinitionRemoved} else m.phase != StateSaved
  }

  /**
   A transaction that fails before its point of no return, and whose compensation meets no trouble,
   leaves no journal, the prior state, and the service as it was before if one was active.
   */
  lemma FailureIsUndone(h: Host, j: Journal, answers: seq<Answer>, attested: bool)
    requires DiskInv(h) && h.journal == Some(j) && JournalOk(j)
    requires var r := Exec(h, j, Program(j), answers); r.outcome == Failed && BeforeNoReturn(r.memory)
    ensures var g := Invoke(h, j, answers, attested, []).host;
            && g.journal.None? && g.state == j.prior
            && ServiceRestored(Exec(h, j, Program(j), answers).host, g, Exec(h, j, Program(j), answers).memory, attested)
  {
    ProgramSound(h, j, answers);
    var r := Exec(h, j, Program(j), answers);
    MemoryIsOk(j, r);
    UndoneIff(r.memory);
    FailedInStep(j, r);
    hide DiskInv, JournalOk, InStep, Exec, Program, Compensation, Compensates, ServiceRestored;
    CompensationWell(r.host, r.memory, attested);
    CompensationSound(r.host, r.memory, attested, []);
    CompensationRestoresService(r.host, r.memory, attested, []);
  }

  /** Past that point a failure is left as it is, for the next command to resume. */
  lemma FailureIsLeft(h: Host, j: Journal, answers: seq<Answer>, attested: bool, undo: seq<Answer>)
    requires DiskInv(h) && h.journal == Some(j) && JournalOk(j)
    requires var r := Exec(h, j, Program(j), answers); r.outcome == Failed && !BeforeNoReturn(r.memory)
    ensures Invoke(h, j, answers, attested, undo) == Exec(h, j, Program(j), answers)
  {
    ProgramSound(h, j, answers);
    var r := Exec(h, j, Program(j), answers);
    MemoryIsOk(j, r);
    UndoneIff(r.memory);
    hide DiskInv, JournalOk, Exec, Program, Compensation, Compensates;
  }

  lemma UndoneIff(m: Journal)
    requires JournalOk(m)
    ensures Compensates(m) <==> BeforeNoReturn(m)
  {
  }

  lemma MemoryIsOk(j: Journal, r: Run)
    requires JournalOk(j) && Sound(j, r)
    ensures JournalOk(r.memory)
  {
    hide DiskInv;
  }

  lemma FailedInStep(j: Journal, r: Run)
    requires JournalOk(j) && Sound(j, r) && r.outcome == Failed && Compensates(r.memory)
    ensures DiskInv(r.host) && r.host.journal.Some? && InStep(r.host, r.memory) && JournalOk(r.memory) && r.memory.prior == j.prior
  {
    hide DiskInv;
  }
}
