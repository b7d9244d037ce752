/**
 Histories from a fresh host in which a property of a resumed transaction, or of
 a preview, does not hold.  Each shows that the condition proved for it is needed.
 */
module DeploymentExamples {
  import opened Outcomes
  import opened Deployment
  import opened DeploymentProofs
  import opened DeploymentCode
  import opened DeploymentRuns
  import opened Preview
  import opened PreviewCalls

  const RELEASE := Release(1, 1, 0)
  const INSTALL := Apply(RELEASE, Systemd, Some(0), 0)
  const PLANNED := Journal(ApplyOperation, Planned, Systemd, Some(0), 0, Some(RELEASE), None)
  const VERIFIED := PLANNED.(phase := HealthVerified)
  const DEFINED := PLANNED.(phase := DefinitionInstalled)

  const BEGUN := FRESH.(journal := Some(PLANNED))
  const AT_DEFINITION := Host(None, Some(DEFINED), {RELEASE}, true, Some(RELEASE), None)
  const RUNNING_INSTALL := Host(None, Some(VERIFIED), {RELEASE}, true, Some(RELEASE), Some(RELEASE))
  const LOST_DEFINITION := RUNNING_INSTALL.(definition := None, running := None)
  const STOPPED_SERVICE := RUNNING_INSTALL.(running := None)
  const ACTIVATED_UNRECORDED := AT_DEFINITION.(running := Some(RELEASE))

  const FAILS := Answer(FailBefore, false, {})
  const STOPS := Answer(CrashBefore, false, {})
  const STOPS_WITHIN := Answer(CrashPartly, false, {})
  const STOPS_AFTER := Answer(CrashAfter, false, {})

  function Well(n: nat): seq<Answer> {
    seq(n, i => ALL_WELL)
  }

  // ----- Running a program step by step ---------------------------------------------------------

  lemma WellStep(h: Host, m: Journal, a: Action, rest: seq<Action>, n: nat, after: seq<Answer>)
    requires n > 0 && Do(h, m, a, ALL_WELL).outcome == Done
    ensures var r := Do(h, m, a, ALL_WELL);
            Exec(h, m, [a] + rest, Well(n) + after) == Exec(r.host, r.memory, rest, Well(n - 1) + after)
  {
    ExecStep(h, m, a, rest, Well(n) + after);
    assert Rest(Well(n) + after) == Well(n - 1) + after;
    hide Exec, Do;
  }

  lemma LastStep(h: Host, m: Journal, a: Action, rest: seq<Action>, answer: Answer)
    requires Do(h, m, a, answer).outcome != Done
    ensures Exec(h, m, [a] + rest, Well(0) + [answer]) == Do(h, m, a, answer)
  {
    assert Well(0) + [answer] == [answer];
    ExecStep(h, m, a, rest, [answer]);
    hide Exec, Do;
  }

  lemma PlanOk(p: Phase)
    requires Passes(ApplyOperation, Systemd, p)
    ensures JournalOk(PLANNED.(phase := p))
  {
  }

  lemma BlocksOfInstall()
    ensures JournalOk(PLANNED)
    ensures Program(PLANNED) == [Stage(RELEASE)] + ([Verify(RELEASE)] + ([Checkpoint(ArtifactStaged)] + From(PLANNED, ArtifactStaged)))
    ensures From(PLANNED, ArtifactStaged) == [Initialize] + ([Checkpoint(InstanceReady)] + From(PLANNED, InstanceReady))
    ensures From(PLANNED, InstanceReady) == [StopPrior] + ([Checkpoint(PriorServiceStopped)] + From(PLANNED, PriorServiceStopped))
    ensures From(PLANNED, PriorServiceStopped) == [Install(RELEASE)] + ([Checkpoint(DefinitionInstalled)] + From(PLANNED, DefinitionInstalled))
    ensures From(PLANNED, DefinitionInstalled) == [ActivateDesired(RELEASE)] + ([Checkpoint(Activated)] + From(PLANNED, Activated))
    ensures From(PLANNED, Activated) == [Health(RELEASE)] + ([Checkpoint(HealthVerified)] + From(PLANNED, HealthVerified))
    ensures From(PLANNED, HealthVerified) == [Checkpoint(Committing)] + From(PLANNED, Committing)
    ensures From(PLANNED, Committing) == [SaveState(Committed(PLANNED))] + ([Checkpoint(StateSaved)] + From(PLANNED, StateSaved))
    ensures From(PLANNED, StateSaved) == [RemoveJournal] + []
  {
    PlanOk(Planned);
    FreshApply(PLANNED);
    WorkBlock(PLANNED, ArtifactStaged, Initialize);
    WorkBlock(PLANNED, InstanceReady, StopPrior);
    WorkBlock(PLANNED, PriorServiceStopped, Install(RELEASE));
    WorkBlock(PLANNED, DefinitionInstalled, ActivateDesired(RELEASE));
    WorkBlock(PLANNED, Activated, Health(RELEASE));
    RecordBlock(PLANNED, HealthVerified);
    WorkBlock(PLANNED, Committing, SaveState(Committed(PLANNED)));
  }

  /** Nine actions that all go well install the definition. */
  lemma ToDefinition(n: nat, after: seq<Answer>)
    requires n >= 9
    ensures JournalOk(PLANNED)
    ensures Exec(BEGUN, PLANNED, Program(PLANNED), Well(n) + after) == Exec(AT_DEFINITION, DEFINED, From(PLANNED, DefinitionInstalled), Well(n - 9) + after)
  {
    BlocksOfInstall();
    hide Exec, From, Program;
    var j := PLANNED;
    var h1 := BEGUN.(staged := {RELEASE});
    assert BEGUN.staged + {RELEASE} == {RELEASE};
    WellStep(BEGUN, j, Stage(RELEASE), [Verify(RELEASE)] + ([Checkpoint(ArtifactStaged)] + From(j, ArtifactStaged)), n, after);
    WellStep(h1, j, Verify(RELEASE), [Checkpoint(ArtifactStaged)] + From(j, ArtifactStaged), n - 1, after);
    WellStep(h1, j, Checkpoint(ArtifactStaged), From(j, ArtifactStaged), n - 2, after);
    var j1 := j.(phase := ArtifactStaged);
    var h2 := h1.(journal := Some(j1));
    WellStep(h2, j1, Initialize, [Checkpoint(InstanceReady)] + From(j, InstanceReady), n - 3, after);
    var h3 := h2.(ready := true);
    WellStep(h3, j1, Checkpoint(InstanceReady), From(j, InstanceReady), n - 4, after);
    ToDefinitionEnd(n, after);
  }

  lemma ToDefinitionEnd(n: nat, after: seq<Answer>)
    requires n >= 9
    ensures JournalOk(PLANNED)
    ensures var j2 := PLANNED.(phase := InstanceReady);
            Exec(Host(None, Some(j2), {RELEASE}, true, None, None), j2, From(PLANNED, InstanceReady), Well(n - 5) + after)
            == Exec(AT_DEFINITION, DEFINED, From(PLANNED, DefinitionInstalled), Well(n - 9) + after)
  {
    BlocksOfInstall();
    hide Exec, From, Program;
    var j := PLANNED;
    var j2, j3 := j.(phase := InstanceReady), j.(phase := PriorServiceStopped);
    var h4 := Host(None, Some(j2), {RELEASE}, true, None, None);
    WellStep(h4, j2, StopPrior, [Checkpoint(PriorServiceStopped)] + From(j, PriorServiceStopped), n - 5, after);
    WellStep(h4, j2, Checkpoint(PriorServiceStopped), From(j, PriorServiceStopped), n - 6, after);
    var h5 := h4.(journal := Some(j3));
    WellStep(h5, j3, Install(RELEASE), [Checkpoint(DefinitionInstalled)] + From(j, DefinitionInstalled), n - 7, after);
    WellStep(h5.(definition := Some(RELEASE)), j3, Checkpoint(DefinitionInstalled), From(j, DefinitionInstalled), n - 8, after);
  }

  /** An installation interrupted right after its health check was recorded. */
  lemma InterruptedAfterHealth()
    ensures JournalOk(PLANNED)
    ensures Exec(BEGUN, PLANNED, Program(PLANNED), Well(12) + [STOPS_AFTER]) == Run(RUNNING_INSTALL, VERIFIED, Crashed)
  {
    ToDefinition(12, [STOPS_AFTER]);
    hide Exec, From, Program;
    ToHealth();
  }

  lemma ToHealth()
    ensures JournalOk(PLANNED)
    ensures Exec(AT_DEFINITION, DEFINED, From(PLANNED, DefinitionInstalled), Well(3) + [STOPS_AFTER]) == Run(RUNNING_INSTALL, VERIFIED, Crashed)
  {
    BlocksOfInstall();
    hide Exec, From, Program;
    var j := PLANNED;
    var j4 := j.(phase := Activated);
    WellStep(AT_DEFINITION, DEFINED, ActivateDesired(RELEASE), [Checkpoint(Activated)] + From(j, Activated), 3, [STOPS_AFTER]);
    WellStep(ACTIVATED_UNRECORDED, DEFINED, Checkpoint(Activated), From(j, Activated), 2, [STOPS_AFTER]);
    var h := ACTIVATED_UNRECORDED.(journal := Some(j4));
    WellStep(h, j4, Health(RELEASE), [Checkpoint(HealthVerified)] + From(j, HealthVerified), 1, [STOPS_AFTER]);
    LastStep(h, j4, Checkpoint(HealthVerified), From(j, HealthVerified), STOPS_AFTER);
  }

  /** An installation interrupted right after its activation, before that was recorded. */
  lemma InterruptedAfterActivation()
    ensures JournalOk(PLANNED)
    ensures Exec(BEGUN, PLANNED, Program(PLANNED), Well(9) + [STOPS_AFTER]) == Run(ACTIVATED_UNRECORDED, DEFINED, Crashed)
  {
    hide Exec, From, Program, JournalOk;
    ToDefinition(9, [STOPS_AFTER]);
    StopAtActivation();
  }

  lemma StopAtActivation()
    ensures JournalOk(PLANNED)
    ensures Exec(AT_DEFINITION, DEFINED, From(PLANNED, DefinitionInstalled), Well(0) + [STOPS_AFTER]) == Run(ACTIVATED_UNRECORDED, DEFINED, Crashed)
  {
    PlanOk(Planned);
    WorkBlock(PLANNED, DefinitionInstalled, ActivateDesired(RELEASE));
    hide Exec, From;
    LastStep(AT_DEFINITION, DEFINED, ActivateDesired(RELEASE), [Checkpoint(Activated)] + From(PLANNED, Activated), STOPS_AFTER);
  }

  // ----- The interrupted compensation --------------------------------------------------------------

  lemma ResumeProgram()
    ensures JournalOk(VERIFIED)
    ensures Program(VERIFIED) == [Verify(RELEASE)] + ([Checkpoint(Committing)] + From(PLANNED, Committing))
  {
    BlocksOfInstall();
    PlanOk(HealthVerified);
    FromIgnoresPhase(PLANNED, VERIFIED, HealthVerified);
    hide From;
  }

  /** Recording the commit fails. */
  lemma CommitFails()
    ensures JournalOk(VERIFIED)
    ensures Exec(RUNNING_INSTALL, VERIFIED, Program(VERIFIED), Well(1) + [FAILS]) == Run(RUNNING_INSTALL, VERIFIED.(phase := Committing), Failed)
  {
    ResumeProgram();
    hide Exec, From, Program;
    WellStep(RUNNING_INSTALL, VERIFIED, Verify(RELEASE), [Checkpoint(Committing)] + From(PLANNED, Committing), 1, [FAILS]);
    LastStep(RUNNING_INSTALL, VERIFIED, Checkpoint(Committing), From(PLANNED, Committing), FAILS);
  }

  const FAILED := VERIFIED.(phase := Committing)

  /** The compensation is interrupted after it removed the service, or while it removes it. */
  lemma CompensationStops()
    ensures Exec(RUNNING_INSTALL, FAILED, Compensation(FAILED, false), Well(1) + [STOPS]) == Run(LOST_DEFINITION, FAILED, Crashed)
    ensures Exec(RUNNING_INSTALL, FAILED, Compensation(FAILED, false), Well(0) + [STOPS_WITHIN]) == Run(STOPPED_SERVICE, FAILED, Crashed)
  {
    assert Compensation(FAILED, false) == [RemoveService] + ([RemoveStateFile] + [RemoveJournal]);
    hide Exec, Compensation;
    WellStep(RUNNING_INSTALL, FAILED, RemoveService, [RemoveStateFile] + [RemoveJournal], 1, [STOPS]);
    LastStep(LOST_DEFINITION, FAILED, RemoveStateFile, [RemoveJournal], STOPS);
    LastStep(RUNNING_INSTALL, FAILED, RemoveService, [RemoveStateFile] + [RemoveJournal], STOPS_WITHIN);
  }

  /** The next invocation commits, whatever became of the service. */
  lemma CommitsAnyway(h: Host)
    requires h == RUNNING_INSTALL.(definition := h.definition, running := h.running)
    ensures JournalOk(VERIFIED)
    ensures Exec(h, VERIFIED, Program(VERIFIED), Well(5) + [])
         == Run(h.(state := Some(Committed(PLANNED)), journal := None), VERIFIED.(phase := StateSaved), Done)
  {
    ResumeProgram();
    BlocksOfInstall();
    hide Exec, From, Program;
    var j, c := PLANNED, Committed(PLANNED);
    WellStep(h, VERIFIED, Verify(RELEASE), [Checkpoint(Committing)] + From(j, Committing), 5, []);
    WellStep(h, VERIFIED, Checkpoint(Committing), From(j, Committing), 4, []);
    var h1 := h.(journal := Some(FAILED));
    WellStep(h1, FAILED, SaveState(c), [Checkpoint(StateSaved)] + From(j, StateSaved), 3, []);
    var h2 := h1.(state := Some(c));
    WellStep(h2, FAILED, Checkpoint(StateSaved), From(j, StateSaved), 2, []);
    var saved := VERIFIED.(phase := StateSaved);
    WellStep(h2.(journal := Some(saved)), saved, RemoveJournal, [], 1, []);
    NothingDone(h2.(journal := None), saved, Well(0) + []);
  }

  const UNTIL_HEALTH := Env(ALL_WELL, Well(12) + [STOPS_AFTER], false, [])
  const UNTIL_REMOVED := Env(ALL_WELL, Well(1) + [FAILS], false, Well(1) + [STOPS])
  const UNTIL_STOPPED := Env(ALL_WELL, Well(1) + [FAILS], false, Well(0) + [STOPS_WITHIN])
  const WELL := Env(ALL_WELL, Well(5) + [], false, [])

  function Closed(h: Host): Host {
    h.(state := Some(Committed(PLANNED)), journal := None)
  }

  lemma InstallBegins()
    ensures RunCommand(FRESH, INSTALL, UNTIL_HEALTH) == RUNNING_INSTALL
  {
    PlanOk(Planned);
    InterruptedAfterHealth();
    hide Exec, Program;
  }

  lemma InstallResumes(h: Host, env: Env)
    requires h == RUNNING_INSTALL.(definition := h.definition, running := h.running)
    ensures JournalOk(VERIFIED) && RunCommand(h, INSTALL, env) == Invoke(h, VERIFIED, env.answers, env.attested, env.undo).host
  {
    PlanOk(HealthVerified);
    hide Invoke;
  }

  lemma InstallIsCompensated()
    ensures RunCommand(RUNNING_INSTALL, INSTALL, UNTIL_REMOVED) == LOST_DEFINITION
    ensures RunCommand(RUNNING_INSTALL, INSTALL, UNTIL_STOPPED) == STOPPED_SERVICE
  {
    InstallResumes(RUNNING_INSTALL, UNTIL_REMOVED);
    InstallResumes(RUNNING_INSTALL, UNTIL_STOPPED);
    CommitFails();
    CompensationStops();
    hide Exec, Program, Compensation, RunCommand;
  }

  lemma InstallCommits(h: Host)
    requires h == RUNNING_INSTALL.(definition := h.definition, running := h.running)
    ensures RunCommand(h, INSTALL, WELL) == Closed(h)
  {
    InstallResumes(h, WELL);
    CommitsAnyway(h);
    hide Exec, Program, RunCommand;
  }

  lemma ThreeInstalls(a: Host, b: Host, c: Host, first: Env, second: Env, third: Env)
    requires a == RunCommand(FRESH, INSTALL, first) && b == RunCommand(a, INSTALL, second) && c == RunCommand(b, INSTALL, third)
    ensures IsHistory([FRESH, a, b, c], [INSTALL, INSTALL, INSTALL], [first, second, third])
  {
    hide RunCommand;
  }

  /**
   A history from a fresh host: recording the commit fails, the compensation removes the service
   and is then interrupted; the next apply finds the health check recorded and commits a release as
   active whose service definition is gone.
   */
  lemma LostDefinitionIsCommitted()
    ensures IsHistory([FRESH, RUNNING_INSTALL, LOST_DEFINITION, Closed(LOST_DEFINITION)], [INSTALL, INSTALL, INSTALL], [UNTIL_HEALTH, UNTIL_REMOVED, WELL])
    ensures var end := Closed(LOST_DEFINITION);
            end.journal.None? && end.state.Some? && end.state.value.status == ActiveStatus && end.state.value.active == Some(RELEASE)
            && end.definition.None?
  {
    hide RunCommand;
    InstallBegins();
    InstallIsCompensated();
    InstallCommits(LOST_DEFINITION);
    ThreeInstalls(RUNNING_INSTALL, LOST_DEFINITION, Closed(LOST_DEFINITION), UNTIL_HEALTH, UNTIL_REMOVED, WELL);
  }

  /**
   Another one: the compensation is interrupted after it stopped the service and before it removed
   the definition.  The definition is in place at the end, the service does not run.
   */
  lemma StoppedServiceIsCommitted()
    ensures IsHistory([FRESH, RUNNING_INSTALL, STOPPED_SERVICE, Closed(STOPPED_SERVICE)], [INSTALL, INSTALL, INSTALL], [UNTIL_HEALTH, UNTIL_STOPPED, WELL])
    ensures var end := Closed(STOPPED_SERVICE);
            end.journal.None? && end.state.Some? && end.state.value.status == ActiveStatus && end.state.value.active == Some(RELEASE)
            && end.definition == Some(RELEASE) && end.running.None?
  {
    hide RunCommand;
    InstallBegins();
    InstallIsCompensated();
    InstallCommits(STOPPED_SERVICE);
    ThreeInstalls(RUNNING_INSTALL, STOPPED_SERVICE, Closed(STOPPED_SERVICE), UNTIL_HEALTH, UNTIL_STOPPED, WELL);
  }

  // ----- A preview that does not announce the calls made --------------------------------------------

  const UNTIL_ACTIVATED := Env(ALL_WELL, Well(9) + [STOPS_AFTER], false, [])

  lemma ActivationBegins()
    ensures IsHistory([FRESH, ACTIVATED_UNRECORDED], [INSTALL], [UNTIL_ACTIVATED])
  {
    PlanOk(Planned);
    InterruptedAfterActivation();
    hide Exec, Program;
    assert RunCommand(FRESH, INSTALL, UNTIL_ACTIVATED) == ACTIVATED_UNRECORDED;
  }

  lemma ResumeActivationProgram()
    ensures JournalOk(DEFINED)
    ensures Program(DEFINED) == [Verify(RELEASE)] + From(PLANNED, DefinitionInstalled)
  {
    BlocksOfInstall();
    PlanOk(DefinitionInstalled);
    FromIgnoresPhase(PLANNED, DEFINED, DefinitionInstalled);
    hide From;
  }

  /** Resumed after its activation, the installation stops the service it had just started and activates it again. */
  lemma ActivationResumes()
    ensures JournalOk(DEFINED) && Exec(ACTIVATED_UNRECORDED, DEFINED, Program(DEFINED), Well(10) + []).outcome == Done
  {
    ResumeActivationProgram();
    BlocksOfInstall();
    hide Exec, From, Program;
    var j, h := PLANNED, ACTIVATED_UNRECORDED;
    var j4 := j.(phase := Activated);
    WellStep(h, DEFINED, Verify(RELEASE), From(j, DefinitionInstalled), 10, []);
    WellStep(h, DEFINED, ActivateDesired(RELEASE), [Checkpoint(Activated)] + From(j, Activated), 9, []);
    WellStep(h, DEFINED, Checkpoint(Activated), From(j, Activated), 8, []);
    var h1 := h.(journal := Some(j4));
    WellStep(h1, j4, Health(RELEASE), [Checkpoint(HealthVerified)] + From(j, HealthVerified), 7, []);
    WellStep(h1, j4, Checkpoint(HealthVerified), From(j, HealthVerified), 6, []);
    FromHealthOn();
  }

  lemma FromHealthOn()
    ensures JournalOk(PLANNED) && Exec(RUNNING_INSTALL, VERIFIED, From(PLANNED, HealthVerified), Well(5) + []).outcome == Done
  {
    BlocksOfInstall();
    hide Exec, From, Program;
    var j, h, c := PLANNED, RUNNING_INSTALL, Committed(PLANNED);
    WellStep(h, VERIFIED, Checkpoint(Committing), From(j, Committing), 5, []);
    var h1 := h.(journal := Some(FAILED));
    WellStep(h1, FAILED, SaveState(c), [Checkpoint(StateSaved)] + From(j, StateSaved), 4, []);
    var h2 := h1.(state := Some(c));
    WellStep(h2, FAILED, Checkpoint(StateSaved), From(j, StateSaved), 3, []);
    var saved := VERIFIED.(phase := StateSaved);
    WellStep(h2.(journal := Some(saved)), saved, RemoveJournal, [], 2, []);
    NothingDone(h2.(journal := None), saved, Well(1) + []);
  }

  /**
   The calls of that resumed apply are not the ones its preview announces, whatever preview of this
   journal it was.
   */
  lemma PreviewMissesCalls(sources: nat, actions: seq<Shown>)
    requires JournalOk(DEFINED) && Steps(actions) == Opening(Some(DEFINED), sources) + ViewAll(DEFINED, Program(DEFINED))
    ensures Exec(ACTIVATED_UNRECORDED, DEFINED, Program(DEFINED), Well(10) + []).outcome == Done
    ensures MadeAll(ACTIVATED_UNRECORDED, DEFINED, Program(DEFINED), Well(10) + []) != CallsOf(actions)
  {
    assert DiskInv(ACTIVATED_UNRECORDED);
    ActivationResumes();
    hide Exec, Program, MadeAll, CallsOf, Steps, ViewAll, DiskInv, JournalOk;
    PreviewedCallsIff(ACTIVATED_UNRECORDED, DEFINED, Well(10) + [], Some(DEFINED), sources, actions);
  }
}
