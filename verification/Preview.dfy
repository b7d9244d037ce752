/**
 The action list a preview shows for an apply, and what the apply then does.
 */
module Preview {
  import opened Outcomes
  import opened Deployment
  import opened DeploymentProofs
  import opened DeploymentCode

  datatype Shown =
    | CreateJournal
    | ResumeJournal(at: Phase)
    | RebindInputs
    | PrepareReleaseDirectory
    | PublishArtifact
    | PublishLicense
    | PublishNotice
    | InitializeInstance
    | StopPriorService
    | VerifyForegroundStopped
    | InstallDefinition
    | ReturnForegroundCommand
    | ActivateService
    | VerifyHealth
    | DeferHealth
    | CommitState
    | CheckpointJournal(phase: Phase)
    | DropJournal

  /** Lines that tell the user something but stand for no step of the run. */
  predicate Informs(s: Shown) {
    s.ReturnForegroundCommand? || s.DeferHealth?
  }

  function Steps(shown: seq<Shown>): seq<Shown> {
    if shown == [] then []
    else Steps(shown[..|shown| - 1]) + (if Informs(shown[|shown| - 1]) then [] else [shown[|shown| - 1]])
  }

  lemma {:induction false} StepsConcat(a: seq<Shown>, b: seq<Shown>)
    ensures Steps(a + b) == Steps(a) + Steps(b)
    decreases |b|
  {
    if b == [] {
      assert a + b == a;
    } else {
      assert (a + b)[..|a + b| - 1] == a + b[..|b| - 1];
      StepsConcat(a, b[..|b| - 1]);
    }
  }

  /** How an action of the run is shown; proving a release or a saved state is not. */
  function View(j: Journal, a: Action): seq<Shown> {
    match a
    case Stage(_) => [PrepareReleaseDirectory, PublishArtifact, PublishLicense, PublishNotice]
    case Initialize => [InitializeInstance]
    case StopPrior =>
      if j.prior.None? then []
      else if j.prior.value.status == ActiveStatus then [StopPriorService]
      else if j.prior.value.status == ForegroundStatus then [VerifyForegroundStopped] else []
    case Install(_) => [InstallDefinition]
    case ActivateDesired(_) => [ActivateService]
    case Health(_) => [VerifyHealth]
    case SaveState(_) => [CommitState]
    case Checkpoint(p) => [CheckpointJournal(p)]
    case RemoveJournal => [DropJournal]
    case _ => []
  }

  function ViewAll(j: Journal, program: seq<Action>): seq<Shown> {
    if program == [] then [] else View(j, program[0]) + ViewAll(j, program[1..])
  }

  lemma {:induction false} ViewConcat(j: Journal, a: seq<Action>, b: seq<Action>)
    ensures ViewAll(j, a + b) == ViewAll(j, a) + ViewAll(j, b)
  {
    if a == [] {
      assert a + b == b;
    } else {
      assert (a + b)[1..] == a[1..] + b;
      ViewConcat(j, a[1..], b);
    }
  }

  lemma ViewOne(j: Journal, a: Action)
    ensures ViewAll(j, [a]) == View(j, a)
  {
    assert [a][1..] == [];
  }

  /** The shown lines of one block of the run. */
  lemma ViewBlock(j: Journal, p: Phase)
    requires JournalOk(j) && p != StateSaved
    ensures var next := NextPhase(j.operation, j.manager, p);
            ViewAll(j, From(j, p)) == ViewAll(j, Work(j, next)) + [CheckpointJournal(next)] + ViewAll(j, From(j, next))
  {
    JournalShape(j);
    hide From, Work, JournalOk, ViewAll, View, NextPhase;
    var next := NextPhase(j.operation, j.manager, p);
    NextBlock(j, p);
    ViewThree(j, Work(j, next), Checkpoint(next), From(j, next));
    ShowsCheckpoint(j, next);
  }

  lemma ViewThree(j: Journal, work: seq<Action>, a: Action, rest: seq<Action>)
    ensures ViewAll(j, work + ([a] + rest)) == ViewAll(j, work) + View(j, a) + ViewAll(j, rest)
  {
    hide ViewAll, View;
    ViewConcat(j, work, [a] + rest);
    ViewConcat(j, [a], rest);
    ViewOne(j, a);
    var x, y, z := ViewAll(j, work), View(j, a), ViewAll(j, rest);
    assert x + (y + z) == x + y + z;
  }

  lemma ShowsCheckpoint(j: Journal, p: Phase)
    ensures View(j, Checkpoint(p)) == [CheckpointJournal(p)]
  {
  }

  /** What is shown before the transaction itself. */
  function Opening(journal: Option<Journal>, sources: nat): seq<Shown> {
    if journal.None? then [CreateJournal]
    else [ResumeJournal(journal.value.phase)] + (if journal.value.phase == Planned && journal.value.sources != sources then [RebindInputs] else [])
  }

  method Reached(p: Phase, target: Phase, m: Manager) returns (reached: bool)
    requires Passes(ApplyOperation, m, p) && target in APPLY_ORDER
    ensures reached <==> Position(target) <= Position(p)
  {
    OrdersAscend();
    PassedIsListed(ApplyOperation, m, p);
    reached := PhaseReached(APPLY_ORDER, p, target);
  }

  /** Appending the lines of one block moves the rest of the run on by that block. */
  lemma AppendBlock(j: Journal, p: Phase, actions: seq<Shown>, work: seq<Shown>, goal: seq<Shown>)
    requires JournalOk(j) && p != StateSaved
    requires goal == Steps(actions) + ViewAll(j, From(j, p))
    requires Steps(work) == ViewAll(j, Work(j, NextPhase(j.operation, j.manager, p)))
    ensures var next := NextPhase(j.operation, j.manager, p);
            goal == Steps(actions + work + [CheckpointJournal(next)]) + ViewAll(j, From(j, next))
  {
    JournalShape(j);
    var next := NextPhase(j.operation, j.manager, p);
    ViewBlock(j, p);
    hide From, Work, JournalOk, ViewAll, Steps;
    StepsConcat(actions + work, [CheckpointJournal(next)]);
    StepsConcat(actions, work);
    StepsOne(CheckpointJournal(next));
    Regroup(Steps(actions), Steps(work), [CheckpointJournal(next)], ViewAll(j, From(j, next)));
  }

  lemma Regroup(a: seq<Shown>, b: seq<Shown>, c: seq<Shown>, d: seq<Shown>)
    ensures a + (b + c + d) == a + b + c + d
  {
  }

  lemma StepsOne(s: Shown)
    ensures Steps([s]) == if Informs(s) then [] else [s]
  {
    assert [s][..0] == [];
  }

  lemma ViewStaging(j: Journal)
    requires JournalOk(j) && j.operation == ApplyOperation
    ensures ViewAll(j, Work(j, ArtifactStaged)) == [PrepareReleaseDirectory, PublishArtifact, PublishLicense, PublishNotice]
  {
    var d := j.desired.value;
    ViewConcat(j, [Stage(d)], [Verify(d)]);
    ViewOne(j, Stage(d));
    ViewOne(j, Verify(d));
    assert Work(j, ArtifactStaged) == [Stage(d)] + [Verify(d)];
  }

  /** What a one-action block shows. */
  function Lines(j: Journal, p: Phase): seq<Shown> {
    match p
    case InstanceReady => [InitializeInstance]
    case PriorServiceStopped => View(j, StopPrior)
    case DefinitionInstalled => if j.manager != ForegroundManager then [InstallDefinition] else []
    case Activated => [ActivateService]
    case HealthVerified => [VerifyHealth]
    case StateSaved => [CommitState]
    case _ => []
  }

  lemma ViewWork(j: Journal, p: Phase)
    requires JournalOk(j) && j.operation == ApplyOperation
    requires p in {InstanceReady, PriorServiceStopped, DefinitionInstalled, Activated, HealthVerified, Committing, StateSaved}
    ensures ViewAll(j, Work(j, p)) == Lines(j, p)
  {
    if Work(j, p) != [] {
      ViewOne(j, Work(j, p)[0]);
      assert Work(j, p) == [Work(j, p)[0]];
    }
  }

  lemma ViewCommit(j: Journal)
    requires JournalOk(j) && j.operation == ApplyOperation
    ensures ViewAll(j, Work(j, Committing)) == [] && ViewAll(j, Work(j, StateSaved)) == [CommitState]
  {
    ViewWork(j, Committing);
    ViewWork(j, StateSaved);
  }

  /** No line of these informs, so all of them are steps. */
  lemma {:induction false} AllSteps(shown: seq<Shown>)
    requires forall i | 0 <= i < |shown| :: !Informs(shown[i])
    ensures Steps(shown) == shown
  {
    if shown != [] {
      AllSteps(shown[..|shown| - 1]);
    }
  }

  /** The phase a preview has got to: the one resumed from, or the last one listed. */
  function Later(p: Phase, q: Phase): Phase {
    if Position(p) < Position(q) then q else p
  }

  /** Staging and initialization. */
  method PreviewPreparation(plan: Journal, opening: seq<Shown>, ghost goal: seq<Shown>) returns (actions: seq<Shown>)
    requires JournalOk(plan) && plan.operation == ApplyOperation
    requires goal == Steps(opening) + ViewAll(plan, From(plan, plan.phase)) && forall i | 0 <= i < |opening| :: !Informs(opening[i])
    ensures goal == Steps(actions)
                    + ViewAll(plan, From(plan, Later(plan.phase, InstanceReady)))
    ensures forall i | 0 <= i < |actions| :: !Informs(actions[i])
  {
    hide From, Work, ViewAll, Steps;
    ghost var at := plan.phase;
    actions := opening;
    var reached := Reached(plan.phase, ArtifactStaged, plan.manager);
    if !reached {
      var lines := [PrepareReleaseDirectory, PublishArtifact, PublishLicense, PublishNotice];
      AllSteps(lines);
      ViewStaging(plan);
      AppendBlock(plan, at, actions, lines, goal);
      actions, at := actions + lines + [CheckpointJournal(ArtifactStaged)], ArtifactStaged;
    }
    reached := Reached(plan.phase, InstanceReady, plan.manager);
    if !reached {
      AllSteps([InitializeInstance]);
      ViewWork(plan, InstanceReady);
      AppendBlock(plan, at, actions, [InitializeInstance], goal);
      actions, at := actions + [InitializeInstance] + [CheckpointJournal(InstanceReady)], InstanceReady;
    }
  }

  /** Stopping the prior service, or checking that a foreground one was stopped. */
  method PreviewStop(plan: Journal, before: seq<Shown>, ghost at: Phase, ghost goal: seq<Shown>) returns (actions: seq<Shown>)
    requires JournalOk(plan) && plan.operation == ApplyOperation
    requires at == Later(plan.phase, InstanceReady)
    requires goal == Steps(before) + ViewAll(plan, From(plan, at)) && forall i | 0 <= i < |before| :: !Informs(before[i])
    ensures goal == Steps(actions)
                    + ViewAll(plan, From(plan, Later(plan.phase, PriorServiceStopped)))
    ensures forall i | 0 <= i < |actions| :: !Informs(actions[i])
  {
    hide From, Work, ViewAll, Steps;
    actions := before;
    var reached := Reached(plan.phase, PriorServiceStopped, plan.manager);
    if !reached {
      var lines: seq<Shown> := [];
      if plan.prior.Some? && plan.prior.value.status == ActiveStatus {
        lines := [StopPriorService];
      } else if plan.prior.Some? && plan.prior.value.status == ForegroundStatus {
        lines := [VerifyForegroundStopped];
      }
      AllSteps(lines);
      ViewWork(plan, PriorServiceStopped);
      AppendBlock(plan, at, actions, lines, goal);
      actions := actions + lines + [CheckpointJournal(PriorServiceStopped)];
    }
  }

  /** The definition, or the command a foreground deployment returns instead. */
  method PreviewDefinition(plan: Journal, before: seq<Shown>, ghost at: Phase, ghost goal: seq<Shown>) returns (actions: seq<Shown>)
    requires JournalOk(plan) && plan.operation == ApplyOperation
    requires at == Later(plan.phase, PriorServiceStopped)
    requires goal == Steps(before) + ViewAll(plan, From(plan, at)) && forall i | 0 <= i < |before| :: !Informs(before[i])
    ensures goal == Steps(actions)
                    + ViewAll(plan, From(plan, Later(plan.phase, DefinitionInstalled)))
    ensures DeferHealth !in actions
    ensures ReturnForegroundCommand in actions <==> plan.manager == ForegroundManager && Position(plan.phase) < Position(DefinitionInstalled)
  {
    hide From, Work, ViewAll, Steps;
    actions := before;
    var reached := Reached(plan.phase, DefinitionInstalled, plan.manager);
    if !reached {
      ViewWork(plan, DefinitionInstalled);
      if plan.manager == ForegroundManager {
        StepsOne(ReturnForegroundCommand);
        AppendBlock(plan, at, actions, [ReturnForegroundCommand], goal);
        actions := actions + [ReturnForegroundCommand] + [CheckpointJournal(DefinitionInstalled)];
      } else {
        AllSteps([InstallDefinition]);
        AppendBlock(plan, at, actions, [InstallDefinition], goal);
        actions := actions + [InstallDefinition] + [CheckpointJournal(DefinitionInstalled)];
      }
    }
  }

  lemma AppendInforming(actions: seq<Shown>, s: Shown)
    requires Informs(s)
    ensures Steps(actions + [s]) == Steps(actions)
  {
    StepsConcat(actions, [s]);
    StepsOne(s);
  }

  /** Activation and health, or the note that health is checked later. */
  method PreviewHealth(plan: Journal, before: seq<Shown>, ghost at: Phase, ghost goal: seq<Shown>) returns (actions: seq<Shown>)
    requires JournalOk(plan) && plan.operation == ApplyOperation
    requires at == Later(plan.phase, DefinitionInstalled)
    requires goal == Steps(before) + ViewAll(plan, From(plan, at)) && DeferHealth !in before
    ensures goal == Steps(actions)
                    + ViewAll(plan, From(plan, Later(plan.phase, if plan.manager == ForegroundManager then DefinitionInstalled else HealthVerified)))
    ensures DeferHealth in actions <==> plan.manager == ForegroundManager
    ensures ReturnForegroundCommand in actions <==> ReturnForegroundCommand in before
  {
    hide From, Work, ViewAll, Steps;
    actions := before;
    if plan.manager == ForegroundManager {
      AppendInforming(actions, DeferHealth);
      actions := actions + [DeferHealth];
      return;
    }
    ghost var now := at;
    var reached := Reached(plan.phase, Activated, plan.manager);
    if !reached {
      AllSteps([ActivateService]);
      ViewWork(plan, Activated);
      AppendBlock(plan, now, actions, [ActivateService], goal);
      actions, now := actions + [ActivateService] + [CheckpointJournal(Activated)], Activated;
    }
    reached := Reached(plan.phase, HealthVerified, plan.manager);
    if !reached {
      AllSteps([VerifyHealth]);
      ViewWork(plan, HealthVerified);
      AppendBlock(plan, now, actions, [VerifyHealth], goal);
      actions := actions + [VerifyHealth] + [CheckpointJournal(HealthVerified)];
    }
  }

  /** The record of the commit. */
  method PreviewCommitting(plan: Journal, before: seq<Shown>, ghost at: Phase, ghost goal: seq<Shown>) returns (actions: seq<Shown>)
    requires JournalOk(plan) && plan.operation == ApplyOperation
    requires at == Later(plan.phase, if plan.manager == ForegroundManager then DefinitionInstalled else HealthVerified)
    requires goal == Steps(before) + ViewAll(plan, From(plan, at))
    ensures goal == Steps(actions) + ViewAll(plan, From(plan, Later(plan.phase, Committing)))
    ensures DeferHealth in actions <==> DeferHealth in before
    ensures ReturnForegroundCommand in actions <==> ReturnForegroundCommand in before
  {
    hide From, Work, ViewAll, Steps, Lines, View;
    actions := before;
    var reached := Reached(plan.phase, Committing, plan.manager);
    if !reached {
      AllSteps([]);
      ViewCommit(plan);
      AppendBlock(plan, at, actions, [], goal);
      assert actions + [] + [CheckpointJournal(Committing)] == actions + [CheckpointJournal(Committing)];
      actions := actions + [CheckpointJournal(Committing)];
    }
  }

  /** The commit itself. */
  method PreviewCommit(plan: Journal, before: seq<Shown>, ghost goal: seq<Shown>) returns (actions: seq<Shown>)
    requires JournalOk(plan) && plan.operation == ApplyOperation
    requires goal == Steps(before) + ViewAll(plan, From(plan, Later(plan.phase, Committing)))
    ensures goal == Steps(actions) + ViewAll(plan, From(plan, StateSaved))
    ensures DeferHealth in actions <==> DeferHealth in before
    ensures ReturnForegroundCommand in actions <==> ReturnForegroundCommand in before
  {
    hide From, Work, ViewAll, Steps, Lines, View;
    actions := before;
    var reached := Reached(plan.phase, StateSaved, plan.manager);
    if !reached {
      AllSteps([CommitState]);
      ViewCommit(plan);
      AppendBlock(plan, Committing, actions, [CommitState], goal);
      actions := actions + [CommitState] + [CheckpointJournal(StateSaved)];
    }
  }

  lemma AppendEnd(plan: Journal, actions: seq<Shown>, goal: seq<Shown>)
    requires JournalOk(plan) && goal == Steps(actions) + ViewAll(plan, From(plan, StateSaved))
    ensures goal == Steps(actions + [DropJournal])
  {
    ViewEnd(plan);
    hide From, ViewAll, Steps, JournalOk;
    StepsConcat(actions, [DropJournal]);
    StepsOne(DropJournal);
  }

  lemma ViewEnd(j: Journal)
    requires JournalOk(j)
    ensures ViewAll(j, From(j, StateSaved)) == [DropJournal]
  {
    ViewOne(j, RemoveJournal);
  }

  lemma EntryIsNotShown(j: Journal)
    requires JournalOk(j)
    ensures ViewAll(j, Program(j)) == ViewAll(j, From(j, j.phase))
  {
    ViewConcat(j, Entry(j), From(j, j.phase));
    if Entry(j) != [] {
      assert Entry(j) == [Entry(j)[0]];
      ViewOne(j, Entry(j)[0]);
    }
  }

  /**
   The preview of an apply that creates its journal, or resumes one.  Apart from the two
   informational lines, the lines after the opening are exactly what the run will do, in order.
   */
  method PreviewApplyActions(plan: Journal, journal: Option<Journal>, sources: nat) returns (actions: seq<Shown>)
    requires JournalOk(plan) && plan.operation == ApplyOperation
    requires journal.None? ==> plan.phase == Planned
    requires journal.Some? ==> journal.value == plan.(sources := journal.value.sources)
    ensures Steps(actions) == Opening(journal, sources) + ViewAll(plan, Program(plan))
    ensures DeferHealth in actions <==> plan.manager == ForegroundManager
    ensures ReturnForegroundCommand in actions <==> plan.manager == ForegroundManager && Position(plan.phase) < Position(DefinitionInstalled)
  {
    EntryIsNotShown(plan);
    var opening := Opening(journal, sources);
    AllSteps(opening);
    JournalShape(plan);
    hide From, ViewAll, Steps, Program, Opening, JournalOk, Position;
    actions := PreviewTransaction(plan, opening, opening + ViewAll(plan, From(plan, plan.phase)));
  }

  method PreviewTransaction(plan: Journal, opening: seq<Shown>, ghost goal: seq<Shown>) returns (actions: seq<Shown>)
    requires JournalOk(plan) && plan.operation == ApplyOperation
    requires goal == Steps(opening) + ViewAll(plan, From(plan, plan.phase)) && forall i | 0 <= i < |opening| :: !Informs(opening[i])
    ensures Steps(actions) == goal
    ensures DeferHealth in actions <==> plan.manager == ForegroundManager
    ensures ReturnForegroundCommand in actions <==> plan.manager == ForegroundManager && Position(plan.phase) < Position(DefinitionInstalled)
  {
    JournalShape(plan);
    hide From, ViewAll, Steps, JournalOk, Later, Position, Informs;
    actions := PreviewPreparation(plan, opening, goal);
    actions := PreviewStop(plan, actions, Later(plan.phase, InstanceReady), goal);
    actions := PreviewDefinition(plan, actions, Later(plan.phase, PriorServiceStopped), goal);
    actions := PreviewHealth(plan, actions, Later(plan.phase, DefinitionInstalled), goal);
    actions := PreviewCommitting(plan, actions, Later(plan.phase, if plan.manager == ForegroundManager then DefinitionInstalled else HealthVerified), goal);
    actions := PreviewCommit(plan, actions, goal);
    AppendEnd(plan, actions, goal);
    actions := actions + [DropJournal];
  }
}
