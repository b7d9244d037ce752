/**
 The lines of a preview written out: of a first apply, and of one that is
 resumed.
 */
module PreviewLines {
  import opened Outcomes
  import opened Deployment
  import opened DeploymentProofs
  import opened DeploymentSteps
  import opened Preview

  // ----- The lines of a first apply, written out -------------------------------------------------

  lemma ViewTwo(j: Journal, a: Action, b: Action)
    ensures ViewAll(j, [a, b]) == View(j, a) + View(j, b)
  {
    ViewConcat(j, [a], [b]);
    ViewOne(j, a);
    ViewOne(j, b);
    assert [a, b] == [a] + [b];
    hide View, ViewAll;
  }

  lemma ViewFour(j: Journal, a: Action, b: Action, c: Action, d: Action)
    ensures ViewAll(j, [a, b, c, d]) == View(j, a) + View(j, b) + View(j, c) + View(j, d)
  {
    hide View, ViewAll;
    ViewConcat(j, [a, b], [c, d]);
    ViewTwo(j, a, b);
    ViewTwo(j, c, d);
    assert [a, b, c, d] == [a, b] + [c, d];
  }

  const COMMIT_LINES := [CheckpointJournal(Committing), CommitState, CheckpointJournal(StateSaved), DropJournal]
  const SWITCH_LINES := [InstallDefinition, CheckpointJournal(DefinitionInstalled), ActivateService, CheckpointJournal(Activated)]
  const HEALTH_LINES := [VerifyHealth, CheckpointJournal(HealthVerified)]
  const STAGE_LINES := [PrepareReleaseDirectory, PublishArtifact, PublishLicense, PublishNotice, CheckpointJournal(ArtifactStaged)]

  /** The line about the service that ran before. */
  function StopLines(prior: Option<State>): seq<Shown> {
    if prior.None? then []
    else
      match prior.value.status
      case ActiveStatus => [StopPriorService]
      case ForegroundStatus => [VerifyForegroundStopped]
      case UninstalledStatus => []
  }

  lemma CommitLines(j: Journal)
    requires JournalOk(j)
    ensures ViewAll(j, CommitSteps(j)) == COMMIT_LINES
  {
    ViewFour(j, Checkpoint(Committing), SaveState(Committed(j)), Checkpoint(StateSaved), RemoveJournal);
    hide ViewAll, Committed, JournalOk;
  }

  lemma SwitchLines(j: Journal, d: Release)
    ensures ViewAll(j, [Install(d), Checkpoint(DefinitionInstalled), ActivateDesired(d), Checkpoint(Activated)]) == SWITCH_LINES
    ensures ViewAll(j, [Health(d), Checkpoint(HealthVerified)]) == HEALTH_LINES
  {
    ViewFour(j, Install(d), Checkpoint(DefinitionInstalled), ActivateDesired(d), Checkpoint(Activated));
    ViewTwo(j, Health(d), Checkpoint(HealthVerified));
    hide ViewAll;
  }

  lemma ServiceLines(j: Journal)
    requires JournalOk(j) && j.operation == ApplyOperation
    ensures ViewAll(j, ServiceSteps(j)) == SWITCH_LINES + (HEALTH_LINES + COMMIT_LINES)
  {
    JournalShape(j);
    var d := j.desired.value;
    CommitLines(j);
    SwitchLines(j, d);
    hide ViewAll, JournalOk, CommitSteps, View;
    ViewConcat(j, [Health(d), Checkpoint(HealthVerified)], CommitSteps(j));
    ViewConcat(j, [Install(d), Checkpoint(DefinitionInstalled), ActivateDesired(d), Checkpoint(Activated)],
               [Health(d), Checkpoint(HealthVerified)] + CommitSteps(j));
  }

  /** What the preview of a first apply with a service manager shows, line by line. */
  lemma FirstPreviewShows(plan: Journal, sources: nat, actions: seq<Shown>)
    requires JournalOk(plan) && plan.operation == ApplyOperation && plan.phase == Planned && Native(plan.manager)
    requires Steps(actions) == Opening(None, sources) + ViewAll(plan, Program(plan))
    ensures Steps(actions) == [CreateJournal]
                              + (STAGE_LINES
                                 + ([InitializeInstance, CheckpointJournal(InstanceReady)] + StopLines(plan.prior) + [CheckpointJournal(PriorServiceStopped)]
                                    + (SWITCH_LINES + (HEALTH_LINES + COMMIT_LINES))))
  {
    JournalShape(plan);
    var d := plan.desired.value;
    var middle := [Initialize, Checkpoint(InstanceReady), StopPrior, Checkpoint(PriorServiceStopped)];
    assert Opening(None, sources) == [CreateJournal];
    hide ViewAll, View, JournalOk, Program, ServiceSteps, Steps, Opening, StopLines;
    ApplySteps(plan);
    ServiceLines(plan);
    StageLines(plan, d);
    MiddleLines(plan);
    ViewConcat(plan, middle, ServiceSteps(plan));
    ViewConcat(plan, [Stage(d), Verify(d), Checkpoint(ArtifactStaged)], middle + ServiceSteps(plan));
  }

  lemma MiddleLines(j: Journal)
    ensures ViewAll(j, [Initialize, Checkpoint(InstanceReady), StopPrior, Checkpoint(PriorServiceStopped)])
         == [InitializeInstance, CheckpointJournal(InstanceReady)] + StopLines(j.prior) + [CheckpointJournal(PriorServiceStopped)]
  {
    ViewFour(j, Initialize, Checkpoint(InstanceReady), StopPrior, Checkpoint(PriorServiceStopped));
    hide ViewAll;
    assert [InitializeInstance] + [CheckpointJournal(InstanceReady)] == [InitializeInstance, CheckpointJournal(InstanceReady)];
  }

  lemma StageLines(j: Journal, d: Release)
    ensures ViewAll(j, [Stage(d), Verify(d), Checkpoint(ArtifactStaged)]) == STAGE_LINES
  {
    ViewTwo(j, Verify(d), Checkpoint(ArtifactStaged));
    ViewOne(j, Stage(d));
    ViewConcat(j, [Stage(d)], [Verify(d), Checkpoint(ArtifactStaged)]);
    assert [Stage(d), Verify(d), Checkpoint(ArtifactStaged)] == [Stage(d)] + [Verify(d), Checkpoint(ArtifactStaged)];
    hide ViewAll;
  }

  // ----- The lines of a resumed apply ---------------------------------------------------------------

  /** Going on from a phase leads through the record of every later phase of the operation. */
  lemma {:induction false} LeadsThrough(j: Journal, q: Phase, p: Phase) returns (before: seq<Action>)
    requires JournalOk(j) && Passes(j.operation, j.manager, q) && Passes(j.operation, j.manager, p) && Position(q) < Position(p)
    ensures From(j, q) == before + ([Checkpoint(p)] + From(j, p))
    decreases 11 - Position(q)
  {
    var next := NextPhase(j.operation, j.manager, q);
    assert q != StateSaved && Position(next) <= Position(p);
    NextBlock(j, q);
    if next == p {
      before := Work(j, next);
    } else {
      DistinctPositions(next, p);
      hide From, Work, JournalOk;
      var rest := LeadsThrough(j, next, p);
      before := Work(j, next) + [Checkpoint(next)] + rest;
      assert Work(j, next) + ([Checkpoint(next)] + (rest + ([Checkpoint(p)] + From(j, p)))) == before + ([Checkpoint(p)] + From(j, p));
    }
  }

  lemma DistinctPositions(a: Phase, b: Phase)
    requires a != b
    ensures Position(a) != Position(b)
  {
  }

  lemma {:induction false} ViewIgnoresPhase(j: Journal, n: Journal, program: seq<Action>)
    requires n.prior == j.prior
    ensures ViewAll(j, program) == ViewAll(n, program)
  {
    if program != [] {
      ViewIgnoresPhase(j, n, program[1..]);
    }
  }

  /**
   The preview of an apply that has recorded a phase shows that it is resumed there, that other sources are bound if they
   still can be, and then exactly the lines of the first preview that follow the record of that phase.
   */
  lemma ResumedPreviewShowsRest(plan: Journal, journal: Journal, sources: nat, actions: seq<Shown>) returns (before: seq<Shown>)
    requires JournalOk(plan) && plan.operation == ApplyOperation && plan.phase != Planned && JournalOk(plan.(phase := Planned))
    requires journal == plan.(sources := journal.sources)
    requires Steps(actions) == Opening(Some(journal), sources) + ViewAll(plan, Program(plan))
    ensures ViewAll(plan, Program(plan.(phase := Planned))) == before + [CheckpointJournal(plan.phase)] + Steps(actions)[1..]
    ensures Steps(actions) != [] && Steps(actions)[0] == ResumeJournal(plan.phase)
  {
    var first := plan.(phase := Planned);
    JournalShape(plan);
    EntryIsNotShown(plan);
    EntryIsNotShown(first);
    FromIgnoresPhase(plan, first, Planned);
    assert Opening(Some(journal), sources) == [ResumeJournal(plan.phase)];
    var pre := LeadsThrough(plan, Planned, plan.phase);
    hide From, Program, ViewAll, View, Steps, Opening, JournalOk;
    ViewIgnoresPhase(first, plan, Program(first));
    ViewIgnoresPhase(first, plan, From(first, Planned));
    ViewThree(plan, pre, Checkpoint(plan.phase), From(plan, plan.phase));
    ShowsCheckpoint(plan, plan.phase);
    before := ViewAll(plan, pre);
    assert Steps(actions)[1..] == ViewAll(plan, Program(plan));
  }

  /** Other sources are bound exactly while only the plan is recorded. */
  lemma RebindShownIff(plan: Journal, journal: Journal, sources: nat, actions: seq<Shown>)
    requires JournalOk(plan) && Steps(actions) == Opening(Some(journal), sources) + ViewAll(plan, Program(plan))
    ensures RebindInputs in Steps(actions) <==> journal.phase == Planned && journal.sources != sources
  {
    hide Program, JournalOk, Steps;
    RunNeverRebinds(plan, Program(plan));
  }

  lemma {:induction false} RunNeverRebinds(j: Journal, program: seq<Action>)
    ensures RebindInputs !in ViewAll(j, program)
  {
    if program != [] {
      RunNeverRebinds(j, program[1..]);
    }
  }
}
