/**
 When the calls an apply makes on the service manager and the release files are
 exactly the ones its preview listed.
 */
module PreviewCalls {
  import opened Outcomes
  import opened Deployment
  import opened DeploymentProofs
  import opened DeploymentCode
  import opened Preview

  datatype Call = Publish | StopService | InstallService | Activate | Commit

  /** The call a line of a preview announces, if it announces one. */
  function CallOf(s: Shown): seq<Call> {
    match s
    case PublishArtifact => [Publish]
    case StopPriorService => [StopService]
    case InstallDefinition => [InstallService]
    case ActivateService => [Activate]
    case CommitState => [Commit]
    case _ => []
  }

  function CallsOf(shown: seq<Shown>): seq<Call> {
    if shown == [] then [] else CallsOf(shown[..|shown| - 1]) + CallOf(shown[|shown| - 1])
  }

  lemma {:induction false} CallsOfConcat(a: seq<Shown>, b: seq<Shown>)
    ensures CallsOf(a + b) == CallsOf(a) + CallsOf(b)
    decreases |b|
  {
    if b == [] {
      assert a + b == a && CallsOf(a) + [] == CallsOf(a);
    } else {
      var front, last := b[..|b| - 1], b[|b| - 1];
      assert (a + b)[..|a + b| - 1] == a + front && (a + b)[|a + b| - 1] == last;
      CallsOfConcat(a, front);
      hide CallOf;
      RegroupCalls(CallsOf(a), CallsOf(front), CallOf(last));
    }
  }

  lemma CallsOfOne(s: Shown)
    ensures CallsOf([s]) == CallOf(s)
  {
    assert [s][..0] == [];
    hide CallOf;
    assert [] + CallOf(s) == CallOf(s);
  }

  lemma {:induction false} CallsOfSteps(shown: seq<Shown>)
    ensures CallsOf(Steps(shown)) == CallsOf(shown)
  {
    if shown != [] {
      var front, last := shown[..|shown| - 1], shown[|shown| - 1];
      CallsOfSteps(front);
      if !Informs(last) {
        CallsOfConcat(Steps(front), [last]);
        CallsOfOne(last);
      } else {
        assert Steps(front) + [] == Steps(front);
      }
    }
  }

  /** The calls the lines of one action announce. */
  function Listed(j: Journal, a: Action): seq<Call> {
    CallsOf(View(j, a))
  }

  function ListedAll(j: Journal, program: seq<Action>): seq<Call> {
    if program == [] then [] else Listed(j, program[0]) + ListedAll(j, program[1..])
  }

  lemma {:induction false} ListedIsShown(j: Journal, program: seq<Action>)
    ensures ListedAll(j, program) == CallsOf(ViewAll(j, program))
  {
    if program != [] {
      ListedIsShown(j, program[1..]);
      CallsOfConcat(View(j, program[0]), ViewAll(j, program[1..]));
    }
  }

  /** The calls an action makes on the release files, the service manager and the state file. */
  function Made(h: Host, m: Journal, a: Action, answer: Answer): seq<Call> {
    match a
    case Stage(_) => [Publish]
    case StopPrior =>
      if m.prior.None? || m.prior.value.status == UninstalledStatus || m.prior.value.active.None? then []
      else if m.prior.value.status == ActiveStatus then [StopService] else []
    case Install(_) => [InstallService]
    case ActivateDesired(r) =>
      if h.running == Some(r) && answer.attested then []
      else (if h.running.Some? then [StopService] else []) + [Activate]
    case ActivateDefinition => [Activate]
    case RemoveService => [StopService]
    case SaveState(_) => [Commit]
    case Verify(_) => []
    case Initialize => []
    case Health(_) => []
    case RemoveArtifacts => []
    case RemoveStateFile => []
    case ValidateCommitted(_) => []
    case Checkpoint(_) => []
    case RemoveJournal => []
  }

  function MadeAll(h: Host, m: Journal, program: seq<Action>, answers: seq<Answer>): seq<Call>
    decreases |program|
  {
    if program == [] then []
    else
      var r := Do(h, m, program[0], First(answers));
      Made(h, m, program[0], First(answers))
      + (if r.outcome != Done then [] else MadeAll(r.host, r.memory, program[1..], Rest(answers)))
  }

  lemma {:induction false} ListedConcat(j: Journal, a: seq<Action>, b: seq<Action>)
    ensures ListedAll(j, a + b) == ListedAll(j, a) + ListedAll(j, b)
  {
    if a == [] {
      assert a + b == b;
    } else {
      assert (a + b)[1..] == a[1..] + b;
      ListedConcat(j, a[1..], b);
    }
  }

  lemma {:induction false} MadeConcat(h: Host, m: Journal, a: seq<Action>, b: seq<Action>, answers: seq<Answer>)
    requires Exec(h, m, a, answers).outcome == Done
    ensures var r := Exec(h, m, a, answers);
            MadeAll(h, m, a + b, answers) == MadeAll(h, m, a, answers) + MadeAll(r.host, r.memory, b, Skip(answers, |a|))
    decreases |a|, 0
  {
    hide Exec, MadeAll, Do, Made;
    if a == [] {
      NothingMade(h, m, answers);
      assert [] + b == b && Skip(answers, 0) == answers;
    } else {
      SplitFirst(a, b);
      SkipRest(answers, |a|);
      MadeConcatStep(h, m, a[0], a[1..], b, answers);
    }
  }

  lemma SplitFirst(a: seq<Action>, b: seq<Action>)
    requires a != []
    ensures a == [a[0]] + a[1..] && a + b == [a[0]] + (a[1..] + b)
  {
  }

  lemma SkipRest(answers: seq<Answer>, n: nat)
    requires n > 0
    ensures Skip(Rest(answers), n - 1) == Skip(answers, n)
  {
  }

  lemma {:induction false} MadeConcatStep(h: Host, m: Journal, x: Action, rest: seq<Action>, b: seq<Action>, answers: seq<Answer>)
    requires Exec(h, m, [x] + rest, answers).outcome == Done
    ensures var r := Exec(h, m, [x] + rest, answers);
            MadeAll(h, m, [x] + (rest + b), answers)
            == MadeAll(h, m, [x] + rest, answers) + MadeAll(r.host, r.memory, b, Skip(Rest(answers), |rest|))
    decreases |rest|, 1
  {
    hide Do, Made, MadeAll, Exec, Skip;
    ExecStep(h, m, x, rest, answers);
    MadeStep(h, m, x, rest, answers);
    MadeStep(h, m, x, rest + b, answers);
    var r := Do(h, m, x, First(answers));
    MadeConcat(r.host, r.memory, rest, b, Rest(answers));
    var e := Exec(r.host, r.memory, rest, Rest(answers));
    RegroupCalls(Made(h, m, x, First(answers)), MadeAll(r.host, r.memory, rest, Rest(answers)),
                 MadeAll(e.host, e.memory, b, Skip(Rest(answers), |rest|)));
  }

  lemma RegroupCalls(a: seq<Call>, b: seq<Call>, c: seq<Call>)
    ensures a + (b + c) == a + b + c
  {
  }

  lemma NothingMade(h: Host, m: Journal, answers: seq<Answer>)
    ensures MadeAll(h, m, [], answers) == [] && Exec(h, m, [], answers) == Run(h, m, Done)
  {
  }

  /** Actions of an apply other than its activation. */
  predicate WithoutActivation(program: seq<Action>) {
    forall i | 0 <= i < |program| :: !program[i].ActivateDesired? && !program[i].ActivateDefinition? && !program[i].RemoveService?
  }

  lemma ActionAsListed(h: Host, m: Journal, j: Journal, a: Action, answer: Answer)
    requires m == j.(phase := m.phase) && (j.prior.Some? ==> StateOk(j.prior.value))
    requires !a.ActivateDesired? && !a.ActivateDefinition? && !a.RemoveService?
    ensures Made(h, m, a, answer) == Listed(j, a)
  {
    ShownCalls(j, a);
  }

  lemma ShownCalls(j: Journal, a: Action)
    ensures Listed(j, a) == if a.Stage? then [Publish]
                            else if a.StopPrior? then (if j.prior.Some? && j.prior.value.status == ActiveStatus then [StopService] else [])
                            else if a.Install? then [InstallService]
                            else if a.ActivateDesired? then [Activate]
                            else if a.SaveState? then [Commit] else []
  {
    var v := View(j, a);
    if |v| == 1 {
      assert v == [v[0]];
      CallsOfOne(v[0]);
    } else if a.Stage? {
      assert v == [PrepareReleaseDirectory, PublishArtifact] + [PublishLicense, PublishNotice];
      CallsOfConcat([PrepareReleaseDirectory, PublishArtifact], [PublishLicense, PublishNotice]);
      CallsOfPair(PrepareReleaseDirectory, PublishArtifact);
      CallsOfPair(PublishLicense, PublishNotice);
    }
  }

  lemma CallsOfPair(a: Shown, b: Shown)
    ensures CallsOf([a, b]) == CallOf(a) + CallOf(b)
  {
    assert [a, b][..1] == [a];
    CallsOfOne(a);
    hide CallOf;
  }

  /** Apart from activation, every call is made exactly as listed. */
  lemma {:induction false} MadeAsListed(h: Host, m: Journal, j: Journal, program: seq<Action>, answers: seq<Answer>)
    requires WithoutActivation(program) && m == j.(phase := m.phase) && Exec(h, m, program, answers).outcome == Done
    requires j.prior.Some? ==> StateOk(j.prior.value)
    ensures MadeAll(h, m, program, answers) == ListedAll(j, program)
    ensures var n := Exec(h, m, program, answers).memory; n == j.(phase := n.phase)
    decreases |program|
  {
    hide Do, Made, Listed, StateOk;
    if program != [] {
      assert !program[0].ActivateDesired?;
      ActionAsListed(h, m, j, program[0], First(answers));
      DoMemory(h, m, program[0], First(answers));
      var r := Do(h, m, program[0], First(answers));
      MadeAsListed(r.host, r.memory, j, program[1..], Rest(answers));
    }
  }

  // ----- Up to the activation ------------------------------------------------------------------

  /** The blocks from phase `p` up to the installed definition. */
  function Ahead(j: Journal, p: Phase): seq<Action>
    requires JournalOk(j) && j.operation == ApplyOperation
    decreases 11 - Position(p)
  {
    if Position(p) >= Position(DefinitionInstalled) then []
    else
      var next := NextPhase(j.operation, j.manager, p);
      Work(j, next) + [Checkpoint(next)] + Ahead(j, next)
  }

  lemma Regroup(a: seq<Action>, b: seq<Action>, c: seq<Action>)
    ensures a + (b + c) == a + b + c
  {
  }

  lemma Cancel(x: seq<Call>, a: seq<Call>, b: seq<Call>)
    ensures x + a == x + b <==> a == b
  {
    if x + a == x + b {
      assert a == (x + a)[|x|..] && b == (x + b)[|x|..];
    }
  }

  lemma {:induction false} SplitAtDefinition(j: Journal, p: Phase)
    requires JournalOk(j) && j.operation == ApplyOperation && Passes(ApplyOperation, j.manager, p) && Position(p) <= Position(DefinitionInstalled)
    ensures From(j, p) == Ahead(j, p) + From(j, DefinitionInstalled)
    decreases 11 - Position(p)
  {
    if Position(p) < Position(DefinitionInstalled) {
      hide Work, JournalOk;
      JournalShape(j);
      var next := NextPhase(j.operation, j.manager, p);
      SplitAtDefinition(j, next);
      Regroup(Work(j, next) + [Checkpoint(next)], Ahead(j, next), From(j, DefinitionInstalled));
    } else {
      assert [] + From(j, p) == From(j, p);
    }
  }

  lemma {:induction false} AheadDoesNotActivate(j: Journal, p: Phase)
    requires JournalOk(j) && j.operation == ApplyOperation && Passes(ApplyOperation, j.manager, p)
    ensures WithoutActivation(Ahead(j, p))
    decreases 11 - Position(p)
  {
    if Position(p) < Position(DefinitionInstalled) {
      AheadDoesNotActivate(j, NextPhase(j.operation, j.manager, p));
    }
  }

  lemma {:induction false} LateDoesNotActivate(j: Journal, p: Phase)
    requires JournalOk(j) && j.operation == ApplyOperation && Passes(ApplyOperation, j.manager, p)
    requires Position(p) >= Position(Activated) || (j.manager == ForegroundManager && Position(p) >= Position(DefinitionInstalled))
    ensures WithoutActivation(From(j, p))
    decreases 11 - Position(p)
  {
    if p != StateSaved {
      LateDoesNotActivate(j, NextPhase(j.operation, j.manager, p));
    }
  }

  /** Whether stopping the prior service is still to come. */
  predicate StopsPrior(j: Journal, p: Phase) {
    Position(p) < Position(PriorServiceStopped) && j.prior.Some? && j.prior.value.status == ActiveStatus
  }

  lemma BlockRunning(h: Host, m: Journal, j: Journal, next: Phase, answers: seq<Answer>)
    requires JournalOk(j) && j.operation == ApplyOperation && m == j.(phase := m.phase)
    requires next in {ArtifactStaged, InstanceReady, PriorServiceStopped, DefinitionInstalled}
    requires Exec(h, m, Work(j, next) + [Checkpoint(next)], answers).outcome == Done
    ensures var r := Exec(h, m, Work(j, next) + [Checkpoint(next)], answers);
            && r.memory == j.(phase := next)
            && r.host.running == if next == PriorServiceStopped && j.prior.Some? && j.prior.value.status == ActiveStatus then None else h.running
  {
    var work := Work(j, next);
    ExecConcat(h, m, work, [Checkpoint(next)], answers);
    var w := Exec(h, m, work, answers);
    ExecOne(w.host, w.memory, Checkpoint(next), Skip(answers, |work|));
    if next == ArtifactStaged {
      ExecTwo(h, m, Stage(j.desired.value), Verify(j.desired.value), answers);
    } else if work != [] {
      ExecOne(h, m, work[0], answers);
      assert work == [work[0]];
    }
  }

  /** The service as the activation finds it. */
  lemma {:induction false} RunningAtActivation(h: Host, m: Journal, j: Journal, p: Phase, answers: seq<Answer>)
    requires JournalOk(j) && j.operation == ApplyOperation && m == j.(phase := m.phase) && Passes(ApplyOperation, j.manager, p)
    requires Position(p) <= Position(DefinitionInstalled) && Exec(h, m, Ahead(j, p), answers).outcome == Done
    ensures var r := Exec(h, m, Ahead(j, p), answers);
            r.host.running == (if StopsPrior(j, p) then None else h.running)
    decreases 11 - Position(p)
  {
    if Position(p) < Position(DefinitionInstalled) {
      hide Exec, Work, JournalOk, Do;
      var next := NextPhase(j.operation, j.manager, p);
      var block := Work(j, next) + [Checkpoint(next)];
      ExecConcat(h, m, block, Ahead(j, next), answers);
      BlockRunning(h, m, j, next, answers);
      var r := Exec(h, m, block, answers);
      RunningAtActivation(r.host, r.memory, j, next, Skip(answers, |block|));
    }
  }

  /** Activation is still to come for this journal. */
  predicate ActivationPending(j: Journal) {
    Native(j.manager) && Position(j.phase) <= Position(DefinitionInstalled)
  }

  lemma FromCallsIff(h: Host, j: Journal, answers: seq<Answer>)
    requires JournalOk(j) && j.operation == ApplyOperation && ActivationPending(j) && Exec(h, j, From(j, j.phase), answers).outcome == Done
    ensures MadeAll(h, j, From(j, j.phase), answers) == ListedAll(j, From(j, j.phase)) <==> h.running.None? || StopsPrior(j, j.phase)
  {
    JournalShape(j);
    PriorIsOk(j);
    ActivationAfterDefinition(j);
    SplitAtDefinition(j, j.phase);
    AheadDoesNotActivate(j, j.phase);
    hide Do, From, Ahead, Work, JournalOk, MadeAll, ListedAll, WithoutActivation, Exec, StopsPrior;
    var d, a := j.desired.value, Ahead(j, j.phase);
    var b := [Checkpoint(Activated)] + From(j, Activated);
    var rest := [ActivateDesired(d)] + b;
    ExecConcat(h, j, a, rest, answers);
    ListedConcat(j, a, rest);
    MadeConcat(h, j, a, rest, answers);
    MadeAsListed(h, j, j, a, answers);
    RunningAtActivation(h, j, j, j.phase, answers);
    var g := Exec(h, j, a, answers);
    var left := Skip(answers, |a|);
    ActivationCalls(g.host, g.memory, j, d, b, left);
    var made, listed := MadeAll(g.host, g.memory, rest, left), ListedAll(j, rest);
    Cancel(ListedAll(j, a), made, listed);
  }

  lemma ActivationAfterDefinition(j: Journal)
    requires JournalOk(j) && j.operation == ApplyOperation && Native(j.manager)
    ensures From(j, DefinitionInstalled) == [ActivateDesired(j.desired.value)] + ([Checkpoint(Activated)] + From(j, Activated))
    ensures WithoutActivation([Checkpoint(Activated)] + From(j, Activated))
  {
    NextBlock(j, DefinitionInstalled);
    LateDoesNotActivate(j, Activated);
    hide From;
  }

  lemma ActivationCalls(h: Host, m: Journal, j: Journal, d: Release, b: seq<Action>, answers: seq<Answer>)
    requires m == j.(phase := m.phase) && WithoutActivation(b) && Exec(h, m, [ActivateDesired(d)] + b, answers).outcome == Done
    requires j.prior.Some? ==> StateOk(j.prior.value)
    ensures var made := MadeAll(h, m, [ActivateDesired(d)] + b, answers);
            var listed := ListedAll(j, [ActivateDesired(d)] + b);
            (h.running.None? ==> made == listed) && (h.running.Some? ==> |made| != |listed|)
  {
    var a := ActivateDesired(d);
    ExecStep(h, m, a, b, answers);
    MadeStep(h, m, a, b, answers);
    ListedStep(j, a, b);
    ShownCalls(j, a);
    DoMemory(h, m, a, First(answers));
    var r := Do(h, m, a, First(answers));
    hide Do, Exec, MadeAll, ListedAll, WithoutActivation, Listed, StateOk;
    MadeAsListed(r.host, r.memory, j, b, Rest(answers));
  }

  lemma MadeStep(h: Host, m: Journal, a: Action, b: seq<Action>, answers: seq<Answer>)
    ensures var r := Do(h, m, a, First(answers));
            MadeAll(h, m, [a] + b, answers)
            == Made(h, m, a, First(answers)) + (if r.outcome != Done then [] else MadeAll(r.host, r.memory, b, Rest(answers)))
  {
    assert ([a] + b)[1..] == b;
    hide Do, Made;
  }

  lemma ListedStep(j: Journal, a: Action, b: seq<Action>)
    ensures ListedAll(j, [a] + b) == Listed(j, a) + ListedAll(j, b)
  {
    assert ([a] + b)[1..] == b;
    hide Listed;
  }

  lemma PriorIsOk(j: Journal)
    requires JournalOk(j)
    ensures j.prior.Some? ==> StateOk(j.prior.value)
  {
  }

  /** Activation was no longer pending, or finds nothing running when it comes. */
  predicate CallsPredictable(h: Host, j: Journal) {
    !ActivationPending(j) || h.running.None? || StopsPrior(j, j.phase)
  }

  lemma ProgramCallsIff(h: Host, j: Journal, answers: seq<Answer>)
    requires DiskInv(h) && h.journal == Some(j) && j.operation == ApplyOperation && JournalOk(j)
    requires Exec(h, j, Program(j), answers).outcome == Done
    ensures MadeAll(h, j, Program(j), answers) == ListedAll(j, Program(j)) <==> CallsPredictable(h, j)
  {
    PriorIsOk(j);
    EntryIsPlain(j);
    hide Do, From, DiskInv, StateOk, Listed, Made, JournalOk, Entry;
    JournalShape(j);
    ExecConcat(h, j, Entry(j), From(j, j.phase), answers);
    EntrySound(h, j, answers);
    ListedConcat(j, Entry(j), From(j, j.phase));
    MadeConcat(h, j, Entry(j), From(j, j.phase), answers);
    MadeAsListed(h, j, j, Entry(j), answers);
    var left := Skip(answers, |Entry(j)|);
    if ActivationPending(j) {
      FromCallsIff(h, j, left);
      Cancel(ListedAll(j, Entry(j)), MadeAll(h, j, From(j, j.phase), left), ListedAll(j, From(j, j.phase)));
    } else {
      QuietFrom(j);
      MadeAsListed(h, j, j, From(j, j.phase), left);
    }
  }

  lemma EntryIsPlain(j: Journal)
    requires JournalOk(j)
    ensures WithoutActivation(Entry(j))
  {
  }

  /** The lines of a preview that shows a run announce exactly the calls listed for the run. */
  lemma ShownRunCalls(plan: Journal, journal: Option<Journal>, sources: nat, actions: seq<Shown>)
    requires JournalOk(plan) && Steps(actions) == Opening(journal, sources) + ViewAll(plan, Program(plan))
    ensures CallsOf(actions) == ListedAll(plan, Program(plan))
  {
    CallsOfSteps(actions);
    OpeningCalls(journal, sources);
    hide Program, JournalOk, ViewAll, Steps, CallsOf, ListedAll;
    CallsOfConcat(Opening(journal, sources), ViewAll(plan, Program(plan)));
    ListedIsShown(plan, Program(plan));
    assert [] + ListedAll(plan, Program(plan)) == ListedAll(plan, Program(plan));
  }

  lemma OpeningCalls(journal: Option<Journal>, sources: nat)
    ensures CallsOf(Opening(journal, sources)) == []
  {
    var o := Opening(journal, sources);
    if |o| == 1 {
      assert o == [o[0]];
      CallsOfOne(o[0]);
    } else {
      CallsOfPair(o[0], o[1]);
      assert o == [o[0], o[1]];
    }
  }

  /**
   The calls of a completed apply are, in order, exactly those the lines of its preview announce if
   and only if activation was no longer pending, or found nothing running.  A service found running
   is either left alone, so that no activation is made, or stopped first.
   */
  lemma PreviewedCallsIff(h: Host, j: Journal, answers: seq<Answer>, journal: Option<Journal>, sources: nat, actions: seq<Shown>)
    requires DiskInv(h) && h.journal == Some(j) && j.operation == ApplyOperation && JournalOk(j)
    requires Steps(actions) == Opening(journal, sources) + ViewAll(j, Program(j))
    requires Exec(h, j, Program(j), answers).outcome == Done
    ensures MadeAll(h, j, Program(j), answers) == CallsOf(actions) <==> CallsPredictable(h, j)
  {
    hide DiskInv, JournalOk, Program, Exec, MadeAll, CallsOf, Steps, ViewAll, ListedAll;
    ShownRunCalls(j, journal, sources, actions);
    ProgramCallsIff(h, j, answers);
  }

  /** The preview of an apply, with what its lines are worth on every host and against every environment. */
  method PreviewWithCalls(plan: Journal, journal: Option<Journal>, sources: nat) returns (actions: seq<Shown>)
    requires JournalOk(plan) && plan.operation == ApplyOperation
    requires journal.None? ==> plan.phase == Planned
    requires journal.Some? ==> journal.value == plan.(sources := journal.value.sources)
    ensures Steps(actions) == Opening(journal, sources) + ViewAll(plan, Program(plan))
    ensures forall h: Host, answers: seq<Answer> ::
              DiskInv(h) && h.journal == Some(plan) && Exec(h, plan, Program(plan), answers).outcome == Done ==>
                (MadeAll(h, plan, Program(plan), answers) == CallsOf(actions) <==> CallsPredictable(h, plan))
  {
    hide DiskInv, JournalOk, Program, Exec, MadeAll, CallsOf, Steps, ViewAll, CallsPredictable;
    actions := PreviewApplyActions(plan, journal, sources);
    forall h: Host, answers: seq<Answer> | DiskInv(h) && h.journal == Some(plan) && Exec(h, plan, Program(plan), answers).outcome == Done
      ensures MadeAll(h, plan, Program(plan), answers) == CallsOf(actions) <==> CallsPredictable(h, plan)
    {
      PreviewedCallsIff(h, plan, answers, journal, sources, actions);
    }
  }

  lemma QuietFrom(j: Journal)
    requires JournalOk(j) && j.operation == ApplyOperation && !ActivationPending(j)
    ensures WithoutActivation(From(j, j.phase))
  {
    if Position(j.phase) <= Position(DefinitionInstalled) {
      SplitAtDefinition(j, j.phase);
      AheadDoesNotActivate(j, j.phase);
      LateDoesNotActivate(j, DefinitionInstalled);
    } else {
      LateDoesNotActivate(j, j.phase);
    }
  }
}
