/**
 The lifecycle as it is coded: phase-guarded steps over a mutable host, proved to
 run exactly the programs whose properties are proved elsewhere.
 */
module DeploymentCode {
  import opened Outcomes
  import opened Deployment
  import opened DeploymentProofs

  // ----- Phase comparison ------------------------------------------------------------------

  predicate Ascending(order: seq<Phase>) {
    forall i | 0 < i < |order| :: Position(order[i - 1]) < Position(order[i])
  }

  lemma {:induction false} AscendingApart(order: seq<Phase>, i: nat, k: nat)
    requires Ascending(order) && i < k < |order|
    ensures Position(order[i]) < Position(order[k])
    decreases k - i
  {
    if i < k - 1 {
      AscendingApart(order, i, k - 1);
    }
  }

  /** Whether `target` is listed at or before `current`. */
  method PhaseReached(order: seq<Phase>, current: Phase, target: Phase) returns (reached: bool)
    requires Ascending(order)
    ensures reached <==> current in order && target in order && Position(target) <= Position(current)
  {
    hide Position, Ascending;
    var currentRank, targetRank := -1, -1;
    for index := 0 to |order|
      invariant -1 <= currentRank < index && -1 <= targetRank < index
      invariant currentRank >= 0 ==> order[currentRank] == current
      invariant targetRank >= 0 ==> order[targetRank] == target
      invariant currentRank < 0 ==> current !in order[..index]
      invariant targetRank < 0 ==> target !in order[..index]
    {
      if current == order[index] {
        currentRank := index;
      }
      if target == order[index] {
        targetRank := index;
      }
    }
    assert order[..|order|] == order;
    reached := currentRank >= targetRank && targetRank >= 0;
    if currentRank >= 0 && targetRank >= 0 {
      RanksAsPositions(order, currentRank, targetRank);
    }
  }

  lemma RanksAsPositions(order: seq<Phase>, i: nat, k: nat)
    requires Ascending(order) && i < |order| && k < |order|
    ensures i >= k <==> Position(order[i]) >= Position(order[k])
  {
    if i < k {
      AscendingApart(order, i, k);
    } else if k < i {
      AscendingApart(order, k, i);
    }
  }

  lemma OrdersAscend()
    ensures Ascending(APPLY_ORDER) && Ascending(ROLLBACK_ORDER) && Ascending(UNINSTALL_ORDER)
  {
  }

  function OrderOf(operation: Operation): seq<Phase> {
    match operation
    case ApplyOperation => APPLY_ORDER
    case RollbackOperation => ROLLBACK_ORDER
    case UninstallOperation => UNINSTALL_ORDER
  }

  lemma PassedIsListed(operation: Operation, m: Manager, p: Phase)
    requires Passes(operation, m, p)
    ensures p in OrderOf(operation)
  {
    var order := OrderOf(operation);
    if operation == UninstallOperation {
      assert order[0] == Planned && order[1] == PriorServiceStopped && order[2] == DefinitionRemoved && order[3] == RemovingArtifacts
             && order[4] == ArtifactsRemoved && order[5] == Committing && order[6] == StateSaved;
    } else if operation == RollbackOperation {
      assert order[0] == Planned && order[1] == PriorServiceStopped && order[2] == DefinitionInstalled && order[3] == Activated
             && order[4] == HealthVerified && order[5] == Committing && order[6] == StateSaved;
    } else {
      assert order[0] == Planned && order[1] == ArtifactStaged && order[2] == InstanceReady && order[3] == PriorServiceStopped
             && order[4] == DefinitionInstalled && order[5] == Activated && order[6] == HealthVerified && order[7] == Committing && order[8] == StateSaved;
    }
  }

  lemma DoMemory(h: Host, m: Journal, a: Action, answer: Answer)
    ensures Do(h, m, a, answer).memory == if a.Checkpoint? then m.(phase := a.phase) else m
  {
  }

  /** The blocks of one action, and the blocks that only record a phase. */
  lemma WorkBlock(j: Journal, p: Phase, a: Action)
    requires JournalOk(j) && p != StateSaved && Work(j, NextPhase(j.operation, j.manager, p)) == [a]
    ensures var next := NextPhase(j.operation, j.manager, p); From(j, p) == [a] + ([Checkpoint(next)] + From(j, next))
  {
    NextBlock(j, p);
    hide From, Work;
  }

  lemma RecordBlock(j: Journal, p: Phase)
    requires JournalOk(j) && p != StateSaved && Work(j, NextPhase(j.operation, j.manager, p)) == []
    ensures var next := NextPhase(j.operation, j.manager, p); From(j, p) == [Checkpoint(next)] + From(j, next)
  {
    NextBlock(j, p);
    hide From, Work;
    var tail := [Checkpoint(NextPhase(j.operation, j.manager, p))] + From(j, NextPhase(j.operation, j.manager, p));
    assert [] + tail == tail;
  }

  lemma FreshApply(j: Journal)
    requires JournalOk(j) && j.operation == ApplyOperation && j.phase == Planned
    ensures var desired := j.desired.value;
            Program(j) == [Stage(desired)] + ([Verify(desired)] + ([Checkpoint(ArtifactStaged)] + From(j, ArtifactStaged)))
  {
    NextBlock(j, Planned);
    hide From;
  }

  class Lifecycle {
    var state: Option<State>
    var journal: Option<Journal>
    var staged: set<Release>
    var ready: bool
    var definition: Option<Release>
    var running: Option<Release>
    // What the environment will answer, one answer per action.
    var answers: seq<Answer>

    ghost function Disk(): Host
      reads this
    {
      Host(state, journal, staged, ready, definition, running)
    }

    constructor (answers: seq<Answer>)
      ensures Disk() == FRESH && this.answers == answers
    {
      state, journal, staged, ready, definition, running := None, None, {}, false, None, None;
      this.answers := answers;
    }

    /** One action and the environment's answer to it; `tail` is what is left of the program. */
    method Perform(m: Journal, a: Action, ghost tail: seq<Action>) returns (n: Journal, outcome: Outcome)
      modifies this
      ensures n == if a.Checkpoint? then m.(phase := a.phase) else m
      ensures old(Exec(Disk(), m, [a] + tail, answers)) == if outcome == Done then Exec(Disk(), n, tail, answers) else Run(Disk(), n, outcome)
    {
      ExecStep(Disk(), m, a, tail, answers);
      DoMemory(Disk(), m, a, First(answers));
      var r := Do(Host(state, journal, staged, ready, definition, running), m, a, First(answers));
      state, journal, staged, ready, definition, running
        := r.host.state, r.host.journal, r.host.staged, r.host.ready, r.host.definition, r.host.running;
      answers := Rest(answers);
      n, outcome := r.memory, r.outcome;
    }

    method Reached(m: Journal, target: Phase) returns (reached: bool)
      requires Passes(m.operation, m.manager, m.phase) && target in OrderOf(m.operation)
      ensures reached <==> Position(target) <= Position(m.phase)
    {
      OrdersAscend();
      PassedIsListed(m.operation, m.manager, m.phase);
      reached := PhaseReached(OrderOf(m.operation), m.phase, target);
    }

    /** Record a phase: in memory first, then on disk. */
    method RecordPhase(j: Journal, m: Journal, p: Phase) returns (n: Journal, outcome: Outcome)
      requires JournalOk(j) && m == j.(phase := m.phase)
      modifies this
      ensures n == j.(phase := p)
      ensures old(Exec(Disk(), m, [Checkpoint(p)] + From(j, p), answers))
           == if outcome == Done then Exec(Disk(), n, From(j, p), answers) else Run(Disk(), n, outcome)
    {
      n, outcome := Perform(m, Checkpoint(p), From(j, p));
    }

    /** Do one action of a phase's work, then record the phase. */
    method WorkAndRecord(j: Journal, m: Journal, a: Action, p: Phase) returns (n: Journal, outcome: Outcome)
      requires JournalOk(j) && m == j.(phase := m.phase) && !a.Checkpoint?
      modifies this
      ensures n == j.(phase := n.phase) && (outcome == Done ==> n.phase == p)
      ensures old(Exec(Disk(), m, [a] + ([Checkpoint(p)] + From(j, p)), answers))
           == if outcome == Done then Exec(Disk(), n, From(j, p), answers) else Run(Disk(), n, outcome)
    {
      n, outcome := Perform(m, a, [Checkpoint(p)] + From(j, p));
      if outcome != Done {
        return;
      }
      n, outcome := RecordPhase(j, n, p);
    }

    /** Save the committed state, record it, and drop the journal. */
    method Commit(j: Journal, m: Journal) returns (n: Journal, outcome: Outcome)
      requires JournalOk(j) && m == j.(phase := Committing)
      modifies this
      ensures old(Exec(Disk(), m, From(j, Committing), answers)) == Run(Disk(), n, outcome)
    {
      hide Exec, From, Committed;
      WorkBlock(j, Committing, SaveState(Committed(j)));
      n, outcome := WorkAndRecord(j, m, SaveState(Committed(j)), StateSaved);
      if outcome != Done {
        return;
      }
      n, outcome := Finish(j, n);
    }

    method Finish(j: Journal, m: Journal) returns (n: Journal, outcome: Outcome)
      requires JournalOk(j)
      modifies this
      ensures old(Exec(Disk(), m, From(j, StateSaved), answers)) == Run(Disk(), n, outcome)
    {
      assert From(j, StateSaved) == [RemoveJournal] + [];
      n, outcome := Perform(m, RemoveJournal, []);
    }

    /** A transaction whose state is already saved is only checked and closed. */
    method Close(j: Journal) returns (n: Journal, outcome: Outcome)
      requires JournalOk(j) && j.phase == StateSaved
      modifies this
      ensures old(Exec(Disk(), j, Program(j), answers)) == Run(Disk(), n, outcome)
    {
      n, outcome := Perform(j, ValidateCommitted(Committed(j)), From(j, StateSaved));
      if outcome != Done {
        return;
      }
      n, outcome := Finish(j, n);
    }

    method RunApply(j: Journal) returns (m: Journal, outcome: Outcome)
      requires JournalOk(j) && j.operation == ApplyOperation
      modifies this
      ensures old(Exec(Disk(), j, Program(j), answers)) == Run(Disk(), m, outcome)
    {
      hide Exec, From, Program, JournalOk;
      if j.phase == StateSaved {
        m, outcome := Close(j);
        return;
      }
      m, outcome := StageAndInitialize(j);
      if outcome != Done {
        return;
      }
      m, outcome := SwitchService(j, m);
      if outcome != Done {
        return;
      }
      m, outcome := Commit(j, m);
    }

    /** Publish the release, or prove it when it is already published; then bring up the instance. */
    method StageAndInitialize(j: Journal) returns (m: Journal, outcome: Outcome)
      requires JournalOk(j) && j.operation == ApplyOperation && j.phase != StateSaved
      modifies this
      ensures m == j.(phase := m.phase)
      ensures outcome == Done ==> Passes(j.operation, j.manager, m.phase) && m.phase != StateSaved && Position(m.phase) >= Position(InstanceReady)
      ensures old(Exec(Disk(), j, Program(j), answers))
           == if outcome == Done then Exec(Disk(), m, From(j, m.phase), answers) else Run(Disk(), m, outcome)
    {
      hide Exec, From;
      m, outcome := StageOrVerify(j);
      if outcome != Done {
        return;
      }
      var reached := Reached(m, InstanceReady);
      if !reached {
        WorkBlock(j, ArtifactStaged, Initialize);
        m, outcome := WorkAndRecord(j, m, Initialize, InstanceReady);
      }
    }

    method StageOrVerify(j: Journal) returns (m: Journal, outcome: Outcome)
      requires JournalOk(j) && j.operation == ApplyOperation && j.phase != StateSaved
      modifies this
      ensures m == j.(phase := m.phase)
      ensures outcome == Done ==> Passes(j.operation, j.manager, m.phase) && m.phase != StateSaved && Position(m.phase) >= Position(ArtifactStaged)
      ensures old(Exec(Disk(), j, Program(j), answers))
           == if outcome == Done then Exec(Disk(), m, From(j, m.phase), answers) else Run(Disk(), m, outcome)
    {
      hide Exec, From;
      var desired := j.desired.value;
      var reached := Reached(j, ArtifactStaged);
      if !reached {
        ghost var tail := [Verify(desired)] + ([Checkpoint(ArtifactStaged)] + From(j, ArtifactStaged));
        FreshApply(j);
        m, outcome := Perform(j, Stage(desired), tail);
        if outcome != Done {
          return;
        }
        m, outcome := WorkAndRecord(j, m, Verify(desired), ArtifactStaged);
      } else {
        assert Program(j) == [Verify(desired)] + From(j, j.phase);
        m, outcome := Perform(j, Verify(desired), From(j, j.phase));
      }
    }

    /** Stop the prior service, install the definition, and for a native service activate and check it. */
    method SwitchService(j: Journal, before: Journal) returns (m: Journal, outcome: Outcome)
      requires JournalOk(j) && j.operation != UninstallOperation && before == j.(phase := before.phase) && Passes(j.operation, j.manager, before.phase)
      requires before.phase != StateSaved && (j.operation == ApplyOperation ==> Position(before.phase) >= Position(InstanceReady))
      modifies this
      ensures m == j.(phase := m.phase) && (outcome == Done ==> m.phase == Committing)
      ensures old(Exec(Disk(), before, From(j, before.phase), answers))
           == if outcome == Done then Exec(Disk(), m, From(j, m.phase), answers) else Run(Disk(), m, outcome)
    {
      hide Exec, JournalOk, From, Position;
      m, outcome := StopAndInstall(j, before);
      if outcome == Done {
        m, outcome := ActivateAndCheck(j, m);
      }
    }

    method StopAndInstall(j: Journal, before: Journal) returns (m: Journal, outcome: Outcome)
      requires JournalOk(j) && j.operation != UninstallOperation && before == j.(phase := before.phase) && Passes(j.operation, j.manager, before.phase)
      requires before.phase != StateSaved && (j.operation == ApplyOperation ==> Position(before.phase) >= Position(InstanceReady))
      modifies this
      ensures m == j.(phase := m.phase)
      ensures outcome == Done ==> Passes(j.operation, j.manager, m.phase) && m.phase != StateSaved && Position(m.phase) >= Position(DefinitionInstalled)
      ensures old(Exec(Disk(), before, From(j, before.phase), answers))
           == if outcome == Done then Exec(Disk(), m, From(j, m.phase), answers) else Run(Disk(), m, outcome)
    {
      hide Exec, From, StateOk, Committed;
      m, outcome := before, Done;
      var reached := Reached(m, PriorServiceStopped);
      if !reached {
        WorkBlock(j, m.phase, StopPrior);
        m, outcome := WorkAndRecord(j, m, StopPrior, PriorServiceStopped);
        if outcome != Done {
          return;
        }
      }
      reached := Reached(m, DefinitionInstalled);
      if !reached {
        if j.manager != ForegroundManager {
          WorkBlock(j, PriorServiceStopped, Install(j.desired.value));
          m, outcome := WorkAndRecord(j, m, Install(j.desired.value), DefinitionInstalled);
        } else {
          RecordBlock(j, PriorServiceStopped);
          m, outcome := RecordPhase(j, m, DefinitionInstalled);
        }
      }
    }

    method ActivateAndCheck(j: Journal, before: Journal) returns (m: Journal, outcome: Outcome)
      requires JournalOk(j) && j.operation != UninstallOperation && before == j.(phase := before.phase) && Passes(j.operation, j.manager, before.phase)
      requires before.phase != StateSaved && Position(before.phase) >= Position(DefinitionInstalled)
      modifies this
      ensures m == j.(phase := m.phase) && (outcome == Done ==> m.phase == Committing)
      ensures old(Exec(Disk(), before, From(j, before.phase), answers))
           == if outcome == Done then Exec(Disk(), m, From(j, m.phase), answers) else Run(Disk(), m, outcome)
    {
      hide Exec, From, StateOk, Committed;
      m, outcome := before, Done;
      var reached: bool;
      if j.manager != ForegroundManager {
        reached := Reached(m, Activated);
        if !reached {
          WorkBlock(j, DefinitionInstalled, ActivateDesired(j.desired.value));
          m, outcome := WorkAndRecord(j, m, ActivateDesired(j.desired.value), Activated);
          if outcome != Done {
            return;
          }
        }
        reached := Reached(m, HealthVerified);
        if !reached {
          WorkBlock(j, Activated, Health(j.desired.value));
          m, outcome := WorkAndRecord(j, m, Health(j.desired.value), HealthVerified);
          if outcome != Done {
            return;
          }
        }
      }
      reached := Reached(m, Committing);
      if !reached {
        RecordBlock(j, m.phase);
        m, outcome := RecordPhase(j, m, Committing);
      }
    }

    method RunRollback(j: Journal) returns (m: Journal, outcome: Outcome)
      requires JournalOk(j) && j.operation == RollbackOperation
      modifies this
      ensures old(Exec(Disk(), j, Program(j), answers)) == Run(Disk(), m, outcome)
    {
      hide Exec;
      if j.phase == StateSaved {
        m, outcome := Close(j);
        return;
      }
      assert Program(j) == [Verify(j.desired.value)] + From(j, j.phase);
      m, outcome := Perform(j, Verify(j.desired.value), From(j, j.phase));
      if outcome != Done {
        return;
      }
      m, outcome := SwitchService(j, m);
      if outcome != Done {
        return;
      }
      m, outcome := Commit(j, m);
    }

    method RunUninstall(j: Journal) returns (m: Journal, outcome: Outcome)
      requires JournalOk(j) && j.operation == UninstallOperation
      modifies this
      ensures old(Exec(Disk(), j, Program(j), answers)) == Run(Disk(), m, outcome)
    {
      hide Exec;
      if j.phase == StateSaved {
        m, outcome := Close(j);
        return;
      }
      assert Program(j) == From(j, j.phase);
      m, outcome := TakeDown(j);
      if outcome != Done {
        return;
      }
      m, outcome := RemoveFiles(j, m);
      if outcome != Done {
        return;
      }
      m, outcome := Commit(j, m);
    }

    /** Stop the service and remove its definition. */
    method TakeDown(j: Journal) returns (m: Journal, outcome: Outcome)
      requires JournalOk(j) && j.operation == UninstallOperation && j.phase != StateSaved
      modifies this
      ensures m == j.(phase := m.phase)
      ensures outcome == Done ==> Passes(j.operation, j.manager, m.phase) && m.phase != StateSaved && Position(m.phase) >= Position(DefinitionRemoved)
      ensures old(Exec(Disk(), j, From(j, j.phase), answers))
           == if outcome == Done then Exec(Disk(), m, From(j, m.phase), answers) else Run(Disk(), m, outcome)
    {
      hide Exec, From, StateOk, Committed;
      m, outcome := j, Done;
      var reached := Reached(m, PriorServiceStopped);
      if !reached {
        WorkBlock(j, Planned, StopPrior);
        m, outcome := WorkAndRecord(j, m, StopPrior, PriorServiceStopped);
        if outcome != Done {
          return;
        }
      }
      reached := Reached(m, DefinitionRemoved);
      if !reached {
        if j.manager != ForegroundManager && j.manager != NoManager {
          WorkBlock(j, PriorServiceStopped, RemoveService);
          m, outcome := WorkAndRecord(j, m, RemoveService, DefinitionRemoved);
        } else {
          RecordBlock(j, PriorServiceStopped);
          m, outcome := RecordPhase(j, m, DefinitionRemoved);
        }
      }
    }

    /** Record the point of no return, remove the artifacts, and record the commit. */
    method RemoveFiles(j: Journal, before: Journal) returns (m: Journal, outcome: Outcome)
      requires JournalOk(j) && j.operation == UninstallOperation && before == j.(phase := before.phase) && Passes(j.operation, j.manager, before.phase)
      requires before.phase != StateSaved && Position(before.phase) >= Position(DefinitionRemoved)
      modifies this
      ensures m == j.(phase := m.phase) && (outcome == Done ==> m.phase == Committing)
      ensures old(Exec(Disk(), before, From(j, before.phase), answers))
           == if outcome == Done then Exec(Disk(), m, From(j, m.phase), answers) else Run(Disk(), m, outcome)
    {
      hide Exec, From, StateOk, Committed;
      m, outcome := before, Done;
      var reached := Reached(m, RemovingArtifacts);
      if !reached {
        RecordBlock(j, DefinitionRemoved);
        m, outcome := RecordPhase(j, m, RemovingArtifacts);
        if outcome != Done {
          return;
        }
      }
      reached := Reached(m, ArtifactsRemoved);
      if !reached {
        WorkBlock(j, RemovingArtifacts, RemoveArtifacts);
        m, outcome := WorkAndRecord(j, m, RemoveArtifacts, ArtifactsRemoved);
        if outcome != Done {
          return;
        }
      }
      reached := Reached(m, Committing);
      if !reached {
        RecordBlock(j, ArtifactsRemoved);
        m, outcome := RecordPhase(j, m, Committing);
      }
    }

    // ----- Compensation -----------------------------------------------------------------------

    /** Bring the prior service back, if the prior state had one. */
    method RevivePriorService(m: Journal, ghost tail: seq<Action>) returns (outcome: Outcome)
      modifies this
      ensures old(Exec(Disk(), m, RevivePrior(m) + tail, answers))
           == if outcome == Done then Exec(Disk(), m, tail, answers) else Run(Disk(), m, outcome)
    {
      hide Exec;
      outcome := Done;
      var n := m;
      if m.prior.Some? && m.prior.value.status == ActiveStatus && m.prior.value.active.Some? {
        var r := m.prior.value.active.value;
        assert RevivePrior(m) + tail == [Verify(r)] + ([Install(r)] + ([ActivateDefinition] + ([Health(r)] + tail)));
        n, outcome := Perform(n, Verify(r), [Install(r)] + ([ActivateDefinition] + ([Health(r)] + tail)));
        if outcome != Done {
          return;
        }
        n, outcome := Perform(n, Install(r), [ActivateDefinition] + ([Health(r)] + tail));
        if outcome != Done {
          return;
        }
        n, outcome := Perform(n, ActivateDefinition, [Health(r)] + tail);
        if outcome != Done {
          return;
        }
        n, outcome := Perform(n, Health(r), tail);
      } else {
        assert RevivePrior(m) + tail == tail;
      }
    }

    /** Take the failed service away, unless there is none. */
    method RemoveFailedService(m: Journal, ghost tail: seq<Action>) returns (outcome: Outcome)
      modifies this
      ensures old(Exec(Disk(), m, (if m.manager != ForegroundManager then [RemoveService] else []) + tail, answers))
           == if outcome == Done then Exec(Disk(), m, tail, answers) else Run(Disk(), m, outcome)
    {
      hide Exec;
      outcome := Done;
      if m.manager != ForegroundManager {
        var n: Journal;
        n, outcome := Perform(m, RemoveService, tail);
      } else {
        assert [] + tail == tail;
      }
    }

    /** Save the prior state again and drop the journal. */
    method ReinstatePrior(m: Journal, prior: State) returns (outcome: Outcome)
      modifies this
      ensures old(Exec(Disk(), m, [SaveState(prior)] + [RemoveJournal], answers)) == Run(Disk(), m, outcome)
    {
      var n: Journal;
      n, outcome := Perform(m, SaveState(prior), [RemoveJournal]);
      if outcome != Done {
        return;
      }
      outcome := DropJournal(m);
    }

    method DropJournal(m: Journal) returns (outcome: Outcome)
      modifies this
      ensures old(Exec(Disk(), m, [RemoveJournal], answers)) == Run(Disk(), m, outcome)
    {
      assert [RemoveJournal] == [RemoveJournal] + [];
      var n: Journal;
      n, outcome := Perform(m, RemoveJournal, []);
    }

    method RestoreAfterFailedApply(m: Journal, attested: bool) returns (outcome: Outcome)
      requires JournalOk(m) && m.operation == ApplyOperation
      modifies this
      ensures old(Exec(Disk(), m, Compensation(m, attested), answers)) == Run(Disk(), m, outcome)
    {
      hide Exec;
      var stopped := Reached(m, PriorServiceStopped);
      if !stopped {
        var initialized := Reached(m, InstanceReady);
        if initialized && !attested {
          outcome := RevivePriorService(m, [RemoveJournal]);
          if outcome != Done {
            return;
          }
        } else {
          assert Compensation(m, attested) == [RemoveJournal];
        }
        outcome := DropJournal(m);
        return;
      }
      ghost var rest := if m.prior.None? then [RemoveStateFile] + [RemoveJournal]
                        else RevivePrior(m) + ([SaveState(m.prior.value)] + [RemoveJournal]);
      assert Compensation(m, attested) == (if m.manager != ForegroundManager then [RemoveService] else []) + rest;
      outcome := RemoveFailedService(m, rest);
      if outcome != Done {
        return;
      }
      if m.prior.None? {
        var n: Journal;
        n, outcome := Perform(m, RemoveStateFile, [RemoveJournal]);
        if outcome != Done {
          return;
        }
        outcome := DropJournal(m);
        return;
      }
      outcome := RevivePriorService(m, [SaveState(m.prior.value)] + [RemoveJournal]);
      if outcome != Done {
        return;
      }
      outcome := ReinstatePrior(m, m.prior.value);
    }

    method RestoreAfterFailedSwitch(m: Journal, attested: bool) returns (outcome: Outcome)
      requires JournalOk(m) && m.operation == RollbackOperation
      modifies this
      ensures old(Exec(Disk(), m, Compensation(m, attested), answers)) == Run(Disk(), m, outcome)
    {
      hide Exec;
      ghost var rest := RevivePrior(m) + ([SaveState(m.prior.value)] + [RemoveJournal]);
      assert Compensation(m, attested) == (if m.manager != ForegroundManager then [RemoveService] else []) + rest;
      outcome := RemoveFailedService(m, rest);
      if outcome != Done {
        return;
      }
      outcome := RevivePriorService(m, [SaveState(m.prior.value)] + [RemoveJournal]);
      if outcome != Done {
        return;
      }
      outcome := ReinstatePrior(m, m.prior.value);
    }

    method RestoreAfterFailedUninstall(m: Journal, attested: bool) returns (outcome: Outcome)
      requires JournalOk(m) && m.operation == UninstallOperation
      modifies this
      ensures old(Exec(Disk(), m, Compensation(m, attested), answers)) == Run(Disk(), m, outcome)
    {
      hide Exec;
      assert Compensation(m, attested) == RevivePrior(m) + ([SaveState(m.prior.value)] + [RemoveJournal]);
      outcome := RevivePriorService(m, [SaveState(m.prior.value)] + [RemoveJournal]);
      if outcome != Done {
        return;
      }
      outcome := ReinstatePrior(m, m.prior.value);
    }

    // ----- One invocation ----------------------------------------------------------------------

    /**
     Run the transaction on disk and compensate a failure.  Whatever the environment answers, the
     disk stays in order; the transaction stays the same while its journal is there; and when it is
     gone, the saved state is the committed one or the one before, the committed one on success.
     */
    method ResumeTransaction(j: Journal, attested: bool) returns (outcome: Outcome)
      requires DiskInv(Disk()) && journal == Some(j)
      modifies this
      ensures DiskInv(Disk()) && JournalOk(j)
      ensures journal.Some? ==> journal.value == j.(phase := journal.value.phase)
      ensures journal.None? ==> state == j.prior || state == Some(Committed(j))
      ensures outcome == Done ==> journal.None? && state == Some(Committed(j))
    {
      ProgramSound(Disk(), j, answers);
      JournalShape(j);
      hide Exec, DiskInv, JournalOk, Program, Compensation, Compensates, Committed;
      var m: Journal;
      match j.operation
      case ApplyOperation =>
        m, outcome := RunApply(j);
        if outcome == Failed && Compensates(m) {
          CompensationSound(Disk(), m, attested, answers);
          outcome := RestoreAfterFailedApply(m, attested);
          outcome := AfterCompensation(outcome);
        }
      case RollbackOperation =>
        m, outcome := RunRollback(j);
        if outcome == Failed && Compensates(m) {
          CompensationSound(Disk(), m, attested, answers);
          outcome := RestoreAfterFailedSwitch(m, attested);
          outcome := AfterCompensation(outcome);
        }
      case UninstallOperation =>
        m, outcome := RunUninstall(j);
        if outcome == Failed && Compensates(m) {
          CompensationSound(Disk(), m, attested, answers);
          outcome := RestoreAfterFailedUninstall(m, attested);
          outcome := AfterCompensation(outcome);
        }
    }
  }

  /** A compensated transaction has failed, unless its compensation was interrupted. */
  function AfterCompensation(outcome: Outcome): Outcome {
    if outcome == Crashed then Crashed else Failed
  }
}
