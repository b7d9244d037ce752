/**
 What every reachable disk state satisfies, across failures, interruptions,
 compensations and resumptions of all three operations.
 */
module DeploymentProofs {
  import opened Outcomes
  import opened Deployment

  // ----- The invariant -------------------------------------------------------------------

  /** The releases a committed state relies on are still staged. */
  predicate Kept(staged: set<Release>, s: State) {
    s.status != UninstalledStatus ==>
      && (s.active.Some? ==> s.active.value in staged)
      && (s.previous.Some? ==> s.previous.value in staged)
  }

  /** Uninstall has passed its point of no return. */
  predicate Removing(j: Journal) {
    j.operation == UninstallOperation && Position(j.phase) >= Position(RemovingArtifacts)
  }

  /** The saved state is the prior one, the committed one, or either, as the phase says. */
  predicate SavedMatches(state: Option<State>, j: Journal)
    requires JournalOk(j)
  {
    if Position(j.phase) < Position(Committing) then state == j.prior
    else if j.phase == Committing then state == j.prior || state == Some(Committed(j))
    else state == Some(Committed(j))
  }

  predicate StagedMatches(staged: set<Release>, j: Journal) {
    && (!Removing(j) && j.prior.Some? ==> Kept(staged, j.prior.value))
    && (j.operation == ApplyOperation && j.phase != Planned ==> j.desired.Some? && j.desired.value in staged)
  }

  predicate DiskInv(h: Host) {
    && (h.state.Some? ==> StateOk(h.state.value))
    && match h.journal
       case None => h.state.Some? ==> Kept(h.staged, h.state.value)
       case Some(j) => JournalOk(j) && SavedMatches(h.state, j) && StagedMatches(h.staged, j)
  }

  /** The journal in memory is the one on disk, or one phase record ahead of it. */
  predicate InStep(h: Host, j: Journal) {
    && h.journal.Some? && JournalOk(j) && JournalOk(h.journal.value)
    && h.journal.value == j.(phase := h.journal.value.phase)
    && Position(h.journal.value.phase) <= Position(j.phase)
  }

  // ----- One action -------------------------------------------------------------------------

  /** Only the service side differs. */
  predicate ServiceOnly(g: Host, h: Host) {
    g == h.(ready := g.ready, definition := g.definition, running := g.running)
  }

  predicate IsService(a: Action) {
    a.Initialize? || a.StopPrior? || a.Install? || a.ActivateDesired? || a.ActivateDefinition? || a.Health? || a.RemoveService? || a.Verify?
  }

  lemma ServiceFrame(h: Host, j: Journal, a: Action, answer: Answer)
    requires IsService(a)
    ensures ServiceOnly(Do(h, j, a, answer).host, h) && Do(h, j, a, answer).memory == j
  {
  }

  /** The service may change at will: the disk does not depend on it. */
  lemma ServiceKeepsInv(h: Host, g: Host)
    requires DiskInv(h) && ServiceOnly(g, h)
    ensures DiskInv(g)
  {
    hide JournalOk, SavedMatches, StagedMatches, StateOk, Kept;
  }

  lemma ExecOne(h: Host, j: Journal, a: Action, answers: seq<Answer>)
    ensures Exec(h, j, [a], answers) == Do(h, j, a, First(answers))
  {
    hide Do;
    var r := Do(h, j, a, First(answers));
    assert [a][1..] == [];
    if r.outcome == Done {
      assert Exec(r.host, r.memory, [], Rest(answers)) == Run(r.host, r.memory, Done);
    }
  }

  lemma ExecTwo(h: Host, j: Journal, a: Action, b: Action, answers: seq<Answer>)
    ensures var r := Do(h, j, a, First(answers));
            Exec(h, j, [a, b], answers) == if r.outcome != Done then r else Do(r.host, r.memory, b, First(Rest(answers)))
  {
    hide Do;
    var r := Do(h, j, a, First(answers));
    assert [a, b][1..] == [b];
    ExecOne(r.host, r.memory, b, Rest(answers));
  }

  /** The program after a recorded phase, one block at a time. */
  lemma NextBlock(j: Journal, p: Phase)
    requires JournalOk(j) && p != StateSaved
    ensures var next := NextPhase(j.operation, j.manager, p);
            From(j, p) == Work(j, next) + ([Checkpoint(next)] + From(j, next))
  {
    var next := NextPhase(j.operation, j.manager, p);
    assert Work(j, next) + [Checkpoint(next)] + From(j, next) == Work(j, next) + ([Checkpoint(next)] + From(j, next));
  }

  lemma ExecStep(h: Host, m: Journal, a: Action, tail: seq<Action>, answers: seq<Answer>)
    ensures var r := Do(h, m, a, First(answers));
            Exec(h, m, [a] + tail, answers) == if r.outcome != Done then r else Exec(r.host, r.memory, tail, Rest(answers))
  {
    assert ([a] + tail)[1..] == tail;
    hide Do;
  }

  /** What a phase may be recorded on. */
  predicate ReadyFor(h: Host, j: Journal, next: Phase) {
    var n := j.(phase := next);
    JournalOk(n) && SavedMatches(h.state, n) && StagedMatches(h.staged, n) && (h.state.Some? ==> StateOk(h.state.value))
  }

  /** The work of a phase keeps the disk in order, leaves the journal alone, and prepares the phase's record. */
  ghost predicate WorkOk(h: Host, j: Journal, next: Phase, r: Run) {
    && r.memory == j && r.host.journal == Some(j) && DiskInv(r.host)
    && (r.outcome == Done ==> ReadyFor(r.host, j, next))
  }

  lemma ServiceWork(h: Host, j: Journal, a: Action, answers: seq<Answer>, next: Phase)
    requires DiskInv(h) && h.journal == Some(j) && IsService(a) && ReadyFor(h, j, next)
    ensures WorkOk(h, j, next, Exec(h, j, [a], answers))
  {
    hide DiskInv, IsService, JournalOk, SavedMatches, StagedMatches, StateOk, Do;
    ExecOne(h, j, a, answers);
    ServiceFrame(h, j, a, First(answers));
    ServiceKeepsInv(h, Do(h, j, a, First(answers)).host);
  }

  lemma NoWork(h: Host, j: Journal, answers: seq<Answer>, next: Phase)
    requires DiskInv(h) && h.journal == Some(j) && ReadyFor(h, j, next)
    ensures WorkOk(h, j, next, Exec(h, j, [], answers))
  {
    hide DiskInv, ReadyFor;
  }

  lemma StageKeepsInv(h: Host, j: Journal, r: Release)
    requires DiskInv(h) && h.journal == Some(j)
    ensures DiskInv(h.(staged := h.staged + {r}))
  {
    hide JournalOk, SavedMatches, StateOk;
  }

  lemma StageWork(h: Host, j: Journal, r: Release, answers: seq<Answer>)
    requires DiskInv(h) && h.journal == Some(j) && j.operation == ApplyOperation && j.phase == Planned && j.desired == Some(r)
    ensures WorkOk(h, j, ArtifactStaged, Exec(h, j, [Stage(r), Verify(r)], answers))
  {
    ExecTwo(h, j, Stage(r), Verify(r), answers);
    StageKeepsInv(h, j, r);
    var g := h.(staged := h.staged + {r});
    assert ReadyFor(g, j, ArtifactStaged) by { hide StateOk; }
    hide DiskInv, ReadyFor;
  }

  lemma SaveWork(h: Host, j: Journal, answers: seq<Answer>)
    requires DiskInv(h) && h.journal == Some(j) && j.phase == Committing
    ensures WorkOk(h, j, StateSaved, Exec(h, j, [SaveState(Committed(j))], answers))
  {
    var c := Committed(j);
    ExecOne(h, j, SaveState(c), answers);
    var g := h.(state := Some(c));
    if StateOk(c) {
      assert DiskInv(g) && ReadyFor(g, j, StateSaved) by { hide StateOk; }
    }
    hide DiskInv, ReadyFor, StateOk;
  }

  lemma RemoveWork(h: Host, j: Journal, answers: seq<Answer>)
    requires DiskInv(h) && h.journal == Some(j) && j.operation == UninstallOperation && j.phase == RemovingArtifacts
    ensures WorkOk(h, j, ArtifactsRemoved, Exec(h, j, [RemoveArtifacts], answers))
  {
    ExecOne(h, j, RemoveArtifacts, answers);
    var g := Do(h, j, RemoveArtifacts, First(answers)).host;
    assert g == h.(staged := g.staged);
    assert DiskInv(g) && ReadyFor(g, j, ArtifactsRemoved) by { hide StateOk; }
    hide DiskInv, ReadyFor, StateOk;
  }

  lemma ReadyWithoutWork(h: Host, j: Journal, next: Phase)
    requires DiskInv(h) && h.journal == Some(j) && j.phase != StateSaved && next == NextPhase(j.operation, j.manager, j.phase)
    requires next != ArtifactStaged && next != StateSaved
    ensures ReadyFor(h, j, next)
  {
    hide StateOk;
  }

  lemma WorkSound(h: Host, j: Journal, next: Phase, answers: seq<Answer>)
    requires DiskInv(h) && h.journal == Some(j) && j.phase != StateSaved && next == NextPhase(j.operation, j.manager, j.phase)
    requires JournalOk(j)
    ensures WorkOk(h, j, next, Exec(h, j, Work(j, next), answers))
  {
    if next == ArtifactStaged {
      StageWork(h, j, j.desired.value, answers);
    } else if next == StateSaved {
      SaveWork(h, j, answers);
    } else if next == ArtifactsRemoved {
      RemoveWork(h, j, answers);
    } else {
      ReadyWithoutWork(h, j, next);
      var work := Work(j, next);
      if work == [] {
        NoWork(h, j, answers, next);
      } else {
        assert work == [work[0]] && IsService(work[0]);
        ServiceWork(h, j, work[0], answers, next);
      }
    }
  }

  // ----- A whole program ----------------------------------------------------------------------

  /**
   Whatever happens to a run of journal `j`: the disk is in order; while a journal is left, it is
   `j` at some phase no later than the one in memory; once it is gone, the committed state is saved.
   */
  ghost predicate Sound(j: Journal, r: Run) {
    && DiskInv(r.host) && JournalOk(j) && JournalOk(r.memory) && r.memory == j.(phase := r.memory.phase)
    && (r.host.journal.Some? ==> InStep(r.host, r.memory))
    && (r.host.journal.None? ==> r.memory.phase == StateSaved && r.host.state == Some(Committed(j)))
    && (r.outcome == Done ==> r.host.journal.None?)
  }

  lemma CheckpointSound(h: Host, j: Journal, next: Phase, answer: Answer)
    requires DiskInv(h) && h.journal == Some(j) && JournalOk(j) && ReadyFor(h, j, next) && Position(j.phase) <= Position(next)
    ensures var r := Do(h, j, Checkpoint(next), answer);
            && DiskInv(r.host) && r.memory == j.(phase := next) && JournalOk(r.memory)
            && r.host.journal.Some? && InStep(r.host, r.memory)
            && (r.outcome == Done ==> r.host.journal == Some(r.memory))
  {
    hide StateOk, SavedMatches, StagedMatches;
  }

  lemma CommittedIsKept(h: Host, j: Journal)
    requires DiskInv(h) && h.journal == Some(j) && j.phase == StateSaved
    ensures Kept(h.staged, Committed(j)) && h.state == Some(Committed(j))
  {
  }

  lemma RemoveJournalSound(h: Host, j: Journal, answer: Answer)
    requires DiskInv(h) && h.journal == Some(j) && JournalOk(j) && j.phase == StateSaved
    ensures Sound(j, Do(h, j, RemoveJournal, answer))
  {
    CommittedIsKept(h, j);
    hide StateOk, SavedMatches, StagedMatches, Kept;
  }

  lemma StoppedIsSound(h: Host, j: Journal, next: Phase, r: Run)
    requires WorkOk(h, j, next, r) && r.outcome != Done && JournalOk(j)
    ensures Sound(j, r)
  {
    hide DiskInv;
  }

  lemma SoundFrom(j: Journal, k: Journal, r: Run)
    requires JournalOk(j) && k == j.(phase := k.phase) && Sound(k, r)
    ensures Sound(j, r)
  {
    hide DiskInv, InStep;
  }

  /** From any recorded phase on. */
  lemma {:induction false} FromSound(h: Host, j: Journal, answers: seq<Answer>)
    requires DiskInv(h) && h.journal == Some(j) && JournalOk(j)
    ensures Sound(j, Exec(h, j, From(j, j.phase), answers))
    decreases 11 - Position(j.phase)
  {
    hide DiskInv, JournalOk, Sound, ReadyFor, InStep, Do, Work;
    JournalShape(j);
    if j.phase == StateSaved {
      ExecOne(h, j, RemoveJournal, answers);
      RemoveJournalSound(h, j, First(answers));
    } else {
      var next := NextPhase(j.operation, j.manager, j.phase);
      var n := j.(phase := next);
      var work, rest := Work(j, next), From(j, next);
      WorkSound(h, j, next, answers);
      var w := Exec(h, j, work, answers);
      ExecConcat(h, j, work, [Checkpoint(next)] + rest, answers);
      assert work + [Checkpoint(next)] + rest == work + ([Checkpoint(next)] + rest);
      if w.outcome != Done {
        StoppedIsSound(h, j, next, w);
      } else {
        var left := Skip(answers, |work|);
        ExecConcat(w.host, j, [Checkpoint(next)], rest, left);
        ExecOne(w.host, j, Checkpoint(next), left);
        CheckpointSound(w.host, j, next, First(left));
        var c := Do(w.host, j, Checkpoint(next), First(left));
        if c.outcome != Done {
          InterruptedIsSound(j, c);
        } else {
          FromIgnoresPhase(j, n, next);
          FromSound(c.host, n, Skip(left, 1));
          SoundFrom(j, n, Exec(c.host, n, rest, Skip(left, 1)));
        }
      }
    }
  }

  lemma JournalShape(j: Journal)
    requires JournalOk(j)
    ensures j.operation != UninstallOperation ==> j.desired.Some?
    ensures j.operation != ApplyOperation ==> j.prior.Some?
  {
  }

  lemma InterruptedIsSound(j: Journal, c: Run)
    requires DiskInv(c.host) && JournalOk(j) && JournalOk(c.memory) && c.memory == j.(phase := c.memory.phase)
    requires c.host.journal.Some? && InStep(c.host, c.memory) && c.outcome != Done
    ensures Sound(j, c)
  {
    hide DiskInv, InStep;
  }

  lemma {:induction false} FromIgnoresPhase(j: Journal, n: Journal, p: Phase)
    requires n == j.(phase := n.phase)
    requires j.operation != UninstallOperation ==> j.desired.Some?
    requires j.operation != ApplyOperation ==> j.prior.Some?
    ensures From(j, p) == From(n, p)
    decreases 11 - Position(p)
  {
    if p != StateSaved {
      FromIgnoresPhase(j, n, NextPhase(j.operation, j.manager, p));
    }
  }

  lemma EntrySound(h: Host, j: Journal, answers: seq<Answer>)
    requires DiskInv(h) && h.journal == Some(j) && JournalOk(j)
    ensures var r := Exec(h, j, Entry(j), answers);
            r.memory == j && r.host == h && (r.outcome != Done ==> Sound(j, r))
  {
    hide DiskInv, JournalOk;
    JournalShape(j);
    if Entry(j) != [] {
      assert Entry(j) == [Entry(j)[0]];
      ExecOne(h, j, Entry(j)[0], answers);
      assert InStep(h, j);
    }
  }

  /** Running a journal, from whatever phase, on a disk in order. */
  lemma ProgramSound(h: Host, j: Journal, answers: seq<Answer>)
    requires DiskInv(h) && h.journal == Some(j)
    ensures JournalOk(j) && Sound(j, Exec(h, j, Program(j), answers))
  {
    assert JournalOk(j);
    hide DiskInv, JournalOk, Sound, Do, Entry, From;
    ExecConcat(h, j, Entry(j), From(j, j.phase), answers);
    EntrySound(h, j, answers);
    FromSound(h, j, Skip(answers, |Entry(j)|));
  }

  // ----- Compensation ------------------------------------------------------------------------

  predicate AllService(program: seq<Action>) {
    forall i | 0 <= i < |program| :: IsService(program[i])
  }

  lemma {:induction false} ServiceProgram(h: Host, m: Journal, program: seq<Action>, answers: seq<Answer>)
    requires AllService(program)
    ensures ServiceOnly(Exec(h, m, program, answers).host, h) && Exec(h, m, program, answers).memory == m
    decreases |program|
  {
    hide Do, IsService;
    if program != [] {
      ServiceFrame(h, m, program[0], First(answers));
      var r := Do(h, m, program[0], First(answers));
      if r.outcome == Done {
        ServiceProgram(r.host, m, program[1..], Rest(answers));
      }
    }
  }

  /** The service part of a compensation. */
  function UndoService(j: Journal, attested: bool): seq<Action> {
    match j.operation
    case ApplyOperation =>
      if Position(j.phase) < Position(PriorServiceStopped) then (if j.phase == InstanceReady && !attested then RevivePrior(j) else [])
      else (if j.manager != ForegroundManager then [RemoveService] else []) + (if j.prior.None? then [] else RevivePrior(j))
    case RollbackOperation => (if j.manager != ForegroundManager then [RemoveService] else []) + RevivePrior(j)
    case UninstallOperation => RevivePrior(j)
  }

  /** Its state part: nothing while the state cannot have changed, the prior state file otherwise. */
  function UndoState(j: Journal): seq<Action> {
    if j.operation == ApplyOperation && Position(j.phase) < Position(PriorServiceStopped) then []
    else if j.prior.Some? then [SaveState(j.prior.value)]
    else if j.operation == ApplyOperation then [RemoveStateFile] else []
  }

  lemma CompensationShape(j: Journal, attested: bool)
    ensures Compensation(j, attested) == UndoService(j, attested) + UndoState(j) + [RemoveJournal]
    ensures AllService(UndoService(j, attested))
  {
    assert AllService(RevivePrior(j));
    assert AllService([RemoveService]);
  }

  /** Compensating keeps the disk in order, and once the journal is gone the prior state is back. */
  ghost predicate Restored(m: Journal, c: Run) {
    && DiskInv(c.host) && c.memory == m
    && (c.host.journal.Some? ==> InStep(c.host, m))
    && (c.host.journal.None? ==> c.host.state == m.prior)
    && (c.outcome == Done ==> c.host.journal.None?)
  }

  lemma UndoServiceSound(h: Host, m: Journal, attested: bool, answers: seq<Answer>)
    requires DiskInv(h) && h.journal.Some? && InStep(h, m)
    ensures var r := Exec(h, m, UndoService(m, attested), answers);
            DiskInv(r.host) && r.memory == m && r.host.journal.Some? && InStep(r.host, m) && r.host.state == h.state
  {
    hide DiskInv, JournalOk, UndoService;
    CompensationShape(m, attested);
    ServiceProgram(h, m, UndoService(m, attested), answers);
    ServiceKeepsInv(h, Exec(h, m, UndoService(m, attested), answers).host);
  }

  lemma UndoStateSound(h: Host, m: Journal, answers: seq<Answer>)
    requires DiskInv(h) && h.journal.Some? && InStep(h, m) && Compensates(m)
    ensures var r := Exec(h, m, UndoState(m), answers);
            && DiskInv(r.host) && r.memory == m && r.host.journal.Some? && InStep(r.host, m)
            && (r.outcome == Done ==> r.host.state == m.prior)
  {
    PriorIsAllowed(h, m);
    hide DiskInv, JournalOk, Compensates, StateOk;
    if UndoState(m) != [] {
      assert UndoState(m) == [UndoState(m)[0]];
      ExecOne(h, m, UndoState(m)[0], answers);
    }
  }

  lemma PriorIsAllowed(h: Host, m: Journal)
    requires DiskInv(h) && h.journal.Some? && InStep(h, m) && Compensates(m)
    ensures DiskInv(h.(state := m.prior))
    ensures m.prior.Some? ==> StateOk(m.prior.value)
    ensures UndoState(m) == [] ==> h.state == m.prior
  {
    hide StateOk, StagedMatches;
  }

  lemma PriorIsKept(h: Host, m: Journal)
    requires DiskInv(h) && h.journal.Some? && InStep(h, m) && Compensates(m) && h.state == m.prior
    ensures DiskInv(h.(journal := None))
  {
    hide StateOk, Kept, JournalOk;
  }

  /** The end of a compensation: the state part, then the journal goes. */
  lemma UndoEndSound(h: Host, m: Journal, answers: seq<Answer>)
    requires DiskInv(h) && h.journal.Some? && InStep(h, m) && Compensates(m)
    ensures Restored(m, Exec(h, m, UndoState(m) + [RemoveJournal], answers))
  {
    hide DiskInv, JournalOk, InStep, UndoState, Compensates;
    var second := UndoState(m);
    ExecConcat(h, m, second, [RemoveJournal], answers);
    UndoStateSound(h, m, answers);
    var u := Exec(h, m, second, answers);
    if u.outcome == Done {
      var left := Skip(answers, |second|);
      hide Exec;
      ExecOne(u.host, m, RemoveJournal, left);
      PriorIsKept(u.host, m);
      DropSound(u.host, m, First(left));
    }
  }

  lemma DropSound(h: Host, m: Journal, answer: Answer)
    requires DiskInv(h) && DiskInv(h.(journal := None)) && h.journal.Some? && InStep(h, m) && h.state == m.prior
    ensures Restored(m, Do(h, m, RemoveJournal, answer))
  {
    hide DiskInv, InStep;
  }

  lemma CompensationSound(h: Host, m: Journal, attested: bool, answers: seq<Answer>)
    requires DiskInv(h) && h.journal.Some? && InStep(h, m) && Compensates(m)
    ensures Restored(m, Exec(h, m, Compensation(m, attested), answers))
  {
    hide DiskInv, JournalOk, InStep, UndoService, UndoState, Compensation, Compensates;
    CompensationShape(m, attested);
    var first, rest := UndoService(m, attested), UndoState(m) + [RemoveJournal];
    assert UndoService(m, attested) + UndoState(m) + [RemoveJournal] == first + rest;
    ExecConcat(h, m, first, rest, answers);
    UndoServiceSound(h, m, attested, answers);
    var r := Exec(h, m, first, answers);
    hide Exec;
    if r.outcome == Done {
      UndoEndSound(r.host, m, Skip(answers, |first|));
    }
  }

  // ----- The service a compensation brings back -------------------------------------------------

  predicate HadService(m: Journal) {
    m.prior.Some? && m.prior.value.status == ActiveStatus && m.prior.value.active.Some?
  }

  /** The transaction had not touched the prior service yet, or it still answers as itself. */
  predicate PriorUntouched(m: Journal, attested: bool) {
    m.operation == ApplyOperation && Position(m.phase) < Position(PriorServiceStopped) && (m.phase != InstanceReady || attested)
  }

  predicate RemovesFailed(m: Journal) {
    m.manager != ForegroundManager
    && (m.operation == RollbackOperation || (m.operation == ApplyOperation && Position(m.phase) >= Position(PriorServiceStopped)))
  }

  /** The service side after a completed compensation. */
  predicate ServiceRestored(h: Host, g: Host, m: Journal, attested: bool) {
    if PriorUntouched(m, attested) then g.definition == h.definition && g.running == h.running
    else if HadService(m) then g.definition == m.prior.value.active && g.running == m.prior.value.active
    else if RemovesFailed(m) then g.definition.None? && g.running.None?
    else g.definition == h.definition && g.running == h.running
  }

  lemma ReviveRestores(h: Host, m: Journal, r: Release, answers: seq<Answer>)
    requires Exec(h, m, Revive(r), answers).outcome == Done
    ensures var g := Exec(h, m, Revive(r), answers).host; g.definition == Some(r) && g.running == Some(r)
  {
    var first, second := [Verify(r), Install(r)], [ActivateDefinition, Health(r)];
    assert Revive(r) == first + second;
    ExecConcat(h, m, first, second, answers);
    ExecTwo(h, m, Verify(r), Install(r), answers);
    var w := Exec(h, m, first, answers);
    ExecTwo(w.host, w.memory, ActivateDefinition, Health(r), Skip(answers, 2));
    hide Exec;
  }

  lemma RemoveFirst(h: Host, m: Journal, rest: seq<Action>, answers: seq<Answer>)
    requires Exec(h, m, [RemoveService] + rest, answers).outcome == Done
    ensures var g := h.(running := None, definition := None);
            Exec(h, m, [RemoveService] + rest, answers) == Exec(g, m, rest, Rest(answers))
  {
    ExecStep(h, m, RemoveService, rest, answers);
    hide Exec;
  }

  /** Removal, if there is any, then revival, if there is any. */
  lemma UndoServiceParts(m: Journal, attested: bool)
    requires JournalOk(m)
    ensures UndoService(m, attested)
         == (if RemovesFailed(m) then [RemoveService] else [])
            + (if HadService(m) && !PriorUntouched(m, attested) then Revive(m.prior.value.active.value) else [])
  {
    hide StateOk;
  }

  lemma UndoServiceRestores(h: Host, m: Journal, attested: bool, answers: seq<Answer>)
    requires JournalOk(m) && Exec(h, m, UndoService(m, attested), answers).outcome == Done
    ensures ServiceRestored(h, Exec(h, m, UndoService(m, attested), answers).host, m, attested)
  {
    UndoServiceParts(m, attested);
    hide UndoService, Exec, JournalOk, Revive;
    var revive := if HadService(m) && !PriorUntouched(m, attested) then Revive(m.prior.value.active.value) else [];
    NothingDone(h, m, answers);
    if RemovesFailed(m) {
      var g := h.(running := None, definition := None);
      RemoveFirst(h, m, revive, answers);
      NothingDone(g, m, Rest(answers));
      if revive != [] {
        ReviveRestores(g, m, m.prior.value.active.value, Rest(answers));
      }
    } else {
      assert [] + revive == revive;
      if revive != [] {
        ReviveRestores(h, m, m.prior.value.active.value, answers);
      }
    }
  }

  lemma NothingDone(h: Host, m: Journal, answers: seq<Answer>)
    ensures Exec(h, m, [], answers) == Run(h, m, Done)
  {
  }

  lemma UndoEndLeavesService(h: Host, m: Journal, answers: seq<Answer>)
    ensures var g := Exec(h, m, UndoState(m) + [RemoveJournal], answers).host; g.definition == h.definition && g.running == h.running
  {
    var second := UndoState(m);
    ExecConcat(h, m, second, [RemoveJournal], answers);
    if second == [] {
      ExecOne(h, m, RemoveJournal, answers);
    } else {
      assert second == [second[0]];
      ExecOne(h, m, second[0], answers);
      var u := Exec(h, m, second, answers);
      ExecOne(u.host, u.memory, RemoveJournal, Skip(answers, 1));
    }
    hide Exec;
  }

  /**
   A completed compensation brings the prior service back: its definition is installed and its
   release runs.  Where there was none, the failed one is gone; a service not yet touched stays.
   */
  lemma CompensationRestoresService(h: Host, m: Journal, attested: bool, answers: seq<Answer>)
    requires JournalOk(m) && Exec(h, m, Compensation(m, attested), answers).outcome == Done
    ensures ServiceRestored(h, Exec(h, m, Compensation(m, attested), answers).host, m, attested)
  {
    CompensationShape(m, attested);
    hide JournalOk, UndoService, UndoState, Compensation, Exec, ServiceRestored;
    var first, rest := UndoService(m, attested), UndoState(m) + [RemoveJournal];
    assert UndoService(m, attested) + UndoState(m) + [RemoveJournal] == first + rest;
    ExecConcat(h, m, first, rest, answers);
    var r := Exec(h, m, first, answers);
    UndoServiceRestores(h, m, attested, answers);
    ServiceProgram(h, m, first, answers);
    var left := Skip(answers, |first|);
    UndoEndLeavesService(r.host, m, left);
    RestoredFrame(h, r.host, Exec(r.host, m, rest, left).host, m, attested);
  }

  lemma RestoredFrame(h: Host, g: Host, k: Host, m: Journal, attested: bool)
    requires ServiceRestored(h, g, m, attested) && k.definition == g.definition && k.running == g.running
    ensures ServiceRestored(h, k, m, attested)
  {
  }

  // ----- One invocation ----------------------------------------------------------------------

  /**
   An invocation on a disk in order leaves it in order.  While it ends with a journal, that is the
   same transaction; once the journal is gone, the state is the one the journal committed or the
   one before it, and it is the committed one whenever the invocation reports success.
   */
  lemma InvokeSound(h: Host, j: Journal, answers: seq<Answer>, attested: bool, undo: seq<Answer>)
    requires DiskInv(h) && h.journal == Some(j)
    ensures JournalOk(j)
    ensures var r := Invoke(h, j, answers, attested, undo);
            && DiskInv(r.host)
            && (r.host.journal.Some? ==> r.host.journal.value == j.(phase := r.host.journal.value.phase))
            && (r.host.journal.None? ==> r.host.state == j.prior || r.host.state == Some(Committed(j)))
            && (r.outcome == Done ==> r.host.journal.None? && r.host.state == Some(Committed(j)))
  {
    hide DiskInv, Do, Program, Compensation;
    ProgramSound(h, j, answers);
    var r := Exec(h, j, Program(j), answers);
    if r.outcome == Failed && Compensates(r.memory) {
      CompensationSound(r.host, r.memory, attested, undo);
    }
  }
}
