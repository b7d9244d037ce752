/**
 Runs of the deployment lifecycle: any sequence of commands, each failing or
 being interrupted anywhere, and what they leave behind.
 */
module DeploymentRuns {
  import opened Outcomes
  import opened Deployment
  import opened DeploymentProofs

  // ----- The service beside the disk ----------------------------------------------------------

  predicate Deploys(j: Journal) {
    j.operation != UninstallOperation && Native(j.manager)
  }

  /** What the recorded phase says about the service, as long as nothing was compensated. */
  predicate ServiceAt(h: Host, j: Journal) {
    && (Deploys(j) && Position(j.phase) >= Position(DefinitionInstalled) ==> h.definition == j.desired)
    && (Deploys(j) && Position(j.phase) >= Position(Activated) ==> h.running == j.desired)
    && (j.operation == UninstallOperation && Native(j.manager) && Position(j.phase) >= Position(DefinitionRemoved) ==>
          h.definition.None? && h.running.None?)
    && (j.operation == UninstallOperation && Position(j.phase) >= Position(ArtifactsRemoved) ==> h.staged == {})
    && (j.operation == ApplyOperation && Position(j.phase) >= Position(InstanceReady) ==> h.ready)
  }

  /** One service or file action of a phase's work. */
  lemma ActionService(h: Host, j: Journal, a: Action, next: Phase, answer: Answer)
    requires JournalOk(j) && ServiceAt(h, j) && j.phase != StateSaved && next == NextPhase(j.operation, j.manager, j.phase)
    requires Work(j, next) == [a]
    ensures var w := Do(h, j, a, answer);
            ServiceAt(w.host, j) && (w.outcome == Done ==> ServiceAt(w.host, j.(phase := next)))
  {
    hide StateOk, Committed;
  }

  lemma RecordService(h: Host, j: Journal, next: Phase)
    requires JournalOk(j) && ServiceAt(h, j) && j.phase != StateSaved && next == NextPhase(j.operation, j.manager, j.phase)
    requires Work(j, next) == [] || next == ArtifactStaged
    ensures ServiceAt(h, j.(phase := next))
  {
    hide StateOk, Committed;
  }

  lemma WorkService(h: Host, j: Journal, next: Phase, answers: seq<Answer>)
    requires JournalOk(j) && ServiceAt(h, j) && j.phase != StateSaved && next == NextPhase(j.operation, j.manager, j.phase)
    ensures var w := Exec(h, j, Work(j, next), answers);
            ServiceAt(w.host, j) && (w.outcome == Done ==> ServiceAt(w.host, j.(phase := next)))
  {
    if next == ArtifactStaged {
      StagingService(h, j, answers);
    } else if Work(j, next) == [] {
      RecordService(h, j, next);
    } else {
      var a := Work(j, next)[0];
      assert Work(j, next) == [a];
      hide Do, ServiceAt, Work, JournalOk;
      ExecOne(h, j, a, answers);
      ActionService(h, j, a, next, First(answers));
    }
  }

  lemma StagingService(h: Host, j: Journal, answers: seq<Answer>)
    requires JournalOk(j) && ServiceAt(h, j) && j.phase == Planned && j.operation == ApplyOperation
    ensures var w := Exec(h, j, Work(j, ArtifactStaged), answers);
            ServiceAt(w.host, j) && ServiceAt(w.host, j.(phase := ArtifactStaged))
  {
    ExecTwo(h, j, Stage(j.desired.value), Verify(j.desired.value), answers);
    hide StateOk, Committed, Exec;
  }

  /** The service matches the journal on disk, or the finished transaction. */
  ghost predicate ServiceInv(j: Journal, r: Run) {
    && (r.host.journal.Some? ==> ServiceAt(r.host, r.host.journal.value))
    && (r.host.journal.None? || r.outcome == Done ==> ServiceAt(r.host, j.(phase := StateSaved)))
  }

  lemma DoKeepsJournal(h: Host, m: Journal, a: Action, answer: Answer)
    requires !a.Checkpoint? && !a.RemoveJournal?
    ensures Do(h, m, a, answer).host.journal == h.journal && Do(h, m, a, answer).memory == m
  {
  }

  lemma WorkKeepsJournal(h: Host, j: Journal, next: Phase, answers: seq<Answer>)
    requires JournalOk(j) && next == NextPhase(j.operation, j.manager, j.phase)
    ensures var w := Exec(h, j, Work(j, next), answers); w.host.journal == h.journal && w.memory == j
  {
    hide Do, JournalOk, Committed;
    JournalShape(j);
    var work := Work(j, next);
    if |work| == 2 {
      ExecTwo(h, j, work[0], work[1], answers);
      DoKeepsJournal(h, j, work[0], First(answers));
      DoKeepsJournal(Do(h, j, work[0], First(answers)).host, j, work[1], First(Rest(answers)));
    } else if |work| == 1 {
      ExecOne(h, j, work[0], answers);
      assert work == [work[0]];
      DoKeepsJournal(h, j, work[0], First(answers));
    }
  }

  lemma CheckpointService(h: Host, j: Journal, next: Phase, answer: Answer)
    requires h.journal == Some(j) && ServiceAt(h, j) && ServiceAt(h, j.(phase := next))
    ensures var c := Do(h, j, Checkpoint(next), answer);
            && c.memory == j.(phase := next) && c.host.journal.Some? && ServiceAt(c.host, c.host.journal.value)
            && (c.outcome == Done ==> c.host.journal == Some(c.memory) && ServiceAt(c.host, c.memory))
  {
  }

  /** Without a compensation, the service keeps matching the journal, whatever is interrupted. */
  lemma {:induction false} FromService(h: Host, j: Journal, answers: seq<Answer>)
    requires JournalOk(j) && h.journal == Some(j) && ServiceAt(h, j)
    ensures ServiceInv(j, Exec(h, j, From(j, j.phase), answers))
    decreases 11 - Position(j.phase)
  {
    hide ServiceAt, Do, Work;
    JournalShape(j);
    if j.phase == StateSaved {
      ExecOne(h, j, RemoveJournal, answers);
      RemovalService(h, j, First(answers));
    } else {
      var next := NextPhase(j.operation, j.manager, j.phase);
      var n := j.(phase := next);
      var work, rest := Work(j, next), From(j, next);
      WorkService(h, j, next, answers);
      WorkKeepsJournal(h, j, next, answers);
      var w := Exec(h, j, work, answers);
      ExecConcat(h, j, work, [Checkpoint(next)] + rest, answers);
      assert work + [Checkpoint(next)] + rest == work + ([Checkpoint(next)] + rest);
      if w.outcome == Done {
        var left := Skip(answers, |work|);
        ExecConcat(w.host, j, [Checkpoint(next)], rest, left);
        ExecOne(w.host, j, Checkpoint(next), left);
        CheckpointService(w.host, j, next, First(left));
        var c := Do(w.host, j, Checkpoint(next), First(left));
        if c.outcome == Done {
          FromIgnoresPhase(j, n, next);
          FromService(c.host, n, Skip(left, 1));
        }
      }
    }
  }

  lemma RemovalService(h: Host, j: Journal, answer: Answer)
    requires h.journal == Some(j) && ServiceAt(h, j) && j.phase == StateSaved
    ensures ServiceInv(j, Do(h, j, RemoveJournal, answer))
  {
  }

  lemma ProgramService(h: Host, j: Journal, answers: seq<Answer>)
    requires DiskInv(h) && h.journal == Some(j) && JournalOk(j) && ServiceAt(h, j)
    ensures ServiceInv(j, Exec(h, j, Program(j), answers))
  {
    hide DiskInv, JournalOk, ServiceAt, Do, Entry, From;
    JournalShape(j);
    ExecConcat(h, j, Entry(j), From(j, j.phase), answers);
    EntrySound(h, j, answers);
    FromService(h, j, Skip(answers, |Entry(j)|));
  }

  // ----- What a run does to the service and the files ------------------------------------------

  /** An action of `j`'s program touches the staged releases and the instance only as its operation may. */
  predicate WithinOperation(j: Journal, a: Action) {
    && (a.Stage? ==> j.operation == ApplyOperation && j.desired == Some(a.release))
    && (a.Initialize? ==> j.operation == ApplyOperation)
    && (a.RemoveArtifacts? ==> j.operation == UninstallOperation)
  }

  /** The files an operation may have changed on the way. */
  predicate FilesWithin(h: Host, g: Host, j: Journal) {
    match j.operation
    case ApplyOperation => j.desired.Some? && h.staged <= g.staged <= h.staged + {j.desired.value} && (h.ready ==> g.ready)
    case RollbackOperation => g.staged == h.staged && g.ready == h.ready
    case UninstallOperation => g.staged <= h.staged && g.ready == h.ready
  }

  lemma DoFiles(h: Host, m: Journal, j: Journal, a: Action, answer: Answer)
    requires WithinOperation(j, a) && (j.operation == ApplyOperation ==> j.desired.Some?)
    ensures FilesWithin(h, Do(h, m, a, answer).host, j)
  {
  }

  lemma {:induction false} ExecFiles(h: Host, m: Journal, j: Journal, program: seq<Action>, answers: seq<Answer>)
    requires (forall i | 0 <= i < |program| :: WithinOperation(j, program[i])) && (j.operation == ApplyOperation ==> j.desired.Some?)
    ensures FilesWithin(h, Exec(h, m, program, answers).host, j)
    decreases |program|
  {
    hide Do, WithinOperation;
    if program != [] {
      DoFiles(h, m, j, program[0], First(answers));
      var r := Do(h, m, program[0], First(answers));
      if r.outcome == Done {
        ExecFiles(r.host, r.memory, j, program[1..], Rest(answers));
      }
    }
  }

  lemma {:induction false} FromWithinOperation(j: Journal, p: Phase)
    requires JournalOk(j) && Passes(j.operation, j.manager, p)
    ensures forall i | 0 <= i < |From(j, p)| :: WithinOperation(j, From(j, p)[i])
    decreases 11 - Position(p)
  {
    if p != StateSaved {
      var next := NextPhase(j.operation, j.manager, p);
      WorkWithinOperation(j, p);
      hide Work, JournalOk, WithinOperation;
      JournalShape(j);
      FromWithinOperation(j, next);
      NotFiles(j, next);
    }
  }

  lemma NotFiles(j: Journal, p: Phase)
    ensures WithinOperation(j, Checkpoint(p))
  {
  }

  lemma WorkWithinOperation(j: Journal, p: Phase)
    requires JournalOk(j) && Passes(j.operation, j.manager, p) && p != StateSaved
    ensures var work := Work(j, NextPhase(j.operation, j.manager, p)); forall i | 0 <= i < |work| :: WithinOperation(j, work[i])
  {
    hide StateOk, Committed;
  }

  lemma ProgramFiles(h: Host, j: Journal, answers: seq<Answer>)
    requires JournalOk(j)
    ensures FilesWithin(h, Exec(h, j, Program(j), answers).host, j)
  {
    FromWithinOperation(j, j.phase);
    hide From, Exec, Do, FilesWithin;
    ExecFiles(h, j, j, Program(j), answers);
  }

  /**
   What getting from phase `p` to phase `q` does: what is still to do is done, whatever was there
   before, and what is behind is left as it is found.
   */
  predicate Track(h: Host, g: Host, j: Journal, p: Phase, q: Phase) {
    && (Deploys(j) ==>
          && (Position(p) < Position(DefinitionInstalled) <= Position(q) ==> g.definition == j.desired)
          && (Position(DefinitionInstalled) <= Position(p) ==> g.definition == h.definition)
          && (Position(p) < Position(HealthVerified) <= Position(q) ==> g.running == j.desired)
          && (Position(HealthVerified) <= Position(p) ==> g.running == h.running))
    && (j.operation == UninstallOperation && Native(j.manager) ==>
          && (Position(p) < Position(DefinitionRemoved) <= Position(q) ==> g.definition.None? && g.running.None?)
          && (Position(DefinitionRemoved) <= Position(p) ==> g.definition == h.definition && g.running == h.running))
    && (j.operation == UninstallOperation ==>
          && (Position(p) < Position(ArtifactsRemoved) <= Position(q) ==> g.staged == {})
          && (Position(ArtifactsRemoved) <= Position(p) ==> g.staged == h.staged))
    && (j.operation == ApplyOperation ==>
          && (Position(p) < Position(InstanceReady) <= Position(q) ==> g.ready)
          && (Position(InstanceReady) <= Position(p) ==> g.ready == h.ready))
  }

  lemma ActionTracks(h: Host, j: Journal, a: Action, next: Phase, answer: Answer)
    requires JournalOk(j) && j.phase != StateSaved && next == NextPhase(j.operation, j.manager, j.phase) && Work(j, next) == [a]
    requires Do(h, j, a, answer).outcome == Done
    ensures Track(h, Do(h, j, a, answer).host, j, j.phase, next)
  {
    hide StateOk, Committed;
  }

  lemma RecordTracks(h: Host, j: Journal, next: Phase)
    requires JournalOk(j) && j.phase != StateSaved && next == NextPhase(j.operation, j.manager, j.phase) && Work(j, next) == []
    ensures Track(h, h, j, j.phase, next)
  {
    hide StateOk, Committed;
  }

  lemma StagingTracks(h: Host, j: Journal, answers: seq<Answer>)
    requires JournalOk(j) && j.phase == Planned && j.operation == ApplyOperation
    ensures var w := Exec(h, j, Work(j, ArtifactStaged), answers); Track(h, w.host, j, Planned, ArtifactStaged)
  {
    hide StateOk, Committed, Exec;
  }

  lemma WorkTracks(h: Host, j: Journal, next: Phase, answers: seq<Answer>)
    requires JournalOk(j) && j.phase != StateSaved && next == NextPhase(j.operation, j.manager, j.phase)
    requires Exec(h, j, Work(j, next), answers).outcome == Done
    ensures Track(h, Exec(h, j, Work(j, next), answers).host, j, j.phase, next)
  {
    if next == ArtifactStaged {
      StagingTracks(h, j, answers);
    } else if Work(j, next) == [] {
      RecordTracks(h, j, next);
    } else {
      var a := Work(j, next)[0];
      assert Work(j, next) == [a];
      hide Do, Track, Work, JournalOk;
      ExecOne(h, j, a, answers);
      ActionTracks(h, j, a, next, First(answers));
    }
  }

  lemma TrackThrough(h: Host, g: Host, k: Host, j: Journal, p: Phase, q: Phase)
    requires Track(h, g, j, p, q) && Track(g, k, j, q, StateSaved) && Position(p) < Position(q)
    ensures Track(h, k, j, p, StateSaved)
  {
  }

  lemma TrackFrame(h: Host, g: Host, k: Host, j: Journal, p: Phase, q: Phase)
    requires Track(h, g, j, p, q) && k == g.(journal := k.journal)
    ensures Track(h, k, j, p, q)
  {
  }

  lemma TrackEnd(h: Host, g: Host, j: Journal)
    requires g == h.(journal := g.journal)
    ensures Track(h, g, j, StateSaved, StateSaved)
  {
  }

  lemma TrackIgnoresPhase(h: Host, g: Host, j: Journal, n: Journal, p: Phase, q: Phase)
    requires n == j.(phase := n.phase) && Track(h, g, n, p, q)
    ensures Track(h, g, j, p, q)
  {
  }

  /** A completed run of the rest of a program, one block and what follows it. */
  lemma FromBlock(h: Host, j: Journal, answers: seq<Answer>) returns (w: Run, c: Run, left: seq<Answer>)
    requires JournalOk(j) && j.phase != StateSaved && Exec(h, j, From(j, j.phase), answers).outcome == Done
    ensures var next := NextPhase(j.operation, j.manager, j.phase);
            && w == Exec(h, j, Work(j, next), answers) && w.outcome == Done
            && c.memory == j.(phase := next) && JournalOk(c.memory) && c.host == w.host.(journal := c.host.journal)
            && Exec(h, j, From(j, j.phase), answers) == Exec(c.host, c.memory, From(c.memory, next), left)
  {
    JournalShape(j);
    NextOk(j);
    NextBlock(j, j.phase);
    hide Do, Work, JournalOk, From, Exec, NextPhase;
    var next := NextPhase(j.operation, j.manager, j.phase);
    var work, rest := Work(j, next), From(j, next);
    FromIgnoresPhase(j, j.(phase := next), next);
    WorkKeepsJournal(h, j, next, answers);
    ExecConcat(h, j, work, [Checkpoint(next)] + rest, answers);
    w := Exec(h, j, work, answers);
    var l := Skip(answers, |work|);
    ExecStep(w.host, j, Checkpoint(next), rest, l);
    CheckpointLeaves(w.host, j, next, First(l));
    c := Do(w.host, j, Checkpoint(next), First(l));
    left := Rest(l);
  }

  lemma {:induction false} FromTracks(h: Host, j: Journal, answers: seq<Answer>)
    requires JournalOk(j) && Exec(h, j, From(j, j.phase), answers).outcome == Done
    ensures Track(h, Exec(h, j, From(j, j.phase), answers).host, j, j.phase, StateSaved)
    decreases 11 - Position(j.phase)
  {
    JournalShape(j);
    hide Track, Do, Work, JournalOk, Exec;
    if j.phase == StateSaved {
      ExecOne(h, j, RemoveJournal, answers);
      DropLeaves(h, j, First(answers));
      TrackEnd(h, Do(h, j, RemoveJournal, First(answers)).host, j);
    } else {
      var next := NextPhase(j.operation, j.manager, j.phase);
      var w, c, left := FromBlock(h, j, answers);
      hide From;
      WorkTracks(h, j, next, answers);
      FromTracks(c.host, c.memory, left);
      var last := Exec(c.host, c.memory, From(c.memory, next), left).host;
      TrackFrame(h, w.host, c.host, j, j.phase, next);
      TrackIgnoresPhase(c.host, last, j, c.memory, next, StateSaved);
      TrackThrough(h, c.host, last, j, j.phase, next);
    }
  }

  lemma NextOk(j: Journal)
    requires JournalOk(j)
    ensures JournalOk(j.(phase := NextPhase(j.operation, j.manager, j.phase)))
  {
    hide StateOk;
  }

  lemma CheckpointLeaves(h: Host, j: Journal, next: Phase, answer: Answer)
    ensures var c := Do(h, j, Checkpoint(next), answer); c.memory == j.(phase := next) && c.host == h.(journal := c.host.journal)
  {
  }

  lemma DropLeaves(h: Host, j: Journal, answer: Answer)
    ensures var c := Do(h, j, RemoveJournal, answer); c.host == h.(journal := c.host.journal)
  {
  }

  lemma ProgramTracks(h: Host, j: Journal, answers: seq<Answer>)
    requires DiskInv(h) && h.journal == Some(j) && JournalOk(j) && Exec(h, j, Program(j), answers).outcome == Done
    ensures Track(h, Exec(h, j, Program(j), answers).host, j, j.phase, StateSaved)
  {
    hide DiskInv, JournalOk, Track, Do, Entry, From;
    JournalShape(j);
    ExecConcat(h, j, Entry(j), From(j, j.phase), answers);
    EntrySound(h, j, answers);
    FromTracks(h, j, Skip(answers, |Entry(j)|));
  }

  // ----- Crashes do not matter -----------------------------------------------------------------

  /** An attempt that ended without a compensation: done, interrupted, or failed past the point of no return. */
  predicate Uncompensated(r: Run) {
    r.outcome == Failed ==> !Compensates(r.memory)
  }

  /** A transaction resumed after each attempt, none of which was compensated, until its journal is gone. */
  ghost predicate Interrupted(h: Host, j: Journal, attempts: seq<seq<Answer>>, last: Host)
    requires JournalOk(j)
    decreases |attempts|
  {
    if attempts == [] then false
    else
      var r := Exec(h, j, Program(j), attempts[0]);
      if |attempts| == 1 then r.host.journal.None? && last == r.host
      else
        && Uncompensated(r) && r.host.journal.Some? && JournalOk(r.host.journal.value)
        && Interrupted(r.host, r.host.journal.value, attempts[1..], last)
  }

  /** What a finished transaction leaves. */
  predicate Finished(h: Host, j: Journal)
    requires JournalOk(j)
  {
    && h.journal.None? && h.state == Some(Committed(j)) && ServiceAt(h, j.(phase := StateSaved))
  }

  /**
   Refinement: however often a transaction was interrupted, or failed past the point of no return,
   once its journal is gone it has left exactly what an uninterrupted run leaves: the same state
   file and, for a native service, the same definition and the same running release.
   */
  lemma {:induction false} CrashesDoNotMatter(h: Host, j: Journal, attempts: seq<seq<Answer>>, last: Host)
    requires DiskInv(h) && h.journal == Some(j) && JournalOk(j) && ServiceAt(h, j) && Interrupted(h, j, attempts, last)
    ensures Finished(last, j) && FilesWithin(h, last, j) && DiskInv(last)
    decreases |attempts|
  {
    hide DiskInv, JournalOk, ServiceAt, Do, Program, FilesWithin;
    var r := Exec(h, j, Program(j), attempts[0]);
    ProgramSound(h, j, attempts[0]);
    ProgramService(h, j, attempts[0]);
    ProgramFiles(h, j, attempts[0]);
    if |attempts| > 1 {
      var d := r.host.journal.value;
      CrashesDoNotMatter(r.host, d, attempts[1..], last);
      FilesThrough(h, r.host, last, j, d);
    }
  }

  lemma FilesThrough(h: Host, g: Host, k: Host, j: Journal, d: Journal)
    requires FilesWithin(h, g, j) && FilesWithin(g, k, d) && d == j.(phase := d.phase)
    ensures FilesWithin(h, k, j)
  {
  }

  /** The files a finished transaction leaves. */
  lemma FinishedFiles(h: Host, j: Journal, last: Host)
    requires JournalOk(j) && DiskInv(last) && Finished(last, j) && FilesWithin(h, last, j)
    ensures j.operation == ApplyOperation ==> last.staged == h.staged + {j.desired.value} && last.ready
    ensures j.operation == RollbackOperation ==> last.staged == h.staged && last.ready == h.ready
    ensures j.operation == UninstallOperation ==> last.staged == {} && last.ready == h.ready
  {
    hide StateOk;
  }

  /** The whole host is the same, whichever way it got there; a foreground deployment has no service of its own. */
  lemma UninterruptedSame(h: Host, j: Journal, attempts: seq<seq<Answer>>, last: Host, straight: seq<Answer>)
    requires DiskInv(h) && h.journal == Some(j) && JournalOk(j) && ServiceAt(h, j) && Interrupted(h, j, attempts, last)
    requires Exec(h, j, Program(j), straight).outcome == Done
    ensures var once := Exec(h, j, Program(j), straight).host;
            && last.state == once.state && last.journal == once.journal && last.staged == once.staged && last.ready == once.ready
            && (Native(j.manager) ==> last == once)
  {
    hide DiskInv, JournalOk, Do, Program, Committed;
    var once := Exec(h, j, Program(j), straight).host;
    DoneHasNoJournal(h, j, straight);
    assert Interrupted(h, j, [straight], once);
    CrashesDoNotMatter(h, j, attempts, last);
    CrashesDoNotMatter(h, j, [straight], once);
    FinishedFiles(h, j, last);
    FinishedFiles(h, j, once);
    NativeDeploysOrUninstalls(j);
  }

  lemma NativeDeploysOrUninstalls(j: Journal)
    requires JournalOk(j)
    ensures j.operation != UninstallOperation ==> j.desired.Some?
    ensures Native(j.manager) ==> Deploys(j) || j.operation == UninstallOperation
  {
  }

  lemma DoneHasNoJournal(h: Host, j: Journal, answers: seq<Answer>)
    requires DiskInv(h) && h.journal == Some(j) && JournalOk(j) && Exec(h, j, Program(j), answers).outcome == Done
    ensures Exec(h, j, Program(j), answers).host.journal.None?
  {
    hide DiskInv, JournalOk, Program, Exec;
    ProgramSound(h, j, answers);
  }

  // ----- Resuming after an interrupted compensation ----------------------------------------------

  /**
   What a resumed transaction finds must match the part of its work that it will not do again.  The
   journal alone does not tell: an interrupted compensation changes the service without recording it.
   */
  predicate ResumesClean(h: Host, j: Journal) {
    && (Deploys(j) ==>
          && (Position(j.phase) < Position(DefinitionInstalled) || h.definition == j.desired)
          && (Position(j.phase) < Position(HealthVerified) || h.running == j.desired))
    && (j.operation == UninstallOperation && Native(j.manager) ==>
          Position(j.phase) < Position(DefinitionRemoved) || (h.definition.None? && h.running.None?))
    && (j.operation == UninstallOperation ==> Position(j.phase) < Position(ArtifactsRemoved) || h.staged == {})
    && (j.operation == ApplyOperation ==> Position(j.phase) < Position(InstanceReady) || h.ready)
  }

  /**
   A transaction that reports success has finished, with its service and its files, if and only if
   it was resumed on a host that matches the work already recorded.
   */
  lemma FinishedIff(h: Host, j: Journal, answers: seq<Answer>)
    requires DiskInv(h) && h.journal == Some(j) && JournalOk(j) && Exec(h, j, Program(j), answers).outcome == Done
    ensures Finished(Exec(h, j, Program(j), answers).host, j) <==> ResumesClean(h, j)
  {
    hide DiskInv, JournalOk, Do, Program, Exec, Committed;
    ProgramSound(h, j, answers);
    ProgramTracks(h, j, answers);
  }

  /** For the definition on its own. */
  lemma DefinitionAfterResume(h: Host, j: Journal, answers: seq<Answer>)
    requires DiskInv(h) && h.journal == Some(j) && JournalOk(j) && Deploys(j) && Exec(h, j, Program(j), answers).outcome == Done
    ensures Exec(h, j, Program(j), answers).host.definition == j.desired
       <==> Position(j.phase) < Position(DefinitionInstalled) || h.definition == j.desired
  {
    hide DiskInv, JournalOk, Program, Exec;
    ProgramTracks(h, j, answers);
  }

  /** For the running service on its own. */
  lemma RunningAfterResume(h: Host, j: Journal, answers: seq<Answer>)
    requires DiskInv(h) && h.journal == Some(j) && JournalOk(j) && Deploys(j) && Exec(h, j, Program(j), answers).outcome == Done
    ensures Exec(h, j, Program(j), answers).host.running == j.desired
       <==> Position(j.phase) < Position(HealthVerified) || h.running == j.desired
  {
    hide DiskInv, JournalOk, Program, Exec;
    ProgramTracks(h, j, answers);
  }

  // ----- The rollback target -----------------------------------------------------------------------

  /**
   Whatever the saved state relies on is still staged, in every disk state up to the point where an
   uninstall has recorded that it removes artifacts.
   */
  lemma RollbackTargetIsKept(h: Host)
    requires DiskInv(h) && h.state.Some? && (h.journal.Some? ==> !Removing(h.journal.value))
    ensures Kept(h.staged, h.state.value)
  {
    if h.journal.Some? && h.state != h.journal.value.prior {
      var j := h.journal.value;
      assert h.state == Some(Committed(j));
    }
  }

  // ----- Commands ----------------------------------------------------------------------------------

  /** A command with what the host's service manager answered to it. */
  datatype Command =
    | Apply(desired: Release, manager: Manager, path: Option<nat>, sources: nat)
    | Rollback(manager: Manager, path: Option<nat>)
    | Uninstall

  /** The environment of one command: the answer to its first write, to its run, and to a compensation. */
  datatype Env = Env(first: Answer, answers: seq<Answer>, attested: bool, undo: seq<Answer>)

  predicate ManagerOk(m: Manager, path: Option<nat>) {
    (Native(m) || m == ForegroundManager) && (Native(m) <==> path.Some?)
  }

  predicate CommandOk(c: Command) {
    match c
    case Apply(_, m, path, _) => ManagerOk(m, path)
    case Rollback(m, path) => ManagerOk(m, path)
    case Uninstall => true
  }

  datatype Decision =
    | Refuse
    | Unchanged
    | Restage(release: Release)
    | RecordUninstalled
    | Begin(journal: Journal)
    | Resume(journal: Journal, rebound: bool)

  function Decide(h: Host, c: Command): Decision {
    match h.journal
    case Some(j) => (
      match c
      case Apply(desired, m, path, sources) =>
        if j.operation != ApplyOperation || j.desired != Some(desired) || j.manager != m || j.path != path then Refuse
        else if j.phase == Planned && j.sources != sources then Resume(j.(sources := sources), true)
        else Resume(j, false)
      case Rollback(_, _) => if j.operation == RollbackOperation then Resume(j, false) else Refuse
      case Uninstall => if j.operation == UninstallOperation then Resume(j, false) else Refuse
    )
    case None => (
      match c
      case Apply(desired, m, path, sources) =>
        if h.state.Some? && h.state.value.status == ActiveStatus && !Native(m) then Refuse
        else if h.state.Some? && h.state.value.active == Some(desired) && h.state.value.manager == m then Restage(desired)
        else Begin(Journal(ApplyOperation, Planned, m, path, sources, Some(desired), h.state))
      case Rollback(m, path) =>
        if h.state.None? || h.state.value.active.None? || h.state.value.previous.None? || h.state.value.status == UninstalledStatus then Refuse
        else if h.state.value.active.value.schema != h.state.value.previous.value.schema then Refuse
        else if h.state.value.previous.value !in h.staged then Refuse
        else if h.state.value.status == ActiveStatus && !Native(m) then Refuse
        else Begin(Journal(RollbackOperation, Planned, m, path, 0, h.state.value.previous, h.state))
      case Uninstall =>
        if h.state.None? then RecordUninstalled
        else if h.state.value.status == UninstalledStatus then Unchanged
        else Begin(Journal(UninstallOperation, Planned, h.state.value.manager, h.state.value.path, 0, None, h.state))
    )
  }

  const NEVER_INSTALLED := State(1, UninstalledStatus, NoManager, None, None, None)

  /** A single write: it happened or it did not. */
  function Written(before: Host, after: Host, answer: Answer): Host {
    if answer.ending in {Fine, FailAfter, CrashAfter} then after else before
  }

  /** The journal a command runs, once it is on disk. */
  function RunJournal(h: Host, j: Journal, save: bool, env: Env): Host
    requires JournalOk(j)
  {
    if save && env.first.ending != Fine then Written(h, h.(journal := Some(j)), env.first)
    else Invoke(h.(journal := Some(j)), j, env.answers, env.attested, env.undo).host
  }

  function RunCommand(h: Host, c: Command, env: Env): Host {
    match Decide(h, c)
    case Refuse => h
    case Unchanged => h
    case Restage(r) => Written(h, h.(staged := h.staged + {r}), env.first)
    case RecordUninstalled => Written(h, h.(state := Some(NEVER_INSTALLED)), env.first)
    case Begin(j) => if JournalOk(j) then RunJournal(h, j, true, env) else h
    case Resume(j, rebound) => if JournalOk(j) then RunJournal(h, j, rebound, env) else h
  }

  /** The state as it was before the transaction in flight, if there is one. */
  function Base(h: Host): Option<State> {
    if h.journal.Some? then h.journal.value.prior else h.state
  }

  function Generation(s: Option<State>): nat {
    if s.None? then 0 else s.value.generation
  }

  /** A command leaves the state before it in force, or takes it exactly one generation on. */
  predicate OneStep(h: Host, g: Host) {
    Base(g) == Base(h) || (g.journal.None? && Generation(Base(g)) == Generation(Base(h)) + 1)
  }

  lemma BegunIsInOrder(h: Host, c: Command)
    requires DiskInv(h) && CommandOk(c) && Decide(h, c).Begin?
    ensures var j := Decide(h, c).journal;
            JournalOk(j) && DiskInv(h.(journal := Some(j))) && Base(h.(journal := Some(j))) == Base(h)
  {
  }

  lemma ReboundIsInOrder(h: Host, c: Command)
    requires DiskInv(h) && CommandOk(c) && Decide(h, c).Resume?
    ensures var j := Decide(h, c).journal;
            JournalOk(j) && DiskInv(h.(journal := Some(j))) && Base(h.(journal := Some(j))) == Base(h)
            && (!Decide(h, c).rebound ==> h.(journal := Some(j)) == h)
  {
  }

  lemma CommittedGeneration(j: Journal)
    requires JournalOk(j) && StateOk(Committed(j))
    ensures Committed(j).generation == Generation(j.prior) + 1
  {
  }

  lemma RunJournalSound(h: Host, j: Journal, save: bool, env: Env)
    requires DiskInv(h) && JournalOk(j) && DiskInv(h.(journal := Some(j))) && j.prior == Base(h)
    ensures DiskInv(RunJournal(h, j, save, env)) && OneStep(h, RunJournal(h, j, save, env))
  {
    hide StateOk, JournalOk, SavedMatches, StagedMatches, Kept, Invoke, Committed;
    var g := h.(journal := Some(j));
    JournalShape(j);
    InvokeSound(g, j, env.answers, env.attested, env.undo);
    var r := Invoke(g, j, env.answers, env.attested, env.undo);
    if r.host.journal.None? && r.host.state == Some(Committed(j)) {
      CommittedGeneration(j);
    }
  }

  /** Every command, however it ends, keeps the disk in order and moves the generation by at most one. */
  lemma CommandKeepsInv(h: Host, c: Command, env: Env)
    requires DiskInv(h) && CommandOk(c)
    ensures DiskInv(RunCommand(h, c, env)) && OneStep(h, RunCommand(h, c, env))
  {
    match Decide(h, c)
    case Refuse =>
    case Unchanged =>
    case Restage(r) => RestageKeepsInv(h, r);
    case RecordUninstalled =>
    case Begin(j) =>
      BegunIsInOrder(h, c);
      RunJournalSound(h, j, true, env);
    case Resume(j, rebound) =>
      ReboundIsInOrder(h, c);
      RunJournalSound(h, j, rebound, env);
  }

  lemma RestageKeepsInv(h: Host, r: Release)
    requires DiskInv(h) && h.journal.None?
    ensures DiskInv(h.(staged := h.staged + {r}))
  {
  }

  // ----- Whole histories ------------------------------------------------------------------------------

  ghost predicate IsHistory(hosts: seq<Host>, commands: seq<Command>, envs: seq<Env>) {
    && |hosts| == |commands| + 1 && |envs| == |commands| && hosts[0] == FRESH
    && (forall i | 0 <= i < |commands| :: CommandOk(commands[i]))
    && (forall i | 0 <= i < |commands| :: hosts[i + 1] == RunCommand(hosts[i], commands[i], envs[i]))
  }

  /** In every reachable disk state the saved state is the one its journal's phase says. */
  lemma {:induction false} HistoriesAreSafe(hosts: seq<Host>, commands: seq<Command>, envs: seq<Env>, k: nat)
    requires IsHistory(hosts, commands, envs) && k < |hosts|
    ensures DiskInv(hosts[k])
    ensures k > 0 ==> OneStep(hosts[k - 1], hosts[k])
  {
    hide DiskInv, OneStep, RunCommand;
    if k == 0 {
      assert DiskInv(FRESH) by { FreshIsInOrder(); }
    } else {
      HistoriesAreSafe(hosts, commands, envs, k - 1);
      assert hosts[k - 1 + 1] == RunCommand(hosts[k - 1], commands[k - 1], envs[k - 1]);
      CommandKeepsInv(hosts[k - 1], commands[k - 1], envs[k - 1]);
    }
  }

  lemma FreshIsInOrder()
    ensures DiskInv(FRESH)
  {
  }

  /**
   Between journal-free points the generation never decreases; with no journal-free point in
   between, it is unchanged together with the whole state, or exactly one more.
   */
  lemma {:induction false} GenerationsStepByOne(hosts: seq<Host>, commands: seq<Command>, envs: seq<Env>, i: nat, k: nat)
    requires IsHistory(hosts, commands, envs) && i <= k < |hosts| && hosts[i].journal.None? && hosts[k].journal.None?
    ensures Generation(hosts[i].state) <= Generation(hosts[k].state)
    ensures (forall m | i < m < k :: hosts[m].journal.Some?) ==>
              hosts[k].state == hosts[i].state || Generation(hosts[k].state) == Generation(hosts[i].state) + 1
  {
    BasesStep(hosts, commands, envs, i, k);
  }

  lemma {:induction false} BasesStep(hosts: seq<Host>, commands: seq<Command>, envs: seq<Env>, i: nat, k: nat)
    requires IsHistory(hosts, commands, envs) && i <= k < |hosts|
    ensures Generation(Base(hosts[i])) <= Generation(Base(hosts[k]))
    ensures (forall m | i < m < k :: hosts[m].journal.Some?) ==>
              || Base(hosts[k]) == Base(hosts[i])
              || (hosts[k].journal.None? && Generation(Base(hosts[k])) == Generation(Base(hosts[i])) + 1)
    decreases k - i
  {
    hide Base, Generation, RunCommand;
    if i < k {
      BasesStep(hosts, commands, envs, i, k - 1);
      HistoriesAreSafe(hosts, commands, envs, k);
    }
  }

  // ----- Rollback undoes apply -----------------------------------------------------------------------

  /** A command that changed the state and left no journal has committed the journal it began. */
  lemma ChangedMeansCommitted(h: Host, c: Command, env: Env)
    requires DiskInv(h) && CommandOk(c) && h.journal.None? && Decide(h, c).Begin?
    requires RunCommand(h, c, env).journal.None? && RunCommand(h, c, env).state != h.state
    ensures JournalOk(Decide(h, c).journal) && RunCommand(h, c, env).state == Some(Committed(Decide(h, c).journal))
  {
    BegunIsInOrder(h, c);
    var j := Decide(h, c).journal;
    assert j.prior == h.state;
    InvokeSound(h.(journal := Some(j)), j, env.answers, env.attested, env.undo);
    hide DiskInv, JournalOk, Invoke, Committed;
  }

  /**
   Round trip: after an apply that replaced a release and a rollback that both took effect, however
   their runs went, the replaced release is active again, the applied one is kept for the next
   rollback, and the generation has moved on by two.
   */
  lemma RollbackUndoesApply(h: Host, desired: Release, m: Manager, path: Option<nat>, sources: nat, first: Env,
                            back: Manager, backPath: Option<nat>, second: Env)
    requires DiskInv(h) && h.journal.None? && h.state.Some? && h.state.value.active.Some? && h.state.value.active.value.manifest != desired.manifest
    requires CommandOk(Apply(desired, m, path, sources)) && CommandOk(Rollback(back, backPath))
    requires var g := RunCommand(h, Apply(desired, m, path, sources), first);
             && g.journal.None? && g.state != h.state
             && var k := RunCommand(g, Rollback(back, backPath), second); k.journal.None? && k.state != g.state
    ensures var k := RunCommand(RunCommand(h, Apply(desired, m, path, sources), first), Rollback(back, backPath), second);
            && k.state.Some? && k.state.value.active == h.state.value.active && k.state.value.previous == Some(desired)
            && k.state.value.generation == h.state.value.generation + 2
  {
    var apply, roll := Apply(desired, m, path, sources), Rollback(back, backPath);
    var g := RunCommand(h, apply, first);
    CommandKeepsInv(h, apply, first);
    assert Decide(h, apply).Begin? by { ApplyBegins(h, desired, m, path, sources, first); }
    ChangedMeansCommitted(h, apply, first);
    var k := RunCommand(g, roll, second);
    CommandKeepsInv(g, roll, second);
    assert Decide(g, roll).Begin? by { RollbackBegins(g, back, backPath, second); }
    ChangedMeansCommitted(g, roll, second);
    hide DiskInv, RunCommand;
    assert StateOk(g.state.value) && StateOk(k.state.value) by { SavedIsOk(g); SavedIsOk(k); }
    CommittedGeneration(Decide(h, apply).journal);
    CommittedGeneration(Decide(g, roll).journal);
  }

  lemma SavedIsOk(h: Host)
    requires DiskInv(h) && h.state.Some?
    ensures StateOk(h.state.value)
  {
  }

  lemma ApplyBegins(h: Host, desired: Release, m: Manager, path: Option<nat>, sources: nat, env: Env)
    requires h.journal.None? && RunCommand(h, Apply(desired, m, path, sources), env).state != h.state
    ensures Decide(h, Apply(desired, m, path, sources)).Begin?
  {
  }

  lemma RollbackBegins(h: Host, m: Manager, path: Option<nat>, env: Env)
    requires h.journal.None? && RunCommand(h, Rollback(m, path), env).state != h.state
    ensures Decide(h, Rollback(m, path)).Begin?
  {
  }
}
