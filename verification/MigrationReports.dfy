/** What a poll reports (src/v3/migration_manager.cpp), in terms of the steps that workers and the device have taken:
    which transfers complete, fail or are discarded; and the order of the queue in terms of what was submitted. */
module MigrationReports {
  import opened Common
  import opened CacheDirectories
  import opened MigrationProtocol
  import opened MigrationSafety
  import opened MigrationOutcomes

  // ---------------------------------------------------------------- what has become of a transfer

  /** A source on disk may turn out not to be there, or not to be the chunk's. */
  predicate Readable(s: System, id: nat)
    requires id in s.tasks
  {
    var t := s.tasks[id];
    t.source == NVME ==> t.sourceLoc.slot in s.files && s.files[t.sourceLoc.slot].key == t.key
  }

  /** What a step makes of task `id`: a worker or the device has moved its bytes or failed to, or a worker has found
      that it need not. */
  function Decides(s: System, step: Step, id: nat): Option<Outcome> {
    match step
    case Io(w, ok, _) =>
      if w < |s.workers| && s.workers[w] == Working(id) && id in s.tasks
      then Some(if ok && Readable(s, id) then Succeeded else Failed) else None
    case Dma(moved, ok, _) =>
      if moved == id && id in s.tasks then Some(if ok && Readable(s, id) then Succeeded else Failed) else None
    case Check(w) =>
      if w < |s.workers| && s.workers[w] == Took(id) && id in s.tasks && s.tasks[id].cancelRequested
      then Some(Succeeded) else None
    case _ => None
  }

  /** The last such step before time `n`. */
  ghost function Decision(trace: seq<System>, steps: seq<Step>, n: nat, id: nat): Outcome
    requires |trace| == |steps| + 1 && n <= |steps|
  {
    if n == 0 then Pending
    else
      match Decides(trace[n - 1], steps[n - 1], id)
      case Some(o) => o
      case None => Decision(trace, steps, n - 1, id)
  }

  lemma SourceReadable(s: System, id: nat)
    requires Inv(s) && s.Live(id)
    ensures SourceContent(s, s.tasks[id]).Some? <==> Readable(s, id)
  {
    UnfoldInv(s);
    var t := s.tasks[id];
    assert Held(s.dir, t);
    assert IsLive(s.dir.Tier(t.source), s.dir.ReplicaOf(t.key, t.source).location);
  }

  lemma WorkerDecides(s: System, step: Step, u: System, id: nat)
    requires Inv(s) && WorkerNext(s, step, u) && id in s.tasks
    ensures id in u.tasks
    ensures u.tasks[id].outcome == match Decides(s, step, id) case Some(o) => o case None => s.tasks[id].outcome
  {
    match step {
      case Take(w, _) =>
      case Check(w) =>
      case Io(w, ok, junk) =>
        WorkersOwn(s, w);
        SourceReadable(s, s.workers[w].id);
        MovedKeepsJobs(s, s.workers[w].id, ok, junk);
      case Dma(moved, ok, junk) =>
        SourceReadable(s, moved);
        MovedKeepsJobs(s, moved, ok, junk);
    }
  }

  lemma OthersDecideNothing(s: System, step: Step, u: System, id: nat)
    requires Inv(s) && Next(s, step, u) && !WorkerNext(s, step, u) && id in s.tasks
    ensures id in u.tasks && u.tasks[id].outcome == s.tasks[id].outcome && Decides(s, step, id).None?
  {
    UnfoldInv(s);
    if CancelNext(s, step, u) {
      CancelDecidesNothing(s, step, u, id);
    } else if ClientNext(s, step, u) {
      ClientSameTasks(s, step, u);
    } else if step.Poll? {
      PollEnds(s, step.id, u);
    } else {
      SubmitAddsOne(s, step, u);
    }
  }

  lemma CancelDecidesNothing(s: System, step: Step, u: System, id: nat)
    requires Inv(s) && CancelNext(s, step, u) && id in s.tasks
    ensures id in u.tasks && u.tasks[id].outcome == s.tasks[id].outcome
  {
    UnfoldInv(s);
    if step.CancelLock? && s.owner.Flagged? && s.owner.id in s.queue {
      CancelLockEnds(s, u);
    } else {
      FlagsKeepJobs(s, step, u);
    }
  }

  lemma NewIsPending(s: System, step: Step, u: System, id: nat)
    requires Inv(s) && Next(s, step, u) && id !in s.tasks && id in u.tasks
    ensures step.Submit? && id == s.nextId && u.tasks[id].outcome == Pending && Decides(s, step, id).None?
  {
    UnfoldInv(s);
    if CancelNext(s, step, u) {
      if step.CancelLock? && s.owner.Flagged? && s.owner.id in s.queue {
        CancelLockEnds(s, u);
      } else {
        FlagsKeepJobs(s, step, u);
      }
    } else if WorkerNext(s, step, u) {
      WorkerKeepsInv(s, step, u);
    } else if ClientNext(s, step, u) {
      ClientSameTasks(s, step, u);
    } else if step.Poll? {
      PollEnds(s, step.id, u);
    } else if step.SubmitRolledBack? {
      SpiltSizes(s, step.key, step.destination, step.loc.slot, step.spilt);
    }
  }

  lemma TakesStep(trace: seq<System>, steps: seq<Step>, n: nat)
    requires Run(trace, steps) && n < |steps|
    ensures Inv(trace[n]) && Next(trace[n], steps[n], trace[n + 1])
  {
    RunKeepsInv(trace, steps, n);
    assert StepAt(trace, steps, n);
  }

  lemma {:induction false} OutcomeIsDecision(trace: seq<System>, steps: seq<Step>, n: nat, id: nat)
    requires Run(trace, steps) && n < |trace|
    ensures if id in trace[n].tasks then trace[n].tasks[id].outcome == Decision(trace, steps, n, id)
            else Decision(trace, steps, n, id) == Pending
  {
    if n > 0 {
      OutcomeIsDecision(trace, steps, n - 1, id);
      TakesStep(trace, steps, n - 1);
      StepDecides(trace[n - 1], steps[n - 1], trace[n], id);
    }
  }

  lemma StepDecides(s: System, step: Step, u: System, id: nat)
    requires Inv(s) && Next(s, step, u)
    ensures id in s.tasks ==>
              id in u.tasks
              && u.tasks[id].outcome == match Decides(s, step, id) case Some(o) => o case None => s.tasks[id].outcome
    ensures id !in s.tasks ==> Decides(s, step, id).None? && (id in u.tasks ==> u.tasks[id].outcome == Pending)
  {
    if id in s.tasks {
      if WorkerNext(s, step, u) {
        WorkerDecides(s, step, u, id);
      } else {
        OthersDecideNothing(s, step, u, id);
      }
    } else if id in u.tasks {
      NewIsPending(s, step, u, id);
    }
  }

  // ---------------------------------------------------------------- what a poll reports

  /** In any run: polling a running task leaves it running while nothing has become of its transfer; reports FAILED if
      the transfer failed; and if it arrived, or was found to be unwanted, CANCELLED or COMPLETED as it was flagged or
      not. */
  lemma PollReports(trace: seq<System>, steps: seq<Step>, n: nat, id: nat)
    requires Run(trace, steps) && n < |steps| && steps[n] == MigrationProtocol.Poll(id)
    requires id in trace[n].tasks && trace[n].tasks[id].state == RUNNING
    ensures id in trace[n + 1].tasks
    ensures trace[n + 1].tasks[id].state ==
            match Decision(trace, steps, n, id)
            case Pending => RUNNING
            case Failed => FAILED
            case Succeeded => if trace[n].tasks[id].cancelRequested then CANCELLED else COMPLETED
  {
    RunKeepsInv(trace, steps, n);
    OutcomeIsDecision(trace, steps, n, id);
    assert StepAt(trace, steps, n);
    PollSettles(trace[n], id, trace[n + 1]);
  }

  lemma PollSettles(s: System, id: nat, u: System)
    requires Inv(s) && Next(s, MigrationProtocol.Poll(id), u) && id in s.tasks && s.tasks[id].state == RUNNING
    ensures id in u.tasks
    ensures u.tasks[id].state ==
            match s.tasks[id].outcome
            case Pending => RUNNING
            case Failed => FAILED
            case Succeeded => if s.tasks[id].cancelRequested then CANCELLED else COMPLETED
  {
    PollEnds(s, id, u);
    RunningTask(s, id);
  }

  /** Only its owner's poll ends a running task. */
  lemma RunsOn(s: System, step: Step, u: System, id: nat)
    requires Inv(s) && Next(s, step, u) && id in s.tasks && s.tasks[id].state == RUNNING
    requires step != MigrationProtocol.Poll(id)
    ensures id in u.tasks && u.tasks[id].state == RUNNING
  {
    UnfoldInv(s);
    if CancelNext(s, step, u) {
      CancelKeepsQueued(s, step, u, id);
    } else if WorkerNext(s, step, u) {
      WorkerKeepsRunning(s, step, u, id);
    } else if ClientNext(s, step, u) {
      ClientSameTasks(s, step, u);
    } else if step.Poll? {
      PollEnds(s, step.id, u);
    } else {
      SubmitAddsOne(s, step, u);
    }
  }

  lemma WorkerKeepsRunning(s: System, step: Step, u: System, id: nat)
    requires WorkerNext(s, step, u) && id in s.tasks && s.tasks[id].state == RUNNING
    ensures id in u.tasks && u.tasks[id].state == RUNNING
  {
    match step {
      case Take(_, _) =>
      case Check(_) =>
      case Io(w, ok, junk) => MovedKeepsJobs(s, s.workers[w].id, ok, junk);
      case Dma(moved, ok, junk) => MovedKeepsJobs(s, moved, ok, junk);
    }
  }

  /** What has become of a transfer is decided once. */
  lemma DecidedOnce(s: System, step: Step, u: System, id: nat)
    requires Inv(s) && Next(s, step, u) && id in s.tasks && s.tasks[id].outcome != Pending
    ensures Decides(s, step, id).None?
  {
    if WorkerNext(s, step, u) {
      if step.Io? || step.Check? { WorkersOwn(s, step.worker); }
    } else {
      OthersDecideNothing(s, step, u, id);
    }
  }

  lemma DecidingTask(s: System, step: Step, u: System, id: nat)
    requires Inv(s) && Next(s, step, u) && Decides(s, step, id).Some?
    ensures id in s.tasks && s.tasks[id].state == RUNNING && id in u.tasks && u.tasks[id].state == RUNNING
    ensures Decides(s, step, id) == Some(u.tasks[id].outcome) && u.tasks[id].outcome != Pending
  {
    StepDecides(s, step, u, id);
    if !WorkerNext(s, step, u) { OthersDecideNothing(s, step, u, id); }
    if step.Io? || step.Check? { WorkersOwn(s, step.worker); }
    WorkerKeepsRunning(s, step, u, id);
  }

  lemma {:induction false} StillDecided(trace: seq<System>, steps: seq<Step>, i: nat, j: nat, id: nat)
    requires Run(trace, steps) && i < j < |trace| && Decides(trace[i], steps[i], id).Some?
    requires forall k :: i < k < j ==> steps[k] != MigrationProtocol.Poll(id)
    ensures id in trace[j].tasks && trace[j].tasks[id].state == RUNNING
    ensures Decides(trace[i], steps[i], id) == Some(trace[j].tasks[id].outcome) && trace[j].tasks[id].outcome != Pending
  {
    TakesStep(trace, steps, j - 1);
    if i == j - 1 {
      DecidingTask(trace[i], steps[i], trace[j], id);
    } else {
      StillDecided(trace, steps, i, j - 1, id);
      RunsOn(trace[j - 1], steps[j - 1], trace[j], id);
      StepDecides(trace[j - 1], steps[j - 1], trace[j], id);
      DecidedOnce(trace[j - 1], steps[j - 1], trace[j], id);
    }
  }

  /** When a transfer has run, the next poll of its task reports how it went: COMPLETED when it went well, unless the
      task has been flagged meanwhile; FAILED when it did not, or had nothing to read. */
  lemma TransferDecides(trace: seq<System>, steps: seq<Step>, i: nat, j: nat, id: nat, ok: bool)
    requires Run(trace, steps) && i < j < |steps| && id in trace[i].tasks
    requires || (steps[i].Dma? && steps[i].id == id && steps[i].ok == ok)
             || (steps[i].Io? && steps[i].worker < |trace[i].workers|
                 && trace[i].workers[steps[i].worker] == Working(id)
                 && steps[i].ok == ok)
    requires steps[j] == MigrationProtocol.Poll(id)
             && forall k :: i < k < j ==> steps[k] != MigrationProtocol.Poll(id)
    ensures id in trace[j].tasks && id in trace[j + 1].tasks
    ensures trace[j + 1].tasks[id].state ==
            if !ok || !Readable(trace[i], id) then FAILED
            else if trace[j].tasks[id].cancelRequested then CANCELLED
            else COMPLETED
  {
    StillDecided(trace, steps, i, j, id);
    RunKeepsInv(trace, steps, j);
    assert StepAt(trace, steps, j);
    PollSettles(trace[j], id, trace[j + 1]);
  }

  // ---------------------------------------------------------------- what was submitted

  /** A task keeps what it was submitted with. */
  lemma TaskIsAsSubmitted(trace: seq<System>, steps: seq<Step>, i: nat, j: nat)
    requires Run(trace, steps) && i < |steps| && steps[i].Submit? && i < j < |trace|
    ensures var id := trace[i].nextId;
            && id in trace[j].tasks
            && var t := trace[j].tasks[id];
               && t.key == steps[i].key && t.source == steps[i].source && t.destination == steps[i].destination
               && t.destinationLoc == steps[i].loc && t.priority == steps[i].priority
               && trace[i].dir.HasReplica(t.key, t.source)
               && t.sourceLoc == trace[i].dir.ReplicaOf(t.key, t.source).location
  {
    assert StepAt(trace, steps, i);
    RunFollows(trace, steps, i + 1, j, trace[i].nextId);
  }

  lemma {:induction false} IdsGrow(trace: seq<System>, steps: seq<Step>, i: nat, j: nat)
    requires Run(trace, steps) && i <= j < |trace|
    ensures trace[i].nextId <= trace[j].nextId
    ensures i < j && steps[i].Submit? ==> trace[i].nextId < trace[j].nextId
  {
    if i < j {
      IdsGrow(trace, steps, i, j - 1);
      TakesStep(trace, steps, j - 1);
      StepKeepsNextId(trace[j - 1], steps[j - 1], trace[j]);
    }
  }

  lemma StepKeepsNextId(s: System, step: Step, u: System)
    requires Inv(s) && Next(s, step, u)
    ensures u.nextId >= s.nextId && (step.Submit? ==> u.nextId == s.nextId + 1)
  {
    if CancelNext(s, step, u) {
      if step.CancelLock? && s.owner.Flagged? && s.owner.id in s.queue {
        CancelLockEnds(s, u);
      } else {
        FlagsKeepJobs(s, step, u);
      }
    } else if WorkerNext(s, step, u) {
      WorkerKeepsInv(s, step, u);
    } else if ClientNext(s, step, u) {
      ClientSameTasks(s, step, u);
    } else if step.Poll? {
      PollEnds(s, step.id, u);
    }
  }

  /** Of two tasks waiting at one time, the one submitted with the higher priority, or with the same and earlier, is
      never overtaken: while it waits, the other one waits too or has been cancelled. */
  lemma SubmittedFirstRunsFirst(trace: seq<System>, steps: seq<Step>, x: nat, y: nat, i: nat, j: nat)
    requires Run(trace, steps) && x < i && y < i && i <= j < |trace| && x != y && steps[x].Submit? && steps[y].Submit?
    requires steps[x].priority > steps[y].priority || (steps[x].priority == steps[y].priority && x < y)
    requires var a, b := trace[x].nextId, trace[y].nextId;
             && a in trace[j].tasks && trace[j].tasks[a].state == QUEUED
             && b in trace[i].tasks && trace[i].tasks[b].state == QUEUED
    ensures var b := trace[y].nextId; b in trace[j].tasks && trace[j].tasks[b].state in {QUEUED, CANCELLED}
  {
    TaskIsAsSubmitted(trace, steps, x, i);
    TaskIsAsSubmitted(trace, steps, y, i);
    if x < y { IdsGrow(trace, steps, x, y); } else { IdsGrow(trace, steps, y, x); }
    NeverOvertaken(trace, steps, i, j, trace[x].nextId, trace[y].nextId);
  }
}
