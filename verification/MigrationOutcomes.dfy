/** What a migration comes to, over whole runs of the engine: outcomes, safety of slots under transfer,
    cancellation, and the order of the queue (src/v3/migration_manager.cpp). */
module MigrationOutcomes {
  import opened Common
  import opened CacheDirectories
  import opened MigrationProtocol
  import opened MigrationSafety

  // ---------------------------------------------------------------- slots under transfer

  /** Nobody can be handed the slot, and the directory refuses to drop the replica or destroy the chunk. */
  ghost predicate Protected(d: Directory, key: CacheKey, t: StorageTier, loc: Location) {
    && d.HasReplica(key, t) && d.ReplicaOf(key, t).location == loc && IsLive(d.Tier(t), loc)
    && !IsReady(d, key, t) && !Removable(d, key, t) && !Destroyable(d, key)
    && (forall other: Location :: other.slot == loc.slot ==> !CanAllocate(d.Tier(t), other))
    && (forall k :: k != key && d.HasReplica(k, t) ==> d.ReplicaOf(k, t).location.slot != loc.slot)
  }

  /** In every reachable state, a chunk has at most one unfinished migration; both of its slots keep their
      generation, belong to nobody else, and can be neither reused nor dropped; the chunk is pinned. */
  lemma MigrationIsProtected(trace: seq<System>, steps: seq<Step>, i: nat, id: nat)
    requires Run(trace, steps) && i < |trace| && trace[i].Live(id)
    ensures var s := trace[i]; var t := s.tasks[id];
            && Protected(s.dir, t.key, t.source, t.sourceLoc)
            && Protected(s.dir, t.key, t.destination, t.destinationLoc)
            && PinCount(s.dir, t.key) == ClientPins(s, t.key) + 1
            && (forall other :: s.Live(other) && s.tasks[other].key == t.key ==> other == id)
  {
    RunKeepsInv(trace, steps, i);
    UnfoldInv(trace[i]);
    var s := trace[i];
    var t := s.tasks[id];
    assert Held(s.dir, t);
    LiveIsInFlight(s, id);
    LiveIsSettleable(s, id);
    assert IsLive(s.dir.Tier(t.source), s.dir.ReplicaOf(t.key, t.source).location);
    assert IsLive(s.dir.Tier(t.destination), s.dir.ReplicaOf(t.key, t.destination).location);
  }

  /** Once nothing migrates a chunk, exactly the clients' own pins are left on it. */
  lemma PinsComeBack(trace: seq<System>, steps: seq<Step>, i: nat, key: CacheKey)
    requires Run(trace, steps) && i < |trace| && !Migrating(trace[i], key)
    ensures PinCount(trace[i].dir, key) == ClientPins(trace[i], key)
  {
    RunKeepsInv(trace, steps, i);
    UnfoldInv(trace[i]);
  }

  /** An unreported task is queued, or in the hands of exactly one worker, or on its way through the device. */
  lemma NothingIsLost(trace: seq<System>, steps: seq<Step>, i: nat, id: nat)
    requires Run(trace, steps) && i < |trace| && trace[i].Live(id) && trace[i].tasks[id].outcome == Pending
    ensures var s := trace[i];
            if s.tasks[id].state == QUEUED then id in s.queue
            else if s.tasks[id].UsesCuda() then Next(s, Dma(id, false, None), Moved(s, id, false, None))
            else exists w :: 0 <= w < |s.workers| && Holds(s.workers[w], id)
                   && forall v :: 0 <= v < |s.workers| && Holds(s.workers[v], id) ==> v == w
  {
    RunKeepsInv(trace, steps, i);
    UnfoldInv(trace[i]);
    var s := trace[i];
    if s.tasks[id].state == RUNNING && !s.tasks[id].UsesCuda() {
      OneWorker(s, id);
    } else if s.tasks[id].state == RUNNING {
      assert WorkerNext(s, Dma(id, false, None), Moved(s, id, false, None));
    }
  }

  lemma OneWorker(s: System, id: nat)
    requires WorkersOk(s) && AwaitsWorker(s, id)
    ensures exists w :: 0 <= w < |s.workers| && Holds(s.workers[w], id)
              && forall v :: 0 <= v < |s.workers| && Holds(s.workers[v], id) ==> v == w
  {
    assert HasWorker(s, id);
    var w :| 0 <= w < |s.workers| && Holds(s.workers[w], id);
    forall v | 0 <= v < |s.workers| && Holds(s.workers[v], id) ensures v == w {
      assert s.workers[v] != Waiting && s.workers[w] != Waiting && s.workers[v].id == s.workers[w].id;
    }
  }

  // ---------------------------------------------------------------- one step, seen from one task

  ghost predicate Follows(s: System, u: System, id: nat) {
    id in s.tasks ==> id in u.tasks && Grows(s.tasks[id], u.tasks[id])
  }

  lemma EndFollows(s: System, u: System, ended: nat, state: MigrationState, id: nat)
    requires EndsTask(s, u, ended, state)
    ensures Follows(s, u, id)
  {
  }

  lemma CancelFollows(s: System, step: Step, u: System, id: nat)
    requires Inv(s) && CancelNext(s, step, u)
    ensures Follows(s, u, id)
  {
    UnfoldInv(s);
    if step.CancelLock? && s.owner.Flagged? && s.owner.id in s.queue {
      CancelLockEnds(s, u);
      EndFollows(s, u, s.owner.id, CANCELLED, id);
    } else {
      CancelKeepsTables(s, step, u);
    }
  }

  lemma PollFollows(s: System, polled: nat, u: System, id: nat)
    requires Inv(s) && s.owner == Idle && PollNext(s, polled, u)
    ensures Follows(s, u, id)
  {
    PollEnds(s, polled, u);
    if u != s { EndFollows(s, u, polled, u.tasks[polled].state, id); }
  }

  lemma SubmitFollows(s: System, step: Step, u: System, id: nat)
    requires Inv(s) && SubmitNext(s, step, u)
    ensures Follows(s, u, id)
  {
    UnfoldInv(s);
    SubmitAddsOne(s, step, u);
  }

  lemma SubmitAddsOne(s: System, step: Step, u: System)
    requires s.nextId !in s.tasks && SubmitNext(s, step, u)
    ensures forall id :: id in s.tasks ==> id in u.tasks && u.tasks[id] == s.tasks[id]
  {
    if step.SubmitRolledBack? { SpiltSizes(s, step.key, step.destination, step.loc.slot, step.spilt); }
  }

  lemma ClientFollows(s: System, step: Step, u: System, id: nat)
    requires ClientNext(s, step, u)
    ensures Follows(s, u, id)
  {
    ClientSameTasks(s, step, u);
  }

  lemma StepFollows(s: System, step: Step, u: System, id: nat)
    requires Inv(s) && Next(s, step, u)
    ensures Follows(s, u, id)
  {
    if CancelNext(s, step, u) {
      CancelFollows(s, step, u, id);
    } else if WorkerNext(s, step, u) {
      WorkerKeepsInv(s, step, u);
    } else if ClientNext(s, step, u) {
      ClientFollows(s, step, u, id);
    } else if step.Poll? {
      PollFollows(s, step.id, u, id);
    } else {
      SubmitFollows(s, step, u, id);
    }
  }

  lemma EndKeepsSource(s: System, u: System, ended: nat, state: MigrationState, id: nat)
    requires Inv(s) && EndsTask(s, u, ended, state) && s.Live(id)
    ensures SourceContent(u, s.tasks[id]) == SourceContent(s, s.tasks[id])
  {
    UnfoldInv(s);
    assert Held(s.dir, s.tasks[id]);
    if id != ended { EndKeepsContent(s, u, ended, state, id); }
  }

  lemma MoveKeepsSource(s: System, moved: nat, ok: bool, junk: Option<ChunkFile>, id: nat)
    requires Inv(s) && s.Live(moved) && s.Live(id)
    ensures SourceContent(Moved(s, moved, ok, junk), s.tasks[id]) == SourceContent(s, s.tasks[id])
  {
    UnfoldInv(s);
    if id == moved {
      TransferCopies(s, id, ok, junk);
    } else {
      TransferKeepsOther(s, moved, ok, junk, id);
    }
  }

  lemma WorkerKeepsSource(s: System, step: Step, u: System, id: nat)
    requires Inv(s) && WorkerNext(s, step, u) && s.Live(id)
    ensures SourceContent(u, s.tasks[id]) == SourceContent(s, s.tasks[id])
  {
    match step {
      case Take(_, _) =>
      case Check(_) =>
      case Io(w, ok, junk) =>
        WorkersOwn(s, w);
        MoveKeepsSource(s, s.workers[w].id, ok, junk, id);
      case Dma(moved, ok, junk) => MoveKeepsSource(s, moved, ok, junk, id);
    }
  }

  lemma CancelKeepsSource(s: System, step: Step, u: System, id: nat)
    requires Inv(s) && CancelNext(s, step, u) && s.Live(id)
    ensures SourceContent(u, s.tasks[id]) == SourceContent(s, s.tasks[id])
  {
    UnfoldInv(s);
    if step.CancelLock? && s.owner.Flagged? && s.owner.id in s.queue {
      CancelLockEnds(s, u);
      EndKeepsSource(s, u, s.owner.id, CANCELLED, id);
    } else {
      CancelKeepsTables(s, step, u);
    }
  }

  lemma PollKeepsSource(s: System, polled: nat, u: System, id: nat)
    requires Inv(s) && s.owner == Idle && PollNext(s, polled, u) && s.Live(id)
    ensures SourceContent(u, s.tasks[id]) == SourceContent(s, s.tasks[id])
  {
    UnfoldInv(s);
    PollEnds(s, polled, u);
    if u != s { EndKeepsSource(s, u, polled, u.tasks[polled].state, id); }
  }

  lemma SubmitKeepsSource(s: System, step: Step, u: System, id: nat)
    requires Inv(s) && SubmitNext(s, step, u) && s.Live(id)
    ensures SourceContent(u, s.tasks[id]) == SourceContent(s, s.tasks[id])
  {
    UnfoldInv(s);
    if step.SubmitRolledBack? {
      SpillKeepsTaken(s, step, u);
      HeldIsTaken(s.dir, s.tasks[id]);
    }
  }

  lemma ClientKeepsSource(s: System, step: Step, u: System, id: nat)
    requires Inv(s) && ClientNext(s, step, u) && s.Live(id)
    ensures SourceContent(u, s.tasks[id]) == SourceContent(s, s.tasks[id])
  {
    UnfoldInv(s);
    ClientKeepsEnds(s, step, u, id);
  }

  /** No step changes what the source of an unfinished migration holds, not even the step that ends it. */
  lemma StepKeepsSource(s: System, step: Step, u: System, id: nat)
    requires Inv(s) && Next(s, step, u) && s.Live(id)
    ensures SourceContent(u, s.tasks[id]) == SourceContent(s, s.tasks[id])
  {
    if CancelNext(s, step, u) {
      CancelKeepsSource(s, step, u, id);
    } else if WorkerNext(s, step, u) {
      WorkerKeepsSource(s, step, u, id);
    } else if ClientNext(s, step, u) {
      ClientKeepsSource(s, step, u, id);
    } else if step.Poll? {
      PollKeepsSource(s, step.id, u, id);
    } else {
      SubmitKeepsSource(s, step, u, id);
    }
  }

  // ---------------------------------------------------------------- over runs

  lemma {:induction false} RunFollows(trace: seq<System>, steps: seq<Step>, i: nat, j: nat, id: nat)
    requires Run(trace, steps) && i <= j < |trace| && id in trace[i].tasks
    ensures Follows(trace[i], trace[j], id)
  {
    if i < j {
      RunFollows(trace, steps, i, j - 1, id);
      RunStepFollows(trace, steps, j - 1, id);
      FollowsTrans(trace[i], trace[j - 1], trace[j], id);
    }
  }

  lemma RunStepFollows(trace: seq<System>, steps: seq<Step>, j: nat, id: nat)
    requires Run(trace, steps) && j < |steps|
    ensures Follows(trace[j], trace[j + 1], id)
  {
    RunKeepsInv(trace, steps, j);
    assert StepAt(trace, steps, j);
    StepFollows(trace[j], steps[j], trace[j + 1], id);
  }

  lemma FollowsTrans(s: System, u: System, v: System, id: nat)
    requires id in s.tasks && Follows(s, u, id) && Follows(u, v, id)
    ensures Follows(s, v, id)
  {
  }

  /** COMPLETED, FAILED and CANCELLED are final. */
  lemma TerminalIsFinal(trace: seq<System>, steps: seq<Step>, i: nat, j: nat, id: nat)
    requires Run(trace, steps) && i <= j < |trace| && id in trace[i].tasks && !trace[i].Live(id)
    ensures id in trace[j].tasks && trace[j].tasks[id].state == trace[i].tasks[id].state
  {
    RunFollows(trace, steps, i, j, id);
  }

  lemma LiveBefore(trace: seq<System>, steps: seq<Step>, i: nat, j: nat, id: nat)
    requires Run(trace, steps) && i <= j < |trace| && id in trace[i].tasks && trace[j].Live(id)
    ensures trace[i].Live(id)
  {
    RunFollows(trace, steps, i, j, id);
  }

  lemma RunStepKeepsSource(trace: seq<System>, steps: seq<Step>, i: nat, j: nat, id: nat)
    requires Run(trace, steps) && i <= j < |steps| && id in trace[i].tasks && trace[j].Live(id)
    ensures SourceContent(trace[j + 1], trace[i].tasks[id]) == SourceContent(trace[j], trace[i].tasks[id])
  {
    RunFollows(trace, steps, i, j, id);
    RunKeepsInv(trace, steps, j);
    UnfoldInv(trace[j]);
    assert StepAt(trace, steps, j);
    StepKeepsSource(trace[j], steps[j], trace[j + 1], id);
    SameJobSameSource(trace[j + 1], trace[i].tasks[id], trace[j].tasks[id]);
    SameJobSameSource(trace[j], trace[i].tasks[id], trace[j].tasks[id]);
  }

  /** From its submission until it is over, a migration leaves its source's bytes alone, and so does everyone. */
  lemma {:induction false} SourceIsKept(trace: seq<System>, steps: seq<Step>, i: nat, j: nat, id: nat)
    requires Run(trace, steps) && i < j < |trace| && id in trace[i].tasks && trace[j - 1].Live(id)
    ensures SourceContent(trace[j], trace[i].tasks[id]) == SourceContent(trace[i], trace[i].tasks[id])
  {
    RunStepKeepsSource(trace, steps, i, j - 1, id);
    if i < j - 1 {
      RunFollows(trace, steps, i, j - 2, id);
      LiveBefore(trace, steps, j - 2, j - 1, id);
      SourceIsKept(trace, steps, i, j - 1, id);
    }
  }

  lemma SameJobSameSource(s: System, t: Task, v: Task)
    requires SameJob(t, v)
    ensures SourceContent(s, t) == SourceContent(s, v) && DestinationContent(s, t) == DestinationContent(s, v)
  {
  }

  /** COMPLETED: both replicas READY with the bytes the source had at submission. Otherwise: no destination
      replica, its slot given back, and the source READY as it was. */
  ghost predicate Concluded(s: System, u: System, t: Task, state: MigrationState) {
    && IsReady(u.dir, t.key, t.source) && u.dir.ReplicaOf(t.key, t.source).location == t.sourceLoc
    && SourceContent(u, t) == SourceContent(s, t)
    && (state == COMPLETED ==>
          && IsReady(u.dir, t.key, t.destination) && u.dir.ReplicaOf(t.key, t.destination).location == t.destinationLoc
          && SourceContent(u, t).Some? && DestinationContent(u, t) == SourceContent(u, t))
    && (state != COMPLETED ==>
          !u.dir.HasReplica(t.key, t.destination) && t.destinationLoc.slot !in u.dir.Tier(t.destination).taken)
  }

  /** The one way a task ends. */
  lemma EndingStep(s: System, step: Step, u: System, id: nat)
    requires Inv(s) && Next(s, step, u) && s.Live(id) && !u.Live(id)
    ensures id in u.tasks && EndsTask(s, u, id, u.tasks[id].state)
    ensures u.tasks[id].state == COMPLETED ==> s.tasks[id].outcome == Succeeded && !s.tasks[id].cancelRequested
  {
    UnfoldInv(s);
    if CancelNext(s, step, u) {
      CancelEndsOwn(s, step, u, id);
    } else if WorkerNext(s, step, u) {
      WorkerKeepsInv(s, step, u);
    } else if ClientNext(s, step, u) {
      ClientKeepsSized(s, step, u);
    } else if step.Poll? {
      PollEnds(s, step.id, u);
    } else {
      SubmitEndsNothing(s, step, u, id);
    }
  }

  lemma CancelEndsOwn(s: System, step: Step, u: System, id: nat)
    requires Inv(s) && CancelNext(s, step, u) && s.Live(id) && !u.Live(id)
    ensures EndsTask(s, u, id, CANCELLED) && u.tasks[id].state == CANCELLED
  {
    if step.CancelLock? && s.owner.Flagged? && s.owner.id in s.queue {
      CancelLockEnds(s, u);
    } else {
      FlagsKeepJobs(s, step, u);
    }
  }

  lemma SubmitEndsNothing(s: System, step: Step, u: System, id: nat)
    requires s.nextId !in s.tasks && SubmitNext(s, step, u) && s.Live(id)
    ensures u.Live(id)
  {
  }

  lemma EndConcludes(s: System, u: System, id: nat, state: MigrationState)
    requires Inv(s) && EndsTask(s, u, id, state)
    requires state == COMPLETED ==> s.tasks[id].outcome == Succeeded && !s.tasks[id].cancelRequested
    ensures Concluded(s, u, s.tasks[id], state)
    ensures PinCount(u.dir, s.tasks[id].key) == ClientPins(u, s.tasks[id].key)
  {
    UnfoldInv(s);
    assert Held(s.dir, s.tasks[id]) && Copied(s, s.tasks[id]);
    EndKeepsSource(s, u, id, state, id);
    LiveIsInFlight(s, id);
  }

  lemma StepConcludes(s: System, step: Step, u: System, id: nat)
    requires Inv(s) && Next(s, step, u) && s.Live(id) && !u.Live(id)
    ensures id in u.tasks && Concluded(s, u, s.tasks[id], u.tasks[id].state)
    ensures PinCount(u.dir, s.tasks[id].key) == ClientPins(u, s.tasks[id].key)
  {
    EndingStep(s, step, u, id);
    EndConcludes(s, u, id, u.tasks[id].state);
  }

  lemma SameJobConcludes(s: System, r: System, u: System, t: Task, v: Task, state: MigrationState)
    requires SameJob(t, v) && Concluded(s, u, v, state) && SourceContent(u, t) == SourceContent(r, t)
    ensures Concluded(r, u, t, state)
  {
    SameJobSameSource(u, t, v);
  }

  lemma RunStepConcludes(trace: seq<System>, steps: seq<Step>, k: nat, id: nat)
    requires Run(trace, steps) && k < |steps| && trace[k].Live(id) && !trace[k + 1].Live(id)
    ensures id in trace[k + 1].tasks
            && Concluded(trace[k], trace[k + 1], trace[k].tasks[id], trace[k + 1].tasks[id].state)
    ensures PinCount(trace[k + 1].dir, trace[k].tasks[id].key) == ClientPins(trace[k + 1], trace[k].tasks[id].key)
  {
    RunKeepsInv(trace, steps, k);
    UnfoldInv(trace[k]);
    assert StepAt(trace, steps, k);
    StepConcludes(trace[k], steps[k], trace[k + 1], id);
  }

  /** The whole life of a migration, from its submission to its end, in any interleaving. */
  lemma MigrationConcludes(trace: seq<System>, steps: seq<Step>, i: nat, j: nat, id: nat)
    requires Run(trace, steps) && i < j < |trace| && id in trace[i].tasks && trace[j - 1].Live(id) && !trace[j].Live(id)
    ensures id in trace[j].tasks && Concluded(trace[i], trace[j], trace[i].tasks[id], trace[j].tasks[id].state)
    ensures PinCount(trace[j].dir, trace[i].tasks[id].key) == ClientPins(trace[j], trace[i].tasks[id].key)
  {
    var s, u := trace[j - 1], trace[j];
    RunFollows(trace, steps, i, j - 1, id);
    SourceIsKept(trace, steps, i, j, id);
    RunStepConcludes(trace, steps, j - 1, id);
    SameJobConcludes(s, trace[i], u, trace[i].tasks[id], s.tasks[id], u.tasks[id].state);
  }

  // ---------------------------------------------------------------- cancellation

  /** This step makes `cancel(id)` return true: it found the task running and flagged it, or dequeued it. */
  ghost predicate CancelAccepts(s: System, step: Step, u: System, id: nat) {
    && CancelNext(s, step, u) && s.owner != Idle && u.owner == Idle
    && ((step.CancelFlag? && s.owner.Observed? && s.owner.id == id)
        || (step.CancelLock? && s.owner.Flagged? && s.owner.id == id))
  }

  lemma AcceptedIsFlagged(s: System, step: Step, u: System, id: nat)
    requires Inv(s) && CancelAccepts(s, step, u, id)
    ensures id in u.tasks && u.tasks[id].cancelRequested && (step.CancelLock? ==> u.tasks[id].state == CANCELLED)
  {
    UnfoldInv(s);
    if step.CancelLock? && id in s.queue { CancelLockEnds(s, u); }
  }

  /** After `cancel` has returned true the task never completes. */
  lemma CancelledNeverCompletes(trace: seq<System>, steps: seq<Step>, i: nat, j: nat, id: nat)
    requires Run(trace, steps) && i < j < |trace| && CancelAccepts(trace[i], steps[i], trace[i + 1], id)
    ensures id in trace[j].tasks && trace[j].tasks[id].state != COMPLETED
  {
    RunKeepsInv(trace, steps, i);
    UnfoldInv(trace[i]);
    AcceptedIsFlagged(trace[i], steps[i], trace[i + 1], id);
    RunFollows(trace, steps, i + 1, j, id);
    RunKeepsInv(trace, steps, j);
    UnfoldInv(trace[j]);
  }

  /** How many more steps of its own `cancel` can need. */
  function CancelLeft(o: Owner): nat {
    match o
    case Idle => 0
    case Observed(_, pass, _) => if pass == 1 then 4 else 1
    case Flagged(_, _) => 3
    case Retrying(_, _) => 2
  }

  predicate IsCancelStep(step: Step) {
    step.CancelFlag? || step.CancelLock? || step.CancelReread?
  }

  function OwnSteps(steps: seq<Step>): nat {
    if steps == [] then 0
    else OwnSteps(steps[..|steps| - 1]) + if IsCancelStep(steps[|steps| - 1]) then 1 else 0
  }

  lemma CancelMoves(s: System, step: Step, u: System)
    requires Inv(s) && Next(s, step, u) && s.owner != Idle
    ensures if IsCancelStep(step)
            then CancelLeft(u.owner) < CancelLeft(s.owner) else u.owner == s.owner
  {
    OwnerIsOk(s);
    if WorkerNext(s, step, u) { WorkerLeavesOwner(s, step, u); }
  }

  lemma WorkerLeavesOwner(s: System, step: Step, u: System)
    requires WorkerNext(s, step, u)
    ensures u.owner == s.owner
  {
    match step {
      case Io(w, ok, junk) => MovedKeepsJobs(s, s.workers[w].id, ok, junk);
      case Dma(id, ok, junk) => MovedKeepsJobs(s, id, ok, junk);
      case _ =>
    }
  }

  lemma RunCancelMoves(trace: seq<System>, steps: seq<Step>, k: nat)
    requires Run(trace, steps) && k < |steps| && trace[k].owner != Idle
    ensures if IsCancelStep(steps[k]) then CancelLeft(trace[k + 1].owner) < CancelLeft(trace[k].owner)
            else trace[k + 1].owner == trace[k].owner
  {
    RunKeepsInv(trace, steps, k);
    UnfoldInv(trace[k]);
    assert StepAt(trace, steps, k);
    CancelMoves(trace[k], steps[k], trace[k + 1]);
  }

  /** However the workers interleave, `cancel` takes at most four more steps once it has read the state: it
      looks at the queue at most once, and the second pass finds the task running. */
  lemma {:induction false} CancelIsShort(trace: seq<System>, steps: seq<Step>, i: nat, j: nat)
    requires Run(trace, steps) && i <= j < |trace| && (forall k :: i <= k < j ==> trace[k].owner != Idle)
    ensures OwnSteps(steps[i..j]) + CancelLeft(trace[j].owner) <= CancelLeft(trace[i].owner) <= 4
  {
    if i < j {
      CancelIsShort(trace, steps, i, j - 1);
      RunCancelMoves(trace, steps, j - 1);
      assert steps[i..j][|steps[i..j]| - 1] == steps[j - 1];
      assert steps[i..j][..j - 1 - i] == steps[i..j - 1];
    } else {
      assert steps[i..j] == [];
    }
  }

  lemma FlaggedGoesOn(s: System)
    requires Inv(s) && s.owner.Flagged?
    ensures exists u :: CancelNext(s, CancelLock, u) && u.owner != s.owner
  {
    UnfoldInv(s);
    var id := s.owner.id;
    LiveIsSettleable(s, id);
    var u := if id in s.queue then Cancelled(s, id).(queue := Without(s.queue, id), owner := Idle)
             else s.(owner := Retrying(id, s.owner.pass + 1));
    assert CancelNext(s, CancelLock, u);
  }

  /** Nothing can make `cancel` wait: its own next step is always possible. */
  lemma CancelNeverBlocks(trace: seq<System>, steps: seq<Step>, i: nat)
    requires Run(trace, steps) && i < |trace| && trace[i].owner != Idle
    ensures exists step, u :: Next(trace[i], step, u) && u.owner != trace[i].owner
  {
    RunKeepsInv(trace, steps, i);
    UnfoldInv(trace[i]);
    var s := trace[i];
    match s.owner {
      case Observed(id, pass, seen) =>
        var u := s.WithTask(id, s.tasks[id].(cancelRequested := true))
                 .(owner := if seen == RUNNING then Idle else Flagged(id, pass));
        assert CancelNext(s, CancelFlag, u) && Next(s, CancelFlag, u);
      case Flagged(id, pass) =>
        FlaggedGoesOn(s);
        var u :| CancelNext(s, CancelLock, u) && u.owner != s.owner;
        assert Next(s, CancelLock, u);
      case Retrying(id, pass) =>
        var u := s.(owner := Observed(id, pass, s.tasks[id].state));
        assert CancelNext(s, CancelReread, u) && Next(s, CancelReread, u);
    }
  }

  // ---------------------------------------------------------------- the order of the queue

  /** `a` goes before `b`: a higher priority, or the same and submitted earlier. */
  predicate Before(s: System, a: nat, b: nat) {
    && a in s.tasks && b in s.tasks && a != b
    && (s.tasks[a].priority > s.tasks[b].priority || (s.tasks[a].priority == s.tasks[b].priority && a < b))
  }

  lemma WorkerKeepsOrder(s: System, step: Step, u: System, a: nat, b: nat)
    requires Inv(s) && WorkerNext(s, step, u) && Before(s, a, b)
    requires s.tasks[a].state == QUEUED && s.tasks[b].state in {QUEUED, CANCELLED}
    requires a in u.tasks && b in u.tasks
    ensures u.tasks[b].state in {QUEUED, CANCELLED}
  {
    match step {
      case Take(w, id) =>
        UnfoldInv(s);
        TakenFirst(s, w, id, u, a, b);
      case Check(w) =>
      case Io(w, ok, junk) => IoKeepsStates(s, w, ok, junk, u);
      case Dma(id, ok, junk) => MovedKeepsJobs(s, id, ok, junk);
    }
  }

  lemma IoKeepsStates(s: System, w: nat, ok: bool, junk: Option<ChunkFile>, u: System)
    requires WorkerNext(s, Io(w, ok, junk), u)
    ensures forall id :: id in s.tasks ==> id in u.tasks && u.tasks[id].state == s.tasks[id].state
  {
    MovedKeepsJobs(s, s.workers[w].id, ok, junk);
  }

  lemma TakenFirst(s: System, w: nat, id: nat, u: System, a: nat, b: nat)
    requires QueueOk(s) && WorkerNext(s, Take(w, id), u) && Before(s, a, b) && s.tasks[a].state == QUEUED
    ensures id != b && u.tasks[b].state == s.tasks[b].state
  {
    assert a in s.queue && Precedes(s, id, a);
  }

  /** Only a worker starts a task, and only cancel ends one that is queued. */
  lemma QueuedStays(s: System, step: Step, u: System, b: nat)
    requires Inv(s) && Next(s, step, u) && !WorkerNext(s, step, u) && b in s.tasks && b in u.tasks
    requires s.tasks[b].state in {QUEUED, CANCELLED}
    ensures u.tasks[b].state in {QUEUED, CANCELLED}
  {
    UnfoldInv(s);
    if CancelNext(s, step, u) {
      CancelKeepsQueued(s, step, u, b);
    } else if ClientNext(s, step, u) {
      ClientKeepsSized(s, step, u);
    } else if step.Poll? {
      PollEnds(s, step.id, u);
    } else {
      assert s.nextId !in s.tasks;
      SubmitKeepsStates(s, step, u, b);
    }
  }

  lemma CancelKeepsQueued(s: System, step: Step, u: System, b: nat)
    requires Inv(s) && CancelNext(s, step, u) && b in s.tasks
    ensures b in u.tasks
            && (u.tasks[b].state == s.tasks[b].state || (s.tasks[b].state == QUEUED && u.tasks[b].state == CANCELLED))
  {
    UnfoldInv(s);
    if step.CancelLock? && s.owner.Flagged? && s.owner.id in s.queue { CancelLockEnds(s, u); }
  }

  lemma SubmitKeepsStates(s: System, step: Step, u: System, b: nat)
    requires s.nextId !in s.tasks && SubmitNext(s, step, u) && b in s.tasks
    ensures b in u.tasks && u.tasks[b] == s.tasks[b]
  {
  }

  /** A task does not return to the queue. */
  lemma StillQueued(s: System, step: Step, u: System, a: nat)
    requires Inv(s) && Next(s, step, u) && a in s.tasks && a in u.tasks && u.tasks[a].state == QUEUED
    ensures s.tasks[a].state == QUEUED
  {
    UnfoldInv(s);
    if CancelNext(s, step, u) {
      CancelKeepsQueued(s, step, u, a);
    } else if WorkerNext(s, step, u) {
      WorkerQueuesNothing(s, step, u, a);
    } else if ClientNext(s, step, u) {
      ClientKeepsSized(s, step, u);
    } else if step.Poll? {
      PollEnds(s, step.id, u);
    } else {
      assert s.nextId !in s.tasks;
      SubmitKeepsStates(s, step, u, a);
    }
  }

  lemma WorkerQueuesNothing(s: System, step: Step, u: System, a: nat)
    requires WorkerNext(s, step, u) && a in s.tasks && a in u.tasks && u.tasks[a].state == QUEUED
    ensures s.tasks[a].state == QUEUED
  {
    match step {
      case Take(w, id) =>
      case Check(w) =>
      case Io(w, ok, junk) => MovedKeepsJobs(s, s.workers[w].id, ok, junk);
      case Dma(id, ok, junk) => MovedKeepsJobs(s, id, ok, junk);
    }
  }

  lemma StepKeepsOrder(s: System, step: Step, u: System, a: nat, b: nat)
    requires Inv(s) && Next(s, step, u) && Before(s, a, b) && a in u.tasks && b in u.tasks
    requires u.tasks[a].state == QUEUED && s.tasks[b].state in {QUEUED, CANCELLED}
    ensures s.tasks[a].state == QUEUED && u.tasks[b].state in {QUEUED, CANCELLED}
  {
    StillQueued(s, step, u, a);
    if WorkerNext(s, step, u) {
      WorkerKeepsOrder(s, step, u, a, b);
    } else {
      QueuedStays(s, step, u, b);
    }
  }

  lemma BeforeStays(s: System, u: System, a: nat, b: nat)
    requires Before(s, a, b) && Follows(s, u, a) && Follows(s, u, b)
    ensures Before(u, a, b)
  {
  }

  /** A queued task is never overtaken by one of lower priority, nor by a later one of the same priority. */
  lemma {:induction false} NeverOvertaken(trace: seq<System>, steps: seq<Step>, i: nat, j: nat, a: nat, b: nat)
    requires Run(trace, steps) && i <= j < |trace| && Before(trace[i], a, b)
    requires trace[i].tasks[b].state == QUEUED
    requires a in trace[j].tasks && trace[j].tasks[a].state == QUEUED
    ensures b in trace[j].tasks && trace[j].tasks[b].state in {QUEUED, CANCELLED}
  {
    if i < j {
      var s, u := trace[j - 1], trace[j];
      RunKeepsInv(trace, steps, j - 1);
      RunFollows(trace, steps, i, j - 1, a);
      RunFollows(trace, steps, i, j - 1, b);
      BeforeStays(trace[i], s, a, b);
      assert StepAt(trace, steps, j - 1);
      StillQueued(s, steps[j - 1], u, a);
      StepFollows(s, steps[j - 1], u, b);
      NeverOvertaken(trace, steps, i, j - 1, a, b);
      StepKeepsOrder(s, steps[j - 1], u, a, b);
    }
  }
}
