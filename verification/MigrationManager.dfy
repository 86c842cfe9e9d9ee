/** The migration manager's own methods (src/v3/migration_manager.cpp). Wherever the owner thread lets go of a
    shared field, the workers and the device may run; every method only ever extends a run of the protocol. */
module MigrationManagers {
  import opened Common
  import opened CacheDirectories
  import opened MigrationProtocol
  import opened MigrationSafety

  /** What has happened so far is a run of the protocol, and `s` is where it has got to. Folded. */
  ghost predicate Past(trace: seq<System>, steps: seq<Step>, s: System) {
    forall t {:trigger Unseal(t)} :: t == trace ==> Run(t, steps) && t[|t| - 1] == s
  }

  lemma UnfoldPast(trace: seq<System>, steps: seq<Step>, s: System)
    requires Past(trace, steps, s)
    ensures Run(trace, steps) && trace[|trace| - 1] == s
  {
    assert Unseal(trace);
  }

  lemma FoldPast(trace: seq<System>, steps: seq<Step>, s: System)
    requires Run(trace, steps) && trace[|trace| - 1] == s
    ensures Past(trace, steps, s)
  {
  }

  lemma PastExtends(trace: seq<System>, steps: seq<Step>, s: System, step: Step, u: System)
    requires Past(trace, steps, s) && Next(s, step, u)
    ensures Past(trace + [u], steps + [step], u)
  {
    UnfoldPast(trace, steps, s);
    RunExtends(trace, steps, step, u);
    FoldPast(trace + [u], steps + [step], u);
  }

  lemma PastHasInv(trace: seq<System>, steps: seq<Step>, s: System)
    requires Past(trace, steps, s)
    ensures Inv(s)
  {
    UnfoldPast(trace, steps, s);
    RunKeepsInv(trace, steps, |trace| - 1);
  }

  lemma RunExtends(trace: seq<System>, steps: seq<Step>, step: Step, u: System)
    requires Run(trace, steps) && Next(trace[|trace| - 1], step, u)
    ensures Run(trace + [u], steps + [step])
  {
    forall i: nat | i < |steps + [step]| ensures StepAt(trace + [u], steps + [step], i) {
      if i < |steps| { assert StepAt(trace, steps, i); }
    }
  }

  lemma AmbiguousHasNoSource(d: Directory, key: CacheKey, destination: StorageTier, a: StorageTier, b: StorageTier)
    requires a != b && Direct(a, destination) && IsReady(d, key, a) && Direct(b, destination) && IsReady(d, key, b)
    ensures forall t :: !IsSource(d, key, destination, t)
  {
  }

  lemma SubmitIsNext(s: System, key: CacheKey, source: StorageTier, destination: StorageTier, loc: Location,
                     priority: int)
    requires s.owner == Idle && CanSubmit(s, key, source, destination, loc)
    ensures Next(s, MigrationProtocol.Submit(key, source, destination, loc, priority),
                 Submitted(s, key, source, destination, loc, priority))
  {
  }

  lemma RollbackIsNext(trace: seq<System>, steps: seq<Step>, s: System, key: CacheKey, source: StorageTier,
                       destination: StorageTier, loc: Location, junk: Option<Payload>)
    requires s.owner == Idle && Past(trace, steps, s) && CanSubmit(s, key, source, destination, loc)
    ensures var u := Abandoned(s, key, source, destination, loc, junk);
            && Next(s, SubmitRolledBack(key, source, destination, loc, junk), u) && Restored(s.dir, u.dir)
            && forall t :: u.dir.Tier(t).taken == s.dir.Tier(t).taken
  {
    PastHasInv(trace, steps, s);
    UnfoldInv(s);
    RolledBackRestores(s.dir, key, source, destination, loc);
  }

  lemma TakeIsNext(s: System, w: nat, id: nat)
    requires w < |s.workers| && s.workers[w] == Waiting && IsBest(s, id)
    ensures Next(s, Take(w, id), s.WithTask(id, s.tasks[id].(state := RUNNING))
                                  .(queue := Without(s.queue, id), workers := s.workers[w := Took(id)]))
  {
  }

  lemma CheckIsNext(trace: seq<System>, steps: seq<Step>, s: System, w: nat)
    requires Past(trace, steps, s) && w < |s.workers| && s.workers[w].Took?
    ensures var id := s.workers[w].id;
            id in s.tasks && Next(s, Check(w),
              if s.tasks[id].cancelRequested
              then s.WithTask(id, s.tasks[id].(outcome := Succeeded)).(workers := s.workers[w := Waiting])
              else s.(workers := s.workers[w := Working(id)]))
  {
    PastHasInv(trace, steps, s);
    UnfoldInv(s);
    assert AwaitsWorker(s, s.workers[w].id);
  }

  lemma IoIsNext(trace: seq<System>, steps: seq<Step>, s: System, w: nat, ok: bool, junk: Option<ChunkFile>)
    requires Past(trace, steps, s) && w < |s.workers| && s.workers[w].Working?
    ensures var id := s.workers[w].id;
            id in s.tasks && Next(s, Io(w, ok, junk), Moved(s, id, ok, junk).(workers := s.workers[w := Waiting]))
  {
    PastHasInv(trace, steps, s);
    UnfoldInv(s);
    assert AwaitsWorker(s, s.workers[w].id);
  }

  lemma PollIsNext(s: System, id: nat, u: System)
    requires s.owner == Idle && PollNext(s, id, u)
    ensures Next(s, MigrationProtocol.Poll(id), u)
  {
  }

  lemma RunningCanEnd(s: System, id: nat)
    requires Inv(s) && id in s.tasks && s.tasks[id].state == RUNNING
    ensures Settleable(s.dir, s.tasks[id])
  {
    UnfoldInv(s);
    LiveIsSettleable(s, id);
  }

  /** What cancel reads when it looks at the task's state for the first or the second time. */
  lemma ObserveIsNext(trace: seq<System>, steps: seq<Step>, s: System, id: nat, pass: nat)
    requires Past(trace, steps, s) && ((s.owner == Idle && pass == 1 && s.Live(id)) || s.owner == Retrying(id, pass))
    ensures id in s.tasks && s.tasks[id].state in {QUEUED, RUNNING} && (pass > 1 ==> s.tasks[id].state == RUNNING)
    ensures Next(s, if s.owner == Idle then CancelRead(id) else CancelReread,
                 s.(owner := Observed(id, pass, s.tasks[id].state)))
  {
    PastHasInv(trace, steps, s);
    UnfoldInv(s);
  }

  lemma FlagIsNext(trace: seq<System>, steps: seq<Step>, s: System, id: nat)
    requires Past(trace, steps, s) && s.owner.Observed? && s.owner.id == id
    ensures s.Live(id)
    ensures Next(s, CancelFlag, s.WithTask(id, s.tasks[id].(cancelRequested := true))
                                 .(owner := if s.owner.seen == RUNNING then Idle else Flagged(id, s.owner.pass)))
  {
    PastHasInv(trace, steps, s);
    UnfoldInv(s);
  }

  /** A task that cancel has flagged is unfinished, and one still in the queue can be ended. */
  lemma DequeueIsNext(trace: seq<System>, steps: seq<Step>, s: System, id: nat)
    requires Past(trace, steps, s) && s.owner.Flagged? && s.owner.id == id
    ensures id in s.tasks && s.tasks[id].cancelRequested && s.owner.pass == 1
    ensures id in s.queue ==> Settleable(s.dir, s.tasks[id])
    ensures Next(s, CancelLock, if id in s.queue then Cancelled(s, id).(queue := Without(s.queue, id), owner := Idle)
                                else s.(owner := Retrying(id, 2)))
  {
    PastHasInv(trace, steps, s);
    UnfoldInv(s);
    if id in s.queue { LiveIsSettleable(s, id); }
  }

  class MigrationManager {
    var dir: Directory
    var tasks: map<nat, Task>
    var nextId: nat
    var queue: seq<nat>
    var workers: seq<Worker>
    var gpu: seq<Payload>
    var cpu: seq<Payload>
    var files: map<nat, ChunkFile>
    ghost var clientPins: map<CacheKey, nat>
    ghost var owner: Owner
    ghost var trace: seq<System>
    ghost var steps: seq<Step>

    ghost function State(): System
      reads this
    {
      System(dir, tasks, nextId, queue, workers, owner, clientPins, gpu, cpu, files)
    }

    /** What has happened so far is a run of the protocol, and this is where it has got to. */
    ghost predicate Valid()
      reads this
    {
      Past(trace, steps, State())
    }

    ghost predicate Idling()
      reads this
    {
      Valid() && owner == Idle
    }

    constructor (d: Directory, ioThreads: nat, gpuBytes: seq<Payload>, cpuBytes: seq<Payload>,
                 chunkFiles: map<nat, ChunkFile>)
      requires DirectoryInv(d) && |gpuBytes| == |d.gpu.generations| && |cpuBytes| == |d.cpu.generations|
      requires ioThreads > 0
      ensures Idling() && dir == d && tasks == map[] && |trace| == 1
    {
      dir, tasks, nextId, queue := d, map[], 1, [];
      workers := seq(ioThreads, i => Waiting);
      gpu, cpu, files := gpuBytes, cpuBytes, chunkFiles;
      clientPins := map key | key in d.records :: d.records[key].pinCount;
      owner := Idle;
      new;
      trace, steps := [State()], [];
      FoldPast(trace, steps, State());
    }

    /** Records the step that has just been taken. */
    ghost method Record(s: System, step: Step)
      requires Past(trace, steps, s) && Next(s, step, State())
      modifies `trace, `steps
      ensures Valid() && trace == old(trace) + [State()] && steps == old(steps) + [step]
    {
      PastExtends(trace, steps, s, step, State());
      trace, steps := trace + [State()], steps + [step];
    }

    // -------------------------------------------------------------- submission

    /** The source of a migration is inferred from the directory: the one READY replica with a direct route. */
    method FindSource(key: CacheKey, destination: StorageTier) returns (r: Result<StorageTier>)
      ensures r.Ok? ==> IsSource(dir, key, destination, r.value) && !dir.HasReplica(key, destination)
      ensures r.Err? ==> r.error == (if key in dir.records then LogicError else OutOfRange)
                         && (dir.HasReplica(key, destination) || forall t :: !IsSource(dir, key, destination, t))
    {
      if key !in dir.records { return Err(OutOfRange); }
      var order := [GPU, CPU, NVME];
      var found: Option<StorageTier> := None;
      for i := 0 to 3
        invariant found.Some? ==> Direct(found.value, destination) && IsReady(dir, key, found.value)
        invariant forall j :: 0 <= j < i && Direct(order[j], destination) && IsReady(dir, key, order[j]) ==>
                    found == Some(order[j])
        invariant found.Some? ==> exists j :: 0 <= j < i && order[j] == found.value
      {
        var t := order[i];
        if t != destination && !(t == GPU && destination == NVME) && !(t == NVME && destination == GPU) {
          if dir.HasReplica(key, t) && dir.ReplicaOf(key, t).state == READY {
            if found.Some? {
              AmbiguousHasNoSource(dir, key, destination, found.value, t);
              return Err(LogicError);
            }
            found := Some(t);
          }
        }
      }
      assert order[0] == GPU && order[1] == CPU && order[2] == NVME;
      if found.None? { return Err(LogicError); }
      if dir.HasReplica(key, destination) { return Err(LogicError); }
      r := Ok(found.value);
    }

    /** The new task among the others, its replicas marked and its chunk pinned. */
    method Enter(key: CacheKey, source: StorageTier, destination: StorageTier, slot: Location, priority: int)
      requires CanSubmit(State(), key, source, destination, slot)
      modifies `tasks, `queue, `nextId, `dir
      ensures State() == Submitted(old(State()), key, source, destination, slot, priority)
    {
      var task := NewTask(dir, key, source, destination, slot, priority);
      tasks := tasks[nextId := task];
      if !task.UsesCuda() { queue := queue + [nextId]; }
      nextId := nextId + 1;
      PlaceAndPin(key, source, destination, slot);
    }

    /** The destination is placed, the chunk pinned, the transfer started or queued. */
    method Launch(key: CacheKey, source: StorageTier, destination: StorageTier, slot: Location, priority: int)
      requires Idling() && CanSubmit(State(), key, source, destination, slot)
      modifies this
      ensures Idling() && trace == old(trace) + [State()]
      ensures State() == Submitted(old(State()), key, source, destination, slot, priority)
    {
      ghost var s := State();
      Enter(key, source, destination, slot, priority);
      SubmitIsNext(s, key, source, destination, slot, priority);
      Record(s, MigrationProtocol.Submit(key, source, destination, slot, priority));
    }

    method PlaceAndPin(key: CacheKey, source: StorageTier, destination: StorageTier, slot: Location)
      requires IsSource(dir, key, destination, source) && Placeable(dir, key, destination, slot)
      modifies `dir
      ensures var d := Prepared(old(dir), key, source, destination, slot);
              key in d.records && dir == SetPins(d, key, d.records[key].pinCount + 1)
    {
      var d := Prepared(dir, key, source, destination, slot);
      dir := SetPins(d, key, d.records[key].pinCount + 1);
    }

    /** What the copy may have written before it was abandoned. */
    method Spill(destination: StorageTier, slot: nat, junk: Option<Payload>)
      modifies `gpu, `cpu
      ensures forall key :: Spilt(old(State()), key, destination, slot, junk) == State()
    {
      if junk.Some? {
        if destination == GPU && slot < |gpu| { gpu := gpu[slot := junk.value]; }
        if destination == CPU && slot < |cpu| { cpu := cpu[slot := junk.value]; }
      }
    }

    method RollbackSubmit(key: CacheKey, source: StorageTier, destination: StorageTier, slot: Location)
      requires Idling() && CanSubmit(State(), key, source, destination, slot)
      modifies this
      ensures Idling() && trace == old(trace) + [State()]
      ensures tasks == old(tasks) && queue == old(queue) && Restored(old(dir), dir)
      ensures forall t :: dir.Tier(t).taken == old(dir).Tier(t).taken
    {
      ghost var s := State();
      var junk: Option<Payload> := *;
      RollbackIsNext(trace, steps, s, key, source, destination, slot, junk);
      Spill(destination, slot.slot, junk);
      nextId := nextId + 1;
      dir := RolledBack(dir, key, source, destination, slot);
      assert State() == Abandoned(s, key, source, destination, slot, junk);
      Record(s, SubmitRolledBack(key, source, destination, slot, junk));
    }

    /** `slot` is the destination tier's answer when it is asked for one: a location never handed out before, no room
        because every slot is taken or `lost` to it, or a slot whose generations are used up. `launched` says whether
        the transfer could be started. */
    method Submit(key: CacheKey, destination: StorageTier, priority: int, slot: Result<Location>, launched: bool,
                  ghost lost: set<nat>)
      returns (r: Result<nat>)
      requires Idling() && (slot == Err(CapacityError) <==> NoneLeft(dir.Tier(destination), lost))
      requires if slot.Ok? then CanAllocate(dir.Tier(destination), slot.value)
               else slot.error in {CapacityError, OverflowError}
      modifies this
      ensures Idling() && old(trace) <= trace
      ensures r.Ok? ==> exists source, loc ::
                CanSubmit(old(State()), key, source, destination, loc)
                && State() == Submitted(old(State()), key, source, destination, loc, priority) && r.value == old(nextId)
      ensures r.Err? ==> && tasks == old(tasks) && queue == old(queue) && Restored(old(dir), dir)
                         && (forall t :: dir.Tier(t).taken == old(dir).Tier(t).taken)
      ensures r == Err(CapacityError) <==>
                && NoneLeft(old(dir).Tier(destination), lost) && !old(dir).HasReplica(key, destination)
                && exists t :: IsSource(old(dir), key, destination, t)
      ensures r == Err(OverflowError) <==>
                && slot == Err(OverflowError) && !old(dir).HasReplica(key, destination)
                && exists t :: IsSource(old(dir), key, destination, t)
      ensures r.Err? ==> r.error in {OutOfRange, LogicError, CapacityError, OverflowError, DeviceError}
      ensures r == Err(OutOfRange) ==> key !in old(dir).records
      ensures r == Err(LogicError) ==>
                old(dir).HasReplica(key, destination) || forall t :: !IsSource(old(dir), key, destination, t)
      ensures r == Err(DeviceError) ==>
                slot.Ok? && !launched && (destination == GPU || IsSource(old(dir), key, destination, GPU))
    {
      ghost var s := State();
      var source := FindSource(key, destination);
      if source.Err? { return Err(source.error); }
      if slot.Err? {
        nextId := nextId + 1;
        Record(s, SubmitRefused);
        return Err(slot.error);
      }
      if !launched && (source.value == GPU || destination == GPU) {
        RollbackSubmit(key, source.value, destination, slot.value);
        return Err(DeviceError);
      }
      r := Ok(nextId);
      Launch(key, source.value, destination, slot.value, priority);
    }

    // -------------------------------------------------------------- the I/O workers

    /** The task to run next: highest priority, and among equals the one submitted first. */
    method PickBest() returns (id: nat)
      requires queue != [] && QueueOk(State())
      ensures IsBest(State(), id)
    {
      id := queue[0];
      assert id in queue;
      for i := 0 to |queue|
        invariant id in queue && id in tasks
        invariant forall j :: 0 <= j < i ==> queue[j] in tasks && Precedes(State(), id, queue[j])
      {
        var other := queue[i];
        assert other in queue;
        if tasks[other].priority > tasks[id].priority
           || (tasks[other].priority == tasks[id].priority && other < id) {
          id := other;
        }
      }
    }

    /** Choosing the task, taking it off the queue and marking it RUNNING share one critical section. */
    method TakeNext(w: nat)
      requires Valid() && w < |workers| && workers[w] == Waiting && queue != []
      modifies this
      ensures Valid() && trace == old(trace) + [State()] && owner == old(owner)
      ensures exists id: nat :: steps == old(steps) + [Take(w, id)]
    {
      ghost var s := State();
      HasQueueOk();
      var id := PickBest();
      TakeIsNext(s, w, id);
      queue := Without(queue, id);
      tasks := tasks[id := tasks[id].(state := RUNNING)];
      workers := workers[w := Took(id)];
      Record(s, Take(w, id));
    }

    lemma HasQueueOk()
      requires Valid()
      ensures QueueOk(State())
    {
      PastHasInv(trace, steps, State());
      UnfoldInv(State());
    }

    /** A task cancelled before its I/O began is reported done without any. */
    method CheckTaken(w: nat)
      requires Valid() && w < |workers| && workers[w].Took?
      modifies this
      ensures Valid() && trace == old(trace) + [State()] && owner == old(owner)
      ensures steps == old(steps) + [Check(w)]
    {
      ghost var s := State();
      CheckIsNext(trace, steps, s, w);
      var id := workers[w].id;
      if tasks[id].cancelRequested {
        tasks := tasks[id := tasks[id].(outcome := Succeeded)];
        workers := workers[w := Waiting];
      } else {
        workers := workers[w := Working(id)];
      }
      Record(s, Check(w));
    }

    method RunIo(w: nat, ok: bool, junk: Option<ChunkFile>)
      requires Valid() && w < |workers| && workers[w].Working?
      modifies this
      ensures Valid() && trace == old(trace) + [State()] && owner == old(owner)
      ensures steps == old(steps) + [Io(w, ok, junk)]
    {
      ghost var s := State();
      IoIsNext(trace, steps, s, w, ok, junk);
      var id := workers[w].id;
      DoIo(id, ok, junk);
      workers := workers[w := Waiting];
      Record(s, Io(w, ok, junk));
    }

    /** One atomic step of worker `w`: take a task under the lock, look at its flag, or do its I/O and report. */
    method Work(w: nat, ok: bool, junk: Option<ChunkFile>)
      requires Valid()
      modifies this
      ensures Valid() && old(trace) <= trace && owner == old(owner)
      ensures w < |old(workers)| && !(old(workers)[w].Waiting? && old(queue) == []) ==>
                |trace| == |old(trace)| + 1
                && match old(workers)[w]
                   case Waiting => exists id: nat :: steps == old(steps) + [Take(w, id)]
                   case Took(_) => steps == old(steps) + [Check(w)]
                   case Working(_) => steps == old(steps) + [Io(w, ok, junk)]
    {
      if w < |workers| {
        match workers[w] {
          case Waiting => if queue != [] { TakeNext(w); }
          case Took(_) => CheckTaken(w);
          case Working(_) => RunIo(w, ok, junk);
        }
      }
    }

    /** The transfer itself: a file written from or read into a slot of host memory. */
    method DoIo(id: nat, ok: bool, junk: Option<ChunkFile>)
      requires id in tasks
      modifies `gpu, `cpu, `files, `tasks
      ensures State() == Moved(old(State()), id, ok, junk)
    {
      ghost var s := State();
      var t := tasks[id];
      var data := Read(t.key, t.source, t.sourceLoc.slot);
      if ok && data.Some? {
        Put(t.destination, t.destinationLoc.slot, ChunkFile(t.key, data.value));
        tasks := tasks[id := t.(outcome := Succeeded)];
      } else {
        if junk.Some? { Put(t.destination, t.destinationLoc.slot, junk.value); }
        tasks := tasks[id := t.(outcome := Failed)];
      }
    }

    method Read(key: CacheKey, t: StorageTier, slot: nat) returns (p: Option<Payload>)
      ensures p == Content(State(), key, t, slot)
    {
      match t {
        case GPU => p := if slot < |gpu| then Some(gpu[slot]) else None;
        case CPU => p := if slot < |cpu| then Some(cpu[slot]) else None;
        case NVME => p := if slot in files && files[slot].key == key then Some(files[slot].payload) else None;
      }
    }

    method Put(t: StorageTier, slot: nat, file: ChunkFile)
      modifies `gpu, `cpu, `files
      ensures State() == if t == NVME then old(State()).(files := old(files)[slot := file])
                         else Store(old(State()), file.key, t, slot, file.payload)
    {
      match t {
        case GPU => if slot < |gpu| { gpu := gpu[slot := file.payload]; }
        case CPU => if slot < |cpu| { cpu := cpu[slot := file.payload]; }
        case NVME => files := files[slot := file];
      }
    }

    /** Any number of steps of any workers and of the device, in any order. */
    method Interleave()
      requires Valid()
      modifies this
      ensures Valid() && old(trace) <= trace && owner == old(owner)
    {
      var n: nat := *;
      while n > 0
        invariant Valid() && old(trace) <= trace && owner == old(owner)
      {
        var w: nat, ok: bool, junk: Option<ChunkFile> := *, *, *;
        if * {
          Work(w, ok, junk);
        } else {
          Complete(w, ok, junk);
        }
        n := n - 1;
      }
    }

    /** The device has task `id` and has not reported it yet. */
    predicate OnItsWay(id: nat)
      reads this
    {
      id in tasks && tasks[id].UsesCuda() && tasks[id].state == RUNNING && tasks[id].outcome == Pending
    }

    /** The device reports a transfer, if `id` is one it has not reported yet. */
    method Complete(id: nat, ok: bool, junk: Option<ChunkFile>)
      requires Valid()
      modifies this
      ensures Valid() && old(trace) <= trace && owner == old(owner)
      ensures old(OnItsWay(id)) ==> steps == old(steps) + [Dma(id, ok, junk)]
    {
      ghost var s := State();
      if OnItsWay(id) {
        DoIo(id, ok, junk);
        assert WorkerNext(s, Dma(id, ok, junk), State());
        Record(s, Dma(id, ok, junk));
      }
    }

    // -------------------------------------------------------------- the owner's other operations

    /** finalize, finalize_cancelled, or the failure path of poll, by `state`. */
    method Finish(id: nat, state: MigrationState)
      requires id in tasks && Settleable(dir, tasks[id])
      modifies `dir, `tasks, `files
      ensures State() == if state == CANCELLED then Cancelled(old(State()), id) else Ended(old(State()), id, state)
    {
      var t := tasks[id];
      if state == CANCELLED && t.destination == NVME && t.destinationLoc.slot in files {
        files := files - {t.destinationLoc.slot};
      }
      assert state == CANCELLED && t.destination == NVME ==> files == old(files) - {t.destinationLoc.slot};
      SettleEnds(t, state == COMPLETED);
      tasks := tasks[id := t.(state := state)];
    }

    /** The destination is READY, or failed and removed; the source is READY; the pin is given back. */
    method SettleEnds(t: Task, kept: bool)
      requires Settleable(dir, t)
      modifies `dir
      ensures dir == Settled(old(dir), t, kept)
    {
      dir := SetState(dir, t.key, t.destination, if kept then READY else ERROR);
      if !kept { dir := Remove(dir, t.key, t.destination); }
      dir := SetState(dir, t.key, t.source, READY);
      dir := SetPins(dir, t.key, dir.records[t.key].pinCount - 1);
    }

    method Poll(id: nat) returns (r: Result<MigrationState>)
      requires Idling()
      modifies this
      ensures Idling() && old(trace) <= trace
      ensures id !in old(tasks) ==> r == Err(OutOfRange) && State() == old(State())
      ensures id in old(tasks) ==> PollNext(old(State()), id, State()) && r == Ok(tasks[id].state)
    {
      if id !in tasks { return Err(OutOfRange); }
      ghost var s := State();
      Advance(id);
      PollIsNext(s, id, State());
      Record(s, MigrationProtocol.Poll(id));
      r := Ok(tasks[id].state);
    }

    /** A running task whose outcome is in comes to its end; any other stays. */
    method Advance(id: nat)
      requires Valid() && id in tasks
      modifies `dir, `tasks, `files
      ensures PollNext(old(State()), id, State())
    {
      var t := tasks[id];
      if t.state == RUNNING {
        CanEnd(id);
        if t.outcome != Pending {
          Finish(id, if t.outcome == Failed then FAILED else if t.cancelRequested then CANCELLED else COMPLETED);
        }
      }
    }

    lemma CanEnd(id: nat)
      requires Valid() && id in tasks && tasks[id].state == RUNNING
      ensures Settleable(dir, tasks[id])
    {
      PastHasInv(trace, steps, State());
      UnfoldInv(State());
      RunningCanEnd(State(), id);
    }

    /** cancel reads the task's state. */
    method Observe(id: nat, pass: nat) returns (seen: MigrationState)
      requires Valid() && ((owner == Idle && pass == 1 && State().Live(id)) || owner == Retrying(id, pass))
      modifies this
      ensures Valid() && trace == old(trace) + [State()] && owner == Observed(id, pass, seen)
              && seen in {QUEUED, RUNNING}
      ensures pass > 1 ==> seen == RUNNING
    {
      ghost var s := State();
      ObserveIsNext(trace, steps, s, id, pass);
      seen := tasks[id].state;
      owner := Observed(id, pass, seen);
      Record(s, if s.owner == Idle then CancelRead(id) else CancelReread);
    }

    /** cancel sets the request flag; a task seen running is left to its completion path. */
    method Flag(id: nat)
      requires Valid() && owner.Observed? && owner.id == id
      modifies this
      ensures Valid() && trace == old(trace) + [State()]
      ensures owner == if old(owner).seen == RUNNING then Idle else Flagged(id, old(owner).pass)
      ensures id in tasks && tasks[id].cancelRequested && tasks[id].Unfinished()
    {
      ghost var s := State();
      FlagIsNext(trace, steps, s, id);
      tasks := tasks[id := tasks[id].(cancelRequested := true)];
      owner := if owner.seen == RUNNING then Idle else Flagged(id, owner.pass);
      Record(s, CancelFlag);
    }

    /** cancel looks for the task in the queue, under the lock, and ends it if it is still there. */
    method Dequeue(id: nat) returns (dequeued: bool)
      requires Valid() && owner.Flagged? && owner.id == id
      modifies this
      ensures Valid() && trace == old(trace) + [State()] && id in tasks && tasks[id].cancelRequested
      ensures dequeued ==> owner == Idle && tasks[id].state == CANCELLED
      ensures !dequeued ==> owner == Retrying(id, 2)
    {
      ghost var s := State();
      DequeueIsNext(trace, steps, s, id);
      dequeued := id in queue;
      if dequeued {
        queue := Without(queue, id);
        Finish(id, CANCELLED);
        owner := Idle;
      } else {
        owner := Retrying(id, owner.pass + 1);
      }
      Record(s, CancelLock);
    }

    /** Requests cancellation. True: the task was accepted for cancellation, so it can no longer complete.
        False: it was over already, and nothing has changed. Workers may run between any two steps. */
    method Cancel(id: nat) returns (r: Result<bool>)
      requires Idling()
      modifies this
      ensures Idling() && old(trace) <= trace
      ensures r.Err? <==> id !in old(tasks)
      ensures r.Err? ==> r.error == OutOfRange
      ensures r.Ok? ==> (r.value <==> old(State()).Live(id))
      ensures r == Ok(true) ==> id in tasks && tasks[id].cancelRequested && tasks[id].state != COMPLETED
      ensures r != Ok(true) ==> State() == old(State()) && trace == old(trace)
    {
      if id !in tasks { return Err(OutOfRange); }
      var state := tasks[id].state;
      if state == COMPLETED || state == FAILED || state == CANCELLED { return Ok(false); }
      var pass := 1;
      var seen := Observe(id, pass);
      while true
        invariant Valid() && old(trace) <= trace && owner == Observed(id, pass, seen) && 1 <= pass <= 2
        invariant pass == 2 ==> seen == RUNNING
        decreases 2 - pass
      {
        var accepted := Attempt(id, seen);
        if accepted { return Ok(true); }
        Interleave();
        pass := pass + 1;
        seen := Observe(id, pass);
      }
    }

    /** One pass of cancel after it has read the state. If it comes to nothing, a worker has taken the task
        meanwhile. */
    method Attempt(id: nat, seen: MigrationState) returns (accepted: bool)
      requires Valid() && owner.Observed? && owner.id == id && owner.seen == seen
      modifies this
      ensures Valid() && old(trace) <= trace && id in tasks
      ensures if accepted then owner == Idle && tasks[id].cancelRequested && tasks[id].state != COMPLETED
              else seen != RUNNING && owner == Retrying(id, 2)
    {
      Interleave();
      Flag(id);
      accepted := true;
      if seen != RUNNING {
        Interleave();
        accepted := Dequeue(id);
      }
    }
  }
}
