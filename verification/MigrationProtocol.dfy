/** The asynchronous migration engine as a labelled transition system: one owner thread, any number of
    I/O workers, and DMA completions, interleaved step by step (src/v3/migration_manager.cpp). */
module MigrationProtocol {
  import opened Common
  import opened CacheDirectories

  datatype MigrationState = QUEUED | RUNNING | COMPLETED | FAILED | CANCELLED

  /** What the worker's io_result or the DMA's completion event says. */
  datatype Outcome = Pending | Succeeded | Failed

  datatype Task = Task(key: CacheKey, source: StorageTier, destination: StorageTier,
                       sourceLoc: Location, destinationLoc: Location, priority: int,
                       state: MigrationState, cancelRequested: bool, outcome: Outcome)
  {
    predicate UsesCuda() { source == GPU || destination == GPU }

    predicate Unfinished() { state == QUEUED || state == RUNNING }
  }

  /** A worker between two of its atomic steps. */
  datatype Worker = Waiting | Took(id: nat) | Working(id: nat)

  /** The owner thread, possibly inside cancel: the state it read, the flag it set, or about to read again. */
  datatype Owner = Idle | Observed(id: nat, pass: nat, seen: MigrationState) | Flagged(id: nat, pass: nat)
                 | Retrying(id: nat, pass: nat)

  datatype ChunkFile = ChunkFile(key: CacheKey, payload: Payload)

  datatype System = System(dir: Directory, tasks: map<nat, Task>, nextId: nat, queue: seq<nat>,
                           workers: seq<Worker>, owner: Owner, clientPins: map<CacheKey, nat>,
                           gpu: seq<Payload>, cpu: seq<Payload>, files: map<nat, ChunkFile>)
  {
    predicate Live(id: nat) { id in tasks && tasks[id].Unfinished() }

    function WithTask(id: nat, t: Task): System { this.(tasks := tasks[id := t]) }
  }

  // ---------------------------------------------------------------- data

  /** The bytes that a replica of `key` in `slot` of tier `t` stands for, when there are any. */
  function Content(s: System, key: CacheKey, t: StorageTier, slot: nat): Option<Payload> {
    match t
    case GPU => if slot < |s.gpu| then Some(s.gpu[slot]) else None
    case CPU => if slot < |s.cpu| then Some(s.cpu[slot]) else None
    case NVME => if slot in s.files && s.files[slot].key == key then Some(s.files[slot].payload) else None
  }

  function Store(s: System, key: CacheKey, t: StorageTier, slot: nat, p: Payload): System {
    match t
    case GPU => if slot < |s.gpu| then s.(gpu := s.gpu[slot := p]) else s
    case CPU => if slot < |s.cpu| then s.(cpu := s.cpu[slot := p]) else s
    case NVME => s.(files := s.files[slot := ChunkFile(key, p)])
  }

  function SourceContent(s: System, t: Task): Option<Payload> {
    Content(s, t.key, t.source, t.sourceLoc.slot)
  }

  function DestinationContent(s: System, t: Task): Option<Payload> {
    Content(s, t.key, t.destination, t.destinationLoc.slot)
  }

  // ---------------------------------------------------------------- routes

  predicate Direct(source: StorageTier, destination: StorageTier) {
    source != destination && (source == CPU || destination == CPU)
  }

  predicate IsReady(d: Directory, key: CacheKey, t: StorageTier) {
    d.HasReplica(key, t) && d.ReplicaOf(key, t).state == READY
  }

  /** The one READY replica with a direct route to `destination`. */
  predicate IsSource(d: Directory, key: CacheKey, destination: StorageTier, source: StorageTier) {
    && Direct(source, destination) && IsReady(d, key, source)
    && forall t :: Direct(t, destination) && IsReady(d, key, t) ==> t == source
  }

  function ArrivalState(destination: StorageTier): ChunkState {
    if destination == GPU then LOADING else COPYING
  }

  // ---------------------------------------------------------------- the end of a task

  predicate Settleable(d: Directory, t: Task) {
    && t.source != t.destination
    && d.HasReplica(t.key, t.source) && d.HasReplica(t.key, t.destination) && d.records[t.key].pinCount > 0
  }

  /** The directory after finalize (`kept`), or after finalize_cancelled and poll's failure path. */
  function Settled(d: Directory, t: Task, kept: bool): Directory
    requires Settleable(d, t)
  {
    var d1 := SetState(d, t.key, t.destination, if kept then READY else ERROR);
    var d2 := if kept then d1 else Remove(d1, t.key, t.destination);
    var d3 := SetState(d2, t.key, t.source, READY);
    SetPins(d3, t.key, d3.records[t.key].pinCount - 1)
  }

  function Ended(s: System, id: nat, state: MigrationState): System
    requires id in s.tasks && Settleable(s.dir, s.tasks[id])
  {
    s.(dir := Settled(s.dir, s.tasks[id], state == COMPLETED)).WithTask(id, s.tasks[id].(state := state))
  }

  /** A cancelled write may have been published already: its file goes too. */
  function Cancelled(s: System, id: nat): System
    requires id in s.tasks && Settleable(s.dir, s.tasks[id])
  {
    var t := s.tasks[id];
    Ended(if t.destination == NVME then s.(files := s.files - {t.destinationLoc.slot}) else s, id, CANCELLED)
  }

  function Polled(s: System, id: nat): System
    requires id in s.tasks && Settleable(s.dir, s.tasks[id])
  {
    match s.tasks[id].outcome
    case Pending => s
    case Failed => Ended(s, id, FAILED)
    case Succeeded => if s.tasks[id].cancelRequested then Cancelled(s, id) else Ended(s, id, COMPLETED)
  }

  // ---------------------------------------------------------------- submission

  predicate CanSubmit(s: System, key: CacheKey, source: StorageTier, destination: StorageTier, loc: Location) {
    IsSource(s.dir, key, destination, source) && Placeable(s.dir, key, destination, loc)
  }

  /** Source marked, destination placed. */
  function Prepared(d: Directory, key: CacheKey, source: StorageTier, destination: StorageTier,
                    loc: Location): Directory
    requires IsSource(d, key, destination, source) && Placeable(d, key, destination, loc)
  {
    Place(SetState(d, key, source, COPYING), key, destination, ArrivalState(destination), loc)
  }

  function NewTask(d: Directory, key: CacheKey, source: StorageTier, destination: StorageTier, loc: Location,
                   priority: int): Task
    requires d.HasReplica(key, source)
  {
    Task(key, source, destination, d.ReplicaOf(key, source).location, loc, priority,
         if source == GPU || destination == GPU then RUNNING else QUEUED, false, Pending)
  }

  function Submitted(s: System, key: CacheKey, source: StorageTier, destination: StorageTier, loc: Location,
                     priority: int): System
    requires CanSubmit(s, key, source, destination, loc)
  {
    var d := Prepared(s.dir, key, source, destination, loc);
    var t := NewTask(s.dir, key, source, destination, loc, priority);
    s.(dir := SetPins(d, key, d.records[key].pinCount + 1), tasks := s.tasks[s.nextId := t], nextId := s.nextId + 1,
       queue := if t.UsesCuda() then s.queue else s.queue + [s.nextId])
  }

  /** The transfer could not be started: the destination slot is given back, the source is READY again. */
  function RolledBack(d: Directory, key: CacheKey, source: StorageTier, destination: StorageTier,
                      loc: Location): Directory
    requires IsSource(d, key, destination, source) && Placeable(d, key, destination, loc)
  {
    var e := SetState(Prepared(d, key, source, destination, loc), key, destination, ERROR);
    SetState(Remove(e, key, destination), key, source, READY)
  }

  /** A copy that was under way when the submission failed may have left anything in the slot it was for. */
  function Spilt(s: System, key: CacheKey, t: StorageTier, slot: nat, junk: Option<Payload>): System {
    if junk.None? || t == NVME then s else Store(s, key, t, slot, junk.value)
  }

  function Abandoned(s: System, key: CacheKey, source: StorageTier, destination: StorageTier, loc: Location,
                     junk: Option<Payload>): System
    requires CanSubmit(s, key, source, destination, loc)
  {
    Spilt(s, key, destination, loc.slot, junk)
      .(dir := RolledBack(s.dir, key, source, destination, loc), nextId := s.nextId + 1)
  }

  // ---------------------------------------------------------------- the queue and the transfers

  /** Highest priority first, and among equals the oldest. */
  predicate Precedes(s: System, a: nat, b: nat)
    requires a in s.tasks && b in s.tasks
  {
    s.tasks[a].priority > s.tasks[b].priority || (s.tasks[a].priority == s.tasks[b].priority && a <= b)
  }

  predicate IsBest(s: System, id: nat) {
    && id in s.queue && id in s.tasks
    && forall other :: other in s.queue ==> other in s.tasks && Precedes(s, id, other)
  }

  /** The whole transfer, or a failure that may leave anything in the destination. */
  function Transferred(s: System, t: Task, ok: bool, junk: Option<ChunkFile>): System {
    if ok && SourceContent(s, t).Some? then
      Store(s, t.key, t.destination, t.destinationLoc.slot, SourceContent(s, t).value)
    else if junk.None? then s
    else if t.destination == NVME then s.(files := s.files[t.destinationLoc.slot := junk.value])
    else Store(s, t.key, t.destination, t.destinationLoc.slot, junk.value.payload)
  }

  function Verdict(s: System, t: Task, ok: bool): Outcome {
    if ok && SourceContent(s, t).Some? then Succeeded else Failed
  }

  function Moved(s: System, id: nat, ok: bool, junk: Option<ChunkFile>): System
    requires id in s.tasks
  {
    Transferred(s, s.tasks[id], ok, junk).WithTask(id, s.tasks[id].(outcome := Verdict(s, s.tasks[id], ok)))
  }

  // ---------------------------------------------------------------- steps

  datatype Step =
    | Register(key: CacheKey) | Unregister(key: CacheKey)
    | AddReplica(key: CacheKey, tier: StorageTier, loc: Location, state: ChunkState)
    | DropReplica(key: CacheKey, tier: StorageTier)
    | Mark(key: CacheKey, tier: StorageTier, state: ChunkState)
    | Note(key: CacheKey, version: nat, refCount: nat)
    | Pin(key: CacheKey) | Unpin(key: CacheKey)
    | Write(key: CacheKey, tier: StorageTier, payload: Payload)
    | Submit(key: CacheKey, source: StorageTier, destination: StorageTier, loc: Location, priority: int)
    | SubmitRolledBack(key: CacheKey, source: StorageTier, destination: StorageTier, loc: Location,
                       spilt: Option<Payload>)
    | SubmitRefused
    | Poll(id: nat)
    | CancelRead(id: nat) | CancelFlag | CancelLock | CancelReread
    | Take(worker: nat, id: nat) | Check(worker: nat) | Io(worker: nat, ok: bool, junk: Option<ChunkFile>)
    | Dma(id: nat, ok: bool, junk: Option<ChunkFile>)

  /** The replica takes part in an unfinished migration. */
  ghost predicate InFlight(s: System, key: CacheKey, t: StorageTier) {
    exists id :: s.Live(id) && s.tasks[id].key == key && (s.tasks[id].source == t || s.tasks[id].destination == t)
  }

  function ClientPins(s: System, key: CacheKey): nat {
    if key in s.clientPins then s.clientPins[key] else 0
  }

  function PinCount(d: Directory, key: CacheKey): nat {
    if key in d.records then d.records[key].pinCount else 0
  }

  /** What the engine's client does to the directory and to replicas at rest. Clients leave replicas in
      flight alone and return only pins of their own; dropping a replica is refused by the directory itself. */
  ghost predicate ClientNext(s: System, step: Step, u: System) {
    match step
    case Register(key) => key !in s.dir.records && u == s.(dir := Create(s.dir, key))
    case Unregister(key) => Destroyable(s.dir, key) && u == s.(dir := Destroy(s.dir, key))
    case AddReplica(key, t, loc, state) =>
      Placeable(s.dir, key, t, loc) && u == s.(dir := Place(s.dir, key, t, state, loc))
    case DropReplica(key, t) => Removable(s.dir, key, t) && u == s.(dir := Remove(s.dir, key, t))
    case Mark(key, t, state) =>
      s.dir.HasReplica(key, t) && !InFlight(s, key, t) && u == s.(dir := SetState(s.dir, key, t, state))
    case Note(key, version, refCount) =>
      key in s.dir.records
      && u == s.(dir := s.dir.WithRecord(key, s.dir.records[key].(version := version, refCount := refCount)))
    case Pin(key) =>
      key in s.dir.records
      && u == s.(dir := SetPins(s.dir, key, PinCount(s.dir, key) + 1),
                 clientPins := s.clientPins[key := ClientPins(s, key) + 1])
    case Unpin(key) =>
      key in s.dir.records && ClientPins(s, key) > 0 && PinCount(s.dir, key) > 0
      && u == s.(dir := SetPins(s.dir, key, PinCount(s.dir, key) - 1),
                 clientPins := s.clientPins[key := ClientPins(s, key) - 1])
    case Write(key, t, p) =>
      t != NVME && s.dir.HasReplica(key, t) && !InFlight(s, key, t)
      && u == Store(s, key, t, s.dir.ReplicaOf(key, t).location.slot, p)
    case _ => false
  }

  ghost predicate SubmitNext(s: System, step: Step, u: System) {
    match step
    case Submit(key, source, destination, loc, priority) =>
      CanSubmit(s, key, source, destination, loc) && u == Submitted(s, key, source, destination, loc, priority)
    case SubmitRolledBack(key, source, destination, loc, junk) =>
      && CanSubmit(s, key, source, destination, loc)
      && u == Abandoned(s, key, source, destination, loc, junk)
    case SubmitRefused => u == s.(nextId := s.nextId + 1)
    case _ => false
  }

  ghost predicate PollNext(s: System, id: nat, u: System) {
    && id in s.tasks
    && if s.tasks[id].state == RUNNING then Settleable(s.dir, s.tasks[id]) && u == Polled(s, id) else u == s
  }

  /** cancel, one shared access at a time; workers run between any two of its steps. */
  ghost predicate CancelNext(s: System, step: Step, u: System) {
    match (step, s.owner)
    case (CancelRead(id), Idle) =>
      id in s.tasks && u == if s.Live(id) then s.(owner := Observed(id, 1, s.tasks[id].state)) else s
    case (CancelFlag, Observed(id, pass, seen)) =>
      && id in s.tasks
      && u == s.WithTask(id, s.tasks[id].(cancelRequested := true))
               .(owner := if seen == RUNNING then Idle else Flagged(id, pass))
    case (CancelLock, Flagged(id, pass)) =>
      if id in s.queue
      then id in s.tasks && Settleable(s.dir, s.tasks[id])
           && u == Cancelled(s, id).(queue := Without(s.queue, id), owner := Idle)
      else u == s.(owner := Retrying(id, pass + 1))
    case (CancelReread, Retrying(id, pass)) =>
      && id in s.tasks
      && u == if s.Live(id) then s.(owner := Observed(id, pass, s.tasks[id].state)) else s.(owner := Idle)
    case _ => false
  }

  /** Workers and the device, at any time. Taking a task off the queue and marking it RUNNING share one
      critical section. */
  ghost predicate WorkerNext(s: System, step: Step, u: System) {
    match step
    case Take(w, id) =>
      && w < |s.workers| && s.workers[w] == Waiting && IsBest(s, id)
      && u == s.WithTask(id, s.tasks[id].(state := RUNNING)).(queue := Without(s.queue, id),
                                                              workers := s.workers[w := Took(id)])
    case Check(w) =>
      && w < |s.workers| && s.workers[w].Took? && s.workers[w].id in s.tasks
      && var id := s.workers[w].id;
         u == if s.tasks[id].cancelRequested
              then s.WithTask(id, s.tasks[id].(outcome := Succeeded)).(workers := s.workers[w := Waiting])
              else s.(workers := s.workers[w := Working(id)])
    case Io(w, ok, junk) =>
      && w < |s.workers| && s.workers[w].Working? && s.workers[w].id in s.tasks
      && u == Moved(s, s.workers[w].id, ok, junk).(workers := s.workers[w := Waiting])
    case Dma(id, ok, junk) =>
      && id in s.tasks && s.tasks[id].UsesCuda() && s.tasks[id].state == RUNNING && s.tasks[id].outcome == Pending
      && u == Moved(s, id, ok, junk)
    case _ => false
  }

  ghost predicate Next(s: System, step: Step, u: System) {
    || (s.owner == Idle && (ClientNext(s, step, u) || SubmitNext(s, step, u)))
    || (s.owner == Idle && step.Poll? && PollNext(s, step.id, u))
    || CancelNext(s, step, u)
    || WorkerNext(s, step, u)
  }

  ghost predicate Initial(s: System) {
    && DirectoryInv(s.dir) && |s.gpu| == |s.dir.gpu.generations| && |s.cpu| == |s.dir.cpu.generations|
    && s.tasks == map[] && s.queue == [] && s.owner == Idle
    && (forall w :: 0 <= w < |s.workers| ==> s.workers[w] == Waiting)
    && (forall key :: PinCount(s.dir, key) == ClientPins(s, key))
  }

  ghost predicate StepAt(trace: seq<System>, steps: seq<Step>, i: nat)
    requires i < |steps| && |trace| == |steps| + 1
  {
    Next(trace[i], steps[i], trace[i + 1])
  }

  ghost predicate Run(trace: seq<System>, steps: seq<Step>) {
    && |trace| == |steps| + 1 && Initial(trace[0])
    && forall i {:trigger StepAt(trace, steps, i)} :: 0 <= i < |steps| ==> StepAt(trace, steps, i)
  }
}
