/** What every step of the migration engine keeps, whatever the interleaving. */
module MigrationSafety {
  import opened Common
  import opened CacheDirectories
  import opened MigrationProtocol

  // ---------------------------------------------------------------- invariant

  /** Both ends of the migration are registered at the task's own slots and neither is READY. */
  ghost predicate Held(d: Directory, t: Task) {
    && Direct(t.source, t.destination)
    && d.HasReplica(t.key, t.source) && d.ReplicaOf(t.key, t.source) == Replica(t.sourceLoc, COPYING)
    && d.HasReplica(t.key, t.destination)
    && d.ReplicaOf(t.key, t.destination) == Replica(t.destinationLoc, ArrivalState(t.destination))
  }

  /** A transfer reported done, and not to be discarded, has put the source's bytes in the destination. */
  ghost predicate Copied(s: System, t: Task) {
    t.outcome == Succeeded && !t.cancelRequested ==>
      SourceContent(s, t).Some? && DestinationContent(s, t) == SourceContent(s, t)
  }

  ghost predicate Sized(s: System) {
    DirectoryInv(s.dir) && |s.gpu| == |s.dir.gpu.generations| && |s.cpu| == |s.dir.cpu.generations|
  }

  ghost predicate AllHeld(s: System) {
    forall id :: s.Live(id) ==> Held(s.dir, s.tasks[id])
  }

  ghost predicate AllCopied(s: System) {
    forall id :: s.Live(id) ==> Copied(s, s.tasks[id])
  }

  /** A chunk has at most one unfinished migration. */
  ghost predicate Exclusive(s: System) {
    forall i, j :: s.Live(i) && s.Live(j) && s.tasks[i].key == s.tasks[j].key ==> i == j
  }

  ghost predicate Migrating(s: System, key: CacheKey) {
    exists id :: s.Live(id) && s.tasks[id].key == key
  }

  /** Every chunk is pinned by its clients and once more by its unfinished migration, if it has one. */
  ghost predicate PinsBalanced(s: System) {
    forall key :: PinCount(s.dir, key) == ClientPins(s, key) + if Migrating(s, key) then 1 else 0
  }

  /** The queue holds each QUEUED task once and nothing else. */
  ghost predicate QueueOk(s: System) {
    && NoDup(s.queue)
    && (forall id :: id in s.queue <==> id in s.tasks && s.tasks[id].state == QUEUED)
    && (forall id :: id in s.queue ==> id in s.tasks && !s.tasks[id].UsesCuda() && s.tasks[id].outcome == Pending)
  }

  predicate Holds(w: Worker, id: nat) {
    w == Took(id) || w == Working(id)
  }

  /** What a worker holds is a running, unreported I/O task. */
  predicate AwaitsWorker(s: System, id: nat) {
    id in s.tasks && s.tasks[id].state == RUNNING && !s.tasks[id].UsesCuda() && s.tasks[id].outcome == Pending
  }

  ghost predicate HasWorker(s: System, id: nat) {
    exists w :: 0 <= w < |s.workers| && Holds(s.workers[w], id)
  }

  /** Running I/O tasks and busy workers correspond one to one: no task is lost, none is run twice. */
  ghost predicate WorkersOk(s: System) {
    && (forall w :: 0 <= w < |s.workers| && s.workers[w] != Waiting ==> AwaitsWorker(s, s.workers[w].id))
    && (forall v, w :: 0 <= v < w < |s.workers| && s.workers[v] != Waiting && s.workers[w] != Waiting ==>
          s.workers[v].id != s.workers[w].id)
    && (forall id :: AwaitsWorker(s, id) ==> HasWorker(s, id))
  }

  ghost predicate IdsOk(s: System) {
    forall id :: id in s.tasks ==> id < s.nextId && (s.tasks[id].cancelRequested ==> s.tasks[id].state != COMPLETED)
  }

  /** Inside cancel: the task is unfinished, and the second pass can only find it RUNNING. */
  ghost predicate OwnerOk(s: System) {
    match s.owner
    case Idle => true
    case Observed(id, pass, seen) =>
      && s.Live(id) && 1 <= pass <= 2 && (seen == QUEUED || seen == RUNNING)
      && (seen == RUNNING ==> s.tasks[id].state == RUNNING) && (pass == 2 ==> seen == RUNNING)
    case Flagged(id, pass) => s.Live(id) && pass == 1 && s.tasks[id].cancelRequested
    case Retrying(id, pass) => pass == 2 && id in s.tasks && s.tasks[id].state == RUNNING && s.tasks[id].cancelRequested
  }

  ghost predicate InvBody(s: System) {
    && Sized(s) && AllHeld(s) && AllCopied(s) && Exclusive(s) && PinsBalanced(s)
    && QueueOk(s) && WorkersOk(s) && IdsOk(s) && OwnerOk(s)
  }

  /** The invariant, folded. */
  ghost predicate Inv(s: System) {
    forall t {:trigger Unseal(t)} :: t == s ==> InvBody(t)
  }

  lemma UnfoldInv(s: System)
    requires Inv(s)
    ensures InvBody(s)
  {
    assert Unseal(s);
  }

  lemma FoldInv(s: System)
    requires InvBody(s)
    ensures Inv(s)
  {
  }

  lemma InitialHasInv(s: System)
    requires Initial(s)
    ensures Inv(s)
  {
    assert forall key :: !Migrating(s, key);
    FoldInv(s);
  }

  // ---------------------------------------------------------------- frames

  /** Nothing about the tasks, the queue, the workers or the owner has changed. */
  ghost predicate SameTasks(s: System, u: System) {
    u.tasks == s.tasks && u.queue == s.queue && u.workers == s.workers && u.owner == s.owner && u.nextId == s.nextId
  }

  /** The replicas of `t` are where and what they were, and so are their bytes. */
  ghost predicate EndsAlike(s: System, u: System, t: Task) {
    && (Held(s.dir, t) ==> Held(u.dir, t))
    && SourceContent(u, t) == SourceContent(s, t) && DestinationContent(u, t) == DestinationContent(s, t)
  }

  /** Writing or erasing one slot shows in no replica elsewhere. */
  lemma StoreElsewhere(s: System, key: CacheKey, t: StorageTier, slot: nat, p: Payload,
                       k: CacheKey, v: StorageTier, other: nat)
    requires t != v || slot != other
    ensures Content(Store(s, key, t, slot, p), k, v, other) == Content(s, k, v, other)
  {
  }

  /** Two replicas never share a slot. */
  lemma SlotsApart(d: Directory, k1: CacheKey, t1: StorageTier, k2: CacheKey, t2: StorageTier)
    requires SlotsDistinct(d) && d.HasReplica(k1, t1) && d.HasReplica(k2, t2)
    requires k1 != k2 || t1 != t2
    ensures t1 != t2 || d.ReplicaOf(k1, t1).location.slot != d.ReplicaOf(k2, t2).location.slot
  {
  }

  lemma LiveIsInFlight(s: System, id: nat)
    requires s.Live(id)
    ensures InFlight(s, s.tasks[id].key, s.tasks[id].source) && InFlight(s, s.tasks[id].key, s.tasks[id].destination)
    ensures Migrating(s, s.tasks[id].key)
  {
  }

  // ---------------------------------------------------------------- client steps

  ghost predicate CountStep(step: Step) {
    step.Register? || step.Unregister? || step.Note? || step.Pin? || step.Unpin?
  }

  lemma CountsKeepReplicas(s: System, step: Step, u: System)
    requires DirectoryInv(s.dir) && ClientNext(s, step, u) && CountStep(step)
    ensures SameReplicas(s.dir, u.dir) && SameTasks(s, u) && u.gpu == s.gpu && u.cpu == s.cpu && u.files == s.files
  {
    match step {
      case Register(key) => CreateDestroyKeepInv(s.dir, key);
      case Unregister(key) => CreateDestroyKeepInv(s.dir, key);
      case Note(key, _, _) => CountsMoveNothing(s.dir, key, u.dir.records[key]);
      case Pin(key) => CountsMoveNothing(s.dir, key, u.dir.records[key]);
      case Unpin(key) => CountsMoveNothing(s.dir, key, u.dir.records[key]);
    }
  }

  /** A client never disturbs a replica in flight: it leaves its state alone, and the directory refuses to drop it. */
  lemma ClientKeepsReplica(s: System, step: Step, u: System, key: CacheKey, t: StorageTier)
    requires DirectoryInv(s.dir) && ClientNext(s, step, u)
    requires s.dir.HasReplica(key, t) && InFlight(s, key, t) && s.dir.ReplicaOf(key, t).state in {COPYING, LOADING}
    ensures u.dir.HasReplica(key, t) && u.dir.ReplicaOf(key, t) == s.dir.ReplicaOf(key, t)
    ensures var slot := s.dir.ReplicaOf(key, t).location.slot; Content(u, key, t, slot) == Content(s, key, t, slot)
  {
    if CountStep(step) {
      CountsKeepReplicas(s, step, u);
    } else {
      match step {
        case AddReplica(k, tier, loc, state) => AddKeepsReplica(s, k, tier, loc, state, u, key, t);
        case DropReplica(k, tier) => DropKeepsReplica(s, k, tier, u, key, t);
        case Mark(k, tier, state) => MarkKeepsReplica(s, k, tier, state, u, key, t);
        case Write(k, tier, p) => WriteKeepsReplica(s, k, tier, p, u, key, t);
      }
    }
  }

  lemma AddKeepsReplica(s: System, k: CacheKey, tier: StorageTier, loc: Location, state: ChunkState, u: System,
                        key: CacheKey, t: StorageTier)
    requires DirectoryInv(s.dir) && ClientNext(s, AddReplica(k, tier, loc, state), u) && s.dir.HasReplica(key, t)
    ensures u.dir.HasReplica(key, t) && u.dir.ReplicaOf(key, t) == s.dir.ReplicaOf(key, t)
    ensures u.gpu == s.gpu && u.cpu == s.cpu && u.files == s.files
  {
    PlaceChangesOne(s.dir, k, tier, state, loc);
  }

  lemma DropKeepsReplica(s: System, k: CacheKey, tier: StorageTier, u: System, key: CacheKey, t: StorageTier)
    requires DirectoryInv(s.dir) && ClientNext(s, DropReplica(k, tier), u)
    requires s.dir.HasReplica(key, t) && s.dir.ReplicaOf(key, t).state in {COPYING, LOADING}
    ensures u.dir.HasReplica(key, t) && u.dir.ReplicaOf(key, t) == s.dir.ReplicaOf(key, t)
    ensures u.gpu == s.gpu && u.cpu == s.cpu && u.files == s.files
  {
    RemoveKeepsInv(s.dir, k, tier);
  }

  lemma MarkKeepsReplica(s: System, k: CacheKey, tier: StorageTier, state: ChunkState, u: System, key: CacheKey,
                         t: StorageTier)
    requires ClientNext(s, Mark(k, tier, state), u) && s.dir.HasReplica(key, t) && InFlight(s, key, t)
    ensures u.dir.HasReplica(key, t) && u.dir.ReplicaOf(key, t) == s.dir.ReplicaOf(key, t)
    ensures u.gpu == s.gpu && u.cpu == s.cpu && u.files == s.files
  {
  }

  lemma WriteKeepsReplica(s: System, k: CacheKey, tier: StorageTier, p: Payload, u: System, key: CacheKey,
                          t: StorageTier)
    requires DirectoryInv(s.dir) && ClientNext(s, Write(k, tier, p), u) && s.dir.HasReplica(key, t)
             && InFlight(s, key, t)
    ensures u.dir == s.dir
    ensures var slot := s.dir.ReplicaOf(key, t).location.slot; Content(u, key, t, slot) == Content(s, key, t, slot)
  {
    SlotsApart(s.dir, k, tier, key, t);
    StoreElsewhere(s, k, tier, s.dir.ReplicaOf(k, tier).location.slot, p, key, t,
                   s.dir.ReplicaOf(key, t).location.slot);
  }

  lemma ClientKeepsEnds(s: System, step: Step, u: System, id: nat)
    requires DirectoryInv(s.dir) && ClientNext(s, step, u) && s.Live(id) && Held(s.dir, s.tasks[id])
    ensures EndsAlike(s, u, s.tasks[id])
  {
    var t := s.tasks[id];
    LiveIsInFlight(s, id);
    ClientKeepsReplica(s, step, u, t.key, t.source);
    ClientKeepsReplica(s, step, u, t.key, t.destination);
  }

  lemma ClientSameTasks(s: System, step: Step, u: System)
    requires ClientNext(s, step, u)
    ensures SameTasks(s, u)
  {
  }

  lemma ClientKeepsSized(s: System, step: Step, u: System)
    requires Sized(s) && ClientNext(s, step, u)
    ensures Sized(u) && SameTasks(s, u)
  {
    if CountStep(step) {
      CountsKeepReplicas(s, step, u);
      SameLocationsKeepInv(s.dir, u.dir);
    } else {
      match step {
        case AddReplica(key, tier, loc, state) => PlaceKeepsInv(s.dir, key, tier, state, loc);
        case DropReplica(key, tier) => RemoveKeepsInv(s.dir, key, tier);
        case Mark(key, tier, state) =>
          SetStateMovesNothing(s.dir, key, tier, state);
          SameLocationsKeepInv(s.dir, u.dir);
        case Write(_, _, _) =>
      }
    }
  }

  lemma ClientKeepsPins(s: System, step: Step, u: System)
    requires PinsBalanced(s) && ClientNext(s, step, u) && SameTasks(s, u)
    ensures PinsBalanced(u)
  {
    forall key ensures PinCount(u.dir, key) == ClientPins(u, key) + if Migrating(u, key) then 1 else 0 {
      SameTasksMigrating(s, u, key);
      assert PinCount(s.dir, key) == ClientPins(s, key) + if Migrating(s, key) then 1 else 0;
      ClientMovesPins(s, step, u, key);
    }
  }

  lemma SameTasksMigrating(s: System, u: System, key: CacheKey)
    requires u.tasks == s.tasks
    ensures Migrating(u, key) == Migrating(s, key)
  {
    assert forall id :: u.Live(id) == s.Live(id);
  }

  lemma ClientMovesPins(s: System, step: Step, u: System, key: CacheKey)
    requires ClientNext(s, step, u)
    ensures PinCount(u.dir, key) - PinCount(s.dir, key) == ClientPins(u, key) - ClientPins(s, key)
  {
    if !CountStep(step) { ReplicasMoveNoPins(s, step, u, key); }
  }

  lemma ReplicasMoveNoPins(s: System, step: Step, u: System, key: CacheKey)
    requires ClientNext(s, step, u) && !CountStep(step)
    ensures PinCount(u.dir, key) == PinCount(s.dir, key) && u.clientPins == s.clientPins
  {
  }

  lemma ClientKeepsInv(s: System, step: Step, u: System)
    requires Inv(s) && ClientNext(s, step, u)
    ensures Inv(u)
  {
    UnfoldInv(s);
    ClientKeepsSized(s, step, u);
    ClientKeepsPins(s, step, u);
    forall id | u.Live(id) ensures Held(u.dir, u.tasks[id]) && Copied(u, u.tasks[id]) {
      assert s.Live(id) && Held(s.dir, s.tasks[id]) && Copied(s, s.tasks[id]);
      ClientKeepsEnds(s, step, u, id);
    }
    SameTasksKeepRest(s, u);
    FoldInv(u);
  }

  lemma SameTasksKeepRest(s: System, u: System)
    requires SameTasks(s, u) && Exclusive(s) && QueueOk(s) && WorkersOk(s) && IdsOk(s) && OwnerOk(s)
    ensures Exclusive(u) && QueueOk(u) && WorkersOk(u) && IdsOk(u) && OwnerOk(u)
  {
    assert forall id :: u.Live(id) == s.Live(id);
    assert forall id :: AwaitsWorker(u, id) == AwaitsWorker(s, id);
    assert forall id :: HasWorker(u, id) == HasWorker(s, id);
  }

  // ---------------------------------------------------------------- submission

  /** Every replica but those of `key` on the two tiers is where and what it was. */
  ghost predicate AlikeBut(d: Directory, e: Directory, key: CacheKey, a: StorageTier, b: StorageTier) {
    forall k, u :: k != key || (u != a && u != b) ==>
      (e.HasReplica(k, u) <==> d.HasReplica(k, u)) && (d.HasReplica(k, u) ==> e.ReplicaOf(k, u) == d.ReplicaOf(k, u))
  }

  lemma SetStateChangesOne(d: Directory, key: CacheKey, t: StorageTier, state: ChunkState)
    requires d.HasReplica(key, t)
    ensures var e := SetState(d, key, t, state);
            && OthersAlike(d, e, key, t) && SameLocations(d, e)
            && e.HasReplica(key, t) && e.ReplicaOf(key, t) == Replica(d.ReplicaOf(key, t).location, state)
            && (DirectoryInv(d) ==> DirectoryInv(e))
            && (forall k :: PinCount(e, k) == PinCount(d, k)) && e.records.Keys == d.records.Keys
  {
    if DirectoryInv(d) { SameLocationsKeepInv(d, SetState(d, key, t, state)); }
  }

  lemma PreparedHolds(d: Directory, key: CacheKey, source: StorageTier, destination: StorageTier, loc: Location)
    requires DirectoryInv(d) && IsSource(d, key, destination, source) && Placeable(d, key, destination, loc)
    ensures var e := Prepared(d, key, source, destination, loc);
            && DirectoryInv(e) && AlikeBut(d, e, key, source, destination)
            && e.HasReplica(key, source)
            && e.ReplicaOf(key, source) == Replica(d.ReplicaOf(key, source).location, COPYING)
            && e.HasReplica(key, destination)
            && e.ReplicaOf(key, destination) == Replica(loc, ArrivalState(destination))
            && (forall k :: PinCount(e, k) == PinCount(d, k)) && e.records.Keys == d.records.Keys
            && |e.gpu.generations| == |d.gpu.generations| && |e.cpu.generations| == |d.cpu.generations|
  {
    SetStateChangesOne(d, key, source, COPYING);
    var d1 := SetState(d, key, source, COPYING);
    PlaceKeepsInv(d1, key, destination, ArrivalState(destination), loc);
  }

  /** The placed destination given up again, before the source is marked READY. */
  lemma UnplacedRestores(d: Directory, key: CacheKey, destination: StorageTier)
    requires DirectoryInv(d) && d.HasReplica(key, destination)
    ensures var e := Remove(SetState(d, key, destination, ERROR), key, destination);
            && DirectoryInv(e) && !e.HasReplica(key, destination) && OthersAlike(d, e, key, destination)
            && (forall t ::
                  e.Tier(t).taken
                  == d.Tier(t).taken - if t == destination then {d.ReplicaOf(key, t).location.slot} else {})
            && (forall k :: PinCount(e, k) == PinCount(d, k)) && e.records.Keys == d.records.Keys
            && |e.gpu.generations| == |d.gpu.generations| && |e.cpu.generations| == |d.cpu.generations|
  {
    SetStateChangesOne(d, key, destination, ERROR);
    RemoveKeepsInv(SetState(d, key, destination, ERROR), key, destination);
  }

  ghost predicate Restored(d: Directory, e: Directory) {
    && (forall k, t :: e.HasReplica(k, t) <==> d.HasReplica(k, t))
    && (forall k, t :: d.HasReplica(k, t) ==> e.ReplicaOf(k, t) == d.ReplicaOf(k, t))
  }

  lemma RestoredWhere(d: Directory, p: Directory, q: Directory, e: Directory, key: CacheKey, a: StorageTier,
                      b: StorageTier)
    requires AlikeBut(d, p, key, a, b) && OthersAlike(p, q, key, b) && OthersAlike(q, e, key, a)
    requires d.HasReplica(key, a) && e.HasReplica(key, a) && e.ReplicaOf(key, a) == d.ReplicaOf(key, a)
    requires a != b && !d.HasReplica(key, b) && !q.HasReplica(key, b)
    ensures Restored(d, e)
  {
  }

  /** A submission that could not start leaves every replica as it was; the slot it took is free again. */
  lemma RolledBackRestores(d: Directory, key: CacheKey, source: StorageTier, destination: StorageTier, loc: Location)
    requires DirectoryInv(d) && IsSource(d, key, destination, source) && Placeable(d, key, destination, loc)
    ensures var e := RolledBack(d, key, source, destination, loc);
            && DirectoryInv(e) && Restored(d, e) && (forall t :: e.Tier(t).taken == d.Tier(t).taken)
            && (forall k :: PinCount(e, k) == PinCount(d, k)) && e.records.Keys == d.records.Keys
            && |e.gpu.generations| == |d.gpu.generations| && |e.cpu.generations| == |d.cpu.generations|
  {
    PreparedHolds(d, key, source, destination, loc);
    var p := Prepared(d, key, source, destination, loc);
    UnplacedRestores(p, key, destination);
    var q := Remove(SetState(p, key, destination, ERROR), key, destination);
    SetStateChangesOne(q, key, source, READY);
    RestoredWhere(d, p, q, SetState(q, key, source, READY), key, source, destination);
  }

  /** Every route ends at the CPU tier, so a chunk that can be submitted is not migrating. */
  lemma SubmittableIsIdle(s: System, key: CacheKey, source: StorageTier, destination: StorageTier, loc: Location)
    requires AllHeld(s) && CanSubmit(s, key, source, destination, loc)
    ensures !Migrating(s, key)
  {
    forall id | s.Live(id) ensures s.tasks[id].key != key {
      assert Held(s.dir, s.tasks[id]);
    }
  }

  lemma SubmitKeepsTables(s: System, key: CacheKey, source: StorageTier, destination: StorageTier, loc: Location,
                          priority: int)
    requires TablesOk(s) && s.owner == Idle && CanSubmit(s, key, source, destination, loc)
    ensures TablesOk(Submitted(s, key, source, destination, loc, priority))
  {
    var u := Submitted(s, key, source, destination, loc, priority);
    assert s.nextId !in s.tasks;
    assert QueueOk(u);
    assert forall id :: AwaitsWorker(u, id) == AwaitsWorker(s, id);
    assert forall id :: HasWorker(u, id) == HasWorker(s, id);
  }

  lemma SubmitKeepsSized(s: System, key: CacheKey, source: StorageTier, destination: StorageTier, loc: Location,
                         priority: int)
    requires Sized(s) && CanSubmit(s, key, source, destination, loc)
    ensures var u := Submitted(s, key, source, destination, loc, priority);
            && Sized(u) && SameReplicas(Prepared(s.dir, key, source, destination, loc), u.dir)
  {
    var u := Submitted(s, key, source, destination, loc, priority);
    var e := Prepared(s.dir, key, source, destination, loc);
    PreparedHolds(s.dir, key, source, destination, loc);
    CountsMoveNothing(e, key, u.dir.records[key]);
    SameLocationsKeepInv(e, u.dir);
  }

  /** Only the task `id` has come, gone or changed. */
  ghost predicate OnlyTask(s: System, u: System, id: nat) {
    forall other :: other != id ==>
      (u.Live(other) <==> s.Live(other)) && (s.Live(other) ==> u.tasks[other] == s.tasks[other])
  }

  /** Every other unfinished migration concerns another chunk. */
  ghost predicate Alone(s: System, id: nat, key: CacheKey) {
    forall other :: s.Live(other) && other != id ==> s.tasks[other].key != key
  }

  lemma OtherKept(s: System, u: System, id: nat, key: CacheKey, a: StorageTier, b: StorageTier, other: nat)
    requires OnlyTask(s, u, id) && Alone(s, id, key) && AllHeld(s) && AlikeBut(s.dir, u.dir, key, a, b)
    requires other != id && u.Live(other)
    ensures s.Live(other) && u.tasks[other] == s.tasks[other] && u.tasks[other].key != key
            && Held(u.dir, u.tasks[other])
  {
    assert s.Live(other) && Held(s.dir, s.tasks[other]);
  }

  lemma OthersKept(s: System, u: System, id: nat, key: CacheKey, a: StorageTier, b: StorageTier)
    requires OnlyTask(s, u, id) && Alone(s, id, key) && AllHeld(s) && AlikeBut(s.dir, u.dir, key, a, b)
    requires Exclusive(s)
    requires u.Live(id) ==> Held(u.dir, u.tasks[id]) && u.tasks[id].key == key
    ensures AllHeld(u) && Exclusive(u)
  {
    forall other | u.Live(other)
      ensures Held(u.dir, u.tasks[other])
              && (other != id ==> s.Live(other) && u.tasks[other] == s.tasks[other] && u.tasks[other].key != key)
    {
      if other != id { OtherKept(s, u, id, key, a, b, other); }
    }
  }

  /** Only the task `id` has come or gone, and it concerns another chunk. */
  lemma MigratingUnless(s: System, u: System, id: nat, key: CacheKey)
    requires OnlyTask(s, u, id)
    requires s.Live(id) ==> s.tasks[id].key != key
    requires u.Live(id) ==> u.tasks[id].key != key
    ensures Migrating(u, key) == Migrating(s, key)
  {
    if Migrating(s, key) {
      var other :| s.Live(other) && s.tasks[other].key == key;
      assert u.Live(other);
    }
  }

  lemma SubmitChangesOne(s: System, key: CacheKey, source: StorageTier, destination: StorageTier, loc: Location,
                         priority: int)
    requires CanSubmit(s, key, source, destination, loc) && s.nextId !in s.tasks
    ensures var u := Submitted(s, key, source, destination, loc, priority);
            && OnlyTask(s, u, s.nextId) && u.Live(s.nextId) && !s.Live(s.nextId)
            && u.tasks[s.nextId] == NewTask(s.dir, key, source, destination, loc, priority)
            && u.gpu == s.gpu && u.cpu == s.cpu && u.files == s.files
  {
  }

  lemma SubmitKeepsHeld(s: System, key: CacheKey, source: StorageTier, destination: StorageTier, loc: Location,
                        priority: int)
    requires Sized(s) && AllHeld(s) && Exclusive(s) && s.nextId !in s.tasks
             && CanSubmit(s, key, source, destination, loc)
    ensures var u := Submitted(s, key, source, destination, loc, priority); AllHeld(u) && Exclusive(u)
  {
    SubmitChangesOne(s, key, source, destination, loc, priority);
    SubmittableIsIdle(s, key, source, destination, loc);
    PreparedHolds(s.dir, key, source, destination, loc);
    SubmitKeepsSized(s, key, source, destination, loc, priority);
    OthersKept(s, Submitted(s, key, source, destination, loc, priority), s.nextId, key, source, destination);
  }

  lemma SameBytesCopied(s: System, u: System, t: Task)
    requires Copied(s, t) && u.gpu == s.gpu && u.cpu == s.cpu && u.files == s.files
    ensures Copied(u, t)
  {
  }

  lemma SubmitKeepsCopied(s: System, key: CacheKey, source: StorageTier, destination: StorageTier, loc: Location,
                          priority: int)
    requires AllCopied(s) && s.nextId !in s.tasks && CanSubmit(s, key, source, destination, loc)
    ensures AllCopied(Submitted(s, key, source, destination, loc, priority))
  {
    var u := Submitted(s, key, source, destination, loc, priority);
    SubmitChangesOne(s, key, source, destination, loc, priority);
    forall id | u.Live(id) ensures Copied(u, u.tasks[id]) {
      if id != s.nextId {
        assert s.Live(id) && Copied(s, s.tasks[id]) && u.tasks[id] == s.tasks[id];
        SameBytesCopied(s, u, s.tasks[id]);
      }
    }
  }

  lemma SubmitKeepsPins(s: System, key: CacheKey, source: StorageTier, destination: StorageTier, loc: Location,
                        priority: int)
    requires Sized(s) && AllHeld(s) && PinsBalanced(s) && CanSubmit(s, key, source, destination, loc)
    requires s.nextId !in s.tasks
    ensures PinsBalanced(Submitted(s, key, source, destination, loc, priority))
  {
    var u := Submitted(s, key, source, destination, loc, priority);
    SubmitChangesOne(s, key, source, destination, loc, priority);
    SubmittableIsIdle(s, key, source, destination, loc);
    PreparedHolds(s.dir, key, source, destination, loc);
    LiveIsInFlight(u, s.nextId);
    forall k ensures PinCount(u.dir, k) == ClientPins(u, k) + if Migrating(u, k) then 1 else 0 {
      assert PinCount(s.dir, k) == ClientPins(s, k) + if Migrating(s, k) then 1 else 0;
      if k != key { MigratingUnless(s, u, s.nextId, k); }
    }
  }

  lemma SubmitKeepsInv(s: System, key: CacheKey, source: StorageTier, destination: StorageTier, loc: Location,
                       priority: int)
    requires Inv(s) && s.owner == Idle && CanSubmit(s, key, source, destination, loc)
    ensures Inv(Submitted(s, key, source, destination, loc, priority))
  {
    UnfoldInv(s);
    SubmitKeepsSized(s, key, source, destination, loc, priority);
    assert s.nextId !in s.tasks;
    SubmitKeepsHeld(s, key, source, destination, loc, priority);
    SubmitKeepsCopied(s, key, source, destination, loc, priority);
    SubmitKeepsPins(s, key, source, destination, loc, priority);
    SubmitKeepsTables(s, key, source, destination, loc, priority);
    FoldInv(Submitted(s, key, source, destination, loc, priority));
  }

  lemma RollbackKeepsInv(s: System, step: Step, u: System)
    requires Inv(s) && s.owner == Idle && SubmitNext(s, step, u) && !step.Submit?
    ensures Inv(u)
  {
    UnfoldInv(s);
    RefusalMovesNothing(s, step, u);
    RefusalKeepsTables(s, u);
    RefusalKeepsEnds(s, u);
    RefusalKeepsPins(s, u);
    FoldInv(u);
  }

  /** A submission that came to nothing has used up a task number; it has moved no replica, and written no slot that was
      taken. */
  ghost predicate Refused(s: System, u: System) {
    && u == s.(dir := u.dir, nextId := s.nextId + 1, gpu := u.gpu, cpu := u.cpu) && Sized(u) && Restored(s.dir, u.dir)
    && (forall k :: PinCount(u.dir, k) == PinCount(s.dir, k)) && TakenKept(s, u)
  }

  ghost predicate TakenKept(s: System, u: System) {
    forall key, t, slot: nat {:trigger Content(u, key, t, slot)} ::
      slot in s.dir.Tier(t).taken ==> Content(u, key, t, slot) == Content(s, key, t, slot)
  }

  lemma RefusalMovesNothing(s: System, step: Step, u: System)
    requires Sized(s) && SubmitNext(s, step, u) && !step.Submit?
    ensures Refused(s, u)
  {
    if step.SubmitRolledBack? {
      RolledBackRestores(s.dir, step.key, step.source, step.destination, step.loc);
      SpillKeepsTaken(s, step, u);
    }
  }

  lemma SpillKeepsTaken(s: System, step: Step, u: System)
    requires SubmitNext(s, step, u) && step.SubmitRolledBack?
    ensures TakenKept(s, u) && |u.gpu| == |s.gpu| && |u.cpu| == |s.cpu|
  {
    var b := Spilt(s, step.key, step.destination, step.loc.slot, step.spilt);
    SpiltSizes(s, step.key, step.destination, step.loc.slot, step.spilt);
    forall key, t, slot: nat | slot in s.dir.Tier(t).taken
      ensures Content(u, key, t, slot) == Content(s, key, t, slot)
    {
      SpiltElsewhere(s, step.key, step.destination, step.loc.slot, step.spilt, key, t, slot);
      SameBytesSameContent(b, u, key, t, slot);
    }
  }

  lemma SpiltSizes(s: System, key: CacheKey, t: StorageTier, slot: nat, junk: Option<Payload>)
    ensures var u := Spilt(s, key, t, slot, junk);
            u == s.(gpu := u.gpu, cpu := u.cpu) && |u.gpu| == |s.gpu| && |u.cpu| == |s.cpu|
  {
  }

  lemma SpiltElsewhere(s: System, key: CacheKey, t: StorageTier, slot: nat, junk: Option<Payload>,
                       k: CacheKey, v: StorageTier, other: nat)
    requires t != v || slot != other
    ensures Content(Spilt(s, key, t, slot, junk), k, v, other) == Content(s, k, v, other)
  {
    if junk.Some? && t != NVME { StoreElsewhere(s, key, t, slot, junk.value, k, v, other); }
  }

  lemma SameBytesSameContent(s: System, u: System, key: CacheKey, t: StorageTier, slot: nat)
    requires u.gpu == s.gpu && u.cpu == s.cpu && u.files == s.files
    ensures Content(u, key, t, slot) == Content(s, key, t, slot)
  {
  }

  lemma RefusalKeepsEnds(s: System, u: System)
    requires DirectoryInv(s.dir) && AllHeld(s) && AllCopied(s) && Refused(s, u)
    ensures AllHeld(u) && AllCopied(u)
  {
    forall id | u.Live(id) ensures Held(u.dir, u.tasks[id]) && Copied(u, u.tasks[id]) {
      assert s.Live(id) && Held(s.dir, s.tasks[id]) && Copied(s, s.tasks[id]);
      HeldIsTaken(s.dir, s.tasks[id]);
    }
  }

  lemma HeldIsTaken(d: Directory, t: Task)
    requires DirectoryInv(d) && Held(d, t)
    ensures t.sourceLoc.slot in d.Tier(t.source).taken && t.destinationLoc.slot in d.Tier(t.destination).taken
  {
    assert IsLive(d.Tier(t.source), d.ReplicaOf(t.key, t.source).location);
    assert IsLive(d.Tier(t.destination), d.ReplicaOf(t.key, t.destination).location);
  }

  lemma RefusalKeepsTables(s: System, u: System)
    requires TablesOk(s) && Exclusive(s) && Refused(s, u)
    ensures TablesOk(u) && Exclusive(u)
  {
    assert forall id :: u.Live(id) == s.Live(id);
    assert forall id :: AwaitsWorker(u, id) == AwaitsWorker(s, id);
    assert forall id :: HasWorker(u, id) == HasWorker(s, id);
  }

  lemma RefusalKeepsPins(s: System, u: System)
    requires PinsBalanced(s) && Refused(s, u)
    ensures PinsBalanced(u)
  {
    forall key ensures PinCount(u.dir, key) == ClientPins(u, key) + if Migrating(u, key) then 1 else 0 {
      SameTasksMigrating(s, u, key);
      assert PinCount(s.dir, key) == ClientPins(s, key) + if Migrating(s, key) then 1 else 0;
    }
  }

  // ---------------------------------------------------------------- the end of a task

  /** The source is READY where it was; the destination is READY too, or gone and its slot given back; the
      pin is returned. Nothing else in the directory has changed. */
  ghost predicate SettledAs(d: Directory, e: Directory, t: Task, kept: bool) {
    && DirectoryInv(e) && AlikeBut(d, e, t.key, t.source, t.destination)
    && e.HasReplica(t.key, t.source) && e.ReplicaOf(t.key, t.source) == Replica(t.sourceLoc, READY)
    && (kept ==>
          e.HasReplica(t.key, t.destination) && e.ReplicaOf(t.key, t.destination) == Replica(t.destinationLoc, READY))
    && (!kept ==> !e.HasReplica(t.key, t.destination) && t.destinationLoc.slot !in e.Tier(t.destination).taken)
    && (forall k :: PinCount(e, k) == PinCount(d, k) - if k == t.key then 1 else 0)
    && |e.gpu.generations| == |d.gpu.generations| && |e.cpu.generations| == |d.cpu.generations|
  }

  lemma SettledSettles(d: Directory, t: Task, kept: bool)
    requires DirectoryInv(d) && Held(d, t) && Settleable(d, t)
    ensures SettledAs(d, Settled(d, t, kept), t, kept)
  {
    SetStateChangesOne(d, t.key, t.destination, if kept then READY else ERROR);
    var d1 := SetState(d, t.key, t.destination, if kept then READY else ERROR);
    if !kept { RemoveKeepsInv(d1, t.key, t.destination); }
    var d2 := if kept then d1 else Remove(d1, t.key, t.destination);
    SetStateChangesOne(d2, t.key, t.source, READY);
    var d3 := SetState(d2, t.key, t.source, READY);
    var e := SetPins(d3, t.key, d3.records[t.key].pinCount - 1);
    CountsMoveNothing(d3, t.key, e.records[t.key]);
    SameLocationsKeepInv(d3, e);
  }

  /** The directory never throws when a running task is settled: both replicas are there and the pin is too. */
  lemma LiveIsSettleable(s: System, id: nat)
    requires AllHeld(s) && PinsBalanced(s) && s.Live(id)
    ensures Settleable(s.dir, s.tasks[id])
  {
    LiveIsInFlight(s, id);
    assert PinCount(s.dir, s.tasks[id].key) == ClientPins(s, s.tasks[id].key) + 1;
  }

  /** From `s` to `u` the live task `id` has reached a terminal state. */
  ghost predicate EndsTask(s: System, u: System, id: nat, state: MigrationState) {
    && s.Live(id) && (state == COMPLETED || state == FAILED || state == CANCELLED)
    && u.tasks == s.tasks[id := s.tasks[id].(state := state)]
    && SettledAs(s.dir, u.dir, s.tasks[id], state == COMPLETED)
    && u.gpu == s.gpu && u.cpu == s.cpu
    && (u.files == s.files
        || (s.tasks[id].destination == NVME && state == CANCELLED
            && u.files == s.files - {s.tasks[id].destinationLoc.slot}))
    && u.nextId == s.nextId && u.clientPins == s.clientPins && u.workers == s.workers && u.owner == Idle
    && u.queue == if s.tasks[id].state == QUEUED then Without(s.queue, id) else s.queue
  }

  lemma EndedIsOver(s: System, u: System, id: nat, state: MigrationState)
    requires EndsTask(s, u, id, state)
    ensures OnlyTask(s, u, id) && !u.Live(id)
  {
  }

  lemma EndKeepsHeld(s: System, u: System, id: nat, state: MigrationState)
    requires AllHeld(s) && Exclusive(s) && EndsTask(s, u, id, state)
    ensures AllHeld(u) && Exclusive(u)
  {
    EndedIsOver(s, u, id, state);
    assert Alone(s, id, s.tasks[id].key);
    OthersKept(s, u, id, s.tasks[id].key, s.tasks[id].source, s.tasks[id].destination);
  }

  /** Ending one task touches no other task's bytes. */
  lemma EndKeepsContent(s: System, u: System, id: nat, state: MigrationState, other: nat)
    requires SlotsDistinct(s.dir) && AllHeld(s) && Exclusive(s) && EndsTask(s, u, id, state)
    requires other != id && s.Live(other)
    ensures SourceContent(u, s.tasks[other]) == SourceContent(s, s.tasks[other])
    ensures DestinationContent(u, s.tasks[other]) == DestinationContent(s, s.tasks[other])
  {
    var t, v := s.tasks[id], s.tasks[other];
    assert Held(s.dir, t) && Held(s.dir, v) && t.key != v.key;
    SlotsApart(s.dir, t.key, t.destination, v.key, v.source);
    SlotsApart(s.dir, t.key, t.destination, v.key, v.destination);
  }

  lemma EndKeepsCopied(s: System, u: System, id: nat, state: MigrationState)
    requires SlotsDistinct(s.dir) && AllHeld(s) && AllCopied(s) && Exclusive(s) && EndsTask(s, u, id, state)
    ensures AllCopied(u)
  {
    EndedIsOver(s, u, id, state);
    forall other | u.Live(other) ensures Copied(u, u.tasks[other]) {
      assert s.Live(other) && Copied(s, s.tasks[other]);
      EndKeepsContent(s, u, id, state, other);
    }
  }

  lemma EndKeepsPins(s: System, u: System, id: nat, state: MigrationState)
    requires Exclusive(s) && PinsBalanced(s) && EndsTask(s, u, id, state)
    ensures PinsBalanced(u)
  {
    EndedIsOver(s, u, id, state);
    LiveIsInFlight(s, id);
    forall k ensures PinCount(u.dir, k) == ClientPins(u, k) + if Migrating(u, k) then 1 else 0 {
      assert PinCount(s.dir, k) == ClientPins(s, k) + if Migrating(s, k) then 1 else 0;
      if k == s.tasks[id].key {
        assert forall other :: u.Live(other) ==> s.Live(other) && u.tasks[other].key == s.tasks[other].key;
        assert !Migrating(u, k);
      } else {
        MigratingUnless(s, u, id, k);
      }
    }
  }

  lemma EndKeepsTables(s: System, u: System, id: nat, state: MigrationState)
    requires QueueOk(s) && WorkersOk(s) && IdsOk(s) && EndsTask(s, u, id, state) && !AwaitsWorker(s, id)
    requires state == COMPLETED ==> !s.tasks[id].cancelRequested
    ensures QueueOk(u) && WorkersOk(u) && IdsOk(u) && OwnerOk(u)
  {
    WithoutNoDup(s.queue, id);
    EndKeepsWorkers(s, u, id, state);
  }

  lemma EndKeepsWorkers(s: System, u: System, id: nat, state: MigrationState)
    requires WorkersOk(s) && EndsTask(s, u, id, state) && !AwaitsWorker(s, id)
    ensures WorkersOk(u)
  {
    assert forall other :: AwaitsWorker(u, other) == AwaitsWorker(s, other);
    assert forall other :: HasWorker(u, other) == HasWorker(s, other);
  }

  lemma EndKeepsInv(s: System, u: System, id: nat, state: MigrationState)
    requires Inv(s) && EndsTask(s, u, id, state) && !AwaitsWorker(s, id)
    requires state == COMPLETED ==> !s.tasks[id].cancelRequested
    ensures Inv(u)
  {
    UnfoldInv(s);
    EndKeepsHeld(s, u, id, state);
    EndKeepsCopied(s, u, id, state);
    EndKeepsPins(s, u, id, state);
    EndKeepsTables(s, u, id, state);
    FoldInv(u);
  }

  /** A poll changes nothing until the transfer has reported; then it ends the task, by what was reported. */
  lemma PollEnds(s: System, id: nat, u: System)
    requires Inv(s) && s.owner == Idle && PollNext(s, id, u)
    ensures u == s || (s.tasks[id].state == RUNNING && s.tasks[id].outcome != Pending
                       && EndsTask(s, u, id, if s.tasks[id].outcome == Failed then FAILED
                                             else if s.tasks[id].cancelRequested then CANCELLED else COMPLETED))
  {
    if u != s {
      RunningTask(s, id);
      SettledSettles(s.dir, s.tasks[id], s.tasks[id].outcome != Failed && !s.tasks[id].cancelRequested);
    }
  }

  lemma RunningTask(s: System, id: nat)
    requires Inv(s) && id in s.tasks && s.tasks[id].state == RUNNING
    ensures DirectoryInv(s.dir) && Held(s.dir, s.tasks[id]) && Settleable(s.dir, s.tasks[id]) && id !in s.queue
  {
    UnfoldInv(s);
    LiveIsSettleable(s, id);
  }

  /** A cancel that finds its task still queued ends it there and then. */
  lemma CancelLockEnds(s: System, u: System)
    requires Inv(s) && CancelNext(s, CancelLock, u) && s.owner.Flagged? && s.owner.id in s.queue
    ensures EndsTask(s, u, s.owner.id, CANCELLED) && s.tasks[s.owner.id].state == QUEUED
  {
    UnfoldInv(s);
    assert Held(s.dir, s.tasks[s.owner.id]);
    SettledSettles(s.dir, s.tasks[s.owner.id], false);
  }

  // ---------------------------------------------------------------- workers, the device, and cancel's own steps

  predicate SameJob(t: Task, v: Task) {
    && v.key == t.key && v.source == t.source && v.destination == t.destination && v.sourceLoc == t.sourceLoc
    && v.destinationLoc == t.destinationLoc && v.priority == t.priority
  }

  /** A task keeps its identity; once over it keeps its state; a cancellation request is never withdrawn. */
  ghost predicate Grows(t: Task, v: Task) {
    SameJob(t, v) && (!t.Unfinished() ==> v.state == t.state) && (t.cancelRequested ==> v.cancelRequested)
  }

  /** No task begins or ends; the directory and the pins stay as they are. */
  ghost predicate SameJobs(s: System, u: System) {
    && u.dir == s.dir && u.clientPins == s.clientPins && u.nextId == s.nextId && u.tasks.Keys == s.tasks.Keys
    && |u.gpu| == |s.gpu| && |u.cpu| == |s.cpu|
    && (forall id :: u.Live(id) <==> s.Live(id))
    && (forall id :: id in s.tasks ==> Grows(s.tasks[id], u.tasks[id]))
  }

  lemma SameJobsKeep(s: System, u: System)
    requires Inv(s) && SameJobs(s, u)
    ensures Sized(u) && AllHeld(u) && Exclusive(u) && PinsBalanced(u)
  {
    UnfoldInv(s);
    forall id | u.Live(id) ensures Held(u.dir, u.tasks[id]) {
      assert s.Live(id) && Held(s.dir, s.tasks[id]);
    }
    SameJobsKeepPins(s, u);
  }

  lemma SameJobsKeepPins(s: System, u: System)
    requires PinsBalanced(s) && SameJobs(s, u)
    ensures PinsBalanced(u)
  {
    forall k ensures PinCount(u.dir, k) == ClientPins(u, k) + if Migrating(u, k) then 1 else 0 {
      SameJobsMigrating(s, u, k);
      assert PinCount(s.dir, k) == ClientPins(s, k) + if Migrating(s, k) then 1 else 0;
    }
  }

  lemma SameJobsMigrating(s: System, u: System, key: CacheKey)
    requires SameJobs(s, u)
    ensures Migrating(u, key) == Migrating(s, key)
  {
    if Migrating(s, key) {
      var id :| s.Live(id) && s.tasks[id].key == key;
      assert u.Live(id) && u.tasks[id].key == key;
    }
    if Migrating(u, key) {
      var id :| u.Live(id) && u.tasks[id].key == key;
      assert s.Live(id) && s.tasks[id].key == key;
    }
  }

  /** A transfer writes its own destination slot and nothing else. */
  lemma TransferElsewhere(s: System, t: Task, ok: bool, junk: Option<ChunkFile>, k: CacheKey, v: StorageTier, slot: nat)
    requires v != t.destination || slot != t.destinationLoc.slot
    ensures Content(Transferred(s, t, ok, junk), k, v, slot) == Content(s, k, v, slot)
  {
  }

  lemma TransferKeepsOther(s: System, id: nat, ok: bool, junk: Option<ChunkFile>, other: nat)
    requires SlotsDistinct(s.dir) && AllHeld(s) && Exclusive(s) && s.Live(id) && s.Live(other) && other != id
    ensures var u := Transferred(s, s.tasks[id], ok, junk);
            && SourceContent(u, s.tasks[other]) == SourceContent(s, s.tasks[other])
            && DestinationContent(u, s.tasks[other]) == DestinationContent(s, s.tasks[other])
  {
    var t, v := s.tasks[id], s.tasks[other];
    assert Held(s.dir, t) && Held(s.dir, v) && t.key != v.key;
    SlotsApart(s.dir, t.key, t.destination, v.key, v.source);
    SlotsApart(s.dir, t.key, t.destination, v.key, v.destination);
    TransferElsewhere(s, t, ok, junk, v.key, v.source, v.sourceLoc.slot);
    TransferElsewhere(s, t, ok, junk, v.key, v.destination, v.destinationLoc.slot);
  }

  /** A transfer that succeeds has copied; one that fails has not touched the source. */
  lemma TransferCopies(s: System, id: nat, ok: bool, junk: Option<ChunkFile>)
    requires Sized(s) && AllHeld(s) && s.Live(id)
    ensures var u := Transferred(s, s.tasks[id], ok, junk);
            && SourceContent(u, s.tasks[id]) == SourceContent(s, s.tasks[id])
            && (Verdict(s, s.tasks[id], ok) == Succeeded ==>
                  SourceContent(s, s.tasks[id]).Some?
                  && DestinationContent(u, s.tasks[id]) == SourceContent(u, s.tasks[id]))
  {
    var t := s.tasks[id];
    assert Held(s.dir, t);
    assert IsLive(s.dir.Tier(t.destination), s.dir.ReplicaOf(t.key, t.destination).location);
    TransferElsewhere(s, t, ok, junk, t.key, t.source, t.sourceLoc.slot);
  }

  lemma TransferKeepsRest(s: System, t: Task, ok: bool, junk: Option<ChunkFile>)
    ensures var u := Transferred(s, t, ok, junk);
            && u.dir == s.dir && u.clientPins == s.clientPins && |u.gpu| == |s.gpu| && |u.cpu| == |s.cpu|
            && SameTasks(s, u)
  {
  }

  lemma MovedKeepsJobs(s: System, id: nat, ok: bool, junk: Option<ChunkFile>)
    requires id in s.tasks
    ensures var u := Moved(s, id, ok, junk);
            SameJobs(s, u) && u.queue == s.queue && u.workers == s.workers && u.owner == s.owner
            && u.tasks == s.tasks[id := s.tasks[id].(outcome := Verdict(s, s.tasks[id], ok))]
  {
    TransferKeepsRest(s, s.tasks[id], ok, junk);
  }

  lemma MovedCopiesOther(s: System, id: nat, ok: bool, junk: Option<ChunkFile>, other: nat)
    requires SlotsDistinct(s.dir) && AllHeld(s) && Exclusive(s) && s.Live(id) && s.Live(other) && other != id
    requires Copied(s, s.tasks[other])
    ensures Copied(Moved(s, id, ok, junk), s.tasks[other])
  {
    TransferKeepsOther(s, id, ok, junk, other);
  }

  lemma MovedCopiesOwn(s: System, id: nat, ok: bool, junk: Option<ChunkFile>)
    requires Sized(s) && AllHeld(s) && s.Live(id)
    ensures var u := Moved(s, id, ok, junk); Copied(u, u.tasks[id])
  {
    TransferCopies(s, id, ok, junk);
  }

  lemma MovedKeepsCopied(s: System, id: nat, ok: bool, junk: Option<ChunkFile>)
    requires Sized(s) && AllHeld(s) && AllCopied(s) && Exclusive(s) && s.Live(id)
    ensures AllCopied(Moved(s, id, ok, junk))
  {
    var u := Moved(s, id, ok, junk);
    MovedKeepsJobs(s, id, ok, junk);
    forall other | u.Live(other) ensures Copied(u, u.tasks[other]) {
      if other == id {
        MovedCopiesOwn(s, id, ok, junk);
      } else {
        assert s.Live(other) && u.tasks[other] == s.tasks[other];
        MovedCopiesOther(s, id, ok, junk, other);
      }
    }
  }

  /** No payload or file has changed, and no task has newly succeeded without being cancelled. */
  lemma SameBytesKeepCopied(s: System, u: System)
    requires AllCopied(s) && SameJobs(s, u) && u.gpu == s.gpu && u.cpu == s.cpu && u.files == s.files
    requires forall id :: s.Live(id) ==>
               (u.tasks[id].outcome == s.tasks[id].outcome
                && (s.tasks[id].cancelRequested ==> u.tasks[id].cancelRequested))
               || (u.tasks[id].cancelRequested)
    ensures AllCopied(u)
  {
    forall id | u.Live(id) ensures Copied(u, u.tasks[id]) {
      assert s.Live(id) && Copied(s, s.tasks[id]);
    }
  }

  ghost predicate TablesOk(s: System) {
    QueueOk(s) && WorkersOk(s) && IdsOk(s) && OwnerOk(s)
  }

  lemma DmaKeepsTables(s: System, step: Step, u: System)
    requires TablesOk(s) && WorkerNext(s, step, u) && step.Dma?
    ensures TablesOk(u)
  {
    MovedKeepsJobs(s, step.id, step.ok, step.junk);
    assert forall other :: AwaitsWorker(u, other) == AwaitsWorker(s, other);
    assert forall other :: HasWorker(u, other) == HasWorker(s, other);
  }

  /** Worker `w` has put down what it held, with the outcome reported. */
  lemma PutDownKeepsTables(s: System, u: System, w: nat, id: nat)
    requires TablesOk(s) && w < |s.workers| && Holds(s.workers[w], id)
    requires u.workers == s.workers[w := Waiting] && u.queue == s.queue && u.owner == s.owner && u.nextId == s.nextId
    requires id in s.tasks && exists outcome ::
               outcome != Pending && u.tasks == s.tasks[id := s.tasks[id].(outcome := outcome)]
    ensures TablesOk(u)
  {
    assert s.workers[w] != Waiting;
    assert AwaitsWorker(s, id);
    PutDownKeepsWorkers(s, u, w, id);
  }

  lemma PutDownKeepsWorkers(s: System, u: System, w: nat, id: nat)
    requires WorkersOk(s) && w < |s.workers| && Holds(s.workers[w], id) && u.workers == s.workers[w := Waiting]
    requires id in s.tasks && exists outcome ::
               outcome != Pending && u.tasks == s.tasks[id := s.tasks[id].(outcome := outcome)]
    ensures WorkersOk(u)
  {
    assert s.workers[w] != Waiting;
    assert forall other :: AwaitsWorker(u, other) <==> AwaitsWorker(s, other) && other != id;
    forall other | AwaitsWorker(u, other) ensures HasWorker(u, other) {
      assert HasWorker(s, other);
      var v :| 0 <= v < |s.workers| && Holds(s.workers[v], other);
      assert Holds(u.workers[v], other);
    }
  }

  lemma TakeKeepsTables(s: System, w: nat, id: nat, u: System)
    requires TablesOk(s) && WorkerNext(s, Take(w, id), u)
    ensures TablesOk(u)
  {
    WithoutNoDup(s.queue, id);
    assert !AwaitsWorker(s, id);
    assert forall other :: AwaitsWorker(u, other) <==> AwaitsWorker(s, other) || other == id;
    forall other | AwaitsWorker(u, other) ensures HasWorker(u, other) {
      if other == id {
        assert Holds(u.workers[w], id);
      } else {
        assert HasWorker(s, other);
        var v :| 0 <= v < |s.workers| && Holds(s.workers[v], other);
        assert Holds(u.workers[v], other);
      }
    }
  }

  lemma StartKeepsTables(s: System, w: nat, u: System)
    requires TablesOk(s) && WorkerNext(s, Check(w), u) && !s.tasks[s.workers[w].id].cancelRequested
    ensures TablesOk(u)
  {
    assert forall other :: AwaitsWorker(u, other) == AwaitsWorker(s, other);
    forall other | AwaitsWorker(u, other) ensures HasWorker(u, other) {
      assert HasWorker(s, other);
      var v :| 0 <= v < |s.workers| && Holds(s.workers[v], other);
      assert Holds(u.workers[v], other);
    }
  }

  lemma TakeKeepsInv(s: System, w: nat, id: nat, u: System)
    requires Inv(s) && WorkerNext(s, Take(w, id), u)
    ensures Inv(u) && SameJobs(s, u)
  {
    UnfoldInv(s);
    TakeKeepsTables(s, w, id, u);
    TakeKeepsCopied(s, w, id, u);
    SameJobsKeep(s, u);
    FoldInv(u);
  }

  lemma TakeKeepsCopied(s: System, w: nat, id: nat, u: System)
    requires QueueOk(s) && AllCopied(s) && WorkerNext(s, Take(w, id), u)
    ensures SameJobs(s, u) && AllCopied(u)
  {
    SameBytesKeepCopied(s, u);
  }

  /** Skipping a cancelled task reports success without a transfer, which no one will believe. */
  lemma CheckKeepsInv(s: System, w: nat, u: System)
    requires Inv(s) && WorkerNext(s, Check(w), u)
    ensures Inv(u) && SameJobs(s, u)
  {
    UnfoldInv(s);
    CheckKeepsTables(s, w, u);
    CheckKeepsCopied(s, w, u);
    SameJobsKeep(s, u);
    FoldInv(u);
  }

  lemma CheckKeepsCopied(s: System, w: nat, u: System)
    requires AllCopied(s) && WorkerNext(s, Check(w), u)
    ensures SameJobs(s, u) && AllCopied(u)
  {
    SameBytesKeepCopied(s, u);
  }

  lemma CheckKeepsTables(s: System, w: nat, u: System)
    requires TablesOk(s) && WorkerNext(s, Check(w), u)
    ensures TablesOk(u)
  {
    var id := s.workers[w].id;
    if s.tasks[id].cancelRequested {
      PutDownKeepsTables(s, u, w, id);
    } else {
      StartKeepsTables(s, w, u);
    }
  }

  lemma IoKeepsInv(s: System, w: nat, ok: bool, junk: Option<ChunkFile>, u: System)
    requires Inv(s) && WorkerNext(s, Io(w, ok, junk), u)
    ensures Inv(u) && SameJobs(s, u)
  {
    UnfoldInv(s);
    var id := s.workers[w].id;
    assert AwaitsWorker(s, id);
    var m := Moved(s, id, ok, junk);
    MovedKeepsJobs(s, id, ok, junk);
    MovedKeepsCopied(s, id, ok, junk);
    WorkersOnly(s, m, u);
    PutDownKeepsTables(s, u, w, id);
    SameJobsKeep(s, u);
    FoldInv(u);
  }

  lemma WorkersOnly(s: System, m: System, u: System)
    requires SameJobs(s, m) && AllCopied(m) && u == m.(workers := u.workers)
    ensures SameJobs(s, u) && AllCopied(u)
  {
    assert forall id :: u.Live(id) == m.Live(id);
    forall id | u.Live(id) ensures Copied(u, u.tasks[id]) {
      assert m.Live(id) && Copied(m, m.tasks[id]);
    }
  }

  lemma DmaKeepsInv(s: System, id: nat, ok: bool, junk: Option<ChunkFile>, u: System)
    requires Inv(s) && WorkerNext(s, Dma(id, ok, junk), u)
    ensures Inv(u) && SameJobs(s, u)
  {
    UnfoldInv(s);
    MovedKeepsJobs(s, id, ok, junk);
    DmaKeepsTables(s, Dma(id, ok, junk), u);
    MovedKeepsCopied(s, id, ok, junk);
    SameJobsKeep(s, u);
    FoldInv(u);
  }

  lemma OwnerIsOk(s: System)
    requires Inv(s)
    ensures OwnerOk(s)
  {
    UnfoldInv(s);
  }

  lemma WorkersOwn(s: System, w: nat)
    requires Inv(s) && w < |s.workers| && s.workers[w] != Waiting
    ensures AwaitsWorker(s, s.workers[w].id)
  {
    UnfoldInv(s);
  }

  lemma WorkerKeepsInv(s: System, step: Step, u: System)
    requires Inv(s) && WorkerNext(s, step, u)
    ensures Inv(u) && SameJobs(s, u)
  {
    match step {
      case Take(w, id) => TakeKeepsInv(s, w, id, u);
      case Check(w) => CheckKeepsInv(s, w, u);
      case Io(w, ok, junk) => IoKeepsInv(s, w, ok, junk, u);
      case Dma(id, ok, junk) => DmaKeepsInv(s, id, ok, junk, u);
    }
  }

  ghost predicate OnlyFlags(s: System, step: Step, u: System) {
    CancelNext(s, step, u) && !(step.CancelLock? && s.owner.Flagged? && s.owner.id in s.queue)
  }

  /** At most one task differs, and only in its request flag. */
  ghost predicate FlagsOne(s: System, u: System, id: nat) {
    u.tasks == s.tasks || (id in s.tasks && u.tasks == s.tasks[id := s.tasks[id].(cancelRequested := true)])
  }

  lemma FlagsShape(s: System, step: Step, u: System)
    requires OnlyFlags(s, step, u)
    ensures u == s.(tasks := u.tasks, owner := u.owner)
    ensures exists id: nat :: FlagsOne(s, u, id)
  {
    assert FlagsOne(s, u, if s.owner.Idle? then 0 else s.owner.id);
  }

  lemma FlagsKeepJobs(s: System, step: Step, u: System)
    requires OnlyFlags(s, step, u)
    ensures SameJobs(s, u) && u.queue == s.queue && u.workers == s.workers
    ensures u.gpu == s.gpu && u.cpu == s.cpu && u.files == s.files
    ensures forall id ::
              id in s.tasks ==> u.tasks[id].state == s.tasks[id].state && u.tasks[id].outcome == s.tasks[id].outcome
  {
    FlagsShape(s, step, u);
  }

  lemma FlagsKeepOwner(s: System, step: Step, u: System)
    requires TablesOk(s) && OnlyFlags(s, step, u)
    ensures OwnerOk(u) && IdsOk(u)
  {
  }

  /** Inside cancel, short of ending the task, only the owner's place and the request flag change. */
  lemma CancelKeepsTables(s: System, step: Step, u: System)
    requires TablesOk(s) && OnlyFlags(s, step, u)
    ensures TablesOk(u) && SameJobs(s, u) && u.gpu == s.gpu && u.cpu == s.cpu && u.files == s.files
  {
    FlagsKeepJobs(s, step, u);
    FlagsKeepOwner(s, step, u);
    assert forall other :: AwaitsWorker(u, other) == AwaitsWorker(s, other);
    assert forall other :: HasWorker(u, other) == HasWorker(s, other);
  }

  lemma CancelKeepsInv(s: System, step: Step, u: System)
    requires Inv(s) && CancelNext(s, step, u)
    ensures Inv(u)
  {
    if step.CancelLock? && s.owner.Flagged? && s.owner.id in s.queue {
      CancelLockEnds(s, u);
      EndKeepsInv(s, u, s.owner.id, CANCELLED);
    } else {
      FlagsKeepInv(s, step, u);
    }
  }

  lemma FlagsKeepCopied(s: System, step: Step, u: System)
    requires AllCopied(s) && OnlyFlags(s, step, u)
    ensures AllCopied(u)
  {
    FlagsKeepJobs(s, step, u);
    FlagsRequest(s, step, u);
    SameBytesKeepCopied(s, u);
  }

  lemma FlagsRequest(s: System, step: Step, u: System)
    requires OnlyFlags(s, step, u) && u.tasks.Keys == s.tasks.Keys
    ensures forall id :: id in s.tasks && s.tasks[id].cancelRequested ==> u.tasks[id].cancelRequested
  {
  }

  lemma FlagsKeepInv(s: System, step: Step, u: System)
    requires Inv(s) && OnlyFlags(s, step, u)
    ensures Inv(u)
  {
    UnfoldInv(s);
    CancelKeepsTables(s, step, u);
    FlagsKeepCopied(s, step, u);
    SameJobsKeep(s, u);
    FoldInv(u);
  }

  // ---------------------------------------------------------------- every step

  lemma NextKeepsInv(s: System, step: Step, u: System)
    requires Inv(s) && Next(s, step, u)
    ensures Inv(u)
  {
    if CancelNext(s, step, u) {
      CancelKeepsInv(s, step, u);
    } else if WorkerNext(s, step, u) {
      WorkerKeepsInv(s, step, u);
    } else if ClientNext(s, step, u) {
      ClientKeepsInv(s, step, u);
    } else if step.Poll? {
      PollEnds(s, step.id, u);
      if u != s {
        EndKeepsInv(s, u, step.id, u.tasks[step.id].state);
      }
    } else if step.Submit? {
      SubmitKeepsInv(s, step.key, step.source, step.destination, step.loc, step.priority);
    } else {
      RollbackKeepsInv(s, step, u);
    }
  }

  lemma {:induction false} RunKeepsInv(trace: seq<System>, steps: seq<Step>, i: nat)
    requires Run(trace, steps) && i < |trace|
    ensures Inv(trace[i])
  {
    if i == 0 {
      InitialHasInv(trace[0]);
    } else {
      RunKeepsInv(trace, steps, i - 1);
      assert StepAt(trace, steps, i - 1);
      NextKeepsInv(trace[i - 1], steps[i - 1], trace[i]);
    }
  }
}
