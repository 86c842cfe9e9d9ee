/** A client of the tiered block manager, and the plain store that it cannot tell from it: whatever is asked for, in
    whatever order, and whichever transfers fail, every answer is one that a store without tiers could give. */
module TieredClients {
  import opened Common
  import opened PagePool
  import opened TieredBlocks
  import opened TieredRecency
  import opened TieredPrefetches
  import opened TieredAges
  import opened TieredBlockManagers

  // ---------------------------------------------------------------- the plain store

  /** A block as its owners see it: the bytes last given, the references they hold, and the leases. */
  datatype Block = Block(bytes: Payload, refs: nat, leases: nat)

  type Store = map<Handle, Block>

  datatype Op =
    | Create(bytes: Payload)
    | Retain(block: Handle)
    | Release(block: Handle)
    | Read(block: Handle)
    | AcquireGpu(block: Handle)
    | Write(block: Handle, bytes: Payload)
    | Unpin(block: Handle)
    | Load(block: Handle)
    | Offload(block: Handle)
    | PrefetchNext(order: seq<Handle>, current: nat, nextN: nat, busy: bool)
    | Poll(busy: bool)
    | Wait

  /** The last: the client has no reference, or no lease, of its own to use. */
  datatype Answer = Made(handle: Handle) | Got(bytes: Payload) | Done | Failed(error: Error) | NotOurs

  datatype Event = Event(op: Op, answer: Answer)

  predicate Owned(store: Store, h: Handle) {
    h in store && store[h].refs > 0
  }

  predicate Leased(store: Store, h: Handle) {
    h in store && store[h].leases > 0
  }

  /** The block goes with its last reference. */
  function Put(store: Store, h: Handle, b: Block): Store {
    if b.refs + b.leases == 0 then store - {h} else store[h := b]
  }

  function After(store: Store, e: Event): Store {
    match (e.op, e.answer)
    case (Create(p), Made(h)) => store[h := Block(p, 1, 0)]
    case (Retain(h), Done) => if h in store then Put(store, h, store[h].(refs := store[h].refs + 1)) else store
    case (Release(h), Done) =>
      if Owned(store, h) then Put(store, h, store[h].(refs := store[h].refs - 1)) else store
    case (AcquireGpu(h), Done) => if h in store then Put(store, h, store[h].(leases := store[h].leases + 1)) else store
    case (Write(h, p), Done) => if h in store then Put(store, h, store[h].(bytes := p)) else store
    case (Unpin(h), Done) =>
      if Leased(store, h) then Put(store, h, store[h].(leases := store[h].leases - 1)) else store
    case _ => store
  }

  /** A block that is there can be refused for want of room or by the device, but never for not being there. */
  predicate Refuses(store: Store, h: Handle, error: Error) {
    Refused(error, h in store)
  }

  predicate Refused(error: Error, live: bool) {
    error in {InvalidArgument, CapacityError, OverflowError, DeviceError} && (error == InvalidArgument <==> !live)
  }

  predicate Fails(answer: Answer) {
    answer.Failed? && answer.error in {CapacityError, OverflowError, DeviceError}
  }

  predicate InWindow(order: seq<Handle>, current: nat, nextN: nat, k: nat) {
    current <= k <= current + nextN && k < |order|
  }

  ghost predicate Permits(store: Store, e: Event) {
    match e.op
    case Create(_) => (e.answer.Made? && e.answer.handle !in store) || Fails(e.answer)
    case Retain(h) => (e.answer.Done? && h in store) || (e.answer.Failed? && Refuses(store, h, e.answer.error))
    case Release(h) =>
      if h in store && !Owned(store, h) then e.answer.NotOurs?
      else (e.answer.Done? && h in store) || (e.answer.Failed? && Refuses(store, h, e.answer.error))
    case Read(h) =>
      || (e.answer.Got? && h in store && e.answer.bytes == store[h].bytes)
      || (e.answer.Failed? && Refuses(store, h, e.answer.error))
    case AcquireGpu(h) => (e.answer.Done? && h in store) || (e.answer.Failed? && Refuses(store, h, e.answer.error))
    case Write(h, _) => e.answer == if Leased(store, h) then Done else NotOurs
    case Unpin(h) => e.answer == if Leased(store, h) then Done else NotOurs
    case Load(h) => (e.answer.Done? && h in store) || (e.answer.Failed? && Refuses(store, h, e.answer.error))
    case Offload(h) =>
      || (e.answer.Done? && h in store && !Leased(store, h))
      || (e.answer == Failed(LogicError) && Leased(store, h))
      || (e.answer.Failed? && Refuses(store, h, e.answer.error) && !Leased(store, h))
    case PrefetchNext(order, current, nextN, _) =>
      && (e.answer.Done? || Fails(e.answer) || e.answer == Failed(OutOfRange) || e.answer == Failed(InvalidArgument))
      && (e.answer == Failed(OutOfRange) <==> current >= |order|)
      && (e.answer == Failed(InvalidArgument) <==>
            exists k: nat :: InWindow(order, current, nextN, k) && order[k] !in store)
    case Poll(_) => e.answer.Done? || Fails(e.answer)
    case Wait => e.answer.Done? || Fails(e.answer)
  }

  // ---------------------------------------------------------------- who has to leave the device

  /** The blocks that an operation is about: it uses them, or takes them from the device. */
  function About(e: Event, after: seq<nat>): set<nat> {
    match e.op
    case Load(h) => if e.answer == Failed(InvalidArgument) then {} else {h.id}
    case Read(h) => if e.answer == Failed(InvalidArgument) then {} else {h.id}
    case AcquireGpu(h) => if e.answer == Failed(InvalidArgument) then {} else {h.id}
    case Offload(h) => if e.answer != Failed(InvalidArgument) && h.id !in after then {h.id} else {}
    case Release(h) => if e.answer.Done? && h.id !in after then {h.id} else {}
    case Unpin(h) => if e.answer.Done? && h.id !in after then {h.id} else {}
    case _ => {}
  }

  /** The operations that may make another block leave the device. */
  predicate Evicts(op: Op) {
    op.Create? || op.Load? || op.Read? || op.AcquireGpu? || op.PrefetchNext?
  }

  /** Prefetching spares its window. */
  ghost function Spares(op: Op): set<nat> {
    match op
    case PrefetchNext(order, current, nextN, _) => Protected(order, current, nextN)
    case _ => {}
  }

  /** Failed transfers give back the block that was to leave; a failed prefetch, some outside its window. */
  predicate MayReturn(e: Event, before: seq<nat>, spared: set<nat>, back: set<nat>) {
    && (back != {} ==> e.answer.Failed? && (e.op.Offload? || Evicts(e.op)))
    && (match e.op
        case PrefetchNext(_, _, _, _) => forall i :: i in back ==> i !in spared
        case Offload(h) => back <= {h.id}
        case _ => forall i :: i in back ==> before != [] && i == before[0])
  }

  ghost function TurnOf(e: Event, before: seq<nat>, after: seq<nat>, back: set<nat>): Turn {
    Turn(before, after, About(e, after), back, Evicts(e.op), Spares(e.op))
  }

  /** What an event does to the list of unleased blocks on the device. Folded like `Sound`. */
  ghost predicate Takes(e: Event, s: Tiers, u: Tiers, back: set<nat>) {
    forall t {:trigger Unseal(t)} :: t == u ==>
      MayReturn(e, s.lru, Spares(e.op), back) && Fair(TurnOf(e, s.lru, t.lru, back))
  }

  lemma FoldTakes(e: Event, s: Tiers, u: Tiers, back: set<nat>)
    requires MayReturn(e, s.lru, Spares(e.op), back) && Fair(TurnOf(e, s.lru, u.lru, back))
    ensures Takes(e, s, u, back)
  {
  }

  lemma UnfoldTakes(e: Event, s: Tiers, u: Tiers, back: set<nat>)
    requires Takes(e, s, u, back)
    ensures MayReturn(e, s.lru, Spares(e.op), back) && Fair(TurnOf(e, s.lru, u.lru, back))
  {
    assert Unseal(u);
  }

  /** The turns of a run of events, from an empty device on. */
  ghost predicate Turns(events: seq<Event>, turns: seq<Turn>) {
    && |turns| == |events| && TieredAges.Run(turns)
    && forall k {:trigger turns[k]} :: 0 <= k < |turns| ==>
         turns[k] == TurnOf(events[k], turns[k].before, turns[k].after, turns[k].back)
         && MayReturn(events[k], turns[k].before, turns[k].spared, turns[k].back)
  }

  lemma TurnsGrow(events: seq<Event>, turns: seq<Turn>, e: Event, after: seq<nat>, back: set<nat>)
    requires Turns(events, turns) && Fair(TurnOf(e, Listed(turns, |turns|), after, back))
    requires MayReturn(e, Listed(turns, |turns|), Spares(e.op), back)
    ensures var t := TurnOf(e, Listed(turns, |turns|), after, back);
            Turns(events + [e], turns + [t]) && Listed(turns + [t], |turns| + 1) == after
  {
    var t := TurnOf(e, Listed(turns, |turns|), after, back);
    var longer := turns + [t];
    forall k {:trigger Fair(longer[k])} | 0 <= k < |longer| ensures Fair(longer[k]) {
      if k < |turns| { assert Fair(turns[k]); }
    }
    forall k: nat {:trigger Listed(longer, k)} | k < |longer| ensures longer[k].before == Listed(longer, k) {
      assert Listed(longer, k) == Listed(turns, k);
    }
  }

  /** A failure is the device's doing, or a counter's at its end, or everybody's who holds leases. */
  ghost predicate WornOut(s: Tiers) {
    SlotsWornOut(s) || NameWornOut(s.logical) || exists i: nat ::
      i < |s.logical.pages| && s.logical.pages[i].refs == MAX64
  }

  /** Leases hold every device slot, or a new block finds every name taken. */
  ghost predicate Crowded(s: Tiers, op: Op) {
    AllLeased(s) || (op.Create? && forall i :: 0 <= i < |s.logical.pages| ==> s.logical.pages[i].refs > 0)
  }

  /** A failure has a cause, and every failure of the device shows. Folded like `Sound`. */
  ghost predicate Excused(e: Event, s: Tiers, u: Tiers, broke: bool) {
    forall t {:trigger Unseal(t)} :: t == u ==> HasCause(e, s, t, broke)
  }

  ghost predicate HasCause(e: Event, s: Tiers, u: Tiers, broke: bool) {
    && (e.answer == Failed(DeviceError) <==> broke)
    && (e.answer == Failed(OverflowError) ==> WornOut(s) || WornOut(u))
    && (e.answer == Failed(CapacityError) ==> Crowded(s, e.op))
    && |u.device.pool.pages| == |s.device.pool.pages| && |u.logical.pages| == |s.logical.pages|
  }

  lemma UnfoldExcused(e: Event, s: Tiers, u: Tiers, broke: bool)
    requires Excused(e, s, u, broke)
    ensures HasCause(e, s, u, broke)
  {
    assert Unseal(u);
  }

  lemma FoldExcused(e: Event, s: Tiers, u: Tiers, broke: bool)
    requires HasCause(e, s, u, broke)
    ensures Excused(e, s, u, broke)
  {
  }

  lemma ChangedExcused(e: Event, s: Tiers, u: Tiers, i: nat, broke: bool)
    requires Elsewhere(s, u, i)
    requires e.answer == Failed(DeviceError) <==> broke
    requires e.answer == Failed(OverflowError) ==> WornOut(s) || WornOut(u)
    requires e.answer == Failed(CapacityError) ==> Crowded(s, e.op)
    ensures Excused(e, s, u, broke)
  {
    UnfoldElsewhere(s, u, i);
    FoldExcused(e, s, u, broke);
  }

  lemma MovedExcused(e: Event, s: Tiers, u: Tiers, broke: bool)
    requires Mild(s, u)
    requires e.answer == Failed(DeviceError) <==> broke
    requires e.answer == Failed(OverflowError) ==> WornOut(s) || WornOut(u)
    requires e.answer == Failed(CapacityError) ==> Crowded(s, e.op)
    ensures Excused(e, s, u, broke)
  {
    UnfoldMild(s, u);
    FoldExcused(e, s, u, broke);
  }

  lemma SameIsMild(s: Tiers)
    ensures Mild(s, s)
  {
    SameEntriesCalm(s, s, true);
    CalmIsMild(s, s, true);
  }

  lemma NotAsked(e: Event, s: Tiers)
    requires Sound(s) && e.answer.NotOurs? && !Evicts(e.op)
    ensures Excused(e, s, s, false) && Takes(e, s, s, {})
  {
    NobodyMoves(s, s, e);
    FoldExcused(e, s, s, false);
  }

  function LeasedIn(store: Store): set<Handle> {
    set h | h in store && store[h].leases > 0
  }

  /** Room is refused only while leases hold the whole device, or to a new block while there are as many as can be. */
  ghost predicate RefusedForRoom(store: Store, e: Event, gpu: nat, cpu: nat) {
    e.answer == Failed(CapacityError) ==> |LeasedIn(store)| >= gpu || (e.op.Create? && |store| >= cpu)
  }

  ghost predicate RoomIsFair(events: seq<Event>, gpu: nat, cpu: nat) {
    forall k {:trigger events[k]} :: 0 <= k < |events| ==> RefusedForRoom(StoreAfter(events[..k]), events[k], gpu, cpu)
  }

  lemma RoomStaysFair(events: seq<Event>, e: Event, gpu: nat, cpu: nat)
    requires RoomIsFair(events, gpu, cpu) && RefusedForRoom(StoreAfter(events), e, gpu, cpu)
    ensures RoomIsFair(events + [e], gpu, cpu)
  {
    var longer := events + [e];
    forall k | 0 <= k < |longer| ensures RefusedForRoom(StoreAfter(longer[..k]), longer[k], gpu, cpu) {
      assert longer[..k] == events[..k];
      if k == |events| { assert longer[..k] == events; } else { assert longer[k] == events[k]; }
    }
  }

  predicate DeviceFailed(events: seq<Event>) {
    exists k :: 0 <= k < |events| && events[k].answer == Failed(DeviceError)
  }

  lemma FailuresSoFar(events: seq<Event>, e: Event)
    ensures DeviceFailed(events + [e]) <==> DeviceFailed(events) || e.answer == Failed(DeviceError)
  {
    var longer := events + [e];
    assert longer[|events|] == e;
    if DeviceFailed(events) {
      var k :| 0 <= k < |events| && events[k].answer == Failed(DeviceError);
      assert longer[k] == events[k];
    }
  }

  // ---------------------------------------------------------------- histories

  ghost function StoreAfter(events: seq<Event>): Store {
    if events == [] then map[] else After(StoreAfter(events[..|events| - 1]), events[|events| - 1])
  }

  /** Every answer is the plain store's. */
  ghost predicate History(events: seq<Event>) {
    forall k {:trigger events[k]} :: 0 <= k < |events| ==> Permits(StoreAfter(events[..k]), events[k])
  }

  lemma HistoryGrows(events: seq<Event>, e: Event)
    requires History(events) && Permits(StoreAfter(events), e)
    ensures History(events + [e]) && StoreAfter(events + [e]) == After(StoreAfter(events), e)
  {
    var longer := events + [e];
    assert longer[..|events|] == events;
    forall k | 0 <= k < |longer| ensures Permits(StoreAfter(longer[..k]), longer[k]) {
      assert longer[..k] == events[..k];
      if k < |events| { assert longer[k] == events[k]; }
    }
  }

  /** The bytes that an event gives to block `h`. */
  function Given(e: Event, h: Handle): Option<Payload> {
    match (e.op, e.answer)
    case (Create(p), Made(g)) => if g == h then Some(p) else None
    case (Write(g, p), Done) => if g == h then Some(p) else None
    case _ => None
  }

  function LastGiven(events: seq<Event>, h: Handle): Option<Payload> {
    if events == [] then None
    else if Given(events[|events| - 1], h).Some? then Given(events[|events| - 1], h)
    else LastGiven(events[..|events| - 1], h)
  }

  lemma {:induction false} StoreKeepsLastGiven(events: seq<Event>, h: Handle)
    requires h in StoreAfter(events)
    ensures LastGiven(events, h) == Some(StoreAfter(events)[h].bytes)
  {
    var before, e := events[..|events| - 1], events[|events| - 1];
    if Given(e, h).None? {
      assert h in StoreAfter(before) && StoreAfter(before)[h].bytes == StoreAfter(events)[h].bytes;
      StoreKeepsLastGiven(before, h);
    }
  }

  /** The references and leases to block `h` that an event takes, or gives back. */
  function Gain(e: Event, h: Handle): int {
    match (e.op, e.answer)
    case (Create(_), Made(g)) => if g == h then 1 else 0
    case (Retain(g), Done) => if g == h then 1 else 0
    case (AcquireGpu(g), Done) => if g == h then 1 else 0
    case (Release(g), Done) => if g == h then -1 else 0
    case (Unpin(g), Done) => if g == h then -1 else 0
    case _ => 0
  }

  function Balance(events: seq<Event>, h: Handle): int {
    if events == [] then 0 else Balance(events[..|events| - 1], h) + Gain(events[|events| - 1], h)
  }

  function Held(store: Store, h: Handle): nat {
    if h in store then store[h].refs + store[h].leases else 0
  }

  lemma PrefixIsHistory(events: seq<Event>, n: nat)
    requires History(events) && n <= |events|
    ensures History(events[..n])
  {
    forall k | 0 <= k < n ensures Permits(StoreAfter(events[..n][..k]), events[..n][k]) {
      assert events[..n][..k] == events[..k] && Permits(StoreAfter(events[..k]), events[k]);
    }
  }

  lemma {:induction false} BalanceIsHeld(events: seq<Event>, h: Handle)
    requires History(events)
    ensures Balance(events, h) == Held(StoreAfter(events), h)
    ensures h in StoreAfter(events) ==> Held(StoreAfter(events), h) > 0
  {
    if events != [] {
      var n := |events| - 1;
      PrefixIsHistory(events, n);
      BalanceIsHeld(events[..n], h);
      StepBalances(StoreAfter(events[..n]), events[n], h);
    }
  }

  lemma StepBalances(store: Store, e: Event, h: Handle)
    requires Permits(store, e) && (h in store ==> Held(store, h) > 0)
    ensures Held(After(store, e), h) == Held(store, h) + Gain(e, h)
    ensures h in After(store, e) ==> Held(After(store, e), h) > 0
  {
  }

  /** In every history, a block is there exactly while more references and leases to it have been taken than given back;
      reading it then gives the bytes that its creator, or a writer under a lease, gave it last, or fails for another
      reason than that it is not there. */
  lemma ReadIsLastGiven(events: seq<Event>, k: nat)
    requires History(events) && k < |events| && events[k].op.Read?
    ensures var h, before := events[k].op.block, events[..k];
            && (events[k].answer.Got? ==>
                  LastGiven(before, h) == Some(events[k].answer.bytes) && Balance(before, h) > 0)
            && (events[k].answer == Failed(InvalidArgument) <==> Balance(before, h) == 0)
            && Balance(before, h) >= 0 && (events[k].answer.Got? || events[k].answer.Failed?)
  {
    var h := events[k].op.block;
    PrefixIsHistory(events, k);
    BalanceIsHeld(events[..k], h);
    if h in StoreAfter(events[..k]) { StoreKeepsLastGiven(events[..k], h); }
    assert Permits(StoreAfter(events[..k]), events[k]);
  }

  // ---------------------------------------------------------------- the manager keeps the store

  ghost predicate Keeps(s: Tiers, h: Handle, b: Block) {
    && Live(s.logical, h) && h.id < |s.contents| && s.contents[h.id] == b.bytes
    && s.logical.pages[h.id].refs == b.refs + b.leases
    && h.id < |s.entries| && s.entries[h.id].pins == b.leases
  }

  /** The manager has exactly the store's blocks. */
  ghost predicate Represents(s: Tiers, store: Store) {
    && (forall h :: Live(s.logical, h) ==> h in store)
    && (forall h :: h in store ==> Keeps(s, h, store[h]))
  }

  lemma MildRepresents(s: Tiers, u: Tiers, store: Store)
    requires Mild(s, u) && Represents(s, store)
    ensures Represents(u, store)
  {
    UnfoldMild(s, u);
    forall h | h in store ensures Keeps(u, h, store[h]) {
      assert Keeps(s, h, store[h]) && EntryKept(s.entries[h.id], u.entries[h.id]);
    }
  }

  lemma OtherKept(s: Tiers, u: Tiers, i: nat, g: Handle, b: Block)
    requires Elsewhere(s, u, i) && g.id != i && Keeps(s, g, b)
    ensures Keeps(u, g, b)
  {
    UnfoldElsewhere(s, u, i);
    assert EntryKept(s.entries[g.id], u.entries[g.id]);
  }

  /** One block has changed, or is gone. */
  lemma ChangedRepresents(s: Tiers, u: Tiers, store: Store, h: Handle, b: Block)
    requires Sound(s) && Sound(u) && Represents(s, store) && Elsewhere(s, u, h.id) && h in store
    requires if b.refs + b.leases == 0 then h.id < |u.logical.pages| && u.logical.pages[h.id].refs == 0
               else Keeps(u, h, b)
    ensures Represents(u, Put(store, h, b))
  {
    UnfoldElsewhere(s, u, h.id);
    assert Keeps(s, h, store[h]);
    forall g | Live(u.logical, g) ensures g in Put(store, h, b) {
      if g.id == h.id {
        LiveEntry(u, g);
      } else {
        assert Live(s.logical, g);
      }
    }
    forall g | g in Put(store, h, b) ensures Keeps(u, g, Put(store, h, b)[g]) {
      if g != h {
        assert Keeps(s, g, store[g]);
        OtherKept(s, u, h.id, g, store[g]);
      }
    }
  }

  lemma CreatedRepresents(s: Tiers, u: Tiers, store: Store, h: Handle, p: Payload)
    requires Sound(s) && Represents(s, store) && Elsewhere(s, u, h.id) && NothingLost(s, u)
    requires !Live(s.logical, h) && Keeps(u, h, Block(p, 1, 0))
    ensures h !in store && Represents(u, store[h := Block(p, 1, 0)])
  {
    UnfoldElsewhere(s, u, h.id);
    assert h in store ==> Keeps(s, h, store[h]);
    forall g | g in store ensures g.id != h.id && Keeps(u, g, store[g]) {
      assert Keeps(s, g, store[g]);
      LiveEntry(s, g);
      OtherKept(s, u, h.id, g, store[g]);
    }
    forall g | Live(u.logical, g) && g != h ensures g in store {
      assert Live(s.logical, g);
    }
  }

  /** The page of a live block was some live block's already. */
  lemma FailedRepresents(s: Tiers, u: Tiers, store: Store)
    requires Sound(s) && Sound(u) && Represents(s, store) && NothingLost(s, u) && SameRefs(s.logical, u.logical)
    ensures Represents(u, store)
  {
    forall g | Live(u.logical, g) ensures g in store {
      LiveEntry(u, g);
      var h := Handle(g.id, s.logical.pages[g.id].generation);
      ReferencedIsLive(s, h);
      LiveEntry(s, h);
      assert s.entries[g.id].live;
    }
    forall g | g in store ensures Keeps(u, g, store[g]) {
      assert Keeps(s, g, store[g]);
      LiveEntry(s, g);
      assert EntryKept(s.entries[g.id], u.entries[g.id]);
    }
  }

  lemma ReferencedIsLive(s: Tiers, h: Handle)
    requires Sound(s) && h.id < |s.logical.pages| && s.logical.pages[h.id].refs > 0
    requires s.logical.pages[h.id].generation == h.generation
    ensures Live(s.logical, h)
  {
    PoolInv(s);
    Partition(s.logical);
  }

  lemma BlankRepresents(s: Tiers)
    requires Sound(s) && forall i :: 0 <= i < |s.logical.pages| ==> s.logical.pages[i].refs == 0
    ensures Represents(s, map[])
  {
    forall h | Live(s.logical, h) ensures false { LiveEntry(s, h); }
  }

  lemma UnpinIsPut(store: Store, h: Handle)
    requires Leased(store, h)
    ensures After(store, Event(Unpin(h), Done)) == Put(store, h, store[h].(leases := store[h].leases - 1))
    ensures Permits(store, Event(Unpin(h), Done))
  {
  }

  lemma RetainIsPut(store: Store, h: Handle)
    requires h in store
    ensures After(store, Event(Retain(h), Done)) == Put(store, h, store[h].(refs := store[h].refs + 1))
    ensures Permits(store, Event(Retain(h), Done))
  {
  }

  // ---------------------------------------------------------------- room

  /** Slots that are leased belong to different blocks. */
  lemma {:induction false} LeasesHoldSlots(s: Tiers, store: Store, n: nat) returns (held: set<Handle>)
    requires Sound(s) && Represents(s, store) && AllLeased(s) && n <= |s.device.pool.pages|
    ensures |held| == n && held <= LeasedIn(store)
    ensures forall h ::
              h in held ==> h.id < |s.entries| && s.entries[h.id].gpu.Some? && s.entries[h.id].gpu.value.id < n
  {
    held := {};
    if n > 0 {
      var fewer := LeasesHoldSlots(s, store, n - 1);
      var h := LeaseOf(s, store, n - 1);
      held := fewer + {h};
    }
  }

  lemma LeaseOf(s: Tiers, store: Store, slot: nat) returns (h: Handle)
    requires Sound(s) && Represents(s, store) && AllLeased(s) && slot < |s.device.pool.pages|
    ensures h in LeasedIn(store) && h.id < |s.entries| && s.entries[h.id].gpu.Some?
            && s.entries[h.id].gpu.value.id == slot
  {
    assert LeasedSlot(s, slot);
    var i: nat :| OwnsSlot(s, i, slot) && s.entries[i].pins > 0;
    Unfold(s);
    MovingTransfers(s, i);
    if !OnTheMove(s.entries[i]) { assert RestOk(s.device, s.entries[i], i, s.contents[i]); }
    assert NameOk(s, i);
    h := Handle(i, s.logical.pages[i].generation);
    ReferencedIsLive(s, h);
    assert Keeps(s, h, store[h]);
  }

  lemma {:induction false} EveryNameTaken(s: Tiers, store: Store, n: nat) returns (held: set<Handle>)
    requires Sound(s) && Represents(s, store) && n <= |s.logical.pages|
    requires forall i :: 0 <= i < |s.logical.pages| ==> s.logical.pages[i].refs > 0
    ensures |held| == n && forall h :: h in held ==> h in store && h.id < n
  {
    held := {};
    if n > 0 {
      var fewer := EveryNameTaken(s, store, n - 1);
      var h := Handle(n - 1, s.logical.pages[n - 1].generation);
      ReferencedIsLive(s, h);
      held := fewer + {h};
    }
  }

  lemma {:induction false} Fewer<T>(a: set<T>, b: set<T>)
    requires a <= b
    ensures |a| <= |b|
  {
    if x :| x in a { Fewer(a - {x}, b - {x}); }
  }

  lemma CrowdedStore(s: Tiers, store: Store, e: Event)
    requires Sound(s) && Represents(s, store) && (e.answer == Failed(CapacityError) ==> Crowded(s, e.op))
    ensures RefusedForRoom(store, e, |s.device.pool.pages|, |s.logical.pages|)
  {
    if e.answer == Failed(CapacityError) {
      if AllLeased(s) {
        var held := LeasesHoldSlots(s, store, |s.device.pool.pages|);
        Fewer(held, LeasedIn(store));
      } else {
        var held := EveryNameTaken(s, store, |s.logical.pages|);
        assert held <= store.Keys;
        Fewer(held, store.Keys);
      }
    }
  }

  // ---------------------------------------------------------------- what each event does to the list

  lemma EmptyStore(s: Tiers, store: Store)
    requires Sound(s) && Represents(s, store) && store == map[]
    ensures s.lru == []
  {
    Unfold(s);
    if s.lru != [] {
      FirstIsLive(s);
    }
  }

  lemma FirstIsLive(s: Tiers)
    requires Sound(s) && s.lru != []
    ensures exists h :: Live(s.logical, h)
  {
    Unfold(s);
    var i := s.lru[0];
    assert i in s.lru && NameOk(s, i);
    ReferencedIsLive(s, Handle(i, s.logical.pages[i].generation));
  }

  /** Blocks may have come. */
  lemma NobodyMoves(s: Tiers, u: Tiers, e: Event)
    requires Sound(s) && Sound(u) && s.lru <= u.lru
    requires e.op.Retain? || e.op.Write? || e.op.Poll? || e.op.Wait? || e.answer.NotOurs?
    requires !Evicts(e.op)
    ensures Takes(e, s, u, {})
  {
    SoundPendingBelow(u);
    Arrived(TurnOf(e, s.lru, u.lru, {}));
    FoldTakes(e, s, u, {});
  }

  lemma CreateIsFair(s: Tiers, u: Tiers, a: Answer, p: Payload)
    requires Sound(s) && Sound(u) && OnlyOldestLeaves(s.lru, u.lru) && (a.Made? ==> Returned(s.lru, u.lru) == {})
    requires a.Made? || a.Failed?
    ensures Takes(Event(Create(p), a), s, u, Returned(s.lru, u.lru))
  {
    SoundPendingBelow(s);
    SoundPendingBelow(u);
    OldestLeft(TurnOf(Event(Create(p), a), s.lru, u.lru, Returned(s.lru, u.lru)));
    FoldTakes(Event(Create(p), a), s, u, Returned(s.lru, u.lru));
  }

  /** A block that is released is gone, or nothing happens to it. */
  lemma GoneOrNot(s: Tiers, u: Tiers, e: Event, i: nat)
    requires Sound(s) && Sound(u) && e.op.Release? && i == e.op.block.id && (e.answer.Done? || e.answer.Failed?)
    requires s.lru <= u.lru || (e.answer.Done? && i !in u.lru && Without(s.lru, i) <= u.lru)
    ensures Takes(e, s, u, {})
  {
    SoundPendingBelow(s);
    SoundPendingBelow(u);
    var t := TurnOf(e, s.lru, u.lru, {});
    if i in s.lru && i !in u.lru { OneMoved(t, i); } else { Arrived(t); }
    FoldTakes(e, s, u, {});
  }

  /** A block that is gone is not listed. */
  lemma ReleasedList(s: Tiers, u: Tiers, i: nat)
    requires Sound(u)
    ensures Without(s.lru, i) <= Without(AfterWait(s), i)
    ensures i < |u.entries| && u.entries[i] == BLANK ==> i !in u.lru
  {
    WithoutPrefixes(s.lru, AfterWait(s), i);
    if i < |u.entries| && u.entries[i] == BLANK { NotListed(u, i); }
  }

  lemma LeaseEnds(s: Tiers, u: Tiers, e: Event, i: nat)
    requires Sound(s) && Sound(u) && e.op.Unpin? && i == e.op.block.id && e.answer.Done? && i !in s.lru
    requires u.lru == s.lru || u.lru == s.lru + [i]
    ensures Takes(e, s, u, {})
  {
    SoundPendingBelow(u);
    Arrived(TurnOf(e, s.lru, u.lru, {}));
    FoldTakes(e, s, u, {});
  }

  lemma OffloadIsFair(s: Tiers, u: Tiers, e: Event, back: set<nat>)
    requires Sound(s) && Sound(u) && e.op.Offload? && (e.answer.Done? || e.answer.Failed?)
    requires s.lru == u.lru || Without(s.lru, e.op.block.id) <= u.lru
    requires var i := e.op.block.id;
             back == if e.answer.Failed? && i in s.lru && i in u.lru && s.lru != u.lru then {i} else {}
    requires e.answer.Done? ==> e.op.block.id !in u.lru
    requires e.answer == Failed(InvalidArgument) ==> u.lru == s.lru
    ensures Takes(e, s, u, back)
  {
    SoundPendingBelow(s);
    SoundPendingBelow(u);
    var i, t := e.op.block.id, TurnOf(e, s.lru, u.lru, back);
    if i in s.lru && s.lru != u.lru { OneMoved(t, i); } else { Arrived(t); }
    FoldTakes(e, s, u, back);
  }

  lemma OffloadedIsUnlisted(s: Tiers, u: Tiers, h: Handle)
    requires Sound(s) && Sound(u) && Live(s.logical, h) && Live(u.logical, h) && h.id < |u.entries|
    requires u.entries[h.id].move == ToCpu || u.entries[h.id].location == CPU_RESIDENT
    ensures h.id !in u.lru && h.id < |s.entries|
    ensures Without(s.lru, h.id) <= Without(AfterWait(s), h.id)
    ensures !Evictable(s.entries[h.id]) ==> h.id !in s.lru
  {
    LiveEntry(s, h);
    LiveEntry(u, h);
    NotListed(u, h.id);
    if !Evictable(s.entries[h.id]) { NotListed(s, h.id); }
    WithoutPrefixes(s.lru, AfterWait(s), h.id);
  }

  /** The blocks that a failed demand for block `h` has given back. */
  lemma BackAfter(s: Tiers, u: Tiers, e: Event, h: Handle) returns (back: set<nat>)
    requires Sound(s) && Sound(u) && (e.op == Load(h) || e.op == Read(h) || e.op == AcquireGpu(h))
    requires if e.answer == Failed(InvalidArgument) then u.lru == s.lru else AskedFor(s, h.id, u.lru)
    requires e.answer.Failed? || BackAfterDemand(s, h.id, u.lru) == {}
    ensures Takes(e, s, u, back)
  {
    SoundPendingBelow(s);
    SoundPendingBelow(u);
    if e.answer == Failed(InvalidArgument) {
      back := {};
      Arrived(TurnOf(e, s.lru, u.lru, back));
    } else {
      back := BackAfterDemand(s, h.id, u.lru);
      DemandIsFair(s, TurnOf(e, s.lru, u.lru, back), h.id);
    }
    FoldTakes(e, s, u, back);
  }

  lemma NewGivesNoneBack(s: Tiers, i: nat)
    requires Sound(s) && i !in s.lru
    ensures Returned(s.lru, BroughtIn(s, i)) == {} && OnlyOldestLeaves(s.lru, BroughtIn(s, i))
  {
    EvictedIsGone(s);
    NoneBackGrows(s.lru, RoomMade(s), i);
    BroughtInLeaves(s, i);
  }

  lemma DemandGivesNoneBack(s: Tiers, h: Handle)
    requires Sound(s)
    ensures Live(s.logical, h) ==>
              && h.id < |s.entries|
              && AskedFor(s, h.id, Without(Used(s, h.id), h.id))
              && AskedFor(s, h.id, Without(Used(s, h.id), h.id) + [h.id])
              && (s.entries[h.id].location == GPU_RESIDENT ==>
                    AskedFor(s, h.id, Refreshed(s, h.id)) && (s.entries[h.id].pins > 0 ==> AskedFor(s, h.id, s.lru)))
              && (s.entries[h.id].location != GPU_RESIDENT ==>
                    && NoneBack(s.lru, Fetching(s, h.id)) && NoneBack(s.lru, Without(Used(s, h.id), h.id))
                    && NoneBack(s.lru, Without(Used(s, h.id), h.id) + [h.id])
                    && s.entries[h.id].pins == 0)
  {
    if Live(s.logical, h) {
      LiveEntry(s, h);
      UseIsAsking(s, h.id);
      if s.entries[h.id].location != GPU_RESIDENT {
        NotListed(s, h.id);
        FetchingGivesNoneBack(s, h.id);
      }
    }
  }

  lemma PrefetchBack(s: Tiers, u: Tiers, e: Event) returns (back: set<nat>)
    requires Sound(s) && Sound(u) && e.op.PrefetchNext?
    requires if e.answer.Failed? then OnlyMadeWay(s.lru, u.lru, Spares(e.op))
             else MadeWayFor(s, u, Spares(e.op), e.op.busy)
    ensures Takes(e, s, u, back)
  {
    if e.answer.Failed? {
      var n := UnfoldOnlyMadeWay(s.lru, u.lru, Spares(e.op));
      back := BackAgain(s.lru, Sparing(s.lru, Spares(e.op), n), u.lru);
      FailedPrefetchIsFair(s, u, TurnOf(e, s.lru, u.lru, back), n);
      assert forall i :: i in back && i in Spares(e.op) ==> i in back * Spares(e.op);
    } else {
      back := {};
      PrefetchIsFair(s, u, TurnOf(e, s.lru, u.lru, back), e.op.busy);
    }
    FoldTakes(e, s, u, back);
  }

  // ---------------------------------------------------------------- the client

  class TieredClient {
    const manager: TieredBlockManager
    /** What the client knows of its own doings: the references and leases it holds, and the bytes it has given. */
    var store: Store

    ghost predicate Sound()
      reads this, manager
    {
      manager.Valid() && Represents(manager.State(), store)
    }

    constructor (gpu: nat, cpu: nat, blockSize: nat, works: nat -> bool)
      requires 0 < gpu <= cpu && blockSize > 0
      ensures Sound() && store == map[] && fresh(manager) && manager.works == works && manager.asked == 0
      ensures |manager.device.pool.pages| == gpu && |manager.logical.pages| == cpu
    {
      manager := new TieredBlockManager(gpu, cpu, blockSize, works);
      store := map[];
      new;
      BlankRepresents(manager.State());
    }

    /** Every block that the client holds has the bytes it was given last, on the device or not. */
    lemma HeldIsThere(h: Handle)
      requires Sound()
      ensures Live(manager.logical, h) <==> h in store
      ensures h in store ==> h.id < |manager.contents| && manager.contents[h.id] == store[h].bytes
    {
      if h in store { assert Keeps(manager.State(), h, store[h]); }
    }

    method DoCreate(p: Payload) returns (a: Answer, ghost back: set<nat>)
      requires Sound()
      modifies this, manager
      ensures Sound() && Permits(old(store), Event(Create(p), a)) && store == After(old(store), Event(Create(p), a))
      ensures Excused(Event(Create(p), a), old(manager.State()), manager.State(), manager.Broke(old(manager.asked)))
      ensures Takes(Event(Create(p), a), old(manager.State()), manager.State(), back)
              && manager.asked >= old(manager.asked)
    {
      ghost var s := manager.State();
      var r := manager.Create(p);
      ghost var u := manager.State();
      a := if r.Ok? then Made(r.value) else Failed(r.error);
      ghost var i: nat := if r.Ok? then r.value.id else var i: nat :| Elsewhere(s, u, i); i;
      ChangedExcused(Event(Create(p), a), s, u, i, manager.Broke(old(manager.asked)));
      if r.Ok? { NewGivesNoneBack(s, r.value.id); }
      CreateIsFair(s, u, a, p);
      back := Returned(s.lru, u.lru);
      if r.Ok? {
        CreatedRepresents(s, u, store, r.value, p);
        store := store[r.value := Block(p, 1, 0)];
      } else {
        FailedRepresents(s, u, store);
      }
    }

    method DoRetain(h: Handle) returns (a: Answer, ghost back: set<nat>)
      requires Sound()
      modifies this, manager
      ensures Sound() && Permits(old(store), Event(Retain(h), a)) && store == After(old(store), Event(Retain(h), a))
      ensures Excused(Event(Retain(h), a), old(manager.State()), manager.State(), manager.Broke(old(manager.asked)))
      ensures Takes(Event(Retain(h), a), old(manager.State()), manager.State(), back)
              && manager.asked >= old(manager.asked)
    {
      ghost var s := manager.State();
      HeldIsThere(h);
      var r := manager.Retain(h);
      a := if r.Ok? then Done else Failed(r.error);
      back := {};
      NobodyMoves(s, manager.State(), Event(Retain(h), a));
      if r.Err? {
        SameIsMild(s);
        MovedExcused(Event(Retain(h), a), s, manager.State(), manager.Broke(old(manager.asked)));
        return;
      }
      ChangedExcused(Event(Retain(h), a), s, manager.State(), h.id, manager.Broke(old(manager.asked)));
      RetainIsPut(store, h);
      Changed(s, h, store[h].(refs := store[h].refs + 1));
    }

    /** The manager has changed this block alone; the client keeps its books. */
    method Changed(ghost s: Tiers, h: Handle, b: Block)
      requires manager.Valid() && TieredBlocks.Sound(s) && Represents(s, store) && h in store
      requires Elsewhere(s, manager.State(), h.id)
      requires if b.refs + b.leases == 0
               then h.id < |manager.logical.pages| && manager.logical.pages[h.id].refs == 0
               else Keeps(manager.State(), h, b)
      modifies `store
      ensures Sound() && store == Put(old(store), h, b)
    {
      ChangedRepresents(s, manager.State(), store, h, b);
      store := Put(store, h, b);
    }

    /** The manager has moved blocks, and no more. */
    lemma Moved(s: Tiers)
      requires manager.Valid() && Represents(s, store) && Mild(s, manager.State())
      ensures Sound()
    {
      MildRepresents(s, manager.State(), store);
    }

    method DoRelease(h: Handle) returns (a: Answer, ghost back: set<nat>)
      requires Sound()
      modifies this, manager
      ensures Sound() && Permits(old(store), Event(Release(h), a)) && store == After(old(store), Event(Release(h), a))
      ensures Excused(Event(Release(h), a), old(manager.State()), manager.State(), manager.Broke(old(manager.asked)))
      ensures Takes(Event(Release(h), a), old(manager.State()), manager.State(), back)
              && manager.asked >= old(manager.asked)
    {
      ghost var s := manager.State();
      back := {};
      if h in store && store[h].refs == 0 {
        NotAsked(Event(Release(h), NotOurs), s);
        return NotOurs, {};
      }
      a, back := ReleaseOurs(h);
    }

    /** The client has a reference to give up, or there is no such block. */
    method ReleaseOurs(h: Handle) returns (a: Answer, ghost back: set<nat>)
      requires Sound() && (h in store ==> store[h].refs > 0)
      modifies this, manager
      ensures Sound() && (a.Failed? || a.Done?)
      ensures a.Failed? ==> Refuses(old(store), h, a.error) && store == old(store)
      ensures a.Done? ==>
                h in old(store) && store == Put(old(store), h, old(store)[h].(refs := old(store)[h].refs - 1))
      ensures Excused(Event(Release(h), a), old(manager.State()), manager.State(), manager.Broke(old(manager.asked)))
      ensures Takes(Event(Release(h), a), old(manager.State()), manager.State(), back)
              && manager.asked >= old(manager.asked)
    {
      ghost var s := manager.State();
      HeldIsThere(h);
      a, back := GiveUp(h);
      if a.Failed? {
        Moved(s);
        return;
      }
      Changed(s, h, store[h].(refs := store[h].refs - 1));
    }

    /** The manager's side of a release. */
    method GiveUp(h: Handle) returns (a: Answer, ghost back: set<nat>)
      requires manager.Valid()
      requires manager.IsLive(h) ==>
                 h.id < |manager.entries| && manager.entries[h.id].pins < manager.logical.pages[h.id].refs
      modifies manager
      ensures manager.Valid() && Elsewhere(old(manager.State()), manager.State(), h.id)
      ensures if a.Failed? then Refused(a.error, old(manager.IsLive(h))) && Mild(old(manager.State()), manager.State())
              else a.Done? && old(manager.IsLive(h))
      ensures a.Done? ==> && h.id < |manager.logical.pages| && old(h.id < |manager.logical.pages|)
                          && manager.logical.pages[h.id].refs == old(manager.logical.pages[h.id].refs) - 1
      ensures a.Done? && manager.logical.pages[h.id].refs > 0 ==>
                manager.IsLive(h) && manager.entries == old(manager.entries)
                && manager.contents == old(manager.contents)
      ensures Excused(Event(Release(h), a), old(manager.State()), manager.State(), manager.Broke(old(manager.asked)))
      ensures Takes(Event(Release(h), a), old(manager.State()), manager.State(), back)
              && manager.asked >= old(manager.asked)
    {
      ghost var s := manager.State();
      var r := manager.Release(h);
      a := if r.Ok? then Done else Failed(r.error);
      back := {};
      ReleasedList(s, manager.State(), h.id);
      GoneOrNot(s, manager.State(), Event(Release(h), a), h.id);
      ChangedExcused(Event(Release(h), a), s, manager.State(), h.id, manager.Broke(old(manager.asked)));
    }

    method DoRead(h: Handle) returns (a: Answer, ghost back: set<nat>)
      requires Sound()
      modifies this, manager
      ensures Sound() && Permits(old(store), Event(Read(h), a)) && store == After(old(store), Event(Read(h), a))
      ensures Excused(Event(Read(h), a), old(manager.State()), manager.State(), manager.Broke(old(manager.asked)))
      ensures Takes(Event(Read(h), a), old(manager.State()), manager.State(), back)
              && manager.asked >= old(manager.asked)
    {
      ghost var s := manager.State();
      HeldIsThere(h);
      a, back := ReadOut(h);
      if h in store {
        assert Keeps(s, h, store[h]);
        Changed(s, h, store[h]);
      } else {
        Moved(s);
      }
    }

    /** The manager's side of a read. */
    method ReadOut(h: Handle) returns (a: Answer, ghost back: set<nat>)
      requires manager.Valid()
      modifies manager
      ensures manager.Valid() && Elsewhere(old(manager.State()), manager.State(), h.id)
      ensures manager.contents == old(manager.contents)
      ensures if a.Failed? then Refused(a.error, old(manager.IsLive(h)))
              else a.Got? && old(manager.IsLive(h)) && h.id < |manager.contents| && a.bytes == manager.contents[h.id]
      ensures !old(manager.IsLive(h)) ==> Mild(old(manager.State()), manager.State())
      ensures old(manager.IsLive(h)) ==>
                && manager.IsLive(h) && h.id < |manager.entries| && old(h.id < |manager.entries|)
                && manager.entries[h.id].pins == old(manager.entries[h.id].pins)
                && manager.logical.pages[h.id].refs == old(manager.logical.pages[h.id].refs)
      ensures Excused(Event(Read(h), a), old(manager.State()), manager.State(), manager.Broke(old(manager.asked)))
      ensures Takes(Event(Read(h), a), old(manager.State()), manager.State(), back)
              && manager.asked >= old(manager.asked)
    {
      ghost var s := manager.State();
      var r := manager.ReadBlock(h);
      a := if r.Ok? then Got(r.value) else Failed(r.error);
      DemandGivesNoneBack(s, h);
      back := BackAfter(s, manager.State(), Event(Read(h), a), h);
      ChangedExcused(Event(Read(h), a), s, manager.State(), h.id, manager.Broke(old(manager.asked)));
    }

    method DoAcquireGpu(h: Handle) returns (a: Answer, ghost back: set<nat>)
      requires Sound()
      modifies this, manager
      ensures Sound() && Permits(old(store), Event(AcquireGpu(h), a))
              && store == After(old(store), Event(AcquireGpu(h), a))
      ensures Excused(Event(AcquireGpu(h), a), old(manager.State()), manager.State(), manager.Broke(old(manager.asked)))
      ensures Takes(Event(AcquireGpu(h), a), old(manager.State()), manager.State(), back)
              && manager.asked >= old(manager.asked)
    {
      ghost var s := manager.State();
      HeldIsThere(h);
      a, back := TakeLease(h);
      if a.Failed? {
        Moved(s);
        return;
      }
      assert Keeps(s, h, store[h]);
      Changed(s, h, store[h].(leases := store[h].leases + 1));
    }

    /** The manager's side of a lease. */
    method TakeLease(h: Handle) returns (a: Answer, ghost back: set<nat>)
      requires manager.Valid()
      modifies manager
      ensures manager.Valid() && Elsewhere(old(manager.State()), manager.State(), h.id)
      ensures manager.contents == old(manager.contents)
      ensures if a.Failed? then Refused(a.error, old(manager.IsLive(h))) && Mild(old(manager.State()), manager.State())
              else a.Done? && old(manager.IsLive(h)) && manager.IsLive(h)
      ensures a.Done? ==> && h.id < |manager.entries| && old(h.id < |manager.entries|)
                          && manager.entries[h.id].pins == old(manager.entries[h.id].pins) + 1
                          && h.id < |manager.logical.pages| && old(h.id < |manager.logical.pages|)
                          && manager.logical.pages[h.id].refs == old(manager.logical.pages[h.id].refs) + 1
      ensures Excused(Event(AcquireGpu(h), a), old(manager.State()), manager.State(), manager.Broke(old(manager.asked)))
      ensures Takes(Event(AcquireGpu(h), a), old(manager.State()), manager.State(), back)
              && manager.asked >= old(manager.asked)
    {
      ghost var s := manager.State();
      var r := manager.AcquireGpu(h);
      a := if r.Ok? then Done else Failed(r.error);
      DemandGivesNoneBack(s, h);
      back := BackAfter(s, manager.State(), Event(AcquireGpu(h), a), h);
      ChangedExcused(Event(AcquireGpu(h), a), s, manager.State(), h.id, manager.Broke(old(manager.asked)));
    }

    method DoWrite(h: Handle, p: Payload) returns (a: Answer, ghost back: set<nat>)
      requires Sound()
      modifies this, manager
      ensures Sound() && Permits(old(store), Event(Write(h, p), a)) && store == After(old(store), Event(Write(h, p), a))
      ensures Excused(Event(Write(h, p), a), old(manager.State()), manager.State(), manager.Broke(old(manager.asked)))
      ensures Takes(Event(Write(h, p), a), old(manager.State()), manager.State(), back)
              && manager.asked >= old(manager.asked)
    {
      ghost var s := manager.State();
      back := {};
      if !Leased(store, h) {
        NotAsked(Event(Write(h, p), NotOurs), s);
        return NotOurs, {};
      }
      assert Keeps(s, h, store[h]);
      LiveEntry(s, h);
      manager.WriteThroughLease(h, p);
      a := Done;
      NobodyMoves(s, manager.State(), Event(Write(h, p), a));
      ChangedExcused(Event(Write(h, p), a), s, manager.State(), h.id, false);
      Changed(s, h, store[h].(bytes := p));
    }

    method DoUnpin(h: Handle) returns (a: Answer, ghost back: set<nat>)
      requires Sound()
      modifies this, manager
      ensures Sound() && Permits(old(store), Event(Unpin(h), a)) && store == After(old(store), Event(Unpin(h), a))
      ensures Excused(Event(Unpin(h), a), old(manager.State()), manager.State(), manager.Broke(old(manager.asked)))
      ensures Takes(Event(Unpin(h), a), old(manager.State()), manager.State(), back)
              && manager.asked >= old(manager.asked)
    {
      ghost var s := manager.State();
      back := {};
      if !Leased(store, h) {
        NotAsked(Event(Unpin(h), NotOurs), s);
        return NotOurs, {};
      }
      assert Keeps(s, h, store[h]);
      LiveEntry(s, h);
      NotListed(s, h.id);
      manager.Unpin(h);
      a := Done;
      LeaseEnds(s, manager.State(), Event(Unpin(h), a), h.id);
      ChangedExcused(Event(Unpin(h), a), s, manager.State(), h.id, false);
      UnpinIsPut(store, h);
      Changed(s, h, store[h].(leases := store[h].leases - 1));
    }

    /** The operations that move blocks and change nothing else. */
    method DoMove(op: Op) returns (a: Answer, ghost back: set<nat>)
      requires Sound() && (op.Load? || op.Offload? || op.PrefetchNext? || op.Poll? || op.Wait?)
      modifies this, manager
      ensures Sound() && Permits(old(store), Event(op, a)) && store == After(old(store), Event(op, a))
      ensures Excused(Event(op, a), old(manager.State()), manager.State(), manager.Broke(old(manager.asked)))
      ensures Takes(Event(op, a), old(manager.State()), manager.State(), back) && manager.asked >= old(manager.asked)
    {
      match op {
        case Load(h) => a, back := DoLoad(h);
        case Offload(h) => a, back := DoOffload(h);
        case PrefetchNext(order, current, nextN, busy) => a, back := DoPrefetch(order, current, nextN, busy);
        case Poll(busy) => a, back := DoPoll(busy);
        case Wait => a, back := DoWait();
      }
    }

    method DoLoad(h: Handle) returns (a: Answer, ghost back: set<nat>)
      requires Sound()
      modifies manager
      ensures Sound() && Permits(store, Event(Load(h), a))
      ensures Excused(Event(Load(h), a), old(manager.State()), manager.State(), manager.Broke(old(manager.asked)))
      ensures Takes(Event(Load(h), a), old(manager.State()), manager.State(), back)
              && manager.asked >= old(manager.asked)
    {
      ghost var s := manager.State();
      HeldIsThere(h);
      var r := manager.Load(h);
      a := if r.Ok? then Done else Failed(r.error);
      DemandGivesNoneBack(s, h);
      back := BackAfter(s, manager.State(), Event(Load(h), a), h);
      MovedExcused(Event(Load(h), a), s, manager.State(), manager.Broke(old(manager.asked)));
      Moved(s);
      HeldIsThere(h);
    }

    method DoOffload(h: Handle) returns (a: Answer, ghost back: set<nat>)
      requires Sound()
      modifies manager
      ensures Sound() && Permits(store, Event(Offload(h), a))
      ensures Excused(Event(Offload(h), a), old(manager.State()), manager.State(), manager.Broke(old(manager.asked)))
      ensures Takes(Event(Offload(h), a), old(manager.State()), manager.State(), back)
              && manager.asked >= old(manager.asked)
    {
      ghost var s := manager.State();
      HeldIsThere(h);
      if h in store { assert Keeps(s, h, store[h]); }
      var r := manager.Offload(h);
      if r.Ok? { OffloadedIsUnlisted(s, manager.State(), h); }
      a := if r.Ok? then Done else Failed(r.error);
      back := if r.Err? && h.id in s.lru && h.id in manager.lru && s.lru != manager.lru then {h.id} else {};
      OffloadIsFair(s, manager.State(), Event(Offload(h), a), back);
      MovedExcused(Event(Offload(h), a), s, manager.State(), manager.Broke(old(manager.asked)));
      Moved(s);
      HeldIsThere(h);
    }

    method DoPrefetch(order: seq<Handle>, current: nat, nextN: nat, busy: bool)
      returns (a: Answer, ghost back: set<nat>)
      requires Sound()
      modifies manager
      ensures Sound() && Permits(store, Event(PrefetchNext(order, current, nextN, busy), a))
      ensures Excused(Event(PrefetchNext(order, current, nextN, busy), a), old(manager.State()), manager.State(),
                      manager.Broke(old(manager.asked)))
      ensures Takes(Event(PrefetchNext(order, current, nextN, busy), a), old(manager.State()), manager.State(), back)
              && manager.asked >= old(manager.asked)
    {
      ghost var s := manager.State();
      forall k: nat | k < |order| ensures Live(s.logical, order[k]) <==> order[k] in store { HeldIsThere(order[k]); }
      var r := manager.PrefetchNext(order, current, nextN, busy);
      a := if r.Ok? then Done else Failed(r.error);
      back := PrefetchBack(s, manager.State(), Event(PrefetchNext(order, current, nextN, busy), a));
      MovedExcused(Event(PrefetchNext(order, current, nextN, busy), a), s, manager.State(),
                   manager.Broke(old(manager.asked)));
      Moved(s);
    }

    method DoPoll(busy: bool) returns (a: Answer, ghost back: set<nat>)
      requires Sound()
      modifies manager
      ensures Sound() && Permits(store, Event(Poll(busy), a))
      ensures Excused(Event(Poll(busy), a), old(manager.State()), manager.State(), manager.Broke(old(manager.asked)))
      ensures Takes(Event(Poll(busy), a), old(manager.State()), manager.State(), back)
              && manager.asked >= old(manager.asked)
    {
      ghost var s := manager.State();
      var r := manager.Poll(busy);
      CalmIsMild(s, manager.State(), r.Ok?);
      a := if r.Ok? then Done else Failed(r.error);
      back := {};
      NobodyMoves(s, manager.State(), Event(Poll(busy), a));
      MovedExcused(Event(Poll(busy), a), s, manager.State(), manager.Broke(old(manager.asked)));
      Moved(s);
    }

    method DoWait() returns (a: Answer, ghost back: set<nat>)
      requires Sound()
      modifies manager
      ensures Sound() && Permits(store, Event(Wait, a))
      ensures Excused(Event(Wait, a), old(manager.State()), manager.State(), manager.Broke(old(manager.asked)))
      ensures Takes(Event(Wait, a), old(manager.State()), manager.State(), back) && manager.asked >= old(manager.asked)
    {
      ghost var s := manager.State();
      var r := manager.Wait();
      CalmIsMild(s, manager.State(), r.Ok?);
      a := if r.Ok? then Done else Failed(r.error);
      back := {};
      NobodyMoves(s, manager.State(), Event(Wait, a));
      MovedExcused(Event(Wait, a), s, manager.State(), manager.Broke(old(manager.asked)));
      Moved(s);
    }

    method Do(op: Op) returns (a: Answer, ghost back: set<nat>)
      requires Sound()
      modifies this, manager
      ensures Sound() && Permits(old(store), Event(op, a)) && store == After(old(store), Event(op, a))
      ensures Excused(Event(op, a), old(manager.State()), manager.State(), manager.Broke(old(manager.asked)))
      ensures Takes(Event(op, a), old(manager.State()), manager.State(), back) && manager.asked >= old(manager.asked)
    {
      match op {
        case Create(p) => a, back := DoCreate(p);
        case Retain(h) => a, back := DoRetain(h);
        case Release(h) => a, back := DoRelease(h);
        case Read(h) => a, back := DoRead(h);
        case AcquireGpu(h) => a, back := DoAcquireGpu(h);
        case Write(h, p) => a, back := DoWrite(h, p);
        case Unpin(h) => a, back := DoUnpin(h);
        case _ => a, back := DoMove(op);
      }
    }

    /** Whatever is asked for, in whatever order, and whichever transfers fail: the answers are a history of the plain
        store, and whoever had to leave the device was the one used least recently. Failures have their causes: the
        device's show and no others are laid on it, and room is refused only while there is none. */
    method Run(ops: seq<Op>) returns (events: seq<Event>, ghost turns: seq<Turn>)
      requires Sound() && store == map[]
      modifies this, manager
      ensures Sound() && History(events) && store == StoreAfter(events)
      ensures |events| == |ops| && forall k :: 0 <= k < |ops| ==> events[k].op == ops[k]
      ensures Turns(events, turns) && manager.lru == Listed(turns, |turns|)
      ensures DeviceFailed(events) <==> manager.Broke(old(manager.asked))
      ensures RoomIsFair(events, old(|manager.device.pool.pages|), old(|manager.logical.pages|))
    {
      events, turns := [], [];
      EmptyStore(manager.State(), store);
      for k := 0 to |ops|
        invariant Sound() && History(events) && store == StoreAfter(events)
        invariant |events| == k && forall j :: 0 <= j < k ==> events[j].op == ops[j]
        invariant Turns(events, turns) && manager.lru == Listed(turns, |turns|)
        invariant manager.asked >= old(manager.asked)
        invariant DeviceFailed(events) <==> manager.Broke(old(manager.asked))
        invariant |manager.device.pool.pages| == old(|manager.device.pool.pages|)
        invariant |manager.logical.pages| == old(|manager.logical.pages|)
        invariant RoomIsFair(events, old(|manager.device.pool.pages|), old(|manager.logical.pages|))
      {
        var event;
        event, turns := Next(events, turns, ops[k]);
        events := events + [event];
      }
    }

    /** One more operation. */
    method Next(ghost events: seq<Event>, ghost turns: seq<Turn>, op: Op)
      returns (event: Event, ghost longer: seq<Turn>)
      requires Sound() && History(events) && store == StoreAfter(events)
      requires Turns(events, turns) && manager.lru == Listed(turns, |turns|)
      requires RoomIsFair(events, |manager.device.pool.pages|, |manager.logical.pages|)
      modifies this, manager
      ensures Sound() && History(events + [event]) && store == StoreAfter(events + [event]) && event.op == op
      ensures Turns(events + [event], longer) && manager.lru == Listed(longer, |longer|)
      ensures manager.asked >= old(manager.asked)
      ensures DeviceFailed(events + [event]) <==> DeviceFailed(events) || manager.Broke(old(manager.asked))
      ensures |manager.device.pool.pages| == old(|manager.device.pool.pages|)
              && |manager.logical.pages| == old(|manager.logical.pages|)
      ensures RoomIsFair(events + [event], |manager.device.pool.pages|, |manager.logical.pages|)
    {
      ghost var s, was := manager.State(), store;
      var a;
      ghost var back;
      a, back := Do(op);
      event := Event(op, a);
      HistoryGrows(events, event);
      FailuresSoFar(events, event);
      UnfoldTakes(event, s, manager.State(), back);
      TurnsGrow(events, turns, event, manager.lru, back);
      longer := turns + [TurnOf(event, s.lru, manager.lru, back)];
      UnfoldExcused(event, s, manager.State(), manager.Broke(old(manager.asked)));
      CrowdedStore(s, was, event);
      RoomStaysFair(events, event, |s.device.pool.pages|, |s.logical.pages|);
    }
  }
}
