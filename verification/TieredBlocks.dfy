/** Logical blocks kept either on the device or in host memory, and the moves between the two
    (src/tiered_block_manager.cpp): what is where, which copy counts, and what each move keeps. */
module TieredBlocks {
  import opened Common
  import opened PagePool
  import opened AsyncTransfers

  datatype BlockLocation = GPU_RESIDENT | CPU_RESIDENT | TRANSFERRING

  datatype Move = NoMove | ToCpu | ToGpu | QueuedLoad

  datatype Entry = Entry(live: bool, handle: Handle, location: BlockLocation, move: Move, gpu: Option<Handle>,
                         pins: nat, prefetched: bool)

  const BLANK := Entry(false, Handle(0, 0), CPU_RESIDENT, NoMove, None, 0, false)

  datatype Counters = Counters(offloads: nat, loads: nat, submitted: nat, skipped: nat, hits: nat, misses: nat,
                               late: nat, unused: nat, demands: nat, gpuHits: nat)

  /** `contents` is what each block was last given, by its creator or through a lease. */
  datatype Tiers = Tiers(logical: Pool, device: Device, entries: seq<Entry>, lru: seq<nat>,
                         pending: seq<nat>, queued: seq<nat>, counters: Counters, contents: seq<Payload>)

  // ---------------------------------------------------------------- one block

  ghost predicate SlotIs(d: Device, h: Handle, refs: nat, inFlight: bool) {
    Held(d.pool, h) && d.pool.pages[h.id].refs == refs && h.id < |d.inFlight| == |d.initialized| == |d.bytes|
    && d.inFlight[h.id] == inFlight
  }

  ghost predicate OnDevice(d: Device, h: Handle, content: Payload) {
    h.id < |d.initialized| == |d.bytes| && d.initialized[h.id] && d.bytes[h.id] == content
  }

  ghost predicate InBacking(d: Device, i: nat, content: Payload) {
    i < |d.backing| && d.backing[i] == content
  }

  /** A block at rest or waiting for a slot: the device's copy counts if it has one, else the host's. */
  ghost predicate RestOk(d: Device, e: Entry, i: nat, content: Payload) {
    && i < |d.busy| && !d.busy[i]
    && if !e.live then e == BLANK
       else match e.location
         case GPU_RESIDENT => e.move == NoMove && e.gpu.Some? && SlotIs(d, e.gpu.value, 1, false)
         && OnDevice(d, e.gpu.value, content)
         case CPU_RESIDENT => e.move == NoMove && e.gpu.None? && e.pins == 0 && !e.prefetched
         && InBacking(d, i, content)
         case TRANSFERRING => e.move == QueuedLoad && e.gpu.None? && e.pins == 0 && InBacking(d, i, content)
  }

  /** A block on the move: nobody leases it, and the copy it comes from counts. */
  ghost predicate MoveOk(d: Device, e: Entry, i: nat, content: Payload) {
    && e.live && e.location == TRANSFERRING && (e.move == ToCpu || e.move == ToGpu) && e.pins == 0 && e.gpu.Some?
    && (if e.move == ToCpu then OnDevice(d, e.gpu.value, content) else InBacking(d, i, content))
  }

  ghost predicate FlyingOk(d: Device, e: Entry, i: nat, content: Payload) {
    MoveOk(d, e, i, content) && SlotIs(d, e.gpu.value, 2, true) && (e.move == ToCpu ==> !e.prefetched)
  }

  /** Its transfer is over; if it succeeded both copies are good. */
  ghost predicate LandedOk(d: Device, e: Entry, i: nat, content: Payload, ok: bool) {
    && MoveOk(d, e, i, content) && SlotIs(d, e.gpu.value, 1, false) && i < |d.busy| && !d.busy[i]
    && (ok ==> OnDevice(d, e.gpu.value, content) && InBacking(d, i, content) && (e.move == ToCpu ==> !e.prefetched))
  }

  // ---------------------------------------------------------------- all blocks

  ghost predicate Shape(s: Tiers) {
    && |s.entries| == |s.logical.pages| == |s.contents| == |s.device.backing|
    && Inv(s.logical) && NeverPublished(s.logical) && DeviceInv(s.device)
  }

  /** An entry is live while somebody references its logical block; every lease holds a reference. */
  ghost predicate NameOk(s: Tiers, i: nat)
    requires i < |s.entries| == |s.logical.pages|
  {
    && (s.entries[i].live <==> s.logical.pages[i].refs > 0)
    && (s.entries[i].live ==> s.entries[i].handle == Handle(i, s.logical.pages[i].generation)
                              && s.entries[i].pins <= s.logical.pages[i].refs)
  }

  ghost predicate NamesOk(s: Tiers) {
    |s.entries| == |s.logical.pages| && forall i: nat :: i < |s.entries| ==> NameOk(s, i)
  }

  predicate OwnsSlot(s: Tiers, i: nat, slot: nat) {
    i < |s.entries| && s.entries[i].gpu.Some? && s.entries[i].gpu.value.id == slot
  }

  ghost predicate Owned(s: Tiers, slot: nat) {
    exists i: nat :: OwnsSlot(s, i, slot)
  }

  ghost predicate Apart(s: Tiers) {
    forall i: nat, j: nat {:trigger s.entries[i], s.entries[j]} ::
      i < j < |s.entries| && s.entries[i].gpu.Some? && s.entries[j].gpu.Some? ==>
      s.entries[i].gpu.value.id != s.entries[j].gpu.value.id
  }

  /** No device slot is in use without belonging to a block. */
  ghost predicate NoneLost(s: Tiers) {
    forall slot: nat :: slot < |s.device.pool.pages| && s.device.pool.pages[slot].refs > 0 ==> Owned(s, slot)
  }

  ghost predicate SlotsOk(s: Tiers) {
    Apart(s) && NoneLost(s)
  }

  predicate Evictable(e: Entry) {
    e.live && e.location == GPU_RESIDENT && e.pins == 0
  }

  predicate OnTheMove(e: Entry) {
    e.move == ToCpu || e.move == ToGpu
  }

  ghost predicate ListsOk(s: Tiers) {
    && NoDup(s.lru) && NoDup(s.pending) && NoDup(s.queued)
    && (forall i: nat :: i in s.lru <==> i < |s.entries| && Evictable(s.entries[i]))
    && (forall i: nat :: i in s.pending <==> i < |s.entries| && OnTheMove(s.entries[i]))
    && (forall i: nat :: i in s.queued <==> i < |s.entries| && s.entries[i].move == QueuedLoad)
  }

  predicate Matches(s: Tiers, k: nat, t: Transfer)
    requires k < |s.pending|
  {
    s.pending[k] < |s.entries| && s.entries[s.pending[k]].gpu.Some?
    && t == Transfer(s.entries[s.pending[k]].gpu.value, s.pending[k], s.entries[s.pending[k]].move == ToGpu)
  }

  /** The first `n` pending moves have landed; the device is still busy with the rest, in the same order. */
  ghost predicate MovesOk(s: Tiers, n: nat, ok: bool)
    requires Shape(s)
  {
    && n + |s.device.pending| <= |s.pending|
    && (forall k :: 0 <= k < |s.pending| ==> s.pending[k] < |s.entries|)
    && (forall k :: 0 <= k < |s.pending| && (k < n || k >= n + |s.device.pending|) ==>
          LandedOk(s.device, s.entries[s.pending[k]], s.pending[k], s.contents[s.pending[k]], ok))
    && (forall k :: n <= k < n + |s.device.pending| ==>
          FlyingOk(s.device, s.entries[s.pending[k]], s.pending[k], s.contents[s.pending[k]])
          && Matches(s, k, s.device.pending[k - n]))
  }

  ghost predicate RestsOk(s: Tiers)
    requires Shape(s)
  {
    forall i: nat :: i < |s.entries| && !OnTheMove(s.entries[i]) ==> RestOk(s.device, s.entries[i], i, s.contents[i])
  }

  ghost predicate Midway(s: Tiers, n: nat, ok: bool) {
    Shape(s) && NamesOk(s) && SlotsOk(s) && ListsOk(s) && MovesOk(s, n, ok) && RestsOk(s)
  }

  /** Between operations: every pending move is in flight. */
  ghost predicate Settled(s: Tiers) {
    Midway(s, 0, true) && |s.device.pending| == |s.pending|
  }

  function CountOffloads(entries: seq<Entry>, pending: seq<nat>): nat {
    if pending == [] then 0
    else
      CountOffloads(entries, pending[1..])
      + if pending[0] < |entries| && entries[pending[0]].move == ToCpu then 1 else 0
  }

  /** Free device slots, counting those that pending offloads will free. */
  function Room(s: Tiers): nat {
    |s.device.pool.free| + CountOffloads(s.entries, s.pending)
  }

  /** Queued loads never outnumber the offloads that will make room for them. */
  ghost predicate QueueFits(s: Tiers) {
    |s.queued| <= CountOffloads(s.entries, s.pending)
  }

  function CountPrefetched(entries: seq<Entry>): nat {
    if entries == [] then 0
    else CountPrefetched(entries[..|entries| - 1]) + if entries[|entries| - 1].prefetched then 1 else 0
  }

  /** Every accepted prefetch was used in time, used late, discarded, or is still outstanding. */
  ghost predicate Accounted(s: Tiers) {
    && s.counters.submitted == s.counters.hits + s.counters.late + s.counters.unused + CountPrefetched(s.entries)
    && s.counters.demands == s.counters.gpuHits + s.counters.misses
  }

  /** Between two steps of the manager. */
  ghost predicate Sound(s: Tiers) {
    forall t {:trigger Unseal(t)} :: t == s ==> Settled(t) && Accounted(t)
  }

  /** While moves are being settled; folded like `Sound`. */
  ghost predicate Mid(s: Tiers, n: nat, ok: bool) {
    forall t {:trigger Unseal(t)} :: t == s ==> Midway(t, n, ok) && Accounted(t)
  }

  lemma UnfoldMid(s: Tiers, n: nat, ok: bool)
    requires Mid(s, n, ok)
    ensures Midway(s, n, ok) && Accounted(s)
  {
    assert Unseal(s);
  }

  lemma Unfold(s: Tiers)
    requires Sound(s)
    ensures Settled(s) && Accounted(s)
  {
    assert Unseal(s);
  }

  lemma Fold(s: Tiers)
    requires Settled(s) && Accounted(s)
    ensures Sound(s)
  {
  }

  // ---------------------------------------------------------------- what every operation keeps

  ghost predicate EntryKept(e: Entry, f: Entry) {
    && f.live == e.live && f.handle == e.handle && f.pins == e.pins
    && (e.pins > 0 ==> f.gpu == e.gpu && f.location == e.location)
  }

  /** No demand has been counted. */
  predicate SameDemands(c: Counters, d: Counters) {
    d.demands == c.demands && d.gpuHits == c.gpuHits && d.misses == c.misses && d.hits == c.hits && d.late == c.late
  }

  /** One demand has been counted, as a hit or a miss on the device, and as a prefetch in time or late. */
  predicate DemandCounted(c: Counters, d: Counters, resident: bool, prefetched: bool) {
    && d.demands == c.demands + 1
    && d.gpuHits == (if resident then c.gpuHits + 1 else c.gpuHits)
    && d.misses == (if resident then c.misses else c.misses + 1)
    && d.hits == (if resident && prefetched then c.hits + 1 else c.hits)
    && d.late == (if !resident && prefetched then c.late + 1 else c.late)
  }

  /** Every block keeps its content, its references and its leases, and a leased one its place. */
  ghost predicate Kept(s: Tiers, u: Tiers) {
    && u.logical == s.logical && u.contents == s.contents && |u.entries| == |s.entries|
    && |u.device.pool.pages| == |s.device.pool.pages|
    && (forall i :: 0 <= i < |s.entries| ==> EntryKept(s.entries[i], u.entries[i]))
  }

  /** What moves keep; and they are no demands. */
  ghost predicate Steady(s: Tiers, u: Tiers) {
    Kept(s, u) && SameDemands(s.counters, u.counters)
  }

  /** On the device, or on its way there. */
  predicate Bound(e: Entry) {
    e.location == GPU_RESIDENT || e.move == ToGpu || e.move == QueuedLoad
  }

  /** What was leaving the device is still leaving, or in host memory. */
  predicate Leaves(e: Entry, f: Entry) {
    e.move == ToCpu ==> f.move == ToCpu || f.location == CPU_RESIDENT
  }

  /** Nothing bound for the device turns back, nor what leaves it, and no prefetch is discarded. */
  ghost predicate Onward(s: Tiers, u: Tiers) {
    && |u.entries| == |s.entries|
    && forall i :: 0 <= i < |s.entries| ==>
      u.entries[i].prefetched == s.entries[i].prefetched && (Bound(s.entries[i]) ==> Bound(u.entries[i]))
      && Leaves(s.entries[i], u.entries[i])
  }

  /** What rests in host memory stays there. */
  ghost predicate Home(s: Tiers, u: Tiers) {
    && |u.entries| == |s.entries|
    && forall i ::
      0 <= i < |s.entries| && s.entries[i].location == CPU_RESIDENT ==> u.entries[i].location == CPU_RESIDENT
  }

  /** What a wait may do; `ok` says whether every transfer succeeded. Folded like `Sound`. */
  ghost predicate Calm(s: Tiers, u: Tiers, ok: bool) {
    forall t {:trigger Unseal(t)} :: t == u ==> Steady(s, t) && Home(s, t) && (ok ==> Onward(s, t))
  }

  lemma UnfoldCalm(s: Tiers, u: Tiers, ok: bool)
    requires Calm(s, u, ok)
    ensures Steady(s, u) && Home(s, u) && (ok ==> Onward(s, u))
  {
    assert Unseal(u);
  }

  // ---------------------------------------------------------------- steps

  function Discarded(c: Counters, e: Entry): Counters {
    if e.prefetched then c.(unused := c.unused + 1) else c
  }

  /** The manager's side of one finished move. */
  function Settle(s: Tiers, ok: bool): Tiers
    requires s.pending != [] && s.pending[0] < |s.entries| && s.entries[s.pending[0]].gpu.Some?
  {
    var i := s.pending[0];
    var e := s.entries[i];
    var f := if ok then e else e.(prefetched := false);
    var c := if ok then s.counters else Discarded(s.counters, e);
    var counted := if !ok then c else if e.move == ToCpu then c.(offloads := c.offloads + 1)
                                        else c.(loads := c.loads + 1);
    if ok == (e.move == ToCpu) then
      var pool := s.device.pool;
      s.(device := s.device.(pool := if Release(pool, e.gpu.value).Ok? then Release(pool, e.gpu.value).value else pool),
         entries := s.entries[i := f.(gpu := None, location := CPU_RESIDENT, move := NoMove)],
         pending := s.pending[1..], counters := counted)
    else
      s.(entries := s.entries[i := f.(location := GPU_RESIDENT, move := NoMove)],
         lru := Without(s.lru, i) + [i], pending := s.pending[1..], counters := counted)
  }

  /** A queued load is given up. */
  function Unqueue(s: Tiers): Tiers
    requires s.queued != [] && s.queued[0] < |s.entries|
  {
    var i := s.queued[0];
    var e := s.entries[i];
    s.(entries := s.entries[i := e.(location := CPU_RESIDENT, move := NoMove, prefetched := false)],
       queued := s.queued[1..], counters := Discarded(s.counters, e))
  }

  /** A free device slot is taken for block `i`, waiting or not; its load is pending but not submitted yet. */
  function Reserve(s: Tiers, i: nat, h: Handle, pool: Pool): Tiers
    requires i < |s.entries| && h.id < |s.device.initialized|
    requires s.entries[i].move == QueuedLoad ==> s.queued != []
  {
    s.(device := s.device.(pool := pool, initialized := s.device.initialized[h.id := false]),
       entries := s.entries[i := s.entries[i].(gpu := Some(h), location := TRANSFERRING, move := ToGpu)],
       pending := s.pending + [i],
       queued := if s.entries[i].move == QueuedLoad then s.queued[1..] else s.queued)
  }

  /** Block `i` is to leave the device; the copy to the host is not submitted yet. */
  function BeginOffload(s: Tiers, i: nat): Tiers
    requires i < |s.entries|
  {
    s.(entries := s.entries[i := s.entries[i].(location := TRANSFERRING, move := ToCpu)],
       lru := Without(s.lru, i), pending := s.pending + [i])
  }

  function LastTransfer(s: Tiers): Transfer
    requires s.pending != [] && s.pending[|s.pending| - 1] < |s.entries|
             && s.entries[s.pending[|s.pending| - 1]].gpu.Some?
  {
    var i := s.pending[|s.pending| - 1];
    Transfer(s.entries[i].gpu.value, i, s.entries[i].move == ToGpu)
  }

  /** The latest move is submitted; a block that leaves the device is no longer a prefetched one. */
  function Launch(s: Tiers): Tiers
    requires s.pending != [] && s.pending[|s.pending| - 1] < |s.entries|
             && s.entries[s.pending[|s.pending| - 1]].gpu.Some?
    requires Refusal(s.device, LastTransfer(s)).None?
  {
    var i := s.pending[|s.pending| - 1];
    var u := s.(device := Submit(s.device, LastTransfer(s)));
    if s.entries[i].move == ToCpu
    then u.(entries := s.entries[i := s.entries[i].(prefetched := false)],
            counters := Discarded(s.counters, s.entries[i]))
    else u
  }

  /** A load is to follow once the offloads under way have made room. */
  function Enqueue(s: Tiers, i: nat): Tiers
    requires i < |s.entries|
  {
    s.(entries := s.entries[i := s.entries[i].(location := TRANSFERRING, move := QueuedLoad)], queued := s.queued + [i])
  }

  // ---------------------------------------------------------------- frames

  lemma SteadyKeepsNames(s: Tiers, u: Tiers)
    requires NamesOk(s) && Kept(s, u)
    ensures NamesOk(u)
  {
    forall i: nat | i < |u.entries| ensures NameOk(u, i) {
      assert NameOk(s, i) && EntryKept(s.entries[i], u.entries[i]);
    }
  }

  lemma SteadyTrans(s: Tiers, u: Tiers, v: Tiers)
    requires Steady(s, u) && Steady(u, v)
    ensures Steady(s, v)
  {
    forall i | 0 <= i < |s.entries| ensures EntryKept(s.entries[i], v.entries[i]) {
      assert EntryKept(s.entries[i], u.entries[i]) && EntryKept(u.entries[i], v.entries[i]);
    }
  }

  lemma HomeTrans(s: Tiers, u: Tiers, v: Tiers)
    requires Home(s, u) && Home(u, v)
    ensures Home(s, v)
  {
    forall i | 0 <= i < |s.entries| && s.entries[i].location == CPU_RESIDENT
      ensures v.entries[i].location == CPU_RESIDENT
    {
      assert u.entries[i].location == CPU_RESIDENT;
    }
  }

  lemma OnwardTrans(s: Tiers, u: Tiers, v: Tiers)
    requires Onward(s, u) && Onward(u, v) && Home(u, v)
    ensures Onward(s, v)
  {
    forall i | 0 <= i < |s.entries|
      ensures v.entries[i].prefetched == s.entries[i].prefetched && (Bound(s.entries[i]) ==> Bound(v.entries[i]))
              && Leaves(s.entries[i], v.entries[i])
    {
      assert Leaves(s.entries[i], u.entries[i]) && Leaves(u.entries[i], v.entries[i]);
      assert u.entries[i].prefetched == s.entries[i].prefetched;
      assert v.entries[i].prefetched == u.entries[i].prefetched;
    }
  }

  lemma CalmTrans(s: Tiers, u: Tiers, v: Tiers, ok: bool)
    requires Calm(s, u, ok) && Calm(u, v, ok)
    ensures Calm(s, v, ok)
  {
    UnfoldCalm(s, u, ok);
    UnfoldCalm(u, v, ok);
    SteadyTrans(s, u, v);
    HomeTrans(s, u, v);
    if ok { OnwardTrans(s, u, v); }
  }

  lemma SameEntriesCalm(s: Tiers, u: Tiers, ok: bool)
    requires u.entries == s.entries && u.logical == s.logical && u.contents == s.contents
    requires |u.device.pool.pages| == |s.device.pool.pages| && SameDemands(s.counters, u.counters)
    ensures Calm(s, u, ok) && forall i: nat :: Begun(s, u, i, ok)
  {
    assert Steady(s, u) && Home(s, u) && Onward(s, u);
  }

  /** A load of block `i` begins, or fails to. Folded like `Sound`. */
  ghost predicate Begun(s: Tiers, u: Tiers, i: nat, ok: bool) {
    forall t {:trigger Unseal(t)} :: t == u ==>
      Steady(s, t) && (ok ==> Onward(s, t)) && (i < |s.entries| && s.entries[i].location != CPU_RESIDENT ==> Home(s, t))
  }

  lemma UnfoldBegun(s: Tiers, u: Tiers, i: nat, ok: bool)
    requires Begun(s, u, i, ok)
    ensures Steady(s, u) && (ok ==> Onward(s, u))
    ensures i < |s.entries| && s.entries[i].location != CPU_RESIDENT ==> Home(s, u)
  {
    assert Unseal(u);
  }

  lemma BegunNot(s: Tiers, i: nat)
    ensures Begun(s, s, i, false)
  {
    SameEntriesCalm(s, s, false);
  }

  lemma BegunThen(s: Tiers, t: Tiers, u: Tiers, i: nat, ok: bool)
    requires Begun(s, t, i, true) && Calm(t, u, ok)
    ensures Begun(s, u, i, ok)
  {
    UnfoldBegun(s, t, i, true);
    UnfoldCalm(t, u, ok);
    SteadyTrans(s, t, u);
    if ok { OnwardTrans(s, t, u); }
    if i < |s.entries| && s.entries[i].location != CPU_RESIDENT { HomeTrans(s, t, u); }
  }

  lemma BegunIsCalm(s: Tiers, u: Tiers, i: nat, ok: bool)
    requires Begun(s, u, i, ok) && i < |s.entries| && s.entries[i].location != CPU_RESIDENT
    ensures Calm(s, u, ok)
  {
    UnfoldBegun(s, u, i, ok);
  }

  lemma CalmWeaken(s: Tiers, u: Tiers)
    requires Calm(s, u, true)
    ensures Calm(s, u, false)
  {
    UnfoldCalm(s, u, true);
  }

  /** What the device holds in one slot, and what it says about one buffer, is the same in both. */
  ghost predicate SlotAlike(d: Device, e: Device, slot: nat) {
    && |e.pool.pages| == |d.pool.pages| && |e.initialized| == |d.initialized| && |e.bytes| == |d.bytes|
    && |e.inFlight| == |d.inFlight|
    && (slot < |d.pool.pages| ==> e.pool.pages[slot] == d.pool.pages[slot])
    && (slot < |d.initialized| ==> e.initialized[slot] == d.initialized[slot])
    && (slot < |d.bytes| ==> e.bytes[slot] == d.bytes[slot])
    && (slot < |d.inFlight| ==> e.inFlight[slot] == d.inFlight[slot])
  }

  ghost predicate BufferAlike(d: Device, e: Device, b: nat) {
    && |e.busy| == |d.busy| && |e.backing| == |d.backing|
    && (b < |d.busy| ==> e.busy[b] == d.busy[b]) && (b < |d.backing| ==> e.backing[b] == d.backing[b])
  }

  ghost predicate EntryAlike(d: Device, e: Device, entry: Entry, i: nat) {
    BufferAlike(d, e, i) && (entry.gpu.Some? ==> SlotAlike(d, e, entry.gpu.value.id))
  }

  lemma AlikeKeeps(d: Device, e: Device, entry: Entry, i: nat, content: Payload, ok: bool)
    requires EntryAlike(d, e, entry, i)
    ensures RestOk(d, entry, i, content) ==> RestOk(e, entry, i, content)
    ensures FlyingOk(d, entry, i, content) ==> FlyingOk(e, entry, i, content)
    ensures LandedOk(d, entry, i, content, ok) ==> LandedOk(e, entry, i, content, ok)
  {
  }

  // ---------------------------------------------------------------- a transfer lands

  lemma LandAlike(d: Device, t: Transfer, ok: bool, junk: Option<Payload>, entry: Entry, i: nat)
    requires InRange(d, t) && Held(d.pool, t.block) && i != t.buffer
             && (entry.gpu.Some? ==> entry.gpu.value.id != t.block.id)
    ensures EntryAlike(d, Land(d, t, ok, junk), entry, i)
  {
  }

  lemma LandLands(d: Device, entry: Entry, i: nat, content: Payload, ok: bool, junk: Option<Payload>)
    requires FlyingOk(d, entry, i, content) && i < |d.busy| == |d.backing| && |d.bytes| == |d.pool.pages|
    ensures var t := Transfer(entry.gpu.value, i, entry.move == ToGpu);
            InRange(d, t) && LandedOk(Land(d, t, ok, junk), entry, i, content, ok)
  {
  }

  lemma LandStep(s: Tiers, n: nat, claim: bool, ok: bool, junk: Option<Payload>)
    requires Midway(s, n, claim) && s.device.pending != [] && (claim ==> ok)
    ensures InRange(s.device, s.device.pending[0])
    ensures Midway(s.(device := Landed(s.device, ok, junk)), n + 1, claim)
    ensures Landed(s.device, ok, junk).pool.free == s.device.pool.free
    ensures |Landed(s.device, ok, junk).pool.pages| == |s.device.pool.pages|
  {
    var d := s.device;
    LandKeepsInv(d, ok, junk);
    var e := Landed(d, ok, junk);
    var u := s.(device := e);
    var t := d.pending[0];
    assert Flies(d, t) && Matches(s, n, d.pending[n - n]);
    var i := s.pending[n];
    LandsElsewhere(s, n, claim, ok, junk);
    LandKeepsMoves(s, u, n, claim, ok, junk);
    SteadyKeepsNames(s, u);
    forall j: nat | j < |u.entries| && !OnTheMove(u.entries[j]) ensures RestOk(e, u.entries[j], j, u.contents[j]) {
      assert i in s.pending;
      AlikeKeeps(d, e, s.entries[j], j, s.contents[j], claim);
    }
    OwnersStay(s, u);
  }

  /** With the entries the same, whoever owned a slot owns it still. */
  lemma OwnersStay(s: Tiers, u: Tiers)
    requires NoneLost(s) && u.entries == s.entries && |u.device.pool.pages| == |s.device.pool.pages|
    requires forall i ::
               0 <= i < |s.device.pool.pages| && u.device.pool.pages[i].refs > 0 ==> s.device.pool.pages[i].refs > 0
    ensures NoneLost(u)
  {
    forall slot: nat | slot < |u.device.pool.pages| && u.device.pool.pages[slot].refs > 0 ensures Owned(u, slot) {
      assert Owned(s, slot);
      var j: nat :| OwnsSlot(s, j, slot);
      assert OwnsSlot(u, j, slot);
    }
  }

  /** A landing shows at no other entry. */
  lemma LandsElsewhere(s: Tiers, n: nat, claim: bool, ok: bool, junk: Option<Payload>)
    requires Midway(s, n, claim) && s.device.pending != []
    ensures InRange(s.device, s.device.pending[0]) && s.pending[n] < |s.entries|
    ensures forall j: nat :: j < |s.entries| && j != s.pending[n] ==>
              EntryAlike(s.device, Landed(s.device, ok, junk), s.entries[j], j)
  {
    var d, i, t := s.device, s.pending[n], s.device.pending[0];
    assert Flies(d, t) && Matches(s, n, d.pending[n - n]);
    forall j: nat | j < |s.entries| && j != i ensures EntryAlike(d, Landed(d, ok, junk), s.entries[j], j) {
      if s.entries[j].gpu.Some? { assert s.entries[i].gpu.value.id != s.entries[j].gpu.value.id; }
      LandAlike(d, t, ok, junk, s.entries[j], j);
    }
  }

  lemma AllLanded(s: Tiers, n: nat, ok: bool)
    requires Midway(s, n, ok) && s.device.pending == []
    ensures Midway(s, 0, ok)
  {
  }

  lemma LandKeepsMoves(s: Tiers, u: Tiers, n: nat, claim: bool, ok: bool, junk: Option<Payload>)
    requires Midway(s, n, claim) && s.device.pending != [] && (claim ==> ok) && InRange(s.device, s.device.pending[0])
    requires u == s.(device := Landed(s.device, ok, junk)) && Shape(u)
    requires forall j: nat :: j < |s.entries| && j != s.pending[n] ==> EntryAlike(s.device, u.device, s.entries[j], j)
    ensures MovesOk(u, n + 1, claim)
  {
    var d, e := s.device, u.device;
    forall k | 0 <= k < |u.pending| && (k < n + 1 || k >= n + 1 + |e.pending|)
      ensures LandedOk(e, u.entries[u.pending[k]], u.pending[k], u.contents[u.pending[k]], claim)
    {
      var i := s.pending[k];
      if k == n {
        assert Matches(s, n, d.pending[n - n]);
        LandLands(d, s.entries[i], i, s.contents[i], ok, junk);
      } else {
        AlikeKeeps(d, e, s.entries[i], i, s.contents[i], claim);
      }
    }
    forall k | n + 1 <= k < n + 1 + |e.pending|
      ensures FlyingOk(e, u.entries[u.pending[k]], u.pending[k], u.contents[u.pending[k]])
              && Matches(u, k, e.pending[k - n - 1])
    {
      var i := s.pending[k];
      assert e.pending[k - n - 1] == d.pending[k - n] && Matches(s, k, d.pending[k - n]);
      AlikeKeeps(d, e, s.entries[i], i, s.contents[i], claim);
    }
  }

  // ---------------------------------------------------------------- counting

  lemma {:induction false} PrefetchedUpdate(entries: seq<Entry>, i: nat, e: Entry)
    requires i < |entries|
    ensures CountPrefetched(entries[i := e]) + (if entries[i].prefetched then 1 else 0)
         == CountPrefetched(entries) + if e.prefetched then 1 else 0
  {
    var n := |entries| - 1;
    if i == n {
      assert entries[i := e][..n] == entries[..n];
    } else {
      assert entries[i := e][..n] == entries[..n][i := e];
      PrefetchedUpdate(entries[..n], i, e);
    }
  }

  lemma {:induction false} OffloadsElsewhere(entries: seq<Entry>, pending: seq<nat>, i: nat, e: Entry)
    requires i < |entries| && i !in pending
    ensures CountOffloads(entries[i := e], pending) == CountOffloads(entries, pending)
  {
    if pending != [] {
      assert pending[0] in pending;
      OffloadsElsewhere(entries, pending[1..], i, e);
    }
  }

  lemma {:induction false} OffloadsSnoc(entries: seq<Entry>, pending: seq<nat>, i: nat)
    ensures CountOffloads(entries, pending + [i])
         == CountOffloads(entries, pending) + if i < |entries| && entries[i].move == ToCpu then 1 else 0
  {
    if pending == [] {
      assert CountOffloads(entries, [i][1..]) == 0;
    } else {
      assert (pending + [i])[1..] == pending[1..] + [i];
      OffloadsSnoc(entries, pending[1..], i);
    }
  }

  // ---------------------------------------------------------------- a move is settled

  lemma SettleKeepsDevice(s: Tiers, ok: bool)
    requires Midway(s, 0, ok) && s.device.pending == [] && s.pending != []
    ensures s.pending[0] < |s.entries| && s.entries[s.pending[0]].gpu.Some?
    ensures var u := Settle(s, ok); var e := s.entries[s.pending[0]];
            && Shape(u) && u.device.pending == []
            && (forall j: nat ::
                  j < |s.entries| && j != s.pending[0] ==> EntryAlike(s.device, u.device, s.entries[j], j))
            && BufferAlike(s.device, u.device, s.pending[0])
            && (if ok == (e.move == ToCpu)
                then u.device.pool.free == [e.gpu.value.id] + s.device.pool.free
                && u.device.pool.pages[e.gpu.value.id].refs == 0
                else u.device == s.device)
  {
    var i := s.pending[0];
    var e := s.entries[i];
    assert LandedOk(s.device, e, i, s.contents[i], ok);
    var u := Settle(s, ok);
    if ok == (e.move == ToCpu) {
      ReleaseKeepsInv(s.device.pool, e.gpu.value);
      assert FlagsOk(u.device);
    }
    forall j: nat | j < |s.entries| && j != i ensures EntryAlike(s.device, u.device, s.entries[j], j) {
      if s.entries[j].gpu.Some? { assert s.entries[i].gpu.value.id != s.entries[j].gpu.value.id; }
    }
  }

  lemma HeadLanded(s: Tiers, ok: bool)
    requires Midway(s, 0, ok) && s.device.pending == [] && s.pending != []
    ensures s.pending[0] < |s.entries| && MidAir(s.entries[s.pending[0]]) && OnTheMove(s.entries[s.pending[0]])
  {
    assert LandedOk(s.device, s.entries[s.pending[0]], s.pending[0], s.contents[s.pending[0]], ok);
  }

  predicate MidAir(e: Entry) {
    e.gpu.Some? && e.live && e.pins == 0 && e.location == TRANSFERRING
  }

  lemma SettleIsSteady(s: Tiers, ok: bool)
    requires s.pending != [] && s.pending[0] < |s.entries| && MidAir(s.entries[s.pending[0]])
    ensures Steady(s, Settle(s, ok)) && Home(s, Settle(s, ok))
            && (ok && OnTheMove(s.entries[s.pending[0]]) ==> Onward(s, Settle(s, ok)))
  {
  }

  lemma SettleKeepsLists(s: Tiers, ok: bool)
    requires ListsOk(s) && s.pending != [] && s.pending[0] < |s.entries| && MidAir(s.entries[s.pending[0]])
    ensures ListsOk(Settle(s, ok))
  {
    var i := s.pending[0];
    assert i in s.pending;
    NoDupTail(s.pending);
    TouchNoDup(s.lru, i);
  }

  lemma SettleKeepsSlots(s: Tiers, ok: bool)
    requires Midway(s, 0, ok) && s.device.pending == [] && s.pending != []
    requires s.pending[0] < |s.entries| && s.entries[s.pending[0]].gpu.Some?
    ensures SlotsOk(Settle(s, ok))
  {
    SettleKeepsDevice(s, ok);
    var u := Settle(s, ok);
    var i := s.pending[0];
    forall slot: nat | slot < |u.device.pool.pages| && u.device.pool.pages[slot].refs > 0 ensures Owned(u, slot) {
      assert s.device.pool.pages[slot].refs > 0 && Owned(s, slot);
      var j: nat :| OwnsSlot(s, j, slot);
      assert OwnsSlot(u, j, slot);
    }
  }

  lemma SettleKeepsBlocks(s: Tiers, ok: bool)
    requires Midway(s, 0, ok) && s.device.pending == [] && s.pending != []
    requires s.pending[0] < |s.entries| && s.entries[s.pending[0]].gpu.Some?
    ensures var u := Settle(s, ok); Shape(u) && MovesOk(u, 0, ok) && RestsOk(u)
  {
    SettleKeepsDevice(s, ok);
    var u := Settle(s, ok);
    var i := s.pending[0];
    assert LandedOk(s.device, s.entries[i], i, s.contents[i], ok);
    NoDupTail(s.pending);
    forall k | 0 <= k < |u.pending|
      ensures LandedOk(u.device, u.entries[u.pending[k]], u.pending[k], u.contents[u.pending[k]], ok)
    {
      var j := u.pending[k];
      assert j == s.pending[k + 1] && j in u.pending && j != i;
      AlikeKeeps(s.device, u.device, s.entries[j], j, s.contents[j], ok);
    }
    forall j: nat | j < |u.entries| && !OnTheMove(u.entries[j])
      ensures RestOk(u.device, u.entries[j], j, u.contents[j])
    {
      if j != i { AlikeKeeps(s.device, u.device, s.entries[j], j, s.contents[j], ok); }
    }
  }

  lemma SettleCounts(s: Tiers, ok: bool)
    requires Midway(s, 0, ok) && s.device.pending == [] && s.pending != []
    requires s.pending[0] < |s.entries| && s.entries[s.pending[0]].gpu.Some?
    ensures var u := Settle(s, ok);
            && (Accounted(s) ==> Accounted(u))
            && (ok ==> Room(u) == Room(s))
  {
    SettleKeepsDevice(s, ok);
    var u := Settle(s, ok);
    var i := s.pending[0];
    PrefetchedUpdate(s.entries, i, u.entries[i]);
    NoDupTail(s.pending);
    OffloadsElsewhere(s.entries, s.pending[1..], i, u.entries[i]);
  }

  lemma SettleStep(s: Tiers, ok: bool)
    requires Midway(s, 0, ok) && s.device.pending == [] && s.pending != []
    ensures s.pending[0] < |s.entries| && s.entries[s.pending[0]].gpu.Some?
    ensures var u := Settle(s, ok);
            && Midway(u, 0, ok) && u.device.pending == [] && Steady(s, u) && Home(s, u) && (ok ==> Onward(s, u))
            && u.pending == s.pending[1..] && u.queued == s.queued
            && (Accounted(s) ==> Accounted(u))
            && (ok ==> Room(u) == Room(s))
  {
    HeadLanded(s, ok);
    SettleIsSteady(s, ok);
    SettleKeepsLists(s, ok);
    SettleKeepsSlots(s, ok);
    SettleKeepsBlocks(s, ok);
    SettleCounts(s, ok);
    SteadyKeepsNames(s, Settle(s, ok));
  }

  // ---------------------------------------------------------------- a move begins

  /** All moves but the latest are in flight, and that one is about to be submitted. */
  ghost predicate Poised(s: Tiers) {
    Midway(s, 0, false) && |s.pending| == |s.device.pending| + 1
  }

  /** The device is busy with pending move `k`. */
  ghost predicate FliesAt(s: Tiers, k: nat)
    requires Shape(s)
  {
    && k < |s.pending| && k < |s.device.pending| && Matches(s, k, s.device.pending[k])
    && FlyingOk(s.device, s.entries[s.pending[k]], s.pending[k], s.contents[s.pending[k]])
  }

  lemma Flew(s: Tiers, k: nat, ok: bool)
    requires Shape(s) && MovesOk(s, 0, ok) && k < |s.device.pending|
    ensures FliesAt(s, k)
  {
    assert Matches(s, k, s.device.pending[k - 0]);
  }

  lemma AllFly(s: Tiers, ok: bool)
    requires Shape(s) && |s.device.pending| <= |s.pending| && forall k: nat :: k < |s.device.pending| ==> FliesAt(s, k)
    requires forall k :: |s.device.pending| <= k < |s.pending| ==>
               s.pending[k] < |s.entries|
               && LandedOk(s.device, s.entries[s.pending[k]], s.pending[k], s.contents[s.pending[k]], ok)
    ensures MovesOk(s, 0, ok)
  {
    forall k: nat | k < |s.pending| ensures s.pending[k] < |s.entries| {
      if k < |s.device.pending| { assert FliesAt(s, k); }
    }
    forall k | 0 <= k < 0 + |s.device.pending|
      ensures FlyingOk(s.device, s.entries[s.pending[k]], s.pending[k], s.contents[s.pending[k]])
              && Matches(s, k, s.device.pending[k - 0])
    {
      assert FliesAt(s, k);
    }
  }

  lemma AllFlying(s: Tiers, ok: bool)
    requires Shape(s) && MovesOk(s, 0, true) && |s.device.pending| == |s.pending|
    ensures MovesOk(s, 0, ok)
  {
    forall k: nat | k < |s.device.pending| ensures FliesAt(s, k) { Flew(s, k, true); }
    AllFly(s, ok);
  }

  lemma SettledIsMidway(s: Tiers, ok: bool)
    requires Settled(s)
    ensures Midway(s, 0, ok)
  {
    AllFlying(s, ok);
  }

  /** Entry `i` has joined the end of the pending moves; all else is as it was. */
  lemma JoinKeepsMoves(s: Tiers, u: Tiers, i: nat)
    requires Settled(s) && Shape(u) && i < |s.entries| && i !in s.pending
    requires u.pending == s.pending + [i] && u.device.pending == s.device.pending && u.contents == s.contents
    requires |u.entries| == |s.entries| && forall j: nat :: j < |s.entries| && j != i ==>
               u.entries[j] == s.entries[j] && EntryAlike(s.device, u.device, s.entries[j], j)
    requires LandedOk(u.device, u.entries[i], i, u.contents[i], false)
    ensures MovesOk(u, 0, false)
  {
    forall k: nat | k < |u.device.pending| ensures FliesAt(u, k) {
      var j := s.pending[k];
      assert j in s.pending && u.pending[k] == j;
      Flew(s, k, true);
      AlikeKeeps(s.device, u.device, s.entries[j], j, s.contents[j], false);
    }
    AllFly(u, false);
  }

  lemma JoinKeepsRests(s: Tiers, u: Tiers, i: nat)
    requires Shape(s) && RestsOk(s) && Shape(u) && i < |s.entries| && u.contents == s.contents
    requires |u.entries| == |s.entries| && forall j: nat :: j < |s.entries| && j != i ==>
               u.entries[j] == s.entries[j] && EntryAlike(s.device, u.device, s.entries[j], j)
    requires OnTheMove(u.entries[i]) || RestOk(u.device, u.entries[i], i, u.contents[i])
    ensures RestsOk(u)
  {
    forall j: nat | j < |u.entries| && !OnTheMove(u.entries[j])
      ensures RestOk(u.device, u.entries[j], j, u.contents[j])
    {
      if j != i { AlikeKeeps(s.device, u.device, s.entries[j], j, s.contents[j], false); }
    }
  }

  predicate Loadable(s: Tiers, i: nat) {
    && i < |s.entries| && s.entries[i].live && s.device.pool.free != []
    && (s.entries[i].location == CPU_RESIDENT
        || (s.entries[i].move == QueuedLoad && s.queued != [] && s.queued[0] == i))
  }

  lemma ReserveKeepsDevice(s: Tiers, i: nat, h: Handle, pool: Pool)
    requires Settled(s) && Loadable(s, i) && Allocate(s.device.pool) == Ok((h, pool))
    ensures h.id < |s.device.initialized|
    ensures var u := Reserve(s, i, h, pool);
            && Shape(u) && LandedOk(u.device, u.entries[i], i, u.contents[i], false)
            && (forall j: nat :: j < |s.entries| && j != i ==> EntryAlike(s.device, u.device, s.entries[j], j))
            && u.device.pool.free == s.device.pool.free[1..] && h.id == s.device.pool.free[0]
            && s.device.pool.pages[h.id].refs == 0
            && (forall slot ::
                  0 <= slot < |pool.pages| && slot != h.id ==> pool.pages[slot] == s.device.pool.pages[slot])
  {
    AllocateOutcome(s.device.pool);
    AllocateKeepsInv(s.device.pool);
    assert i !in s.pending;
    assert RestOk(s.device, s.entries[i], i, s.contents[i]);
    var u := Reserve(s, i, h, pool);
    UnreferencedIsIdle(s.device, h.id);
    IdleSlotChanges(s.device, u.device, h.id);
    forall j: nat | j < |s.entries| && j != i ensures EntryAlike(s.device, u.device, s.entries[j], j) {
      if s.entries[j].gpu.Some? { GpuHeld(s, j); }
    }
  }

  /** A slot that takes no part in any transfer can be handed out or given back. */
  lemma IdleSlotChanges(d: Device, e: Device, slot: nat)
    requires DeviceInv(d) && slot < |d.inFlight| && !d.inFlight[slot]
    requires e == d.(pool := e.pool, initialized := e.initialized) && |e.initialized| == |d.initialized|
             && |e.pool.pages| == |d.pool.pages|
    requires Inv(e.pool) && NeverPublished(e.pool)
    requires forall k :: 0 <= k < |d.inFlight| && k != slot ==>
               e.pool.pages[k] == d.pool.pages[k] && e.initialized[k] == d.initialized[k]
    ensures DeviceInv(e)
  {
    forall k | 0 <= k < |d.pending| ensures Flies(e, e.pending[k]) {
      assert Flies(d, d.pending[k]);
    }
    FlagsElsewhere(d, e);
  }

  lemma FlagsElsewhere(d: Device, e: Device)
    requires FlagsOk(d) && e.pending == d.pending && e.inFlight == d.inFlight && e.busy == d.busy
    ensures FlagsOk(e)
  {
    forall slot: nat | slot < |e.inFlight| && e.inFlight[slot] ensures Moves(e, slot) { assert Moves(d, slot); }
    forall b: nat | b < |e.busy| && e.busy[b] ensures Uses(e, b) { assert Uses(d, b); }
  }

  lemma UnreferencedIsIdle(d: Device, slot: nat)
    requires DeviceInv(d) && slot < |d.pool.pages| && d.pool.pages[slot].refs == 0
    ensures !d.inFlight[slot]
  {
    assert d.inFlight[slot] ==> Moves(d, slot);
    assert forall k :: 0 <= k < |d.pending| ==> Flies(d, d.pending[k]);
  }

  lemma GpuHeld(s: Tiers, j: nat)
    requires Settled(s) && j < |s.entries| && s.entries[j].gpu.Some?
    ensures Held(s.device.pool, s.entries[j].gpu.value) && s.device.pool.pages[s.entries[j].gpu.value.id].refs > 0
  {
    if OnTheMove(s.entries[j]) {
      assert j in s.pending;
      var k :| 0 <= k < |s.pending| && s.pending[k] == j;
      Flew(s, k, true);
    } else {
      assert RestOk(s.device, s.entries[j], j, s.contents[j]);
    }
  }

  lemma LoadableRests(s: Tiers, i: nat)
    requires Settled(s) && Loadable(s, i)
    ensures i !in s.pending && s.entries[i].location != GPU_RESIDENT && s.entries[i].pins == 0
  {
    assert RestOk(s.device, s.entries[i], i, s.contents[i]) && i !in s.pending;
  }

  lemma ReserveKeepsLists(s: Tiers, i: nat, h: Handle, pool: Pool)
    requires ListsOk(s) && i < |s.entries| && h.id < |s.device.initialized| && i !in s.pending
             && s.entries[i].location != GPU_RESIDENT
    requires s.entries[i].move == QueuedLoad ==> s.queued != [] && s.queued[0] == i
    ensures ListsOk(Reserve(s, i, h, pool))
  {
    if s.entries[i].move == QueuedLoad { NoDupTail(s.queued); }
    WithoutNoDup(s.pending, i);
    TouchNoDup(s.pending, i);
  }

  lemma ReserveKeepsSlots(s: Tiers, i: nat, h: Handle, pool: Pool)
    requires Settled(s) && Loadable(s, i) && Allocate(s.device.pool) == Ok((h, pool)) && h.id < |s.device.initialized|
    ensures SlotsOk(Reserve(s, i, h, pool))
  {
    ReserveKeepsDevice(s, i, h, pool);
    var u := Reserve(s, i, h, pool);
    assert i !in s.pending;
    forall j: nat, k: nat {:trigger u.entries[j], u.entries[k]} |
      j < k < |u.entries| && u.entries[j].gpu.Some? && u.entries[k].gpu.Some?
      ensures u.entries[j].gpu.value.id != u.entries[k].gpu.value.id
    {
      if j == i { GpuHeld(s, k); } else if k == i { GpuHeld(s, j); }
      else { assert s.entries[j].gpu.value.id != s.entries[k].gpu.value.id; }
    }
    forall slot: nat | slot < |u.device.pool.pages| && u.device.pool.pages[slot].refs > 0 ensures Owned(u, slot) {
      if slot == h.id {
        assert OwnsSlot(u, i, slot);
      } else {
        assert Owned(s, slot);
        var j: nat :| OwnsSlot(s, j, slot);
        assert RestOk(s.device, s.entries[i], i, s.contents[i]);
        assert OwnsSlot(u, j, slot);
      }
    }
  }

  lemma ReserveCounts(s: Tiers, i: nat, h: Handle, pool: Pool)
    requires Settled(s) && Loadable(s, i) && Allocate(s.device.pool) == Ok((h, pool)) && h.id < |s.device.initialized|
    ensures var u := Reserve(s, i, h, pool);
            && (Accounted(s) ==> Accounted(u)) && Room(u) + 1 == Room(s)
            && CountOffloads(u.entries, u.pending) == CountOffloads(s.entries, s.pending)
  {
    ReserveKeepsDevice(s, i, h, pool);
    var u := Reserve(s, i, h, pool);
    PrefetchedUpdate(s.entries, i, u.entries[i]);
    OffloadsElsewhere(s.entries, s.pending, i, u.entries[i]);
    OffloadsSnoc(u.entries, s.pending, i);
  }

  lemma ReserveKeepsBlocks(s: Tiers, i: nat, h: Handle, pool: Pool)
    requires Settled(s) && Loadable(s, i) && Allocate(s.device.pool) == Ok((h, pool))
    ensures h.id < |s.device.initialized|
    ensures var u := Reserve(s, i, h, pool); Shape(u) && MovesOk(u, 0, false) && RestsOk(u)
  {
    ReserveKeepsDevice(s, i, h, pool);
    LoadableRests(s, i);
    JoinKeepsMoves(s, Reserve(s, i, h, pool), i);
    JoinKeepsRests(s, Reserve(s, i, h, pool), i);
  }

  lemma ReserveIsSteady(s: Tiers, i: nat, h: Handle, pool: Pool)
    requires i < |s.entries| && h.id < |s.device.initialized| && (s.entries[i].move == QueuedLoad ==> s.queued != [])
    requires s.entries[i].pins == 0 && |pool.pages| == |s.device.pool.pages|
    ensures Steady(s, Reserve(s, i, h, pool))
  {
  }

  /** A slot is taken for a block's load: one that no other block had. */
  lemma ReserveStep(s: Tiers, i: nat, h: Handle, pool: Pool)
    requires Settled(s) && Loadable(s, i) && Allocate(s.device.pool) == Ok((h, pool))
    ensures h.id < |s.device.initialized|
    ensures var u := Reserve(s, i, h, pool);
            && Poised(u) && Steady(s, u) && (Accounted(s) ==> Accounted(u)) && Room(u) + 1 == Room(s)
            && CountOffloads(u.entries, u.pending) == CountOffloads(s.entries, s.pending)
  {
    ReserveKeepsBlocks(s, i, h, pool);
    LoadableRests(s, i);
    ReserveKeepsLists(s, i, h, pool);
    ReserveKeepsSlots(s, i, h, pool);
    ReserveCounts(s, i, h, pool);
    ReserveIsSteady(s, i, h, pool);
    SteadyKeepsNames(s, Reserve(s, i, h, pool));
  }

  // ---------------------------------------------------------------- a move is submitted

  /** The runtime's guards never turn down a move of the manager's. */
  lemma NeverRefused(s: Tiers)
    requires Poised(s)
    ensures s.pending[|s.pending| - 1] < |s.entries| && s.entries[s.pending[|s.pending| - 1]].gpu.Some?
    ensures Refusal(s.device, LastTransfer(s)).None?
  {
    var k := |s.pending| - 1;
    assert LandedOk(s.device, s.entries[s.pending[k]], s.pending[k], s.contents[s.pending[k]], false);
  }

  lemma SubmitAlike(d: Device, t: Transfer, entry: Entry, j: nat)
    requires Refusal(d, t).None? && j != t.buffer && (entry.gpu.Some? ==> entry.gpu.value.id != t.block.id)
    ensures EntryAlike(d, Submit(d, t), entry, j)
  {
  }

  lemma SubmitFlies(d: Device, e: Entry, i: nat, content: Payload)
    requires LandedOk(d, e, i, content, false) && Refusal(d, Transfer(e.gpu.value, i, e.move == ToGpu)).None?
    ensures FlyingOk(Submit(d, Transfer(e.gpu.value, i, e.move == ToGpu)),
                     if e.move == ToCpu then e.(prefetched := false) else e, i, content)
  {
  }

  ghost predicate Launchable(s: Tiers) {
    && Poised(s) && s.pending[|s.pending| - 1] < |s.entries| && s.entries[s.pending[|s.pending| - 1]].gpu.Some?
    && Refusal(s.device, LastTransfer(s)).None?
  }

  /** The latest move can be sent off; folded like `Sound`. */
  ghost predicate Ready(s: Tiers) {
    forall t {:trigger Unseal(t)} :: t == s ==> Launchable(t) && Accounted(t)
  }

  lemma UnfoldReady(s: Tiers)
    requires Ready(s)
    ensures Launchable(s) && Accounted(s)
  {
    assert Unseal(s);
  }

  lemma LaunchAlike(s: Tiers, j: nat)
    requires Launchable(s) && j < |s.entries| && j != s.pending[|s.pending| - 1]
    ensures Launch(s).entries[j] == s.entries[j] && EntryAlike(s.device, Launch(s).device, s.entries[j], j)
  {
    if s.entries[j].gpu.Some? { assert LastTransfer(s).block.id != s.entries[j].gpu.value.id; }
    SubmitAlike(s.device, LastTransfer(s), s.entries[j], j);
  }

  lemma LaunchedFlies(s: Tiers)
    requires Launchable(s)
    ensures var u := Launch(s); var i := s.pending[|s.pending| - 1];
            && Shape(u) && u.device.pending == s.device.pending + [LastTransfer(s)]
            && FlyingOk(u.device, u.entries[i], i, u.contents[i])
  {
    var i := s.pending[|s.pending| - 1];
    assert LandedOk(s.device, s.entries[i], i, s.contents[i], false);
    SubmitKeepsInv(s.device, LastTransfer(s));
    SubmitFlies(s.device, s.entries[i], i, s.contents[i]);
  }

  /** The moves that were under way stay so. */
  lemma StillFlies(s: Tiers, u: Tiers, k: nat)
    requires Shape(s) && FliesAt(s, k) && Shape(u) && u.pending == s.pending && u.contents == s.contents
    requires k < |u.device.pending| && u.device.pending[k] == s.device.pending[k]
    requires |u.entries| == |s.entries| && u.entries[s.pending[k]] == s.entries[s.pending[k]]
    requires EntryAlike(s.device, u.device, s.entries[s.pending[k]], s.pending[k])
    ensures FliesAt(u, k)
  {
    AlikeKeeps(s.device, u.device, s.entries[s.pending[k]], s.pending[k], s.contents[s.pending[k]], false);
  }

  lemma LaunchFlies(s: Tiers, k: nat)
    requires Launchable(s) && k <= |s.device.pending|
    ensures Shape(Launch(s)) && FliesAt(Launch(s), k)
  {
    LaunchedFlies(s);
    if k < |s.device.pending| {
      Flew(s, k, false);
      LaunchAlike(s, s.pending[k]);
      StillFlies(s, Launch(s), k);
    }
  }

  lemma LaunchKeepsMoves(s: Tiers)
    requires Launchable(s) && Shape(Launch(s))
    requires |Launch(s).device.pending| == |s.device.pending| + 1 == |Launch(s).pending|
    ensures MovesOk(Launch(s), 0, true)
  {
    forall k: nat | k < |Launch(s).device.pending| ensures FliesAt(Launch(s), k) { LaunchFlies(s, k); }
    AllFly(Launch(s), true);
  }

  lemma LaunchKeepsBlocks(s: Tiers)
    requires Launchable(s)
    ensures Shape(Launch(s)) && MovesOk(Launch(s), 0, true) && RestsOk(Launch(s))
  {
    LaunchedFlies(s);
    LaunchKeepsMoves(s);
    forall j: nat | j < |s.entries| && j != s.pending[|s.pending| - 1]
      ensures Launch(s).entries[j] == s.entries[j] && EntryAlike(s.device, Launch(s).device, s.entries[j], j)
    {
      LaunchAlike(s, j);
    }
    JoinKeepsRests(s, Launch(s), s.pending[|s.pending| - 1]);
  }

  lemma LaunchKeepsSlots(s: Tiers)
    requires Launchable(s)
    ensures SlotsOk(Launch(s))
  {
    var u := Launch(s);
    forall slot: nat | slot < |u.device.pool.pages| && u.device.pool.pages[slot].refs > 0 ensures Owned(u, slot) {
      assert Owned(s, slot);
      var j: nat :| OwnsSlot(s, j, slot);
      assert OwnsSlot(u, j, slot);
    }
  }

  lemma LaunchKeepsLists(s: Tiers)
    requires ListsOk(s) && s.pending != [] && s.pending[|s.pending| - 1] < |s.entries|
             && MidAir(s.entries[s.pending[|s.pending| - 1]])
    requires Refusal(s.device, LastTransfer(s)).None?
    ensures ListsOk(Launch(s)) && Steady(s, Launch(s))
  {
  }

  lemma LaunchCounts(s: Tiers)
    requires s.pending != [] && s.pending[|s.pending| - 1] < |s.entries|
             && MidAir(s.entries[s.pending[|s.pending| - 1]])
    requires Refusal(s.device, LastTransfer(s)).None?
    ensures var u := Launch(s);
            && Room(u) == Room(s) && (Accounted(s) ==> Accounted(u))
            && CountOffloads(u.entries, u.pending) == CountOffloads(s.entries, s.pending)
  {
    var u := Launch(s);
    var i := s.pending[|s.pending| - 1];
    PrefetchedUpdate(s.entries, i, u.entries[i]);
    SameMovesSameCount(s.entries, u.entries, s.pending);
  }

  lemma LaunchKeepsRest(s: Tiers)
    requires Launchable(s)
    ensures var u := Launch(s);
            && ListsOk(u) && Steady(s, u) && Room(u) == Room(s) && (Accounted(s) ==> Accounted(u))
            && CountOffloads(u.entries, u.pending) == CountOffloads(s.entries, s.pending)
  {
    var i := s.pending[|s.pending| - 1];
    assert LandedOk(s.device, s.entries[i], i, s.contents[i], false);
    LaunchKeepsLists(s);
    LaunchCounts(s);
  }

  lemma {:induction false} SameMovesSameCount(a: seq<Entry>, b: seq<Entry>, pending: seq<nat>)
    requires |a| == |b| && forall i :: 0 <= i < |a| ==> b[i].move == a[i].move
    ensures CountOffloads(b, pending) == CountOffloads(a, pending)
  {
    if pending != [] { SameMovesSameCount(a, b, pending[1..]); }
  }

  lemma LaunchStep(s: Tiers)
    requires Launchable(s)
    ensures var u := Launch(s);
            && Settled(u) && Steady(s, u) && Room(u) == Room(s) && (Accounted(s) ==> Accounted(u))
            && CountOffloads(u.entries, u.pending) == CountOffloads(s.entries, s.pending)
  {
    LaunchKeepsBlocks(s);
    LaunchKeepsSlots(s);
    LaunchKeepsRest(s);
    SteadyKeepsNames(s, Launch(s));
  }

  // ---------------------------------------------------------------- an offload begins, a load is queued or given up

  lemma BeginOffloadKeepsLists(s: Tiers, i: nat)
    requires ListsOk(s) && i < |s.entries| && Evictable(s.entries[i]) && s.entries[i].move == NoMove
    ensures ListsOk(BeginOffload(s, i)) && i !in s.pending
  {
    WithoutNoDup(s.lru, i);
    WithoutNoDup(s.pending, i);
    TouchNoDup(s.pending, i);
  }

  lemma SameSlotsKeep(s: Tiers, u: Tiers)
    requires SlotsOk(s) && |u.entries| == |s.entries| && u.device.pool == s.device.pool
    requires forall i :: 0 <= i < |s.entries| ==> u.entries[i].gpu == s.entries[i].gpu
    ensures SlotsOk(u)
  {
    forall slot: nat | slot < |u.device.pool.pages| && u.device.pool.pages[slot].refs > 0 ensures Owned(u, slot) {
      assert Owned(s, slot);
      var j: nat :| OwnsSlot(s, j, slot);
      assert OwnsSlot(u, j, slot);
    }
  }

  lemma BeginOffloadStep(s: Tiers, i: nat)
    requires Settled(s) && i < |s.entries| && Evictable(s.entries[i])
    ensures var u := BeginOffload(s, i);
            && Poised(u) && Steady(s, u) && (Accounted(s) ==> Accounted(u)) && Room(u) == Room(s) + 1
            && CountOffloads(u.entries, u.pending) == CountOffloads(s.entries, s.pending) + 1
  {
    assert !OnTheMove(s.entries[i]) ==> RestOk(s.device, s.entries[i], i, s.contents[i]);
    EvictableRests(s, i);
    var u := BeginOffload(s, i);
    BeginOffloadKeepsLists(s, i);
    SameSlotsKeep(s, u);
    JoinKeepsMoves(s, u, i);
    JoinKeepsRests(s, u, i);
    SteadyKeepsNames(s, u);
    PrefetchedUpdate(s.entries, i, u.entries[i]);
    OffloadsElsewhere(s.entries, s.pending, i, u.entries[i]);
    OffloadsSnoc(u.entries, s.pending, i);
  }

  lemma MovingTransfers(s: Tiers, i: nat)
    requires Settled(s) && i < |s.entries|
    ensures OnTheMove(s.entries[i]) ==>
              s.entries[i].location == TRANSFERRING && s.entries[i].live && s.entries[i].pins == 0
    ensures i in s.pending ==> OnTheMove(s.entries[i])
  {
    if i in s.pending {
      var k :| 0 <= k < |s.pending| && s.pending[k] == i;
      Flew(s, k, true);
    }
  }

  lemma EvictableRests(s: Tiers, i: nat)
    requires Settled(s) && i < |s.entries| && s.entries[i].location != TRANSFERRING
    ensures !OnTheMove(s.entries[i]) && i !in s.pending && RestOk(s.device, s.entries[i], i, s.contents[i])
  {
    MovingTransfers(s, i);
  }

  lemma SameMovesOk(s: Tiers, u: Tiers, i: nat, ok: bool)
    requires Shape(s) && Shape(u) && MovesOk(s, 0, ok) && i !in s.pending && u.pending == s.pending
             && u.device == s.device
    requires u.contents == s.contents && |u.entries| == |s.entries|
    requires forall j: nat :: j < |s.entries| && j != i ==> u.entries[j] == s.entries[j]
    ensures MovesOk(u, 0, ok)
  {
    forall k: nat | k < |u.device.pending| ensures FliesAt(u, k) {
      assert s.pending[k] in s.pending;
      Flew(s, k, ok);
    }
    assert forall k :: 0 <= k < |s.pending| ==> s.pending[k] in s.pending;
    AllFly(u, ok);
  }

  /** One block off the device has been queued, or taken off the queue. */
  lemma RestChanges(s: Tiers, u: Tiers, i: nat, ok: bool)
    requires Midway(s, 0, ok) && i < |s.entries| && i !in s.pending && ListsOk(u)
    requires |u.entries| == |s.entries|
             && u == s.(entries := s.entries[i := u.entries[i]], queued := u.queued, counters := u.counters)
    requires EntryKept(s.entries[i], u.entries[i]) && u.entries[i].gpu == s.entries[i].gpu
    requires SameDemands(s.counters, u.counters)
    requires RestOk(u.device, u.entries[i], i, u.contents[i])
    ensures Midway(u, 0, ok) && Steady(s, u)
  {
    SameSlotsKeep(s, u);
    SteadyKeepsNames(s, u);
    SameMovesOk(s, u, i, ok);
    JoinKeepsRests(s, u, i);
  }

  lemma EnqueueKeepsLists(s: Tiers, i: nat)
    requires ListsOk(s) && i < |s.entries| && s.entries[i].location == CPU_RESIDENT && s.entries[i].move == NoMove
    ensures ListsOk(Enqueue(s, i))
  {
    WithoutNoDup(s.queued, i);
    TouchNoDup(s.queued, i);
  }

  lemma EnqueueCounts(s: Tiers, i: nat)
    requires i < |s.entries| && i !in s.pending
    ensures var u := Enqueue(s, i);
            && (Accounted(s) ==> Accounted(u)) && Room(u) == Room(s)
            && CountOffloads(u.entries, u.pending) == CountOffloads(s.entries, s.pending)
  {
    PrefetchedUpdate(s.entries, i, Enqueue(s, i).entries[i]);
    OffloadsElsewhere(s.entries, s.pending, i, Enqueue(s, i).entries[i]);
  }

  lemma EnqueueStep(s: Tiers, i: nat)
    requires Settled(s) && i < |s.entries| && s.entries[i].live && s.entries[i].location == CPU_RESIDENT
    ensures var u := Enqueue(s, i);
            && Settled(u) && Steady(s, u) && (Accounted(s) ==> Accounted(u)) && Room(u) == Room(s)
            && CountOffloads(u.entries, u.pending) == CountOffloads(s.entries, s.pending)
  {
    EvictableRests(s, i);
    EnqueueKeepsLists(s, i);
    RestChanges(s, Enqueue(s, i), i, true);
    EnqueueCounts(s, i);
  }

  lemma UnqueueKeepsLists(s: Tiers)
    requires ListsOk(s) && s.queued != [] && s.queued[0] < |s.entries| && !Evictable(s.entries[s.queued[0]])
    ensures ListsOk(Unqueue(s))
  {
    assert s.queued[0] in s.queued;
    NoDupTail(s.queued);
  }

  lemma UnqueueStep(s: Tiers, ok: bool)
    requires Midway(s, 0, ok) && s.queued != []
    ensures s.queued[0] < |s.entries|
    ensures var u := Unqueue(s);
            && Midway(u, 0, ok) && Steady(s, u) && Home(s, u) && (Accounted(s) ==> Accounted(u))
            && u.pending == s.pending && u.device == s.device
  {
    var i := s.queued[0];
    assert i in s.queued;
    assert RestOk(s.device, s.entries[i], i, s.contents[i]);
    UnqueueKeepsLists(s);
    RestChanges(s, Unqueue(s), i, ok);
    PrefetchedUpdate(s.entries, i, Unqueue(s).entries[i]);
  }

  // ---------------------------------------------------------------- bytes moved

  function CountWrites(transfers: seq<Transfer>): (n: nat)
    ensures n <= |transfers|
  {
    if transfers == [] then 0 else CountWrites(transfers[1..]) + if transfers[0].write then 1 else 0
  }

  /** The manager's counts of completed moves agree with what the runtime says it has copied. */
  predicate Balanced(s: Tiers) {
    s.counters.loads == s.device.toDevice && s.counters.offloads == s.device.toHost
  }

  lemma {:induction false} WritesAreLoads(entries: seq<Entry>, pending: seq<nat>, transfers: seq<Transfer>)
    requires |pending| == |transfers| && forall k ::
               0 <= k < |pending| ==> pending[k] < |entries| && OnTheMove(entries[pending[k]])
    requires forall k :: 0 <= k < |pending| ==> transfers[k].write == (entries[pending[k]].move == ToGpu)
    ensures CountWrites(transfers) + CountOffloads(entries, pending) == |pending|
  {
    if pending != [] {
      assert forall k ::
               0 <= k < |pending[1..]| ==> pending[1..][k] == pending[k + 1] && transfers[1..][k] == transfers[k + 1];
      WritesAreLoads(entries, pending[1..], transfers[1..]);
    }
  }

  lemma PendingIsInFlight(s: Tiers)
    requires Settled(s)
    ensures CountWrites(s.device.pending) + CountOffloads(s.entries, s.pending) == |s.pending|
  {
    forall k | 0 <= k < |s.pending| ensures s.pending[k] < |s.entries| && OnTheMove(s.entries[s.pending[k]])
        && s.device.pending[k].write == (s.entries[s.pending[k]].move == ToGpu) {
      Flew(s, k, true);
    }
    WritesAreLoads(s.entries, s.pending, s.device.pending);
  }

  /** While moves are being settled: what has been counted and what is still to be counted. */
  function LoadsDue(s: Tiers): int {
    s.counters.loads + |s.pending| - CountOffloads(s.entries, s.pending)
  }

  function OffloadsDue(s: Tiers): nat {
    s.counters.offloads + CountOffloads(s.entries, s.pending)
  }

  lemma SettleCountsMoves(s: Tiers)
    requires Midway(s, 0, true) && s.device.pending == [] && s.pending != []
    requires s.pending[0] < |s.entries| && s.entries[s.pending[0]].gpu.Some?
    ensures var u := Settle(s, true); LoadsDue(u) == LoadsDue(s) && OffloadsDue(u) == OffloadsDue(s)
  {
    NoDupTail(s.pending);
    OffloadsElsewhere(s.entries, s.pending[1..], s.pending[0], Settle(s, true).entries[s.pending[0]]);
  }

  // ---------------------------------------------------------------- references, leases, contents

  /** Block `i` alone is new, gone or changed, at rest before and after; device slots and buffers of others are
      untouched. */
  ghost predicate OthersAlike(s: Tiers, u: Tiers, i: nat) {
    && |u.entries| == |s.entries| && |u.contents| == |s.contents|
    && (forall j: nat {:trigger u.entries[j]} :: j < |s.entries| && j != i ==>
          u.entries[j] == s.entries[j] && (j < |s.contents| ==> u.contents[j] == s.contents[j])
          && EntryAlike(s.device, u.device, s.entries[j], j))
  }

  lemma SameDeviceAlike(s: Tiers, u: Tiers, i: nat)
    requires u.device == s.device && u.contents == s.contents && i < |s.entries| == |u.entries|
             && u.entries == s.entries[i := u.entries[i]]
    ensures OthersAlike(s, u, i)
  {
    forall j: nat | j < |s.entries| && j != i
      ensures u.entries[j] == s.entries[j] && EntryAlike(s.device, u.device, s.entries[j], j)
    {
    }
  }

  lemma OthersStayMoving(s: Tiers, u: Tiers, i: nat)
    requires Settled(s) && i < |s.entries| && i !in s.pending && Shape(u) && u.pending == s.pending
             && u.device.pending == s.device.pending
    requires OthersAlike(s, u, i)
    ensures MovesOk(u, 0, true)
  {
    forall k: nat | k < |u.device.pending| ensures FliesAt(u, k) {
      var j := s.pending[k];
      Flew(s, k, true);
      assert j in s.pending && u.entries[j] == s.entries[j];
      AlikeKeeps(s.device, u.device, s.entries[j], j, s.contents[j], true);
    }
    AllFly(u, true);
  }

  lemma OthersStayAtRest(s: Tiers, u: Tiers, i: nat)
    requires Shape(s) && RestsOk(s) && i < |s.entries| && Shape(u) && OthersAlike(s, u, i)
    requires RestOk(u.device, u.entries[i], i, u.contents[i])
    ensures RestsOk(u)
  {
    forall j: nat | j < |u.entries| && !OnTheMove(u.entries[j])
      ensures RestOk(u.device, u.entries[j], j, u.contents[j])
    {
      if j != i { AlikeKeeps(s.device, u.device, s.entries[j], j, s.contents[j], true); }
    }
  }

  function Created(s: Tiers, h: Handle, pool: Pool, p: Payload): Tiers
    requires h.id < |s.entries| == |s.contents| == |s.device.backing|
  {
    s.(logical := pool, entries := s.entries[h.id := BLANK.(live := true, handle := h)],
       device := s.device.(backing := s.device.backing[h.id := p]), contents := s.contents[h.id := p])
  }

  /** A new block's index was dead. */
  lemma CreateKeepsNames(s: Tiers, h: Handle, pool: Pool, p: Payload)
    requires Inv(s.logical) && NeverPublished(s.logical) && NamesOk(s) && Allocate(s.logical) == Ok((h, pool))
    requires |s.entries| == |s.contents| == |s.device.backing|
    ensures h.id < |s.entries| && !s.entries[h.id].live
    ensures Inv(pool) && NeverPublished(pool) && |pool.pages| == |s.logical.pages| && NamesOk(Created(s, h, pool, p))
  {
    AllocateOutcome(s.logical);
    AllocateKeepsInv(s.logical);
    assert NameOk(s, h.id);
    var u := Created(s, h, pool, p);
    forall j: nat | j < |u.entries| ensures NameOk(u, j) { assert NameOk(s, j); }
  }

  lemma CreateKeepsShape(s: Tiers, h: Handle, pool: Pool, p: Payload)
    requires Shape(s) && NamesOk(s) && Allocate(s.logical) == Ok((h, pool))
    ensures h.id < |s.entries| == |s.contents| == |s.device.backing| && !s.entries[h.id].live
    ensures var u := Created(s, h, pool, p); Shape(u) && NamesOk(u) && OthersAlike(s, u, h.id)
  {
    CreateKeepsNames(s, h, pool, p);
    var u := Created(s, h, pool, p);
    BackingOnly(s.device, u.device);
    forall j: nat | j < |s.entries| && j != h.id
      ensures u.entries[j] == s.entries[j] && u.contents[j] == s.contents[j]
              && EntryAlike(s.device, u.device, s.entries[j], j)
    {
    }
  }

  lemma BlankToLive(s: Tiers, u: Tiers, i: nat)
    requires ListsOk(s) && i < |s.entries| && s.entries[i] == BLANK && |u.entries| == |s.entries|
    requires u.lru == s.lru && u.pending == s.pending && u.queued == s.queued
    requires forall j: nat :: j < |s.entries| && j != i ==> u.entries[j] == s.entries[j]
    requires u.entries[i].location == CPU_RESIDENT && u.entries[i].move == NoMove
    ensures ListsOk(u)
  {
  }

  lemma CreateStep(s: Tiers, h: Handle, pool: Pool, p: Payload)
    requires Settled(s) && Allocate(s.logical) == Ok((h, pool))
    ensures h.id < |s.entries| == |s.contents| == |s.device.backing| && !s.entries[h.id].live
    ensures var u := Created(s, h, pool, p);
            && Settled(u) && (Accounted(s) ==> Accounted(u))
            && CountOffloads(u.entries, u.pending) == CountOffloads(s.entries, s.pending)
  {
    CreateKeepsShape(s, h, pool, p);
    var i := h.id;
    DeadIsBlank(s, i);
    var u := Created(s, h, pool, p);
    SameSlotsKeep(s, u);
    BlankToLive(s, u, i);
    OthersStayMoving(s, u, i);
    OthersStayAtRest(s, u, i);
    PrefetchedUpdate(s.entries, i, u.entries[i]);
    OffloadsElsewhere(s.entries, s.pending, i, u.entries[i]);
  }

  lemma DeadIsBlank(s: Tiers, i: nat)
    requires Settled(s) && i < |s.entries| && !s.entries[i].live
    ensures s.entries[i] == BLANK && i !in s.pending && i !in s.lru && i !in s.queued && i < |s.device.busy|
            && !s.device.busy[i]
  {
    MovingTransfers(s, i);
    assert RestOk(s.device, s.entries[i], i, s.contents[i]);
  }

  /** Only the bytes in host buffers or device slots differ. */
  lemma BackingOnly(d: Device, e: Device)
    requires DeviceInv(d) && e == d.(backing := e.backing, bytes := e.bytes) && |e.backing| == |d.backing|
             && |e.bytes| == |d.bytes|
    ensures DeviceInv(e)
  {
    forall k | 0 <= k < |e.pending| ensures Flies(e, e.pending[k]) { assert Flies(d, d.pending[k]); }
    FlagsElsewhere(d, e);
  }

  /** Reference counts and lease counts move; nothing else does. */
  function Counted(s: Tiers, i: nat, refs: Pool, pins: nat): Tiers
    requires i < |s.entries|
  {
    var e := s.entries[i];
    s.(logical := refs, entries := s.entries[i := e.(pins := pins)],
       lru := if e.pins > 0 && pins == 0 then Without(s.lru, i) + [i]
              else if pins > 0 then Without(s.lru, i)
              else s.lru)
  }

  lemma CountedKeepsLists(s: Tiers, i: nat, refs: Pool, pins: nat)
    requires ListsOk(s) && i < |s.entries| && s.entries[i].live
             && (s.entries[i].location == GPU_RESIDENT || pins == s.entries[i].pins == 0)
    ensures ListsOk(Counted(s, i, refs, pins))
  {
    var u := Counted(s, i, refs, pins);
    TouchNoDup(s.lru, i);
    WithoutNoDup(s.lru, i);
    assert NoDup(u.lru) && forall j: nat :: j in u.lru <==> j < |u.entries| && Evictable(u.entries[j]);
  }

  /** One page's count has changed and is still positive. */
  ghost predicate RefsChange(p: Pool, q: Pool, i: nat) {
    && Inv(q) && NeverPublished(q) && |q.pages| == |p.pages| && i < |p.pages|
    && p.pages[i].refs > 0 && q.pages[i].refs > 0 && q.pages[i].generation == p.pages[i].generation
    && forall j :: 0 <= j < |p.pages| && j != i ==> q.pages[j] == p.pages[j]
  }

  lemma CountedKeepsNames(s: Tiers, i: nat, refs: Pool, pins: nat)
    requires NamesOk(s) && i < |s.entries| && s.entries[i].live && RefsChange(s.logical, refs, i)
             && pins <= refs.pages[i].refs
    ensures NamesOk(Counted(s, i, refs, pins))
  {
    var u := Counted(s, i, refs, pins);
    forall j: nat | j < |u.entries| ensures NameOk(u, j) { assert NameOk(s, j); }
  }

  lemma CountedKeepsBlocks(s: Tiers, i: nat, refs: Pool, pins: nat)
    requires Settled(s) && i < |s.entries| && s.entries[i].live && RefsChange(s.logical, refs, i)
    requires s.entries[i].location == GPU_RESIDENT || pins == s.entries[i].pins == 0
    ensures var u := Counted(s, i, refs, pins); Shape(u) && MovesOk(u, 0, true) && RestsOk(u)
  {
    var u := Counted(s, i, refs, pins);
    if s.entries[i].location == GPU_RESIDENT {
      EvictableRests(s, i);
      SameDeviceAlike(s, u, i);
      OthersStayMoving(s, u, i);
      OthersStayAtRest(s, u, i);
    } else {
      assert u.entries == s.entries;
      SameDevice(s, u);
    }
  }

  /** Nothing that the moves depend on has changed. */
  lemma SameDevice(s: Tiers, u: Tiers)
    requires Settled(s) && u.entries == s.entries && u.device == s.device && u.contents == s.contents
    requires u.pending == s.pending && Shape(u)
    ensures MovesOk(u, 0, true) && RestsOk(u)
  {
    forall k: nat | k < |u.device.pending| ensures FliesAt(u, k) { Flew(s, k, true); }
    AllFly(u, true);
  }

  lemma CountedCounts(s: Tiers, i: nat, refs: Pool, pins: nat)
    requires i < |s.entries|
    ensures var u := Counted(s, i, refs, pins);
            && (Accounted(s) ==> Accounted(u))
            && CountOffloads(u.entries, u.pending) == CountOffloads(s.entries, s.pending)
  {
    var u := Counted(s, i, refs, pins);
    SameMovesSameCount(s.entries, u.entries, s.pending);
    PrefetchedUpdate(s.entries, i, u.entries[i]);
  }

  lemma CountedStep(s: Tiers, i: nat, refs: Pool, pins: nat)
    requires Settled(s) && i < |s.entries| && s.entries[i].live && RefsChange(s.logical, refs, i)
             && pins <= refs.pages[i].refs
    requires s.entries[i].location == GPU_RESIDENT || pins == s.entries[i].pins == 0
    ensures var u := Counted(s, i, refs, pins);
            && Settled(u) && (Accounted(s) ==> Accounted(u))
            && CountOffloads(u.entries, u.pending) == CountOffloads(s.entries, s.pending)
  {
    CountedKeepsNames(s, i, refs, pins);
    CountedKeepsLists(s, i, refs, pins);
    CountedKeepsBlocks(s, i, refs, pins);
    SameSlotsKeep(s, Counted(s, i, refs, pins));
    CountedCounts(s, i, refs, pins);
  }

  /** The last reference is gone: the device slot is free again and the index dead. */
  function SlotFreed(d: Device, slot: Option<Handle>): Device {
    if slot.None? || Release(d.pool, slot.value).Err? then d else d.(pool := Release(d.pool, slot.value).value)
  }

  function Buried(s: Tiers, i: nat, refs: Pool): Tiers
    requires i < |s.entries|
  {
    s.(logical := refs, entries := s.entries[i := BLANK], lru := Without(s.lru, i),
       counters := Discarded(s.counters, s.entries[i]), device := SlotFreed(s.device, s.entries[i].gpu))
  }

  ghost predicate LastRef(p: Pool, q: Pool, i: nat) {
    && Inv(q) && NeverPublished(q) && |q.pages| == |p.pages| && i < |p.pages| && q.pages[i].refs == 0
    && forall j :: 0 <= j < |p.pages| && j != i ==> q.pages[j] == p.pages[j]
  }

  lemma BuriedKeepsDevice(s: Tiers, i: nat, refs: Pool)
    requires Settled(s) && i < |s.entries| && s.entries[i].live && s.entries[i].location != TRANSFERRING
             && LastRef(s.logical, refs, i)
    ensures var u := Buried(s, i, refs);
            && Shape(u) && OthersAlike(s, u, i) && u.device.pending == s.device.pending
            && BufferAlike(s.device, u.device, i)
            && (s.entries[i].gpu.Some? ==> u.device.pool.pages[s.entries[i].gpu.value.id].refs == 0)
            && |u.device.pool.free| >= |s.device.pool.free|
            && (forall slot :: 0 <= slot < |u.device.pool.pages| && u.device.pool.pages[slot].refs > 0 ==>
                  s.device.pool.pages[slot].refs > 0)
  {
    EvictableRests(s, i);
    if s.entries[i].gpu.Some? {
      BuriedFreesSlot(s, i, refs);
    } else {
      SameDeviceAlike(s, Buried(s, i, refs), i);
    }
  }

  lemma BuriedFreesSlot(s: Tiers, i: nat, refs: Pool)
    requires Shape(s) && Apart(s) && i < |s.entries| && s.entries[i].gpu.Some?
             && SlotIs(s.device, s.entries[i].gpu.value, 1, false)
    requires LastRef(s.logical, refs, i)
    ensures var u := Buried(s, i, refs); var slot := s.entries[i].gpu.value.id;
            && Shape(u) && OthersAlike(s, u, i) && u.device.pending == s.device.pending
            && BufferAlike(s.device, u.device, i)
            && u.device.pool.pages == s.device.pool.pages[slot := s.device.pool.pages[slot].(refs := 0, free := true)]
            && u.device.pool.free == [slot] + s.device.pool.free
  {
    var u := Buried(s, i, refs);
    ReleaseKeepsInv(s.device.pool, s.entries[i].gpu.value);
    IdleSlotChanges(s.device, u.device, s.entries[i].gpu.value.id);
    forall j: nat | j < |s.entries| && j != i ensures EntryAlike(s.device, u.device, s.entries[j], j) {
      if s.entries[j].gpu.Some? { assert s.entries[i].gpu.value.id != s.entries[j].gpu.value.id; }
    }
  }

  lemma BuriedKeepsTables(s: Tiers, i: nat, refs: Pool)
    requires Settled(s) && i < |s.entries| && s.entries[i].live && s.entries[i].location != TRANSFERRING
             && LastRef(s.logical, refs, i)
    ensures var u := Buried(s, i, refs); NamesOk(u) && ListsOk(u) && SlotsOk(u)
  {
    EvictableRests(s, i);
    var u := Buried(s, i, refs);
    BuriedKeepsDevice(s, i, refs);
    WithoutNoDup(s.lru, i);
    forall j: nat | j < |u.entries| ensures NameOk(u, j) { assert NameOk(s, j); }
    BuriedKeepsSlots(s, i, refs);
  }

  lemma BuriedKeepsSlots(s: Tiers, i: nat, refs: Pool)
    requires Settled(s) && i < |s.entries| && s.entries[i].live && s.entries[i].location != TRANSFERRING
             && LastRef(s.logical, refs, i)
    ensures SlotsOk(Buried(s, i, refs))
  {
    var u := Buried(s, i, refs);
    BuriedKeepsDevice(s, i, refs);
    forall slot: nat | slot < |u.device.pool.pages| && u.device.pool.pages[slot].refs > 0 ensures Owned(u, slot) {
      assert Owned(s, slot);
      var j: nat :| OwnsSlot(s, j, slot);
      assert OwnsSlot(u, j, slot);
    }
  }

  lemma BuriedStep(s: Tiers, i: nat, refs: Pool)
    requires Settled(s) && i < |s.entries| && s.entries[i].live && s.entries[i].location != TRANSFERRING
             && LastRef(s.logical, refs, i)
    ensures var u := Buried(s, i, refs);
            && Settled(u) && (Accounted(s) ==> Accounted(u))
            && CountOffloads(u.entries, u.pending) == CountOffloads(s.entries, s.pending)
  {
    EvictableRests(s, i);
    var u := Buried(s, i, refs);
    BuriedKeepsDevice(s, i, refs);
    BuriedKeepsTables(s, i, refs);
    OthersStayMoving(s, u, i);
    OthersStayAtRest(s, u, i);
    PrefetchedUpdate(s.entries, i, u.entries[i]);
    OffloadsElsewhere(s.entries, s.pending, i, u.entries[i]);
  }

  /** A lease writes the block it holds. */
  function Rewritten(s: Tiers, i: nat, p: Payload): Tiers
    requires i < |s.entries| && i < |s.contents| && s.entries[i].gpu.Some?
             && s.entries[i].gpu.value.id < |s.device.bytes|
  {
    s.(device := s.device.(bytes := s.device.bytes[s.entries[i].gpu.value.id := p]), contents := s.contents[i := p])
  }

  lemma RewriteStep(s: Tiers, i: nat, p: Payload)
    requires Settled(s) && i < |s.entries| && s.entries[i].live && s.entries[i].location == GPU_RESIDENT
    ensures i < |s.contents| && s.entries[i].gpu.Some? && s.entries[i].gpu.value.id < |s.device.bytes|
    ensures Settled(Rewritten(s, i, p))
  {
    EvictableRests(s, i);
    var u := Rewritten(s, i, p);
    BackingOnly(s.device, u.device);
    SameSlotsKeep(s, u);
    forall j: nat | j < |u.entries| ensures NameOk(u, j) { assert NameOk(s, j); }
    forall j: nat | j < |s.entries| && j != i ensures EntryAlike(s.device, u.device, s.entries[j], j) {
      if s.entries[j].gpu.Some? { assert s.entries[i].gpu.value.id != s.entries[j].gpu.value.id; }
    }
    OthersStayMoving(s, u, i);
    OthersStayAtRest(s, u, i);
  }

  // ---------------------------------------------------------------- after everything has been settled

  lemma NothingPendingIsSettled(s: Tiers, ok: bool)
    requires Midway(s, 0, ok) && s.pending == [] && s.device.pending == []
    ensures Settled(s) && CountOffloads(s.entries, s.pending) == 0
  {
  }

  lemma ReserveIsOnward(s: Tiers, i: nat, h: Handle, pool: Pool)
    requires i < |s.entries| && h.id < |s.device.initialized| && (s.entries[i].move == QueuedLoad ==> s.queued != [])
    requires s.entries[i].move != ToCpu
    ensures Onward(s, Reserve(s, i, h, pool))
    ensures s.entries[i].location != CPU_RESIDENT ==> Home(s, Reserve(s, i, h, pool))
  {
  }

  lemma LaunchIsOnward(s: Tiers)
    requires s.pending != [] && s.pending[|s.pending| - 1] < |s.entries|
             && s.entries[s.pending[|s.pending| - 1]].gpu.Some?
    requires Refusal(s.device, LastTransfer(s)).None?
    ensures Home(s, Launch(s)) && (s.entries[s.pending[|s.pending| - 1]].move == ToGpu ==> Onward(s, Launch(s)))
  {
  }

  /** Without published blocks nothing is idle: a slot is free or referenced. */
  lemma FreeOrReferenced(p: Pool)
    requires Inv(p) && NeverPublished(p)
    ensures p.idle == [] && forall i :: 0 <= i < |p.pages| ==> (p.pages[i].refs > 0 <==> i !in p.free)
  {
    forall i: nat | i < |p.pages| ensures !IsIdle(p.pages[i]) {
      assert PageOk(p.blockSize, p.pages[i]);
    }
    assert IdleSet(p.pages) == {};
    ListsAreSets(p);
    forall i: nat | i < |p.pages| ensures p.pages[i].refs > 0 <==> i !in p.free {
      assert IsIdle(p.pages[i]) <==> i in p.idle;
      assert PageOk(p.blockSize, p.pages[i]);
    }
  }

  lemma RetainChanges(p: Pool, h: Handle)
    requires Inv(p) && NeverPublished(p) && Held(p, h) && Retain(p, h).Ok?
    ensures RefsChange(p, Retain(p, h).value, h.id) && Retain(p, h).value.pages[h.id].refs == p.pages[h.id].refs + 1
  {
    RetainKeepsInv(p, h);
  }

  lemma ReleaseChanges(p: Pool, h: Handle)
    requires Inv(p) && NeverPublished(p) && Held(p, h)
    ensures Release(p, h).Ok?
    ensures p.pages[h.id].refs > 1 ==> RefsChange(p, Release(p, h).value, h.id)
                                       && Release(p, h).value.pages[h.id].refs == p.pages[h.id].refs - 1
    ensures p.pages[h.id].refs == 1 ==> LastRef(p, Release(p, h).value, h.id)
  {
    ReleaseKeepsInv(p, h);
  }

  /** A transfer that failed half-way has spoilt its destination, which nobody counts on. */
  function Spoilt(s: Tiers, junk: Payload): Tiers
    requires s.pending != [] && s.pending[|s.pending| - 1] < |s.entries|
             && s.entries[s.pending[|s.pending| - 1]].gpu.Some?
  {
    var i := s.pending[|s.pending| - 1];
    var slot := s.entries[i].gpu.value.id;
    if s.entries[i].move == ToCpu
    then if i < |s.device.backing| then s.(device := s.device.(backing := s.device.backing[i := junk])) else s
    else if slot < |s.device.bytes| then s.(device := s.device.(bytes := s.device.bytes[slot := junk])) else s
  }

  lemma SpoilsOne(s: Tiers, junk: Payload)
    requires Launchable(s)
    ensures var u := Spoilt(s, junk); var i := s.pending[|s.pending| - 1];
            && Shape(u) && OthersAlike(s, u, i) && LandedOk(u.device, s.entries[i], i, s.contents[i], false)
  {
    var u := Spoilt(s, junk);
    var i := s.pending[|s.pending| - 1];
    assert LandedOk(s.device, s.entries[i], i, s.contents[i], false);
    BackingOnly(s.device, u.device);
    forall j: nat | j < |s.entries| && j != i ensures EntryAlike(s.device, u.device, s.entries[j], j) {
      if s.entries[j].gpu.Some? { assert s.entries[i].gpu.value.id != s.entries[j].gpu.value.id; }
    }
  }

  lemma SpoiltIsPoised(s: Tiers, junk: Payload)
    requires Launchable(s)
    ensures Poised(Spoilt(s, junk)) && Calm(s, Spoilt(s, junk), false)
  {
    SpoilsOne(s, junk);
    var u := Spoilt(s, junk);
    SameSlotsKeep(s, u);
    SameEntriesCalm(s, u, false);
    SteadyKeepsNames(s, u) by { assert Steady(s, u); }
    SpoiltKeepsMoves(s, junk);
  }

  lemma SpoiltKeepsRests(s: Tiers, junk: Payload)
    requires Launchable(s)
    ensures Shape(Spoilt(s, junk)) && RestsOk(Spoilt(s, junk))
  {
    SpoilsOne(s, junk);
    var u := Spoilt(s, junk);
    forall j: nat | j < |u.entries| && !OnTheMove(u.entries[j])
      ensures RestOk(u.device, u.entries[j], j, u.contents[j])
    {
      assert s.pending[|s.pending| - 1] in s.pending && u.entries[j] == s.entries[j];
      AlikeKeeps(s.device, u.device, s.entries[j], j, s.contents[j], false);
    }
  }

  lemma SpoiltKeepsMoves(s: Tiers, junk: Payload)
    requires Launchable(s)
    ensures Shape(Spoilt(s, junk)) && MovesOk(Spoilt(s, junk), 0, false) && RestsOk(Spoilt(s, junk))
  {
    SpoiltKeepsRests(s, junk);
    SpoilsOne(s, junk);
    var u := Spoilt(s, junk);
    forall k: nat | k < |u.device.pending| ensures FliesAt(u, k) {
      Flew(s, k, false);
      assert s.pending[k] != s.pending[|s.pending| - 1];
      StillFlies(s, u, k);
    }
    AllFly(u, false);
  }

  // ---------------------------------------------------------------- the same, seen from outside

  lemma PoisedIsReady(s: Tiers)
    requires Poised(s) && Accounted(s)
    ensures Ready(s)
  {
    NeverRefused(s);
    assert Launchable(s);
  }

  lemma ReserveIsReady(s: Tiers, i: nat, h: Handle, pool: Pool)
    requires Sound(s) && Loadable(s, i) && Inv(s.device.pool) && Allocate(s.device.pool) == Ok((h, pool))
    ensures h.id < |s.device.initialized|
            && (s.entries[i].move == QueuedLoad <==> s.entries[i].location != CPU_RESIDENT)
    ensures var u := Reserve(s, i, h, pool);
            && Ready(u) && Begun(s, u, i, true) && Room(u) + 1 == Room(s)
            && CountOffloads(u.entries, u.pending) == CountOffloads(s.entries, s.pending)
  {
    Unfold(s);
    LoadableMove(s, i);
    ReserveStep(s, i, h, pool);
    ReserveIsOnward(s, i, h, pool);
    PoisedIsReady(Reserve(s, i, h, pool));
  }

  lemma LoadableMove(s: Tiers, i: nat)
    requires Settled(s) && Loadable(s, i)
    ensures s.entries[i].move == QueuedLoad <==> s.entries[i].location != CPU_RESIDENT
    ensures s.entries[i].move != ToCpu
  {
    MovingTransfers(s, i);
    if s.entries[i].location == CPU_RESIDENT { EvictableRests(s, i); }
  }

  lemma PoolInv(s: Tiers)
    requires Sound(s)
    ensures Inv(s.device.pool) && NeverPublished(s.device.pool) && Inv(s.logical) && NeverPublished(s.logical)
    ensures |s.entries| == |s.logical.pages| == |s.contents| == |s.device.backing|
  {
    Unfold(s);
  }

  lemma LaunchIsSound(s: Tiers)
    requires Ready(s)
    ensures Launchable(s)
    ensures var u := Launch(s); var load := s.entries[s.pending[|s.pending| - 1]].move == ToGpu;
            && Sound(u) && Calm(s, u, load) && Room(u) == Room(s)
            && CountOffloads(u.entries, u.pending) == CountOffloads(s.entries, s.pending)
  {
    UnfoldReady(s);
    LaunchStep(s);
    LaunchIsOnward(s);
    Fold(Launch(s));
  }

  /** Block `i` begins to leave the device; no other turns back. Folded like `Sound`. */
  ghost predicate Left(s: Tiers, u: Tiers, i: nat) {
    forall t {:trigger Unseal(t)} :: t == u ==> Steady(s, t) && Home(s, t) && OnwardBut(s, t, i)
  }

  ghost predicate OnwardBut(s: Tiers, u: Tiers, i: nat) {
    && |u.entries| == |s.entries|
    && forall j :: 0 <= j < |s.entries| && j != i ==>
         u.entries[j].prefetched == s.entries[j].prefetched && (Bound(s.entries[j]) ==> Bound(u.entries[j]))
  }

  lemma LeftTrans(s: Tiers, u: Tiers, v: Tiers, i: nat)
    requires Left(s, u, i) && Left(u, v, i)
    ensures Left(s, v, i)
  {
    assert Unseal(u) && Unseal(v);
    SteadyTrans(s, u, v);
    HomeTrans(s, u, v);
    forall j | 0 <= j < |s.entries| && j != i
      ensures v.entries[j].prefetched == s.entries[j].prefetched && (Bound(s.entries[j]) ==> Bound(v.entries[j]))
    {
      assert u.entries[j].prefetched == s.entries[j].prefetched;
      assert v.entries[j].prefetched == u.entries[j].prefetched;
    }
    assert OnwardBut(s, v, i);
  }

  lemma LeftIsCalm(s: Tiers, u: Tiers, i: nat)
    requires Left(s, u, i)
    ensures Calm(s, u, false)
  {
    assert Unseal(u);
  }

  lemma OffloadIsReady(s: Tiers, i: nat)
    requires Sound(s) && i < |s.entries| && Evictable(s.entries[i])
    ensures var u := BeginOffload(s, i);
            && Ready(u) && Left(s, u, i) && Room(u) == Room(s) + 1
            && CountOffloads(u.entries, u.pending) == CountOffloads(s.entries, s.pending) + 1
  {
    Unfold(s);
    BeginOffloadStep(s, i);
    PoisedIsReady(BeginOffload(s, i));
    assert Home(s, BeginOffload(s, i)) && OnwardBut(s, BeginOffload(s, i), i);
  }

  lemma LaunchLeaves(s: Tiers)
    requires Ready(s)
    ensures Launchable(s) && Left(s, Launch(s), s.pending[|s.pending| - 1])
  {
    UnfoldReady(s);
    LaunchStep(s);
    LaunchIsOnward(s);
    assert OnwardBut(s, Launch(s), s.pending[|s.pending| - 1]);
  }

  lemma UnqueueIsSound(s: Tiers)
    requires Sound(s) && s.queued != []
    ensures s.queued[0] < |s.entries|
    ensures var u := Unqueue(s);
            && Sound(u) && Calm(s, u, false)
            && CountOffloads(u.entries, u.pending) == CountOffloads(s.entries, s.pending)
  {
    Unfold(s);
    UnqueueStep(s, true);
    var i := s.queued[0];
    assert i in s.queued;
    OffloadsElsewhere(s.entries, s.pending, i, Unqueue(s).entries[i]);
    Fold(Unqueue(s));
  }

  /** The block that has waited longest can be loaded once a slot is free. */
  lemma HeadIsLoadable(s: Tiers)
    requires Sound(s) && s.queued != [] && s.device.pool.free != []
    ensures Loadable(s, s.queued[0]) && s.entries[s.queued[0]].location != CPU_RESIDENT
  {
    Unfold(s);
    var i := s.queued[0];
    assert i in s.queued;
    assert RestOk(s.device, s.entries[i], i, s.contents[i]);
  }

  lemma SoundIsMidway(s: Tiers, ok: bool)
    requires Sound(s)
    ensures Mid(s, 0, ok) && CountWrites(s.device.pending) + CountOffloads(s.entries, s.pending) == |s.pending|
    ensures |s.device.pending| == |s.pending|
  {
    Unfold(s);
    SettledIsMidway(s, ok);
    PendingIsInFlight(s);
  }

  lemma IdleIsSound(s: Tiers, ok: bool)
    requires Mid(s, 0, ok) && s.pending == [] && s.device.pending == []
    ensures Sound(s) && CountOffloads(s.entries, s.pending) == 0
  {
    UnfoldMid(s, 0, ok);
    NothingPendingIsSettled(s, ok);
    Fold(s);
  }

  lemma LandMid(s: Tiers, n: nat, claim: bool, ok: bool, junk: Option<Payload>)
    requires Mid(s, n, claim) && s.device.pending != [] && (claim ==> ok)
    ensures InRange(s.device, s.device.pending[0])
    ensures Mid(s.(device := Landed(s.device, ok, junk)), n + 1, claim)
    ensures Landed(s.device, ok, junk).pool.free == s.device.pool.free
    ensures |Landed(s.device, ok, junk).pool.pages| == |s.device.pool.pages|
  {
    UnfoldMid(s, n, claim);
    LandStep(s, n, claim, ok, junk);
    var u := s.(device := Landed(s.device, ok, junk));
    assert Midway(u, n + 1, claim) && Accounted(u);
  }

  lemma AllLandedMid(s: Tiers, n: nat, ok: bool)
    requires Mid(s, n, ok) && s.device.pending == []
    ensures Mid(s, 0, ok)
  {
    UnfoldMid(s, n, ok);
    AllLanded(s, n, ok);
  }

  lemma SettleMid(s: Tiers, ok: bool)
    requires Mid(s, 0, ok) && s.device.pending == [] && s.pending != []
    ensures s.pending[0] < |s.entries| && s.entries[s.pending[0]].gpu.Some?
    ensures var u := Settle(s, ok);
            && Mid(u, 0, ok) && u.device.pending == [] && Calm(s, u, ok) && u.pending == s.pending[1..]
            && (ok ==> Room(u) == Room(s) && LoadsDue(u) == LoadsDue(s) && OffloadsDue(u) == OffloadsDue(s))
  {
    UnfoldMid(s, 0, ok);
    SettleStep(s, ok);
    if ok { SettleCountsMoves(s); }
    var u := Settle(s, ok);
    assert Midway(u, 0, ok) && Accounted(u);
    assert Steady(s, u) && Home(s, u) && (ok ==> Onward(s, u));
  }

  lemma UnqueueMid(s: Tiers)
    requires Mid(s, 0, false) && s.queued != []
    ensures s.queued[0] < |s.entries|
    ensures Mid(Unqueue(s), 0, false) && Calm(s, Unqueue(s), false)
  {
    UnfoldMid(s, 0, false);
    UnqueueStep(s, false);
    var u := Unqueue(s);
    assert Midway(u, 0, false) && Accounted(u);
  }

  lemma SpoiltIsMid(s: Tiers, junk: Payload)
    requires Ready(s)
    ensures Launchable(s) && Mid(Spoilt(s, junk), 0, false) && Calm(s, Spoilt(s, junk), false)
  {
    UnfoldReady(s);
    SpoiltIsPoised(s, junk);
    var u := Spoilt(s, junk);
    assert Midway(u, 0, false) && Accounted(u);
  }

  /** A valid handle names a live entry, at rest or on the move. */
  lemma LiveEntry(s: Tiers, h: Handle)
    requires Sound(s) && Live(s.logical, h)
    ensures Held(s.logical, h) && h.id < |s.entries| && s.entries[h.id].live && s.entries[h.id].handle == h
    ensures var e := s.entries[h.id];
            && e.pins <= s.logical.pages[h.id].refs
            && (e.location == TRANSFERRING <==> e.move != NoMove)
            && (e.location == CPU_RESIDENT || e.move == ToCpu ==> !e.prefetched)
            && (e.location != GPU_RESIDENT ==> e.pins == 0)
  {
    Unfold(s);
    var i := h.id;
    assert PageOk(s.logical.blockSize, s.logical.pages[i]);
    assert NameOk(s, i);
    EntryState(s, i);
  }

  lemma EntryState(s: Tiers, i: nat)
    requires Settled(s) && i < |s.entries| && s.entries[i].live
    ensures var e := s.entries[i];
            && (e.location == TRANSFERRING <==> e.move != NoMove)
            && (e.location == CPU_RESIDENT || e.move == ToCpu ==> !e.prefetched)
            && (e.location != GPU_RESIDENT ==> e.pins == 0)
  {
    MovingTransfers(s, i);
    if OnTheMove(s.entries[i]) {
      var k :| 0 <= k < |s.pending| && s.pending[k] == i;
      Flew(s, k, true);
    } else {
      assert RestOk(s.device, s.entries[i], i, s.contents[i]);
    }
  }

  /** A block on the device has an initialised slot of its own that holds its content. */
  lemma ResidentHoldsContent(s: Tiers, i: nat)
    requires Sound(s) && i < |s.entries| && s.entries[i].live && s.entries[i].location == GPU_RESIDENT
    ensures i < |s.contents| && s.entries[i].gpu.Some? && OnDevice(s.device, s.entries[i].gpu.value, s.contents[i])
    ensures SlotIs(s.device, s.entries[i].gpu.value, 1, false)
  {
    Unfold(s);
    EvictableRests(s, i);
  }

  lemma LruEvictable(s: Tiers)
    requires Sound(s)
    ensures NoDup(s.lru) && forall i: nat :: i in s.lru <==> i < |s.entries| && Evictable(s.entries[i])
  {
    Unfold(s);
  }

  lemma RoomIsFree(s: Tiers)
    requires Sound(s)
    ensures Inv(s.device.pool) && NeverPublished(s.device.pool) && s.device.pool.idle == []
    ensures forall slot :: 0 <= slot < |s.device.pool.pages| ==>
              (s.device.pool.pages[slot].refs > 0 <==> slot !in s.device.pool.free)
  {
    Unfold(s);
    FreeOrReferenced(s.device.pool);
  }

  // ---------------------------------------------------------------- clients' operations

  /** No block's content, references or lease has changed. Folded like `Sound`. */
  ghost predicate Mild(s: Tiers, u: Tiers) {
    forall t {:trigger Unseal(t)} :: t == u ==> Steady(s, t)
  }

  lemma MildTrans(s: Tiers, u: Tiers, v: Tiers)
    requires Mild(s, u) && Mild(u, v)
    ensures Mild(s, v)
  {
    assert Unseal(u) && Unseal(v);
    SteadyTrans(s, u, v);
  }

  lemma CalmIsMild(s: Tiers, u: Tiers, ok: bool)
    requires Calm(s, u, ok)
    ensures Mild(s, u)
  {
    UnfoldCalm(s, u, ok);
  }

  lemma BegunIsMild(s: Tiers, u: Tiers, i: nat, ok: bool)
    requires Begun(s, u, i, ok)
    ensures Mild(s, u)
  {
    UnfoldBegun(s, u, i, ok);
  }

  lemma UnfoldMild(s: Tiers, u: Tiers)
    requires Mild(s, u)
    ensures Steady(s, u)
  {
    assert Unseal(u);
  }

  /** Every block but `i` has the content, the references and the leases it had, in the same place if leased.
      Folded like `Sound`. */
  ghost predicate Elsewhere(s: Tiers, u: Tiers, i: nat) {
    forall t {:trigger Unseal(t)} :: t == u ==> SameBut(s, t, i)
  }

  ghost predicate SameBut(s: Tiers, u: Tiers, i: nat) {
    && |u.entries| == |s.entries| && |u.contents| == |s.contents| && |u.logical.pages| == |s.logical.pages|
    && |u.device.pool.pages| == |s.device.pool.pages|
    && (forall j :: 0 <= j < |s.entries| && j != i ==> EntryKept(s.entries[j], u.entries[j]))
    && (forall j :: 0 <= j < |s.contents| && j != i ==> u.contents[j] == s.contents[j])
    && (forall j :: 0 <= j < |s.logical.pages| && j != i ==> u.logical.pages[j] == s.logical.pages[j])
  }

  lemma MildIsElsewhere(s: Tiers, u: Tiers, i: nat)
    requires Mild(s, u)
    ensures Elsewhere(s, u, i)
  {
    UnfoldMild(s, u);
    assert SameBut(s, u, i);
  }

  lemma ElsewhereTrans(s: Tiers, u: Tiers, v: Tiers, i: nat)
    requires Elsewhere(s, u, i) && Elsewhere(u, v, i)
    ensures Elsewhere(s, v, i)
  {
    assert Unseal(u) && Unseal(v);
    forall j | 0 <= j < |s.entries| && j != i ensures EntryKept(s.entries[j], v.entries[j]) {
      assert EntryKept(s.entries[j], u.entries[j]) && EntryKept(u.entries[j], v.entries[j]);
    }
    assert forall j :: 0 <= j < |s.contents| && j != i ==> v.contents[j] == u.contents[j];
    assert forall j :: 0 <= j < |s.logical.pages| && j != i ==> v.logical.pages[j] == u.logical.pages[j];
    assert SameBut(s, v, i);
  }

  lemma UnfoldElsewhere(s: Tiers, u: Tiers, i: nat)
    requires Elsewhere(s, u, i)
    ensures SameBut(s, u, i)
  {
    assert Unseal(u);
  }

  /** Touching moves a block to the recent end of the list. */
  function Touched(s: Tiers, i: nat): Tiers {
    s.(lru := Without(s.lru, i) + [i])
  }

  lemma TouchIsSound(s: Tiers, i: nat)
    requires Sound(s) && i < |s.entries| && Evictable(s.entries[i])
    ensures Sound(Touched(s, i)) && Mild(s, Touched(s, i))
  {
    Unfold(s);
    var u := Touched(s, i);
    TouchNoDup(s.lru, i);
    SameSlotsKeep(s, u);
    assert ListsOk(u);
    TouchKeepsBlocks(s, i);
    assert Steady(s, u);
    SteadyKeepsNames(s, u);
    Fold(u);
  }

  lemma TouchKeepsBlocks(s: Tiers, i: nat)
    requires Settled(s)
    ensures var u := Touched(s, i); Shape(u) && MovesOk(u, 0, true) && RestsOk(u)
  {
    var u := Touched(s, i);
    forall k: nat | k < |u.device.pending| ensures FliesAt(u, k) { Flew(s, k, true); }
    AllFly(u, true);
  }

  lemma OneChanges(s: Tiers, u: Tiers, i: nat)
    requires |u.entries| == |s.entries| && |u.contents| == |s.contents| && i < |s.entries| && i < |s.contents|
    requires u.entries == s.entries[i := u.entries[i]] && u.contents == s.contents[i := u.contents[i]]
    requires |u.logical.pages| == |s.logical.pages| && |u.device.pool.pages| == |s.device.pool.pages|
    requires forall j :: 0 <= j < |s.logical.pages| && j != i ==> u.logical.pages[j] == s.logical.pages[j]
    ensures Elsewhere(s, u, i)
  {
    assert SameBut(s, u, i);
  }

  lemma CountedIsSound(s: Tiers, i: nat, refs: Pool, pins: nat)
    requires Sound(s) && i < |s.entries| == |s.contents| && s.entries[i].live && RefsChange(s.logical, refs, i)
             && pins <= refs.pages[i].refs
    requires s.entries[i].location == GPU_RESIDENT || pins == s.entries[i].pins == 0
    ensures var u := Counted(s, i, refs, pins);
            && Sound(u) && Elsewhere(s, u, i) && u.contents == s.contents
            && CountOffloads(u.entries, u.pending) == CountOffloads(s.entries, s.pending)
  {
    OneChanges(s, Counted(s, i, refs, pins), i);
    Unfold(s);
    CountedStep(s, i, refs, pins);
    Fold(Counted(s, i, refs, pins));
  }

  lemma BuriedIsSound(s: Tiers, i: nat, refs: Pool)
    requires Sound(s) && i < |s.entries| == |s.contents| && s.entries[i].live && s.entries[i].location != TRANSFERRING
             && LastRef(s.logical, refs, i)
    ensures var u := Buried(s, i, refs);
            && Sound(u) && Elsewhere(s, u, i)
            && CountOffloads(u.entries, u.pending) == CountOffloads(s.entries, s.pending)
  {
    OneChanges(s, Buried(s, i, refs), i);
    Unfold(s);
    BuriedStep(s, i, refs);
    Fold(Buried(s, i, refs));
  }

  lemma CreateElsewhere(s: Tiers, h: Handle, pool: Pool, p: Payload)
    requires Inv(s.logical) && Allocate(s.logical) == Ok((h, pool))
             && |s.entries| == |s.logical.pages| == |s.contents| == |s.device.backing|
    ensures h.id < |s.entries| && Held(pool, h) && pool.pages[h.id].refs == 1
            && Elsewhere(s, Created(s, h, pool, p), h.id)
  {
    AllocateOutcome(s.logical);
    OneChanges(s, Created(s, h, pool, p), h.id);
  }

  lemma CreateIsSound(s: Tiers, h: Handle, pool: Pool, p: Payload)
    requires Sound(s) && Inv(s.logical) && Allocate(s.logical) == Ok((h, pool))
    ensures h.id < |s.entries| == |s.contents| == |s.device.backing| && !s.entries[h.id].live
    ensures var u := Created(s, h, pool, p);
            Sound(u) && CountOffloads(u.entries, u.pending) == CountOffloads(s.entries, s.pending)
  {
    Unfold(s);
    CreateStep(s, h, pool, p);
    Fold(Created(s, h, pool, p));
  }

  lemma RewriteIsSound(s: Tiers, i: nat, p: Payload)
    requires Sound(s) && i < |s.entries| && s.entries[i].live && s.entries[i].location == GPU_RESIDENT
    ensures i < |s.contents| && s.entries[i].gpu.Some? && s.entries[i].gpu.value.id < |s.device.bytes|
    ensures Sound(Rewritten(s, i, p)) && Elsewhere(s, Rewritten(s, i, p), i)
  {
    Unfold(s);
    RewriteStep(s, i, p);
    Fold(Rewritten(s, i, p));
    OneChanges(s, Rewritten(s, i, p), i);
  }

  /** A demand is counted: it used a prefetch in time, used one late, or met none. */
  function Demanded(s: Tiers, i: nat, resident: bool, prefetched: bool): Tiers
    requires i < |s.entries|
  {
    var c := s.counters.(demands := s.counters.demands + 1);
    var c1 := if resident then c.(gpuHits := c.gpuHits + 1) else c.(misses := c.misses + 1);
    if !prefetched then s.(counters := c1)
    else s.(counters := if resident then c1.(hits := c1.hits + 1) else c1.(late := c1.late + 1),
            entries := s.entries[i := s.entries[i].(prefetched := false)])
  }

  lemma DemandCounts(s: Tiers, i: nat, resident: bool, prefetched: bool)
    requires i < |s.entries| == |s.contents| && (prefetched ==> s.entries[i].prefetched)
    ensures var u := Demanded(s, i, resident, prefetched);
            && (Accounted(s) ==> Accounted(u)) && Elsewhere(s, u, i)
            && CountOffloads(u.entries, u.pending) == CountOffloads(s.entries, s.pending)
  {
    var u := Demanded(s, i, resident, prefetched);
    PrefetchedUpdate(s.entries, i, u.entries[i]);
    SameMovesSameCount(s.entries, u.entries, s.pending);
    OneChanges(s, u, i);
  }

  lemma DemandIsSound(s: Tiers, i: nat, resident: bool, prefetched: bool)
    requires Sound(s) && i < |s.entries| && s.entries[i].live && s.entries[i].location == GPU_RESIDENT
    requires prefetched ==> s.entries[i].prefetched
    ensures |s.entries| == |s.contents|
    ensures var u := Demanded(s, i, resident, prefetched);
            && Sound(u) && Elsewhere(s, u, i)
            && CountOffloads(u.entries, u.pending) == CountOffloads(s.entries, s.pending)
  {
    Unfold(s);
    DemandCounts(s, i, resident, prefetched);
    ResidentIsStill(s, i);
    FlagKeepsSettled(s, Demanded(s, i, resident, prefetched), i);
    Fold(Demanded(s, i, resident, prefetched));
  }

  lemma ResidentIsStill(s: Tiers, i: nat)
    requires Settled(s) && i < |s.entries| && s.entries[i].live && s.entries[i].location == GPU_RESIDENT
    ensures s.entries[i].move == NoMove
  {
    EvictableRests(s, i);
  }

  /** A load under way or queued is marked as a prefetch. */
  function Prefetched(s: Tiers, i: nat): Tiers
    requires i < |s.entries|
  {
    s.(counters := s.counters.(submitted := s.counters.submitted + 1),
       entries := s.entries[i := s.entries[i].(prefetched := true)])
  }

  lemma PrefetchCounts(s: Tiers, i: nat)
    requires i < |s.entries| && !s.entries[i].prefetched && s.entries[i].live && s.entries[i].pins == 0
    ensures var u := Prefetched(s, i);
            && (Accounted(s) ==> Accounted(u)) && Mild(s, u) && Home(s, u)
            && CountOffloads(u.entries, u.pending) == CountOffloads(s.entries, s.pending)
  {
    var u := Prefetched(s, i);
    PrefetchedUpdate(s.entries, i, u.entries[i]);
    SameMovesSameCount(s.entries, u.entries, s.pending);
    assert Steady(s, u);
  }

  lemma MovingLoad(s: Tiers, i: nat)
    requires Settled(s) && i < |s.entries| && s.entries[i].live
             && (s.entries[i].move == ToGpu || s.entries[i].move == QueuedLoad)
    ensures s.entries[i].pins == 0 && s.entries[i].location == TRANSFERRING
  {
    EntryState(s, i);
  }

  lemma PrefetchIsSound(s: Tiers, i: nat)
    requires Sound(s) && i < |s.entries| && s.entries[i].live
             && (s.entries[i].move == ToGpu || s.entries[i].move == QueuedLoad)
    requires !s.entries[i].prefetched
    ensures var u := Prefetched(s, i);
            && Sound(u) && Mild(s, u) && Home(s, u)
            && CountOffloads(u.entries, u.pending) == CountOffloads(s.entries, s.pending)
  {
    Unfold(s);
    MovingLoad(s, i);
    PrefetchCounts(s, i);
    FlagKeepsSettled(s, Prefetched(s, i), i);
    Fold(Prefetched(s, i));
  }

  /** Only the prefetch mark of one block that may carry one has changed. */
  ghost predicate OnlyFlag(s: Tiers, u: Tiers, i: nat) {
    && i < |s.entries| == |u.entries|
    && u == s.(counters := u.counters, entries := s.entries[i := s.entries[i].(prefetched := u.entries[i].prefetched)])
    && s.entries[i].live && s.entries[i].location != CPU_RESIDENT && s.entries[i].move != ToCpu
  }

  lemma FlagKeepsBlocks(s: Tiers, u: Tiers, i: nat)
    requires Settled(s) && OnlyFlag(s, u, i)
    ensures Shape(u) && MovesOk(u, 0, true) && RestsOk(u)
  {
    forall k: nat | k < |u.device.pending| ensures FliesAt(u, k) { Flew(s, k, true); }
    AllFly(u, true);
    forall j: nat | j < |u.entries| && !OnTheMove(u.entries[j])
      ensures RestOk(u.device, u.entries[j], j, u.contents[j])
    {
      assert RestOk(s.device, s.entries[j], j, s.contents[j]);
    }
  }

  lemma FlagKeepsSettled(s: Tiers, u: Tiers, i: nat)
    requires Settled(s) && OnlyFlag(s, u, i)
    ensures Settled(u)
  {
    SameSlotsKeep(s, u);
    SteadyKeepsNames(s, u);
    FlagKeepsBlocks(s, u, i);
    assert ListsOk(u);
  }

  lemma CountersKeepMoves(s: Tiers, u: Tiers)
    requires Shape(s) && MovesOk(s, 0, true) && u == s.(counters := u.counters)
    ensures Shape(u) && MovesOk(u, 0, true)
  {
    forall k: nat | k < |u.device.pending| ensures FliesAt(u, k) { Flew(s, k, true); }
    AllFly(u, true);
  }

  lemma CountersOnly(s: Tiers, u: Tiers)
    requires Settled(s) && u == s.(counters := u.counters)
    ensures Settled(u)
  {
    CountersKeepMoves(s, u);
    SameSlotsKeep(s, u);
    SteadyKeepsNames(s, u);
  }

  /** The device's slots are all taken, and one is being left: the load of `i` joins the queue. */
  lemma EnqueueBehind(s: Tiers, t: Tiers, i: nat, victim: nat)
    requires Sound(t) && Left(s, t, victim) && i != victim && i < |s.entries|
    requires s.entries[i].location == CPU_RESIDENT && s.entries[i].live && !s.entries[i].prefetched
    ensures i < |t.entries| && t.entries[i].live && t.entries[i].location == CPU_RESIDENT && !t.entries[i].prefetched
    ensures var u := Enqueue(t, i);
            && Sound(u) && Mild(s, u) && CountOffloads(u.entries, u.pending) == CountOffloads(t.entries, t.pending)
            && OnwardBut(s, u, victim)
  {
    assert Unseal(t);
    assert EntryKept(s.entries[i], t.entries[i]);
    Unfold(t);
    EntryState(t, i);
    EnqueueStep(t, i);
    Fold(Enqueue(t, i));
    EnqueueIsMild(s, t, i, victim);
  }

  lemma EnqueueIsMild(s: Tiers, t: Tiers, i: nat, victim: nat)
    requires Steady(s, t) && OnwardBut(s, t, victim) && i < |t.entries| && t.entries[i].pins == 0
    ensures Mild(s, Enqueue(t, i)) && OnwardBut(s, Enqueue(t, i), victim)
  {
    var u := Enqueue(t, i);
    assert Steady(t, u);
    SteadyTrans(s, t, u);
  }

  function CountAt(entries: seq<Entry>, location: BlockLocation): nat {
    if entries == [] then 0
    else CountAt(entries[..|entries| - 1], location)
         + if entries[|entries| - 1].live && entries[|entries| - 1].location == location then 1 else 0
  }

  /** Nothing stored yet: every slot free, every entry blank. */
  function Blank(gpu: nat, cpu: nat, blockSize: nat): Tiers {
    Tiers(Empty(cpu, blockSize),
          Device(Empty(gpu, blockSize), seq(gpu, _ => false), seq(gpu, _ => false), seq(gpu, _ => []),
                 seq(cpu, _ => []), seq(cpu, _ => false), [], 0, 0), seq(cpu, _ => BLANK), [], [], [],
                 Counters(0, 0, 0, 0, 0, 0, 0, 0, 0, 0), seq(cpu, _ => []))
  }

  lemma {:induction false} BlankPrefetches(entries: seq<Entry>)
    requires forall i :: 0 <= i < |entries| ==> entries[i] == BLANK
    ensures CountPrefetched(entries) == 0
  {
    if entries != [] { BlankPrefetches(entries[..|entries| - 1]); }
  }

  lemma BlankIsSound(gpu: nat, cpu: nat, blockSize: nat)
    requires blockSize > 0
    ensures Sound(Blank(gpu, cpu, blockSize))
  {
    var s := Blank(gpu, cpu, blockSize);
    StartOk(cpu, blockSize);
    StartOk(gpu, blockSize);
    BlankPrefetches(s.entries);
    assert DeviceInv(s.device);
    assert ListsOk(s);
    assert forall i: nat :: i < |s.entries| ==> NameOk(s, i);
    assert RestsOk(s);
    Fold(s);
  }
}
