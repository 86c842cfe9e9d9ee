/** The order of use: what the tiered manager's list of unleased resident blocks, oldest first, means
    (src/tiered_block_manager.cpp, include/kvflux/detail/index_lru.h). */
module TieredRecency {
  import opened Common
  import opened PagePool
  import opened TieredBlocks

  /** Of the pending moves, those that end on the device when all of them succeed, or all of them fail. */
  function Arrivals(entries: seq<Entry>, pending: seq<nat>, ok: bool): seq<nat> {
    if pending == [] then []
    else
      (if pending[0] < |entries| && ok != (entries[pending[0]].move == ToCpu) then [pending[0]] else [])
      + Arrivals(entries, pending[1..], ok)
  }

  /** The list once everything under way, and then every load that waits, has arrived. */
  function AfterWait(s: Tiers): seq<nat> {
    s.lru + Arrivals(s.entries, s.pending, true) + s.queued
  }

  /** The same, and a slot made free: nobody leaves if there is room to spare by then; otherwise the block used least
      recently does. */
  function RoomAfterWait(s: Tiers): seq<nat> {
    if Room(s) > |s.queued| || AfterWait(s) == [] then AfterWait(s) else AfterWait(s)[1..]
  }

  /** The list once a slot has been made free. */
  function RoomMade(s: Tiers): seq<nat> {
    if s.device.pool.free != [] then s.lru else RoomAfterWait(s)
  }

  /** Whatever else happens, nobody but the block used least recently leaves, and the others keep their order. */
  predicate OnlyOldestLeaves(before: seq<nat>, after: seq<nat>) {
    before <= after || (before != [] && before[1..] <= after)
  }

  lemma {:induction false} ArrivalsAlike(a: seq<Entry>, b: seq<Entry>, pending: seq<nat>, ok: bool)
    requires |a| == |b| && forall i :: i in pending && i < |a| ==> a[i].move == b[i].move
    ensures Arrivals(a, pending, ok) == Arrivals(b, pending, ok)
  {
    if pending != [] { ArrivalsAlike(a, b, pending[1..], ok); }
  }

  lemma {:induction false} ArrivalsAmong(entries: seq<Entry>, pending: seq<nat>, ok: bool)
    ensures forall i :: i in Arrivals(entries, pending, ok) ==> i in pending
  {
    if pending != [] { ArrivalsAmong(entries, pending[1..], ok); }
  }

  /** Loads arrive in the order in which they were sent off. */
  lemma {:induction false} LoadsArrive(entries: seq<Entry>, pending: seq<nat>)
    requires CountOffloads(entries, pending) == 0 && forall i :: i in pending ==> i < |entries|
    ensures Arrivals(entries, pending, true) == pending && Arrivals(entries, pending, false) == []
  {
    if pending != [] {
      assert pending[0] in pending && forall i :: i in pending[1..] ==> i in pending;
      LoadsArrive(entries, pending[1..]);
    }
  }

  lemma {:induction false} ArrivalsSnoc(entries: seq<Entry>, pending: seq<nat>, i: nat, ok: bool)
    requires i < |entries|
    ensures Arrivals(entries, pending + [i], ok)
         == Arrivals(entries, pending, ok) + if ok != (entries[i].move == ToCpu) then [i] else []
  {
    if pending == [] {
      assert ([] + [i])[1..] == [];
    } else {
      assert (pending + [i])[1..] == pending[1..] + [i];
      ArrivalsSnoc(entries, pending[1..], i, ok);
    }
  }

  /** Settling a move takes it from the arrivals to come to the recent end of the list. */
  lemma SettleArrives(s: Tiers, ok: bool)
    requires s.pending != [] && s.pending[0] < |s.entries| && s.entries[s.pending[0]].gpu.Some?
    requires NoDup(s.pending) && s.pending[0] !in s.lru
    ensures var u := Settle(s, ok);
            u.lru + Arrivals(u.entries, u.pending, ok) == s.lru + Arrivals(s.entries, s.pending, ok)
  {
    var u := Settle(s, ok);
    NoDupTail(s.pending);
    ArrivalsAlike(s.entries, u.entries, s.pending[1..], ok);
  }

  lemma SettleArrivesMid(s: Tiers, ok: bool)
    requires Mid(s, 0, ok) && s.device.pending == [] && s.pending != []
    requires s.pending[0] < |s.entries| && s.entries[s.pending[0]].gpu.Some?
    ensures var u := Settle(s, ok);
            u.lru + Arrivals(u.entries, u.pending, ok) == s.lru + Arrivals(s.entries, s.pending, ok)
  {
    UnfoldMid(s, 0, ok);
    PendingNotListed(s, ok);
    SettleArrives(s, ok);
  }

  lemma PendingNotListed(s: Tiers, ok: bool)
    requires Midway(s, 0, ok) && s.pending != []
    ensures NoDup(s.pending) && s.pending[0] !in s.lru
  {
    assert s.pending[0] in s.pending;
  }

  lemma PendingBelow(s: Tiers)
    requires Ready(s)
    ensures forall i :: i in s.pending ==> i < |s.entries|
  {
    UnfoldReady(s);
  }

  lemma SoundPendingBelow(s: Tiers)
    requires Sound(s)
    ensures forall i :: i in s.pending ==> i < |s.entries|
    ensures forall i :: i in s.lru ==> i !in s.pending && i !in s.queued
    ensures NoDup(s.lru)
  {
    Unfold(s);
  }

  /** Some device slot that nobody uses is at its last generation. */
  ghost predicate SlotsWornOut(s: Tiers) {
    exists slot: nat ::
      slot < |s.device.pool.pages| && s.device.pool.pages[slot].refs == 0
      && s.device.pool.pages[slot].generation == MAX64
  }

  lemma HeadWornOut(s: Tiers)
    requires Sound(s) && Inv(s.device.pool) && s.device.pool.free != [] && Allocate(s.device.pool).Err?
    ensures SlotsWornOut(s)
  {
    PoolInv(s);
    assert s.device.pool.free[0] in s.device.pool.free;
  }

  /** The list once block `i`, so far in host memory, has been brought in and everything else under way has arrived. */
  function BroughtIn(s: Tiers, i: nat): seq<nat> {
    if s.device.pool.free != [] then s.lru + Arrivals(s.entries, s.pending, true) + [i] + s.queued
    else RoomMade(s) + [i]
  }

  /** On the way to the device, or waiting for a slot there. */
  predicate OnItsWay(e: Entry) {
    e.location == TRANSFERRING && e.move != ToCpu
  }

  /** The list once block `i`, which is on the device, has been used. */
  function Refreshed(s: Tiers, i: nat): seq<nat> {
    if i < |s.entries| && s.entries[i].pins == 0 then Without(s.lru, i) + [i] else s.lru
  }

  /** The list once block `i`, which is not on the device, has been asked for and everything under way has arrived. */
  function Called(s: Tiers, i: nat): seq<nat>
    requires i < |s.entries|
  {
    if s.entries[i].location == CPU_RESIDENT then BroughtIn(s, i)
    else if s.entries[i].move == ToCpu then RoomAfterWait(s) + [i]
    else AfterWait(s)
  }

  /** The list as the load of block `i`, which is not on the device, begins. */
  function Fetching(s: Tiers, i: nat): seq<nat>
    requires i < |s.entries|
  {
    if s.entries[i].location == CPU_RESIDENT then RoomMade(s)
    else if s.entries[i].move == ToCpu then RoomAfterWait(s)
    else s.lru
  }

  /** The list once block `i` has been demanded and is on the device. */
  function Used(s: Tiers, i: nat): seq<nat>
    requires i < |s.entries|
  {
    if s.entries[i].location == GPU_RESIDENT then Refreshed(s, i) else Called(s, i)
  }

  /** After a wait, what has to leave is what had to leave after it anyway. */
  lemma SettledRoom(s: Tiers, t: Tiers, i: nat)
    requires t.lru == AfterWait(s) && t.pending == [] && t.queued == []
    requires |t.device.pool.free| + |s.queued| == Room(s)
    ensures BroughtIn(t, i) == RoomAfterWait(s) + [i] && RoomMade(t) == RoomAfterWait(s)
  {
    assert Arrivals(t.entries, t.pending, true) == [] && AfterWait(t) == t.lru;
  }

  lemma LaterLeaves(a: seq<nat>, b: seq<nat>, c: seq<nat>)
    requires a <= b && OnlyOldestLeaves(b, c)
    ensures OnlyOldestLeaves(a, c)
  {
  }

  /** A load sent off arrives after all others under way. */
  lemma LoadJoins(s: Tiers, u: Tiers, i: nat)
    requires Sound(s) && u.pending == s.pending + [i] && u.lru == s.lru && u.queued == s.queued && i < |s.entries|
    requires |u.entries| == |s.entries| && u.entries == s.entries[i := u.entries[i]] && u.entries[i].move == ToGpu
    requires i !in s.pending
    ensures AfterWait(u) == s.lru + Arrivals(s.entries, s.pending, true) + [i] + s.queued
  {
    ArrivalsAlike(s.entries, u.entries, s.pending, true);
    ArrivalsSnoc(u.entries, s.pending, i, true);
  }

  lemma RoomMadeLeaves(s: Tiers)
    ensures OnlyOldestLeaves(s.lru, RoomMade(s))
  {
    var a := Arrivals(s.entries, s.pending, true) + s.queued;
    assert AfterWait(s) == s.lru + a;
    if s.lru != [] { assert (s.lru + a)[1..] == s.lru[1..] + a; }
  }

  lemma BroughtInLeaves(s: Tiers, i: nat)
    ensures OnlyOldestLeaves(s.lru, BroughtIn(s, i))
  {
    RoomMadeLeaves(s);
  }

  lemma LeavesGrow(a: seq<nat>, b: seq<nat>, c: seq<nat>)
    requires OnlyOldestLeaves(a, b) && b <= c
    ensures OnlyOldestLeaves(a, c)
  {
  }

  lemma AfterEvicting(s: Tiers, after: seq<nat>)
    requires AfterWait(s) != [] && AfterWait(s)[1..] <= after
    ensures OnlyOldestLeaves(s.lru, after)
  {
    var a := Arrivals(s.entries, s.pending, true) + s.queued;
    assert AfterWait(s) == s.lru + a;
    if s.lru != [] { assert (s.lru + a)[1..] == s.lru[1..] + a; }
  }

  lemma {:induction false} WithoutPrefix(a: seq<nat>, b: seq<nat>, i: nat)
    requires a <= b && i !in a
    ensures a <= Without(b, i)
  {
    if a != [] {
      assert b[0] == a[0] && a[0] in a;
      WithoutPrefix(a[1..], b[1..], i);
    }
  }

  /** A block that was not on the list has come and gone. */
  lemma LeavesWithout(a: seq<nat>, b: seq<nat>, i: nat)
    requires OnlyOldestLeaves(a, b) && i !in a
    ensures OnlyOldestLeaves(a, Without(b, i))
  {
    if a <= b { WithoutPrefix(a, b, i); } else { WithoutPrefix(a[1..], b, i); }
  }

  lemma {:induction false} WithoutSnoc(a: seq<nat>, i: nat)
    requires i !in a
    ensures Without(a + [i], i) == a
  {
    if a != [] {
      assert (a + [i])[1..] == a[1..] + [i] && (a + [i])[0] == a[0] && a[0] in a;
      WithoutSnoc(a[1..], i);
    } else {
      assert ([] + [i])[1..] == [];
    }
  }

  /** A block at rest in host memory is on none of the lists. */
  lemma HomeIsUnlisted(s: Tiers, i: nat)
    requires Sound(s) && i < |s.entries| && s.entries[i].location == CPU_RESIDENT
    ensures i !in s.lru && i !in s.pending && i !in s.queued
  {
    Unfold(s);
    if s.entries[i].live { EntryState(s, i); } else { BlankMoves(s, i); }
  }

  lemma BlankMoves(s: Tiers, i: nat)
    requires Settled(s) && i < |s.entries| && !s.entries[i].live
    ensures i !in s.lru && i !in s.pending && i !in s.queued
  {
    if i in s.pending { MovingTransfers(s, i); } else { assert RestOk(s.device, s.entries[i], i, s.contents[i]); }
  }

  lemma CalledLeaves(s: Tiers, i: nat)
    requires i < |s.entries|
    ensures OnlyOldestLeaves(s.lru, Called(s, i))
  {
    BroughtInLeaves(s, i);
    if RoomAfterWait(s) != AfterWait(s) { AfterEvicting(s, RoomAfterWait(s)); }
    LeavesGrow(s.lru, RoomAfterWait(s), RoomAfterWait(s) + [i]);
  }

  lemma {:induction false} WithoutPrefixes(a: seq<nat>, b: seq<nat>, i: nat)
    requires a <= b
    ensures Without(a, i) <= Without(b, i)
  {
    if a != [] { WithoutPrefixes(a[1..], b[1..], i); }
  }

  /** Blocks on the move, in host memory or under a lease are not listed. */
  lemma NotListed(s: Tiers, i: nat)
    requires Sound(s) && i < |s.entries| && !Evictable(s.entries[i])
    ensures i !in s.lru
  {
    Unfold(s);
  }

  /** A block that is leased for a while, and given back, has been used. */
  lemma ReadIsUse(s: Tiers, i: nat)
    requires Sound(s) && i < |s.entries| && s.entries[i].live
    ensures s.entries[i].location == GPU_RESIDENT && s.entries[i].pins > 0 ==> Without(Used(s, i), i) == s.lru
    ensures s.entries[i].location == GPU_RESIDENT && s.entries[i].pins == 0 ==>
              Without(Used(s, i), i) + [i] == Refreshed(s, i)
    ensures s.entries[i].location != GPU_RESIDENT ==> OnlyOldestLeaves(s.lru, Without(Used(s, i), i) + [i])
  {
    SoundPendingBelow(s);
    if !Evictable(s.entries[i]) { NotListed(s, i); }
    if s.entries[i].location == GPU_RESIDENT {
      WithoutNoDup(s.lru, i);
      WithoutSnoc(Without(s.lru, i), i);
    } else {
      CalledLeaves(s, i);
      LeavesWithout(s.lru, Called(s, i), i);
      LeavesGrow(s.lru, Without(Called(s, i), i), Without(Called(s, i), i) + [i]);
    }
  }

  /** A free slot at its last generation stays so when another block's slot is given back. */
  lemma StillWornOut(s: Tiers, i: nat, refs: Pool)
    requires Inv(s.device.pool) && i < |s.entries|
    ensures SlotsWornOut(s) ==> SlotsWornOut(Buried(s, i, refs))
  {
    if SlotsWornOut(s) {
      var slot: nat :| slot < |s.device.pool.pages| && s.device.pool.pages[slot].refs == 0
                       && s.device.pool.pages[slot].generation == MAX64;
      assert Buried(s, i, refs).device.pool.pages[slot].refs == 0;
    }
  }

  /** Some name that no block has is at its last generation. */
  ghost predicate NameWornOut(p: Pool) {
    exists i: nat :: i < |p.pages| && p.pages[i].refs == 0 && p.pages[i].generation == MAX64
  }

  lemma RefusedName(s: Tiers)
    requires Sound(s) && Inv(s.logical) && Allocate(s.logical).Err?
    ensures Allocate(s.logical).error in {CapacityError, OverflowError}
    ensures Allocate(s.logical) == Err(OverflowError) ==> NameWornOut(s.logical)
  {
    Unfold(s);
    if s.logical.free != [] { assert s.logical.free[0] in s.logical.free; }
  }

  /** A new block is in host memory and on no list; bringing it in makes room as it would have been made before. */
  lemma NewIsUnlisted(s: Tiers, h: Handle, pool: Pool, p: Payload)
    requires Sound(s) && Inv(s.logical) && Allocate(s.logical) == Ok((h, pool))
    ensures h.id !in s.lru && h.id < |s.entries| == |s.contents| == |s.device.backing|
    ensures BroughtIn(Created(s, h, pool, p), h.id) == BroughtIn(s, h.id)
  {
    Unfold(s);
    CreateStep(s, h, pool, p);
    DeadIsBlank(s, h.id);
    ArrivalsAlike(s.entries, Created(s, h, pool, p).entries, s.pending, true);
  }

  /** The block used least recently is where it was, or is gone. */
  predicate NoneBack(before: seq<nat>, after: seq<nat>) {
    before <= after || before == [] || before[0] !in after
  }

  lemma EvictedIsGone(s: Tiers)
    requires Sound(s)
    ensures NoneBack(s.lru, RoomAfterWait(s)) && NoneBack(s.lru, RoomMade(s))
  {
    Unfold(s);
    SoundPendingBelow(s);
    if s.lru != [] {
      var i, coming := s.lru[0], Arrivals(s.entries, s.pending, true) + s.queued;
      assert i in s.lru && AfterWait(s) == s.lru + coming && AfterWait(s)[1..] == s.lru[1..] + coming;
      ArrivalsAmong(s.entries, s.pending, true);
      NoDupTail(s.lru);
      assert i !in coming;
    }
  }

  lemma NoneBackGrows(before: seq<nat>, after: seq<nat>, i: nat)
    requires NoneBack(before, after) && i !in before
    ensures NoneBack(before, after + [i]) && NoneBack(before, Without(after, i))
  {
    if before <= after { WithoutPrefix(before, after, i); }
  }

  /** Bringing a block in gives nobody back. */
  lemma FetchingGivesNoneBack(s: Tiers, i: nat)
    requires Sound(s) && i < |s.entries| && i !in s.lru
    ensures NoneBack(s.lru, Fetching(s, i)) && NoneBack(s.lru, BroughtIn(s, i)) && NoneBack(s.lru, Called(s, i))
    ensures NoneBack(s.lru, Without(Called(s, i), i)) && NoneBack(s.lru, Without(Called(s, i), i) + [i])
  {
    EvictedIsGone(s);
    NoneBackGrows(s.lru, RoomMade(s), i);
    NoneBackGrows(s.lru, RoomAfterWait(s), i);
    NoneBackGrows(s.lru, Called(s, i), i);
    NoneBackGrows(s.lru, Without(Called(s, i), i), i);
  }
}
