/** Prefetching (src/tiered_block_manager.cpp): which blocks of the window are sent for, at whose expense, and what the
    counters say afterwards. */
module TieredPrefetches {
  import opened Common
  import opened PagePool
  import opened TieredBlocks
  import opened TieredRecency

  // ---------------------------------------------------------------- who makes way

  /** The list without the block used least recently among those that are not protected. */
  function WithoutOldest(lru: seq<nat>, protected: set<nat>): seq<nat> {
    if lru == [] then []
    else if lru[0] in protected then [lru[0]] + WithoutOldest(lru[1..], protected)
    else lru[1..]
  }

  /** The list once `n` blocks have made way. */
  function Sparing(lru: seq<nat>, protected: set<nat>, n: nat): seq<nat> {
    if n == 0 then lru else WithoutOldest(Sparing(lru, protected, n - 1), protected)
  }

  /** No slot is free, and whoever could make way is protected. */
  predicate Full(s: Tiers, protected: set<nat>) {
    s.device.pool.free == [] && forall i :: i in s.lru ==> i in protected
  }

  lemma {:induction false} VictimMakesWay(lru: seq<nat>, protected: set<nat>, k: nat)
    requires k < |lru| && lru[k] !in protected && forall j :: 0 <= j < k ==> lru[j] in protected
    ensures lru[k] !in lru[..k] && Without(lru, lru[k]) == WithoutOldest(lru, protected)
  {
    if k != 0 {
      assert lru[0] in protected;
      VictimMakesWay(lru[1..], protected, k - 1);
    }
  }

  lemma {:induction false} MakesWayInPrefix(a: seq<nat>, b: seq<nat>, protected: set<nat>)
    requires a <= b
    ensures WithoutOldest(a, protected) <= WithoutOldest(b, protected)
  {
    if a != [] { MakesWayInPrefix(a[1..], b[1..], protected); }
  }

  lemma {:induction false} SparingInPrefix(a: seq<nat>, b: seq<nat>, protected: set<nat>, n: nat)
    requires a <= b
    ensures Sparing(a, protected, n) <= Sparing(b, protected, n)
  {
    if n != 0 {
      SparingInPrefix(a, b, protected, n - 1);
      MakesWayInPrefix(Sparing(a, protected, n - 1), Sparing(b, protected, n - 1), protected);
    }
  }

  /** `n` blocks have made way. Folded like `Sound`. */
  ghost predicate MadeWay(before: seq<nat>, after: seq<nat>, protected: set<nat>, n: int) {
    forall l {:trigger Unseal(l)} :: l == after ==> n >= 0 && l == Sparing(before, protected, n)
  }

  lemma UnfoldMadeWay(before: seq<nat>, after: seq<nat>, protected: set<nat>, n: int)
    requires MadeWay(before, after, protected, n)
    ensures n >= 0 && after == Sparing(before, protected, n)
  {
    assert Unseal(after);
  }

  lemma OneMoreMadeWay(before: seq<nat>, mid: seq<nat>, after: seq<nat>, protected: set<nat>, n: int)
    requires MadeWay(before, mid, protected, n) && after == WithoutOldest(mid, protected)
    ensures MadeWay(before, after, protected, n + 1)
  {
    UnfoldMadeWay(before, mid, protected, n);
    assert Sparing(before, protected, n + 1) == WithoutOldest(Sparing(before, protected, n), protected);
  }

  /** Some blocks have made way, and nobody else; whoever has come since is at the end. Folded like `Sound`. */
  ghost predicate OnlyMadeWay(before: seq<nat>, after: seq<nat>, protected: set<nat>) {
    forall l {:trigger Unseal(l)} :: l == after ==> exists n :: Sparing(before, protected, n) <= l
  }

  lemma UnfoldOnlyMadeWay(before: seq<nat>, after: seq<nat>, protected: set<nat>) returns (n: nat)
    requires OnlyMadeWay(before, after, protected)
    ensures Sparing(before, protected, n) <= after
  {
    assert Unseal(after);
    n :| Sparing(before, protected, n) <= after;
  }

  lemma NoneMakesWay(before: seq<nat>, protected: set<nat>, after: seq<nat>)
    requires before <= after
    ensures OnlyMadeWay(before, after, protected)
  {
    assert Sparing(before, protected, 0) <= after;
  }

  lemma SparingAfterPoll(before: seq<nat>, polled: seq<nat>, protected: set<nat>, after: seq<nat>)
    requires before <= polled && OnlyMadeWay(polled, after, protected)
    ensures OnlyMadeWay(before, after, protected)
  {
    var n := UnfoldOnlyMadeWay(polled, after, protected);
    SparingInPrefix(before, polled, protected, n);
    assert Sparing(before, protected, n) <= after;
  }

  // ---------------------------------------------------------------- polling

  /** Something is under way and the device is not done with it. */
  predicate StillMoving(s: Tiers, busy: bool) {
    busy && (s.pending != [] || s.queued != [])
  }

  /** The lists of `s` once it has been polled. */
  function PolledLru(s: Tiers, busy: bool): seq<nat> {
    if StillMoving(s, busy) then s.lru else s.lru + Arrivals(s.entries, s.pending, true)
  }

  function PolledQueue(s: Tiers, busy: bool): seq<nat> {
    if StillMoving(s, busy) then s.queued else []
  }

  function PolledPending(s: Tiers, busy: bool): seq<nat> {
    if StillMoving(s, busy) then s.pending else s.queued
  }

  // ---------------------------------------------------------------- the window

  function WindowEnd(n: nat, current: nat, nextN: nat): nat
    requires current < n
  {
    if nextN < n - current - 1 then current + nextN + 1 else n
  }

  ghost function Ids(hs: seq<Handle>): (ids: seq<nat>)
    ensures |ids| == |hs| && forall k :: 0 <= k < |hs| ==> ids[k] == hs[k].id
  {
    seq(|hs|, k requires 0 <= k < |hs| => hs[k].id)
  }

  function IdsIn(hs: seq<Handle>): set<nat> {
    set k | 0 <= k < |hs| :: hs[k].id
  }

  /** The current block and the `nextN` after it. */
  ghost function Protected(order: seq<Handle>, current: nat, nextN: nat): set<nat> {
    set k | current <= k <= current + nextN && k < |order| :: order[k].id
  }

  /** The `nextN` blocks after the current one. */
  ghost function AheadOf(order: seq<Handle>, current: nat, nextN: nat): seq<nat> {
    if current < |order| then Ids(order[current + 1..WindowEnd(|order|, current, nextN)]) else []
  }

  lemma OneMore(order: seq<Handle>, current: nat, k: nat)
    requires current <= k < |order|
    ensures IdsIn(order[current..k + 1]) == IdsIn(order[current..k]) + {order[k].id}
  {
    var a, b := order[current..k], order[current..k + 1];
    assert b == a + [order[k]];
    forall i | i in IdsIn(a) ensures i in IdsIn(b) {
      var j :| 0 <= j < |a| && a[j].id == i;
      assert b[j].id == i;
    }
    assert b[|a|].id == order[k].id;
  }

  lemma IdsSnoc(hs: seq<Handle>, k: nat)
    requires k < |hs|
    ensures Ids(hs[..k + 1]) == Ids(hs[..k]) + [hs[k].id]
  {
    assert Ids(hs[..k + 1]) == Ids(hs[..k]) + [hs[k].id];
  }

  lemma IdsProtected(hs: seq<Handle>, protected: set<nat>)
    requires forall k :: 0 <= k < |hs| ==> hs[k].id in protected
    ensures forall i :: i in Ids(hs) ==> i in protected
  {
  }

  lemma AheadIsProtected(order: seq<Handle>, current: nat, nextN: nat)
    requires current < |order|
    ensures IdsIn(order[current..WindowEnd(|order|, current, nextN)]) == Protected(order, current, nextN)
  {
    var w := order[current..WindowEnd(|order|, current, nextN)];
    forall i | i in Protected(order, current, nextN) ensures i in IdsIn(w) {
      var k :| current <= k <= current + nextN && k < |order| && order[k].id == i;
      assert w[k - current].id == i;
    }
  }

  // ---------------------------------------------------------------- one block of the window

  predicate Placed(e: Entry) {
    e.location == TRANSFERRING <==> e.move != NoMove
  }

  predicate Fetched(e: Entry) {
    e.location != CPU_RESIDENT && Bound(e)
  }

  /** Block `i` of the window has had its turn. */
  ghost predicate OnePrefetch(s: Tiers, u: Tiers, i: nat, protected: set<nat>, accepted: bool) {
    && i < |s.entries| == |u.entries|
    && (forall j {:trigger u.entries[j]} ::
          0 <= j < |s.entries| && j in protected && j != i ==> u.entries[j] == s.entries[j])
    && if s.entries[i].location != CPU_RESIDENT then !accepted && u == s
       else if !accepted then
         Full(s, protected) && u == s.(counters := s.counters.(skipped := s.counters.skipped + 1))
       else
         && !Full(s, protected) && Fetched(u.entries[i]) && u.entries[i].prefetched
         && u.counters.skipped == s.counters.skipped && s.pending <= u.pending && |u.pending| == |s.pending| + 1
         && if s.device.pool.free != []
            then u.lru == s.lru && u.queued == s.queued
            else u.device.pool.free == [] && u.lru == WithoutOldest(s.lru, protected) && u.queued == s.queued + [i]
  }

  // ---------------------------------------------------------------- the whole window

  function CountHome(entries: seq<Entry>, ids: seq<nat>): nat {
    if ids == [] then 0
    else
      CountHome(entries, ids[..|ids| - 1])
      + if ids[|ids| - 1] < |entries| && entries[ids[|ids| - 1]].location == CPU_RESIDENT then 1 else 0
  }

  /** The blocks that are now on the device, or bound for it, and were not. */
  function NewlyBound(before: seq<Entry>, after: seq<Entry>, ids: seq<nat>): set<nat> {
    set i | i in ids && 0 <= i < |before| && i < |after| && !Bound(before[i]) && Bound(after[i])
  }

  /** A block of the window is on the device or bound for it, or is just leaving it, or there is no room. */
  ghost predicate Arranged(p: Tiers, s: Tiers, i: nat, protected: set<nat>) {
    && i < |p.entries| == |s.entries|
    && (if s.entries[i].location == CPU_RESIDENT then Full(s, protected)
        else Bound(s.entries[i]) || (s.entries[i].move == ToCpu && s.entries[i] == p.entries[i]))
    && (p.entries[i].location != CPU_RESIDENT ==> s.entries[i] == p.entries[i])
    && (!Bound(p.entries[i]) && Bound(s.entries[i]) ==> s.entries[i].prefetched)
  }

  /** From `p` on, the blocks `ids` of the window have had their turns, and `submitted` of them have been sent for. */
  ghost predicate Prefetching(p: Tiers, s: Tiers, ids: seq<nat>, protected: set<nat>, submitted: nat) {
    && |s.entries| == |p.entries|
    && (forall i :: i in ids ==> Arranged(p, s, i, protected))
    && (forall j {:trigger s.entries[j]} ::
          0 <= j < |s.entries| && j in protected && j !in ids ==> s.entries[j] == p.entries[j])
    && s.counters.skipped == p.counters.skipped + CountHome(s.entries, ids)
    && |NewlyBound(p.entries, s.entries, ids)| == submitted
    && p.pending <= s.pending && |s.pending| == |p.pending| + submitted
    && p.queued <= s.queued && (s.queued != p.queued ==> s.device.pool.free == [])
    && MadeWay(p.lru, s.lru, protected, |s.queued| - |p.queued|)
  }

  lemma {:induction false} SameHome(a: seq<Entry>, b: seq<Entry>, ids: seq<nat>)
    requires |a| == |b| && forall i :: i in ids && i < |a| ==> a[i].location == b[i].location
    ensures CountHome(a, ids) == CountHome(b, ids)
  {
    if ids != [] { SameHome(a, b, ids[..|ids| - 1]); }
  }

  lemma HomeSnoc(entries: seq<Entry>, ids: seq<nat>, i: nat)
    ensures CountHome(entries, ids + [i])
         == CountHome(entries, ids) + if i < |entries| && entries[i].location == CPU_RESIDENT then 1 else 0
  {
    assert (ids + [i])[..|ids|] == ids;
  }

  /** Whoever had a turn before keeps what came of it. */
  lemma ArrangedStays(p: Tiers, s: Tiers, u: Tiers, i: nat, j: nat, protected: set<nat>, accepted: bool)
    requires Arranged(p, s, j, protected) && OnePrefetch(s, u, i, protected, accepted) && j in protected
    ensures u.entries[j] == s.entries[j] && Arranged(p, u, j, protected)
  {
  }

  lemma TurnArranges(p: Tiers, s: Tiers, u: Tiers, i: nat, protected: set<nat>, accepted: bool)
    requires |s.entries| == |p.entries| && OnePrefetch(s, u, i, protected, accepted)
    requires s.entries[i] == p.entries[i] && Placed(s.entries[i])
    ensures Arranged(p, u, i, protected)
    ensures accepted <==> !Bound(p.entries[i]) && Bound(u.entries[i])
    ensures u.counters.skipped == s.counters.skipped + if u.entries[i].location == CPU_RESIDENT then 1 else 0
  {
  }

  /** A block that comes up again is not sent for again; if it found no room it finds none now. */
  lemma SecondTurn(p: Tiers, s: Tiers, u: Tiers, i: nat, protected: set<nat>, accepted: bool)
    requires Arranged(p, s, i, protected) && OnePrefetch(s, u, i, protected, accepted)
    ensures !accepted && u.entries == s.entries
    ensures u.counters.skipped == s.counters.skipped + if u.entries[i].location == CPU_RESIDENT then 1 else 0
  {
  }

  lemma MoreBound(before: seq<Entry>, a: seq<Entry>, b: seq<Entry>, ids: seq<nat>, i: nat)
    requires |a| == |b| && forall j :: j in ids && j < |a| ==> a[j] == b[j]
    ensures NewlyBound(before, b, ids + [i])
         == NewlyBound(before, a, ids)
            + if i < |before| && i < |b| && !Bound(before[i]) && Bound(b[i]) then {i} else {}
  {
  }

  lemma PrefetchCounts(p: Tiers, s: Tiers, u: Tiers, ids: seq<nat>, i: nat, protected: set<nat>, submitted: nat,
                       accepted: bool)
    requires Prefetching(p, s, ids, protected, submitted) && OnePrefetch(s, u, i, protected, accepted)
    requires i in protected && Placed(s.entries[i]) && forall j :: j in ids ==> j in protected
    ensures forall j :: j in ids + [i] ==> Arranged(p, u, j, protected)
    ensures u.counters.skipped == p.counters.skipped + CountHome(u.entries, ids + [i])
    ensures |NewlyBound(p.entries, u.entries, ids + [i])| == submitted + if accepted then 1 else 0
  {
    forall j | j in ids ensures u.entries[j] == s.entries[j] && Arranged(p, u, j, protected) {
      ArrangedStays(p, s, u, i, j, protected, accepted);
    }
    SameHome(s.entries, u.entries, ids);
    HomeSnoc(u.entries, ids, i);
    MoreBound(p.entries, s.entries, u.entries, ids, i);
    var before, after := NewlyBound(p.entries, s.entries, ids), NewlyBound(p.entries, u.entries, ids + [i]);
    if i in ids {
      SecondTurn(p, s, u, i, protected, accepted);
      assert after == before;
    } else {
      TurnArranges(p, s, u, i, protected, accepted);
      assert after == if accepted then before + {i} else before;
    }
  }

  lemma PrefetchStep(p: Tiers, s: Tiers, u: Tiers, ids: seq<nat>, i: nat, protected: set<nat>, submitted: nat,
                     accepted: bool)
    requires Prefetching(p, s, ids, protected, submitted) && OnePrefetch(s, u, i, protected, accepted)
    requires i in protected && Placed(s.entries[i]) && forall j :: j in ids ==> j in protected
    ensures Prefetching(p, u, ids + [i], protected, submitted + if accepted then 1 else 0)
  {
    PrefetchCounts(p, s, u, ids, i, protected, submitted, accepted);
    if u.lru == WithoutOldest(s.lru, protected) {
      OneMoreMadeWay(p.lru, s.lru, u.lru, protected, |s.queued| - |p.queued|);
    }
  }

  lemma PrefetchingStarts(p: Tiers, protected: set<nat>)
    ensures Prefetching(p, p, [], protected, 0)
  {
    assert NewlyBound(p.entries, p.entries, []) == {};
    assert Sparing(p.lru, protected, 0) == p.lru;
  }

  /** Every load that has been queued has had one block make way for it, and nobody else has left. */
  ghost predicate MadeWayFor(s: Tiers, u: Tiers, protected: set<nat>, busy: bool) {
    && PolledQueue(s, busy) <= u.queued && (u.queued != PolledQueue(s, busy) ==> u.device.pool.free == [])
    && MadeWay(PolledLru(s, busy), u.lru, protected, |u.queued| - |PolledQueue(s, busy)|)
  }

  lemma SparesOneMore(p: Tiers, s: Tiers, ids: seq<nat>, protected: set<nat>, submitted: nat, after: seq<nat>)
    requires Prefetching(p, s, ids, protected, submitted)
    requires s.lru <= after || WithoutOldest(s.lru, protected) <= after
    ensures OnlyMadeWay(p.lru, after, protected)
  {
    var n := |s.queued| - |p.queued|;
    UnfoldMadeWay(p.lru, s.lru, protected, n);
    assert Sparing(p.lru, protected, n + 1) == WithoutOldest(s.lru, protected);
    assert Sparing(p.lru, protected, n) == s.lru;
  }

  /** Polling alone makes no block come. */
  lemma PollBrings(s: Tiers, p: Tiers, i: nat)
    requires Onward(s, p) && Home(s, p) && i < |s.entries| && Placed(s.entries[i]) && Placed(p.entries[i])
    ensures Bound(s.entries[i]) <==> Bound(p.entries[i])
  {
    assert Leaves(s.entries[i], p.entries[i]);
  }

  lemma PolledThenPrefetched(s: Tiers, p: Tiers, u: Tiers, ids: seq<nat>, protected: set<nat>, submitted: nat)
    requires Prefetching(p, u, ids, protected, submitted) && Onward(s, p) && Home(s, p)
    requires forall i :: i in ids ==> i < |s.entries| && Placed(s.entries[i]) && Placed(p.entries[i])
    ensures NewlyBound(s.entries, u.entries, ids) == NewlyBound(p.entries, u.entries, ids)
    ensures forall i :: i in ids ==>
              i < |u.entries| && (!Bound(s.entries[i]) && Bound(u.entries[i]) ==> u.entries[i].prefetched)
  {
    forall i | i in ids
      ensures Arranged(p, u, i, protected) && (Bound(s.entries[i]) <==> Bound(p.entries[i]))
    {
      PollBrings(s, p, i);
    }
  }

  lemma WindowIsPlaced(s: Tiers, hs: seq<Handle>)
    requires Sound(s) && forall k :: 0 <= k < |hs| ==> Live(s.logical, hs[k])
    ensures forall i :: i in Ids(hs) ==> i < |s.entries| && Placed(s.entries[i])
  {
    forall k | 0 <= k < |hs| ensures hs[k].id < |s.entries| && Placed(s.entries[hs[k].id]) {
      LiveEntry(s, hs[k]);
    }
  }

  lemma {:induction false} CountedOffloads(entries: seq<Entry>, pending: seq<nat>)
    requires CountOffloads(entries, pending) == 0
    ensures forall i :: i in pending && i < |entries| ==> entries[i].move != ToCpu
  {
    if pending != [] { CountedOffloads(entries, pending[1..]); }
  }

  lemma NoneLeaving(s: Tiers, i: nat)
    requires Sound(s) && CountOffloads(s.entries, s.pending) == 0 && i < |s.entries|
    ensures s.entries[i].move != ToCpu
  {
    Unfold(s);
    CountedOffloads(s.entries, s.pending);
    assert OnTheMove(s.entries[i]) ==> i in s.pending;
  }

  /** What has become of block `i` of the window: it is on the device or bound for it, and marked if it was not before;
      or it is just leaving, which nobody waits for; or nobody can make way for it. */
  ghost predicate Served(s: Tiers, u: Tiers, i: nat, protected: set<nat>, busy: bool) {
    && i < |s.entries| == |u.entries|
    && (if u.entries[i].location == CPU_RESIDENT then Full(u, protected)
        else Bound(u.entries[i]) || (busy && s.entries[i].move == ToCpu))
    && (Bound(s.entries[i]) ==> Bound(u.entries[i]))
    && (!Bound(s.entries[i]) && Bound(u.entries[i]) ==> u.entries[i].prefetched)
  }

  lemma WindowIsServed(s: Tiers, p: Tiers, u: Tiers, ids: seq<nat>, protected: set<nat>, submitted: nat, busy: bool)
    requires Sound(p) && Prefetching(p, u, ids, protected, submitted)
    requires Onward(s, p) && Home(s, p)
    requires forall i :: i in ids ==> i < |s.entries| && Placed(s.entries[i]) && Placed(p.entries[i])
    requires (busy && p == s) || CountOffloads(p.entries, p.pending) == 0
    ensures submitted == |NewlyBound(s.entries, u.entries, ids)|
    ensures forall i :: i in ids ==> Served(s, u, i, protected, busy)
  {
    PolledThenPrefetched(s, p, u, ids, protected, submitted);
    forall i | i in ids ensures Served(s, u, i, protected, busy) {
      if CountOffloads(p.entries, p.pending) == 0 { NoneLeaving(p, i); }
      OneIsServed(s, p, u, i, protected, busy);
    }
  }

  lemma OneIsServed(s: Tiers, p: Tiers, u: Tiers, i: nat, protected: set<nat>, busy: bool)
    requires Arranged(p, u, i, protected) && Onward(s, p) && Home(s, p)
    requires Placed(s.entries[i]) && Placed(p.entries[i])
    requires (busy && p == s) || p.entries[i].move != ToCpu
    ensures Served(s, u, i, protected, busy)
  {
    PollBrings(s, p, i);
  }

  /** `p` is what polling made of `s`. */
  ghost predicate Polled(s: Tiers, p: Tiers, busy: bool) {
    && p.lru == PolledLru(s, busy) && p.queued == PolledQueue(s, busy) && p.pending == PolledPending(s, busy)
    && p.counters.skipped == s.counters.skipped && Onward(s, p) && Home(s, p)
    && ((busy && p == s) || CountOffloads(p.entries, p.pending) == 0)
  }

  /** The whole of a prefetch: what was served, who made way, and the counts. */
  lemma PrefetchAfterPoll(s: Tiers, p: Tiers, u: Tiers, window: seq<Handle>, protected: set<nat>, submitted: nat,
                          busy: bool)
    requires Sound(s) && Sound(p) && Polled(s, p, busy) && Prefetching(p, u, Ids(window), protected, submitted)
    requires s.logical == p.logical && forall k :: 0 <= k < |window| ==> Live(s.logical, window[k])
    ensures forall i :: i in Ids(window) ==> Served(s, u, i, protected, busy)
    ensures submitted == |NewlyBound(s.entries, u.entries, Ids(window))|
    ensures u.counters.skipped == s.counters.skipped + CountHome(u.entries, Ids(window))
    ensures MadeWayFor(s, u, protected, busy)
    ensures PolledPending(s, busy) <= u.pending && |u.pending| == |PolledPending(s, busy)| + submitted
  {
    WindowIsPlaced(s, window);
    WindowIsPlaced(p, window);
    WindowIsServed(s, p, u, Ids(window), protected, submitted, busy);
  }

  /** The protected blocks that were on the device, or bound for it, still are. */
  ghost predicate BoundKept(protected: set<nat>, before: seq<Entry>, after: seq<Entry>) {
    forall j: nat :: j in protected && j < |before| && Bound(before[j]) ==> j < |after| && Bound(after[j])
  }

  lemma BoundKeptTrans(protected: set<nat>, a: seq<Entry>, b: seq<Entry>, c: seq<Entry>)
    requires BoundKept(protected, a, b) && BoundKept(protected, b, c)
    ensures BoundKept(protected, a, c)
  {
  }

  lemma BoundKeptFrom(protected: set<nat>, s: Tiers, p: Tiers, after: seq<Entry>)
    requires Onward(s, p) && BoundKept(protected, p.entries, after)
    ensures BoundKept(protected, s.entries, after)
  {
  }

  lemma WindowBoundKept(order: seq<Handle>, current: nat, nextN: nat, before: seq<Entry>, after: seq<Entry>)
    requires BoundKept(Protected(order, current, nextN), before, after)
    ensures forall k ::
              current <= k <= current + nextN && k < |order| && order[k].id < |before| && Bound(before[order[k].id]) ==>
              order[k].id < |after| && Bound(after[order[k].id])
  {
    forall k | current <= k <= current + nextN && k < |order| && order[k].id < |before| && Bound(before[order[k].id])
      ensures order[k].id < |after| && Bound(after[order[k].id])
    {
      assert order[k].id in Protected(order, current, nextN);
    }
  }

  /** The whole window has been served. */
  ghost predicate WindowServed(s: Tiers, u: Tiers, order: seq<Handle>, current: nat, nextN: nat, busy: bool) {
    forall k :: current < k <= current + nextN && k < |order| ==>
      Served(s, u, order[k].id, Protected(order, current, nextN), busy)
  }

  lemma AheadIsWindow(s: Tiers, u: Tiers, order: seq<Handle>, current: nat, nextN: nat, busy: bool)
    requires current < |order|
    requires forall i :: i in AheadOf(order, current, nextN) ==> Served(s, u, i, Protected(order, current, nextN), busy)
    ensures WindowServed(s, u, order, current, nextN, busy)
  {
    var window := order[current + 1..WindowEnd(|order|, current, nextN)];
    forall k | current < k <= current + nextN && k < |order|
      ensures Served(s, u, order[k].id, Protected(order, current, nextN), busy)
    {
      assert Ids(window)[k - current - 1] == order[k].id;
    }
  }

  // ---------------------------------------------------------------- in so many words

  /** A block of the window that is not on the device, nor on its way there, nor waiting for a slot, was just leaving
      while the device was busy; or it is in host memory, no slot is free, and whoever could make way is in the window
      itself. */
  lemma NothingLeftOut(s: Tiers, u: Tiers, order: seq<Handle>, current: nat, nextN: nat, busy: bool, k: nat)
    requires WindowServed(s, u, order, current, nextN, busy) && current < k <= current + nextN && k < |order|
    ensures order[k].id < |s.entries| == |u.entries|
    ensures var e := u.entries[order[k].id];
            || e.location == GPU_RESIDENT || e.move == ToGpu || e.move == QueuedLoad
            || (busy && s.entries[order[k].id].move == ToCpu)
            || (e.location == CPU_RESIDENT && u.device.pool.free == []
                && forall i :: i in u.lru ==>
                     exists j :: current <= j <= current + nextN && j < |order| && order[j].id == i)
  {
    assert Served(s, u, order[k].id, Protected(order, current, nextN), busy);
  }

  function HomePositions(entries: seq<Entry>, ids: seq<nat>): set<nat> {
    set k: nat | k < |ids| && ids[k] < |entries| && entries[ids[k]].location == CPU_RESIDENT
  }

  /** The count is of the places in the window, so a block that comes up twice counts twice. */
  lemma {:induction false} HomeIsCount(entries: seq<Entry>, ids: seq<nat>)
    ensures CountHome(entries, ids) == |HomePositions(entries, ids)|
  {
    if ids != [] {
      var n := |ids| - 1;
      HomeIsCount(entries, ids[..n]);
      var fewer := HomePositions(entries, ids[..n]);
      assert HomePositions(entries, ids)
          == if ids[n] < |entries| && entries[ids[n]].location == CPU_RESIDENT then fewer + {n} else fewer;
    } else {
      assert HomePositions(entries, ids) == {};
    }
  }

  /** The blocks that count as accepted. */
  lemma AcceptedAre(before: seq<Entry>, after: seq<Entry>, order: seq<Handle>, current: nat, nextN: nat, i: nat)
    requires i < |before| && i < |after|
    ensures i in NewlyBound(before, after, AheadOf(order, current, nextN)) <==>
            && (exists k :: current < k <= current + nextN && k < |order| && order[k].id == i)
            && before[i].location != GPU_RESIDENT && before[i].move != ToGpu && before[i].move != QueuedLoad
            && (after[i].location == GPU_RESIDENT || after[i].move == ToGpu || after[i].move == QueuedLoad)
  {
    if current < |order| {
      var window := order[current + 1..WindowEnd(|order|, current, nextN)];
      if k :| current < k <= current + nextN && k < |order| && order[k].id == i {
        assert Ids(window)[k - current - 1] == i;
      }
      if i in Ids(window) {
        var m :| 0 <= m < |window| && Ids(window)[m] == i;
        assert order[m + current + 1].id == i;
      }
    }
  }
}
