/** Ages: over any run of the tiered manager its list holds the blocks in the order of their last use, so whoever has to
    leave the device was used no later than any block that could have left instead (src/tiered_block_manager.cpp,
    include/kvflux/detail/index_lru.h). */
module TieredAges {
  import opened Common
  import opened TieredBlocks
  import opened TieredRecency
  import opened TieredPrefetches

  /** What one operation does to the list of unleased blocks on the device: the blocks it was about, and those that a
      failed transfer gave back; whether anybody could be made to leave, and who was spared that. */
  datatype Turn = Turn(before: seq<nat>, after: seq<nat>, touched: set<nat>, back: set<nat>, evicts: bool,
                       spared: set<nat>)

  predicate Precedes(s: seq<nat>, i: nat, j: nat) {
    exists a, b :: 0 <= a < b < |s| && s[a] == i && s[b] == j
  }

  /** `i` was listed before and nothing has happened to it. */
  predicate Undisturbed(t: Turn, i: nat) {
    i in t.before && i !in t.touched && i !in t.back
  }

  /** The undisturbed blocks keep their order, and come before all others. */
  ghost predicate KeepsOrder(t: Turn) {
    forall a, b {:trigger t.after[a], t.after[b]} :: 0 <= a < b < |t.after| && Undisturbed(t, t.after[b]) ==>
      Undisturbed(t, t.after[a]) && Precedes(t.before, t.after[a], t.after[b])
  }

  predicate Left(t: Turn, i: nat) {
    i in t.before && i !in t.after
  }

  /** Whoever has left without having been touched was made to leave, and with it whoever came before it. */
  ghost predicate OldestLeave(t: Turn) {
    forall i :: Left(t, i) && i !in t.touched ==>
      t.evicts && i !in t.spared
      && forall j :: Precedes(t.before, j, i) && j !in t.spared ==> Left(t, j) || j in t.touched + t.back
  }

  ghost predicate Fair(t: Turn) {
    NoDup(t.before) && NoDup(t.after) && KeepsOrder(t) && OldestLeave(t)
  }

  // ---------------------------------------------------------------- runs

  /** The list after `n` turns; at first nothing is listed. */
  function Listed(turns: seq<Turn>, n: nat): seq<nat>
    requires n <= |turns|
  {
    if n == 0 then [] else turns[n - 1].after
  }

  /** Each turn starts from what the one before left. */
  ghost predicate Run(turns: seq<Turn>) {
    && (forall k {:trigger Fair(turns[k])} :: 0 <= k < |turns| ==> Fair(turns[k]))
    && (forall k: nat {:trigger Listed(turns, k)} :: k < |turns| ==> turns[k].before == Listed(turns, k))
  }

  /** Block `i` is used in this turn: it is touched, or arrives on the device, or a lease of it ends. */
  predicate Uses(t: Turn, i: nat) {
    i in t.after && !Undisturbed(t, i)
  }

  /** The number of the last of the first `n` turns that used block `i`; 0 if none did. */
  function LastUse(turns: seq<Turn>, n: nat, i: nat): (k: nat)
    requires n <= |turns|
    ensures k <= n
  {
    if n == 0 then 0 else if Uses(turns[n - 1], i) then n else LastUse(turns, n - 1, i)
  }

  /** The list is in the order of last use. */
  lemma {:induction false} ListedByAge(turns: seq<Turn>, n: nat, a: nat, b: nat)
    requires Run(turns) && n <= |turns| && a < b < |Listed(turns, n)|
    ensures LastUse(turns, n, Listed(turns, n)[a]) <= LastUse(turns, n, Listed(turns, n)[b])
  {
    if Undisturbed(turns[n - 1], turns[n - 1].after[b]) {
      var c, d := WereInOrder(turns, n - 1, a, b);
      ListedByAge(turns, n - 1, c, d);
    }
  }

  lemma WereInOrder(turns: seq<Turn>, k: nat, a: nat, b: nat) returns (c: nat, d: nat)
    requires Run(turns) && k < |turns| && a < b < |turns[k].after| && Undisturbed(turns[k], turns[k].after[b])
    ensures c < d < |Listed(turns, k)| && Undisturbed(turns[k], turns[k].after[a])
            && Listed(turns, k)[c] == turns[k].after[a] && Listed(turns, k)[d] == turns[k].after[b]
  {
    var t := turns[k];
    assert Fair(t) && t.before == Listed(turns, k);
    assert Precedes(t.before, t.after[a], t.after[b]);
    c, d :| 0 <= c < d < |t.before| && t.before[c] == t.after[a] && t.before[d] == t.after[b];
  }

  /** Over every run, a block that is made to leave was last used no later than any block that stays, unless that one
      was spared. */
  lemma LeastRecentlyUsedLeaves(turns: seq<Turn>, k: nat, i: nat, j: nat)
    requires Run(turns) && k < |turns|
    requires Left(turns[k], i) && i !in turns[k].touched
    requires Undisturbed(turns[k], j) && j in turns[k].after && j !in turns[k].spared
    ensures LastUse(turns, k, i) <= LastUse(turns, k, j)
  {
    var t := turns[k];
    assert Fair(t) && t.before == Listed(turns, k);
    var a :| 0 <= a < |t.before| && t.before[a] == i;
    var b :| 0 <= b < |t.before| && t.before[b] == j;
    if a < b {
      ListedByAge(turns, k, a, b);
    }
  }

  // ---------------------------------------------------------------- what the manager's operations do

  /** `kept` holds members of `base` in their order. */
  ghost predicate InOrder(base: seq<nat>, kept: seq<nat>) {
    && (forall a {:trigger kept[a]} :: 0 <= a < |kept| ==> kept[a] in base)
    && (forall a, b {:trigger kept[a], kept[b]} :: 0 <= a < b < |kept| ==> Precedes(base, kept[a], kept[b]))
  }

  /** If the list begins with what is kept, in order, of the old one and later arrivals, order is kept. */
  lemma OrderIsKept(t: Turn, base: seq<nat>, kept: seq<nat>)
    requires t.before <= base && NoDup(base) && NoDup(t.after) && kept <= t.after && InOrder(base, kept)
    requires forall i :: i in kept ==> i !in t.touched && i !in t.back
    requires forall k {:trigger t.after[k]} :: |kept| <= k < |t.after| ==> !Undisturbed(t, t.after[k])
    ensures NoDup(t.before) && KeepsOrder(t)
  {
    forall a, b {:trigger t.after[a], t.after[b]} | 0 <= a < b < |t.after| && Undisturbed(t, t.after[b])
      ensures Undisturbed(t, t.after[a]) && Precedes(t.before, t.after[a], t.after[b])
    {
      assert kept[a] == t.after[a] && kept[b] == t.after[b];
      EarlierIsBefore(t.before, base, kept[a], kept[b]);
    }
  }

  lemma EarlierIsBefore(before: seq<nat>, base: seq<nat>, i: nat, j: nat)
    requires before <= base && NoDup(base) && Precedes(base, i, j) && j in before
    ensures Precedes(before, i, j)
  {
    var a, b :| 0 <= a < b < |base| && base[a] == i && base[b] == j;
    var c :| 0 <= c < |before| && before[c] == j;
    assert base[c] == j;
    assert before[a] == i;
  }

  lemma AllInOrder(s: seq<nat>)
    requires NoDup(s)
    ensures InOrder(s, s) && (s != [] ==> InOrder(s, s[1..]))
  {
    forall a, b | 0 <= a < b < |s| ensures Precedes(s, s[a], s[b]) {
    }
    if s != [] {
      forall a, b {:trigger s[1..][a], s[1..][b]} | 0 <= a < b < |s[1..]| ensures Precedes(s, s[1..][a], s[1..][b]) {
        assert s[a + 1] == s[1..][a] && s[b + 1] == s[1..][b];
      }
    }
  }

  /** Blocks have come, and nobody has left. */
  lemma Arrived(t: Turn)
    requires t.before <= t.after && NoDup(t.after) && t.back == {}
    requires forall i :: i in t.touched ==> i !in t.before
    ensures Fair(t)
  {
    AllInOrder(t.before);
    OrderIsKept(t, t.before, t.before);
  }

  lemma FirstIsFirst(s: seq<nat>)
    requires NoDup(s) && s != []
    ensures forall j :: !Precedes(s, j, s[0])
  {
  }

  /** At most the block used least recently has left, or has come back. */
  lemma OldestLeft(t: Turn)
    requires OnlyOldestLeaves(t.before, t.after) && NoDup(t.before) && NoDup(t.after) && t.evicts && t.spared == {}
    requires forall i :: i in t.touched ==> i !in t.before
    requires t.back == Returned(t.before, t.after)
    ensures Fair(t)
  {
    if t.before <= t.after {
      Arrived(t);
    } else {
      AllInOrder(t.before);
      NoDupTail(t.before);
      OrderIsKept(t, t.before, t.before[1..]);
      FirstIsFirst(t.before);
    }
  }

  /** The oldest block, if it was to leave and has come back. */
  function Returned(before: seq<nat>, after: seq<nat>): set<nat> {
    if before <= after || before == [] || before[0] !in after then {} else {before[0]}
  }

  /** One block has left, or has moved to the recent end; others may have come. */
  lemma OneMoved(t: Turn, i: nat)
    requires Without(t.before, i) <= t.after && NoDup(t.before) && NoDup(t.after)
    requires t.touched + t.back == {i}
    ensures KeepsOrder(t) && forall j :: Left(t, j) ==> j == i
  {
    WithoutNoDup(t.before, i);
    WithoutInOrder(t.before, i);
    forall k {:trigger t.after[k]} | |Without(t.before, i)| <= k < |t.after| ensures !Undisturbed(t, t.after[k]) {
      TailIsNew(Without(t.before, i), t.after, k);
    }
    OrderIsKept(t, t.before, Without(t.before, i));
  }

  lemma TailIsNew(kept: seq<nat>, after: seq<nat>, k: nat)
    requires kept <= after && NoDup(after) && |kept| <= k < |after|
    ensures after[k] !in kept
  {
    forall j | 0 <= j < |kept| ensures kept[j] != after[k] { assert after[j] == kept[j]; }
  }

  lemma WithoutInOrder(s: seq<nat>, i: nat)
    requires NoDup(s)
    ensures InOrder(s, Without(s, i))
  {
    if i in s {
      var k :| 0 <= k < |s| && s[k] == i;
      WithoutCuts(s, k);
      var r := Without(s, i);
      forall a, b {:trigger r[a], r[b]} | 0 <= a < b < |r| ensures Precedes(s, r[a], r[b]) {
        assert r[a] == s[if a < k then a else a + 1] && r[b] == s[if b < k then b else b + 1];
      }
    } else {
      AllInOrder(s);
    }
  }

  // ---------------------------------------------------------------- making way for a window

  /** What is left of `base` when only unprotected members have gone, each after all unprotected ones before it. */
  ghost predicate Thinned(base: seq<nat>, kept: seq<nat>, protected: set<nat>) {
    && NoDup(kept) && InOrder(base, kept)
    && forall i :: i in base && i !in kept ==>
         i !in protected && forall j :: Precedes(base, j, i) && j !in protected ==> j !in kept
  }

  lemma OneMoreThinned(base: seq<nat>, kept: seq<nat>, protected: set<nat>)
    requires NoDup(base) && Thinned(base, kept, protected)
    ensures Thinned(base, WithoutOldest(kept, protected), protected)
  {
    if k: nat :| k < |kept| && kept[k] !in protected && forall j :: 0 <= j < k ==> kept[j] in protected {
      VictimMakesWay(kept, protected, k);
      VictimThins(base, kept, protected, k);
    } else {
      SparesAll(kept, protected);
    }
  }

  lemma {:induction false} SparesAll(kept: seq<nat>, protected: set<nat>)
    requires !exists k: nat :: k < |kept| && kept[k] !in protected && forall j :: 0 <= j < k ==> kept[j] in protected
    ensures WithoutOldest(kept, protected) == kept
  {
    if kept != [] {
      assert kept[0] in protected;
      forall k: nat | k < |kept[1..]| && kept[1..][k] !in protected
        ensures exists j :: 0 <= j < k && kept[1..][j] !in protected
      {
        assert kept[k + 1] == kept[1..][k];
        var j :| 0 <= j < k + 1 && kept[j] !in protected;
        assert kept[1..][j - 1] == kept[j];
      }
      SparesAll(kept[1..], protected);
    }
  }

  lemma VictimThins(base: seq<nat>, kept: seq<nat>, protected: set<nat>, k: nat)
    requires NoDup(base) && Thinned(base, kept, protected) && k < |kept| && kept[k] !in protected
    requires forall j :: 0 <= j < k ==> kept[j] in protected
    ensures Thinned(base, Without(kept, kept[k]), protected)
  {
    var rest := Without(kept, kept[k]);
    WithoutNoDup(kept, kept[k]);
    WithoutCuts(kept, k);
    forall a, b {:trigger rest[a], rest[b]} | 0 <= a < b < |rest| ensures Precedes(base, rest[a], rest[b]) {
      assert rest[a] == kept[if a < k then a else a + 1] && rest[b] == kept[if b < k then b else b + 1];
    }
    forall j | Precedes(base, j, kept[k]) && j !in protected ensures j !in kept {
      NotBothWays(base, j, kept[k]);
    }
  }

  lemma NotBothWays(base: seq<nat>, i: nat, j: nat)
    requires NoDup(base) && Precedes(base, i, j)
    ensures !Precedes(base, j, i) && i != j
  {
  }

  lemma {:induction false} SparingThins(base: seq<nat>, protected: set<nat>, n: nat)
    requires NoDup(base)
    ensures Thinned(base, Sparing(base, protected, n), protected)
  {
    if n == 0 {
      AllInOrder(base);
    } else {
      SparingThins(base, protected, n - 1);
      OneMoreThinned(base, Sparing(base, protected, n - 1), protected);
    }
  }

  /** The blocks of `before` that are listed again after those that were kept. */
  function BackAgain(before: seq<nat>, kept: seq<nat>, after: seq<nat>): set<nat> {
    set i | i in before && i !in kept && i in after
  }

  /** Blocks outside the window have made way, the oldest first; after a failure some are back at the recent end. */
  lemma WindowServedFairly(t: Turn, base: seq<nat>, kept: seq<nat>)
    requires t.before <= base && NoDup(base) && NoDup(t.after) && kept <= t.after && Thinned(base, kept, t.spared)
    requires t.evicts && t.touched == {} && t.back == BackAgain(t.before, kept, t.after)
    ensures Fair(t)
  {
    forall k {:trigger t.after[k]} | |kept| <= k < |t.after| ensures !Undisturbed(t, t.after[k]) {
      TailIsNew(kept, t.after, k);
    }
    OrderIsKept(t, base, kept);
    forall i | Left(t, i)
      ensures i !in t.spared && forall j :: Precedes(t.before, j, i) && j !in t.spared ==> Left(t, j) || j in t.back
    {
      assert i in base && i !in kept;
      forall j | Precedes(t.before, j, i) && j !in t.spared ensures Left(t, j) || j in t.back {
        StillPrecedes(t.before, base, j, i);
      }
    }
  }

  lemma StillPrecedes(before: seq<nat>, base: seq<nat>, i: nat, j: nat)
    requires before <= base && Precedes(before, i, j)
    ensures Precedes(base, i, j) && i in before
  {
    var a, b :| 0 <= a < b < |before| && before[a] == i && before[b] == j;
    assert base[a] == i && base[b] == j;
  }

  // ---------------------------------------------------------------- a block is asked for

  /** Block `i` has been used where it is, or brought in, or could not be. */
  ghost predicate AskedFor(s: Tiers, i: nat, after: seq<nat>) {
    && i < |s.entries|
    && if s.entries[i].location == GPU_RESIDENT then Without(s.lru, i) <= after else OnlyOldestLeaves(s.lru, after)
  }

  function BackAfterDemand(s: Tiers, i: nat, after: seq<nat>): set<nat> {
    if i < |s.entries| && s.entries[i].location == GPU_RESIDENT then {} else Returned(s.lru, after)
  }

  lemma DemandIsFair(s: Tiers, t: Turn, i: nat)
    requires Sound(s) && t.before == s.lru && NoDup(t.after) && AskedFor(s, i, t.after)
    requires t.touched == {i} && t.back == BackAfterDemand(s, i, t.after) && t.evicts && t.spared == {}
    ensures Fair(t)
  {
    SoundPendingBelow(s);
    if s.entries[i].location == GPU_RESIDENT {
      OneMoved(t, i);
    } else {
      NotListed(s, i);
      OldestLeft(t);
    }
  }

  /** A lease taken, or taken and given back, or refused, is a use. */
  lemma UseIsAsking(s: Tiers, i: nat)
    requires Sound(s) && i < |s.entries| && s.entries[i].live
    ensures AskedFor(s, i, Without(Used(s, i), i)) && AskedFor(s, i, Without(Used(s, i), i) + [i])
    ensures s.entries[i].location == GPU_RESIDENT ==>
              AskedFor(s, i, Refreshed(s, i)) && (s.entries[i].pins > 0 ==> AskedFor(s, i, s.lru))
  {
    SoundPendingBelow(s);
    if s.entries[i].location == GPU_RESIDENT {
      HitIsAsking(s, i);
      if s.entries[i].pins > 0 { NotListed(s, i); }
    } else {
      MissIsAsking(s, i);
    }
  }

  lemma HitIsAsking(s: Tiers, i: nat)
    requires i < |s.entries| && s.entries[i].location == GPU_RESIDENT && NoDup(s.lru)
    ensures Without(s.lru, i) <= Without(Used(s, i), i)
    ensures Without(s.lru, i) <= Refreshed(s, i) || s.entries[i].pins > 0
    ensures s.entries[i].pins > 0 ==> Without(s.lru, i) == Without(Used(s, i), i)
  {
    WithoutNoDup(s.lru, i);
    if s.entries[i].pins == 0 { WithoutSnoc(Without(s.lru, i), i); }
  }

  lemma MissIsAsking(s: Tiers, i: nat)
    requires Sound(s) && i < |s.entries| && s.entries[i].live && s.entries[i].location != GPU_RESIDENT
    ensures OnlyOldestLeaves(s.lru, Without(Used(s, i), i))
    ensures OnlyOldestLeaves(s.lru, Without(Used(s, i), i) + [i])
  {
    NotListed(s, i);
    CalledLeaves(s, i);
    LeavesWithout(s.lru, Called(s, i), i);
    LeavesGrow(s.lru, Without(Called(s, i), i), Without(Called(s, i), i) + [i]);
  }

  lemma {:induction false} ArrivalsNoDup(entries: seq<Entry>, pending: seq<nat>)
    requires NoDup(pending)
    ensures NoDup(Arrivals(entries, pending, true))
  {
    if pending != [] {
      NoDupTail(pending);
      ArrivalsNoDup(entries, pending[1..]);
      ArrivalsAmong(entries, pending[1..], true);
    }
  }

  lemma ConcatNoDup(a: seq<nat>, b: seq<nat>)
    requires NoDup(a) && NoDup(b) && forall i :: i in b ==> i !in a
    ensures NoDup(a + b)
  {
    forall j, k | 0 <= j < k < |a + b| ensures (a + b)[j] != (a + b)[k] {
      if k >= |a| && j < |a| { assert b[k - |a|] in b && a[j] in a; }
    }
  }

  lemma PolledNoDup(s: Tiers, busy: bool)
    requires Sound(s)
    ensures s.lru <= PolledLru(s, busy) && NoDup(PolledLru(s, busy))
  {
    SoundPendingBelow(s);
    PendingNoDup(s);
    ArrivalsNoDup(s.entries, s.pending);
    ArrivalsAmong(s.entries, s.pending, true);
    ConcatNoDup(s.lru, Arrivals(s.entries, s.pending, true));
  }

  lemma PendingNoDup(s: Tiers)
    requires Sound(s)
    ensures NoDup(s.pending)
  {
    Unfold(s);
  }

  lemma PrefetchIsFair(s: Tiers, u: Tiers, t: Turn, busy: bool)
    requires Sound(s) && Sound(u) && t.before == s.lru && t.after == u.lru && t.evicts && t.touched == {}
    requires MadeWayFor(s, u, t.spared, busy) && t.back == {}
    ensures Fair(t)
  {
    var base, n := PolledLru(s, busy), |u.queued| - |PolledQueue(s, busy)|;
    UnfoldMadeWay(base, u.lru, t.spared, n);
    PolledNoDup(s, busy);
    SparingThins(base, t.spared, n);
    SoundPendingBelow(u);
    WindowServedFairly(t, base, u.lru);
  }

  lemma FailedPrefetchIsFair(s: Tiers, u: Tiers, t: Turn, n: nat)
    requires Sound(s) && Sound(u) && t.before == s.lru && t.after == u.lru && t.evicts && t.touched == {}
    requires Sparing(s.lru, t.spared, n) <= u.lru
    requires t.back == BackAgain(s.lru, Sparing(s.lru, t.spared, n), u.lru)
    ensures Fair(t) && t.back * t.spared == {}
  {
    SoundPendingBelow(s);
    SoundPendingBelow(u);
    SparingThins(s.lru, t.spared, n);
    WindowServedFairly(t, s.lru, Sparing(s.lru, t.spared, n));
  }
}
