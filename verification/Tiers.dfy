/** The storage tiers (src/v3/tier.cpp): slots threaded by a free list on the CPU and NVMe tiers, and borrowed
    from the page pool on the GPU. Both hand out every (slot, generation) once and take it back once. */
module StorageTiers {
  import opened Common
  import opened CacheDirectories
  import opened PagePool
  import opened BlockManagers

  // ---------------------------------------------------------------- a ledger of locations

  /** What has been handed out and what has come back; the live locations are the difference. */
  ghost predicate Ledger(t: TierState, issued: set<Location>, released: set<Location>) {
    && released <= issued
    && (forall l :: l in issued ==> l.slot < |t.generations| && l.generation <= t.generations[l.slot])
    && (forall l :: IsLive(t, l) <==> l in issued && l !in released)
  }

  lemma AllocatedLedger(t: TierState, issued: set<Location>, released: set<Location>, loc: Location)
    requires Ledger(t, issued, released) && CanAllocate(t, loc)
    ensures loc !in issued && Ledger(Allocated(t, loc), issued + {loc}, released)
  {
    var u := Allocated(t, loc);
    forall l ensures IsLive(u, l) <==> l in issued + {loc} && l !in released {
      assert !IsLive(t, l) || l.slot != loc.slot;
      if l.slot != loc.slot { assert IsLive(u, l) <==> IsLive(t, l); }
    }
  }

  lemma FreedLedger(t: TierState, issued: set<Location>, released: set<Location>, loc: Location)
    requires Ledger(t, issued, released) && IsLive(t, loc)
    ensures Ledger(Freed(t, loc.slot), issued, released + {loc})
  {
    var u := Freed(t, loc.slot);
    forall l ensures IsLive(u, l) <==> l in issued && l !in released + {loc} {
      if l.slot == loc.slot && l != loc { assert !IsLive(t, l); }
    }
  }

  // ---------------------------------------------------------------- CPU and NVMe slots

  datatype TierSlot = TierSlot(generation: nat, free: bool, nextFree: int)

  function Generations(slots: seq<TierSlot>): seq<nat> {
    seq(|slots|, i requires 0 <= i < |slots| => slots[i].generation)
  }

  /** The slots handed out: off the free list, and not lost there by a call that failed. */
  ghost function Taken(slots: seq<TierSlot>, lost: set<nat>): set<nat> {
    set i: nat | i < |slots| && !slots[i].free && i !in lost
  }

  ghost function StateOf(slots: seq<TierSlot>, lost: set<nat>): TierState {
    TierState(Generations(slots), Taken(slots, lost))
  }

  /** Following `next_free` from the head visits exactly the free slots, each once. */
  ghost predicate Threaded(slots: seq<TierSlot>, head: int, free: seq<nat>) {
    && NoDup(free)
    && head == (if free == [] then NONE else free[0])
    && (forall k :: 0 <= k < |free| ==> free[k] < |slots|)
    && (forall i: nat :: i < |slots| ==> (slots[i].free <==> i in free))
    && (forall k {:trigger slots[free[k]]} :: 0 <= k < |free| ==>
          slots[free[k]].nextFree == if k + 1 == |free| then NONE else free[k + 1])
  }

  lemma PopThreaded(slots: seq<TierSlot>, head: int, free: seq<nat>)
    requires Threaded(slots, head, free) && free != []
    ensures 0 <= head < |slots| && slots[head].free
    ensures forall s: TierSlot :: !s.free ==> Threaded(slots[head := s], slots[head].nextFree, free[1..])
  {
    assert free[0] in free;
    NoDupTail(free);
    assert slots[free[0]].nextFree == if 1 == |free| then NONE else free[1];
    forall s: TierSlot | !s.free ensures Threaded(slots[head := s], slots[head].nextFree, free[1..]) {
      PopLinks(slots, free, s);
    }
  }

  lemma PopLinks(slots: seq<TierSlot>, free: seq<nat>, s: TierSlot)
    requires free != [] && Threaded(slots, free[0], free)
    ensures free[0] < |slots|
    ensures forall k :: 0 <= k < |free| - 1 ==> free[1..][k] < |slots|
    ensures forall k {:trigger slots[free[0] := s][free[1..][k]]} :: 0 <= k < |free| - 1 ==>
              slots[free[0] := s][free[1..][k]].nextFree == if k + 2 == |free| then NONE else free[1..][k + 1]
  {
    assert free[0] in free;
    var after := slots[free[0] := s];
    forall k | 0 <= k < |free| - 1
      ensures free[1..][k] < |after|
              && after[free[1..][k]].nextFree == if k + 2 == |free| then NONE else free[1..][k + 1]
    {
      assert free[1..][k] == free[k + 1] && free[k + 1] in free && free[k + 1] != free[0];
      assert slots[free[k + 1]].nextFree == if k + 2 == |free| then NONE else free[k + 2];
    }
  }

  lemma PushThreaded(slots: seq<TierSlot>, head: int, free: seq<nat>, id: nat, s: TierSlot)
    requires Threaded(slots, head, free) && id < |slots| && !slots[id].free && s.free && s.nextFree == head
    ensures Threaded(slots[id := s], id, [id] + free)
  {
    var after := slots[id := s];
    var longer := [id] + free;
    assert id !in free;
    forall k | 0 <= k < |longer|
      ensures longer[k] < |after| && after[longer[k]].nextFree == if k + 1 == |longer| then NONE else longer[k + 1]
    {
      if k > 0 {
        assert longer[k] == free[k - 1] && free[k - 1] in free;
        assert slots[free[k - 1]].nextFree == if k == |free| then NONE else free[k];
      }
    }
  }

  lemma StateOfUpdate(slots: seq<TierSlot>, lost: set<nat>, id: nat, s: TierSlot)
    requires id < |slots| && id !in lost
    ensures Generations(slots[id := s]) == Generations(slots)[id := s.generation]
    ensures Taken(slots[id := s], lost) == if s.free then Taken(slots, lost) - {id} else Taken(slots, lost) + {id}
  {
  }

  lemma AllFree(slots: seq<TierSlot>, free: seq<nat>)
    requires |slots| == |free| > 0 && forall i: nat :: i < |free| ==> free[i] == i
    requires forall i :: 0 <= i < |slots| ==> slots[i] == TierSlot(0, true, if i + 1 < |slots| then i + 1 else NONE)
    ensures Threaded(slots, 0, free)
  {
    forall i: nat | i < |slots| ensures i in free { assert free[i] == i; }
  }

  /** Off the free list although the call that took them there failed: their generations are used up. */
  ghost predicate LostOk(slots: seq<TierSlot>, lost: set<nat>) {
    forall i :: i in lost ==> i < |slots| && !slots[i].free && slots[i].generation == MAX64
  }

  ghost predicate Fit(slots: seq<TierSlot>) {
    |slots| <= MAX64 && forall i :: 0 <= i < |slots| ==> slots[i].generation <= MAX64
  }

  /** The list, the counter and the ledger all describe the slots. The counter is a 64-bit one and has gone down once
      for every location that came back a second time. */
  ghost predicate SlotsValid(slots: seq<TierSlot>, head: int, free: seq<nat>, lost: set<nat>, taken: nat, again: nat,
                             issued: set<Location>, released: set<Location>)
  {
    && Threaded(slots, head, free) && LostOk(slots, lost) && Fit(slots)
    && taken == (|Taken(slots, lost)| - again) % (MAX64 + 1) && Ledger(StateOf(slots, lost), issued, released)
  }

  lemma HeadIsFree(slots: seq<TierSlot>, head: int, free: seq<nat>, lost: set<nat>)
    requires Threaded(slots, head, free) && LostOk(slots, lost) && head != NONE
    ensures 0 <= head < |slots| && slots[head].free && head !in lost && head !in Taken(slots, lost)
  {
    PopThreaded(slots, head, free);
  }

  /** Taking the head of the free list. */
  lemma AllocateStep(slots: seq<TierSlot>, head: int, free: seq<nat>, lost: set<nat>, taken: nat, again: nat,
                     issued: set<Location>, released: set<Location>)
    requires SlotsValid(slots, head, free, lost, taken, again, issued, released) && head != NONE
    requires 0 <= head < |slots| ==> slots[head].generation < MAX64
    ensures 0 <= head < |slots|
    ensures var s := TierSlot(slots[head].generation + 1, false, NONE); var loc := Location(head, s.generation);
            && SlotsValid(slots[head := s], slots[head].nextFree, free[1..], lost, (taken + 1) % (MAX64 + 1), again,
                          issued + {loc}, released)
            && CanAllocate(StateOf(slots, lost), loc)
            && StateOf(slots[head := s], lost) == Allocated(StateOf(slots, lost), loc) && loc !in issued
  {
    HeadIsFree(slots, head, free, lost);
    var s := TierSlot(slots[head].generation + 1, false, NONE);
    AllocatedLedger(StateOf(slots, lost), issued, released, Location(head, s.generation));
    StateOfUpdate(slots, lost, head, s);
    HeadLeaves(slots, head, free, lost, s);
    CountWraps(|Taken(slots, lost)| - again, 1);
  }

  lemma HeadLeaves(slots: seq<TierSlot>, head: int, free: seq<nat>, lost: set<nat>, s: TierSlot)
    requires Threaded(slots, head, free) && LostOk(slots, lost) && Fit(slots) && head != NONE
    requires !s.free && s.generation <= MAX64
    ensures 0 <= head < |slots| && Threaded(slots[head := s], slots[head].nextFree, free[1..])
    ensures LostOk(slots[head := s], lost) && Fit(slots[head := s])
    ensures |Taken(slots[head := s], lost)| == |Taken(slots, lost)| + 1
  {
    HeadIsFree(slots, head, free, lost);
    PopThreaded(slots, head, free);
    StateOfUpdate(slots, lost, head, s);
  }

  lemma CountWraps(n: int, step: int)
    ensures (n % (MAX64 + 1) + step) % (MAX64 + 1) == (n + step) % (MAX64 + 1)
  {
  }

  /** Taking a head whose generations are used up: the slot is off the list, and nobody has it. */
  lemma LoseStep(slots: seq<TierSlot>, head: int, free: seq<nat>, lost: set<nat>, taken: nat, again: nat,
                 issued: set<Location>, released: set<Location>)
    requires SlotsValid(slots, head, free, lost, taken, again, issued, released) && head != NONE
    requires 0 <= head < |slots| ==> slots[head].generation == MAX64
    ensures 0 <= head < |slots| && head !in lost && head !in StateOf(slots, lost).taken
    ensures var s := TierSlot(MAX64, false, NONE);
            && SlotsValid(slots[head := s], slots[head].nextFree, free[1..], lost + {head}, taken, again, issued,
                          released)
            && StateOf(slots[head := s], lost + {head}) == StateOf(slots, lost)
  {
    HeadIsFree(slots, head, free, lost);
    PopThreaded(slots, head, free);
    var s := TierSlot(MAX64, false, NONE);
    assert Generations(slots[head := s]) == Generations(slots);
    assert Taken(slots[head := s], lost + {head}) == Taken(slots, lost);
  }

  /** Putting a taken slot back at the head. */
  lemma ReleaseStep(slots: seq<TierSlot>, head: int, free: seq<nat>, lost: set<nat>, taken: nat, again: nat,
                    issued: set<Location>, released: set<Location>, loc: Location)
    requires SlotsValid(slots, head, free, lost, taken, again, issued, released) && IsLive(StateOf(slots, lost), loc)
    ensures var s := slots[loc.slot].(free := true, nextFree := head);
            && SlotsValid(slots[loc.slot := s], loc.slot, [loc.slot] + free, lost, (taken - 1) % (MAX64 + 1), again,
                          issued, released + {loc})
            && StateOf(slots[loc.slot := s], lost) == Freed(StateOf(slots, lost), loc.slot)
            && loc in issued && loc !in released
  {
    assert loc.slot in Taken(slots, lost);
    var s := slots[loc.slot].(free := true, nextFree := head);
    FreedLedger(StateOf(slots, lost), issued, released, loc);
    StateOfUpdate(slots, lost, loc.slot, s);
    PushThreaded(slots, head, free, loc.slot, s);
    assert Generations(slots[loc.slot := s]) == Generations(slots);
    CountWraps(|Taken(slots, lost)| - again, -1);
  }

  /** Putting a lost slot back: the counter goes down for a slot it has not gone up for. */
  lemma RegainStep(slots: seq<TierSlot>, head: int, free: seq<nat>, lost: set<nat>, taken: nat, again: nat,
                   issued: set<Location>, released: set<Location>, id: nat)
    requires SlotsValid(slots, head, free, lost, taken, again, issued, released) && id in lost
    ensures id < |slots|
    ensures var s := slots[id].(free := true, nextFree := head);
            && SlotsValid(slots[id := s], id, [id] + free, lost - {id}, (taken - 1) % (MAX64 + 1), again + 1, issued,
                          released)
            && StateOf(slots[id := s], lost - {id}) == StateOf(slots, lost)
  {
    var s := slots[id].(free := true, nextFree := head);
    PushThreaded(slots, head, free, id, s);
    assert Generations(slots[id := s]) == Generations(slots);
    assert Taken(slots[id := s], lost - {id}) == Taken(slots, lost);
    CountWraps(|Taken(slots, lost)| - again, -1);
  }

  /** One way or the other. */
  lemma BackStep(slots: seq<TierSlot>, head: int, free: seq<nat>, lost: set<nat>, taken: nat, again: nat,
                 issued: set<Location>, released: set<Location>, loc: Location)
    requires SlotsValid(slots, head, free, lost, taken, again, issued, released)
    requires loc.slot !in lost ==> IsLive(StateOf(slots, lost), loc)
    ensures loc.slot < |slots|
    ensures var s := slots[loc.slot].(free := true, nextFree := head); var wasLost := loc.slot in lost;
            && SlotsValid(slots[loc.slot := s], loc.slot, [loc.slot] + free, lost - {loc.slot},
                          (taken - 1) % (MAX64 + 1), if wasLost then again + 1 else again, issued,
                          if wasLost then released else released + {loc})
            && StateOf(slots[loc.slot := s], lost - {loc.slot})
               == (if wasLost then StateOf(slots, lost) else Freed(StateOf(slots, lost), loc.slot))
            && (!wasLost ==> lost - {loc.slot} == lost)
  {
    if loc.slot in lost {
      RegainStep(slots, head, free, lost, taken, again, issued, released, loc.slot);
    } else {
      assert lost - {loc.slot} == lost;
      ReleaseStep(slots, head, free, lost, taken, again, issued, released, loc);
    }
  }

  /** Slot `i`, which nobody has, is at its last generation. */
  predicate WornOut(t: TierState, i: nat) {
    i < |t.generations| && i !in t.taken && t.generations[i] == MAX64
  }

  ghost predicate LosesOne(t: TierState, before: set<nat>, after: set<nat>, i: nat) {
    WornOut(t, i) && i !in before && after == before + {i}
  }

  lemma ListEmpty(slots: seq<TierSlot>, head: int, free: seq<nat>, lost: set<nat>)
    requires Threaded(slots, head, free) && LostOk(slots, lost)
    ensures head == NONE <==> NoneLeft(StateOf(slots, lost), lost)
  {
    if head != NONE {
      HeadIsFree(slots, head, free, lost);
      assert head < |StateOf(slots, lost).generations|;
    }
  }

  class SlotTier {
    var slots: seq<TierSlot>
    var freeHead: int
    var taken: nat
    ghost var freeList: seq<nat>
    ghost var lost: set<nat>
    ghost var again: nat
    ghost var issued: set<Location>
    ghost var released: set<Location>

    ghost function View(): TierState
      reads this
    {
      StateOf(slots, lost)
    }

    /** Folded, all but the count. */
    ghost predicate Valid()
      reads this
    {
      (again == 0 ==> taken == |View().taken|) && forall k {:trigger Unseal(k)} ::
        k == 0 ==> SlotsValid(slots, freeHead, freeList, lost, taken, again, issued, released)
    }

    lemma Unfold()
      requires Valid()
      ensures SlotsValid(slots, freeHead, freeList, lost, taken, again, issued, released)
    {
      assert Unseal(0);
    }

    lemma Fold()
      requires SlotsValid(slots, freeHead, freeList, lost, taken, again, issued, released)
      ensures Valid()
    {
      TakenFits(slots, lost);
    }

    /** Slots at their last generation that nobody has. */
    ghost function Worn(): set<nat>
      reads this
    {
      set i: nat | i < |View().generations| && WornOut(View(), i)
    }

    /** Only worn-out slots are lost. */
    lemma LostIsWornOut(i: nat)
      requires Valid() && i in lost
      ensures WornOut(View(), i)
    {
      Unfold();
    }

    constructor (chunkSlots: nat)
      requires 0 < chunkSlots <= MAX64
      ensures Valid() && issued == {} && released == {} && View() == TierState(seq(chunkSlots, _ => 0), {})
      ensures lost == {} && again == 0
    {
      slots := seq(chunkSlots, i => TierSlot(0, true, if i + 1 < chunkSlots then i + 1 else NONE));
      freeHead, taken := 0, 0;
      freeList := seq(chunkSlots, i => i);
      lost, again, issued, released := {}, 0, {}, {};
      new;
      AllFree(slots, freeList);
      assert Taken(slots, lost) == {};
      assert Generations(slots) == seq(chunkSlots, _ => 0);
      Fold();
    }

    /** A location never handed out before; refused for lack of room exactly when the free list is empty. A slot whose
        generations are used up comes off the list before the refusal, and stays off. */
    method Allocate() returns (r: Result<Location>)
      requires Valid()
      modifies this
      ensures Valid() && again == old(again) && released == old(released)
      ensures r.Ok? ==> CanAllocate(old(View()), r.value) && View() == Allocated(old(View()), r.value)
      ensures r.Ok? ==> r.value !in old(issued) && issued == old(issued) + {r.value} && lost == old(lost)
                        && r.value.generation <= MAX64
      ensures r.Err? ==> View() == old(View()) && issued == old(issued)
                         && (r.error == CapacityError || r.error == OverflowError)
      ensures r == Err(CapacityError) <==> old(NoneLeft(View(), lost))
      ensures r == Err(CapacityError) ==> lost == old(lost)
      ensures r == Err(OverflowError) ==> old(Worn()) != {} && exists i :: LosesOne(old(View()), old(lost), lost, i)
    {
      Unfold();
      ListEmpty(slots, freeHead, freeList, lost);
      if freeHead == NONE { return Err(CapacityError); }
      HeadIsFree(slots, freeHead, freeList, lost);
      if slots[freeHead].generation == MAX64 {
        ghost var worn := Worn();
        LoseHead();
        ghost var i :| LosesOne(View(), old(lost), lost, i);
        assert i in worn;
        r := Err(OverflowError);
      } else {
        var loc := TakeHead();
        r := Ok(loc);
      }
    }

    method TakeHead() returns (loc: Location)
      requires Valid() && 0 <= freeHead < |slots| && slots[freeHead].generation < MAX64
      modifies this
      ensures Valid() && again == old(again) && released == old(released) && lost == old(lost)
      ensures CanAllocate(old(View()), loc) && View() == Allocated(old(View()), loc) && loc.generation <= MAX64
      ensures loc !in old(issued) && issued == old(issued) + {loc}
    {
      Unfold();
      AllocateStep(slots, freeHead, freeList, lost, taken, again, issued, released);
      var id: nat, s := freeHead, TierSlot(slots[freeHead].generation + 1, false, NONE);
      loc := Location(id, s.generation);
      freeHead, freeList, slots := slots[id].nextFree, freeList[1..], slots[id := s];
      taken, issued := (taken + 1) % (MAX64 + 1), issued + {loc};
      Fold();
    }

    method LoseHead()
      requires Valid() && 0 <= freeHead < |slots| && slots[freeHead].generation == MAX64
      modifies this
      ensures Valid() && again == old(again) && released == old(released) && issued == old(issued)
      ensures View() == old(View()) && exists i :: LosesOne(View(), old(lost), lost, i)
    {
      Unfold();
      LoseStep(slots, freeHead, freeList, lost, taken, again, issued, released);
      var id: nat := freeHead;
      assert LosesOne(View(), lost, lost + {id}, id);
      freeHead, freeList, lost := slots[id].nextFree, freeList[1..], lost + {id};
      slots := slots[id := TierSlot(MAX64, false, NONE)];
      Fold();
    }

    /** Accepted exactly when the location was handed out and has not come back, unless its slot is lost: the last
        location of a lost slot is accepted again, and the counter goes down a second time. */
    method Release(loc: Location) returns (r: Result<()>)
      requires Valid()
      modifies this
      ensures Valid() && issued == old(issued)
      ensures r.Ok? <==> IsLive(old(View()), loc) || (loc.slot in old(lost) && loc.generation == MAX64)
      ensures IsLive(old(View()), loc) <==> loc in old(issued) && loc !in old(released)
      ensures IsLive(old(View()), loc) ==>
                View() == Freed(old(View()), loc.slot) && released == old(released) + {loc}
                && lost == old(lost) && again == old(again)
      ensures r.Ok? && !IsLive(old(View()), loc) ==>
                View() == old(View()) && released == old(released)
                && lost == old(lost) - {loc.slot} && again == old(again) + 1
      ensures r.Ok? ==> taken == (old(taken) - 1) % (MAX64 + 1)
      ensures r.Err? ==> r.error == InvalidArgument && View() == old(View()) && released == old(released)
                         && lost == old(lost) && again == old(again) && taken == old(taken)
    {
      Unfold();
      if loc.slot >= |slots| || slots[loc.slot].generation != loc.generation || slots[loc.slot].free {
        return Err(InvalidArgument);
      }
      PutBack(loc);
      r := Ok(());
    }

    method PutBack(loc: Location)
      requires Valid() && (loc.slot !in lost ==> IsLive(View(), loc))
      modifies this
      ensures Valid() && issued == old(issued) && taken == (old(taken) - 1) % (MAX64 + 1)
      ensures lost == old(lost) - {loc.slot} && (loc.slot !in old(lost) ==> lost == old(lost))
      ensures View() == if loc.slot in old(lost) then old(View()) else Freed(old(View()), loc.slot)
      ensures released == if loc.slot in old(lost) then old(released) else old(released) + {loc}
      ensures again == if loc.slot in old(lost) then old(again) + 1 else old(again)
    {
      Unfold();
      ghost var wasLost := loc.slot in lost;
      BackStep(slots, freeHead, freeList, lost, taken, again, issued, released, loc);
      if wasLost { again := again + 1; } else { released := released + {loc}; }
      lost := lost - {loc.slot};
      taken := (taken - 1) % (MAX64 + 1);
      slots := slots[loc.slot := slots[loc.slot].(free := true, nextFree := freeHead)];
      freeHead, freeList := loc.slot, [loc.slot] + freeList;
      Fold();
    }

    method Available() returns (n: nat)
      requires Valid()
      ensures again == 0 ==> n + taken == |View().generations|
    {
      Unfold();
      TakenFits(slots, lost);
      n := (|slots| - taken) % (MAX64 + 1);
    }
  }

  lemma TakenFits(slots: seq<TierSlot>, lost: set<nat>)
    ensures |Taken(slots, lost)| <= |slots|
  {
    TokenTables.SubsetSize(Taken(slots, lost), Below(|slots|));
  }

  /** A location can come back twice: a tier of one slot at its last generation takes the slot off its list before it
      refuses it, after which the location that came back long ago is accepted, and the count of slots in use is 2^64 -
      1. */
  method LastLocationTwice(tier: SlotTier) returns (refused: Result<Location>, accepted: Result<()>)
    requires tier.Valid() && tier.View() == TierState([MAX64], {}) && tier.lost == {} && tier.again == 0
    modifies tier
    ensures tier.Valid() && refused == Err(OverflowError) && accepted.Ok?
    ensures Location(0, MAX64) !in old(tier.issued) - old(tier.released)
    ensures tier.View() == old(tier.View()) && tier.taken == MAX64
  {
    tier.Unfold();
    assert !IsLive(tier.View(), Location(0, MAX64)) && 0 !in tier.View().taken;
    refused := tier.Allocate();
    assert tier.lost == {0} && tier.taken == |tier.View().taken| == 0;
    assert Location(0, MAX64).slot in tier.lost;
    accepted := tier.Release(Location(0, MAX64));
  }

  // ---------------------------------------------------------------- GPU slots

  /** The tier holds a reference to each of its pages; `latest` are the generations of its own latest allocations. The
      pool may have other holders. */
  ghost predicate Borrows(p: Pool, latest: seq<nat>, mine: set<nat>) {
    && |latest| == |p.pages| <= MAX64
    && (forall i: nat :: i < |latest| ==> latest[i] <= p.pages[i].generation)
    && (forall i :: i in mine ==> i < |latest| && p.pages[i].refs > 0 && latest[i] == p.pages[i].generation)
  }

  /** Pages in other hands only. */
  ghost function Foreign(p: Pool, mine: set<nat>): set<nat> {
    set i: nat | i < |p.pages| && p.pages[i].refs > 0 && i !in mine
  }

  ghost function WornPages(p: Pool): set<nat> {
    set i: nat | i < |p.pages| && p.pages[i].refs == 0 && p.pages[i].generation == MAX64
  }

  /** What others may do to the pool: not release pages they do not hold, and never turn back a generation. */
  ghost predicate LeavesAlone(p: Pool, q: Pool, mine: set<nat>) {
    && |q.pages| == |p.pages|
    && forall i: nat :: i < |p.pages| ==>
         p.pages[i].generation <= q.pages[i].generation
         && (i in mine ==> q.pages[i].refs > 0 && q.pages[i].generation == p.pages[i].generation)
  }

  ghost predicate PagesValid(p: Pool, latest: seq<nat>, mine: set<nat>, taken: nat, again: nat, issued: set<Location>,
                             released: set<Location>)
  {
    && Borrows(p, latest, mine) && taken == (|mine| - again) % (MAX64 + 1)
    && Ledger(TierState(latest, mine), issued, released)
  }

  lemma HeadOfPool(p: Pool)
    requires Inv(p)
    ensures PagePool.Allocate(p) == Err(CapacityError) <==> forall i :: 0 <= i < |p.pages| ==> p.pages[i].refs > 0
    ensures match PagePool.Allocate(p)
            case Err(e) => e == CapacityError || (e == OverflowError && WornPages(p) != {})
            case Ok(out) =>
              && out.0.id < |p.pages| && p.pages[out.0.id].refs == 0 && p.pages[out.0.id].generation < out.0.generation
              && out.1.pages == p.pages[out.0.id := Page(out.0.generation, 1, false, false, [])]
  {
    AllocateOutcome(p);
    if p.free != [] || p.idle != [] {
      var id := if p.free != [] then p.free[0] else p.idle[0];
      assert if p.free != [] then p.free[0] in p.free else p.idle[0] in p.idle;
      assert p.pages[id].refs == 0;
      if p.pages[id].generation == MAX64 { assert id in WornPages(p); }
    }
  }

  /** The pool, now `q`, has just handed out this page. */
  ghost predicate Handed(q: Pool, latest: seq<nat>, mine: set<nat>, taken: nat, again: nat, issued: set<Location>,
                         released: set<Location>, loc: Location)
  {
    && CanAllocate(TierState(latest, mine), loc) && loc !in issued
    && var t := Allocated(TierState(latest, mine), loc);
       PagesValid(q, t.generations, t.taken, (taken + 1) % (MAX64 + 1), again, issued + {loc}, released)
  }

  lemma AllInHands(p: Pool, latest: seq<nat>, mine: set<nat>)
    requires Borrows(p, latest, mine)
    ensures NoneLeft(TierState(latest, mine), Foreign(p, mine)) <==> forall i ::
              0 <= i < |p.pages| ==> p.pages[i].refs > 0
  {
    assert forall i: nat :: i < |p.pages| ==> (p.pages[i].refs > 0 <==> i in mine || i in Foreign(p, mine));
  }

  lemma Borrowed(p: Pool, latest: seq<nat>, mine: set<nat>, h: Handle, q: Pool)
    requires Borrows(p, latest, mine) && h.id < |p.pages| && p.pages[h.id].refs == 0
    requires p.pages[h.id].generation < h.generation
    requires q.pages == p.pages[h.id := Page(h.generation, 1, false, false, [])]
    ensures h.id !in mine && CanAllocate(TierState(latest, mine), Location(h.id, h.generation))
    ensures Borrows(q, latest[h.id := h.generation], mine + {h.id}) && |mine + {h.id}| == |mine| + 1
  {
  }

  /** One reference less to page `i`, whoever had it. */
  lemma OneLess(p: Pool, latest: seq<nat>, mine: set<nat>, i: nat, q: Pool)
    requires Borrows(p, latest, mine) && |q.pages| == |p.pages|
    requires forall j :: 0 <= j < |p.pages| ==> q.pages[j].generation == p.pages[j].generation
    requires forall j :: 0 <= j < |p.pages| && j != i ==> q.pages[j] == p.pages[j]
    ensures Borrows(q, latest, mine - {i})
    ensures i !in mine ==> mine - {i} == mine
    ensures i in mine ==> |mine - {i}| == |mine| - 1
  {
  }

  lemma ReleaseAccepts(p: Pool, latest: seq<nat>, mine: set<nat>, loc: Location)
    requires Inv(p) && Borrows(p, latest, mine)
    ensures PagePool.Release(p, Handle(loc.slot, loc.generation)).Ok? <==>
              IsLive(TierState(latest, mine), loc)
              || (loc.slot in Foreign(p, mine) && p.pages[loc.slot].generation == loc.generation)
  {
    if loc.slot < |p.pages| && p.pages[loc.slot].refs > 0 { ActiveIsNotFree(p, loc.slot); }
  }

  /** An allocation, for the pool, for the tier's slots and for the ledger. */
  lemma PoolTakes(p: Pool, latest: seq<nat>, mine: set<nat>, taken: nat, again: nat, issued: set<Location>,
                  released: set<Location>)
    requires Inv(p) && PagesValid(p, latest, mine, taken, again, issued, released)
    ensures PagePool.Allocate(p) == Err(CapacityError) <==> NoneLeft(TierState(latest, mine), Foreign(p, mine))
    ensures match PagePool.Allocate(p)
            case Err(e) => e == CapacityError || (e == OverflowError && WornPages(p) != {})
            case Ok(out) =>
              Handed(out.1, latest, mine, taken, again, issued, released, Location(out.0.id, out.0.generation))
              && out.0.id !in Foreign(p, mine)
  {
    HeadOfPool(p);
    AllInHands(p, latest, mine);
    if PagePool.Allocate(p).Ok? {
      var out := PagePool.Allocate(p).value;
      PageTaken(p, out.1, latest, mine, taken, again, issued, released, out.0);
    }
  }

  lemma PageTaken(p: Pool, q: Pool, latest: seq<nat>, mine: set<nat>, taken: nat, again: nat, issued: set<Location>,
                  released: set<Location>, h: Handle)
    requires PagesValid(p, latest, mine, taken, again, issued, released) && h.id < |p.pages| && p.pages[h.id].refs == 0
    requires p.pages[h.id].generation < h.generation
    requires q.pages == p.pages[h.id := Page(h.generation, 1, false, false, [])]
    ensures Handed(q, latest, mine, taken, again, issued, released, Location(h.id, h.generation))
  {
    Borrowed(p, latest, mine, h, q);
    AllocatedLedger(TierState(latest, mine), issued, released, Location(h.id, h.generation));
    CountWraps(|mine| - again, 1);
  }

  /** A release, likewise. The pool cannot tell the tier's references from anybody else's. */
  lemma PoolReleases(p: Pool, latest: seq<nat>, mine: set<nat>, taken: nat, again: nat, issued: set<Location>,
                     released: set<Location>, loc: Location)
    requires Inv(p) && PagesValid(p, latest, mine, taken, again, issued, released)
    ensures var r, t := PagePool.Release(p, Handle(loc.slot, loc.generation)), TierState(latest, mine);
            && (r.Ok? <==> IsLive(t, loc)
                           || (loc.slot in Foreign(p, mine) && p.pages[loc.slot].generation == loc.generation))
            && (IsLive(t, loc) ==>
                  PagesValid(r.value, latest, mine - {loc.slot}, (taken - 1) % (MAX64 + 1), again, issued,
                             released + {loc}))
            && (r.Ok? && !IsLive(t, loc) ==>
                  PagesValid(r.value, latest, mine, (taken - 1) % (MAX64 + 1), again + 1, issued, released))
  {
    var r := PagePool.Release(p, Handle(loc.slot, loc.generation));
    ReleaseAccepts(p, latest, mine, loc);
    if r.Ok? { PageReturned(p, r.value, latest, mine, taken, again, issued, released, loc); }
  }

  lemma PageReturned(p: Pool, q: Pool, latest: seq<nat>, mine: set<nat>, taken: nat, again: nat, issued: set<Location>,
                     released: set<Location>, loc: Location)
    requires PagesValid(p, latest, mine, taken, again, issued, released) && |q.pages| == |p.pages|
    requires IsLive(TierState(latest, mine), loc) || loc.slot !in mine
    requires forall j :: 0 <= j < |p.pages| ==> q.pages[j].generation == p.pages[j].generation
    requires forall j :: 0 <= j < |p.pages| && j != loc.slot ==> q.pages[j] == p.pages[j]
    ensures if loc.slot in mine
            then PagesValid(q, latest, mine - {loc.slot}, (taken - 1) % (MAX64 + 1), again, issued, released + {loc})
            else PagesValid(q, latest, mine, (taken - 1) % (MAX64 + 1), again + 1, issued, released)
  {
    CountWraps(|mine| - again, -1);
    OneLess(p, latest, mine, loc.slot, q);
    if loc.slot in mine { FreedLedger(TierState(latest, mine), issued, released, loc); }
  }

  lemma ActiveIsNotFree(p: Pool, i: nat)
    requires Inv(p) && i < |p.pages| && p.pages[i].refs > 0
    ensures !p.pages[i].free
  {
    Partition(p);
  }

  class GpuTier {
    const pool: BlockManager
    var taken: nat
    ghost var latest: seq<nat>
    ghost var mine: set<nat>
    ghost var again: nat
    ghost var issued: set<Location>
    ghost var released: set<Location>

    ghost function View(): TierState
      reads this
    {
      TierState(latest, mine)
    }

    ghost function Others(): set<nat>
      reads this, pool, pool.idleLru
    {
      Foreign(pool.View(), mine)
    }

    /** Folded, all but the count. */
    ghost predicate Valid()
      reads this, pool, pool.idleLru
    {
      pool.Valid() && (again == 0 ==> taken == |mine|) && forall k {:trigger Unseal(k)} ::
        k == 0 ==> PagesValid(pool.View(), latest, mine, taken, again, issued, released)
    }

    lemma Unfold()
      requires Valid()
      ensures PagesValid(pool.View(), latest, mine, taken, again, issued, released)
    {
      assert Unseal(0);
    }

    lemma Fold()
      requires pool.Valid() && PagesValid(pool.View(), latest, mine, taken, again, issued, released)
      ensures Valid()
    {
      TokenTables.SubsetSize(mine, Below(|latest|));
    }

    /** What other holders do with references of their own leaves the tier as it is. */
    twostate lemma OthersAct()
      requires old(Valid()) && unchanged(this) && pool.Valid() && LeavesAlone(old(pool.View()), pool.View(), mine)
      ensures Valid()
    {
      assert Unseal(0);
      Fold();
    }

    constructor (pool: BlockManager)
      requires pool.Valid() && |pool.slots| <= MAX64
      ensures Valid() && this.pool == pool && issued == {} && released == {} && again == 0
      ensures View() == TierState(seq(|pool.slots|, _ => 0), {})
    {
      this.pool := pool;
      taken, again := 0, 0;
      latest, mine := seq(|pool.slots|, _ => 0), {};
      issued, released := {}, {};
      new;
      pool.Unfold();
      Fold();
    }

    /** Refused for lack of room exactly when every page is in somebody's hands. */
    method Allocate() returns (r: Result<Location>)
      requires Valid()
      modifies this, pool, pool.idleLru
      ensures Valid() && again == old(again) && released == old(released)
      ensures r.Err? ==> View() == old(View()) && issued == old(issued) && pool.View() == old(pool.View())
                         && (r.error == CapacityError || r.error == OverflowError)
      ensures r == Err(CapacityError) <==> old(NoneLeft(View(), Others()))
      ensures r == Err(OverflowError) ==> old(WornPages(pool.View())) != {}
      ensures r.Ok? ==> CanAllocate(old(View()), r.value) && View() == Allocated(old(View()), r.value)
      ensures r.Ok? ==> r.value !in old(issued) && issued == old(issued) + {r.value} && r.value.slot !in old(Others())
    {
      Unfold();
      PoolTakes(pool.View(), latest, mine, taken, again, issued, released);
      var h := pool.Allocate();
      if h.Ok? {
        r := Ok(Location(h.value.id, h.value.generation));
        Enter(r.value);
      } else {
        r := Err(h.error);
      }
    }

    method Enter(loc: Location)
      requires pool.Valid() && Handed(pool.View(), latest, mine, taken, again, issued, released, loc)
      modifies `taken, `latest, `mine, `issued
      ensures Valid() && View() == Allocated(old(View()), loc) && issued == old(issued) + {loc}
    {
      ghost var t := Allocated(View(), loc);
      taken, latest, mine, issued := (taken + 1) % (MAX64 + 1), t.generations, t.taken, issued + {loc};
      Fold();
    }

    /** Accepted exactly when the location was handed out and has not come back, unless another holder has the page
        under that generation: it then loses one of its references. */
    method Release(loc: Location) returns (r: Result<()>)
      requires Valid()
      modifies this, pool, pool.idleLru
      ensures Valid() && issued == old(issued)
      ensures r.Ok? <==>
                IsLive(old(View()), loc)
                || (loc.slot in old(Others()) && old(pool.View()).pages[loc.slot].generation == loc.generation)
      ensures IsLive(old(View()), loc) <==> loc in old(issued) && loc !in old(released)
      ensures IsLive(old(View()), loc) ==>
                View() == Freed(old(View()), loc.slot) && released == old(released) + {loc} && again == old(again)
      ensures !IsLive(old(View()), loc) ==>
                View() == old(View()) && released == old(released)
                && again == if r.Ok? then old(again) + 1 else old(again)
      ensures match PagePool.Release(old(pool.View()), Handle(loc.slot, loc.generation))
              case Ok(p) => r.Ok? && pool.View() == p
              case Err(_) => r == Err(InvalidArgument) && pool.View() == old(pool.View())
    {
      Unfold();
      PoolReleases(pool.View(), latest, mine, taken, again, issued, released, loc);
      ghost var own := IsLive(View(), loc);
      r := pool.Release(Handle(loc.slot, loc.generation));
      if r.Ok? {
        taken := (taken - 1) % (MAX64 + 1);
        if own { mine, released := mine - {loc.slot}, released + {loc}; } else { again := again + 1; }
      }
      Fold();
    }

    method Available() returns (n: nat)
      requires Valid()
      ensures n + |mine| + |Others()| == |latest| == |pool.slots|
    {
      Unfold();
      Partition(pool.View());
      assert ActiveSet(pool.View().pages) == mine + Others();
      var s := pool.GetStats();
      n := s.free + s.cachedIdle;
    }
  }
}
