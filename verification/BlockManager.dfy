/** The allocator and prefix cache (src/block_manager.cpp): slots threaded by an intrusive free list,
    an intrusive LRU of idle cached slots and a hash-bucket index, implementing the pool of
    PagePool for any hasher whatsoever. */
module BlockManagers {
  import opened Common
  import opened IndexLinkedList
  import opened PagePool
  import opened TokenTables

  datatype Slot = Slot(generation: nat, refs: nat, free: bool, cached: bool,
                       prefix: Tokens, hash: nat, nextFree: int)

  function PageOf(s: Slot): Page {
    Page(s.generation, s.refs, s.free, s.cached, s.prefix)
  }

  function PagesOf(slots: seq<Slot>): seq<Page> {
    seq(|slots|, i requires 0 <= i < |slots| => PageOf(slots[i]))
  }

  lemma PagesOfUpdate(slots: seq<Slot>, id: nat, s: Slot)
    requires id < |slots|
    ensures PagesOf(slots[id := s]) == PagesOf(slots)[id := PageOf(s)]
  {
  }

  // ---------------------------------------------------------------- representation

  /** The `next_free` links spell out `free`, head first. */
  ghost predicate FreeChain(slots: seq<Slot>, freeHead: int, free: seq<nat>) {
    && freeHead == (if free == [] then NONE else free[0])
    && (forall k :: 0 <= k < |free| ==> free[k] < |slots|)
    && (forall k {:trigger slots[free[k]]} :: 0 <= k < |free| ==>
          slots[free[k]].nextFree == if k + 1 == |free| then NONE else free[k + 1])
  }

  /** Slots outside the free list may change without disturbing it. */
  lemma ChainFrame(slots: seq<Slot>, freeHead: int, free: seq<nat>, id: nat, s: Slot)
    requires FreeChain(slots, freeHead, free) && id < |slots|
    requires id !in free || s.nextFree == slots[id].nextFree
    ensures FreeChain(slots[id := s], freeHead, free)
  {
  }

  lemma ChainPop(slots: seq<Slot>, freeHead: int, free: seq<nat>)
    requires FreeChain(slots, freeHead, free) && NoDup(free) && free != []
    ensures 0 <= freeHead < |slots|
    ensures FreeChain(slots[freeHead := slots[freeHead].(nextFree := NONE)], slots[freeHead].nextFree, free[1..])
  {
    NoDupTail(free);
    assert slots[free[0]].nextFree == if 1 == |free| then NONE else free[1];
    var after := slots[freeHead := slots[freeHead].(nextFree := NONE)];
    var rest := free[1..];
    forall k | 0 <= k < |rest|
      ensures rest[k] < |after| && after[rest[k]].nextFree == if k + 1 == |rest| then NONE else rest[k + 1]
    {
      assert rest[k] == free[k + 1] != free[0];
      assert slots[free[k + 1]].nextFree == if k + 2 == |free| then NONE else free[k + 2];
    }
  }

  lemma ChainPush(slots: seq<Slot>, freeHead: int, free: seq<nat>, id: nat, s: Slot)
    requires FreeChain(slots, freeHead, free) && id < |slots| && id !in free && s.nextFree == freeHead
    ensures FreeChain(slots[id := s], id, [id] + free)
  {
    var after := slots[id := s];
    var longer := [id] + free;
    forall k | 0 <= k < |longer|
      ensures longer[k] < |after| && after[longer[k]].nextFree == if k + 1 == |longer| then NONE else longer[k + 1]
    {
      if k > 0 {
        assert longer[k] == free[k - 1];
        assert slots[free[k - 1]].nextFree == if k == |free| then NONE else free[k];
      }
    }
  }

  ghost predicate BucketOk(slots: seq<Slot>, hash: nat, bucket: seq<nat>) {
    && bucket != [] && NoDup(bucket)
    && forall k :: 0 <= k < |bucket| ==>
         bucket[k] < |slots| && slots[bucket[k]].cached && slots[bucket[k]].hash == hash
  }

  ghost predicate Indexed(slots: seq<Slot>, index: map<nat, seq<nat>>, hasher: Tokens -> nat, id: nat)
    requires id < |slots|
  {
    && slots[id].hash == hasher(slots[id].prefix)
    && slots[id].hash in index && id in index[slots[id].hash]
  }

  /** The buckets hold exactly the cached slots, each under the hash of its prefix. */
  ghost predicate IndexOk(slots: seq<Slot>, index: map<nat, seq<nat>>, hasher: Tokens -> nat) {
    && (forall h :: h in index ==> BucketOk(slots, h, index[h]))
    && (forall id :: 0 <= id < |slots| && slots[id].cached ==> Indexed(slots, index, hasher, id))
  }

  /** Changes that leave a slot's publication alone leave the index alone. */
  lemma IndexFrame(slots: seq<Slot>, index: map<nat, seq<nat>>, hasher: Tokens -> nat, id: nat, s: Slot)
    requires IndexOk(slots, index, hasher) && id < |slots|
    requires s.cached == slots[id].cached && s.prefix == slots[id].prefix && s.hash == slots[id].hash
    ensures IndexOk(slots[id := s], index, hasher)
  {
    var after := slots[id := s];
    forall h | h in index ensures BucketOk(after, h, index[h]) {
      assert BucketOk(slots, h, index[h]);
    }
    forall i | 0 <= i < |after| && after[i].cached ensures Indexed(after, index, hasher, i) {
      assert Indexed(slots, index, hasher, i);
    }
  }

  /** Dropping a cached slot from its bucket, and an emptied bucket from the index. */
  function Unindexed(index: map<nat, seq<nat>>, hash: nat, id: nat): map<nat, seq<nat>>
    requires hash in index
  {
    var bucket := Without(index[hash], id);
    if bucket == [] then index - {hash} else index[hash := bucket]
  }

  lemma UnindexKeeps(slots: seq<Slot>, index: map<nat, seq<nat>>, hasher: Tokens -> nat, id: nat)
    requires IndexOk(slots, index, hasher) && id < |slots| && slots[id].cached
    ensures Indexed(slots, index, hasher, id)
    ensures IndexOk(slots[id := slots[id].(cached := false, prefix := [])],
                    Unindexed(index, slots[id].hash, id), hasher)
  {
    var after := slots[id := slots[id].(cached := false, prefix := [])];
    var hash := slots[id].hash;
    var bucket := Without(index[hash], id);
    WithoutNoDup(index[hash], id);
    assert forall k :: 0 <= k < |bucket| ==> bucket[k] in index[hash] && bucket[k] != id;
    var index' := Unindexed(index, hash, id);
    forall h | h in index' ensures BucketOk(after, h, index'[h]) {
      assert BucketOk(slots, h, index[h]);
    }
    forall i | 0 <= i < |after| && after[i].cached ensures Indexed(after, index', hasher, i) {
      assert Indexed(slots, index, hasher, i);
    }
  }

  function Reindexed(index: map<nat, seq<nat>>, hash: nat, id: nat): map<nat, seq<nat>> {
    index[hash := (if hash in index then index[hash] else []) + [id]]
  }

  lemma ReindexKeeps(slots: seq<Slot>, index: map<nat, seq<nat>>, hasher: Tokens -> nat, id: nat, prefix: Tokens)
    requires IndexOk(slots, index, hasher) && id < |slots| && !slots[id].cached
    ensures var hash := hasher(prefix);
            IndexOk(slots[id := slots[id].(cached := true, prefix := prefix, hash := hash)],
                    Reindexed(index, hash, id), hasher)
  {
    var hash := hasher(prefix);
    var after := slots[id := slots[id].(cached := true, prefix := prefix, hash := hash)];
    var index' := Reindexed(index, hash, id);
    forall h | h in index' ensures BucketOk(after, h, index'[h]) {
      if h in index {
        assert BucketOk(slots, h, index[h]);
      }
    }
    forall i | 0 <= i < |after| && after[i].cached ensures Indexed(after, index', hasher, i) {
      if i != id {
        assert Indexed(slots, index, hasher, i);
      } else {
        assert index'[hash][|index'[hash]| - 1] == id;
      }
    }
  }

  /** For every hasher, scanning one bucket finds what scanning all slots would find. */
  lemma BucketScanIsFullScan(slots: seq<Slot>, index: map<nat, seq<nat>>, hasher: Tokens -> nat, prefix: Tokens)
    requires IndexOk(slots, index, hasher)
    ensures var hash := hasher(prefix);
            forall id: nat :: id < |slots| ==>
              (slots[id].cached && slots[id].prefix == prefix <==>
               hash in index && id in index[hash] && slots[id].prefix == prefix)
  {
    var hash := hasher(prefix);
    forall id: nat | id < |slots|
      ensures slots[id].cached && slots[id].prefix == prefix <==>
              hash in index && id in index[hash] && slots[id].prefix == prefix
    {
      if slots[id].cached && slots[id].prefix == prefix {
        assert Indexed(slots, index, hasher, id);
      }
      if hash in index && id in index[hash] {
        assert BucketOk(slots, hash, index[hash]);
      }
    }
  }

  /** A described allocation for a token sequence; copying it does not add references. */
  datatype Table = Table(blocks: seq<Handle>, tokenCount: nat)

  datatype Stats = Stats(capacity: nat, free: nat, active: nat, cachedIdle: nat)

  lemma RetainNext(p: Pool, hs: seq<Handle>, k: nat)
    requires k < |hs| && RetainAll(p, hs[..k]).Ok?
    ensures RetainAll(p, hs[..k + 1]) == PagePool.Retain(RetainAll(p, hs[..k]).value, hs[k])
  {
    assert hs[..k + 1][..k] == hs[..k];
  }

  /** Code of the user's that is called back; it may throw at any call. */
  class Callback {
    /** Whether the k-th call returns. */
    const succeeds: nat -> bool
    var calls: nat

    constructor (succeeds: nat -> bool)
      ensures this.succeeds == succeeds && calls == 0
    {
      this.succeeds, calls := succeeds, 0;
    }

    /** Some call since then has thrown. */
    ghost predicate Threw(since: nat)
      reads this
    {
      exists k :: since <= k < calls && !succeeds(k)
    }

    method Call() returns (ok: bool)
      modifies this
      ensures calls == old(calls) + 1 && (ok <==> !Threw(old(calls)))
    {
      ok := succeeds(calls);
      calls := calls + 1;
      assert old(calls) <= calls - 1 < calls;
    }
  }

  class BlockManager {
    var slots: seq<Slot>
    const blockSize: nat
    const hasher: Tokens -> nat
    const callback: Callback
    var freeHead: int
    const idleLru: IndexLru
    var index: map<nat, seq<nat>>
    ghost var freeList: seq<nat>

    ghost function View(): Pool
      reads this, idleLru
    {
      Pool(blockSize, PagesOf(slots), freeList, idleLru.order)
    }

    /** Lists and index describe the slots. */
    ghost predicate Represents()
      reads this, idleLru
    {
      idleLru.Valid() && |idleLru.nodes| == |slots| && FreeChain(slots, freeHead, freeList)
      && IndexOk(slots, index, hasher)
    }

    /** The pool's invariant, and the representation, folded. */
    ghost predicate Valid()
      reads this, idleLru
    {
      Inv(View()) && forall k {:trigger Unseal(k)} :: k == 0 ==> Represents()
    }

    lemma Unfold()
      requires Valid()
      ensures Represents()
    {
      assert Unseal(0);
    }

    lemma Fold()
      requires Represents() && Inv(View())
      ensures Valid()
    {
    }

    constructor (capacity: nat, blockSize: nat, hasher: Tokens -> nat, callback: Callback)
      requires capacity > 0 && blockSize > 0
      ensures Valid() && fresh(idleLru) && View() == Empty(capacity, blockSize) && this.callback == callback
    {
      this.blockSize := blockSize;
      this.hasher, this.callback := hasher, callback;
      slots := seq(capacity, i => Slot(0, 0, true, false, [], 0, if i + 1 < capacity then i + 1 else NONE));
      freeHead := 0;
      index := map[];
      freeList := seq(capacity, i => i);
      var lru := new IndexLru(capacity);
      idleLru := lru;
      new;
      assert PagesOf(slots) == Empty(capacity, blockSize).pages;
      StartOk(capacity, blockSize);
      Fold();
    }

    predicate Checked(h: Handle)
      reads this
    {
      h.id < |slots| && !slots[h.id].free && slots[h.id].generation == h.generation
    }

    /** The user-supplied hasher: it may throw at any call. */
    method Hash(prefix: Tokens) returns (r: Result<nat>)
      modifies callback
      ensures r.Ok? ==> r.value == hasher(prefix)
      ensures r.Err? ==> r.error == CallbackError
      ensures callback.calls > old(callback.calls) && (r.Err? <==> callback.Threw(old(callback.calls)))
    {
      var ok := callback.Call();
      r := if ok then Ok(hasher(prefix)) else Err(CallbackError);
    }

    method Allocate() returns (r: Result<Handle>)
      requires Valid()
      modifies this, idleLru
      ensures Valid()
      ensures match PagePool.Allocate(old(View()))
              case Ok(out) => r == Ok(out.0) && View() == out.1
              case Err(e) => r == Err(e) && View() == old(View())
    {
      Unfold();
      ghost var before := View();
      var id := freeHead;
      if id == NONE {
        id := idleLru.Oldest();
      }
      if id == NONE {
        return Err(CapacityError);
      }
      var s := slots[id];
      if s.generation == MAX64 {
        return Err(OverflowError);
      }
      AllocateKeepsInv(before);
      if s.free {
        PopFree();
      } else {
        NoDupTail(idleLru.order);
        idleLru.Erase(id);
        EraseCache(id);
      }
      Claim(id);
      ghost var page := before.pages[id];
      assert PagesOf(slots)[id] == PageOf(slots[id]);
      UpdateTwice(before.pages, id, page.(cached := false, prefix := []),
                  Page(page.generation + 1, 1, false, false, []));
      assert View() == PagePool.Allocate(before).value.1;
      Fold();
      r := Ok(Handle(id, slots[id].generation));
    }

    /** Takes the head off the free list. */
    method PopFree()
      requires FreeChain(slots, freeHead, freeList) && NoDup(freeList) && freeList != []
      requires IndexOk(slots, index, hasher)
      modifies this`slots, this`freeHead, this`freeList
      ensures FreeChain(slots, freeHead, freeList) && freeList == old(freeList)[1..]
      ensures IndexOk(slots, index, hasher)
      ensures |slots| == |old(slots)| && PagesOf(slots) == PagesOf(old(slots))
    {
      ChainPop(slots, freeHead, freeList);
      var id := freeHead;
      var popped := slots[id].(nextFree := NONE);
      IndexFrame(slots, index, hasher, id, popped);
      PagesOfUpdate(slots, id, popped);
      freeHead := slots[id].nextFree;
      freeList := freeList[1..];
      slots := slots[id := popped];
    }

    /** Forgets the published prefix of a slot. */
    method EraseCache(id: nat)
      requires id < |slots| && slots[id].cached && IndexOk(slots, index, hasher)
      requires FreeChain(slots, freeHead, freeList)
      modifies this`slots, this`index
      ensures IndexOk(slots, index, hasher) && FreeChain(slots, freeHead, freeList)
      ensures |slots| == |old(slots)|
      ensures PagesOf(slots) == PagesOf(old(slots))[id := PageOf(old(slots[id])).(cached := false, prefix := [])]
    {
      UnindexKeeps(slots, index, hasher, id);
      var s := slots[id];
      var erased := s.(cached := false, prefix := []);
      ChainFrame(slots, freeHead, freeList, id, erased);
      PagesOfUpdate(slots, id, erased);
      var bucket := Without(index[s.hash], id);
      if bucket == [] {
        index := index - {s.hash};
      } else {
        index := index[s.hash := bucket];
      }
      slots := slots[id := erased];
    }

    /** Gives an unlinked slot its first reference under a new generation. */
    method Claim(id: nat)
      requires id < |slots| && FreeChain(slots, freeHead, freeList) && IndexOk(slots, index, hasher)
      modifies this`slots
      ensures FreeChain(slots, freeHead, freeList) && IndexOk(slots, index, hasher)
      ensures |slots| == |old(slots)|
      ensures var page := PagesOf(old(slots))[id];
              PagesOf(slots) == PagesOf(old(slots))[id := Page(page.generation + 1, 1, false, page.cached, page.prefix)]
    {
      var s := slots[id];
      var claimed := s.(free := false, refs := 1, generation := s.generation + 1);
      ChainFrame(slots, freeHead, freeList, id, claimed);
      IndexFrame(slots, index, hasher, id, claimed);
      PagesOfUpdate(slots, id, claimed);
      slots := slots[id := claimed];
    }

    method Retain(h: Handle) returns (r: Result<()>)
      requires Valid()
      modifies this, idleLru
      ensures Valid()
      ensures match PagePool.Retain(old(View()), h)
              case Ok(p) => r == Ok(()) && View() == p
              case Err(e) => r == Err(e) && View() == old(View())
    {
      Unfold();
      ghost var before := View();
      if !Checked(h) {
        return Err(InvalidArgument);
      }
      var s := slots[h.id];
      if s.refs == MAX64 {
        return Err(OverflowError);
      }
      RetainKeepsInv(before, h);
      if s.refs == 0 {
        idleLru.Erase(h.id);
      }
      SetRefs(h.id, s.refs + 1);
      Fold();
      r := Ok(());
    }

    /** Storing a new count disturbs neither list nor index. */
    method SetRefs(id: nat, refs: nat)
      requires id < |slots|
      requires FreeChain(slots, freeHead, freeList) && IndexOk(slots, index, hasher)
      modifies this`slots
      ensures FreeChain(slots, freeHead, freeList) && IndexOk(slots, index, hasher)
      ensures slots == old(slots)[id := old(slots[id]).(refs := refs)]
      ensures PagesOf(slots) == PagesOf(old(slots))[id := PageOf(old(slots[id])).(refs := refs)]
    {
      ChainFrame(slots, freeHead, freeList, id, slots[id].(refs := refs));
      IndexFrame(slots, index, hasher, id, slots[id].(refs := refs));
      slots := slots[id := slots[id].(refs := refs)];
    }

    method Release(h: Handle) returns (r: Result<()>)
      requires Valid()
      modifies this, idleLru
      ensures Valid()
      ensures match PagePool.Release(old(View()), h)
              case Ok(p) => r == Ok(()) && View() == p
              case Err(e) => r == Err(e) && View() == old(View())
    {
      Unfold();
      ghost var before := View();
      if !Checked(h) || slots[h.id].refs == 0 {
        return Err(InvalidArgument);
      }
      ReleaseKeepsInv(before, h);
      SetRefs(h.id, slots[h.id].refs - 1);
      var s := slots[h.id];
      if s.refs == 0 {
        if s.cached {
          idleLru.Touch(h.id);
        } else {
          var freed := s.(free := true, nextFree := freeHead);
          ChainPush(slots, freeHead, freeList, h.id, freed);
          IndexFrame(slots, index, hasher, h.id, freed);
          slots := slots[h.id := freed];
          freeHead := h.id;
          freeList := [h.id] + freeList;
          assert View().pages == before.pages[h.id := PageOf(freed)];
        }
      }
      Fold();
      r := Ok(());
    }

    method RefCount(h: Handle) returns (r: Result<nat>)
      requires Valid()
      ensures r == if Live(View(), h) then Ok(View().pages[h.id].refs) else Err(InvalidArgument)
    {
      r := if Checked(h) then Ok(slots[h.id].refs) else Err(InvalidArgument);
    }

    method IsPublished(h: Handle) returns (r: Result<bool>)
      requires Valid()
      ensures r == if Live(View(), h) then Ok(View().pages[h.id].cached) else Err(InvalidArgument)
    {
      r := if Checked(h) then Ok(slots[h.id].cached) else Err(InvalidArgument);
    }

    method Publish(h: Handle, prefix: Tokens) returns (r: Result<()>)
      requires Valid()
      modifies this, callback
      ensures Valid()
      ensures (r == Err(CallbackError) <==> callback.Threw(old(callback.calls)))
              && callback.calls >= old(callback.calls)
      ensures r == Err(CallbackError) ==> View() == old(View())
      ensures r != Err(CallbackError) ==>
                match PagePool.Publish(old(View()), h, prefix)
                case Ok(p) => r == Ok(()) && View() == p
                case Err(e) => r == Err(e) && View() == old(View())
    {
      ghost var before := View();
      if !Checked(h) || slots[h.id].refs != 1 || slots[h.id].cached || !FullPrefix(blockSize, prefix) {
        return Err(InvalidArgument);
      }
      var hashed := Hash(prefix);
      if hashed.Err? {
        return Err(CallbackError);
      }
      var hash := hashed.value;
      var twin := FindInBucket(hash, prefix);
      if twin.Some? {
        assert Caches(before, twin.value, prefix);
        return Err(InvalidArgument);
      }
      assert View() == before;
      Unfold();
      PublishKeepsInv(before, h, prefix);
      var s := slots[h.id].(cached := true, prefix := prefix, hash := hash);
      ReindexKeeps(slots, index, hasher, h.id, prefix);
      ChainFrame(slots, freeHead, freeList, h.id, s);
      index := index[hash := (if hash in index then index[hash] else []) + [h.id]];
      slots := slots[h.id := s];
      assert View().pages == before.pages[h.id := PageOf(s)];
      Fold();
      r := Ok(());
    }

    /** Scans the one bucket of `hash`, comparing whole prefixes. */
    method FindInBucket(hash: nat, prefix: Tokens) returns (found: Option<nat>)
      requires Valid() && hash == hasher(prefix) && prefix != []
      ensures found.Some? ==> Caches(View(), found.value, prefix)
      ensures found.None? ==> forall id :: !Caches(View(), id, prefix)
    {
      Unfold();
      BucketScanIsFullScan(slots, index, hasher, prefix);
      found := None;
      if hash in index {
        var bucket := index[hash];
        assert BucketOk(slots, hash, bucket);
        var i := 0;
        while i < |bucket|
          invariant 0 <= i <= |bucket|
          invariant forall k :: 0 <= k < i ==> slots[bucket[k]].prefix != prefix
        {
          if slots[bucket[i]].prefix == prefix {
            return Some(bucket[i]);
          }
          i := i + 1;
        }
      }
    }

    method Lookup(prefix: Tokens) returns (r: Result<Option<Handle>>)
      requires Valid()
      modifies this, idleLru, callback
      ensures Valid()
      ensures (r == Err(CallbackError) <==> callback.Threw(old(callback.calls)))
              && callback.calls >= old(callback.calls)
      ensures r == Err(CallbackError) ==> View() == old(View())
      ensures r != Err(CallbackError) ==>
                match PagePool.Lookup(old(View()), prefix)
                case Ok(out) => r == Ok(out.0) && View() == out.1
                case Err(e) => r == Err(e) && View() == old(View())
    {
      ghost var before := View();
      if !FullPrefix(blockSize, prefix) {
        return Ok(None);
      }
      var hashed := Hash(prefix);
      if hashed.Err? {
        return Err(CallbackError);
      }
      var found := FindInBucket(hashed.value, prefix);
      if found.None? {
        return Ok(None);
      }
      var id := found.value;
      assert FindCached(before, prefix) == Some(id);
      var h := Handle(id, slots[id].generation);
      var retained := Retain(h);
      r := if retained.Ok? then Ok(Some(h)) else Err(retained.error);
    }

    /** Block-table interface: full blocks are shared through the prefix index, a partial tail is private. */
    method Acquire(tokens: Tokens) returns (r: Result<Table>)
      requires Valid()
      modifies this, idleLru, callback
      ensures Valid()
      ensures (r == Err(CallbackError) <==> callback.Threw(old(callback.calls)))
              && callback.calls >= old(callback.calls)
      ensures r.Ok? ==> r.value.tokenCount == |tokens| && Acquired(old(View()), View(), tokens, r.value.blocks)
      ensures r.Err? ==> RefsPlus(old(View()), View(), [])
      ensures r.Err? ==>
                CeilDiv(|tokens|, blockSize) > 0 && MayRefuse(old(View()), CeilDiv(|tokens|, blockSize) - 1, r.error)
    {
      ghost var before := View();
      var blocks: seq<Handle> := [];
      var prefix: Tokens := [];
      while |prefix| < |tokens|
        invariant Valid() && Acquired(before, View(), prefix, blocks)
        invariant callback.calls >= old(callback.calls) && !callback.Threw(old(callback.calls))
        invariant prefix <= tokens && (|prefix| < |tokens| ==> |prefix| == |blocks| * blockSize)
      {
        var block := NextBlock(tokens, |prefix|, blockSize);
        OneBlockMore(tokens, prefix, |blocks|, blockSize);
        var step := AcquireBlock(before, prefix, block, blocks);
        if step.Err? {
          return Err(step.error);
        }
        blocks := blocks + [step.value];
        prefix := prefix + block;
      }
      assert prefix == tokens;
      r := Ok(Table(blocks, |tokens|));
    }

    /** One round of `Acquire`: a cache hit, or a fresh page that is published when full. */
    method AcquireBlock(ghost before: Pool, prefix: Tokens, block: Tokens, blocks: seq<Handle>)
        returns (r: Result<Handle>)
      requires Valid() && Inv(before) && Acquired(before, View(), prefix, blocks)
      requires |prefix| == |blocks| * blockSize && 0 < |block| <= blockSize
      modifies this, idleLru, callback
      ensures Valid()
      ensures (r == Err(CallbackError) <==> callback.Threw(old(callback.calls)))
              && callback.calls >= old(callback.calls)
      ensures r.Ok? ==> Acquired(before, View(), prefix + block, blocks + [r.value])
      ensures r.Err? ==> RefsPlus(before, View(), []) && MayRefuse(before, |blocks|, r.error)
    {
      ghost var start := View();
      TakenIsRefsPlus(before, start, blocks);
      if |block| == blockSize {
        var hit := Lookup(prefix + block);
        match hit {
          case Err(e) =>
            if e == OverflowError {
              var id := FindCached(start, prefix + block).value;
              RetainLimit(before, start, prefix, block, blocks, Handle(id, start.pages[id].generation));
            }
            Rollback(before, blocks);
            return Err(e);
          case Ok(Some(h)) =>
            ExtendByHit(before, start, prefix, block, blocks, h);
            return Ok(h);
          case Ok(None) =>
        }
      }
      r := AcquireFresh(before, prefix, block, blocks);
    }

    /** A miss or a partial tail: allocate, and publish when full. */
    method AcquireFresh(ghost before: Pool, prefix: Tokens, block: Tokens, blocks: seq<Handle>)
        returns (r: Result<Handle>)
      requires Valid() && Inv(before) && Acquired(before, View(), prefix, blocks)
      requires |prefix| == |blocks| * blockSize && 0 < |block| <= blockSize
      requires |block| == blockSize ==> FindCached(View(), prefix + block).None?
      modifies this, idleLru, callback
      ensures Valid()
      ensures (r == Err(CallbackError) <==> callback.Threw(old(callback.calls)))
              && callback.calls >= old(callback.calls)
      ensures r.Ok? ==> Acquired(before, View(), prefix + block, blocks + [r.value])
      ensures r.Err? ==> RefsPlus(before, View(), []) && MayRefuse(before, |blocks|, r.error)
    {
      ghost var start := View();
      TakenIsRefsPlus(before, start, blocks);
      var taken := Allocate();
      match taken {
        case Err(e) =>
          if e == CapacityError {
            ExhaustedMeansAllTaken(before, start, blocks);
          } else {
            AllocateLimit(before, start, blocks);
          }
          Rollback(before, blocks);
          return Err(e);
        case Ok(h) =>
          if |block| == blockSize {
            TakeAllocated(before, start, blocks);
            TakenIsRefsPlus(before, View(), blocks + [h]);
            ExtendByPublish(before, start, prefix, block, blocks);
            var published := Publish(h, prefix + block);
            if published.Err? {
              Rollback(before, blocks + [h]);
              return Err(CallbackError);
            }
          } else {
            ExtendByTail(before, start, prefix, block, blocks);
          }
          return Ok(h);
      }
    }

    /** Returns the references of an incomplete table. */
    method Rollback(ghost before: Pool, blocks: seq<Handle>)
      requires Valid() && RefsPlus(before, View(), blocks)
      modifies this, idleLru
      ensures Valid() && RefsPlus(before, View(), [])
    {
      ReleaseAllRestores(before, View(), blocks);
      ReleaseEach(blocks);
    }

    method ReleaseEach(blocks: seq<Handle>)
      requires Valid()
      modifies this, idleLru
      ensures Valid() && View() == ReleaseAll(old(View()), blocks)
    {
      var i := 0;
      while i < |blocks|
        invariant 0 <= i <= |blocks|
        invariant Valid() && ReleaseAll(View(), blocks[i..]) == ReleaseAll(old(View()), blocks)
      {
        assert blocks[i..][1..] == blocks[i + 1..];
        var released := Release(blocks[i]);
        i := i + 1;
      }
    }

    method Validate(table: Table) returns (ok: bool)
      requires Valid()
      ensures ok <==> TableOk(View(), table.blocks, table.tokenCount)
    {
      var hs := table.blocks;
      if CeilDiv(table.tokenCount, blockSize) != |hs| {
        return false;
      }
      var i := 0;
      while i < |hs|
        invariant 0 <= i <= |hs|
        invariant forall k :: 0 <= k < i ==> Held(View(), hs[k])
        invariant DistinctIds(hs[..i])
      {
        if !Checked(hs[i]) || slots[hs[i].id].refs == 0 {
          return false;
        }
        var j := 0;
        while j < i
          invariant 0 <= j <= i
          invariant forall k :: 0 <= k < j ==> hs[k] != hs[i]
        {
          if hs[i] == hs[j] {
            assert hs[i].id == hs[j].id;
            return false;
          }
          j := j + 1;
        }
        HeldAreDistinct(View(), hs, i);
        i := i + 1;
      }
      assert hs[..i] == hs;
      ok := true;
    }

    /** Adds one reference to every page of a complete table, or none at all. */
    method Share(table: Table) returns (r: Result<Table>)
      requires Valid()
      modifies this, idleLru
      ensures Valid()
      ensures r == Err(InvalidArgument) <==> !TableOk(old(View()), table.blocks, table.tokenCount)
      ensures r.Ok? ==> r.value == table && Bumped(old(View()), View(), table.blocks)
      ensures r.Err? ==> View() == old(View())
      ensures r.Err? && r.error != InvalidArgument ==> AtLimit(old(View()))
    {
      ghost var before := View();
      var ok := Validate(table);
      if !ok {
        return Err(InvalidArgument);
      }
      var retained, error := RetainEach(table.blocks);
      ShareOutcome(before, View(), table.blocks, retained);
      if retained < |table.blocks| {
        ReleaseEach(table.blocks[..retained]);
        return Err(error);
      }
      r := Ok(table);
    }

    /** Retains handles in order until one is refused; `retained` says how many were taken. */
    method RetainEach(hs: seq<Handle>) returns (retained: nat, error: Error)
      requires Valid()
      modifies this, idleLru
      ensures Valid() && retained <= |hs| && RetainAll(old(View()), hs[..retained]) == Ok(View())
      ensures retained < |hs| ==> PagePool.Retain(View(), hs[retained]) == Err(error)
    {
      retained := 0;
      error := LogicError;
      while retained < |hs|
        invariant retained <= |hs|
        invariant Valid() && RetainAll(old(View()), hs[..retained]) == Ok(View())
      {
        RetainNext(old(View()), hs, retained);
        var r := Retain(hs[retained]);
        if r.Err? {
          error := r.error;
          return;
        }
        retained := retained + 1;
      }
    }

    /** Gives back one reference to every page of a complete table, or none at all. */
    method ReleaseTable(table: Table) returns (r: Result<Table>)
      requires Valid()
      modifies this, idleLru
      ensures Valid()
      ensures r.Ok? <==> TableOk(old(View()), table.blocks, table.tokenCount)
      ensures r.Ok? ==> r.value == Table([], 0) && RefsPlus(View(), old(View()), table.blocks)
      ensures r.Err? ==> r.error == InvalidArgument && View() == old(View())
    {
      ghost var before := View();
      var ok := Validate(table);
      if !ok {
        return Err(InvalidArgument);
      }
      ReleaseEach(table.blocks);
      assert [] + table.blocks == table.blocks;
      ReleaseAllReturns(before, before, [], table.blocks);
      r := Ok(Table([], 0));
    }

    /** The page a token lives on: its entry of the table, if that is still referenced. */
    method BlockAt(table: Table, tokenIndex: nat) returns (r: Result<Handle>)
      requires Valid()
      ensures r == Err(OutOfRange) <==>
              tokenIndex >= table.tokenCount || tokenIndex / blockSize >= |table.blocks|
      ensures r.Ok? ==> r.value == table.blocks[tokenIndex / blockSize] && Held(View(), r.value)
      ensures r.Err? && r.error != OutOfRange ==>
                r.error == InvalidArgument && !Held(View(), table.blocks[tokenIndex / blockSize])
    {
      if tokenIndex >= table.tokenCount || tokenIndex / blockSize >= |table.blocks| {
        return Err(OutOfRange);
      }
      var h := table.blocks[tokenIndex / blockSize];
      if !Checked(h) || slots[h.id].refs == 0 {
        return Err(InvalidArgument);
      }
      r := Ok(h);
    }

    /** Counting slots by their flags agrees with the lengths of the two lists. */
    method GetStats() returns (s: Stats)
      requires Valid()
      ensures s.capacity == |View().pages| == s.free + s.active + s.cachedIdle
      ensures s.free == |View().free| && s.cachedIdle == |View().idle|
    {
      ghost var pages := View().pages;
      var free, active, idle := 0, 0, 0;
      var i := 0;
      while i < |slots|
        invariant 0 <= i <= |slots|
        invariant free == |FreeSet(pages[..i])| && idle == |IdleSet(pages[..i])|
        invariant free + active + idle == i
      {
        assert PageOf(slots[i]) == pages[i];
        assert pages[..i + 1] == pages[..i] + [pages[i]];
        CountsSnoc(pages[..i], pages[i]);
        if slots[i].free {
          free := free + 1;
        } else if slots[i].refs != 0 {
          active := active + 1;
        } else {
          idle := idle + 1;
        }
        i := i + 1;
      }
      assert pages[..i] == pages;
      ListsAreSets(View());
      s := Stats(|slots|, free, active, idle);
    }
  }
}
