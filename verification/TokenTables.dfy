/** What `BlockManager::acquire` promises about the table it returns and about the pool it leaves. */
module TokenTables {
  import opened Common
  import opened PagePool
  import opened Arithmetic

  ghost predicate Uses(hs: seq<Handle>, id: nat) {
    exists k :: 0 <= k < |hs| && hs[k].id == id
  }

  ghost predicate DistinctIds(hs: seq<Handle>) {
    forall j, k :: 0 <= j < k < |hs| ==> hs[j].id != hs[k].id
  }

  ghost predicate SameShape(p: Pool, q: Pool) {
    p.blockSize == q.blockSize && |p.pages| == |q.pages|
  }

  // ---------------------------------------------------------------- one reference more per page

  /** Pages somebody references in `p` keep generation and published prefix in `q`. */
  ghost predicate KeepsReferenced(p: Pool, q: Pool)
    requires SameShape(p, q)
  {
    forall i :: 0 <= i < |p.pages| && p.pages[i].refs > 0 ==>
      q.pages[i] == p.pages[i].(refs := q.pages[i].refs)
  }

  /** `q` is `p` plus exactly one reference to each page of `hs`. */
  ghost predicate RefsPlus(p: Pool, q: Pool, hs: seq<Handle>) {
    && Inv(q) && SameShape(p, q) && KeepsReferenced(p, q) && DistinctIds(hs)
    && (forall k :: 0 <= k < |hs| ==> Held(q, hs[k]))
    && (forall i :: 0 <= i < |p.pages| ==>
          q.pages[i].refs == if Uses(hs, i) then p.pages[i].refs + 1 else p.pages[i].refs)
  }

  /** Undoing one acquired reference succeeds and leaves the remaining ones. */
  lemma ReleaseFirst(p: Pool, q: Pool, hs: seq<Handle>)
    requires RefsPlus(p, q, hs) && hs != []
    ensures Release(q, hs[0]).Ok? && RefsPlus(p, Release(q, hs[0]).value, hs[1..])
  {
    var r := Release(q, hs[0]).value;
    ReleaseKeepsInv(q, hs[0]);
    var rest := hs[1..];
    assert forall k :: 0 <= k < |rest| ==> rest[k] == hs[k + 1];
    forall i | 0 <= i < |p.pages|
      ensures r.pages[i].refs == if Uses(rest, i) then p.pages[i].refs + 1 else p.pages[i].refs
    {
      if i == hs[0].id {
        assert Uses(hs, i) && !Uses(rest, i);
      } else if Uses(hs, i) {
        var k :| 0 <= k < |hs| && hs[k].id == i;
        assert rest[k - 1].id == i;
      }
    }
  }

  // ---------------------------------------------------------------- the acquired table

  /** The block at position `k` of a sequence of `n` tokens is full. */
  predicate IsFull(blockSize: nat, n: nat, k: nat) {
    (k + 1) * blockSize <= n
  }

  ghost predicate Published(p: Pool, h: Handle, prefix: Tokens) {
    Held(p, h) && p.pages[h.id].cached && p.pages[h.id].prefix == prefix
  }

  /** A complete table for `tokens`: full block `k` is the page published under exactly the first
      `(k + 1) * blockSize` tokens, and a partial last block is on an unpublished page. */
  ghost predicate IsTable(p: Pool, tokens: Tokens, hs: seq<Handle>) {
    && p.blockSize > 0 && |hs| == CeilDiv(|tokens|, p.blockSize)
    && (forall k :: 0 <= k < |hs| ==> Held(p, hs[k]))
    && (forall k :: 0 <= k < |hs| ==>
          if IsFull(p.blockSize, |tokens|, k) then Published(p, hs[k], tokens[..(k + 1) * p.blockSize])
          else !p.pages[hs[k].id].cached)
  }

  ghost predicate Hit(p: Pool, q: Pool, id: nat)
    requires id < |p.pages| && id < |q.pages|
  {
    p.pages[id].cached && q.pages[id] == p.pages[id].(refs := p.pages[id].refs + 1)
  }

  ghost predicate Fresh(p: Pool, q: Pool, id: nat)
    requires id < |p.pages| && id < |q.pages|
  {
    p.pages[id].refs == 0 && q.pages[id].refs == 1 && p.pages[id].generation < q.pages[id].generation
  }

  /** Pages outside the table are untouched; its pages are cache hits with one more reference, or
      pages nobody referenced, taken under a new generation. */
  ghost predicate Taken(p: Pool, q: Pool, hs: seq<Handle>) {
    && Inv(q) && SameShape(p, q) && DistinctIds(hs)
    && (forall k :: 0 <= k < |hs| ==> Held(q, hs[k]) && (Hit(p, q, hs[k].id) || Fresh(p, q, hs[k].id)))
    && (forall i :: 0 <= i < |p.pages| && !Uses(hs, i) ==> q.pages[i] == p.pages[i])
  }

  ghost predicate Acquired(p: Pool, q: Pool, tokens: Tokens, hs: seq<Handle>) {
    && Taken(p, q, hs) && IsTable(q, tokens, hs)
    && (|tokens| % q.blockSize != 0 ==> Fresh(p, q, hs[|hs| - 1].id))
  }

  lemma TakenIsRefsPlus(p: Pool, q: Pool, hs: seq<Handle>)
    requires Taken(p, q, hs)
    ensures RefsPlus(p, q, hs)
  {
  }

  /** Growing a block-aligned token sequence by one block grows its table by one entry. */
  lemma AlignedGrowth(blockSize: nat, count: nat, more: nat)
    requires 0 < more <= blockSize
    ensures CeilDiv(count * blockSize, blockSize) == count
    ensures CeilDiv(count * blockSize + more, blockSize) == count + 1
    ensures count * blockSize % blockSize == 0
    ensures (count * blockSize + more) % blockSize == 0 <==> more == blockSize
  {
    DivModUnique(count * blockSize, blockSize, count, 0);
    if more == blockSize {
      assert count * blockSize + more == (count + 1) * blockSize;
      DivModUnique(count * blockSize + more, blockSize, count + 1, 0);
    } else {
      DivModUnique(count * blockSize + more, blockSize, count, more);
    }
  }

  /** Which blocks of an aligned sequence grown by `more` tokens are full. */
  lemma FullBlocks(blockSize: nat, count: nat, more: nat, k: nat)
    requires more <= blockSize && blockSize > 0
    ensures IsFull(blockSize, count * blockSize + more, k) <==> k < count || (k == count && more == blockSize)
    ensures k == count ==> (k + 1) * blockSize == count * blockSize + blockSize
  {
    assert (k + 1) * blockSize == k * blockSize + blockSize;
    MulOrder(k, count, blockSize);
    MulOrder(count, k, blockSize);
  }

  /** The next block of a token sequence whose first `offset` tokens are done. */
  function NextBlock(tokens: Tokens, offset: nat, blockSize: nat): Tokens
    requires offset <= |tokens|
  {
    if blockSize <= |tokens| - offset then tokens[offset..offset + blockSize] else tokens[offset..]
  }

  /** While tokens remain, the table is still shorter than it will be, and one more block brings it
      to the next block boundary or to the end. */
  lemma OneBlockMore(tokens: Tokens, done: Tokens, count: nat, blockSize: nat)
    requires blockSize > 0 && done <= tokens && |done| == count * blockSize < |tokens|
    ensures var block := NextBlock(tokens, |done|, blockSize);
            && 0 < |block| <= blockSize && done + block <= tokens
            && (|done + block| < |tokens| ==> |done + block| == (count + 1) * blockSize)
    ensures count < CeilDiv(|tokens|, blockSize)
  {
    var n := |tokens|;
    assert n == (n / blockSize) * blockSize + n % blockSize;
    MulOrder(count + 1, n / blockSize + 1, blockSize);
    MulOrder(n / blockSize, count, blockSize);
    assert (count + 1) * blockSize == count * blockSize + blockSize;
    SliceGrows(tokens, |done|, |done| + |NextBlock(tokens, |done|, blockSize)|);
  }

  ghost predicate SameEntries(q: Pool, r: Pool, hs: seq<Handle>) {
    SameShape(q, r) &&
    forall k :: 0 <= k < |hs| ==>
      Held(q, hs[k]) && Held(r, hs[k]) && r.pages[hs[k].id].(refs := 0) == q.pages[hs[k].id].(refs := 0)
  }

  /** One more entry for one more block. */
  lemma ExtendTable(q: Pool, r: Pool, done: Tokens, block: Tokens, hs: seq<Handle>, h: Handle)
    requires IsTable(q, done, hs) && |done| == |hs| * q.blockSize && 0 < |block| <= q.blockSize
    requires SameEntries(q, r, hs) && Held(r, h)
    requires if |block| == q.blockSize then Published(r, h, done + block) else !r.pages[h.id].cached
    ensures IsTable(r, done + block, hs + [h])
  {
    AlignedGrowth(q.blockSize, |hs|, |block|);
    var tokens, all := done + block, hs + [h];
    forall k | 0 <= k < |all|
      ensures Held(r, all[k])
      ensures if IsFull(q.blockSize, |tokens|, k) then Published(r, all[k], tokens[..(k + 1) * q.blockSize])
              else !r.pages[all[k].id].cached
    {
      FullBlocks(q.blockSize, |hs|, 0, k);
      FullBlocks(q.blockSize, |hs|, |block|, k);
      if k < |hs| {
        assert tokens[..(k + 1) * q.blockSize] == done[..(k + 1) * q.blockSize];
      } else {
        assert |block| == q.blockSize ==> tokens[..(k + 1) * q.blockSize] == tokens;
      }
    }
  }

  /** The page published for the next, longer prefix is not in the table yet. */
  lemma NextPrefixNotTaken(p: Pool, q: Pool, done: Tokens, block: Tokens, hs: seq<Handle>, h: Handle)
    requires Acquired(p, q, done, hs) && |done| == |hs| * q.blockSize && |block| == q.blockSize
    requires Caches(q, h.id, done + block)
    ensures !Uses(hs, h.id)
  {
    forall k | 0 <= k < |hs| ensures hs[k].id != h.id {
      FullBlocks(q.blockSize, |hs|, 0, k);
      assert |q.pages[hs[k].id].prefix| == (k + 1) * q.blockSize;
      MulOrder(k + 1, |hs|, q.blockSize);
    }
  }

  /** A cache hit on the next full block extends the table. */
  lemma ExtendByHit(p: Pool, q: Pool, done: Tokens, block: Tokens, hs: seq<Handle>, h: Handle)
    requires Acquired(p, q, done, hs) && |done| == |hs| * q.blockSize && |block| == q.blockSize
    requires Live(q, h) && Caches(q, h.id, done + block) && Retain(q, h).Ok?
    ensures Acquired(p, Retain(q, h).value, done + block, hs + [h])
  {
    var r := Retain(q, h).value;
    RetainKeepsInv(q, h);
    NextPrefixNotTaken(p, q, done, block, hs, h);
    ExtendTable(q, r, done, block, hs, h);
    TakeOne(p, q, r, hs, h);
  }

  /** Changing one untouched page by a hit or by a fresh allocation takes it. */
  lemma TakeOne(p: Pool, q: Pool, r: Pool, hs: seq<Handle>, h: Handle)
    requires Taken(p, q, hs) && Inv(r) && SameShape(q, r) && !Uses(hs, h.id) && Held(r, h)
    requires r.pages == q.pages[h.id := r.pages[h.id]]
    requires Hit(q, r, h.id) || Fresh(q, r, h.id)
    ensures Taken(p, r, hs + [h])
  {
    var all := hs + [h];
    assert forall k :: 0 <= k < |hs| ==> hs[k].id != h.id;
    forall k | 0 <= k < |all| ensures Held(r, all[k]) && (Hit(p, r, all[k].id) || Fresh(p, r, all[k].id)) {
      if k < |hs| {
        assert Held(q, hs[k]);
      }
    }
    forall i | 0 <= i < |p.pages| && !Uses(all, i) ensures r.pages[i] == p.pages[i] {
      assert all[|hs|].id != i;
      assert forall k :: 0 <= k < |hs| ==> all[k] == hs[k];
    }
  }

  /** A page allocated for the next block extends what has been taken. */
  lemma TakeAllocated(p: Pool, q: Pool, hs: seq<Handle>)
    requires Taken(p, q, hs) && Allocate(q).Ok?
    ensures var (h, r) := Allocate(q).value;
            Taken(p, r, hs + [h]) && Fresh(p, r, h.id) && !r.pages[h.id].cached && SameEntries(q, r, hs)
  {
    var (h, r) := Allocate(q).value;
    AllocateKeepsInv(q);
    AllocateOutcome(q);
    assert !Uses(hs, h.id);
    TakeOne(p, q, r, hs, h);
  }

  /** A private page for the partial last block completes the table. */
  lemma ExtendByTail(p: Pool, q: Pool, done: Tokens, block: Tokens, hs: seq<Handle>)
    requires Acquired(p, q, done, hs) && |done| == |hs| * q.blockSize && 0 < |block| < q.blockSize
    requires Allocate(q).Ok?
    ensures var (h, r) := Allocate(q).value; Acquired(p, r, done + block, hs + [h])
  {
    var (h, r) := Allocate(q).value;
    TakeAllocated(p, q, hs);
    assert (hs + [h])[|hs|] == h;
    ExtendTable(q, r, done, block, hs, h);
  }

  /** After a miss, publishing the freshly allocated page is never refused and extends the table. */
  lemma ExtendByPublish(p: Pool, q: Pool, done: Tokens, block: Tokens, hs: seq<Handle>)
    requires Acquired(p, q, done, hs) && |done| == |hs| * q.blockSize && |block| == q.blockSize
    requires Allocate(q).Ok? && FindCached(q, done + block).None?
    ensures var (h, r) := Allocate(q).value;
            && Publish(r, h, done + block).Ok?
            && Acquired(p, Publish(r, h, done + block).value, done + block, hs + [h])
  {
    var (h, r) := Allocate(q).value;
    TakeAllocated(p, q, hs);
    AlignedGrowth(q.blockSize, |hs|, q.blockSize);
    AllocateOutcome(q);
    forall id: nat ensures !Caches(r, id, done + block) {
      assert !Caches(q, id, done + block);
    }
    PublishKeepsInv(r, h, done + block);
    var s := Publish(r, h, done + block).value;
    assert !Uses(hs, h.id);
    TakeOne(p, q, s, hs, h);
    ExtendTable(q, s, done, block, hs, h);
  }

  /** Only the last block of a sequence can be partial. */
  lemma TailIsLast(blockSize: nat, n: nat, k: nat)
    requires blockSize > 0 && k < CeilDiv(n, blockSize)
    ensures IsFull(blockSize, n, k) <==> k < n / blockSize
    ensures !IsFull(blockSize, n, k) ==> n % blockSize != 0 && k == CeilDiv(n, blockSize) - 1
  {
    assert n == (n / blockSize) * blockSize + n % blockSize;
    FullBlocks(blockSize, n / blockSize, n % blockSize, k);
  }

  // ---------------------------------------------------------------- why an acquire can fail

  ghost predicate AtLimit(p: Pool) {
    exists i :: 0 <= i < |p.pages| && (p.pages[i].refs == MAX64 || p.pages[i].generation == MAX64)
  }

  /** Why an acquire that has `done` blocks, or would have had at least so many, can fail: more blocks are needed than
      are free or idle, a counter is at its limit, or the hasher threw. */
  ghost predicate MayRefuse(p: Pool, done: nat, e: Error) {
    && e in {CapacityError, OverflowError, CallbackError}
    && (e == CapacityError ==> |p.free| + |p.idle| <= done)
    && (e == OverflowError ==> AtLimit(p))
  }

  ghost function Ids(hs: seq<Handle>): (s: set<nat>)
    ensures |s| <= |hs|
    ensures forall i: nat :: i in s <==> Uses(hs, i)
  {
    if hs == [] then {}
    else
      var last := |hs| - 1;
      assert forall i: nat :: Uses(hs, i) <==> Uses(hs[..last], i) || hs[last].id == i by {
        forall i: nat ensures Uses(hs, i) <==> Uses(hs[..last], i) || hs[last].id == i {
          if Uses(hs, i) && hs[last].id != i {
            var k :| 0 <= k < |hs| && hs[k].id == i;
            assert hs[..last][k].id == i;
          }
          if Uses(hs[..last], i) {
            var k :| 0 <= k < last && hs[..last][k].id == i;
            assert hs[k].id == i;
          }
        }
      }
      Ids(hs[..last]) + {hs[last].id}
  }

  /** When allocation finds nothing, the table had already taken every page that was available. */
  lemma ExhaustedMeansAllTaken(p: Pool, q: Pool, hs: seq<Handle>)
    requires Inv(p) && Taken(p, q, hs) && Allocate(q) == Err(CapacityError)
    ensures |p.free| + |p.idle| <= |hs|
  {
    AllocateOutcome(q);
    ListsAreSets(p);
    var unused := FreeSet(p.pages) + IdleSet(p.pages);
    assert FreeSet(p.pages) !! IdleSet(p.pages);
    forall i | i in unused ensures i in Ids(hs) {
      assert p.pages[i].refs == 0 && q.pages[i].refs > 0;
    }
    SubsetSize(unused, Ids(hs));
  }

  lemma {:induction false} SubsetSize<T>(a: set<T>, b: set<T>)
    requires a <= b
    ensures |a| <= |b|
  {
    if a != {} {
      var x :| x in a;
      SubsetSize(a - {x}, b - {x});
    }
  }

  lemma AllocateLimit(p: Pool, q: Pool, hs: seq<Handle>)
    requires Inv(p) && Taken(p, q, hs) && Allocate(q) == Err(OverflowError)
    ensures AtLimit(p)
  {
    var id := if q.free != [] then q.free[0] else q.idle[0];
    assert id in q.free || id in q.idle;
    assert q.pages[id].refs == 0 && q.pages[id].generation == MAX64;
    assert !Uses(hs, id);
  }

  lemma RetainLimit(p: Pool, q: Pool, done: Tokens, block: Tokens, hs: seq<Handle>, h: Handle)
    requires Inv(p) && Acquired(p, q, done, hs) && |done| == |hs| * q.blockSize && |block| == q.blockSize
    requires Live(q, h) && Caches(q, h.id, done + block) && Retain(q, h) == Err(OverflowError)
    ensures AtLimit(p)
  {
    NextPrefixNotTaken(p, q, done, block, hs, h);
    assert p.pages[h.id].refs == MAX64;
  }

  // ---------------------------------------------------------------- sharing a table

  /** What `validate` accepts: as many entries as the token count needs, all referenced and distinct. */
  ghost predicate TableOk(p: Pool, blocks: seq<Handle>, tokenCount: nat) {
    && p.blockSize > 0 && |blocks| == CeilDiv(tokenCount, p.blockSize)
    && (forall k :: 0 <= k < |blocks| ==> Held(p, blocks[k]))
    && DistinctIds(blocks)
  }

  /** Distinct handles that are all referenced name distinct pages. */
  lemma HeldAreDistinct(p: Pool, hs: seq<Handle>, n: nat)
    requires n < |hs| && DistinctIds(hs[..n])
    requires forall k :: 0 <= k <= n ==> Held(p, hs[k])
    requires forall k :: 0 <= k < n ==> hs[k] != hs[n]
    ensures DistinctIds(hs[..n + 1])
  {
    assert forall k :: 0 <= k <= n ==> hs[..n + 1][k] == hs[k];
    assert forall k :: 0 <= k < n ==> hs[..n][k] == hs[k];
  }

  /** `q` is `p` with one reference more on each page of `hs` and nothing else changed. */
  ghost predicate Bumped(p: Pool, q: Pool, hs: seq<Handle>) {
    && SameShape(p, q) && q.free == p.free && q.idle == p.idle
    && forall i :: 0 <= i < |p.pages| ==>
         q.pages[i] == p.pages[i].(refs := if Uses(hs, i) then p.pages[i].refs + 1 else p.pages[i].refs)
  }

  lemma UsesSnoc(hs: seq<Handle>, h: Handle, i: nat)
    ensures Uses(hs + [h], i) <==> Uses(hs, i) || h.id == i
  {
    if Uses(hs, i) {
      var k :| 0 <= k < |hs| && hs[k].id == i;
      assert (hs + [h])[k].id == i;
    }
    assert (hs + [h])[|hs|] == h;
  }

  lemma BumpOne(p: Pool, q: Pool, hs: seq<Handle>, h: Handle)
    requires Inv(p) && Bumped(p, q, hs) && Held(p, h) && !Uses(hs, h.id) && Retain(q, h).Ok?
    ensures Bumped(p, Retain(q, h).value, hs + [h])
  {
    var r := Retain(q, h).value;
    assert h.id !in q.idle;
    forall i | 0 <= i < |p.pages|
      ensures r.pages[i] == p.pages[i].(refs := if Uses(hs + [h], i) then p.pages[i].refs + 1 else p.pages[i].refs)
    {
      UsesSnoc(hs, h, i);
    }
  }

  lemma BumpLimit(p: Pool, q: Pool, hs: seq<Handle>, h: Handle)
    requires Inv(p) && Bumped(p, q, hs) && Held(p, h) && !Uses(hs, h.id) && Retain(q, h).Err?
    ensures Retain(q, h).error == OverflowError && AtLimit(p)
  {
    assert p.pages[h.id].refs == MAX64;
  }

  lemma UnbumpFirst(p: Pool, q: Pool, hs: seq<Handle>)
    requires Inv(p) && Bumped(p, q, hs) && hs != [] && Held(p, hs[0]) && DistinctIds(hs)
    ensures Release(q, hs[0]).Ok? && Bumped(p, Release(q, hs[0]).value, hs[1..])
  {
    var rest := hs[1..];
    assert Uses(hs, hs[0].id);
    assert forall k :: 0 <= k < |rest| ==> rest[k] == hs[k + 1];
    var r := Release(q, hs[0]).value;
    forall i | 0 <= i < |p.pages|
      ensures r.pages[i] == p.pages[i].(refs := if Uses(rest, i) then p.pages[i].refs + 1 else p.pages[i].refs)
    {
      if Uses(hs, i) && i != hs[0].id {
        var k :| 0 <= k < |hs| && hs[k].id == i;
        assert rest[k - 1].id == i;
      }
    }
  }

  /** Giving back the next entry of a table, seen from the pool the release started with. */
  lemma ReturnOne(p: Pool, q: Pool, hs: seq<Handle>, h: Handle)
    requires Inv(p) && RefsPlus(q, p, hs) && Inv(q) && Held(p, h) && !Uses(hs, h.id)
    ensures Release(q, h).Ok? && RefsPlus(Release(q, h).value, p, hs + [h])
  {
    assert q.pages[h.id].refs == p.pages[h.id].refs;
    assert Held(q, h);
    var r := Release(q, h).value;
    assert DistinctIds(hs + [h]) by {
      assert forall k :: 0 <= k < |hs| ==> (hs + [h])[k] == hs[k] && hs[k].id != h.id;
    }
    forall i | 0 <= i < |p.pages|
      ensures p.pages[i].refs == if Uses(hs + [h], i) then r.pages[i].refs + 1 else r.pages[i].refs
    {
      UsesSnoc(hs, h, i);
    }
  }

  /** Undoing all acquired references restores every count. */
  lemma {:induction false} ReleaseAllRestores(p: Pool, q: Pool, hs: seq<Handle>)
    requires RefsPlus(p, q, hs)
    ensures RefsPlus(p, ReleaseAll(q, hs), [])
    decreases |hs|
  {
    if hs != [] {
      ReleaseFirst(p, q, hs);
      ReleaseAllRestores(p, Release(q, hs[0]).value, hs[1..]);
    }
  }

  /** Retaining a valid table bumps exactly its pages. */
  lemma {:induction false} RetainAllBumps(p: Pool, hs: seq<Handle>)
    requires Inv(p) && DistinctIds(hs) && forall k :: 0 <= k < |hs| ==> Held(p, hs[k])
    requires RetainAll(p, hs).Ok?
    ensures Bumped(p, RetainAll(p, hs).value, hs)
  {
    if hs != [] {
      var last := |hs| - 1;
      RetainAllBumps(p, hs[..last]);
      assert hs == hs[..last] + [hs[last]];
      BumpOne(p, RetainAll(p, hs[..last]).value, hs[..last], hs[last]);
    }
  }

  /** Releasing what was just retained undoes it exactly. */
  lemma {:induction false} ReleaseAllUnbumps(p: Pool, q: Pool, hs: seq<Handle>)
    requires Inv(p) && DistinctIds(hs) && forall k :: 0 <= k < |hs| ==> Held(p, hs[k])
    requires Bumped(p, q, hs)
    ensures ReleaseAll(q, hs) == p
    decreases |hs|
  {
    if hs == [] {
      assert q.pages == p.pages;
    } else {
      UnbumpFirst(p, q, hs);
      ReleaseAllUnbumps(p, Release(q, hs[0]).value, hs[1..]);
    }
  }

  /** Releasing a whole table takes one reference from each of its pages. */
  lemma {:induction false} ReleaseAllReturns(p: Pool, q: Pool, done: seq<Handle>, rest: seq<Handle>)
    requires Inv(p) && Inv(q) && RefsPlus(q, p, done) && DistinctIds(done + rest)
    requires forall k :: 0 <= k < |rest| ==> Held(p, rest[k])
    ensures RefsPlus(ReleaseAll(q, rest), p, done + rest)
    decreases |rest|
  {
    if rest == [] {
      assert done + rest == done;
    } else {
      assert (done + rest)[|done|] == rest[0];
      assert forall k :: 0 <= k < |done| ==> (done + rest)[k] == done[k];
      ReturnOne(p, q, done, rest[0]);
      ReleaseKeepsInv(q, rest[0]);
      assert done + [rest[0]] + rest[1..] == done + rest;
      ReleaseAllReturns(p, Release(q, rest[0]).value, done + [rest[0]], rest[1..]);
    }
  }

  /** A share that gets through bumps the whole table; one that is refused can be undone exactly. */
  lemma ShareOutcome(p: Pool, q: Pool, hs: seq<Handle>, retained: nat)
    requires Inv(p) && DistinctIds(hs) && forall k :: 0 <= k < |hs| ==> Held(p, hs[k])
    requires retained <= |hs| && RetainAll(p, hs[..retained]) == Ok(q)
    ensures retained == |hs| ==> Bumped(p, q, hs)
    ensures retained < |hs| && Retain(q, hs[retained]).Err? ==>
              Retain(q, hs[retained]) == Err(OverflowError) && ReleaseAll(q, hs[..retained]) == p && AtLimit(p)
  {
    RetainAllBumps(p, hs[..retained]);
    if retained == |hs| {
      assert hs[..retained] == hs;
    } else if Retain(q, hs[retained]).Err? {
      assert forall k :: 0 <= k < retained ==> hs[..retained][k] == hs[k];
      BumpLimit(p, q, hs[..retained], hs[retained]);
      ReleaseAllUnbumps(p, q, hs[..retained]);
    }
  }
}
