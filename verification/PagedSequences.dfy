/** What the sequence operations of v2 do to the page pool: a request is a list of owned page
    references plus a token count, and every operation is a relation between the pool and the
    request before and after. */
module PagedSequences {
  import opened Common
  import opened Arithmetic
  import opened PagePool
  import opened TokenTables

  datatype Sequence = Sequence(blocks: seq<Handle>, numTokens: nat)

  /** The table is exactly as long as the token count needs and every entry is a live reference. */
  ghost predicate SequenceOk(p: Pool, s: Sequence) {
    && p.blockSize > 0 && |s.blocks| == CeilDiv(s.numTokens, p.blockSize) && DistinctIds(s.blocks)
    && forall k :: 0 <= k < |s.blocks| ==> Held(p, s.blocks[k])
  }

  ghost predicate AllFresh(p: Pool, q: Pool, hs: seq<Handle>) {
    forall k :: 0 <= k < |hs| ==>
      hs[k].id < |p.pages| && hs[k].id < |q.pages| && Fresh(p, q, hs[k].id) && !q.pages[hs[k].id].cached
  }

  ghost predicate Grown(p: Pool, q: Pool, hs: seq<Handle>) {
    Taken(p, q, hs) && AllFresh(p, q, hs)
  }

  /** Nothing becomes published that was not already. */
  ghost predicate NoNewPublication(p: Pool, q: Pool) {
    && SameShape(p, q)
    && forall i :: 0 <= i < |q.pages| && q.pages[i].cached ==>
         p.pages[i].cached && p.pages[i].prefix == q.pages[i].prefix
         && p.pages[i].generation == q.pages[i].generation
  }

  /** An operation that failed: counts are restored; unreferenced cached pages may have been evicted. */
  ghost predicate Undone(p: Pool, q: Pool) {
    RefsPlus(p, q, []) && NoNewPublication(p, q)
  }

  /** The tail page may be written in place: it is full, or this is the only reference to it. */
  ghost predicate TailWritable(p: Pool, s: Sequence) {
    && p.blockSize > 0
    && (s.numTokens % p.blockSize != 0 ==>
          |s.blocks| > 0 && s.blocks[|s.blocks| - 1].id < |p.pages|
          && p.pages[s.blocks[|s.blocks| - 1].id].refs == 1)
  }

  /** `count` tokens more: the old table extended by fresh private pages only. */
  ghost predicate Appends(p: Pool, q: Pool, s: Sequence, t: Sequence, count: nat) {
    && (count > 0 ==> TailWritable(p, s)) && SequenceOk(q, t)
    && t.numTokens == s.numTokens + count && s.blocks <= t.blocks
    && Grown(p, q, t.blocks[|s.blocks|..])
  }

  /** Copy-on-write of a shared partial tail: one fresh page replaces the last entry. */
  ghost predicate CopiesTail(p: Pool, q: Pool, s: Sequence, t: Sequence) {
    && p.blockSize > 0 && s.numTokens % p.blockSize != 0 && |s.blocks| == |t.blocks| > 0
    && SequenceOk(q, t) && t.numTokens == s.numTokens + 1
    && var last := |s.blocks| - 1;
       var from, to := s.blocks[last], t.blocks[last];
       && t.blocks == s.blocks[last := to]
       && Inv(q) && SameShape(p, q) && Held(p, from) && Held(q, to) && from.id != to.id
       && p.pages[from.id].refs > 1
       && Fresh(p, q, to.id) && !q.pages[to.id].cached
       && q.pages == p.pages[to.id := q.pages[to.id]][from.id := p.pages[from.id].(refs := p.pages[from.id].refs - 1)]
  }

  /** A fork shares every page of its source, partial tail included. */
  ghost predicate Forks(p: Pool, q: Pool, s: Sequence, t: Sequence) {
    t == s && Inv(q) && Bumped(p, q, s.blocks)
  }

  /** The tokens up to the end of block `k`. */
  function UpToBlock(tokens: Tokens, k: nat, blockSize: nat): Tokens
    requires k * blockSize + blockSize <= |tokens|
  {
    tokens[..k * blockSize + blockSize]
  }

  ghost predicate MapsRun(p: Pool, tokens: Tokens, hs: seq<Handle>) {
    forall k :: 0 <= k < |hs| ==>
      (k * p.blockSize + p.blockSize <= |tokens| && Live(p, hs[k])
       && Caches(p, hs[k].id, UpToBlock(tokens, k, p.blockSize)))
  }

  /** Attaching maps the longest unbroken run of published full-block prefixes. */
  ghost predicate Attaches(p: Pool, q: Pool, tokens: Tokens, t: Sequence) {
    var m := |t.blocks|;
    && p.blockSize > 0 && t.numTokens == m * p.blockSize
    && AttachedRun(p, q, tokens, t.blocks)
    && (m * p.blockSize + p.blockSize <= |tokens| ==> FindCached(p, UpToBlock(tokens, m, p.blockSize)).None?)
  }

  /** The pages of `hs` are a run of cached prefixes and carry one reference more; no other page changed. */
  ghost predicate AttachedRun(p: Pool, q: Pool, tokens: Tokens, hs: seq<Handle>) {
    && Inv(q) && SameShape(p, q) && DistinctIds(hs) && MapsRun(p, tokens, hs)
    && (forall k :: 0 <= k < |hs| ==> Held(q, hs[k]))
    && (forall i :: 0 <= i < |p.pages| ==>
          q.pages[i] == p.pages[i].(refs := if Uses(hs, i) then p.pages[i].refs + 1 else p.pages[i].refs))
  }

  /** A request may publish block `k` under its complete prefix once all its tokens are there. */
  ghost predicate Publishes(p: Pool, q: Pool, s: Sequence, k: nat, prefix: Tokens) {
    && p.blockSize > 0 && k < |s.blocks| && |prefix| == k * p.blockSize + p.blockSize <= s.numTokens
    && Publish(p, s.blocks[k], prefix) == Ok(q)
  }

  /** Only counts change, and with them whether an unpublished page is free. */
  ghost predicate OnlyCounts(p: Pool, q: Pool) {
    && SameShape(p, q)
    && forall i :: 0 <= i < |p.pages| ==>
         q.pages[i].(refs := 0, free := false) == p.pages[i].(refs := 0, free := false)
  }

  /** Every reference of the request is given back once. */
  ghost predicate Destroys(p: Pool, q: Pool, s: Sequence) {
    Inv(q) && RefsPlus(q, p, s.blocks) && OnlyCounts(p, q)
  }

  // ---------------------------------------------------------------- consequences

  /** What failed leaves as many pages available as before. */
  lemma UndoneRestoresAvailable(p: Pool, q: Pool)
    requires Inv(p) && Undone(p, q)
    ensures |q.free| + |q.idle| == |p.free| + |p.idle|
    ensures forall i :: 0 <= i < |p.pages| ==> q.pages[i].refs == p.pages[i].refs
  {
    Partition(p);
    Partition(q);
    assert forall i :: 0 <= i < |p.pages| ==> q.pages[i].refs == p.pages[i].refs by {
      assert forall i: nat :: !Uses([], i);
    }
    assert ActiveSet(p.pages) == ActiveSet(q.pages);
  }

  /** One more fresh page. */
  lemma GrowOne(p: Pool, q: Pool, hs: seq<Handle>)
    requires Grown(p, q, hs) && Allocate(q).Ok?
    ensures var (h, r) := Allocate(q).value; Grown(p, r, hs + [h])
  {
    var (h, r) := Allocate(q).value;
    TakeAllocated(p, q, hs);
    var all := hs + [h];
    assert !Uses(hs, h.id) by { AllocateOutcome(q); }
    forall k | 0 <= k < |all| ensures Fresh(p, r, all[k].id) && !r.pages[all[k].id].cached {
      if k < |hs| {
        assert r.pages[hs[k].id].(refs := 0) == q.pages[hs[k].id].(refs := 0);
        assert Held(q, hs[k]) && Held(r, hs[k]);
      }
    }
  }

  /** Handing back the fresh page taken last. */
  lemma ShrinkOne(p: Pool, q: Pool, hs: seq<Handle>)
    requires RefsPlus(p, q, hs) && NoNewPublication(p, q) && hs != []
    ensures var h := hs[|hs| - 1];
            Release(q, h).Ok? && RefsPlus(p, Release(q, h).value, hs[..|hs| - 1])
            && NoNewPublication(p, Release(q, h).value)
  {
    var last := |hs| - 1;
    var h, rest := hs[last], hs[..last];
    assert hs == rest + [h];
    ReleaseKeepsInv(q, h);
    var r := Release(q, h).value;
    assert forall k :: 0 <= k < |rest| ==> rest[k] == hs[k];
    forall i | 0 <= i < |p.pages|
      ensures r.pages[i].refs == if Uses(rest, i) then p.pages[i].refs + 1 else p.pages[i].refs
    {
      UsesSnoc(rest, h, i);
    }
  }

  /** Releasing a list of handles, the last one first. */
  ghost function ReleaseBack(p: Pool, hs: seq<Handle>): Pool
    decreases |hs|
  {
    if hs == [] then p
    else
      var h := hs[|hs| - 1];
      ReleaseBack(if Release(p, h).Ok? then Release(p, h).value else p, hs[..|hs| - 1])
  }

  /** Every one of those releases succeeds. */
  ghost predicate AllHeldInTurn(p: Pool, hs: seq<Handle>)
    decreases |hs|
  {
    hs != [] ==> Release(p, hs[|hs| - 1]).Ok? && AllHeldInTurn(Release(p, hs[|hs| - 1]).value, hs[..|hs| - 1])
  }

  /** Releasing the entries from `size` on begins with the last one. */
  lemma LastHeldInTurn(p: Pool, hs: seq<Handle>, size: nat)
    requires size < |hs| && AllHeldInTurn(p, hs[size..])
    ensures var r := Release(p, hs[|hs| - 1]);
            && r.Ok? && AllHeldInTurn(r.value, hs[..|hs| - 1][size..])
            && ReleaseBack(r.value, hs[..|hs| - 1][size..]) == ReleaseBack(p, hs[size..])
  {
    DropLast(hs, size);
  }

  lemma {:induction false} ReleaseBackUndoes(p: Pool, q: Pool, hs: seq<Handle>)
    requires RefsPlus(p, q, hs) && NoNewPublication(p, q)
    ensures AllHeldInTurn(q, hs) && Undone(p, ReleaseBack(q, hs))
    decreases |hs|
  {
    if hs != [] {
      ShrinkOne(p, q, hs);
      ReleaseBackUndoes(p, Release(q, hs[|hs| - 1]).value, hs[..|hs| - 1]);
    }
  }

  lemma GrownIsUndoable(p: Pool, q: Pool, hs: seq<Handle>)
    requires Grown(p, q, hs)
    ensures RefsPlus(p, q, hs) && NoNewPublication(p, q)
  {
    TakenIsRefsPlus(p, q, hs);
    forall i | 0 <= i < |q.pages| && q.pages[i].cached
      ensures p.pages[i] == q.pages[i]
    {
      assert !Uses(hs, i);
    }
  }

  /** Why a request could not grow, and that what it took so far can be given back. */
  lemma GrowthRefused(p: Pool, q: Pool, hs: seq<Handle>)
    requires Inv(p) && Grown(p, q, hs) && Allocate(q).Err?
    ensures Allocate(q).error in {CapacityError, OverflowError}
    ensures Allocate(q).error == CapacityError ==> |p.free| + |p.idle| <= |hs|
    ensures Allocate(q).error == OverflowError ==> AtLimit(p)
    ensures RefsPlus(p, q, hs) && NoNewPublication(p, q)
  {
    if Allocate(q).error == CapacityError {
      ExhaustedMeansAllTaken(p, q, hs);
    } else {
      AllocateLimit(p, q, hs);
    }
    GrownIsUndoable(p, q, hs);
  }

  lemma AllocateRefused(p: Pool)
    requires Inv(p) && Allocate(p).Err?
    ensures Allocate(p).error in {CapacityError, OverflowError}
    ensures Allocate(p).error == CapacityError ==> |p.free| + |p.idle| == 0
    ensures Allocate(p).error == OverflowError ==> AtLimit(p)
  {
    if Allocate(p).error == OverflowError {
      var id := if p.free != [] then p.free[0] else p.idle[0];
      assert p.pages[id].generation == MAX64;
    }
  }

  /** One more token needs one more page at most. */
  lemma OneBlockAtMost(p: Pool, s: Sequence)
    requires Inv(p) && SequenceOk(p, s)
    ensures CeilDiv(s.numTokens + 1, p.blockSize) <= |s.blocks| + 1
  {
    var n, b := s.numTokens, p.blockSize;
    if n % b == 0 {
      assert n == (n / b) * b;
      AlignedGrowth(b, n / b, 1);
    } else {
      NextTokenSameBlock(n, b);
    }
  }

  /** A request that grew is well formed again: old entries are still held, new ones are fresh. */
  lemma GrowthKeepsSequence(p: Pool, q: Pool, s: Sequence, t: Sequence, count: nat)
    requires SequenceOk(p, s) && s.blocks <= t.blocks && Grown(p, q, t.blocks[|s.blocks|..])
    requires t.numTokens == s.numTokens + count && |t.blocks| == CeilDiv(t.numTokens, p.blockSize)
    ensures SequenceOk(q, t)
  {
    var hs := t.blocks[|s.blocks|..];
    forall k | 0 <= k < |s.blocks| ensures t.blocks[k] == s.blocks[k] && !Uses(hs, s.blocks[k].id) {
      assert Held(p, s.blocks[k]);
    }
    forall k | |s.blocks| <= k < |t.blocks| ensures t.blocks[k] == hs[k - |s.blocks|] && Uses(hs, t.blocks[k].id) {
      assert hs[k - |s.blocks|].id == t.blocks[k].id;
    }
    forall k | 0 <= k < |t.blocks| ensures Held(q, t.blocks[k]) {
      if k < |s.blocks| {
        assert Held(p, s.blocks[k]);
      }
    }
  }

  lemma UndoneKeepsSequence(p: Pool, q: Pool, s: Sequence)
    requires SequenceOk(p, s) && Undone(p, q)
    ensures SequenceOk(q, s)
  {
    forall k | 0 <= k < |s.blocks| ensures Held(q, s.blocks[k]) {
      assert Held(p, s.blocks[k]);
      assert !Uses([], s.blocks[k].id);
    }
  }

  lemma BlocksNeeded(n: nat, count: nat, blockSize: nat)
    requires blockSize > 0
    ensures CeilDiv(n, blockSize) <= CeilDiv(n + count, blockSize)
  {
    DivMonotone(n, n + count, blockSize);
  }

  /** Replacing the shared tail by a copy keeps the request well formed. */
  lemma CopyKeepsSequence(p: Pool, a: Pool, q: Pool, s: Sequence, t: Sequence, h: Handle)
    requires Inv(p) && SequenceOk(p, s) && s.numTokens % p.blockSize != 0
    requires |s.blocks| > 0 && p.pages[s.blocks[|s.blocks| - 1].id].refs > 1
    requires Allocate(p) == Ok((h, a)) && Release(a, s.blocks[|s.blocks| - 1]) == Ok(q)
    requires t == Sequence(s.blocks[|s.blocks| - 1 := h], s.numTokens + 1)
    ensures CopiesTail(p, q, s, t)
  {
    AllocateOutcome(p);
    AllocateKeepsInv(p);
    ReleaseKeepsInv(a, s.blocks[|s.blocks| - 1]);
    forall k | 0 <= k < |s.blocks| ensures Held(p, s.blocks[k]) && s.blocks[k].id != h.id {
    }
    NextTokenSameBlock(s.numTokens, p.blockSize);
    assert q.pages == a.pages[s.blocks[|s.blocks| - 1].id := q.pages[s.blocks[|s.blocks| - 1].id]];
    assert a.pages == p.pages[h.id := a.pages[h.id]];
  }

  /** A page just allocated may take the place of the shared tail. */
  lemma CopyReady(p: Pool, a: Pool, from: Handle, h: Handle)
    requires Inv(p) && Held(p, from) && Allocate(p) == Ok((h, a))
    ensures h.id != from.id && Held(a, from) && Held(a, h)
    ensures a.pages[h.id].refs == 1 && !a.pages[h.id].cached
  {
    AllocateOutcome(p);
  }

  /** A partial tail has room for one more token. */
  lemma NextTokenSameBlock(n: nat, blockSize: nat)
    requires blockSize > 0 && n % blockSize != 0
    ensures CeilDiv(n + 1, blockSize) == CeilDiv(n, blockSize)
  {
    assert n == (n / blockSize) * blockSize + n % blockSize;
    if n % blockSize + 1 == blockSize {
      assert n + 1 == (n / blockSize + 1) * blockSize;
      DivModUnique(n + 1, blockSize, n / blockSize + 1, 0);
    } else {
      DivModUnique(n + 1, blockSize, n / blockSize, n % blockSize + 1);
    }
  }

  // ---------------------------------------------------------------- attaching cached prefixes

  lemma AttachedIsUndoable(p: Pool, q: Pool, tokens: Tokens, hs: seq<Handle>)
    requires AttachedRun(p, q, tokens, hs)
    ensures RefsPlus(p, q, hs) && NoNewPublication(p, q)
  {
  }

  lemma LookupHit(p: Pool, prefix: Tokens, h: Handle, q: Pool)
    requires Lookup(p, prefix) == Ok((Some(h), q))
    ensures Live(p, h) && Caches(p, h.id, prefix) && Retain(p, h) == Ok(q) && Live(q, h)
    ensures Retain(q, h).Err? ==> Retain(q, h).error == OverflowError
  {
  }

  lemma LookupMiss(p: Pool, prefix: Tokens)
    requires Inv(p)
    ensures Lookup(p, prefix).Err? ==> Lookup(p, prefix).error == OverflowError
    ensures Lookup(p, prefix).Ok? && Lookup(p, prefix).value.0.None? ==>
              FindCached(p, prefix).None? && Lookup(p, prefix).value.1 == p
  {
  }

  /** A hit on the next prefix, kept by the table and returned by the lookup, extends the run. */
  lemma AttachOne(p: Pool, q: Pool, q1: Pool, q2: Pool, tokens: Tokens, hs: seq<Handle>, h: Handle)
    requires Inv(p) && AttachedRun(p, q, tokens, hs) && p.blockSize > 0
    requires |hs| * p.blockSize + p.blockSize <= |tokens|
    requires Lookup(q, UpToBlock(tokens, |hs|, p.blockSize)) == Ok((Some(h), q1)) && Retain(q1, h) == Ok(q2)
    ensures Release(q2, h).Ok? && AttachedRun(p, Release(q2, h).value, tokens, hs + [h])
  {
    var r := Release(q2, h).value;
    RetainKeepsInv(q, h);
    RetainKeepsInv(q1, h);
    ReleaseKeepsInv(q2, h);
    NextPageNotAttached(p, q, tokens, hs, h.id);
    assert r.pages == q.pages[h.id := q.pages[h.id].(refs := q.pages[h.id].refs + 1)];
    ExtendRun(p, q, r, tokens, hs, h);
  }

  /** Attaching a page takes two references for a while, the lookup's and the table's. */
  ghost predicate NearLimit(p: Pool) {
    exists i :: 0 <= i < |p.pages| && p.pages[i].refs >= MAX64 - 1
  }

  lemma AttachLimit(p: Pool, q: Pool, tokens: Tokens, hs: seq<Handle>, id: nat)
    requires Inv(p) && AttachedRun(p, q, tokens, hs) && p.blockSize > 0
    requires |hs| * p.blockSize + p.blockSize <= |tokens|
    requires Caches(q, id, UpToBlock(tokens, |hs|, p.blockSize)) && q.pages[id].refs >= MAX64 - 1
    ensures NearLimit(p)
  {
    NextPageNotAttached(p, q, tokens, hs, id);
    assert p.pages[id].refs >= MAX64 - 1;
  }

  /** What a lookup of the next prefix can say while a run is being attached. */
  lemma AttachRound(p: Pool, q: Pool, tokens: Tokens, hs: seq<Handle>, prefix: Tokens)
    requires Inv(p) && AttachedRun(p, q, tokens, hs) && p.blockSize > 0
    requires |hs| * p.blockSize + p.blockSize <= |tokens| && prefix == UpToBlock(tokens, |hs|, p.blockSize)
    ensures RefsPlus(p, q, hs) && NoNewPublication(p, q)
    ensures Lookup(q, prefix).Err? ==> Lookup(q, prefix).error == OverflowError && NearLimit(p)
    ensures Lookup(q, prefix).Ok? && Lookup(q, prefix).value.0.None? ==>
              Lookup(q, prefix).value.1 == q && FindCached(p, prefix).None?
  {
    AttachKeepsCache(p, q, tokens, hs, prefix);
    AttachedIsUndoable(p, q, tokens, hs);
    LookupMiss(q, prefix);
    if Lookup(q, prefix).Err? { AttachLimit(p, q, tokens, hs, FindCached(q, prefix).value); }
  }

  lemma ExtendRun(p: Pool, q: Pool, r: Pool, tokens: Tokens, hs: seq<Handle>, h: Handle)
    requires AttachedRun(p, q, tokens, hs) && p.blockSize > 0 && Inv(r) && SameShape(q, r)
    requires |hs| * p.blockSize + p.blockSize <= |tokens| && !Uses(hs, h.id)
    requires Live(q, h) && Caches(q, h.id, UpToBlock(tokens, |hs|, p.blockSize))
    requires r.pages == q.pages[h.id := q.pages[h.id].(refs := q.pages[h.id].refs + 1)]
    ensures AttachedRun(p, r, tokens, hs + [h])
  {
    var all := hs + [h];
    assert forall k :: 0 <= k < |hs| ==> all[k] == hs[k] && hs[k].id != h.id;
    ExtendMaps(p, q, tokens, hs, h);
    forall i | 0 <= i < |p.pages|
      ensures r.pages[i] == p.pages[i].(refs := if Uses(all, i) then p.pages[i].refs + 1 else p.pages[i].refs)
    {
      UsesSnoc(hs, h, i);
    }
  }

  lemma ExtendMaps(p: Pool, q: Pool, tokens: Tokens, hs: seq<Handle>, h: Handle)
    requires AttachedRun(p, q, tokens, hs) && |hs| * p.blockSize + p.blockSize <= |tokens| && !Uses(hs, h.id)
    requires Live(q, h) && Caches(q, h.id, UpToBlock(tokens, |hs|, p.blockSize))
    ensures MapsRun(p, tokens, hs + [h])
  {
    var all := hs + [h];
    forall k | 0 <= k < |all|
      ensures k * p.blockSize + p.blockSize <= |tokens| && Live(p, all[k])
              && Caches(p, all[k].id, UpToBlock(tokens, k, p.blockSize))
    {
      if k < |hs| { assert all[k] == hs[k]; }
    }
  }

  lemma NextPageNotAttached(p: Pool, q: Pool, tokens: Tokens, hs: seq<Handle>, id: nat)
    requires AttachedRun(p, q, tokens, hs) && p.blockSize > 0
    requires |hs| * p.blockSize + p.blockSize <= |tokens|
    requires Caches(q, id, UpToBlock(tokens, |hs|, p.blockSize))
    ensures !Uses(hs, id)
  {
    forall k | 0 <= k < |hs| ensures hs[k].id != id {
      assert Caches(p, hs[k].id, UpToBlock(tokens, k, p.blockSize));
      MulOrder(k, |hs|, p.blockSize);
    }
  }

  /** A prefix is cached after part of the run was attached exactly when it was before. */
  lemma AttachKeepsCache(p: Pool, q: Pool, tokens: Tokens, hs: seq<Handle>, prefix: Tokens)
    requires AttachedRun(p, q, tokens, hs)
    ensures FindCached(q, prefix).None? <==> FindCached(p, prefix).None?
  {
    assert forall id: nat :: Caches(p, id, prefix) <==> Caches(q, id, prefix);
  }

  /** Taking a reference and giving it back undoes an interrupted round. */
  lemma RetainReleaseUndone(p: Pool, q: Pool, hs: seq<Handle>, h: Handle)
    requires RefsPlus(p, q, hs) && NoNewPublication(p, q) && Retain(q, h).Ok?
    requires q.pages[h.id].refs > 0 || q.pages[h.id].cached
    ensures var q1 := Retain(q, h).value;
            && Release(q1, h).Ok?
            && RefsPlus(p, Release(q1, h).value, hs) && NoNewPublication(p, Release(q1, h).value)
  {
    RetainKeepsInv(q, h);
    ReleaseKeepsInv(Retain(q, h).value, h);
    var r := Release(Retain(q, h).value, h).value;
    assert r.pages == q.pages;
  }

  /** A fork whose every share succeeded maps exactly the source's pages. */
  lemma ForkDone(p: Pool, q: Pool, s: Sequence)
    requires Inv(p) && Inv(q) && SequenceOk(p, s) && RetainAll(p, s.blocks) == Ok(q)
    ensures Forks(p, q, s, s) && SequenceOk(q, s)
  {
    RetainAllBumps(p, s.blocks);
    forall k | 0 <= k < |s.blocks| ensures Held(q, s.blocks[k]) {
      assert Held(p, s.blocks[k]);
    }
  }

  /** Sharing a whole table makes a fork; where a page was refused, giving back the others undoes it. */
  lemma ForkEnds(p: Pool, q: Pool, s: Sequence, retained: nat)
    requires Inv(p) && Inv(q) && SequenceOk(p, s) && retained <= |s.blocks|
             && RetainAll(p, s.blocks[..retained]) == Ok(q)
    ensures retained == |s.blocks| ==> Forks(p, q, s, s) && SequenceOk(q, s)
    ensures retained < |s.blocks| && Retain(q, s.blocks[retained]).Err? ==>
              ReleaseAll(q, s.blocks[..retained]) == p && AtLimit(p)
  {
    ShareOutcome(p, q, s.blocks, retained);
    if retained == |s.blocks| {
      assert s.blocks[..retained] == s.blocks;
      ForkDone(p, q, s);
    }
  }

  lemma DestroyDone(p: Pool, s: Sequence)
    requires Inv(p) && SequenceOk(p, s)
    ensures Destroys(p, ReleaseAll(p, s.blocks), s)
  {
    assert [] + s.blocks == s.blocks;
    ReleaseAllReturns(p, p, [], s.blocks);
    ReleaseAllCounts(p, s.blocks);
    ReleaseAllKeepsInv(p, s.blocks);
  }

  lemma {:induction false} ReleaseAllKeepsInv(p: Pool, hs: seq<Handle>)
    requires Inv(p)
    ensures Inv(ReleaseAll(p, hs))
    decreases |hs|
  {
    if hs != [] {
      if Release(p, hs[0]).Ok? {
        ReleaseKeepsInv(p, hs[0]);
      }
      ReleaseAllKeepsInv(if Release(p, hs[0]).Ok? then Release(p, hs[0]).value else p, hs[1..]);
    }
  }

  lemma {:induction false} ReleaseAllCounts(p: Pool, hs: seq<Handle>)
    ensures OnlyCounts(p, ReleaseAll(p, hs))
    decreases |hs|
  {
    if hs != [] {
      ReleaseAllCounts(if Release(p, hs[0]).Ok? then Release(p, hs[0]).value else p, hs[1..]);
    }
  }

  lemma AttachDone(p: Pool, q: Pool, tokens: Tokens, hs: seq<Handle>)
    requires AttachedRun(p, q, tokens, hs) && p.blockSize > 0
    ensures SequenceOk(q, Sequence(hs, |hs| * p.blockSize))
  {
    DivModUnique(|hs| * p.blockSize, p.blockSize, |hs|, 0);
  }

  /** Every token of a request has an entry in its table. */
  lemma TokenHasBlock(index: nat, n: nat, blockSize: nat)
    requires blockSize > 0 && index < n
    ensures 0 <= index / blockSize < CeilDiv(n, blockSize)
  {
    DivMonotone(index, n, blockSize);
  }

  lemma LastBlockOffset(n: nat, blockSize: nat)
    requires blockSize > 0 && n % blockSize != 0
    ensures n / blockSize == CeilDiv(n, blockSize) - 1
  {
  }

  lemma NothingUndone(p: Pool)
    requires Inv(p)
    ensures Undone(p, p)
  {
  }

  lemma AllocateUndone(p: Pool, h: Handle, q: Pool)
    requires Inv(p) && Allocate(p) == Ok((h, q))
    ensures Release(q, h).Ok? && Undone(p, Release(q, h).value)
  {
    AllocateOutcome(p);
    AllocateKeepsInv(p);
    ReleaseKeepsInv(q, h);
  }

  lemma AttachNothing(p: Pool, tokens: Tokens)
    requires Inv(p)
    ensures AttachedRun(p, p, tokens, [])
  {
  }

  /** The length test of the publisher accepts exactly the prefixes that end with block `k`. */
  lemma NotCompletePrefix(blockSize: nat, n: nat, k: nat)
    requires blockSize > 0
    ensures n % blockSize == 0 && n / blockSize == k + 1 <==> n == k * blockSize + blockSize
  {
    MulSucc(k, blockSize);
    assert n == (n / blockSize) * blockSize + n % blockSize;
    if n == k * blockSize + blockSize {
      DivModUnique(n, blockSize, k + 1, 0);
    }
  }

  lemma PublishKeepsSequence(p: Pool, q: Pool, s: Sequence, k: nat, prefix: Tokens)
    requires SequenceOk(p, s) && Publishes(p, q, s, k, prefix)
    ensures SequenceOk(q, s)
  {
    forall j | 0 <= j < |s.blocks| ensures Held(q, s.blocks[j]) {
      assert Held(p, s.blocks[j]);
    }
  }
}
