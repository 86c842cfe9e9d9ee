/** Block tables, sequences and the prefix cache of v2 (src/v2/block_table.cpp,
    src/v2/sequence_state.cpp, src/v2/prefix_cache.cpp) over the page pool. */
module Sequences {
  import opened Common
  import opened Arithmetic
  import opened PagePool
  import opened TokenTables
  import opened BlockManagers
  import opened PagedSequences

  /** Each entry owns one reference of the pool. */
  class BlockTable {
    const pool: BlockManager
    var blocks: seq<Handle>

    constructor (pool: BlockManager)
      ensures this.pool == pool && blocks == []
    {
      this.pool := pool;
      blocks := [];
    }

    method AppendNew() returns (r: Result<nat>)
      requires pool.Valid()
      modifies this, pool, pool.idleLru
      ensures pool.Valid()
      ensures match Allocate(old(pool.View()))
              case Ok(out) => r == Ok(out.0.id) && blocks == old(blocks) + [out.0] && pool.View() == out.1
              case Err(e) => r == Err(e) && blocks == old(blocks) && pool.View() == old(pool.View())
    {
      var taken := pool.Allocate();
      match taken
      case Err(e) =>
        r := Err(e);
      case Ok(h) =>
        blocks := blocks + [h];
        r := Ok(h.id);
    }

    method AppendExisting(h: Handle) returns (r: Result<()>)
      requires pool.Valid()
      modifies this, pool, pool.idleLru
      ensures pool.Valid()
      ensures match Retain(old(pool.View()), h)
              case Ok(p) => r == Ok(()) && blocks == old(blocks) + [h] && pool.View() == p
              case Err(e) => r == Err(e) && blocks == old(blocks) && pool.View() == old(pool.View())
    {
      r := pool.Retain(h);
      if r.Ok? {
        blocks := blocks + [h];
      }
    }

    /** Shares entry `k` of a table of the same pool, possibly this very table. */
    method AppendShared(source: BlockTable, k: nat) returns (r: Result<()>)
      requires pool.Valid()
      modifies this, pool, pool.idleLru
      ensures pool.Valid()
      ensures pool != source.pool ==> r == Err(InvalidArgument)
      ensures pool == source.pool && k >= |old(source.blocks)| ==> r == Err(OutOfRange)
      ensures pool == source.pool && k < |old(source.blocks)| ==>
                match Retain(old(pool.View()), old(source.blocks)[k])
                case Ok(p) => r == Ok(()) && blocks == old(blocks) + [old(source.blocks)[k]] && pool.View() == p
                case Err(e) => r == Err(e)
      ensures r.Err? ==> blocks == old(blocks) && pool.View() == old(pool.View())
    {
      if pool != source.pool {
        return Err(InvalidArgument);
      }
      if k >= |source.blocks| {
        return Err(OutOfRange);
      }
      r := AppendExisting(source.blocks[k]);
    }

    /** Shares all entries of another table in order, stopping at the first refusal. */
    method AppendAllShared(source: BlockTable) returns (r: Result<()>)
      requires pool.Valid() && source != this && source.pool == pool && blocks == []
      modifies this, pool, pool.idleLru
      ensures pool.Valid() && |blocks| <= |source.blocks| && blocks == source.blocks[..|blocks|]
      ensures RetainAll(old(pool.View()), blocks) == Ok(pool.View())
      ensures r.Ok? ==> blocks == source.blocks
      ensures r.Err? ==> |blocks| < |source.blocks| && Retain(pool.View(), source.blocks[|blocks|]) == Err(r.error)
    {
      var k := 0;
      while k < |source.blocks|
        invariant 0 <= k <= |source.blocks| && blocks == source.blocks[..k]
        invariant pool.Valid() && RetainAll(old(pool.View()), blocks) == Ok(pool.View())
      {
        TakeSnoc(source.blocks, k);
        r := AppendShared(source, k);
        if r.Err? {
          return;
        }
        k := k + 1;
      }
      r := Ok(());
    }

    /** The entry itself, refused once its page has no reference under this generation. */
    method GetHandle(k: nat) returns (r: Result<Handle>)
      requires pool.Valid()
      ensures r == if k >= |blocks| then Err(OutOfRange)
                   else if Held(pool.View(), blocks[k]) then Ok(blocks[k])
                   else Err(InvalidArgument)
    {
      if k >= |blocks| {
        return Err(OutOfRange);
      }
      var refs := pool.RefCount(blocks[k]);
      r := if refs.Ok? && refs.value > 0 then Ok(blocks[k]) else Err(InvalidArgument);
    }

    method PopBack() returns (r: Result<()>)
      requires pool.Valid()
      modifies this, pool, pool.idleLru
      ensures pool.Valid()
      ensures old(blocks) == [] ==> r == Err(OutOfRange) && blocks == [] && pool.View() == old(pool.View())
      ensures old(blocks) != [] ==>
                match Release(old(pool.View()), old(blocks)[|old(blocks)| - 1])
                case Ok(p) => r == Ok(()) && blocks == old(blocks)[..|old(blocks)| - 1] && pool.View() == p
                case Err(e) => r == Err(e) && blocks == old(blocks) && pool.View() == old(pool.View())
    {
      if blocks == [] {
        return Err(OutOfRange);
      }
      r := pool.Release(blocks[|blocks| - 1]);
      if r.Ok? {
        blocks := blocks[..|blocks| - 1];
      }
    }

    /** Drops entries from the end until `size` are left. */
    method PopTo(size: nat)
      requires pool.Valid() && size <= |blocks| && AllHeldInTurn(pool.View(), blocks[size..])
      modifies this, pool, pool.idleLru
      ensures pool.Valid() && blocks == old(blocks)[..size]
      ensures pool.View() == ReleaseBack(old(pool.View()), old(blocks)[size..])
    {
      while |blocks| > size
        invariant pool.Valid() && size <= |blocks| && blocks <= old(blocks)
        invariant ReleaseBack(pool.View(), blocks[size..]) == ReleaseBack(old(pool.View()), old(blocks)[size..])
        invariant AllHeldInTurn(pool.View(), blocks[size..])
      {
        ghost var p, hs := pool.View(), blocks;
        LastHeldInTurn(p, hs, size);
        var popped := PopBack();
        assert pool.View() == Release(p, hs[|hs| - 1]).value && blocks == hs[..|hs| - 1];
      }
      assert blocks[size..] == [];
    }

    /** Takes over the caller's reference to a private page in place of the last entry. */
    method ReplaceLastOwned(h: Handle) returns (r: Result<()>)
      requires pool.Valid()
      modifies this, pool, pool.idleLru
      ensures pool.Valid()
      ensures r.Err? ==> blocks == old(blocks) && pool.View() == old(pool.View())
      ensures r.Ok? <==>
                && old(blocks) != [] && h != old(blocks)[|old(blocks)| - 1]
                && Held(old(pool.View()), h)
                && old(pool.View()).pages[h.id].refs == 1 && !old(pool.View()).pages[h.id].cached
                && Held(old(pool.View()), old(blocks)[|old(blocks)| - 1])
      ensures r.Ok? ==>
                && blocks == old(blocks)[|old(blocks)| - 1 := h]
                && Release(old(pool.View()), old(blocks)[|old(blocks)| - 1]) == Ok(pool.View())
    {
      if blocks == [] {
        return Err(OutOfRange);
      }
      var last := |blocks| - 1;
      var refs := pool.RefCount(h);
      var published := pool.IsPublished(h);
      if refs.Err? || refs.value != 1 || published.value || h == blocks[last] {
        return Err(InvalidArgument);
      }
      r := pool.Release(blocks[last]);
      if r.Ok? {
        blocks := blocks[last := h];
      }
    }

    method Clear()
      requires pool.Valid()
      modifies this, pool, pool.idleLru
      ensures pool.Valid() && blocks == [] && pool.View() == ReleaseAll(old(pool.View()), old(blocks))
    {
      pool.ReleaseEach(blocks);
      blocks := [];
    }
  }

  datatype TokenLocation = TokenLocation(physicalBlock: nat, offsetInBlock: nat)

  /** `loc` is the page the table maps for token `index`, and the token's place in that page. */
  ghost predicate Locates(loc: TokenLocation, s: Sequence, index: nat, blockSize: nat)
    requires blockSize > 0
  {
    index / blockSize < |s.blocks| && loc == TokenLocation(s.blocks[index / blockSize].id, index % blockSize)
  }

  class SequenceState {
    const blockSize: nat
    const table: BlockTable
    var numTokens: nat

    ghost function State(): Sequence
      reads this, table
    {
      Sequence(table.blocks, numTokens)
    }

    ghost function Pages(): Pool
      reads this, table, table.pool, table.pool.idleLru
    {
      table.pool.View()
    }

    ghost predicate Valid()
      reads this, table, table.pool, table.pool.idleLru
    {
      && table.pool.Valid() && blockSize == table.pool.blockSize && numTokens <= MAX64
      && SequenceOk(Pages(), State())
    }

    constructor (pool: BlockManager)
      requires pool.Valid()
      ensures Valid() && fresh(table) && table.pool == pool && State() == Sequence([], 0)
    {
      blockSize := pool.blockSize;
      var t := new BlockTable(pool);
      table := t;
      numTokens := 0;
    }

    /** Reserves `count` more token positions, or changes nothing but evicted cache entries. */
    method AppendTokens(count: nat) returns (r: Result<()>)
      requires Valid()
      modifies this, table, table.pool, table.pool.idleLru
      ensures Valid()
      ensures r.Ok? ==> Appends(old(Pages()), Pages(), old(State()), State(), count)
      ensures r.Err? ==> State() == old(State()) && Undone(old(Pages()), Pages())
      ensures r == Err(LogicError) <==>
                count > 0 && count <= MAX64 - old(numTokens) && !TailWritable(old(Pages()), old(State()))
      ensures r.Err? ==> r.error in {LogicError, CapacityError, OverflowError}
      ensures r == Err(CapacityError) ==>
                |old(Pages()).free| + |old(Pages()).idle| <
                CeilDiv(old(numTokens) + count, blockSize) - |old(table.blocks)|
      ensures r == Err(OverflowError) ==> count > MAX64 - old(numTokens) || AtLimit(old(Pages()))
    {
      ghost var before := Pages();
      if count == 0 {
        return Ok(());
      }
      if count > MAX64 - numTokens {
        return Err(OverflowError);
      }
      var shared := TailIsShared();
      if shared {
        return Err(LogicError);
      }
      var next := numTokens + count;
      var needed := CeilDiv(next, blockSize);
      BlocksNeeded(numTokens, count, blockSize);
      var grown := GrowTo(needed);
      if grown.Err? {
        UndoneKeepsSequence(before, Pages(), State());
        return grown;
      }
      numTokens := next;
      GrowthKeepsSequence(before, Pages(), old(State()), State(), count);
      r := Ok(());
    }

    /** The tail page is partial and somebody else references it too. */
    method TailIsShared() returns (shared: bool)
      requires Valid()
      ensures shared <==> !TailWritable(Pages(), State())
      ensures shared ==> numTokens % blockSize != 0 && |table.blocks| > 0
                         && Pages().pages[table.blocks[|table.blocks| - 1].id].refs > 1
    {
      if numTokens % blockSize == 0 {
        return false;
      }
      TokenHasBlock(numTokens - 1, numTokens, blockSize);
      var last := table.blocks[|table.blocks| - 1];
      assert Held(Pages(), last);
      var refs := table.pool.RefCount(last);
      shared := refs.value > 1;
    }

    method GrowTo(needed: nat) returns (r: Result<()>)
      requires Valid() && |table.blocks| <= needed
      modifies table, table.pool, table.pool.idleLru
      ensures table.pool.Valid()
      ensures r.Ok? ==> old(table.blocks) <= table.blocks && |table.blocks| == needed
                        && Grown(old(Pages()), Pages(), table.blocks[|old(table.blocks)|..])
      ensures r.Err? ==> table.blocks == old(table.blocks) && Undone(old(Pages()), Pages())
      ensures r.Err? ==> r.error in {CapacityError, OverflowError}
      ensures r == Err(CapacityError) ==>
                |old(Pages()).free| + |old(Pages()).idle| < needed - |old(table.blocks)|
      ensures r == Err(OverflowError) ==> AtLimit(old(Pages()))
    {
      ghost var before := Pages();
      var original := |table.blocks|;
      while |table.blocks| < needed
        invariant table.pool.Valid() && old(table.blocks) <= table.blocks && |table.blocks| <= needed
        invariant Grown(before, Pages(), table.blocks[original..])
      {
        ghost var mid := Pages();
        ghost var hs := table.blocks[original..];
        ghost var blocks := table.blocks;
        var appended := table.AppendNew();
        if appended.Err? {
          GrowthRefused(before, mid, hs);
          ShrinkTo(before, original);
          return Err(appended.error);
        }
        GrowOne(before, mid, hs);
        DropSnoc(blocks, table.blocks[|blocks|], original);
      }
      r := Ok(());
    }

    method ShrinkTo(ghost before: Pool, original: nat)
      requires table.pool.Valid() && original <= |table.blocks|
      requires RefsPlus(before, Pages(), table.blocks[original..]) && NoNewPublication(before, Pages())
      modifies table, table.pool, table.pool.idleLru
      ensures table.pool.Valid() && table.blocks == old(table.blocks)[..original]
      ensures Undone(before, Pages())
    {
      ReleaseBackUndoes(before, Pages(), table.blocks[original..]);
      table.PopTo(original);
    }

    /** One decode step: reserves the next position and says where it is. */
    method AppendToken() returns (r: Result<TokenLocation>)
      requires Valid()
      modifies this, table, table.pool, table.pool.idleLru
      ensures Valid()
      ensures r.Ok? ==> Appends(old(Pages()), Pages(), old(State()), State(), 1)
                        && Locates(r.value, State(), old(numTokens), blockSize)
      ensures r.Err? ==> State() == old(State()) && Undone(old(Pages()), Pages())
      ensures r.Err? ==> r.error in {LogicError, CapacityError, OverflowError}
      ensures r == Err(LogicError) ==> !TailWritable(old(Pages()), old(State()))
      ensures r == Err(CapacityError) ==>
                |old(Pages()).free| + |old(Pages()).idle| <
                CeilDiv(old(numTokens) + 1, blockSize) - |old(table.blocks)|
      ensures r == Err(OverflowError) ==> old(numTokens) == MAX64 || AtLimit(old(Pages()))
    {
      var index := numTokens;
      var appended := AppendTokens(1);
      if appended.Err? {
        return Err(appended.error);
      }
      r := GetLocation(index);
    }

    /** Where token `index` lives: its entry of the table and its offset in that page. */
    method GetLocation(index: nat) returns (r: Result<TokenLocation>)
      requires Valid()
      ensures index >= numTokens ==> r == Err(OutOfRange)
      ensures index < numTokens ==> r.Ok? && Locates(r.value, State(), index, blockSize)
    {
      if index >= numTokens {
        return Err(OutOfRange);
      }
      TokenHasBlock(index, numTokens, blockSize);
      var h := table.GetHandle(index / blockSize);
      r := Ok(TokenLocation(h.value.id, index % blockSize));
    }

    /** Appends one token, first copying a shared partial tail page. `copier` is what the caller's
        copy callback does: None when there is none, otherwise whether it succeeds. */
    method AppendTokenWithCopy(copier: Option<bool>) returns (r: Result<TokenLocation>)
      requires Valid()
      modifies this, table, table.pool, table.pool.idleLru
      ensures Valid()
      ensures r.Ok? && TailWritable(old(Pages()), old(State())) ==>
                Appends(old(Pages()), Pages(), old(State()), State(), 1)
      ensures r.Ok? && !TailWritable(old(Pages()), old(State())) ==>
                copier == Some(true) && CopiesTail(old(Pages()), Pages(), old(State()), State())
      ensures r.Ok? ==> Locates(r.value, State(), old(numTokens), blockSize)
      ensures r.Err? ==> State() == old(State()) && Undone(old(Pages()), Pages())
      ensures r == Err(InvalidArgument) <==>
                old(numTokens) < MAX64 && !TailWritable(old(Pages()), old(State())) && copier.None?
      ensures r.Err? ==> r.error in {InvalidArgument, CapacityError, OverflowError, CallbackError}
      ensures r == Err(CapacityError) ==> |old(Pages()).free| + |old(Pages()).idle| == 0
      ensures r == Err(OverflowError) ==> old(numTokens) == MAX64 || AtLimit(old(Pages()))
      ensures r == Err(CallbackError) ==> copier == Some(false) && !TailWritable(old(Pages()), old(State()))
    {
      ghost var before := Pages();
      if numTokens == MAX64 {
        return Err(OverflowError);
      }
      var shared := TailIsShared();
      if !shared {
        OneBlockAtMost(before, State());
        r := AppendToken();
      } else if copier.None? {
        r := Err(InvalidArgument);
      } else {
        r := CopyTail(copier.value);
      }
    }

    method CopyTail(copied: bool) returns (r: Result<TokenLocation>)
      requires Valid() && numTokens < MAX64 && numTokens % blockSize != 0 && |table.blocks| > 0
      requires Pages().pages[table.blocks[|table.blocks| - 1].id].refs > 1
      modifies this, table, table.pool, table.pool.idleLru
      ensures Valid()
      ensures r.Ok? ==> copied && CopiesTail(old(Pages()), Pages(), old(State()), State())
                        && Locates(r.value, State(), old(numTokens), blockSize)
      ensures r.Err? ==> State() == old(State()) && Undone(old(Pages()), Pages())
                         && r.error in {CapacityError, OverflowError, CallbackError}
      ensures r == Err(CapacityError) ==> |old(Pages()).free| + |old(Pages()).idle| == 0
      ensures r == Err(OverflowError) ==> AtLimit(old(Pages()))
      ensures r == Err(CallbackError) ==> !copied
    {
      ghost var before := Pages();
      var last := |table.blocks| - 1;
      var offset := numTokens % blockSize;
      var taken := table.pool.Allocate();
      if taken.Err? {
        NothingUndone(before);
        AllocateRefused(before);
        return Err(taken.error);
      }
      var h := taken.value;
      if !copied {
        AllocateUndone(before, h, Pages());
        var released := table.pool.Release(h);
        UndoneKeepsSequence(before, Pages(), State());
        return Err(CallbackError);
      }
      InstallCopy(before, h);
      LastBlockOffset(old(numTokens), blockSize);
      r := Ok(TokenLocation(h.id, offset));
    }

    /** The copy is complete: it takes the place of the shared tail page. */
    method InstallCopy(ghost before: Pool, h: Handle)
      requires table.pool.Valid() && Inv(before) && SequenceOk(before, State())
      requires numTokens % before.blockSize != 0 && |table.blocks| > 0
      requires before.pages[table.blocks[|table.blocks| - 1].id].refs > 1
      requires Allocate(before) == Ok((h, Pages()))
      modifies this, table, table.pool, table.pool.idleLru
      ensures table.pool.Valid() && CopiesTail(before, Pages(), old(State()), State())
      ensures table.blocks == old(table.blocks)[|old(table.blocks)| - 1 := h]
    {
      ghost var mid, start := Pages(), State();
      CopyReady(before, mid, start.blocks[|start.blocks| - 1], h);
      var replaced := table.ReplaceLastOwned(h);
      assert replaced.Ok?;
      numTokens := numTokens + 1;
      CopyKeepsSequence(before, mid, Pages(), start, State(), h);
    }

    /** A new request sharing every page of this one, including a partial tail. */
    method ForkShared() returns (r: Result<SequenceState>)
      requires Valid()
      modifies table.pool, table.pool.idleLru
      ensures Valid()
      ensures r.Ok? ==> fresh(r.value) && fresh(r.value.table) && r.value.table.pool == table.pool
      ensures r.Ok? ==> r.value.blockSize == blockSize
      ensures r.Ok? ==> Forks(old(Pages()), Pages(), State(), r.value.State())
      ensures r.Err? ==> Pages() == old(Pages()) && AtLimit(old(Pages()))
    {
      var fork := new SequenceState(table.pool);
      var shared := fork.ShareFrom(this);
      r := if shared.Ok? then Ok(fork) else Err(shared.error);
    }

    /** Takes a reference to every page of `other`, or none. */
    method ShareFrom(other: SequenceState) returns (r: Result<()>)
      requires other != this && other.table != table && other.table.pool == table.pool
      requires other.Valid() && State() == Sequence([], 0)
      modifies this, table, table.pool, table.pool.idleLru
      ensures other.Valid() && other.State() == old(other.State())
      ensures r.Ok? ==> Forks(old(Pages()), Pages(), other.State(), State())
      ensures r.Err? ==> Pages() == old(Pages()) && AtLimit(old(Pages()))
    {
      ghost var before := Pages();
      var shared := table.AppendAllShared(other.table);
      ForkEnds(before, Pages(), other.State(), |table.blocks|);
      if shared.Ok? {
        numTokens := other.numTokens;
        r := Ok(());
      } else {
        table.Clear();
        r := Err(shared.error);
      }
    }

    /** The destructor: gives back every reference. */
    method Destroy()
      requires Valid()
      modifies this, table, table.pool, table.pool.idleLru
      ensures Valid() && State() == Sequence([], 0)
      ensures Destroys(old(Pages()), Pages(), old(State()))
    {
      DestroyDone(Pages(), State());
      table.Clear();
      numTokens := 0;
    }
  }

  /** Connects a request to the published prefixes of its pool. */
  class PrefixCache {
    const pool: BlockManager

    constructor (pool: BlockManager)
      ensures this.pool == pool
    {
      this.pool := pool;
    }

    /** Maps the longest cached full-block prefix of `tokens` into an empty request; returns how many
        tokens that covers. On any failure the request is empty again. */
    method AttachCachedPrefix(s: SequenceState, tokens: Tokens) returns (r: Result<nat>)
      requires s.Valid() && pool.Valid() && |tokens| <= MAX64
      modifies s, s.table, pool, pool.idleLru, pool.callback
      ensures s.Valid()
      ensures (r == Err(CallbackError) <==> pool.callback.Threw(old(pool.callback.calls)))
              && pool.callback.calls >= old(pool.callback.calls)
      ensures r == Err(OverflowError) ==> NearLimit(old(pool.View()))
      ensures r == Err(InvalidArgument) <==> s.table.pool != pool || old(s.numTokens) != 0
      ensures r.Ok? ==> r.value == s.numTokens && Attaches(old(s.Pages()), s.Pages(), tokens, s.State())
      ensures r.Err? ==> s.State() == old(s.State())
      ensures r == Err(InvalidArgument) ==> pool.View() == old(pool.View())
      ensures r.Err? ==> Undone(old(pool.View()), pool.View())
      ensures r.Err? ==> r.error in {InvalidArgument, CallbackError, OverflowError}
    {
      ghost var before := pool.View();
      if s.table.pool != pool || s.numTokens != 0 {
        NothingUndone(before);
        return Err(InvalidArgument);
      }
      assert s.table.blocks == [];
      r := AttachRun(before, s, tokens);
    }

    method AttachRun(ghost before: Pool, s: SequenceState, tokens: Tokens) returns (r: Result<nat>)
      requires s.table.pool == pool && pool.Valid() && pool.View() == before && |tokens| <= MAX64
      requires s.blockSize == pool.blockSize && s.table.blocks == [] && s.numTokens == 0
      modifies s, s.table, pool, pool.idleLru, pool.callback
      ensures s.Valid()
      ensures (r == Err(CallbackError) <==> pool.callback.Threw(old(pool.callback.calls)))
              && pool.callback.calls >= old(pool.callback.calls)
      ensures r == Err(OverflowError) ==> NearLimit(before)
      ensures r.Ok? ==> r.value == s.numTokens && Attaches(before, pool.View(), tokens, s.State())
      ensures r.Err? ==> s.State() == Sequence([], 0) && Undone(before, pool.View())
      ensures r.Err? ==> r.error in {CallbackError, OverflowError}
    {
      AttachNothing(before, tokens);
      var attached := AttachBlocks(before, s, tokens);
      if attached.Err? {
        Detach(before, s);
        return Err(attached.error);
      }
      AttachDone(before, pool.View(), tokens, s.table.blocks);
      r := Ok(s.numTokens);
    }

    /** Block after block, up to the first that is not cached. */
    method AttachBlocks(ghost before: Pool, s: SequenceState, tokens: Tokens) returns (r: Result<()>)
      requires s.table.pool == pool && pool.Valid() && Inv(before) && |tokens| <= MAX64
      requires s.blockSize == pool.blockSize && s.table.blocks == [] && s.numTokens == 0
      requires AttachedRun(before, pool.View(), tokens, [])
      modifies s, s.table, pool, pool.idleLru, pool.callback
      ensures pool.Valid() && s.numTokens == |s.table.blocks| * s.blockSize <= |tokens|
      ensures (r == Err(CallbackError) <==> pool.callback.Threw(old(pool.callback.calls)))
              && pool.callback.calls >= old(pool.callback.calls)
      ensures r == Err(OverflowError) ==> NearLimit(before)
      ensures r.Err? ==> r.error in {CallbackError, OverflowError}
      ensures r.Ok? ==> AttachedRun(before, pool.View(), tokens, s.table.blocks)
      ensures r.Ok? ==> |tokens| - s.numTokens < s.blockSize
                        || FindCached(before, UpToBlock(tokens, |s.table.blocks|, s.blockSize)).None?
      ensures r.Err? ==> RefsPlus(before, pool.View(), s.table.blocks) && NoNewPublication(before, pool.View())
    {
      var offset := 0;
      while |tokens| - offset >= s.blockSize
        invariant pool.Valid() && 0 <= offset <= |tokens|
        invariant offset == |s.table.blocks| * s.blockSize == s.numTokens
        invariant AttachedRun(before, pool.View(), tokens, s.table.blocks)
        invariant pool.callback.calls >= old(pool.callback.calls) && !pool.callback.Threw(old(pool.callback.calls))
        decreases |tokens| - offset
      {
        var step := AttachBlock(before, s, tokens);
        if step.Err? { return Err(step.error); }
        if !step.value { break; }
        MulSucc(|s.table.blocks| - 1, s.blockSize);
        offset := offset + s.blockSize;
      }
      r := Ok(());
    }

    /** One round: the lookup's reference is given back once the table holds its own. */
    method AttachBlock(ghost before: Pool, s: SequenceState, tokens: Tokens) returns (r: Result<bool>)
      requires pool.Valid() && s.table.pool == pool && Inv(before) && |tokens| <= MAX64
      requires s.blockSize == pool.blockSize
      requires s.numTokens == |s.table.blocks| * s.blockSize && s.numTokens + s.blockSize <= |tokens|
      requires AttachedRun(before, pool.View(), tokens, s.table.blocks)
      modifies s, s.table, pool, pool.idleLru, pool.callback
      ensures pool.Valid()
      ensures (r == Err(CallbackError) <==> pool.callback.Threw(old(pool.callback.calls)))
              && pool.callback.calls >= old(pool.callback.calls)
      ensures r == Err(OverflowError) ==> NearLimit(before)
      ensures r == Ok(true) ==> |s.table.blocks| == |old(s.table.blocks)| + 1
                                && s.numTokens == old(s.numTokens) + s.blockSize
                                && AttachedRun(before, pool.View(), tokens, s.table.blocks)
      ensures r != Ok(true) ==> s.State() == old(s.State())
      ensures r == Ok(false) ==> pool.View() == old(pool.View())
      ensures r == Ok(false) ==> FindCached(before, UpToBlock(tokens, |s.table.blocks|, s.blockSize)).None?
      ensures r.Err? ==> RefsPlus(before, pool.View(), s.table.blocks) && NoNewPublication(before, pool.View())
      ensures r.Err? ==> r.error in {CallbackError, OverflowError}
    {
      ghost var start, hs := pool.View(), s.table.blocks;
      var prefix := tokens[..s.numTokens + s.blockSize];
      assert prefix == UpToBlock(tokens, |hs|, s.blockSize);
      AttachRound(before, start, tokens, hs, prefix);
      var hit := pool.Lookup(prefix);
      match hit
      case Err(e) =>
        r := Err(e);
      case Ok(None) =>
        r := Ok(false);
      case Ok(Some(h)) =>
        r := KeepHit(before, start, s, tokens, h);
    }

    method KeepHit(ghost before: Pool, ghost start: Pool, s: SequenceState, tokens: Tokens, h: Handle)
        returns (r: Result<bool>)
      requires pool.Valid() && s.table.pool == pool && Inv(before) && |tokens| <= MAX64
      requires s.blockSize == pool.blockSize
      requires s.numTokens == |s.table.blocks| * s.blockSize && s.numTokens + s.blockSize <= |tokens|
      requires AttachedRun(before, start, tokens, s.table.blocks)
      requires Lookup(start, UpToBlock(tokens, |s.table.blocks|, s.blockSize)) == Ok((Some(h), pool.View()))
      modifies s, s.table, pool, pool.idleLru
      ensures pool.Valid()
      ensures r.Ok? ==> r.value && s.table.blocks == old(s.table.blocks) + [h]
      ensures r.Ok? ==> s.numTokens == old(s.numTokens) + s.blockSize
      ensures r.Ok? ==> AttachedRun(before, pool.View(), tokens, s.table.blocks)
      ensures r.Err? ==> s.State() == old(s.State()) && r.error == OverflowError && NearLimit(before)
      ensures r.Err? ==> RefsPlus(before, pool.View(), s.table.blocks) && NoNewPublication(before, pool.View())
    {
      ghost var looked, hs := pool.View(), s.table.blocks;
      LookupHit(start, UpToBlock(tokens, |hs|, s.blockSize), h, looked);
      var appended := s.table.AppendExisting(h);
      if appended.Err? {
        AttachedIsUndoable(before, start, tokens, hs);
        RetainReleaseUndone(before, start, hs, h);
        AttachLimit(before, start, tokens, hs, h.id);
        var freed := pool.Release(h);
        return Err(appended.error);
      }
      s.numTokens := s.numTokens + s.blockSize;
      AttachOne(before, start, looked, pool.View(), tokens, hs, h);
      var freed := pool.Release(h);
      r := Ok(true);
    }

    /** Takes every attached page off the request again. */
    method Detach(ghost before: Pool, s: SequenceState)
      requires pool.Valid() && s.table.pool == pool && s.blockSize == pool.blockSize
      requires RefsPlus(before, pool.View(), s.table.blocks) && NoNewPublication(before, pool.View())
      requires s.numTokens == |s.table.blocks| * s.blockSize
      modifies s, s.table, pool, pool.idleLru
      ensures s.Valid() && s.State() == Sequence([], 0) && Undone(before, pool.View())
    {
      assert s.table.blocks[0..] == s.table.blocks;
      s.ShrinkTo(before, 0);
      s.numTokens := 0;
    }

    /** Publishes a computed full block under its complete token prefix. */
    method PublishComputedBlock(s: SequenceState, k: nat, prefix: Tokens) returns (r: Result<()>)
      requires s.Valid() && pool.Valid()
      modifies pool, pool.callback
      ensures s.Valid() && s.State() == old(s.State())
      ensures (r == Err(CallbackError) <==> pool.callback.Threw(old(pool.callback.calls)))
              && pool.callback.calls >= old(pool.callback.calls)
      ensures r.Ok? ==> Publishes(old(s.Pages()), s.Pages(), s.State(), k, prefix)
      ensures r.Err? ==> pool.View() == old(pool.View())
      ensures r.Err? && r.error != CallbackError ==>
                r.error == InvalidArgument &&
                (s.table.pool != pool || forall q :: !Publishes(old(s.Pages()), q, s.State(), k, prefix))
    {
      if s.table.pool != pool {
        return Err(InvalidArgument);
      }
      if k >= |s.table.blocks| || |prefix| % s.blockSize != 0 || |prefix| / s.blockSize != k + 1
         || |prefix| > s.numTokens {
        NotCompletePrefix(s.blockSize, |prefix|, k);
        return Err(InvalidArgument);
      }
      NotCompletePrefix(s.blockSize, |prefix|, k);
      ghost var before := pool.View();
      var h := s.table.GetHandle(k);
      r := pool.Publish(h.value, prefix);
      if r.Ok? {
        PublishKeepsSequence(before, pool.View(), s.State(), k, prefix);
      }
    }
  }
}
