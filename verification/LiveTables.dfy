/** Block tables living side by side (src/block_manager.cpp): whatever the owners of tables and pages do with their own
    references, in whatever order, every table stays complete, and two tables share exactly what they should. */
module LiveTables {
  import opened Common
  import opened Arithmetic
  import opened PagePool
  import opened TokenTables
  import opened PagedSequences
  import opened PagedMemory

  /** Which `acquire` a table goes back to, the tokens it was for, and the prefix its owner has published its partial
      last page under, if any. */
  datatype Origin = Origin(number: nat, tokens: Tokens, tail: Option<Tokens>)

  /** What a block of a table stands for: a published prefix, or the private tail of one `acquire`. */
  datatype Label = Cached(prefix: Tokens) | Private(number: nat)

  function LabelOf(blockSize: nat, o: Origin, k: nat): Label
    requires blockSize > 0
  {
    if IsFull(blockSize, |o.tokens|, k) then Cached(o.tokens[..(k + 1) * blockSize])
    else if o.tail.Some? then Cached(o.tail.value)
    else Private(o.number)
  }

  /** The tables and the single pages that owners hold; `acquired` counts the calls of `acquire`. */
  datatype State = State(pool: Pool, tables: map<nat, Sequence>, origins: map<nat, Origin>, direct: map<nat, Handle>,
                         acquired: nat)

  ghost function AsWorld(s: State): World {
    World(s.pool, [], s.tables, s.direct)
  }

  ghost predicate Mapped(s: State, r: nat, k: nat, id: nat) {
    r in s.tables && k < |s.tables[r].blocks| && s.tables[r].blocks[k].id == id
  }

  // ---------------------------------------------------------------- invariant

  /** The page is published under the label's prefix, or unpublished if it is private. */
  ghost predicate Stands(p: Pool, h: Handle, meaning: Label) {
    match meaning
    case Cached(prefix) => TokenTables.Published(p, h, prefix)
    case Private(_) => Held(p, h) && !p.pages[h.id].cached
  }

  /** A block for every token, each on a page that stands for it. */
  ghost predicate Covers(p: Pool, o: Origin, hs: seq<Handle>) {
    && p.blockSize > 0 && |hs| == CeilDiv(|o.tokens|, p.blockSize)
    && forall k :: 0 <= k < |hs| ==> Stands(p, hs[k], LabelOf(p.blockSize, o, k))
  }

  ghost predicate Complete(s: State, r: nat)
    requires r in s.tables
  {
    && r in s.origins && s.origins[r].number < s.acquired
    && DistinctIds(s.tables[r].blocks) && Covers(s.pool, s.origins[r], s.tables[r].blocks)
  }

  /** Until its owner publishes the tail, a table is what `acquire` gave out. */
  lemma CoversIsTable(p: Pool, o: Origin, hs: seq<Handle>)
    requires o.tail.None?
    ensures Covers(p, o, hs) <==> IsTable(p, o.tokens, hs)
  {
    if IsTable(p, o.tokens, hs) {
      forall k | 0 <= k < |hs| ensures Stands(p, hs[k], LabelOf(p.blockSize, o, k)) {}
    }
    if Covers(p, o, hs) {
      forall k | 0 <= k < |hs|
        ensures Held(p, hs[k])
        ensures if IsFull(p.blockSize, |o.tokens|, k)
                  then TokenTables.Published(p, hs[k], o.tokens[..(k + 1) * p.blockSize])
                else !p.pages[hs[k].id].cached
      {
        assert Stands(p, hs[k], LabelOf(p.blockSize, o, k));
      }
    }
  }

  ghost predicate AllComplete(s: State) {
    forall r :: r in s.tables ==> Complete(s, r)
  }

  ghost predicate DirectHeld(s: State) {
    forall key :: key in s.direct ==> Held(s.pool, s.direct[key])
  }

  ghost predicate Copies(s: State, r: nat, x: nat)
    requires r in s.tables && x in s.tables
  {
    r in s.origins && x in s.origins && s.origins[r] == s.origins[x] && s.tables[r] == s.tables[x]
  }

  ghost predicate SameOrigin(s: State, r: nat, x: nat) {
    r in s.origins && x in s.origins && s.origins[r].number == s.origins[x].number
  }

  /** Tables that go back to the same `acquire` are copies of each other. */
  ghost predicate OriginsAgree(s: State) {
    forall r, x :: r in s.tables && x in s.tables && SameOrigin(s, r, x) ==> Copies(s, r, x)
  }

  /** An unpublished page is mapped by copies of one table only. */
  ghost predicate TailsApart(s: State) {
    forall r: nat, j: nat, x: nat, k: nat, id: nat ::
      Mapped(s, r, j, id) && Mapped(s, x, k, id) && id < |s.pool.pages| && !s.pool.pages[id].cached ==> Copies(s, r, x)
  }

  ghost predicate StateInv(s: State) {
    Inv(s.pool) && RefsConserved(AsWorld(s)) && AllComplete(s) && DirectHeld(s) && OriginsAgree(s) && TailsApart(s)
  }

  // ---------------------------------------------------------------- what the invariant says about sharing

  /** Block `j` of table `r` and block `k` of table `x` are one page exactly when they stand for the same thing. */
  ghost predicate SharesExactly(s: State, r: nat, j: nat, x: nat, k: nat)
    requires r in s.tables && x in s.tables && r in s.origins && x in s.origins
    requires j < |s.tables[r].blocks| && k < |s.tables[x].blocks| && s.pool.blockSize > 0
  {
    s.tables[r].blocks[j].id == s.tables[x].blocks[k].id <==>
      LabelOf(s.pool.blockSize, s.origins[r], j) == LabelOf(s.pool.blockSize, s.origins[x], k)
  }

  /** While neither tail is published: the same block of the same tokens, of a full block's prefix or of copies of one
      table. */
  ghost predicate SharesByPosition(s: State, r: nat, j: nat, x: nat, k: nat)
    requires r in s.tables && x in s.tables && r in s.origins && x in s.origins
    requires j < |s.tables[r].blocks| && k < |s.tables[x].blocks| && s.pool.blockSize > 0
  {
    var a, b, B := s.origins[r].tokens, s.origins[x].tokens, s.pool.blockSize;
    s.tables[r].blocks[j].id == s.tables[x].blocks[k].id <==>
      j == k && (SameOrigin(s, r, x)
                 || (IsFull(B, |a|, k) && IsFull(B, |b|, k) && a[..(k + 1) * B] == b[..(k + 1) * B]))
  }

  lemma SharingIsExact(s: State, r: nat, j: nat, x: nat, k: nat)
    requires StateInv(s) && r in s.tables && x in s.tables && j < |s.tables[r].blocks| && k < |s.tables[x].blocks|
    ensures Complete(s, r) && Complete(s, x) && SharesExactly(s, r, j, x, k)
  {
    var B, h, g := s.pool.blockSize, s.tables[r].blocks[j], s.tables[x].blocks[k];
    assert Complete(s, r) && Complete(s, x);
    assert Stands(s.pool, h, LabelOf(B, s.origins[r], j)) && Stands(s.pool, g, LabelOf(B, s.origins[x], k));
    if h.id == g.id && !s.pool.pages[h.id].cached {
      assert Mapped(s, r, j, h.id) && Mapped(s, x, k, h.id);
      assert Copies(s, r, x);
    }
    if LabelOf(B, s.origins[r], j) == LabelOf(B, s.origins[x], k) && LabelOf(B, s.origins[r], j).Private? {
      assert SameOrigin(s, r, x) && Copies(s, r, x);
      TailIsLast(B, |s.origins[r].tokens|, j);
      TailIsLast(B, |s.origins[x].tokens|, k);
    }
  }

  /** Equal prefixes end at the same block, and a private tail is the last block. */
  lemma LabelsByPosition(B: nat, o: Origin, j: nat, p: Origin, k: nat)
    requires B > 0 && j < CeilDiv(|o.tokens|, B) && k < CeilDiv(|p.tokens|, B)
    requires o.tail.None? && p.tail.None? && (o.number == p.number ==> o == p)
    ensures LabelOf(B, o, j) == LabelOf(B, p, k) <==>
              j == k && (o.number == p.number
                         || (IsFull(B, |o.tokens|, k) && IsFull(B, |p.tokens|, k)
                             && o.tokens[..(k + 1) * B] == p.tokens[..(k + 1) * B]))
  {
    MulOrder(j + 1, k + 1, B);
    MulOrder(k + 1, j + 1, B);
    TailIsLast(B, |o.tokens|, j);
    TailIsLast(B, |p.tokens|, k);
  }

  lemma SharingByPosition(s: State, r: nat, j: nat, x: nat, k: nat)
    requires StateInv(s) && r in s.tables && x in s.tables && j < |s.tables[r].blocks| && k < |s.tables[x].blocks|
    requires r in s.origins && s.origins[r].tail.None? && x in s.origins && s.origins[x].tail.None?
    ensures s.pool.blockSize > 0 && SharesByPosition(s, r, j, x, k)
  {
    SharingIsExact(s, r, j, x, k);
    if SameOrigin(s, r, x) { assert Copies(s, r, x); }
    LabelsByPosition(s.pool.blockSize, s.origins[r], j, s.origins[x], k);
  }

  // ---------------------------------------------------------------- steps

  datatype Step =
    | AcquireTable(r: nat, tokens: Tokens)
    | ShareTable(r: nat, copy: nat)
    | ReturnTable(r: nat)
    | Refused
    | TakePage(key: nat)
    | RetainPage(key: nat, h: Handle)
    | ReturnPage(key: nat)
    | PublishPage(key: nat, prefix: Tokens)
    | PublishBlock(r: nat, k: nat, prefix: Tokens)

  ghost predicate OnlyPool(s: State, t: State) {
    t == s.(pool := t.pool)
  }

  /** What each operation of the block manager does to the pool, on behalf of an owner who gives back only references
      of its own and publishes only a page it holds singly. */
  ghost predicate Next(s: State, step: Step, t: State) {
    match step
    case AcquireTable(r, tokens) =>
      && r !in s.tables && r in t.tables && Acquired(s.pool, t.pool, tokens, t.tables[r].blocks)
      && t == State(t.pool, s.tables[r := Sequence(t.tables[r].blocks, |tokens|)],
                    s.origins[r := Origin(s.acquired, tokens, None)], s.direct, s.acquired + 1)
    case ShareTable(r, copy) =>
      && r in s.tables && r in s.origins && copy !in s.tables && Bumped(s.pool, t.pool, s.tables[r].blocks)
      && Inv(t.pool)
      && t == s.(pool := t.pool, tables := s.tables[copy := s.tables[r]], origins := s.origins[copy := s.origins[r]])
    case ReturnTable(r) =>
      && r in s.tables && RefsPlus(t.pool, s.pool, s.tables[r].blocks) && Inv(t.pool)
      && t == s.(pool := t.pool, tables := s.tables - {r}, origins := s.origins - {r})
    case Refused => OnlyPool(s, t) && RefsPlus(s.pool, t.pool, [])
    case TakePage(key) =>
      && Inv(s.pool) && key !in s.direct && Allocate(s.pool).Ok?
      && t == s.(pool := Allocate(s.pool).value.1, direct := s.direct[key := Allocate(s.pool).value.0])
    case RetainPage(key, h) =>
      key !in s.direct && Retain(s.pool, h).Ok?
      && t == s.(pool := Retain(s.pool, h).value, direct := s.direct[key := h])
    case ReturnPage(key) =>
      && key in s.direct && Release(s.pool, s.direct[key]).Ok?
      && t == s.(pool := Release(s.pool, s.direct[key]).value, direct := s.direct - {key})
    case PublishPage(key, prefix) =>
      && key in s.direct && s.pool.blockSize > 0 && Publish(s.pool, s.direct[key], prefix).Ok?
      && t == s.(pool := Publish(s.pool, s.direct[key], prefix).value)
    case PublishBlock(r, k, prefix) =>
      && r in s.tables && r in s.origins && k < |s.tables[r].blocks| && s.pool.blockSize > 0
      && Publish(s.pool, s.tables[r].blocks[k], prefix).Ok?
      && t == s.(pool := Publish(s.pool, s.tables[r].blocks[k], prefix).value,
                 origins := s.origins[r := s.origins[r].(tail := Some(prefix))])
  }

  // ---------------------------------------------------------------- counts

  lemma AcquireCounts(s: State, r: nat, tokens: Tokens, t: State)
    requires StateInv(s) && Next(s, AcquireTable(r, tokens), t)
    ensures Steady(s.pool, t.pool) && RefsConserved(AsWorld(t))
  {
    var hs := t.tables[r].blocks;
    TakenIsRefsPlus(s.pool, t.pool, hs);
    TableAdded(s, t, r, hs);
  }

  lemma TableAdded(s: State, t: State, r: nat, hs: seq<Handle>)
    requires RefsConserved(AsWorld(s)) && SameShape(s.pool, t.pool) && r !in s.tables && DistinctIds(hs)
             && t.direct == s.direct
    requires r in t.tables && t.tables == s.tables[r := t.tables[r]] && t.tables[r].blocks == hs
    requires forall i :: 0 <= i < |s.pool.pages| ==>
               t.pool.pages[i].refs == if Uses(hs, i) then s.pool.pages[i].refs + 1 else s.pool.pages[i].refs
    ensures RefsConserved(AsWorld(t))
  {
    assert TableExtended(s.tables, t.tables, r, hs);
    forall i | 0 <= i < |t.pool.pages| ensures t.pool.pages[i].refs == |Holders(t.tables, t.direct, i)| {
      assert s.pool.pages[i].refs == |Holders(AsWorld(s).requests, AsWorld(s).direct, i)|;
      HoldersGrow(s.tables, t.tables, s.direct, r, hs, i);
    }
  }

  lemma ShareCounts(s: State, r: nat, copy: nat, t: State)
    requires StateInv(s) && Next(s, ShareTable(r, copy), t)
    ensures Steady(s.pool, t.pool) && RefsConserved(AsWorld(t))
  {
    assert Complete(s, r);
    TableAdded(s, t, copy, s.tables[r].blocks);
  }

  lemma ReturnCounts(s: State, r: nat, t: State)
    requires StateInv(s) && Next(s, ReturnTable(r), t)
    ensures Steady(s.pool, t.pool) && RefsConserved(AsWorld(t))
  {
    var hs := s.tables[r].blocks;
    assert TableExtended(t.tables, s.tables, r, hs);
    forall i | 0 <= i < |t.pool.pages| ensures t.pool.pages[i].refs == |Holders(t.tables, t.direct, i)| {
      assert s.pool.pages[i].refs == |Holders(AsWorld(s).requests, AsWorld(s).direct, i)|;
      HoldersGrow(t.tables, s.tables, s.direct, r, hs, i);
    }
  }

  lemma RefusedCounts(s: State, t: State)
    requires StateInv(s) && Next(s, Refused, t)
    ensures Steady(s.pool, t.pool) && RefsConserved(AsWorld(t))
  {
    forall i | 0 <= i < |t.pool.pages| ensures t.pool.pages[i].refs == |Holders(t.tables, t.direct, i)| {
      assert s.pool.pages[i].refs == |Holders(AsWorld(s).requests, AsWorld(s).direct, i)|;
    }
  }

  lemma TakeCounts(s: State, key: nat, t: State)
    requires StateInv(s) && Next(s, TakePage(key), t)
    ensures Inv(t.pool) && Steady(s.pool, t.pool) && RefsConserved(AsWorld(t)) && Held(t.pool, t.direct[key])
  {
    AllocateKeepsInv(s.pool);
    AllocateOutcome(s.pool);
    DirectAdded(AsWorld(s), AsWorld(t), key);
  }

  lemma RetainCounts(s: State, key: nat, h: Handle, t: State)
    requires StateInv(s) && Next(s, RetainPage(key, h), t)
    ensures Inv(t.pool) && Steady(s.pool, t.pool) && RefsConserved(AsWorld(t)) && Held(t.pool, t.direct[key])
  {
    RetainKeepsInv(s.pool, h);
    DirectAdded(AsWorld(s), AsWorld(t), key);
  }

  lemma GiveBackCounts(s: State, key: nat, t: State)
    requires StateInv(s) && Next(s, ReturnPage(key), t)
    ensures Inv(t.pool) && Steady(s.pool, t.pool) && RefsConserved(AsWorld(t))
  {
    ReleaseKeepsInv(s.pool, s.direct[key]);
    DirectRemoved(AsWorld(s), AsWorld(t), key);
  }

  /** The page published is mapped by no table: its one reference is the publisher's. */
  lemma PublishCounts(s: State, key: nat, prefix: Tokens, t: State, r: nat, k: nat)
    requires StateInv(s) && Next(s, PublishPage(key, prefix), t)
    ensures Inv(t.pool) && RefsConserved(AsWorld(t)) && !Mapped(s, r, k, s.direct[key].id)
  {
    var id := s.direct[key].id;
    PublishKeepsInv(s.pool, s.direct[key], prefix);
    forall i | 0 <= i < |t.pool.pages| ensures t.pool.pages[i].refs == |Holders(t.tables, t.direct, i)| {
      assert s.pool.pages[i].refs == |Holders(AsWorld(s).requests, AsWorld(s).direct, i)|;
    }
    if Mapped(s, r, k, id) {
      assert Holds(s.tables, s.direct, Entry(r, k), id) && Holds(s.tables, s.direct, Direct(key), id);
      SoleHolder(AsWorld(s), id, Entry(r, k), Direct(key));
    }
  }

  // ---------------------------------------------------------------- what is there stays

  /** The page is as it was but for its count, and somebody still references it. */
  ghost predicate PageStays(p: Pool, q: Pool, id: nat) {
    && id < |p.pages| == |q.pages| && p.pages[id].refs > 0 && q.pages[id].refs > 0
    && q.pages[id] == p.pages[id].(refs := q.pages[id].refs)
  }

  /** What `t` has of table `r` from `s` is on pages that stay. */
  ghost predicate TableStays(s: State, t: State, r: nat) {
    forall k: nat, id: nat :: Mapped(s, r, k, id) && Mapped(t, r, k, id) ==> PageStays(s.pool, t.pool, id)
  }

  ghost predicate Undisturbed(s: State, t: State) {
    SameShape(s.pool, t.pool) && forall r: nat :: TableStays(s, t, r)
  }

  lemma SteadyIsUndisturbed(s: State, t: State)
    requires StateInv(s) && Steady(s.pool, t.pool) && RefsConserved(AsWorld(t))
    ensures Undisturbed(s, t)
  {
    forall r: nat, k: nat, id: nat | Mapped(s, r, k, id) && Mapped(t, r, k, id) ensures PageStays(s.pool, t.pool, id) {
      EntryHeld(s, r, k);
      HolderMeansReferenced(AsWorld(t), Entry(r, k), id);
    }
  }

  lemma EntryHeld(s: State, r: nat, k: nat)
    requires AllComplete(s) && r in s.tables && k < |s.tables[r].blocks|
    ensures Complete(s, r) && Stands(s.pool, s.tables[r].blocks[k], LabelOf(s.pool.blockSize, s.origins[r], k))
    ensures Held(s.pool, s.tables[r].blocks[k])
  {
    assert Complete(s, r);
  }

  /** Table `r` is the one there was. */
  ghost predicate OldTable(s: State, t: State, r: nat) {
    && r in s.tables && r in t.tables && t.tables[r] == s.tables[r]
    && r in s.origins && r in t.origins && t.origins[r] == s.origins[r]
  }

  lemma OldStaysComplete(s: State, t: State, r: nat)
    requires AllComplete(s) && SameShape(s.pool, t.pool) && TableStays(s, t, r) && OldTable(s, t, r)
             && s.acquired <= t.acquired
    ensures Complete(t, r)
  {
    assert Complete(s, r);
    var hs, o := s.tables[r].blocks, s.origins[r];
    forall k | 0 <= k < |hs| ensures Stands(t.pool, hs[k], LabelOf(t.pool.blockSize, o, k)) {
      EntryHeld(s, r, k);
      assert Mapped(s, r, k, hs[k].id) && Mapped(t, r, k, hs[k].id);
    }
  }

  ghost predicate AllOld(s: State, t: State) {
    forall r :: r in t.tables ==> OldTable(s, t, r)
  }

  lemma OldKeepsInv(s: State, t: State)
    requires StateInv(s) && Undisturbed(s, t) && AllOld(s, t) && s.acquired <= t.acquired
    requires Inv(t.pool) && RefsConserved(AsWorld(t)) && DirectHeld(t)
    ensures StateInv(t)
  {
    forall r | r in t.tables ensures Complete(t, r) {
      OldStaysComplete(s, t, r);
    }
    forall r, x | r in t.tables && x in t.tables && SameOrigin(t, r, x) ensures Copies(t, r, x) {
      assert OldTable(s, t, r) && OldTable(s, t, x) && SameOrigin(s, r, x) && Copies(s, r, x);
    }
    OldTailsApart(s, t);
  }

  lemma OldPairCopies(s: State, t: State, r: nat, j: nat, x: nat, k: nat, id: nat)
    requires TailsApart(s) && Undisturbed(s, t) && OldTable(s, t, r) && OldTable(s, t, x)
    requires Mapped(t, r, j, id) && Mapped(t, x, k, id) && id < |t.pool.pages| && !t.pool.pages[id].cached
    ensures Copies(t, r, x)
  {
    assert Mapped(s, r, j, id) && Mapped(s, x, k, id) && TableStays(s, t, r);
    assert PageStays(s.pool, t.pool, id) && Copies(s, r, x);
  }

  lemma OldTailsApart(s: State, t: State)
    requires StateInv(s) && Undisturbed(s, t) && AllOld(s, t)
    ensures TailsApart(t)
  {
    forall r: nat, j: nat, x: nat, k: nat, id: nat |
      Mapped(t, r, j, id) && Mapped(t, x, k, id) && id < |t.pool.pages| && !t.pool.pages[id].cached
      ensures Copies(t, r, x)
    {
      OldPairCopies(s, t, r, j, x, k, id);
    }
  }

  lemma DirectStays(s: State, t: State, key: nat)
    requires StateInv(s) && Steady(s.pool, t.pool) && RefsConserved(AsWorld(t))
    requires key in s.direct && key in t.direct && t.direct[key] == s.direct[key]
    ensures Held(t.pool, t.direct[key])
  {
    assert Held(s.pool, s.direct[key]);
    HolderMeansReferenced(AsWorld(t), Direct(key), s.direct[key].id);
  }

  // ---------------------------------------------------------------- every step keeps the invariant

  lemma QuietKeepsInv(s: State, step: Step, t: State)
    requires StateInv(s) && Next(s, step, t)
    requires step.Refused? || step.ReturnTable? || step.TakePage? || step.RetainPage? || step.ReturnPage?
    ensures StateInv(t)
  {
    match step {
      case Refused => RefusedCounts(s, t);
      case ReturnTable(r) => ReturnCounts(s, r, t);
      case TakePage(key) => TakeCounts(s, key, t);
      case RetainPage(key, h) => RetainCounts(s, key, h, t);
      case ReturnPage(key) => GiveBackCounts(s, key, t);
    }
    SteadyIsUndisturbed(s, t);
    QuietDirect(s, step, t);
    AllStay(s, t);
    OldKeepsInv(s, t);
  }

  lemma QuietDirect(s: State, step: Step, t: State)
    requires StateInv(s) && Next(s, step, t) && Steady(s.pool, t.pool) && RefsConserved(AsWorld(t))
    requires step.Refused? || step.ReturnTable? || step.TakePage? || step.RetainPage? || step.ReturnPage?
    requires step.TakePage? || step.RetainPage? ==> Held(t.pool, t.direct[step.key])
    ensures DirectHeld(t)
  {
    forall key | key in t.direct ensures Held(t.pool, t.direct[key]) {
      if key in s.direct && t.direct[key] == s.direct[key] { DirectStays(s, t, key); }
    }
  }

  lemma AllStay(s: State, t: State)
    requires StateInv(s) && forall r :: r in t.tables ==> r in s.tables && t.tables[r] == s.tables[r]
    requires forall r :: r in s.origins && r in t.tables ==> r in t.origins && t.origins[r] == s.origins[r]
    ensures AllOld(s, t)
  {
    forall r | r in t.tables ensures OldTable(s, t, r) { assert Complete(s, r); }
  }

  lemma PublishPageKeepsInv(s: State, key: nat, prefix: Tokens, t: State)
    requires StateInv(s) && Next(s, PublishPage(key, prefix), t)
    ensures StateInv(t)
  {
    PublishCounts(s, key, prefix, t, 0, 0);
    forall r: nat, k: nat, id: nat | Mapped(s, r, k, id) && Mapped(t, r, k, id) ensures PageStays(s.pool, t.pool, id) {
      PublishCounts(s, key, prefix, t, r, k);
      EntryHeld(s, r, k);
    }
    forall other | other in t.direct ensures Held(t.pool, t.direct[other]) {
      assert Held(s.pool, s.direct[other]);
    }
    AllStay(s, t);
    OldKeepsInv(s, t);
  }

  // An owner publishes the tail of its table: a full block is published already.

  /** Nobody but table `r` maps the page, at its last block only. */
  lemma PublishedTail(s: State, r: nat, k: nat, prefix: Tokens, t: State)
    requires StateInv(s) && Next(s, PublishBlock(r, k, prefix), t)
    ensures Complete(s, r) && s.origins[r].tail.None? && !IsFull(s.pool.blockSize, |s.origins[r].tokens|, k)
    ensures k == |s.tables[r].blocks| - 1
    ensures forall x: nat, j: nat :: Mapped(s, x, j, s.tables[r].blocks[k].id) ==> x == r && j == k
    ensures forall x :: x in s.tables && SameOrigin(s, x, r) ==> x == r
  {
    var id := s.tables[r].blocks[k].id;
    EntryHeld(s, r, k);
    TailIsLast(s.pool.blockSize, |s.origins[r].tokens|, k);
    forall x: nat, j: nat | Mapped(s, x, j, id) ensures x == r && j == k {
      assert Holds(s.tables, s.direct, Entry(r, k), id) && Holds(s.tables, s.direct, Entry(x, j), id);
      SoleHolder(AsWorld(s), id, Entry(r, k), Entry(x, j));
    }
    forall x | x in s.tables && SameOrigin(s, x, r) ensures x == r {
      assert Copies(s, x, r) && Mapped(s, x, k, id);
    }
  }

  lemma PublishBlockCounts(s: State, r: nat, k: nat, prefix: Tokens, t: State)
    requires StateInv(s) && Next(s, PublishBlock(r, k, prefix), t)
    ensures Inv(t.pool) && RefsConserved(AsWorld(t)) && DirectHeld(t)
  {
    PublishKeepsInv(s.pool, s.tables[r].blocks[k], prefix);
    forall i | 0 <= i < |t.pool.pages| ensures t.pool.pages[i].refs == |Holders(t.tables, t.direct, i)| {
      assert s.pool.pages[i].refs == |Holders(AsWorld(s).requests, AsWorld(s).direct, i)|;
    }
    forall key | key in t.direct ensures Held(t.pool, t.direct[key]) {
      assert Held(s.pool, s.direct[key]);
    }
  }

  /** The table itself stays complete, its last block now standing for the prefix. */
  lemma PublishedStaysComplete(s: State, r: nat, k: nat, prefix: Tokens, t: State)
    requires StateInv(s) && Next(s, PublishBlock(r, k, prefix), t)
    ensures Complete(t, r)
  {
    PublishedTail(s, r, k, prefix, t);
    var hs, B := s.tables[r].blocks, s.pool.blockSize;
    forall j | 0 <= j < |hs| ensures Stands(t.pool, hs[j], LabelOf(B, t.origins[r], j)) {
      EntryHeld(s, r, j);
      assert Mapped(s, r, j, hs[j].id);
      if !IsFull(B, |s.origins[r].tokens|, j) { TailIsLast(B, |s.origins[r].tokens|, j); }
    }
  }

  lemma OthersStay(s: State, r: nat, k: nat, prefix: Tokens, t: State, x: nat)
    requires StateInv(s) && Next(s, PublishBlock(r, k, prefix), t) && x in t.tables && x != r
    ensures SameShape(s.pool, t.pool) && OldTable(s, t, x) && TableStays(s, t, x)
  {
    PublishedTail(s, r, k, prefix, t);
    assert Complete(s, x);
    forall j: nat, id: nat | Mapped(s, x, j, id) && Mapped(t, x, j, id) ensures PageStays(s.pool, t.pool, id) {
      EntryHeld(s, x, j);
    }
  }

  lemma PublishedTailsApart(s: State, r: nat, k: nat, prefix: Tokens, t: State)
    requires StateInv(s) && Next(s, PublishBlock(r, k, prefix), t)
    ensures TailsApart(t)
  {
    PublishedTail(s, r, k, prefix, t);
    forall x: nat, i: nat, y: nat, j: nat, id: nat |
      Mapped(t, x, i, id) && Mapped(t, y, j, id) && id < |t.pool.pages| && !t.pool.pages[id].cached
      ensures Copies(t, x, y)
    {
      assert Mapped(s, x, i, id) && Mapped(s, y, j, id);
      assert Copies(s, x, y);
    }
  }

  lemma PublishBlockKeepsInv(s: State, r: nat, k: nat, prefix: Tokens, t: State)
    requires StateInv(s) && Next(s, PublishBlock(r, k, prefix), t)
    ensures StateInv(t)
  {
    PublishBlockCounts(s, r, k, prefix, t);
    PublishedTail(s, r, k, prefix, t);
    forall x | x in t.tables ensures Complete(t, x) {
      if x == r {
        PublishedStaysComplete(s, r, k, prefix, t);
      } else {
        OthersStay(s, r, k, prefix, t, x);
        OldStaysComplete(s, t, x);
      }
    }
    forall x, y | x in t.tables && y in t.tables && SameOrigin(t, x, y) ensures Copies(t, x, y) {
      assert Complete(s, x) && Complete(s, y) && SameOrigin(s, x, y) && Copies(s, x, y);
    }
    PublishedTailsApart(s, r, k, prefix, t);
  }

  lemma ShareKeepsInv(s: State, r: nat, copy: nat, t: State)
    requires StateInv(s) && Next(s, ShareTable(r, copy), t)
    ensures StateInv(t)
  {
    ShareCounts(s, r, copy, t);
    SteadyIsUndisturbed(s, t);
    assert Complete(s, r);
    forall x | x in t.tables && x != copy ensures OldTable(s, t, x) { assert Complete(s, x); }
    forall x | x in t.tables ensures Complete(t, x) {
      OldStaysComplete(s, t, Source(x, r, copy));
    }
    forall x, y | x in t.tables && y in t.tables && SameOrigin(t, x, y) ensures Copies(t, x, y) {
      assert SameOrigin(s, Source(x, r, copy), Source(y, r, copy)) && Copies(s, Source(x, r, copy), Source(y, r, copy));
    }
    ShareTailsApart(s, r, copy, t);
    forall key | key in t.direct ensures Held(t.pool, t.direct[key]) { DirectStays(s, t, key); }
  }

  /** The table that `x` is, or was copied from. */
  function Source(x: nat, r: nat, copy: nat): nat {
    if x == copy then r else x
  }

  lemma ShareTailsApart(s: State, r: nat, copy: nat, t: State)
    requires StateInv(s) && Next(s, ShareTable(r, copy), t) && Undisturbed(s, t)
    ensures TailsApart(t)
  {
    forall x: nat, j: nat, y: nat, k: nat, id: nat |
      Mapped(t, x, j, id) && Mapped(t, y, k, id) && id < |t.pool.pages| && !t.pool.pages[id].cached
      ensures Copies(t, x, y)
    {
      var a, b := Source(x, r, copy), Source(y, r, copy);
      assert Mapped(s, a, j, id) && Mapped(s, b, k, id) && Mapped(t, a, j, id);
      assert PageStays(s.pool, t.pool, id);
      assert Copies(s, a, b);
    }
  }

  /** A page of the new table that is not published was nobody's. */
  lemma NewTailIsFresh(s: State, r: nat, tokens: Tokens, t: State, k: nat, x: nat, j: nat)
    requires StateInv(s) && Next(s, AcquireTable(r, tokens), t) && k < |t.tables[r].blocks|
    requires t.tables[r].blocks[k].id < |t.pool.pages| && !t.pool.pages[t.tables[r].blocks[k].id].cached
    ensures !Mapped(s, x, j, t.tables[r].blocks[k].id)
  {
    var hs := t.tables[r].blocks;
    TailIsLast(s.pool.blockSize, |tokens|, k);
    assert Fresh(s.pool, t.pool, hs[k].id);
    NoHolder(AsWorld(s), hs[k].id, Entry(x, j));
  }

  lemma AcquireTailsApart(s: State, r: nat, tokens: Tokens, t: State)
    requires StateInv(s) && Next(s, AcquireTable(r, tokens), t) && Undisturbed(s, t)
    ensures TailsApart(t)
  {
    forall x: nat, j: nat, y: nat, k: nat, id: nat |
      Mapped(t, x, j, id) && Mapped(t, y, k, id) && id < |t.pool.pages| && !t.pool.pages[id].cached
      ensures Copies(t, x, y)
    {
      if x == r && y != r {
        NewTailIsFresh(s, r, tokens, t, j, y, k);
      } else if x != r && y == r {
        NewTailIsFresh(s, r, tokens, t, k, x, j);
      } else if x != r {
        assert Complete(s, x) && Complete(s, y);
        OldPairCopies(s, t, x, j, y, k, id);
      }
    }
  }

  lemma AcquireKeepsInv(s: State, r: nat, tokens: Tokens, t: State)
    requires StateInv(s) && Next(s, AcquireTable(r, tokens), t)
    ensures StateInv(t)
  {
    AcquireCounts(s, r, tokens, t);
    SteadyIsUndisturbed(s, t);
    forall x | x in t.tables ensures Complete(t, x) {
      if x != r {
        assert Complete(s, x);
        OldStaysComplete(s, t, x);
      }
    }
    forall x, y | x in t.tables && y in t.tables && SameOrigin(t, x, y) ensures Copies(t, x, y) {
      AcquireOrigins(s, r, tokens, t, x, y);
    }
    AcquireTailsApart(s, r, tokens, t);
    forall key | key in t.direct ensures Held(t.pool, t.direct[key]) { DirectStays(s, t, key); }
  }

  lemma AcquireOrigins(s: State, r: nat, tokens: Tokens, t: State, x: nat, y: nat)
    requires StateInv(s) && Next(s, AcquireTable(r, tokens), t) && x in t.tables && y in t.tables
    requires SameOrigin(t, x, y)
    ensures Copies(t, x, y)
  {
    if x != r { assert Complete(s, x); }
    if y != r { assert Complete(s, y); }
    if x != r && y != r { assert SameOrigin(s, x, y) && Copies(s, x, y); }
  }

  lemma StepKeepsInv(s: State, step: Step, t: State)
    requires StateInv(s) && Next(s, step, t)
    ensures StateInv(t)
  {
    match step
    case AcquireTable(r, tokens) => AcquireKeepsInv(s, r, tokens, t);
    case ShareTable(r, copy) => ShareKeepsInv(s, r, copy, t);
    case PublishPage(key, prefix) => PublishPageKeepsInv(s, key, prefix, t);
    case PublishBlock(r, k, prefix) => PublishBlockKeepsInv(s, r, k, prefix, t);
    case _ => QuietKeepsInv(s, step, t);
  }

  // ---------------------------------------------------------------- runs

  ghost predicate Begins(s: State) {
    && s.pool.blockSize > 0 && s.pool == Empty(|s.pool.pages|, s.pool.blockSize)
    && s.tables == map[] && s.origins == map[] && s.direct == map[] && s.acquired == 0
  }

  ghost predicate StepAt(states: seq<State>, steps: seq<Step>, i: nat)
    requires i < |steps| && |states| == |steps| + 1
  {
    Next(states[i], steps[i], states[i + 1])
  }

  ghost predicate IsRun(states: seq<State>, steps: seq<Step>) {
    && |states| == |steps| + 1 && Begins(states[0])
    && forall i {:trigger StepAt(states, steps, i)} :: 0 <= i < |steps| ==> StepAt(states, steps, i)
  }

  lemma BeginsWithInv(s: State)
    requires Begins(s)
    ensures StateInv(s)
  {
    StartOk(|s.pool.pages|, s.pool.blockSize);
    assert Inv(Start(|s.pool.pages|, s.pool.blockSize).pool);
    forall i | 0 <= i < |s.pool.pages| ensures s.pool.pages[i].refs == |Holders(s.tables, s.direct, i)| {
      assert Holders(s.tables, s.direct, i) == {};
    }
  }

  lemma {:induction false} RunKeepsInv(states: seq<State>, steps: seq<Step>, n: nat)
    requires IsRun(states, steps) && n < |states|
    ensures StateInv(states[n])
  {
    if n == 0 {
      BeginsWithInv(states[0]);
    } else {
      RunKeepsInv(states, steps, n - 1);
      assert StepAt(states, steps, n - 1);
      StepKeepsInv(states[n - 1], steps[n - 1], states[n]);
    }
  }

  /** At every point of every run, every live table is still complete, and any two share a page exactly where their
      blocks stand for the same thing; where neither owner has published its tail, exactly at equal full-block
      prefixes, or everywhere when one was shared from the other. */
  lemma TablesShareExactly(states: seq<State>, steps: seq<Step>, n: nat, r: nat, x: nat)
    requires IsRun(states, steps) && n < |states| && r in states[n].tables && x in states[n].tables
    ensures Complete(states[n], r) && Complete(states[n], x)
    ensures states[n].origins[r].tail.None? ==>
              IsTable(states[n].pool, states[n].origins[r].tokens, states[n].tables[r].blocks)
    ensures forall j, k :: 0 <= j < |states[n].tables[r].blocks| && 0 <= k < |states[n].tables[x].blocks| ==>
              SharesExactly(states[n], r, j, x, k)
    ensures forall j, k :: 0 <= j < |states[n].tables[r].blocks| && 0 <= k < |states[n].tables[x].blocks|
                           && states[n].origins[r].tail.None? && states[n].origins[x].tail.None? ==>
              SharesByPosition(states[n], r, j, x, k)
  {
    RunKeepsInv(states, steps, n);
    var s := states[n];
    assert Complete(s, r) && Complete(s, x);
    if s.origins[r].tail.None? { CoversIsTable(s.pool, s.origins[r], s.tables[r].blocks); }
    forall j, k | 0 <= j < |s.tables[r].blocks| && 0 <= k < |s.tables[x].blocks| ensures SharesExactly(s, r, j, x, k) {
      SharingIsExact(s, r, j, x, k);
    }
    forall j, k | 0 <= j < |s.tables[r].blocks| && 0 <= k < |s.tables[x].blocks|
                  && s.origins[r].tail.None? && s.origins[x].tail.None?
      ensures SharesByPosition(s, r, j, x, k)
    {
      SharingByPosition(s, r, j, x, k);
    }
  }
}
