/** Requests, pages and page contents together: over every step, each request reads back through its
    block table as if it owned a private contiguous array. */
module PagedMemory {
  import opened Common
  import opened Arithmetic
  import opened PagePool
  import opened TokenTables
  import opened PagedSequences

  /** Keys and values of one token position. */
  datatype KV = KV(key: seq<real>, value: seq<real>)

  /** A reference to a page is an entry of some block table or is held by the caller directly. */
  datatype Holder = Entry(request: nat, block: nat) | Direct(key: nat)

  datatype World = World(pool: Pool, mem: seq<seq<KV>>, requests: map<nat, Sequence>, direct: map<nat, Handle>)

  // ---------------------------------------------------------------- who references a page

  ghost predicate Holds(requests: map<nat, Sequence>, direct: map<nat, Handle>, h: Holder, id: nat) {
    match h
    case Entry(r, k) => r in requests && k < |requests[r].blocks| && requests[r].blocks[k].id == id
    case Direct(key) => key in direct && direct[key].id == id
  }

  ghost function Holders(requests: map<nat, Sequence>, direct: map<nat, Handle>, id: nat): (s: set<Holder>)
    ensures forall h :: h in s <==> Holds(requests, direct, h, id)
  {
    (set r, k | r in requests && 0 <= k < |requests[r].blocks| && requests[r].blocks[k].id == id :: Entry(r, k))
    + (set key | key in direct && direct[key].id == id :: Direct(key))
  }

  function BlocksOf(requests: map<nat, Sequence>, r: nat): seq<Handle> {
    if r in requests then requests[r].blocks else []
  }

  /** `after` is `before` with the pages `hs` added to the table of `r`. */
  ghost predicate TableExtended(before: map<nat, Sequence>, after: map<nat, Sequence>, r: nat, hs: seq<Handle>) {
    && r in after && after.Keys == before.Keys + {r}
    && (forall x :: x in before && x != r ==> after[x].blocks == before[x].blocks)
    && after[r].blocks == BlocksOf(before, r) + hs && DistinctIds(after[r].blocks)
  }

  lemma OneMore<T>(was: set<T>, now: set<T>, x: T)
    requires x !in was && forall y :: y in now <==> y in was || y == x
    ensures |now| == |was| + 1
  {
    assert now == was + {x};
  }

  lemma JustAsMany<T>(was: set<T>, now: set<T>)
    requires forall y :: y in now <==> y in was
    ensures |now| == |was|
  {
    assert now == was;
  }

  /** Extending one table by distinct pages adds one holder to each of them. */
  lemma HoldersGrow(before: map<nat, Sequence>, after: map<nat, Sequence>, direct: map<nat, Handle>,
                    r: nat, hs: seq<Handle>, id: nat)
    requires TableExtended(before, after, r, hs)
    ensures |Holders(after, direct, id)| == |Holders(before, direct, id)| + if Uses(hs, id) then 1 else 0
  {
    if Uses(hs, id) {
      UsedGains(before, after, direct, r, hs, id);
    } else {
      UnusedKeeps(before, after, direct, r, hs, id);
    }
  }

  lemma UsedGains(before: map<nat, Sequence>, after: map<nat, Sequence>, direct: map<nat, Handle>,
                  r: nat, hs: seq<Handle>, id: nat)
    requires TableExtended(before, after, r, hs) && Uses(hs, id)
    ensures |Holders(after, direct, id)| == |Holders(before, direct, id)| + 1
  {
    var n := |BlocksOf(before, r)|;
    var k :| 0 <= k < |hs| && hs[k].id == id;
    forall h ensures Holds(after, direct, h, id) <==> Holds(before, direct, h, id) || h == Entry(r, n + k) {
      UsedOnce(before, after, direct, r, hs, k, h, id);
    }
    OneMore(Holders(before, direct, id), Holders(after, direct, id), Entry(r, n + k));
  }

  lemma UnusedKeeps(before: map<nat, Sequence>, after: map<nat, Sequence>, direct: map<nat, Handle>,
                    r: nat, hs: seq<Handle>, id: nat)
    requires TableExtended(before, after, r, hs) && !Uses(hs, id)
    ensures |Holders(after, direct, id)| == |Holders(before, direct, id)|
  {
    forall h ensures Holds(after, direct, h, id) <==> Holds(before, direct, h, id) {
      NotUsed(before, after, direct, r, hs, h, id);
    }
    JustAsMany(Holders(before, direct, id), Holders(after, direct, id));
  }

  lemma UsedOnce(before: map<nat, Sequence>, after: map<nat, Sequence>, direct: map<nat, Handle>,
                 r: nat, hs: seq<Handle>, k: nat, h: Holder, id: nat)
    requires TableExtended(before, after, r, hs) && k < |hs| && hs[k].id == id
    ensures Holds(after, direct, h, id) <==> Holds(before, direct, h, id) || h == Entry(r, |BlocksOf(before, r)| + k)
  {
    var n := |BlocksOf(before, r)|;
    assert after[r].blocks[n + k].id == id;
    if h.Entry? && h.request == r && h.block >= n {
      if h.block < |after[r].blocks| && h.block != n + k { assert after[r].blocks[h.block].id != id; }
    } else {
      EntryKept(before, after, direct, r, hs, h, id);
    }
  }

  lemma NotUsed(before: map<nat, Sequence>, after: map<nat, Sequence>, direct: map<nat, Handle>,
                r: nat, hs: seq<Handle>, h: Holder, id: nat)
    requires TableExtended(before, after, r, hs) && !Uses(hs, id)
    ensures Holds(after, direct, h, id) <==> Holds(before, direct, h, id)
  {
    var n := |BlocksOf(before, r)|;
    if h.Entry? && h.request == r && h.block >= n {
      if h.block < |after[r].blocks| { assert after[r].blocks[h.block] == hs[h.block - n]; }
    } else {
      EntryKept(before, after, direct, r, hs, h, id);
    }
  }

  lemma EntryKept(before: map<nat, Sequence>, after: map<nat, Sequence>, direct: map<nat, Handle>,
                  r: nat, hs: seq<Handle>, h: Holder, id: nat)
    requires TableExtended(before, after, r, hs)
    ensures !(h.Entry? && h.request == r && h.block >= |BlocksOf(before, r)|) ==>
              (Holds(after, direct, h, id) <==> Holds(before, direct, h, id))
  {
    if h.Entry? && h.request != r {
      assert h.request in after <==> h.request in before;
    }
  }

  // ---------------------------------------------------------------- invariant

  ghost predicate StorageOk(w: World) {
    Inv(w.pool) && MemOk(w.pool, w.mem)
  }

  ghost predicate TablesOk(w: World) {
    && (forall r :: r in w.requests ==> SequenceOk(w.pool, w.requests[r]))
    && (forall key :: key in w.direct ==> Held(w.pool, w.direct[key]))
  }

  /** Every reference count is the number of table entries and direct handles on the page. */
  ghost predicate RefsConserved(w: World) {
    forall i {:trigger Holders(w.requests, w.direct, i)} :: 0 <= i < |w.pool.pages| ==>
      w.pool.pages[i].refs == |Holders(w.requests, w.direct, i)|
  }

  /** Tokens of block `k` that a sequence of `n` tokens has. */
  function Fill(n: nat, k: nat, blockSize: nat): int {
    if n - k * blockSize >= blockSize then blockSize else n - k * blockSize
  }

  ghost predicate MappedAt(w: World, r: nat, k: nat, id: nat) {
    r in w.requests && k < |w.requests[r].blocks| && w.requests[r].blocks[k].id == id
  }

  /** A published page is mapped only where its prefix ends, by requests that filled it. */
  ghost predicate PublishedFull(w: World) {
    forall r: nat, k: nat, id: nat :: MappedAt(w, r, k, id) && id < |w.pool.pages| && w.pool.pages[id].cached ==>
      |w.pool.pages[id].prefix| == k * w.pool.blockSize + w.pool.blockSize <= w.requests[r].numTokens
  }

  ghost predicate Alike(w: World, r: nat, k: nat, x: nat, j: nat)
    requires r in w.requests && x in w.requests
  {
    k == j && Fill(w.requests[r].numTokens, k, w.pool.blockSize) == Fill(w.requests[x].numTokens, j, w.pool.blockSize)
  }

  /** All requests that map a page map it at the same logical index with the same fill. */
  ghost predicate SharedAlike(w: World) {
    forall r: nat, k: nat, x: nat, j: nat, id: nat :: MappedAt(w, r, k, id) && MappedAt(w, x, j, id) ==>
      Alike(w, r, k, x, j)
  }

  ghost predicate WorldInv(w: World) {
    StorageOk(w) && TablesOk(w) && RefsConserved(w) && PublishedFull(w) && SharedAlike(w)
  }

  /** What request `r` reads through its block table. */
  ghost function Read(w: World, r: nat): seq<KV>
    requires StorageOk(w) && TablesOk(w) && r in w.requests
  {
    var s := w.requests[r];
    seq(s.numTokens, t requires 0 <= t < s.numTokens => CellAt(w.pool, w.mem, s, t))
  }

  ghost function CellAt(p: Pool, mem: seq<seq<KV>>, s: Sequence, t: nat): KV
    requires SequenceOk(p, s) && t < s.numTokens && MemOk(p, mem)
  {
    TokenHasBlock(t, s.numTokens, p.blockSize);
    assert Held(p, s.blocks[t / p.blockSize]);
    mem[s.blocks[t / p.blockSize].id][t % p.blockSize]
  }

  /** The content published under a prefix. */
  ghost function Published(w: World, prefix: Tokens): Option<seq<KV>>
    requires StorageOk(w)
  {
    match FindCached(w.pool, prefix)
    case None => None
    case Some(id) => Some(w.mem[id])
  }

  // ---------------------------------------------------------------- refinement of private arrays

  /** Every other request reads what it read before. */
  ghost predicate OthersRead(w: World, v: World, r: nat)
    requires StorageOk(w) && TablesOk(w) && StorageOk(v) && TablesOk(v)
  {
    forall x :: x in w.requests && x != r ==> x in v.requests && Read(v, x) == Read(w, x)
  }

  /** Published contents never change; they can only be evicted. */
  ghost predicate CacheOnlyShrinks(w: World, v: World)
    requires StorageOk(w) && StorageOk(v)
  {
    forall prefix :: Published(v, prefix).Some? ==> Published(v, prefix) == Published(w, prefix)
  }

  // ---------------------------------------------------------------- exclusivity

  lemma SoleHolder(w: World, id: nat, a: Holder, b: Holder)
    requires RefsConserved(w) && id < |w.pool.pages| && w.pool.pages[id].refs == 1
    requires a in Holders(w.requests, w.direct, id) && b in Holders(w.requests, w.direct, id)
    ensures a == b
  {
    var hs := Holders(w.requests, w.direct, id);
    if a != b {
      SubsetSize({a, b}, hs);
    }
  }

  lemma NoHolder(w: World, id: nat, a: Holder)
    requires RefsConserved(w) && id < |w.pool.pages| && w.pool.pages[id].refs == 0
    ensures Holders(w.requests, w.direct, id) == {} && !Holds(w.requests, w.direct, a, id)
  {
    assert |Holders(w.requests, w.direct, id)| == 0;
  }

  // ---------------------------------------------------------------- writing tokens

  function WriteCell(mem: seq<seq<KV>>, s: Sequence, t: nat, v: KV, blockSize: nat): seq<seq<KV>> {
    if blockSize > 0 && t / blockSize < |s.blocks| && s.blocks[t / blockSize].id < |mem|
       && t % blockSize < |mem[s.blocks[t / blockSize].id]| then
      var id := s.blocks[t / blockSize].id;
      mem[id := mem[id][t % blockSize := v]]
    else mem
  }

  /** The values for positions `t`, `t + 1`, ... stored through the table. */
  function Write(mem: seq<seq<KV>>, s: Sequence, t: nat, values: seq<KV>, blockSize: nat): seq<seq<KV>>
    decreases |values|
  {
    if values == [] then mem
    else Write(WriteCell(mem, s, t, values[0], blockSize), s, t + 1, values[1..], blockSize)
  }

  lemma {:induction false} WriteShape(mem: seq<seq<KV>>, s: Sequence, t: nat, values: seq<KV>, blockSize: nat)
    ensures var after := Write(mem, s, t, values, blockSize);
            |after| == |mem| && forall i :: 0 <= i < |mem| ==> |after[i]| == |mem[i]|
    decreases |values|
  {
    if values != [] {
      WriteShape(WriteCell(mem, s, t, values[0], blockSize), s, t + 1, values[1..], blockSize);
    }
  }

  /** Pages the written positions do not fall on keep their contents. */
  lemma {:induction false} WriteElsewhere(
      mem: seq<seq<KV>>, s: Sequence, t: nat, values: seq<KV>, blockSize: nat, id: nat)
    requires blockSize > 0 && id < |mem|
    requires forall k :: t / blockSize <= k < |s.blocks| ==> s.blocks[k].id != id
    ensures |Write(mem, s, t, values, blockSize)| == |mem| && Write(mem, s, t, values, blockSize)[id] == mem[id]
    decreases |values|
  {
    if values != [] {
      DivMonotone(t, t + 1, blockSize);
      WriteElsewhere(WriteCell(mem, s, t, values[0], blockSize), s, t + 1, values[1..], blockSize, id);
    }
  }

  ghost predicate MemOk(p: Pool, mem: seq<seq<KV>>) {
    |mem| == |p.pages| && forall i :: 0 <= i < |mem| ==> |mem[i]| == p.blockSize
  }

  lemma WriteOneThenRead(p: Pool, mem: seq<seq<KV>>, s: Sequence, t: nat, v: KV, j: nat)
    requires SequenceOk(p, s) && t < s.numTokens && j < s.numTokens && MemOk(p, mem)
    ensures var after := WriteCell(mem, s, t, v, p.blockSize);
            MemOk(p, after) && CellAt(p, after, s, j) == if t == j then v else CellAt(p, mem, s, j)
  {
    TokenHasBlock(t, s.numTokens, p.blockSize);
    TokenHasBlock(j, s.numTokens, p.blockSize);
    assert Held(p, s.blocks[t / p.blockSize]) && Held(p, s.blocks[j / p.blockSize]);
    SameCell(t, j, p.blockSize);
  }

  /** Reading position `j` after the write: the new value if it was written, else the old cell. */
  lemma {:induction false} WriteThenRead(p: Pool, mem: seq<seq<KV>>, s: Sequence, t: nat, values: seq<KV>, j: nat)
    requires SequenceOk(p, s) && t + |values| <= s.numTokens && j < s.numTokens && MemOk(p, mem)
    ensures var after := Write(mem, s, t, values, p.blockSize);
            MemOk(p, after)
            && CellAt(p, after, s, j) == if t <= j < t + |values| then values[j - t] else CellAt(p, mem, s, j)
    decreases |values|
  {
    if values != [] {
      WriteOneThenRead(p, mem, s, t, values[0], j);
      WriteThenRead(p, WriteCell(mem, s, t, values[0], p.blockSize), s, t + 1, values[1..], j);
    }
  }

  /** Block number and offset identify the token. */
  lemma SameCell(a: nat, b: nat, blockSize: nat)
    requires blockSize > 0
    ensures a / blockSize == b / blockSize && a % blockSize == b % blockSize ==> a == b
  {
    assert a == (a / blockSize) * blockSize + a % blockSize;
    assert b == (b / blockSize) * blockSize + b % blockSize;
  }

  // ---------------------------------------------------------------- what survives a step

  /** Pages referenced before and after keep generation and publication. */
  ghost predicate Steady(p: Pool, q: Pool) {
    SameShape(p, q) &&
    forall i :: 0 <= i < |p.pages| && p.pages[i].refs > 0 && q.pages[i].refs > 0 ==>
      q.pages[i] == p.pages[i].(refs := q.pages[i].refs)
  }

  lemma HolderMeansReferenced(w: World, h: Holder, id: nat)
    requires RefsConserved(w) && id < |w.pool.pages| && Holds(w.requests, w.direct, h, id)
    ensures w.pool.pages[id].refs > 0
  {
    if w.pool.pages[id].refs == 0 {
      NoHolder(w, id, h);
    }
  }

  /** A table that is still there after a steady step is still well formed. */
  lemma TableKept(w: World, v: World, x: nat)
    requires TablesOk(w) && Steady(w.pool, v.pool) && RefsConserved(v)
    requires x in w.requests && x in v.requests && v.requests[x] == w.requests[x]
    ensures SequenceOk(v.pool, v.requests[x])
  {
    var s := w.requests[x];
    forall k | 0 <= k < |s.blocks| ensures Held(v.pool, s.blocks[k]) {
      assert Held(w.pool, s.blocks[k]);
      HolderMeansReferenced(v, Entry(x, k), s.blocks[k].id);
    }
  }

  lemma DirectKept(w: World, v: World, key: nat)
    requires TablesOk(w) && Steady(w.pool, v.pool) && RefsConserved(v)
    requires key in w.direct && key in v.direct && v.direct[key] == w.direct[key]
    ensures Held(v.pool, v.direct[key])
  {
    assert Held(w.pool, w.direct[key]);
    HolderMeansReferenced(v, Direct(key), w.direct[key].id);
  }

  /** Only request `r` changes. */
  ghost predicate Touches(w: World, v: World, r: nat) {
    && v.requests.Keys == w.requests.Keys + {r} && v.direct == w.direct
    && forall x :: x in w.requests && x != r ==> v.requests[x] == w.requests[x]
  }

  lemma TablesKept(w: World, v: World, r: nat)
    requires TablesOk(w) && Steady(w.pool, v.pool) && RefsConserved(v) && Touches(w, v, r)
    requires r in v.requests && SequenceOk(v.pool, v.requests[r])
    ensures TablesOk(v)
  {
    forall x | x in v.requests && x != r ensures SequenceOk(v.pool, v.requests[x]) {
      TableKept(w, v, x);
    }
    forall key | key in v.direct ensures Held(v.pool, v.direct[key]) {
      DirectKept(w, v, key);
    }
  }

  /** The pages of a table kept their contents. */
  ghost predicate ContentsKept(s: Sequence, mem: seq<seq<KV>>, after: seq<seq<KV>>) {
    forall k :: 0 <= k < |s.blocks| && s.blocks[k].id < |mem| ==>
      s.blocks[k].id < |after| && after[s.blocks[k].id] == mem[s.blocks[k].id]
  }

  lemma SameCellRead(p: Pool, q: Pool, mem: seq<seq<KV>>, after: seq<seq<KV>>, s: Sequence, t: nat)
    requires SequenceOk(p, s) && SequenceOk(q, s) && SameShape(p, q) && t < s.numTokens
    requires MemOk(p, mem) && MemOk(q, after) && ContentsKept(s, mem, after)
    ensures CellAt(q, after, s, t) == CellAt(p, mem, s, t)
  {
    TokenHasBlock(t, s.numTokens, p.blockSize);
    assert Held(p, s.blocks[t / p.blockSize]);
  }

  /** A request whose pages kept their contents reads the same. */
  lemma SameRead(w: World, v: World, x: nat)
    requires StorageOk(w) && TablesOk(w) && StorageOk(v) && TablesOk(v) && SameShape(w.pool, v.pool)
    requires x in w.requests && x in v.requests && v.requests[x] == w.requests[x]
    requires ContentsKept(w.requests[x], w.mem, v.mem)
    ensures Read(v, x) == Read(w, x)
  {
    var s := w.requests[x];
    forall t | 0 <= t < s.numTokens ensures Read(v, x)[t] == Read(w, x)[t] {
      SameCellRead(w.pool, v.pool, w.mem, v.mem, s, t);
    }
  }

  // ---------------------------------------------------------------- append and write

  /** Reserve `|values|` positions, then store the values through the slots they map to. */
  ghost predicate AppendStep(w: World, v: World, r: nat, values: seq<KV>) {
    && r in w.requests && Touches(w, v, r)
    && Appends(w.pool, v.pool, w.requests[r], v.requests[r], |values|)
    && v.mem == Write(w.mem, v.requests[r], w.requests[r].numTokens, values, w.pool.blockSize)
  }

  ghost function NewBlocks(w: World, v: World, r: nat): seq<Handle>
    requires r in w.requests && r in v.requests && w.requests[r].blocks <= v.requests[r].blocks
  {
    v.requests[r].blocks[|w.requests[r].blocks|..]
  }

  lemma PartialTailUnpublished(w: World, r: nat, k: nat, id: nat)
    requires StorageOk(w) && PublishedFull(w) && MappedAt(w, r, k, id) && id < |w.pool.pages|
    requires k == w.requests[r].numTokens / w.pool.blockSize
    ensures !w.pool.pages[id].cached
  {
    BlockBounds(w.requests[r].numTokens, w.pool.blockSize, k);
  }

  /** An append writes no page that anybody maps elsewhere, and none that is published. */
  lemma AppendWritesPrivatePages(w: World, v: World, r: nat, values: seq<KV>, k: nat)
    requires WorldInv(w) && AppendStep(w, v, r, values) && values != []
    requires w.requests[r].numTokens / w.pool.blockSize <= k < |v.requests[r].blocks|
    ensures var id := v.requests[r].blocks[k].id;
            && id < |w.pool.pages| && !v.pool.pages[id].cached
            && (w.pool.pages[id].refs > 0 ==> !w.pool.pages[id].cached)
            && forall h :: h in Holders(w.requests, w.direct, id) ==> h == Entry(r, k)
  {
    var s, t := w.requests[r], v.requests[r];
    var id := t.blocks[k].id;
    if k < |s.blocks| {
      assert t.blocks[k] == s.blocks[k] && Held(w.pool, s.blocks[k]);
      assert s.numTokens % w.pool.blockSize != 0 && k == |s.blocks| - 1 == s.numTokens / w.pool.blockSize;
      PartialTailUnpublished(w, r, k, id);
      assert !Uses(NewBlocks(w, v, r), id);
      forall h | h in Holders(w.requests, w.direct, id) ensures h == Entry(r, k) {
        SoleHolder(w, id, h, Entry(r, k));
      }
    } else {
      assert t.blocks[k] == NewBlocks(w, v, r)[k - |s.blocks|];
      assert Fresh(w.pool, v.pool, id);
      NoHolder(w, id, Entry(r, k));
    }
  }

  /** Pages somebody else maps, and published pages, keep their contents. */
  lemma AppendSparesPage(w: World, v: World, r: nat, values: seq<KV>, id: nat)
    requires WorldInv(w) && AppendStep(w, v, r, values) && id < |w.mem|
    requires v.pool.pages[id].cached
             || exists h :: h in Holders(w.requests, w.direct, id) && (h.Direct? || h.request != r)
    ensures |v.mem| == |w.mem| && v.mem[id] == w.mem[id]
  {
    var s, t := w.requests[r], v.requests[r];
    if values != [] {
      forall k | s.numTokens / w.pool.blockSize <= k < |t.blocks| ensures t.blocks[k].id != id {
        AppendWritesPrivatePages(w, v, r, values, k);
      }
      WriteElsewhere(w.mem, t, s.numTokens, values, w.pool.blockSize, id);
    }
  }

  lemma PrefixCell(p: Pool, q: Pool, mem: seq<seq<KV>>, s: Sequence, t: Sequence, j: nat)
    requires SequenceOk(p, s) && SequenceOk(q, t) && SameShape(p, q) && MemOk(p, mem)
    requires s.blocks <= t.blocks && j < s.numTokens <= t.numTokens
    ensures CellAt(q, mem, t, j) == CellAt(p, mem, s, j)
  {
    TokenHasBlock(j, s.numTokens, p.blockSize);
    assert t.blocks[j / p.blockSize] == s.blocks[j / p.blockSize];
  }

  lemma AppendRefs(w: World, v: World, r: nat, values: seq<KV>)
    requires WorldInv(w) && AppendStep(w, v, r, values)
    ensures Steady(w.pool, v.pool) && NoNewPublication(w.pool, v.pool) && RefsConserved(v)
  {
    var hs := NewBlocks(w, v, r);
    GrownIsUndoable(w.pool, v.pool, hs);
    assert TableExtended(w.requests, v.requests, r, hs);
    forall i | 0 <= i < |v.pool.pages| ensures v.pool.pages[i].refs == |Holders(v.requests, v.direct, i)| {
      HoldersGrow(w.requests, v.requests, w.direct, r, hs, i);
    }
  }

  lemma AppendStorage(w: World, v: World, r: nat, values: seq<KV>)
    requires WorldInv(w) && AppendStep(w, v, r, values)
    ensures StorageOk(v) && TablesOk(v)
  {
    AppendRefs(w, v, r, values);
    TablesKept(w, v, r);
    WriteShape(w.mem, v.requests[r], w.requests[r].numTokens, values, w.pool.blockSize);
  }

  lemma AppendOthers(w: World, v: World, r: nat, values: seq<KV>, x: nat)
    requires WorldInv(w) && AppendStep(w, v, r, values) && StorageOk(v) && TablesOk(v)
    requires x in w.requests && x != r
    ensures Read(v, x) == Read(w, x)
  {
    var s := w.requests[x];
    forall k | 0 <= k < |s.blocks| && s.blocks[k].id < |w.mem|
      ensures s.blocks[k].id < |v.mem| && v.mem[s.blocks[k].id] == w.mem[s.blocks[k].id]
    {
      assert Holds(w.requests, w.direct, Entry(x, k), s.blocks[k].id);
      AppendSparesPage(w, v, r, values, s.blocks[k].id);
    }
    SameRead(w, v, x);
  }

  lemma AppendCell(w: World, v: World, r: nat, values: seq<KV>, j: nat)
    requires WorldInv(w) && AppendStep(w, v, r, values) && StorageOk(v) && TablesOk(v)
    requires j < v.requests[r].numTokens
    ensures CellAt(v.pool, v.mem, v.requests[r], j) ==
            if j < w.requests[r].numTokens then CellAt(w.pool, w.mem, w.requests[r], j)
            else values[j - w.requests[r].numTokens]
  {
    var s, t := w.requests[r], v.requests[r];
    WriteThenRead(v.pool, w.mem, t, s.numTokens, values, j);
    if j < s.numTokens {
      PrefixCell(w.pool, v.pool, w.mem, s, t, j);
    }
  }

  lemma AppendReadsBack(w: World, v: World, r: nat, values: seq<KV>)
    requires WorldInv(w) && AppendStep(w, v, r, values) && StorageOk(v) && TablesOk(v)
    ensures Read(v, r) == Read(w, r) + values
  {
    forall j | 0 <= j < v.requests[r].numTokens ensures Read(v, r)[j] == (Read(w, r) + values)[j] {
      AppendCell(w, v, r, values, j);
    }
  }

  lemma AppendCache(w: World, v: World, r: nat, values: seq<KV>)
    requires WorldInv(w) && AppendStep(w, v, r, values) && StorageOk(v) && NoNewPublication(w.pool, v.pool)
    ensures CacheOnlyShrinks(w, v)
  {
    forall prefix | Published(v, prefix).Some? ensures Published(v, prefix) == Published(w, prefix) {
      var id := FindCached(v.pool, prefix).value;
      assert Caches(w.pool, id, prefix);
      AppendSparesPage(w, v, r, values, id);
    }
  }

  /** Old entries of the grown table are old entries; new ones are on fresh pages. */
  lemma AppendMapped(w: World, v: World, r: nat, values: seq<KV>, x: nat, k: nat, id: nat)
    requires AppendStep(w, v, r, values) && MappedAt(v, x, k, id) && id < |v.pool.pages|
    ensures MappedAt(w, x, k, id)
            || (x == r && !v.pool.pages[id].cached && w.pool.pages[id].refs == 0)
  {
    if x == r && k >= |w.requests[r].blocks| {
      assert v.requests[r].blocks[k] == NewBlocks(w, v, r)[k - |w.requests[r].blocks|];
    }
  }

  lemma AppendPublishedFull(w: World, v: World, r: nat, values: seq<KV>)
    requires WorldInv(w) && AppendStep(w, v, r, values) && NoNewPublication(w.pool, v.pool)
    ensures PublishedFull(v)
  {
    forall x: nat, k: nat, id: nat | MappedAt(v, x, k, id) && id < |v.pool.pages| && v.pool.pages[id].cached
      ensures |v.pool.pages[id].prefix| == k * v.pool.blockSize + v.pool.blockSize <= v.requests[x].numTokens
    {
      AppendMapped(w, v, r, values, x, k, id);
      assert MappedAt(w, x, k, id) && w.pool.pages[id].cached;
    }
  }

  lemma FillFull(n: nat, more: nat, k: nat, blockSize: nat)
    requires blockSize > 0 && k < CeilDiv(n, blockSize)
    ensures Fill(n + more, k, blockSize) == Fill(n, k, blockSize)
            || more == 0 || (n % blockSize != 0 && k == n / blockSize)
  {
    BlockBounds(n, blockSize, k);
  }

  /** A page mapped twice was mapped twice before. */
  lemma AppendAlike(w: World, v: World, r: nat, values: seq<KV>, x: nat, k: nat, y: nat, j: nat, id: nat)
    requires WorldInv(w) && AppendStep(w, v, r, values) && TablesOk(v)
    requires MappedAt(v, x, k, id) && MappedAt(v, y, j, id) && (x, k) != (y, j)
    ensures MappedAt(w, x, k, id) && MappedAt(w, y, j, id)
  {
    assert Held(v.pool, v.requests[x].blocks[k]);
    assert x == y ==> k == j;
    AppendMapped(w, v, r, values, x, k, id);
    AppendMapped(w, v, r, values, y, j, id);
    if !MappedAt(w, x, k, id) {
      OnlyOwnFresh(w, v, r, y, j, id);
    } else if !MappedAt(w, y, j, id) {
      OnlyOwnFresh(w, v, r, x, k, id);
    }
  }

  /** A grown request did not fill a page further that is also mapped elsewhere. */
  lemma AppendFill(w: World, v: World, r: nat, values: seq<KV>, x: nat, k: nat, y: nat, j: nat, id: nat)
    requires WorldInv(w) && AppendStep(w, v, r, values)
    requires MappedAt(w, x, k, id) && MappedAt(w, y, j, id) && (x, k) != (y, j)
    ensures Fill(v.requests[x].numTokens, k, w.pool.blockSize) == Fill(w.requests[x].numTokens, k, w.pool.blockSize)
  {
    if x == r && values != [] {
      assert SequenceOk(w.pool, w.requests[r]);
      FillFull(w.requests[r].numTokens, |values|, k, w.pool.blockSize);
      if k == w.requests[r].numTokens / w.pool.blockSize { SharedIsNotTail(w, v, r, values, k, y, j, id); }
    }
  }

  /** The page an append continues is nobody else's. */
  lemma SharedIsNotTail(w: World, v: World, r: nat, values: seq<KV>, k: nat, y: nat, j: nat, id: nat)
    requires WorldInv(w) && AppendStep(w, v, r, values) && values != [] && MappedAt(w, r, k, id)
    requires k == w.requests[r].numTokens / w.pool.blockSize && MappedAt(w, y, j, id)
    ensures (y, j) == (r, k)
  {
    assert Entry(y, j) in Holders(w.requests, w.direct, id);
    assert v.requests[r].blocks[k] == w.requests[r].blocks[k];
    AppendWritesPrivatePages(w, v, r, values, k);
  }

  lemma OnlyOwnFresh(w: World, v: World, r: nat, x: nat, k: nat, id: nat)
    requires RefsConserved(w) && id < |w.pool.pages| && w.pool.pages[id].refs == 0
    requires MappedAt(v, x, k, id) && r in v.requests
    ensures !MappedAt(w, x, k, id)
  {
    if MappedAt(w, x, k, id) {
      NoHolder(w, id, Entry(x, k));
    }
  }

  lemma AppendPair(w: World, v: World, r: nat, values: seq<KV>, x: nat, k: nat, y: nat, j: nat, id: nat)
    requires WorldInv(w) && AppendStep(w, v, r, values) && TablesOk(v)
    requires MappedAt(v, x, k, id) && MappedAt(v, y, j, id)
    ensures Alike(v, x, k, y, j)
  {
    if (x, k) != (y, j) {
      AppendAlike(w, v, r, values, x, k, y, j, id);
      AppendFill(w, v, r, values, x, k, y, j, id);
      AppendFill(w, v, r, values, y, j, x, k, id);
      StayAlike(w, v, x, k, y, j, id);
    }
  }

  lemma StayAlike(w: World, v: World, x: nat, k: nat, y: nat, j: nat, id: nat)
    requires SharedAlike(w) && MappedAt(w, x, k, id) && MappedAt(w, y, j, id) && v.pool.blockSize == w.pool.blockSize
    requires x in v.requests && y in v.requests
    requires Fill(v.requests[x].numTokens, k, w.pool.blockSize) == Fill(w.requests[x].numTokens, k, w.pool.blockSize)
    requires Fill(v.requests[y].numTokens, j, w.pool.blockSize) == Fill(w.requests[y].numTokens, j, w.pool.blockSize)
    ensures Alike(v, x, k, y, j)
  {
    assert Alike(w, x, k, y, j);
  }

  lemma AppendSharedAlike(w: World, v: World, r: nat, values: seq<KV>)
    requires WorldInv(w) && AppendStep(w, v, r, values) && TablesOk(v)
    ensures SharedAlike(v)
  {
    forall x: nat, k: nat, y: nat, j: nat, id: nat | MappedAt(v, x, k, id) && MappedAt(v, y, j, id)
      ensures Alike(v, x, k, y, j)
    {
      AppendPair(w, v, r, values, x, k, y, j, id);
    }
  }

  /** The request reads its old contents followed by the new values; nobody else sees a change. */
  lemma AppendRefines(w: World, v: World, r: nat, values: seq<KV>)
    requires WorldInv(w) && AppendStep(w, v, r, values)
    ensures WorldInv(v)
    ensures Read(v, r) == Read(w, r) + values
    ensures OthersRead(w, v, r) && CacheOnlyShrinks(w, v)
  {
    AppendRefs(w, v, r, values);
    AppendStorage(w, v, r, values);
    forall x | x in w.requests && x != r ensures Read(v, x) == Read(w, x) {
      AppendOthers(w, v, r, values, x);
    }
    AppendReadsBack(w, v, r, values);
    AppendCache(w, v, r, values);
    AppendPublishedFull(w, v, r, values);
    AppendSharedAlike(w, v, r, values);
  }

  // ---------------------------------------------------------------- steps that leave page contents alone

  /** Contents, and what is published, stay; only references move. */
  ghost predicate Rewires(w: World, v: World, r: nat) {
    && v.mem == w.mem && Inv(v.pool) && Steady(w.pool, v.pool) && NoNewPublication(w.pool, v.pool)
    && (forall x :: x in w.requests && x != r ==> x in v.requests && v.requests[x] == w.requests[x])
    && (forall x :: x in v.requests && x != r ==> x in w.requests)
  }

  /** Rewiring does not change what anybody else reads, and at most evicts. */
  lemma RewireRefines(w: World, v: World, r: nat)
    requires WorldInv(w) && Rewires(w, v, r) && TablesOk(v)
    ensures StorageOk(v) && OthersRead(w, v, r) && CacheOnlyShrinks(w, v)
  {
    forall x | x in w.requests && x != r ensures Read(v, x) == Read(w, x) {
      assert ContentsKept(w.requests[x], w.mem, v.mem) by {
        assert forall k :: 0 <= k < |w.requests[x].blocks| ==> Held(w.pool, w.requests[x].blocks[k]);
      }
      SameRead(w, v, x);
    }
    forall prefix | Published(v, prefix).Some? ensures Published(v, prefix) == Published(w, prefix) {
      assert Caches(w.pool, FindCached(v.pool, prefix).value, prefix);
    }
  }

  lemma RewireTables(w: World, v: World, r: nat)
    requires WorldInv(w) && Rewires(w, v, r) && RefsConserved(v)
    requires r in v.requests ==> SequenceOk(v.pool, v.requests[r])
    requires forall key ::
               key in v.direct ==> (key in w.direct && v.direct[key] == w.direct[key]) || Held(v.pool, v.direct[key])
    ensures TablesOk(v)
  {
    forall x | x in v.requests && x != r ensures SequenceOk(v.pool, v.requests[x]) {
      TableKept(w, v, x);
    }
    forall key | key in v.direct ensures Held(v.pool, v.direct[key]) {
      if key in w.direct && v.direct[key] == w.direct[key] {
        DirectKept(w, v, key);
      }
    }
  }

  /** Every entry of `v` was there before, or request `r` took it over from a request with the same tokens. */
  ghost predicate Inherits(w: World, v: World, r: nat, source: nat) {
    forall k: nat, id: nat :: MappedAt(v, r, k, id) ==>
      MappedAt(w, source, k, id) && v.requests[r].numTokens == w.requests[source].numTokens
  }

  function Origin(x: nat, r: nat, source: nat): nat {
    if x == r then source else x
  }

  lemma InheritedMaps(w: World, v: World, r: nat, source: nat)
    requires WorldInv(w) && Rewires(w, v, r) && Inherits(w, v, r, source) && TablesOk(v)
    ensures PublishedFull(v) && SharedAlike(v)
  {
    forall x: nat, k: nat, id: nat | MappedAt(v, x, k, id) && id < |v.pool.pages| && v.pool.pages[id].cached
      ensures |v.pool.pages[id].prefix| == k * v.pool.blockSize + v.pool.blockSize <= v.requests[x].numTokens
    {
      assert MappedAt(w, Origin(x, r, source), k, id);
    }
    forall x: nat, k: nat, y: nat, j: nat, id: nat | MappedAt(v, x, k, id) && MappedAt(v, y, j, id)
      ensures Alike(v, x, k, y, j)
    {
      assert MappedAt(w, Origin(x, r, source), k, id) && MappedAt(w, Origin(y, r, source), j, id);
    }
  }

  // ---------------------------------------------------------------- fork

  ghost predicate ForkStep(w: World, v: World, r: nat, child: nat) {
    && r in w.requests && child !in w.requests && child in v.requests && Touches(w, v, child)
    && v.mem == w.mem && Forks(w.pool, v.pool, w.requests[r], v.requests[child])
  }

  lemma BumpedRewires(w: World, v: World, r: nat, hs: seq<Handle>)
    requires Bumped(w.pool, v.pool, hs) && Inv(v.pool) && v.mem == w.mem && Touches(w, v, r)
    ensures Rewires(w, v, r)
  {
  }

  lemma ForkRefs(w: World, v: World, r: nat, child: nat)
    requires WorldInv(w) && ForkStep(w, v, r, child)
    ensures RefsConserved(v)
  {
    var hs := w.requests[r].blocks;
    assert TableExtended(w.requests, v.requests, child, hs);
    forall i | 0 <= i < |v.pool.pages| ensures v.pool.pages[i].refs == |Holders(v.requests, v.direct, i)| {
      HoldersGrow(w.requests, v.requests, w.direct, child, hs, i);
    }
  }

  /** The child reads everything the parent reads; nobody else sees a change. */
  lemma ForkRefines(w: World, v: World, r: nat, child: nat)
    requires WorldInv(w) && ForkStep(w, v, r, child)
    ensures WorldInv(v)
    ensures Read(v, child) == Read(w, r)
    ensures OthersRead(w, v, child) && CacheOnlyShrinks(w, v)
  {
    BumpedRewires(w, v, child, w.requests[r].blocks);
    ForkRefs(w, v, r, child);
    ForkTable(w, v, r, child);
    RewireTables(w, v, child);
    RewireRefines(w, v, child);
    InheritedMaps(w, v, child, r);
    assert Read(v, r) == Read(w, r);
  }

  lemma ForkTable(w: World, v: World, r: nat, child: nat)
    requires WorldInv(w) && ForkStep(w, v, r, child)
    ensures SequenceOk(v.pool, v.requests[child])
  {
    var s := w.requests[r];
    forall k | 0 <= k < |s.blocks| ensures Held(v.pool, s.blocks[k]) {
      assert Held(w.pool, s.blocks[k]);
    }
  }

  // ---------------------------------------------------------------- attach

  ghost predicate AttachStep(w: World, v: World, r: nat, tokens: Tokens) {
    && r in w.requests && w.requests[r] == Sequence([], 0) && Touches(w, v, r)
    && v.mem == w.mem && Attaches(w.pool, v.pool, tokens, v.requests[r])
  }

  lemma AttachRewires(w: World, v: World, r: nat, tokens: Tokens)
    requires WorldInv(w) && AttachStep(w, v, r, tokens)
    ensures Rewires(w, v, r) && RefsConserved(v) && SequenceOk(v.pool, v.requests[r])
  {
    var hs := v.requests[r].blocks;
    AttachDone(w.pool, v.pool, tokens, hs);
    assert TableExtended(w.requests, v.requests, r, hs);
    forall i | 0 <= i < |v.pool.pages| ensures v.pool.pages[i].refs == |Holders(v.requests, v.direct, i)| {
      HoldersGrow(w.requests, v.requests, w.direct, r, hs, i);
    }
  }

  lemma AttachMapped(w: World, v: World, r: nat, tokens: Tokens, x: nat, k: nat, id: nat)
    requires WorldInv(w) && AttachStep(w, v, r, tokens) && MappedAt(v, x, k, id) && id < |w.pool.pages|
    requires x == r || w.pool.pages[id].cached
    ensures w.pool.pages[id].cached
    ensures |w.pool.pages[id].prefix| == k * w.pool.blockSize + w.pool.blockSize <= v.requests[x].numTokens
    ensures Fill(v.requests[x].numTokens, k, w.pool.blockSize) == w.pool.blockSize
  {
    if x == r {
      var hs := v.requests[r].blocks;
      assert Caches(w.pool, hs[k].id, UpToBlock(tokens, k, w.pool.blockSize));
      MulOrder(k, |hs|, w.pool.blockSize);
    } else {
      assert MappedAt(w, x, k, id);
    }
  }

  lemma SameBlock(k: nat, j: nat, blockSize: nat)
    requires blockSize > 0 && k * blockSize == j * blockSize
    ensures k == j
  {
    MulOrder(k, j, blockSize);
    MulOrder(j, k, blockSize);
  }

  lemma AttachMaps(w: World, v: World, r: nat, tokens: Tokens)
    requires WorldInv(w) && AttachStep(w, v, r, tokens) && Rewires(w, v, r) && TablesOk(v)
    ensures PublishedFull(v) && SharedAlike(v)
  {
    forall x: nat, k: nat, id: nat | MappedAt(v, x, k, id) && id < |v.pool.pages| && v.pool.pages[id].cached
      ensures |v.pool.pages[id].prefix| == k * v.pool.blockSize + v.pool.blockSize <= v.requests[x].numTokens
    {
      AttachMapped(w, v, r, tokens, x, k, id);
    }
    forall x: nat, k: nat, y: nat, j: nat, id: nat | MappedAt(v, x, k, id) && MappedAt(v, y, j, id)
      ensures Alike(v, x, k, y, j)
    {
      AttachAlike(w, v, r, tokens, x, k, y, j, id);
    }
  }

  lemma AttachAlike(w: World, v: World, r: nat, tokens: Tokens, x: nat, k: nat, y: nat, j: nat, id: nat)
    requires WorldInv(w) && AttachStep(w, v, r, tokens) && TablesOk(v)
    requires MappedAt(v, x, k, id) && MappedAt(v, y, j, id)
    ensures Alike(v, x, k, y, j)
  {
    assert Held(v.pool, v.requests[x].blocks[k]);
    if x == r || y == r {
      if x == r {
        AttachMapped(w, v, r, tokens, x, k, id);
        AttachMapped(w, v, r, tokens, y, j, id);
      } else {
        AttachMapped(w, v, r, tokens, y, j, id);
        AttachMapped(w, v, r, tokens, x, k, id);
      }
      SameBlock(k, j, w.pool.blockSize);
    } else {
      assert MappedAt(w, x, k, id) && MappedAt(w, y, j, id);
    }
  }

  ghost predicate BlockIsPublished(w: World, tokens: Tokens, contents: seq<KV>, k: nat)
    requires StorageOk(w) && k * w.pool.blockSize + w.pool.blockSize <= |contents| <= |tokens|
  {
    var B := w.pool.blockSize;
    Published(w, UpToBlock(tokens, k, B)) == Some(contents[k * B..k * B + B])
  }

  /** Block `k` of the attached request holds exactly what was published under its prefix, and the
      attached run is the longest there is. */
  ghost predicate ReadsPublishedRun(w: World, tokens: Tokens, contents: seq<KV>)
    requires StorageOk(w)
  {
    var B := w.pool.blockSize;
    && |contents| <= |tokens| && |contents| % B == 0
    && (forall k: nat :: k * B + B <= |contents| ==> BlockIsPublished(w, tokens, contents, k))
    && (|contents| + B <= |tokens| ==> Published(w, tokens[..|contents| + B]).None?)
  }

  lemma AttachReads(w: World, v: World, r: nat, tokens: Tokens, k: nat)
    requires WorldInv(w) && AttachStep(w, v, r, tokens) && StorageOk(v) && TablesOk(v)
    requires k * w.pool.blockSize + w.pool.blockSize <= v.requests[r].numTokens
    ensures v.requests[r].numTokens <= |tokens| && BlockIsPublished(w, tokens, Read(v, r), k)
  {
    var B, t := w.pool.blockSize, v.requests[r];
    AttachLength(w.pool, v.pool, tokens, t);
    MulOrder(k, |t.blocks|, B);
    MulOrder(|t.blocks|, k, B);
    assert Caches(w.pool, t.blocks[k].id, UpToBlock(tokens, k, B));
    var id := t.blocks[k].id;
    assert FindCached(w.pool, UpToBlock(tokens, k, B)) == Some(id);
    ReadsPage(v, r, k);
  }

  /** A whole block of a request is the page that the table maps it to. */
  lemma ReadsPage(v: World, r: nat, k: nat)
    requires StorageOk(v) && TablesOk(v) && r in v.requests
    requires k * v.pool.blockSize + v.pool.blockSize <= v.requests[r].numTokens
    ensures k < |v.requests[r].blocks| && v.requests[r].blocks[k].id < |v.mem|
    ensures Read(v, r)[k * v.pool.blockSize..k * v.pool.blockSize + v.pool.blockSize]
              == v.mem[v.requests[r].blocks[k].id]
  {
    var B, t := v.pool.blockSize, v.requests[r];
    DivModUnique(k * B, B, k, 0);
    TokenHasBlock(k * B, t.numTokens, B);
    assert Held(v.pool, t.blocks[k]);
    var part := Read(v, r)[k * B..k * B + B];
    forall o | 0 <= o < B ensures part[o] == v.mem[t.blocks[k].id][o] {
      DivModUnique(k * B + o, B, k, o);
    }
  }

  lemma AttachLength(p: Pool, q: Pool, tokens: Tokens, t: Sequence)
    requires Attaches(p, q, tokens, t)
    ensures t.numTokens == |t.blocks| * p.blockSize <= |tokens|
  {
    if t.blocks != [] {
      var last := |t.blocks| - 1;
      assert Caches(p, t.blocks[last].id, UpToBlock(tokens, last, p.blockSize));
      MulSucc(last, p.blockSize);
    }
  }

  lemma AttachStops(w: World, v: World, r: nat, tokens: Tokens)
    requires WorldInv(w) && AttachStep(w, v, r, tokens)
    ensures var n := v.requests[r].numTokens;
            && n % w.pool.blockSize == 0 && n <= |tokens|
            && (n + w.pool.blockSize <= |tokens| ==> FindCached(w.pool, tokens[..n + w.pool.blockSize]).None?)
  {
    var B, m := w.pool.blockSize, |v.requests[r].blocks|;
    AttachLength(w.pool, v.pool, tokens, v.requests[r]);
    DivModUnique(m * B, B, m, 0);
  }

  lemma AttachReadsRun(w: World, v: World, r: nat, tokens: Tokens)
    requires WorldInv(w) && AttachStep(w, v, r, tokens) && StorageOk(v) && TablesOk(v)
    ensures ReadsPublishedRun(w, tokens, Read(v, r))
  {
    AttachStops(w, v, r, tokens);
    forall k: nat | k * w.pool.blockSize + w.pool.blockSize <= |Read(v, r)|
      ensures BlockIsPublished(w, tokens, Read(v, r), k)
    {
      AttachReads(w, v, r, tokens, k);
    }
  }

  /** An attached request starts with the published contents of its longest cached prefix. */
  lemma AttachRefines(w: World, v: World, r: nat, tokens: Tokens)
    requires WorldInv(w) && AttachStep(w, v, r, tokens)
    ensures WorldInv(v)
    ensures ReadsPublishedRun(w, tokens, Read(v, r))
    ensures OthersRead(w, v, r) && CacheOnlyShrinks(w, v)
  {
    AttachRewires(w, v, r, tokens);
    RewireTables(w, v, r);
    RewireRefines(w, v, r);
    AttachMaps(w, v, r, tokens);
    AttachReadsRun(w, v, r, tokens);
  }

  // ---------------------------------------------------------------- publish

  ghost predicate PublishStep(w: World, v: World, r: nat, k: nat, prefix: Tokens) {
    && r in w.requests && v.requests == w.requests && v.direct == w.direct && v.mem == w.mem
    && Publishes(w.pool, v.pool, w.requests[r], k, prefix)
  }

  lemma PublishTables(w: World, v: World, r: nat, k: nat, prefix: Tokens)
    requires WorldInv(w) && PublishStep(w, v, r, k, prefix)
    ensures StorageOk(v) && TablesOk(v)
  {
    PublishKeepsInv(w.pool, w.requests[r].blocks[k], prefix);
    forall x | x in v.requests ensures SequenceOk(v.pool, v.requests[x]) {
      var s := w.requests[x];
      forall j | 0 <= j < |s.blocks| ensures Held(v.pool, s.blocks[j]) {
        assert Held(w.pool, s.blocks[j]);
      }
    }
    forall key | key in v.direct ensures Held(v.pool, v.direct[key]) {
      assert Held(w.pool, w.direct[key]);
    }
  }

  lemma PublishCounts(w: World, v: World, r: nat, k: nat, prefix: Tokens)
    requires WorldInv(w) && PublishStep(w, v, r, k, prefix)
    ensures RefsConserved(v) && SharedAlike(v)
  {
    forall i | 0 <= i < |v.pool.pages| ensures v.pool.pages[i].refs == |Holders(v.requests, v.direct, i)| {
      assert w.pool.pages[i].refs == |Holders(w.requests, w.direct, i)|;
    }
    forall x: nat, j: nat, y: nat, l: nat, id: nat | MappedAt(v, x, j, id) && MappedAt(v, y, l, id)
      ensures Alike(v, x, j, y, l)
    {
      assert MappedAt(w, x, j, id) && MappedAt(w, y, l, id);
    }
  }

  lemma PublishMaps(w: World, v: World, r: nat, k: nat, prefix: Tokens)
    requires WorldInv(w) && PublishStep(w, v, r, k, prefix)
    ensures PublishedFull(v)
  {
    var id := w.requests[r].blocks[k].id;
    assert MappedAt(w, r, k, id);
    forall x: nat, j: nat, i: nat | MappedAt(v, x, j, i) && i < |v.pool.pages| && v.pool.pages[i].cached
      ensures |v.pool.pages[i].prefix| == j * v.pool.blockSize + v.pool.blockSize <= v.requests[x].numTokens
    {
      assert MappedAt(w, x, j, i);
      if i == id {
        SoleHolder(w, id, Entry(x, j), Entry(r, k));
      }
    }
  }

  lemma PublishContents(w: World, v: World, r: nat, k: nat, prefix: Tokens)
    requires WorldInv(w) && PublishStep(w, v, r, k, prefix)
    ensures k * w.pool.blockSize + w.pool.blockSize <= w.requests[r].numTokens
    ensures w.requests[r].blocks[k].id < |w.mem|
    ensures w.mem[w.requests[r].blocks[k].id]
            == Read(w, r)[k * w.pool.blockSize..k * w.pool.blockSize + w.pool.blockSize]
  {
    var B, id := w.pool.blockSize, w.requests[r].blocks[k].id;
    var part := Read(w, r)[k * B..k * B + B];
    forall o | 0 <= o < B ensures part[o] == w.mem[id][o] {
      DivModUnique(k * B + o, B, k, o);
    }
    assert part == w.mem[id];
  }

  /** Publishing adds exactly what the publisher reads in that block, and changes nobody's reading. */
  lemma PublishRefines(w: World, v: World, r: nat, k: nat, prefix: Tokens)
    requires WorldInv(w) && PublishStep(w, v, r, k, prefix)
    ensures WorldInv(v)
    ensures forall x :: x in w.requests ==> Read(v, x) == Read(w, x)
    ensures k * w.pool.blockSize + w.pool.blockSize <= |Read(w, r)|
    ensures Published(w, prefix).None?
    ensures forall other :: Published(v, other) ==
              if other == prefix then Some(Read(w, r)[k * w.pool.blockSize..k * w.pool.blockSize + w.pool.blockSize])
              else Published(w, other)
  {
    PublishTables(w, v, r, k, prefix);
    PublishCounts(w, v, r, k, prefix);
    PublishMaps(w, v, r, k, prefix);
    PublishContents(w, v, r, k, prefix);
    forall x | x in w.requests ensures Read(v, x) == Read(w, x) {
      SameRead(w, v, x);
    }
    forall other ensures Published(v, other) ==
                         if other == prefix then Some(w.mem[w.requests[r].blocks[k].id]) else Published(w, other)
    {
      PublishedAs(w, v, r, k, prefix, other);
    }
  }

  lemma PublishedAs(w: World, v: World, r: nat, k: nat, prefix: Tokens, other: Tokens)
    requires WorldInv(w) && PublishStep(w, v, r, k, prefix) && StorageOk(v)
    ensures w.requests[r].blocks[k].id < |w.mem|
    ensures Published(v, other) ==
            if other == prefix then Some(w.mem[w.requests[r].blocks[k].id]) else Published(w, other)
  {
    var id := w.requests[r].blocks[k].id;
    assert Caches(v.pool, id, prefix);
    if other != prefix {
      assert forall i: nat :: Caches(v.pool, i, other) <==> Caches(w.pool, i, other);
    }
  }

  // ---------------------------------------------------------------- create, destroy, failures

  ghost predicate CreateStep(w: World, v: World, r: nat) {
    r !in w.requests && v == w.(requests := w.requests[r := Sequence([], 0)])
  }

  lemma CreateRefines(w: World, v: World, r: nat)
    requires WorldInv(w) && CreateStep(w, v, r)
    ensures WorldInv(v)
    ensures Read(v, r) == [] && OthersRead(w, v, r) && CacheOnlyShrinks(w, v)
  {
    assert TableExtended(w.requests, v.requests, r, []);
    forall i | 0 <= i < |v.pool.pages| ensures v.pool.pages[i].refs == |Holders(v.requests, v.direct, i)| {
      HoldersGrow(w.requests, v.requests, w.direct, r, [], i);
    }
    RewireTables(w, v, r);
    RewireRefines(w, v, r);
    InheritedMaps(w, v, r, r);
  }

  ghost predicate DestroyStep(w: World, v: World, r: nat) {
    && r in w.requests && v.requests == w.requests - {r} && v.direct == w.direct && v.mem == w.mem
    && Destroys(w.pool, v.pool, w.requests[r])
  }

  lemma DestroyRefines(w: World, v: World, r: nat)
    requires WorldInv(w) && DestroyStep(w, v, r)
    ensures WorldInv(v) && OthersRead(w, v, r) && CacheOnlyShrinks(w, v)
  {
    var hs := w.requests[r].blocks;
    assert TableExtended(v.requests, w.requests, r, hs);
    forall i | 0 <= i < |v.pool.pages| ensures v.pool.pages[i].refs == |Holders(v.requests, v.direct, i)| {
      HoldersGrow(v.requests, w.requests, w.direct, r, hs, i);
      assert w.pool.pages[i].refs == |Holders(w.requests, w.direct, i)|;
    }
    DestroyRewires(w, v, r);
    RewireTables(w, v, r);
    RewireRefines(w, v, r);
    InheritedMaps(w, v, r, r);
  }

  lemma DestroyRewires(w: World, v: World, r: nat)
    requires WorldInv(w) && DestroyStep(w, v, r)
    ensures Rewires(w, v, r)
  {
  }

  /** Pages that somebody references or that are published keep their contents. */
  ghost predicate SparesUsed(p: Pool, mem: seq<seq<KV>>, after: seq<seq<KV>>) {
    && MemOk(p, mem) && MemOk(p, after)
    && forall i :: 0 <= i < |p.pages| && (p.pages[i].refs > 0 || p.pages[i].cached) ==> after[i] == mem[i]
  }

  /** Any operation that failed: counts as before, possibly fewer cached prefixes. What a copy callback wrote
      before it threw is still there, on a page that nobody has. */
  ghost predicate FailStep(w: World, v: World) {
    v.requests == w.requests && v.direct == w.direct && Undone(w.pool, v.pool) && SparesUsed(v.pool, w.mem, v.mem)
  }

  lemma FailRefines(w: World, v: World)
    requires WorldInv(w) && FailStep(w, v)
    ensures WorldInv(v) && CacheOnlyShrinks(w, v)
    ensures forall x :: x in w.requests ==> Read(v, x) == Read(w, x)
    ensures |v.pool.free| + |v.pool.idle| == |w.pool.free| + |w.pool.idle|
  {
    var u := v.(mem := w.mem);
    UndoRefines(w, u);
    SpoiledPages(u, v);
  }

  lemma UndoRefines(w: World, u: World)
    requires WorldInv(w) && u.requests == w.requests && u.direct == w.direct && u.mem == w.mem && Undone(w.pool, u.pool)
    ensures WorldInv(u) && CacheOnlyShrinks(w, u)
    ensures forall x :: x in w.requests ==> Read(u, x) == Read(w, x)
    ensures |u.pool.free| + |u.pool.idle| == |w.pool.free| + |w.pool.idle|
  {
    UndoneRestoresAvailable(w.pool, u.pool);
    forall i | 0 <= i < |u.pool.pages| ensures u.pool.pages[i].refs == |Holders(u.requests, u.direct, i)| {
      assert w.pool.pages[i].refs == |Holders(w.requests, w.direct, i)|;
    }
    var r: nat :| r !in w.requests by { FreshRequest(w.requests.Keys); }
    RewireTables(w, u, r);
    RewireRefines(w, u, r);
    InheritedMaps(w, u, r, r);
  }

  /** Nobody reads a page that nobody has. */
  lemma SpoiledPages(u: World, v: World)
    requires WorldInv(u) && v == u.(mem := v.mem) && SparesUsed(u.pool, u.mem, v.mem)
    ensures WorldInv(v) && CacheOnlyShrinks(u, v)
    ensures forall x :: x in u.requests ==> Read(v, x) == Read(u, x)
  {
    assert StorageOk(v) && TablesOk(v) && RefsConserved(v);
    forall x: nat, k: nat, y: nat, j: nat, id: nat | MappedAt(v, x, k, id) && MappedAt(v, y, j, id)
      ensures Alike(v, x, k, y, j)
    {
      assert MappedAt(u, x, k, id) && MappedAt(u, y, j, id);
    }
    forall x: nat, k: nat, id: nat | MappedAt(v, x, k, id) && id < |v.pool.pages| && v.pool.pages[id].cached
      ensures |v.pool.pages[id].prefix| == k * v.pool.blockSize + v.pool.blockSize <= v.requests[x].numTokens
    {
      assert MappedAt(u, x, k, id);
    }
    forall x | x in u.requests ensures Read(v, x) == Read(u, x) {
      assert forall k :: 0 <= k < |u.requests[x].blocks| ==> Held(u.pool, u.requests[x].blocks[k]);
      SameRead(u, v, x);
    }
    forall prefix | Published(v, prefix).Some? ensures Published(v, prefix) == Published(u, prefix) {
      assert Caches(u.pool, FindCached(v.pool, prefix).value, prefix);
    }
  }

  lemma FreshRequest(ids: set<nat>)
    ensures exists r: nat :: r !in ids
  {
    var r := Above(ids);
    assert r !in ids;
  }

  ghost function Above(ids: set<nat>): (r: nat)
    ensures forall x :: x in ids ==> x < r
  {
    if ids == {} then 0
    else
      var x :| x in ids;
      var rest := Above(ids - {x});
      assert ids == (ids - {x}) + {x};
      if rest > x then rest else x + 1
  }

  // ---------------------------------------------------------------- pages held without a table

  ghost predicate DirectAllocateStep(w: World, v: World, key: nat) {
    && StorageOk(w) && key !in w.direct && Allocate(w.pool).Ok?
    && v == World(Allocate(w.pool).value.1, w.mem, w.requests, w.direct[key := Allocate(w.pool).value.0])
  }

  ghost predicate DirectRetainStep(w: World, v: World, key: nat, h: Handle) {
    && key !in w.direct && Retain(w.pool, h).Ok?
    && v == World(Retain(w.pool, h).value, w.mem, w.requests, w.direct[key := h])
  }

  ghost predicate DirectReleaseStep(w: World, v: World, key: nat) {
    && key in w.direct && Release(w.pool, w.direct[key]).Ok?
    && v == World(Release(w.pool, w.direct[key]).value, w.mem, w.requests, w.direct - {key})
  }

  lemma HoldersDirect(requests: map<nat, Sequence>, direct: map<nat, Handle>, key: nat, h: Handle, id: nat)
    requires key !in direct
    ensures |Holders(requests, direct[key := h], id)|
            == |Holders(requests, direct, id)| + if h.id == id then 1 else 0
  {
    var more := direct[key := h];
    if h.id == id {
      forall x ensures Holds(requests, more, x, id) <==> Holds(requests, direct, x, id) || x == Direct(key) {
      }
      OneMore(Holders(requests, direct, id), Holders(requests, more, id), Direct(key));
    } else {
      forall x ensures Holds(requests, more, x, id) <==> Holds(requests, direct, x, id) {
      }
      JustAsMany(Holders(requests, direct, id), Holders(requests, more, id));
    }
  }

  /** Taking or returning a page without a table changes nobody's reading. */
  lemma DirectRefines(w: World, v: World, key: nat, h: Handle)
    requires WorldInv(w)
    requires DirectAllocateStep(w, v, key) || DirectRetainStep(w, v, key, h) || DirectReleaseStep(w, v, key)
    ensures WorldInv(v) && CacheOnlyShrinks(w, v)
    ensures forall x :: x in w.requests ==> Read(v, x) == Read(w, x)
  {
    DirectRefs(w, v, key, h);
    var r: nat :| r !in w.requests by { FreshRequest(w.requests.Keys); }
    assert Rewires(w, v, r);
    RewireTables(w, v, r);
    RewireRefines(w, v, r);
    InheritedMaps(w, v, r, r);
  }

  lemma DirectRefs(w: World, v: World, key: nat, h: Handle)
    requires WorldInv(w)
    requires DirectAllocateStep(w, v, key) || DirectRetainStep(w, v, key, h) || DirectReleaseStep(w, v, key)
    ensures Inv(v.pool) && Steady(w.pool, v.pool) && NoNewPublication(w.pool, v.pool) && RefsConserved(v)
    ensures key in v.direct ==> Held(v.pool, v.direct[key])
  {
    if DirectAllocateStep(w, v, key) {
      DirectAllocateRefs(w, v, key);
    } else if DirectRetainStep(w, v, key, h) {
      DirectRetainRefs(w, v, key, h);
    } else {
      DirectReleaseRefs(w, v, key);
    }
  }

  lemma DirectAllocateRefs(w: World, v: World, key: nat)
    requires WorldInv(w) && DirectAllocateStep(w, v, key)
    ensures Inv(v.pool) && Steady(w.pool, v.pool) && NoNewPublication(w.pool, v.pool) && RefsConserved(v)
            && Held(v.pool, v.direct[key])
  {
    AllocateKeepsInv(w.pool);
    AllocateOutcome(w.pool);
    DirectAdded(w, v, key);
  }

  lemma DirectRetainRefs(w: World, v: World, key: nat, h: Handle)
    requires WorldInv(w) && DirectRetainStep(w, v, key, h)
    ensures Inv(v.pool) && Steady(w.pool, v.pool) && NoNewPublication(w.pool, v.pool) && RefsConserved(v)
            && Held(v.pool, v.direct[key])
  {
    RetainKeepsInv(w.pool, h);
    DirectAdded(w, v, key);
  }

  lemma DirectReleaseRefs(w: World, v: World, key: nat)
    requires WorldInv(w) && DirectReleaseStep(w, v, key)
    ensures Inv(v.pool) && Steady(w.pool, v.pool) && NoNewPublication(w.pool, v.pool) && RefsConserved(v)
  {
    ReleaseKeepsInv(w.pool, w.direct[key]);
    DirectRemoved(w, v, key);
  }

  lemma DirectAdded(w: World, v: World, key: nat)
    requires RefsConserved(w) && SameShape(w.pool, v.pool) && v.requests == w.requests
    requires key !in w.direct && key in v.direct && v.direct == w.direct[key := v.direct[key]]
    requires forall i :: 0 <= i < |w.pool.pages| ==>
               v.pool.pages[i].refs == w.pool.pages[i].refs + if v.direct[key].id == i then 1 else 0
    ensures RefsConserved(v)
  {
    forall i | 0 <= i < |v.pool.pages| ensures v.pool.pages[i].refs == |Holders(v.requests, v.direct, i)| {
      assert w.pool.pages[i].refs == |Holders(w.requests, w.direct, i)|;
      HoldersDirect(w.requests, w.direct, key, v.direct[key], i);
    }
  }

  lemma DirectRemoved(w: World, v: World, key: nat)
    requires RefsConserved(w) && SameShape(w.pool, v.pool) && v.requests == w.requests
    requires key in w.direct && v.direct == w.direct - {key}
    requires forall i :: 0 <= i < |w.pool.pages| ==>
               w.pool.pages[i].refs == v.pool.pages[i].refs + if w.direct[key].id == i then 1 else 0
    ensures RefsConserved(v)
  {
    forall i | 0 <= i < |v.pool.pages| ensures v.pool.pages[i].refs == |Holders(v.requests, v.direct, i)| {
      assert w.pool.pages[i].refs == |Holders(w.requests, w.direct, i)|;
      assert v.direct[key := w.direct[key]] == w.direct;
      HoldersDirect(v.requests, v.direct, key, w.direct[key], i);
    }
  }

  // ---------------------------------------------------------------- copy-on-write append

  /** The shared tail is copied whole to a fresh page, then the new value is stored behind it. */
  ghost predicate CopyStep(w: World, v: World, r: nat, value: KV) {
    && StorageOk(w) && r in w.requests && r in v.requests && Touches(w, v, r)
    && CopiesTail(w.pool, v.pool, w.requests[r], v.requests[r])
    && var from, to := Tail(w.requests[r]), Tail(v.requests[r]);
       && from.id < |w.mem| && to.id < |w.mem|
       && v.mem == WriteCell(w.mem[to.id := w.mem[from.id]], v.requests[r], w.requests[r].numTokens, value,
                             w.pool.blockSize)
  }

  function Tail(s: Sequence): Handle {
    if s.blocks == [] then Handle(0, 0) else s.blocks[|s.blocks| - 1]
  }

  /** The tables with the replaced entry taken out: what both sides have in common. */
  function Cut(w: World, r: nat): map<nat, Sequence>
    requires r in w.requests && w.requests[r].blocks != []
  {
    var s := w.requests[r];
    w.requests[r := Sequence(s.blocks[..|s.blocks| - 1], s.numTokens)]
  }

  lemma UsesOne(h: Handle, i: nat)
    ensures Uses([h], i) <==> h.id == i
  {
    assert [h][0] == h;
  }

  lemma CopyHolders(w: World, v: World, r: nat, value: KV, i: nat)
    requires WorldInv(w) && CopyStep(w, v, r, value) && i < |w.pool.pages|
    ensures v.pool.pages[i].refs == |Holders(v.requests, v.direct, i)|
  {
    var from, to := Tail(w.requests[r]), Tail(v.requests[r]);
    CopyExtends(w, v, r, value);
    TailSwapped(Cut(w, r), w.requests, v.requests, w.direct, r, from, to, i);
    assert w.pool.pages[i].refs == |Holders(w.requests, w.direct, i)|;
    CopyMovesOneRef(w.pool, v.pool, w.requests[r], v.requests[r], i);
  }

  /** Both tables are the common part and one entry more. */
  lemma CopyExtends(w: World, v: World, r: nat, value: KV)
    requires TablesOk(w) && CopyStep(w, v, r, value)
    ensures w.requests[r].blocks != []
    ensures TableExtended(Cut(w, r), w.requests, r, [Tail(w.requests[r])])
    ensures TableExtended(Cut(w, r), v.requests, r, [Tail(v.requests[r])])
  {
    assert SequenceOk(w.pool, w.requests[r]) && SequenceOk(v.pool, v.requests[r]);
    var cut := w.requests[r].blocks[..|w.requests[r].blocks| - 1];
    CutExtends(w.requests, w.requests, r, cut, Tail(w.requests[r]));
    CutExtends(w.requests, v.requests, r, cut, Tail(v.requests[r]));
  }

  lemma CutExtends(a: map<nat, Sequence>, b: map<nat, Sequence>, r: nat, cut: seq<Handle>, last: Handle)
    requires r in a && b.Keys == a.Keys && forall x :: x in a && x != r ==> b[x].blocks == a[x].blocks
    requires b[r].blocks == cut + [last] && DistinctIds(b[r].blocks)
    ensures TableExtended(a[r := Sequence(cut, a[r].numTokens)], b, r, [last])
  {
  }

  /** One entry for another: one holder less there, one more here. */
  lemma TailSwapped(cut: map<nat, Sequence>, before: map<nat, Sequence>, after: map<nat, Sequence>,
                    direct: map<nat, Handle>, r: nat, from: Handle, to: Handle, i: nat)
    requires TableExtended(cut, before, r, [from]) && TableExtended(cut, after, r, [to])
    ensures |Holders(after, direct, i)| - (if to.id == i then 1 else 0)
              == |Holders(before, direct, i)| - (if from.id == i then 1 else 0)
  {
    HoldersGrow(cut, before, direct, r, [from], i);
    HoldersGrow(cut, after, direct, r, [to], i);
    UsesOne(from, i);
    UsesOne(to, i);
  }

  lemma CopyMovesOneRef(p: Pool, q: Pool, s: Sequence, t: Sequence, i: nat)
    requires CopiesTail(p, q, s, t) && i < |p.pages|
    ensures q.pages[i].refs - (if Tail(t).id == i then 1 else 0) == p.pages[i].refs - (if Tail(s).id == i then 1 else 0)
  {
  }

  lemma CopySteady(w: World, v: World, r: nat, value: KV)
    requires CopyStep(w, v, r, value)
    ensures Steady(w.pool, v.pool) && NoNewPublication(w.pool, v.pool)
  {
  }

  lemma CopyRefs(w: World, v: World, r: nat, value: KV)
    requires WorldInv(w) && CopyStep(w, v, r, value)
    ensures Steady(w.pool, v.pool) && NoNewPublication(w.pool, v.pool) && RefsConserved(v)
  {
    CopySteady(w, v, r, value);
    forall i | 0 <= i < |v.pool.pages| ensures v.pool.pages[i].refs == |Holders(v.requests, v.direct, i)| {
      CopyHolders(w, v, r, value, i);
    }
  }

  lemma CopyMem(w: World, v: World, r: nat, value: KV)
    requires WorldInv(w) && CopyStep(w, v, r, value)
    ensures MemOk(v.pool, v.mem)
    ensures forall i :: 0 <= i < |w.mem| && i != Tail(v.requests[r]).id ==> v.mem[i] == w.mem[i]
  {
    LastBlockOffset(w.requests[r].numTokens, w.pool.blockSize);
    assert SequenceOk(w.pool, w.requests[r]);
  }

  lemma CopyStorage(w: World, v: World, r: nat, value: KV)
    requires WorldInv(w) && CopyStep(w, v, r, value)
    ensures StorageOk(v) && TablesOk(v)
  {
    CopyRefs(w, v, r, value);
    TablesKept(w, v, r);
    CopyMem(w, v, r, value);
  }

  /** Only the writer's last entry maps the fresh page. */
  lemma CopyFresh(w: World, v: World, r: nat, value: KV, x: nat, k: nat, id: nat)
    requires WorldInv(w) && CopyStep(w, v, r, value) && MappedAt(v, x, k, id)
    ensures id == Tail(v.requests[r]).id ==> x == r && k == |v.requests[r].blocks| - 1
  {
    if !(x == r && k == |v.requests[r].blocks| - 1) {
      assert Holds(w.requests, w.direct, Entry(x, k), id);
      if id == Tail(v.requests[r]).id {
        NoHolder(w, id, Entry(x, k));
      }
    }
  }

  lemma CopyOthers(w: World, v: World, r: nat, value: KV, x: nat)
    requires WorldInv(w) && CopyStep(w, v, r, value) && StorageOk(v) && TablesOk(v)
    requires x in w.requests && x != r
    ensures Read(v, x) == Read(w, x)
  {
    var s := w.requests[x];
    CopyMem(w, v, r, value);
    forall k | 0 <= k < |s.blocks| && s.blocks[k].id < |w.mem|
      ensures s.blocks[k].id < |v.mem| && v.mem[s.blocks[k].id] == w.mem[s.blocks[k].id]
    {
      assert MappedAt(v, x, k, s.blocks[k].id);
      CopyFresh(w, v, r, value, x, k, s.blocks[k].id);
    }
    SameRead(w, v, x);
  }

  lemma CopyCell(w: World, v: World, r: nat, value: KV, j: nat)
    requires WorldInv(w) && CopyStep(w, v, r, value) && StorageOk(v) && TablesOk(v)
    requires j < v.requests[r].numTokens
    ensures CellAt(v.pool, v.mem, v.requests[r], j) ==
            if j < w.requests[r].numTokens then CellAt(w.pool, w.mem, w.requests[r], j) else value
  {
    var s, t, copied := w.requests[r], v.requests[r], w.mem[Tail(v.requests[r]).id := w.mem[Tail(w.requests[r]).id]];
    WriteOneThenRead(v.pool, copied, t, s.numTokens, value, j);
    if j < s.numTokens {
      CopiedCell(w, v, r, value, j);
    }
  }

  lemma CopiedCell(w: World, v: World, r: nat, value: KV, j: nat)
    requires WorldInv(w) && CopyStep(w, v, r, value) && TablesOk(v) && j < w.requests[r].numTokens
    ensures var copied := w.mem[Tail(v.requests[r]).id := w.mem[Tail(w.requests[r]).id]];
            MemOk(v.pool, copied)
            && CellAt(v.pool, copied, v.requests[r], j) == CellAt(w.pool, w.mem, w.requests[r], j)
  {
    var s, t := w.requests[r], v.requests[r];
    TokenHasBlock(j, s.numTokens, w.pool.blockSize);
    var k := j / w.pool.blockSize;
    assert Held(w.pool, s.blocks[k]);
    if k < |s.blocks| - 1 {
      assert t.blocks[k] == s.blocks[k];
      assert MappedAt(v, r, k, s.blocks[k].id);
      CopyFresh(w, v, r, value, r, k, s.blocks[k].id);
    } else {
      assert t.blocks[k] == Tail(t) && s.blocks[k] == Tail(s);
    }
    assert w.mem[Tail(t).id := w.mem[Tail(s).id]][t.blocks[k].id] == w.mem[s.blocks[k].id];
  }

  lemma CopyReadsBack(w: World, v: World, r: nat, value: KV)
    requires WorldInv(w) && CopyStep(w, v, r, value) && StorageOk(v) && TablesOk(v)
    ensures Read(v, r) == Read(w, r) + [value]
  {
    forall j | 0 <= j < v.requests[r].numTokens ensures Read(v, r)[j] == (Read(w, r) + [value])[j] {
      CopyCell(w, v, r, value, j);
    }
  }

  lemma CopyCache(w: World, v: World, r: nat, value: KV)
    requires WorldInv(w) && CopyStep(w, v, r, value) && StorageOk(v) && NoNewPublication(w.pool, v.pool)
    ensures CacheOnlyShrinks(w, v)
  {
    CopyMem(w, v, r, value);
    forall prefix | Published(v, prefix).Some? ensures Published(v, prefix) == Published(w, prefix) {
      assert Caches(w.pool, FindCached(v.pool, prefix).value, prefix);
    }
  }

  lemma CopyMapped(w: World, v: World, r: nat, value: KV, x: nat, k: nat, id: nat)
    requires WorldInv(w) && CopyStep(w, v, r, value) && MappedAt(v, x, k, id) && id != Tail(v.requests[r]).id
    ensures MappedAt(w, x, k, id)
    ensures Fill(v.requests[x].numTokens, k, w.pool.blockSize) == Fill(w.requests[x].numTokens, k, w.pool.blockSize)
  {
    if x == r {
      var s := w.requests[r];
      assert k < |s.blocks| - 1;
      LastBlockOffset(s.numTokens, w.pool.blockSize);
      BlockBounds(s.numTokens, w.pool.blockSize, k);
    }
  }

  lemma CopyMaps(w: World, v: World, r: nat, value: KV)
    requires WorldInv(w) && CopyStep(w, v, r, value) && NoNewPublication(w.pool, v.pool)
    ensures PublishedFull(v) && SharedAlike(v)
  {
    var to := Tail(v.requests[r]);
    forall x: nat, k: nat, id: nat | MappedAt(v, x, k, id) && id < |v.pool.pages| && v.pool.pages[id].cached
      ensures |v.pool.pages[id].prefix| == k * v.pool.blockSize + v.pool.blockSize <= v.requests[x].numTokens
    {
      CopyMapped(w, v, r, value, x, k, id);
    }
    forall x: nat, k: nat, y: nat, j: nat, id: nat | MappedAt(v, x, k, id) && MappedAt(v, y, j, id)
      ensures Alike(v, x, k, y, j)
    {
      if id == to.id {
        CopyFresh(w, v, r, value, x, k, id);
        CopyFresh(w, v, r, value, y, j, id);
      } else {
        CopyMapped(w, v, r, value, x, k, id);
        CopyMapped(w, v, r, value, y, j, id);
      }
    }
  }

  /** A request that shares its tail appends as if the tail were its own. */
  lemma CopyRefines(w: World, v: World, r: nat, value: KV)
    requires WorldInv(w) && CopyStep(w, v, r, value)
    ensures WorldInv(v)
    ensures Read(v, r) == Read(w, r) + [value]
    ensures OthersRead(w, v, r) && CacheOnlyShrinks(w, v)
  {
    CopyRefs(w, v, r, value);
    CopyStorage(w, v, r, value);
    forall x | x in w.requests && x != r ensures Read(v, x) == Read(w, x) {
      CopyOthers(w, v, r, value, x);
    }
    CopyReadsBack(w, v, r, value);
    CopyCache(w, v, r, value);
    CopyMaps(w, v, r, value);
  }
}
