/** What the page allocator means: slots with generations and reference counts, a stack of free
    slots, a queue of idle cached slots, and a set of published prefixes. BlockManager implements
    it with intrusive lists and a hash index. */
module PagePool {
  import opened Common

  datatype Handle = Handle(id: nat, generation: nat)

  datatype Page = Page(generation: nat, refs: nat, free: bool, cached: bool, prefix: Tokens)

  /** `free` is popped at its head; `idle` holds the unreferenced cached pages, oldest release first. */
  datatype Pool = Pool(blockSize: nat, pages: seq<Page>, free: seq<nat>, idle: seq<nat>)

  // ---------------------------------------------------------------- invariant

  predicate FullPrefix(blockSize: nat, prefix: Tokens)
    requires blockSize > 0
  {
    prefix != [] && |prefix| % blockSize == 0
  }

  ghost predicate PageOk(blockSize: nat, page: Page)
    requires blockSize > 0
  {
    && page.generation <= MAX64
    && page.refs <= MAX64
    && (page.free ==> page.refs == 0 && !page.cached)
    && (!page.free && page.refs == 0 ==> page.cached)
    && (if page.cached then FullPrefix(blockSize, page.prefix) else page.prefix == [])
  }

  ghost predicate PagesOk(blockSize: nat, pages: seq<Page>)
    requires blockSize > 0
  {
    forall i :: 0 <= i < |pages| ==> PageOk(blockSize, pages[i])
  }

  predicate IsIdle(page: Page) {
    !page.free && page.refs == 0
  }

  ghost predicate FreeOk(pages: seq<Page>, free: seq<nat>) {
    && NoDup(free)
    && (forall k :: 0 <= k < |free| ==> free[k] < |pages|)
    && (forall i: nat :: i < |pages| ==> (pages[i].free <==> i in free))
  }

  ghost predicate IdleOk(pages: seq<Page>, idle: seq<nat>) {
    && NoDup(idle)
    && (forall k :: 0 <= k < |idle| ==> idle[k] < |pages|)
    && (forall i: nat :: i < |pages| ==> (IsIdle(pages[i]) <==> i in idle))
  }

  ghost predicate PrefixesUnique(pages: seq<Page>) {
    forall i, j {:trigger pages[i].prefix, pages[j].prefix} ::
      0 <= i < |pages| && 0 <= j < |pages| && pages[i].cached && pages[j].cached ==>
      (pages[i].prefix == pages[j].prefix ==> i == j)
  }

  /** Free slots, idle slots and referenced slots partition the pool, and prefixes are published once. */
  ghost predicate Inv(p: Pool) {
    p.blockSize > 0 && PagesOk(p.blockSize, p.pages) && FreeOk(p.pages, p.free) && IdleOk(p.pages, p.idle)
    && PrefixesUnique(p.pages)
  }

  // ---------------------------------------------------------------- operations

  predicate Live(p: Pool, h: Handle) {
    h.id < |p.pages| && !p.pages[h.id].free && p.pages[h.id].generation == h.generation
  }

  /** A handle whose page somebody still references. */
  predicate Held(p: Pool, h: Handle) {
    Live(p, h) && p.pages[h.id].refs > 0
  }

  ghost predicate Caches(p: Pool, id: nat, prefix: Tokens) {
    id < |p.pages| && p.pages[id].cached && p.pages[id].prefix == prefix
  }

  function Allocate(p: Pool): Result<(Handle, Pool)>
    requires Inv(p)
  {
    if p.free == [] && p.idle == [] then Err(CapacityError)
    else
      var id := if p.free != [] then p.free[0] else p.idle[0];
      var generation := p.pages[id].generation;
      if generation == MAX64 then Err(OverflowError)
      else
        var pages := p.pages[id := Page(generation + 1, 1, false, false, [])];
        Ok((Handle(id, generation + 1),
            if p.free != [] then p.(pages := pages, free := p.free[1..])
            else p.(pages := pages, idle := p.idle[1..])))
  }

  function Retain(p: Pool, h: Handle): Result<Pool> {
    if !Live(p, h) then Err(InvalidArgument)
    else
      var page := p.pages[h.id];
      if page.refs == MAX64 then Err(OverflowError)
      else Ok(p.(pages := p.pages[h.id := page.(refs := page.refs + 1)],
                 idle := Without(p.idle, h.id)))
  }

  function Release(p: Pool, h: Handle): Result<Pool> {
    if !Held(p, h) then Err(InvalidArgument)
    else
      var page := p.pages[h.id];
      if page.refs > 1 then
        Ok(p.(pages := p.pages[h.id := page.(refs := page.refs - 1)]))
      else if page.cached then
        Ok(p.(pages := p.pages[h.id := page.(refs := 0)], idle := p.idle + [h.id]))
      else
        Ok(p.(pages := p.pages[h.id := page.(refs := 0, free := true)], free := [h.id] + p.free))
  }

  ghost function Publish(p: Pool, h: Handle, prefix: Tokens): Result<Pool>
    requires p.blockSize > 0
  {
    if !Live(p, h) || p.pages[h.id].refs != 1 || p.pages[h.id].cached || !FullPrefix(p.blockSize, prefix)
       || (exists id :: Caches(p, id, prefix)) then
      Err(InvalidArgument)
    else
      Ok(p.(pages := p.pages[h.id := p.pages[h.id].(cached := true, prefix := prefix)]))
  }

  /** The one page published under exactly this prefix, if any. */
  ghost function FindCached(p: Pool, prefix: Tokens): (r: Option<nat>)
    ensures r.Some? <==> exists id :: Caches(p, id, prefix)
    ensures r.Some? ==> Caches(p, r.value, prefix)
  {
    if exists id :: Caches(p, id, prefix) then
      var id :| Caches(p, id, prefix);
      Some(id)
    else None
  }

  /** A hit takes one reference to the page published under exactly this prefix. */
  ghost function Lookup(p: Pool, prefix: Tokens): Result<(Option<Handle>, Pool)> {
    match FindCached(p, prefix)
    case None => Ok((None, p))
    case Some(id) =>
      var h := Handle(id, p.pages[id].generation);
      match Retain(p, h)
      case Err(e) => Err(e)
      case Ok(q) => Ok((Some(h), q))
  }

  /** Releasing a list of handles one after the other. */
  ghost function ReleaseAll(p: Pool, hs: seq<Handle>): Pool
    decreases |hs|
  {
    if hs == [] then p
    else ReleaseAll(if Release(p, hs[0]).Ok? then Release(p, hs[0]).value else p, hs[1..])
  }

  /** Retaining a list of handles one after the other, up to the first refusal. */
  ghost function RetainAll(p: Pool, hs: seq<Handle>): Result<Pool> {
    if hs == [] then Ok(p)
    else
      match RetainAll(p, hs[..|hs| - 1])
      case Err(e) => Err(e)
      case Ok(q) => Retain(q, hs[|hs| - 1])
  }

  // ---------------------------------------------------------------- the invariant is kept

  lemma AllocateKeepsInv(p: Pool)
    requires Inv(p) && Allocate(p).Ok?
    ensures Inv(Allocate(p).value.1)
  {
    if p.free != [] {
      NoDupTail(p.free);
    } else {
      NoDupTail(p.idle);
    }
  }

  lemma CutIdle(pages: seq<Page>, idle: seq<nat>, id: nat, page: Page)
    requires IdleOk(pages, idle) && id < |pages| && !IsIdle(page)
    ensures IdleOk(pages[id := page], Without(idle, id))
  {
    WithoutNoDup(idle, id);
    var rest := Without(idle, id);
    assert forall k :: 0 <= k < |rest| ==> rest[k] in idle;
  }

  lemma PushIdle(pages: seq<Page>, idle: seq<nat>, id: nat, page: Page)
    requires IdleOk(pages, idle) && id < |pages| && !IsIdle(pages[id]) && IsIdle(page)
    ensures IdleOk(pages[id := page], idle + [id])
  {
  }

  lemma PushFree(pages: seq<Page>, free: seq<nat>, id: nat, page: Page)
    requires FreeOk(pages, free) && id < |pages| && !pages[id].free && page.free
    ensures FreeOk(pages[id := page], [id] + free)
  {
    var longer := [id] + free;
    assert forall k :: 0 < k < |longer| ==> longer[k] == free[k - 1];
    assert forall x :: x in longer <==> x == id || x in free;
  }

  lemma RetainKeepsInv(p: Pool, h: Handle)
    requires Inv(p) && Retain(p, h).Ok?
    ensures Inv(Retain(p, h).value)
  {
    var q := Retain(p, h).value;
    CutIdle(p.pages, p.idle, h.id, q.pages[h.id]);
  }

  lemma ReleaseKeepsInv(p: Pool, h: Handle)
    requires Inv(p) && Release(p, h).Ok?
    ensures Inv(Release(p, h).value)
  {
    var q := Release(p, h).value;
    if q.pages[h.id].free {
      PushFree(p.pages, p.free, h.id, q.pages[h.id]);
    } else if q.pages[h.id].refs == 0 {
      PushIdle(p.pages, p.idle, h.id, q.pages[h.id]);
    }
  }

  lemma PublishKeepsInv(p: Pool, h: Handle, prefix: Tokens)
    requires Inv(p) && Publish(p, h, prefix).Ok?
    ensures Inv(Publish(p, h, prefix).value)
  {
    assert forall id: nat ::
             id < |p.pages| && p.pages[id].cached && p.pages[id].prefix == prefix ==> Caches(p, id, prefix);
  }

  // ---------------------------------------------------------------- what the operations promise

  /** Allocation fails for want of space exactly when somebody references every page. It hands out
      a page nobody references, under a handle that no earlier holder of that page can have. */
  lemma AllocateOutcome(p: Pool)
    requires Inv(p)
    ensures Allocate(p) == Err(CapacityError) <==> forall i :: 0 <= i < |p.pages| ==> p.pages[i].refs > 0
    ensures Allocate(p) == Err(CapacityError) <==> |p.free| + |p.idle| == 0
    ensures Allocate(p).Ok? ==>
              var (h, q) := Allocate(p).value;
              && h.id < |p.pages| == |q.pages|
              && p.pages[h.id].refs == 0 && p.pages[h.id].generation < h.generation
              && Held(q, h) && q.pages[h.id] == Page(h.generation, 1, false, false, [])
              && (forall i :: 0 <= i < |p.pages| && i != h.id ==> q.pages[i] == p.pages[i])
              && (p.free != [] ==> p.pages[h.id].free && q.idle == p.idle)
  {
    if p.free == [] && p.idle == [] {
      forall i | 0 <= i < |p.pages| ensures p.pages[i].refs > 0 {
        assert i !in p.free && i !in p.idle;
      }
    } else {
      var id := if p.free != [] then p.free[0] else p.idle[0];
      assert id in p.free || id in p.idle;
      assert p.pages[id].refs == 0;
    }
  }

  ghost function FreeSet(pages: seq<Page>): set<nat> {
    set i: nat | i < |pages| && pages[i].free
  }

  ghost function IdleSet(pages: seq<Page>): set<nat> {
    set i: nat | i < |pages| && IsIdle(pages[i])
  }

  ghost function ActiveSet(pages: seq<Page>): set<nat> {
    set i: nat | i < |pages| && pages[i].refs > 0
  }

  ghost function Below(n: nat): (s: set<nat>)
    ensures |s| == n && forall i: nat :: i in s <==> i < n
  {
    if n == 0 then {} else Below(n - 1) + {n - 1}
  }

  lemma {:induction false} ListedSize(ids: seq<nat>, s: set<nat>)
    requires NoDup(ids) && forall x :: x in ids <==> x in s
    ensures |ids| == |s|
  {
    if ids == [] {
      assert s == {};
    } else {
      NoDupTail(ids);
      assert ids[0] in s;
      ListedSize(ids[1..], s - {ids[0]});
    }
  }

  lemma CountsSnoc(pages: seq<Page>, page: Page)
    ensures |FreeSet(pages + [page])| == |FreeSet(pages)| + if page.free then 1 else 0
    ensures |IdleSet(pages + [page])| == |IdleSet(pages)| + if IsIdle(page) then 1 else 0
  {
    var n := |pages|;
    assert FreeSet(pages + [page]) == if page.free then FreeSet(pages) + {n} else FreeSet(pages);
    assert IdleSet(pages + [page]) == if IsIdle(page) then IdleSet(pages) + {n} else IdleSet(pages);
  }

  lemma ListsAreSets(p: Pool)
    requires Inv(p)
    ensures |p.free| == |FreeSet(p.pages)| && |p.idle| == |IdleSet(p.pages)|
  {
    ListedSize(p.free, FreeSet(p.pages));
    ListedSize(p.idle, IdleSet(p.pages));
  }

  /** The free stack, the idle queue and the referenced pages partition the capacity. */
  lemma Partition(p: Pool)
    requires Inv(p)
    ensures forall i :: 0 <= i < |p.pages| ==>
              (i in p.free && i !in p.idle && p.pages[i].refs == 0)
              || (i !in p.free && i in p.idle && p.pages[i].refs == 0)
              || (i !in p.free && i !in p.idle && p.pages[i].refs > 0)
    ensures |p.free| + |p.idle| + |ActiveSet(p.pages)| == |p.pages|
  {
    ListsAreSets(p);
    ActiveOnly(p.pages, p.blockSize);
  }

  lemma ActiveOnly(pages: seq<Page>, blockSize: nat)
    requires blockSize > 0 && PagesOk(blockSize, pages)
    ensures |FreeSet(pages)| + |IdleSet(pages)| + |ActiveSet(pages)| == |pages|
  {
    var f, i, a := FreeSet(pages), IdleSet(pages), ActiveSet(pages);
    assert f !! i && f + i !! a;
    assert f + i + a == Below(|pages|);
  }

  // ---------------------------------------------------------------- whole runs

  datatype Op =
    | AllocateOp
    | RetainOp(h: Handle)
    | ReleaseOp(h: Handle)
    | PublishOp(h: Handle, prefix: Tokens)

  /** A pool together with the time at which each page last lost its final reference. */
  datatype Timed = Timed(pool: Pool, clock: nat, idleSince: map<nat, nat>)

  ghost function Start(capacity: nat, blockSize: nat): Timed {
    Timed(Empty(capacity, blockSize), 0, map[])
  }

  function Empty(capacity: nat, blockSize: nat): Pool {
    Pool(blockSize, seq(capacity, _ => Page(0, 0, true, false, [])), seq(capacity, i => i), [])
  }

  ghost function Apply(p: Pool, op: Op): Pool
    requires Inv(p)
  {
    match op
    case AllocateOp => if Allocate(p).Ok? then Allocate(p).value.1 else p
    case RetainOp(h) => if Retain(p, h).Ok? then Retain(p, h).value else p
    case ReleaseOp(h) => if Release(p, h).Ok? then Release(p, h).value else p
    case PublishOp(h, prefix) => if Publish(p, h, prefix).Ok? then Publish(p, h, prefix).value else p
  }

  ghost function Tick(t: Timed, op: Op): Timed
    requires Inv(t.pool)
  {
    var last := op.ReleaseOp? && Held(t.pool, op.h) && t.pool.pages[op.h.id].refs == 1;
    Timed(Apply(t.pool, op), t.clock + 1,
          if last then t.idleSince[op.h.id := t.clock] else t.idleSince)
  }

  /** The queue is in order of last release. */
  ghost predicate Ordered(idle: seq<nat>, idleSince: map<nat, nat>, clock: nat) {
    && (forall k :: 0 <= k < |idle| ==> idle[k] in idleSince && idleSince[idle[k]] < clock)
    && (forall j, k :: 0 <= j < k < |idle| ==> idleSince[idle[j]] < idleSince[idle[k]])
  }

  ghost predicate TimedInv(t: Timed) {
    Inv(t.pool) && Ordered(t.pool.idle, t.idleSince, t.clock)
  }

  ghost function Run(t: Timed, ops: seq<Op>): Timed
    requires TimedInv(t)
    ensures TimedInv(Run(t, ops))
    decreases |ops|
  {
    if ops == [] then t
    else
      TickKeepsInv(t, ops[0]);
      Run(Tick(t, ops[0]), ops[1..])
  }

  lemma ApplyKeepsInv(p: Pool, op: Op)
    requires Inv(p)
    ensures Inv(Apply(p, op))
  {
    match op
    case AllocateOp => if Allocate(p).Ok? { AllocateKeepsInv(p); }
    case RetainOp(h) => if Retain(p, h).Ok? { RetainKeepsInv(p, h); }
    case ReleaseOp(h) => if Release(p, h).Ok? { ReleaseKeepsInv(p, h); }
    case PublishOp(h, prefix) => if Publish(p, h, prefix).Ok? { PublishKeepsInv(p, h, prefix); }
  }

  lemma CutKeepsOrder(idle: seq<nat>, idleSince: map<nat, nat>, clock: nat, id: nat)
    requires NoDup(idle) && Ordered(idle, idleSince, clock)
    ensures Ordered(Without(idle, id), idleSince, clock)
  {
    if id in idle {
      var k :| 0 <= k < |idle| && idle[k] == id;
      WithoutCuts(idle, k);
    }
  }

  lemma PushKeepsOrder(idle: seq<nat>, idleSince: map<nat, nat>, clock: nat, id: nat)
    requires Ordered(idle, idleSince, clock) && id !in idle
    ensures Ordered(idle + [id], idleSince[id := clock], clock + 1)
  {
  }

  lemma TickKeepsInv(t: Timed, op: Op)
    requires TimedInv(t)
    ensures TimedInv(Tick(t, op))
  {
    ApplyKeepsInv(t.pool, op);
    var idle := t.pool.idle;
    match op
    case AllocateOp =>
    case RetainOp(h) => CutKeepsOrder(idle, t.idleSince, t.clock, h.id);
    case ReleaseOp(h) =>
      if Held(t.pool, h) {
        assert h.id !in idle;
        PushKeepsOrder(idle, t.idleSince, t.clock, h.id);
      }
    case PublishOp(h, prefix) =>
  }

  lemma StartOk(capacity: nat, blockSize: nat)
    requires blockSize > 0
    ensures TimedInv(Start(capacity, blockSize))
  {
    var p := Empty(capacity, blockSize);
    assert FreeOk(p.pages, p.free) by {
      forall i: nat | i < capacity ensures i in p.free {
        assert p.free[i] == i;
      }
    }
    assert PagesOk(blockSize, p.pages);
    assert IdleOk(p.pages, p.idle);
  }

  /** After any run, an allocation that must evict takes the page whose last reference was
      dropped longest ago, and never one that is still referenced. */
  lemma EvictsLeastRecentlyReleased(capacity: nat, blockSize: nat, ops: seq<Op>)
    requires blockSize > 0
    ensures TimedInv(Start(capacity, blockSize))
    ensures var t := Run(Start(capacity, blockSize), ops);
            Allocate(t.pool).Ok? && t.pool.free == [] ==>
              var victim := Allocate(t.pool).value.0.id;
              && t.pool.pages[victim].refs == 0
              && victim in t.idleSince
              && forall i :: 0 <= i < |t.pool.pages| && IsIdle(t.pool.pages[i]) && i != victim ==>
                   i in t.idleSince && t.idleSince[victim] < t.idleSince[i]
  {
    StartOk(capacity, blockSize);
    var t := Run(Start(capacity, blockSize), ops);
    AllocateOutcome(t.pool);
  }
}
