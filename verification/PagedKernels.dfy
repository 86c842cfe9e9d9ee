/** The scatter and gather kernels of the paged K/V cache, run by threads in any order
    (src/v2/paged_kv_write.cu, src/v2/paged_kv_read.cu). */
module PagedKernels {
  import opened Common
  import opened Arithmetic
  import opened KvLayouts

  // ---------------------------------------------------------------- grid-stride loops

  /** Each thread's next index; thread t starts at t and goes on in steps of the number of threads. */
  ghost predicate OnTrack(cursor: seq<nat>) {
    |cursor| > 0 && forall t: nat :: t < |cursor| ==> cursor[t] % |cursor| == t
  }

  predicate Done(cursor: seq<nat>, i: nat)
    requires |cursor| > 0
  {
    ModBelow(i, |cursor|);
    i < cursor[i % |cursor|]
  }

  lemma ModBelow(i: nat, n: nat)
    requires n > 0
    ensures 0 <= i % n < n
  {
  }

  function Start(threads: nat): (cursor: seq<nat>)
    requires threads > 0
    ensures |cursor| == threads
  {
    seq(threads, t => t)
  }

  lemma StartOnTrack(threads: nat)
    requires threads > 0
    ensures OnTrack(Start(threads)) && forall i: nat :: !Done(Start(threads), i)
  {
    forall t: nat | t < threads ensures t % threads == t { DivModUnique(t, threads, 0, t); }
    forall i: nat ensures !Done(Start(threads), i) {
      ModBelow(i, threads);
      DigitsOf(i, threads);
      MulOrder(0, i / threads, threads);
    }
  }

  lemma SameResidue(i: nat, j: nat, n: nat)
    requires n > 0 && i % n == j % n
    ensures i < j + n <==> i <= j
    ensures (j + n) % n == j % n
  {
    DigitsOf(i, n);
    DigitsOf(j, n);
    if i < j + n {
      MulOrder(i / n, j / n, n);
      MulOrder(j / n + 1, i / n, n);
    }
    DivModUnique(j + n, n, j / n + 1, j % n);
  }

  /** A thread's step handles one index that nobody has handled, and that one only. */
  lemma StepDoes(cursor: seq<nat>, t: nat)
    requires OnTrack(cursor) && t < |cursor|
    ensures var next := cursor[t := cursor[t] + |cursor|];
            && OnTrack(next) && !Done(cursor, cursor[t])
            && forall i: nat :: Done(next, i) <==> Done(cursor, i) || i == cursor[t]
  {
    var n := |cursor|;
    var next := cursor[t := cursor[t] + n];
    SameResidue(cursor[t], cursor[t], n);
    forall i: nat ensures Done(next, i) <==> Done(cursor, i) || i == cursor[t] {
      ModBelow(i, n);
      if i % n == t { SameResidue(i, cursor[t], n); }
    }
  }

  predicate Finished(cursor: seq<nat>, total: nat) {
    forall t :: 0 <= t < |cursor| ==> cursor[t] >= total
  }

  lemma FinishedIsAll(cursor: seq<nat>, total: nat)
    requires |cursor| > 0 && Finished(cursor, total)
    ensures forall i: nat :: i < total ==> Done(cursor, i)
  {
    forall i: nat | i < total ensures Done(cursor, i) { ModBelow(i, |cursor|); }
  }

  ghost function Undone(cursor: seq<nat>, total: nat): set<nat>
    requires |cursor| > 0
  {
    set i: nat | i < total && !Done(cursor, i)
  }

  lemma StepShrinks(cursor: seq<nat>, t: nat, total: nat)
    requires OnTrack(cursor) && t < |cursor| && cursor[t] < total
    ensures Undone(cursor[t := cursor[t] + |cursor|], total) < Undone(cursor, total)
  {
    StepDoes(cursor, t);
    assert cursor[t] in Undone(cursor, total);
  }

  // ---------------------------------------------------------------- where an element goes

  /** A tensor of `rows` tokens and a cache of `blocks` blocks, with the same heads. */
  datatype Shape = Shape(rows: nat, blocks: nat, heads: nat, blockSize: nat, headSize: nat)
  {
    predicate Valid() { heads > 0 && blockSize > 0 && headSize > 0 }

    function Total(): nat { rows * heads * headSize }

    function CacheTotal(): nat { blocks * heads * blockSize * headSize }
  }

  function Row(s: Shape, i: nat): nat
    requires s.Valid()
  {
    RowIsNat(i, s.heads, s.headSize);
    i / (s.heads * s.headSize)
  }

  lemma RowIsNat(i: nat, heads: nat, headSize: nat)
    requires heads > 0 && headSize > 0
    ensures heads * headSize > 0 && 0 <= i / (heads * headSize) && 0 <= i / headSize
            && 0 <= (i / headSize) % heads < heads && 0 <= i % headSize < headSize
  {
    MulOrder(1, heads, headSize);
    DigitsOf(i, heads * headSize);
    DigitsOf(i, headSize);
    DigitsOf(i / headSize, heads);
  }

  /** The cache element of flat index `i` when its row sits at offset `token` of `block`. */
  function Place(s: Shape, i: nat, block: nat, token: nat): nat
    requires s.Valid()
  {
    RowIsNat(i, s.heads, s.headSize);
    CacheIndex(block, (i / s.headSize) % s.heads, token, i % s.headSize, s.heads, s.blockSize, s.headSize)
  }

  function WritePlace(s: Shape, slots: seq<nat>, i: nat): nat
    requires s.Valid() && Row(s, i) < |slots|
  {
    var slot := slots[Row(s, i)];
    DigitsOf(slot, s.blockSize);
    Place(s, i, slot / s.blockSize, slot % s.blockSize)
  }

  function ReadPlace(s: Shape, blocks: seq<nat>, i: nat): nat
    requires s.Valid()
    requires (DigitsOf(Row(s, i), s.blockSize); Row(s, i) / s.blockSize < |blocks|)
  {
    DigitsOf(Row(s, i), s.blockSize);
    Place(s, i, blocks[Row(s, i) / s.blockSize], Row(s, i) % s.blockSize)
  }

  lemma RowBelow(s: Shape, i: nat)
    requires s.Valid() && i < s.Total()
    ensures Row(s, i) < s.rows
  {
    FlatOf(i, s.rows, s.heads, s.headSize);
  }

  /** Elements at different rows, heads or dimensions go to different cells if their rows do. */
  lemma PlacesApart(s: Shape, i: nat, b1: nat, t1: nat, j: nat, b2: nat, t2: nat)
    requires s.Valid() && i < s.Total() && j < s.Total() && t1 < s.blockSize && t2 < s.blockSize
    requires Place(s, i, b1, t1) == Place(s, j, b2, t2)
    ensures b1 == b2 && t1 == t2 && (Row(s, i) == Row(s, j) ==> i == j)
  {
    RowIsNat(i, s.heads, s.headSize);
    RowIsNat(j, s.heads, s.headSize);
    CacheInjective(b1, (i / s.headSize) % s.heads, t1, i % s.headSize, b2, (j / s.headSize) % s.heads, t2,
                   j % s.headSize, s.heads, s.blockSize, s.headSize);
    FlatOf(i, s.rows, s.heads, s.headSize);
    FlatOf(j, s.rows, s.heads, s.headSize);
  }

  lemma PlaceBelow(s: Shape, i: nat, block: nat, token: nat)
    requires s.Valid() && block < s.blocks && token < s.blockSize
    ensures Place(s, i, block, token) < s.CacheTotal()
  {
    RowIsNat(i, s.heads, s.headSize);
    CacheBelow(block, (i / s.headSize) % s.heads, token, i % s.headSize, s.blocks, s.heads, s.blockSize, s.headSize);
  }

  /** What the host checks before it launches a write: slots exist and none is named twice. */
  ghost predicate SlotsOk(s: Shape, slots: seq<nat>) {
    s.Valid() && |slots| == s.rows && NoDup(slots) && forall k :: 0 <= k < |slots| ==> slots[k] < s.blocks * s.blockSize
  }

  lemma WritePlaceBelow(s: Shape, slots: seq<nat>, i: nat)
    requires SlotsOk(s, slots) && i < s.Total()
    ensures Row(s, i) < |slots| && WritePlace(s, slots, i) < s.CacheTotal()
  {
    RowBelow(s, i);
    var slot := slots[Row(s, i)];
    DigitsOf(slot, s.blockSize);
    QuotientBelow(slot, s.blockSize, s.blocks);
    PlaceBelow(s, i, slot / s.blockSize, slot % s.blockSize);
  }

  /** No two elements of the tensor go to the same cell. */
  lemma WritePlacesApart(s: Shape, slots: seq<nat>, i: nat, j: nat)
    requires SlotsOk(s, slots) && i < s.Total() && j < s.Total() && i != j
    ensures Row(s, i) < |slots| && Row(s, j) < |slots| && WritePlace(s, slots, i) != WritePlace(s, slots, j)
  {
    RowBelow(s, i);
    RowBelow(s, j);
    var a, b := slots[Row(s, i)], slots[Row(s, j)];
    DigitsOf(a, s.blockSize);
    DigitsOf(b, s.blockSize);
    if WritePlace(s, slots, i) == WritePlace(s, slots, j) {
      PlacesApart(s, i, a / s.blockSize, a % s.blockSize, j, b / s.blockSize, b % s.blockSize);
    }
  }

  // ---------------------------------------------------------------- the host's check

  /** Refuses the first slot that does not exist or has come before. */
  method CheckSlots(slots: seq<nat>, slotCount: nat) returns (r: Result<()>)
    ensures r.Ok? <==> NoDup(slots) && forall k :: 0 <= k < |slots| ==> slots[k] < slotCount
    ensures r.Err? ==> exists k :: 0 <= k < |slots| && NoDup(slots[..k])
                         && (forall j :: 0 <= j < k ==> slots[j] < slotCount)
                         && (if slots[k] >= slotCount then r.error == OutOfRange
                               else r.error == InvalidArgument && slots[k] in slots[..k])
  {
    var seen: set<nat> := {};
    for k := 0 to |slots|
      invariant forall j :: 0 <= j < k ==> slots[j] < slotCount
      invariant NoDup(slots[..k]) && forall x :: x in seen <==> x in slots[..k]
    {
      if slots[k] >= slotCount { return Err(OutOfRange); }
      if slots[k] in seen {
        assert slots[k] in slots[..k];
        return Err(InvalidArgument);
      }
      seen := seen + {slots[k]};
      TakeSnoc(slots, k);
    }
    assert slots[..|slots|] == slots;
    r := Ok(());
  }

  // ---------------------------------------------------------------- kernels

  /** Some handled element goes to cell `c`. */
  ghost predicate Hit(s: Shape, slots: seq<nat>, cursor: seq<nat>, c: nat)
    requires SlotsOk(s, slots) && |cursor| > 0
  {
    exists i: nat :: i < s.Total() && Done(cursor, i) && Row(s, i) < |slots| && WritePlace(s, slots, i) == c
  }

  /** Exactly the handled elements are in their cells; all other cells are as before. */
  ghost predicate Scattered<T(!new)>(s: Shape, slots: seq<nat>, cursor: seq<nat>, source: seq<T>, before: seq<T>,
                                     cache: seq<T>)
    requires SlotsOk(s, slots) && |cursor| > 0 && |source| == s.Total() && |before| == |cache| == s.CacheTotal()
  {
    && (forall i: nat {:trigger source[i]} :: i < s.Total() && Done(cursor, i) ==>
          (WritePlaceBelow(s, slots, i); cache[WritePlace(s, slots, i)] == source[i]))
    && (forall c: nat {:trigger cache[c]} :: c < |cache| && !Hit(s, slots, cursor, c) ==> cache[c] == before[c])
  }

  lemma HitsGrow(s: Shape, slots: seq<nat>, cursor: seq<nat>, next: seq<nat>)
    requires SlotsOk(s, slots) && |cursor| > 0 && |next| > 0 && forall i: nat :: Done(cursor, i) ==> Done(next, i)
    ensures forall c :: Hit(s, slots, cursor, c) ==> Hit(s, slots, next, c)
  {
    forall c | Hit(s, slots, cursor, c) ensures Hit(s, slots, next, c) {
      var i: nat :| i < s.Total() && Done(cursor, i) && Row(s, i) < |slots| && WritePlace(s, slots, i) == c;
      assert Done(next, i);
    }
  }

  lemma ScatterStep<T(!new)>(s: Shape, slots: seq<nat>, cursor: seq<nat>, t: nat, source: seq<T>, before: seq<T>,
                             cache: seq<T>)
    requires SlotsOk(s, slots) && OnTrack(cursor) && t < |cursor| && cursor[t] < s.Total()
    requires |source| == s.Total() && |before| == |cache| == s.CacheTotal()
    requires Scattered(s, slots, cursor, source, before, cache)
    ensures Row(s, cursor[t]) < |slots| && WritePlace(s, slots, cursor[t]) < |cache|
    ensures Scattered(s, slots, cursor[t := cursor[t] + |cursor|], source, before,
                      cache[WritePlace(s, slots, cursor[t]) := source[cursor[t]]])
  {
    var index := cursor[t];
    var next := cursor[t := index + |cursor|];
    WritePlaceBelow(s, slots, index);
    var place := WritePlace(s, slots, index);
    var after := cache[place := source[index]];
    StepDoes(cursor, t);
    HitsGrow(s, slots, cursor, next);
    forall i: nat | i < s.Total() && Done(next, i)
      ensures (WritePlaceBelow(s, slots, i); after[WritePlace(s, slots, i)] == source[i])
    {
      WritePlaceBelow(s, slots, i);
      if i != index { WritePlacesApart(s, slots, i, index); }
    }
    forall c: nat | c < |after| && !Hit(s, slots, next, c) ensures after[c] == before[c] {
      assert Done(next, index) && c != place;
      assert !Hit(s, slots, cursor, c);
      assert cache[c] == before[c];
    }
  }

  /** The order in which indices were handled: each handled one once. */
  ghost predicate Logged(order: seq<nat>, cursor: seq<nat>, total: nat)
    requires |cursor| > 0
  {
    NoDup(order) && forall i: nat :: i in order <==> i < total && Done(cursor, i)
  }

  /** Some element of the tensor goes to cell `c`. */
  ghost predicate Target(s: Shape, slots: seq<nat>, c: nat)
    requires SlotsOk(s, slots)
  {
    exists i: nat :: i < s.Total() && Row(s, i) < |slots| && WritePlace(s, slots, i) == c
  }

  /** Every element is in its cell, and a cell that is none of theirs is as before. */
  ghost predicate Written<T(!new)>(s: Shape, slots: seq<nat>, source: seq<T>, before: seq<T>, cache: seq<T>)
    requires SlotsOk(s, slots) && |source| == s.Total() && |before| == |cache| == s.CacheTotal()
  {
    && (forall i: nat {:trigger source[i]} :: i < s.Total() ==>
          (WritePlaceBelow(s, slots, i); cache[WritePlace(s, slots, i)] == source[i]))
    && (forall c: nat {:trigger cache[c]} :: c < |cache| && !Target(s, slots, c) ==> cache[c] == before[c])
  }

  lemma ScatteredIsWritten<T(!new)>(s: Shape, slots: seq<nat>, cursor: seq<nat>, source: seq<T>, before: seq<T>,
                                    cache: seq<T>)
    requires SlotsOk(s, slots) && |cursor| > 0 && |source| == s.Total() && |before| == |cache| == s.CacheTotal()
    requires Scattered(s, slots, cursor, source, before, cache) && forall i: nat :: i < s.Total() ==> Done(cursor, i)
    ensures Written(s, slots, source, before, cache)
  {
    forall c: nat | c < |cache| && !Target(s, slots, c) ensures cache[c] == before[c] {
      assert !Hit(s, slots, cursor, c);
    }
  }

  /** The write kernel. Whatever the scheduling, every element is copied exactly once, to its own cell, and
      nothing else in the caches changes. */
  method Write<T(!new)>(s: Shape, slots: seq<nat>, threads: nat, keyNew: seq<T>, valueNew: seq<T>,
                        keyCache: array<T>, valueCache: array<T>) returns (ghost order: seq<nat>)
    requires SlotsOk(s, slots) && threads > 0 && |keyNew| == |valueNew| == s.Total()
    requires keyCache.Length == valueCache.Length == s.CacheTotal() && keyCache != valueCache
    modifies keyCache, valueCache
    ensures Written(s, slots, keyNew, old(keyCache[..]), keyCache[..])
            && Written(s, slots, valueNew, old(valueCache[..]), valueCache[..])
    ensures NoDup(order) && forall i: nat :: i in order <==> i < s.Total()
  {
    var cursor: seq<nat> := Start(threads);
    StartOnTrack(threads);
    order := [];
    while exists t :: 0 <= t < |cursor| && cursor[t] < s.Total()
      invariant OnTrack(cursor) && Logged(order, cursor, s.Total())
      invariant Scattered(s, slots, cursor, keyNew, old(keyCache[..]), keyCache[..])
      invariant Scattered(s, slots, cursor, valueNew, old(valueCache[..]), valueCache[..])
      decreases Undone(cursor, s.Total())
    {
      var t: nat :| t < |cursor| && cursor[t] < s.Total();
      var index := cursor[t];
      ScatterStep(s, slots, cursor, t, keyNew, old(keyCache[..]), keyCache[..]);
      ScatterStep(s, slots, cursor, t, valueNew, old(valueCache[..]), valueCache[..]);
      StepDoes(cursor, t);
      StepShrinks(cursor, t, s.Total());
      ghost var keys, values := keyCache[..], valueCache[..];
      var place := WritePlace(s, slots, index);
      keyCache[place] := keyNew[index];
      valueCache[place] := valueNew[index];
      assert keyCache[..] == keys[place := keyNew[index]] && valueCache[..] == values[place := valueNew[index]];
      order := order + [index];
      cursor := cursor[t := index + |cursor|];
    }
    FinishedIsAll(cursor, s.Total());
    ScatteredIsWritten(s, slots, cursor, keyNew, old(keyCache[..]), keyCache[..]);
    ScatteredIsWritten(s, slots, cursor, valueNew, old(valueCache[..]), valueCache[..]);
  }

  /** A block table that covers every row of the tensor with blocks that exist. */
  ghost predicate TableOk(s: Shape, blocks: seq<nat>) {
    && s.Valid() && (forall k :: 0 <= k < |blocks| ==> blocks[k] < s.blocks)
    && (s.rows > 0 ==> (s.rows - 1) / s.blockSize < |blocks|)
  }

  lemma ReadPlaceBelow(s: Shape, blocks: seq<nat>, i: nat)
    requires TableOk(s, blocks) && i < s.Total()
    ensures 0 <= Row(s, i) / s.blockSize < |blocks| && ReadPlace(s, blocks, i) < s.CacheTotal()
  {
    RowBelow(s, i);
    DigitsOf(Row(s, i), s.blockSize);
    DivMonotone(Row(s, i), s.rows - 1, s.blockSize);
    PlaceBelow(s, i, blocks[Row(s, i) / s.blockSize], Row(s, i) % s.blockSize);
  }

  /** The handled elements are what the block table leads to. */
  ghost predicate Gathered<T>(s: Shape, blocks: seq<nat>, cursor: seq<nat>, cache: seq<T>, out: seq<T>)
    requires TableOk(s, blocks) && |cursor| > 0 && |cache| == s.CacheTotal() && |out| == s.Total()
  {
    forall i: nat {:trigger out[i]} ::
      i < s.Total() && Done(cursor, i) ==> (ReadPlaceBelow(s, blocks, i); out[i] == cache[ReadPlace(s, blocks, i)])
  }

  lemma GatherStep<T>(s: Shape, blocks: seq<nat>, cursor: seq<nat>, t: nat, cache: seq<T>, out: seq<T>)
    requires TableOk(s, blocks) && OnTrack(cursor) && t < |cursor| && cursor[t] < s.Total()
    requires |cache| == s.CacheTotal() && |out| == s.Total() && Gathered(s, blocks, cursor, cache, out)
    ensures 0 <= Row(s, cursor[t]) / s.blockSize < |blocks| && ReadPlace(s, blocks, cursor[t]) < |cache|
    ensures Gathered(s, blocks, cursor[t := cursor[t] + |cursor|], cache,
                     out[cursor[t] := cache[ReadPlace(s, blocks, cursor[t])]])
  {
    ReadPlaceBelow(s, blocks, cursor[t]);
    StepDoes(cursor, t);
  }

  /** Every element of the output is what the block table leads to. */
  ghost predicate Collected<T>(s: Shape, blocks: seq<nat>, cache: seq<T>, out: seq<T>)
    requires TableOk(s, blocks) && |cache| == s.CacheTotal() && |out| == s.Total()
  {
    forall i: nat {:trigger out[i]} ::
      i < s.Total() ==> (ReadPlaceBelow(s, blocks, i); out[i] == cache[ReadPlace(s, blocks, i)])
  }

  lemma GatheredIsCollected<T>(s: Shape, blocks: seq<nat>, cursor: seq<nat>, cache: seq<T>, out: seq<T>)
    requires TableOk(s, blocks) && |cursor| > 0 && |cache| == s.CacheTotal() && |out| == s.Total()
    requires Gathered(s, blocks, cursor, cache, out) && forall i: nat :: i < s.Total() ==> Done(cursor, i)
    ensures Collected(s, blocks, cache, out)
  {
  }

  /** The read kernel: afterwards the outputs hold the sequence's keys and values in token order. */
  method Read<T>(s: Shape, blocks: seq<nat>, threads: nat, keyCache: array<T>, valueCache: array<T>,
                 keyOut: array<T>, valueOut: array<T>)
    requires TableOk(s, blocks) && threads > 0
    requires keyCache.Length == valueCache.Length == s.CacheTotal() && keyOut.Length == valueOut.Length == s.Total()
    requires keyOut != valueOut && keyOut != keyCache && keyOut != valueCache && valueOut != keyCache
             && valueOut != valueCache
    modifies keyOut, valueOut
    ensures Collected(s, blocks, keyCache[..], keyOut[..]) && Collected(s, blocks, valueCache[..], valueOut[..])
  {
    var cursor: seq<nat> := Start(threads);
    StartOnTrack(threads);
    while exists t :: 0 <= t < |cursor| && cursor[t] < s.Total()
      invariant OnTrack(cursor)
      invariant Gathered(s, blocks, cursor, keyCache[..], keyOut[..])
                && Gathered(s, blocks, cursor, valueCache[..], valueOut[..])
      decreases Undone(cursor, s.Total())
    {
      var t: nat :| t < |cursor| && cursor[t] < s.Total();
      var index := cursor[t];
      GatherStep(s, blocks, cursor, t, keyCache[..], keyOut[..]);
      GatherStep(s, blocks, cursor, t, valueCache[..], valueOut[..]);
      StepShrinks(cursor, t, s.Total());
      StepDoes(cursor, t);
      ghost var keys, values := keyOut[..], valueOut[..];
      var place := ReadPlace(s, blocks, index);
      keyOut[index] := keyCache[place];
      valueOut[index] := valueCache[place];
      assert keyOut[..] == keys[index := keyCache[..][place]] && valueOut[..] == values[index := valueCache[..][place]];
      cursor := cursor[t := index + |cursor|];
    }
    FinishedIsAll(cursor, s.Total());
    GatheredIsCollected(s, blocks, cursor, keyCache[..], keyOut[..]);
    GatheredIsCollected(s, blocks, cursor, valueCache[..], valueOut[..]);
  }

  // ---------------------------------------------------------------- round trip

  /** The slots are those of the sequence's tokens, in order. */
  ghost predicate SlotsOf(s: Shape, slots: seq<nat>, blocks: seq<nat>)
    requires SlotsOk(s, slots) && TableOk(s, blocks)
  {
    forall t: nat {:trigger slots[t]} :: t < |slots| ==>
      (DigitsOf(t, s.blockSize); DivMonotone(t, s.rows - 1, s.blockSize);
       slots[t] == blocks[t / s.blockSize] * s.blockSize + t % s.blockSize)
  }

  lemma SamePlace(s: Shape, slots: seq<nat>, blocks: seq<nat>, i: nat)
    requires SlotsOk(s, slots) && TableOk(s, blocks) && SlotsOf(s, slots, blocks) && i < s.Total()
    ensures Row(s, i) < |slots| && 0 <= Row(s, i) / s.blockSize < |blocks|
            && WritePlace(s, slots, i) == ReadPlace(s, blocks, i)
  {
    RowBelow(s, i);
    ReadPlaceBelow(s, blocks, i);
    var t := Row(s, i);
    DigitsOf(t, s.blockSize);
    DivModUnique(slots[t], s.blockSize, blocks[t / s.blockSize], t % s.blockSize);
  }

  /** What is scattered through a sequence's slots and gathered through its block table comes back unchanged,
      in token order, under any scheduling of either kernel. */
  method WriteThenRead<T(!new)>(s: Shape, slots: seq<nat>, blocks: seq<nat>, threads: nat, keyNew: seq<T>,
                                valueNew: seq<T>, keyCache: array<T>, valueCache: array<T>, keyOut: array<T>,
                                valueOut: array<T>)
    requires SlotsOk(s, slots) && TableOk(s, blocks) && SlotsOf(s, slots, blocks) && threads > 0
    requires |keyNew| == |valueNew| == s.Total() && keyOut.Length == valueOut.Length == s.Total()
    requires keyCache.Length == valueCache.Length == s.CacheTotal() && keyCache != valueCache
    requires keyOut != valueOut && keyOut != keyCache && keyOut != valueCache && valueOut != keyCache
             && valueOut != valueCache
    modifies keyCache, valueCache, keyOut, valueOut
    ensures keyOut[..] == keyNew && valueOut[..] == valueNew
  {
    ghost var keys, values := keyCache[..], valueCache[..];
    ghost var order := Write(s, slots, threads, keyNew, valueNew, keyCache, valueCache);
    Read(s, blocks, threads, keyCache, valueCache, keyOut, valueOut);
    CollectsWhatWasWritten(s, slots, blocks, keyNew, keys, keyCache[..], keyOut[..]);
    CollectsWhatWasWritten(s, slots, blocks, valueNew, values, valueCache[..], valueOut[..]);
  }

  lemma CollectsWhatWasWritten<T(!new)>(s: Shape, slots: seq<nat>, blocks: seq<nat>, source: seq<T>, before: seq<T>,
                                        cache: seq<T>, out: seq<T>)
    requires SlotsOk(s, slots) && TableOk(s, blocks) && SlotsOf(s, slots, blocks)
    requires |source| == |out| == s.Total() && |before| == |cache| == s.CacheTotal()
    requires Written(s, slots, source, before, cache) && Collected(s, blocks, cache, out)
    ensures out == source
  {
    forall i: nat | i < s.Total() ensures out[i] == source[i] {
      SamePlace(s, slots, blocks, i);
    }
  }
}
