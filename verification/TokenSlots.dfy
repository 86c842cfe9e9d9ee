/** From sequences to physical slots and padded block tables (src/v2/slot_mapping.cpp,
    src/v2/batch_block_table.cpp). */
module TokenSlots {
  import opened Common
  import opened Arithmetic
  import opened KvLayouts
  import opened PagedKernels

  /** What these functions read of a sequence: its pool, block size, physical blocks and length. */
  datatype View = View(pool: nat, blockSize: nat, blocks: seq<nat>, numTokens: nat)
  {
    /** Exactly as many blocks as the tokens need. */
    ghost predicate Valid() {
      blockSize > 0 && |blocks| == CeilDiv(numTokens, blockSize)
    }
  }

  lemma TokenHasBlock(v: View, t: nat)
    requires v.Valid() && t < v.numTokens
    ensures 0 <= t / v.blockSize < |v.blocks| && 0 <= t % v.blockSize < v.blockSize
  {
    DigitsOf(t, v.blockSize);
    DigitsOf(v.numTokens, v.blockSize);
    DivMonotone(t, v.numTokens, v.blockSize);
  }

  // ---------------------------------------------------------------- slot mapping

  /** One token to be written; the sequence pointer may be null. */
  datatype TokenWrite = TokenWrite(sequence: Option<View>, position: nat)

  function SlotOf(v: View, t: nat): nat
    requires v.Valid() && t < v.numTokens
  {
    TokenHasBlock(v, t);
    v.blocks[t / v.blockSize] * v.blockSize + t % v.blockSize
  }

  ghost predicate ViewsOk(batch: seq<TokenWrite>) {
    forall k :: 0 <= k < |batch| && batch[k].sequence.Some? ==> batch[k].sequence.value.Valid()
  }

  /** What is wrong with one write of a batch whose first sequence is in `pool`. */
  function Refusal(pool: nat, w: TokenWrite): Option<Error>
    requires w.sequence.Some? ==> w.sequence.value.Valid()
  {
    if w.sequence.None? then Some(InvalidArgument)
    else if w.sequence.value.pool != pool then Some(InvalidArgument)
    else if w.position >= w.sequence.value.numTokens then Some(OutOfRange)
    else if SlotOf(w.sequence.value, w.position) > MAX64 then Some(OverflowError)
    else None
  }

  /** The guard of the source, written to avoid overflow itself, is the one intended. */
  lemma OverflowGuard(block: nat, offset: nat, blockSize: nat)
    requires blockSize > 0 && offset <= MAX64
    ensures block > (MAX64 - offset) / blockSize <==> block * blockSize + offset > MAX64
  {
    DigitsOf(MAX64 - offset, blockSize);
    MulOrder(block, (MAX64 - offset) / blockSize, blockSize);
    if block > (MAX64 - offset) / blockSize { MulOrder((MAX64 - offset) / blockSize + 1, block, blockSize); }
  }

  method BuildSlotMapping(batch: seq<TokenWrite>) returns (r: Result<seq<nat>>)
    requires ViewsOk(batch) && forall k ::
               0 <= k < |batch| && batch[k].sequence.Some? ==> batch[k].sequence.value.blockSize <= MAX64
    ensures batch == [] ==> r == Ok([])
    ensures r.Ok? && batch != [] ==> batch[0].sequence.Some? && |r.value| == |batch|
    ensures r.Ok? ==> forall k :: 0 <= k < |batch| ==>
              && Refusal(batch[0].sequence.value.pool, batch[k]).None?
              && r.value[k] == SlotOf(batch[k].sequence.value, batch[k].position)
    ensures r.Err? ==> batch != [] && (batch[0].sequence.None? ==> r.error == InvalidArgument)
    ensures r.Err? && batch[0].sequence.Some? ==>
              exists k :: 0 <= k < |batch| && Refusal(batch[0].sequence.value.pool, batch[k]) == Some(r.error)
                && forall j :: 0 <= j < k ==> Refusal(batch[0].sequence.value.pool, batch[j]).None?
  {
    var slots: seq<nat> := [];
    if batch == [] { return Ok(slots); }
    if batch[0].sequence.None? { return Err(InvalidArgument); }
    var pool := batch[0].sequence.value.pool;
    for k := 0 to |batch|
      invariant |slots| == k
      invariant forall j :: 0 <= j < k ==>
                  Refusal(pool, batch[j]).None? && slots[j] == SlotOf(batch[j].sequence.value, batch[j].position)
    {
      var w := batch[k];
      if w.sequence.None? { return Err(InvalidArgument); }
      var v := w.sequence.value;
      if v.pool != pool { return Err(InvalidArgument); }
      if w.position >= v.numTokens { return Err(OutOfRange); }
      TokenHasBlock(v, w.position);
      var block, offset := v.blocks[w.position / v.blockSize], w.position % v.blockSize;
      OverflowGuard(block, offset, v.blockSize);
      if block > (MAX64 - offset) / v.blockSize { return Err(OverflowError); }
      slots := slots + [block * v.blockSize + offset];
    }
    r := Ok(slots);
  }

  /** A slot number gives back the token's block and offset. */
  lemma SlotNamesLocation(v: View, t: nat)
    requires v.Valid() && t < v.numTokens
    ensures 0 <= t / v.blockSize < |v.blocks|
    ensures SlotOf(v, t) / v.blockSize == v.blocks[t / v.blockSize] && SlotOf(v, t) % v.blockSize == t % v.blockSize
  {
    TokenHasBlock(v, t);
    DivModUnique(SlotOf(v, t), v.blockSize, v.blocks[t / v.blockSize], t % v.blockSize);
  }

  /** In a sequence that uses no block twice, different tokens have different slots. */
  lemma SlotsOfSequenceApart(v: View, t: nat, u: nat)
    requires v.Valid() && NoDup(v.blocks) && t < v.numTokens && u < v.numTokens && t != u
    ensures SlotOf(v, t) != SlotOf(v, u)
  {
    SlotNamesLocation(v, t);
    SlotNamesLocation(v, u);
    DigitsOf(t, v.blockSize);
    DigitsOf(u, v.blockSize);
  }

  /** The slots of all tokens of a sequence are what the write kernel demands and what the read kernel finds. */
  lemma WholeSequence(v: View, s: Shape, slots: seq<nat>)
    requires v.Valid() && NoDup(v.blocks) && s.Valid() && s.rows == v.numTokens == |slots| && s.blockSize == v.blockSize
    requires forall k :: 0 <= k < |v.blocks| ==> v.blocks[k] < s.blocks
    requires forall t :: 0 <= t < |slots| ==> slots[t] == SlotOf(v, t)
    ensures SlotsOk(s, slots) && TableOk(s, v.blocks) && SlotsOf(s, slots, v.blocks)
  {
    forall j, k | 0 <= j < k < |slots| ensures slots[j] != slots[k] { SlotsOfSequenceApart(v, j, k); }
    forall k | 0 <= k < |slots| ensures slots[k] < s.blocks * s.blockSize {
      TokenHasBlock(v, k);
      LessByDigits(v.blocks[k / v.blockSize], k % v.blockSize, s.blockSize, s.blocks);
    }
    if s.rows > 0 { TokenHasBlock(v, s.rows - 1); }
  }

  /** Every token of a sequence, as one batch of writes. */
  function AllTokens(v: View): (batch: seq<TokenWrite>)
    ensures |batch| == v.numTokens && forall t :: 0 <= t < |batch| ==> batch[t] == TokenWrite(Some(v), t)
  {
    seq(v.numTokens, t requires 0 <= t < v.numTokens => TokenWrite(Some(v), t))
  }

  /** Mapping a sequence's tokens to slots, scattering their rows, and gathering them through its block table gives the
      rows back, under any scheduling of the kernels; only a slot number beyond 64 bits is refused, and then nothing is
      written. */
  method StoreAndFetch<T(!new)>(v: View, s: Shape, threads: nat, keyNew: seq<T>, valueNew: seq<T>, keyCache: array<T>,
                                valueCache: array<T>, keyOut: array<T>, valueOut: array<T>)
    returns (r: Result<()>)
    requires v.Valid() && NoDup(v.blocks) && s.Valid() && s.rows == v.numTokens && s.blockSize == v.blockSize <= MAX64
    requires forall k :: 0 <= k < |v.blocks| ==> v.blocks[k] < s.blocks
    requires threads > 0 && |keyNew| == |valueNew| == s.Total() && keyOut.Length == valueOut.Length == s.Total()
    requires keyCache.Length == valueCache.Length == s.CacheTotal() && keyCache != valueCache
    requires keyOut != valueOut && keyOut != keyCache && keyOut != valueCache
    requires valueOut != keyCache && valueOut != valueCache
    modifies keyCache, valueCache, keyOut, valueOut
    ensures r.Ok? ==> keyOut[..] == keyNew && valueOut[..] == valueNew
    ensures r.Err? ==> keyCache[..] == old(keyCache[..]) && valueCache[..] == old(valueCache[..])
    ensures r.Err? ==> r.error == OverflowError && exists t: nat :: t < v.numTokens && SlotOf(v, t) > MAX64
  {
    var batch := AllTokens(v);
    var slots := BuildSlotMapping(batch);
    if slots.Err? {
      ghost var k :| 0 <= k < |batch| && Refusal(v.pool, batch[k]) == Some(slots.error);
      return Err(slots.error);
    }
    WholeSequence(v, s, slots.value);
    WriteThenRead(s, slots.value, v.blocks, threads, keyNew, valueNew, keyCache, valueCache, keyOut, valueOut);
    r := Ok(());
  }

  // ---------------------------------------------------------------- padded tables

  /** Row-major, one row a sequence, padded with NONE to the widest. */
  datatype BatchTable = BatchTable(lengths: seq<nat>, maxBlocks: nat, table: seq<int>)

  function At(r: nat, l: nat, width: nat): nat {
    r * width + l
  }

  /** Row `r` holds the blocks of sequence `r`, then padding. */
  ghost predicate RowIs(t: BatchTable, r: nat, blocks: seq<nat>) {
    && |blocks| <= t.maxBlocks
    && (forall l: nat {:trigger At(r, l, t.maxBlocks)} :: l < t.maxBlocks ==>
          At(r, l, t.maxBlocks) < |t.table|
          && t.table[At(r, l, t.maxBlocks)] == if l < |blocks| then blocks[l] else NONE)
  }

  ghost predicate TableIs(t: BatchTable, sequences: seq<View>) {
    && |t.lengths| == |sequences| && |t.table| == |sequences| * t.maxBlocks
    && (forall r: nat :: r < |sequences| ==> t.lengths[r] == sequences[r].numTokens && RowIs(t, r, sequences[r].blocks))
    && (t.maxBlocks > 0 ==> exists r: nat :: r < |sequences| && |sequences[r].blocks| == t.maxBlocks)
  }

  method Widest(sequences: seq<Option<View>>) returns (r: Result<(seq<nat>, nat)>)
    requires sequences != [] && sequences[0].Some?
    ensures r.Ok? <==> forall k ::
              0 <= k < |sequences| ==> sequences[k].Some? && sequences[k].value.pool == sequences[0].value.pool
    ensures r.Err? ==> r.error == InvalidArgument
    ensures r.Ok? ==> && |r.value.0| == |sequences|
                      && (forall k :: 0 <= k < |sequences| ==>
                            r.value.0[k] == sequences[k].value.numTokens && |sequences[k].value.blocks| <= r.value.1)
                      && (r.value.1 > 0 ==> exists k: nat ::
                            k < |sequences| && |sequences[k].value.blocks| == r.value.1)
  {
    var lengths: seq<nat>, widest: nat := [], 0;
    for k := 0 to |sequences|
      invariant |lengths| == k && forall j ::
                  0 <= j < k ==> sequences[j].Some? && sequences[j].value.pool == sequences[0].value.pool
      invariant forall j ::
                  0 <= j < k ==> lengths[j] == sequences[j].value.numTokens && |sequences[j].value.blocks| <= widest
      invariant widest > 0 ==> exists j: nat :: j < k && |sequences[j].value.blocks| == widest
    {
      if sequences[k].None? { return Err(InvalidArgument); }
      if sequences[k].value.pool != sequences[0].value.pool { return Err(InvalidArgument); }
      lengths := lengths + [sequences[k].value.numTokens];
      if |sequences[k].value.blocks| > widest { widest := |sequences[k].value.blocks|; }
    }
    r := Ok((lengths, widest));
  }

  /** What cell (r, l) holds once the rows before `row`, and `column` cells of that row, are filled. */
  function CellValue(sequences: seq<Option<View>>, row: nat, column: nat, r: nat, l: nat): int
    requires r < |sequences| && sequences[r].Some?
  {
    if l < |sequences[r].value.blocks| && (r < row || (r == row && l < column))
    then sequences[r].value.blocks[l]
    else NONE
  }

  ghost predicate AllFit(sequences: seq<Option<View>>, width: nat) {
    forall k :: 0 <= k < |sequences| ==> sequences[k].Some? && |sequences[k].value.blocks| <= width
  }

  /** Rows are filled one after the other; nothing is written outside a sequence's own row. */
  ghost predicate Filled(table: seq<int>, width: nat, sequences: seq<Option<View>>, row: nat, column: nat)
    requires AllFit(sequences, width)
  {
    forall r: nat, l: nat {:trigger At(r, l, width)} :: r < |sequences| && l < width ==>
      At(r, l, width) < |table| && table[At(r, l, width)] == CellValue(sequences, row, column, r, l)
  }

  lemma CellUnique(r: nat, l: nat, q: nat, k: nat, width: nat)
    requires l < width && k < width && At(r, l, width) == At(q, k, width)
    ensures r == q && l == k
  {
    DivModUnique(r * width + l, width, r, l);
    DivModUnique(q * width + k, width, q, k);
  }

  lemma FillStep(table: seq<int>, width: nat, sequences: seq<Option<View>>, row: nat, column: nat)
    requires AllFit(sequences, width) && row < |sequences| && column < |sequences[row].value.blocks|
    requires Filled(table, width, sequences, row, column)
    ensures At(row, column, width) < |table|
    ensures Filled(table[At(row, column, width) := sequences[row].value.blocks[column]], width, sequences, row,
                   column + 1)
  {
    forall r: nat, l: nat | r < |sequences| && l < width && At(r, l, width) == At(row, column, width)
      ensures r == row && l == column
    {
      CellUnique(r, l, row, column, width);
    }
  }

  lemma RowDone(table: seq<int>, width: nat, sequences: seq<Option<View>>, row: nat)
    requires AllFit(sequences, width) && row < |sequences|
    requires Filled(table, width, sequences, row, |sequences[row].value.blocks|)
    ensures Filled(table, width, sequences, row + 1, 0)
  {
  }

  lemma EmptyIsFilled(table: seq<int>, width: nat, sequences: seq<Option<View>>)
    requires AllFit(sequences, width) && |table| == |sequences| * width && forall i ::
               0 <= i < |table| ==> table[i] == NONE
    ensures Filled(table, width, sequences, 0, 0)
  {
    forall r: nat, l: nat | r < |sequences| && l < width ensures At(r, l, width) < |table| {
      LessByDigits(r, l, width, |sequences|);
    }
  }

  function Views(sequences: seq<Option<View>>): (v: seq<View>)
    requires forall k :: 0 <= k < |sequences| ==> sequences[k].Some?
    ensures |v| == |sequences| && forall k :: 0 <= k < |v| ==> v[k] == sequences[k].value
  {
    seq(|sequences|, k requires 0 <= k < |sequences| => sequences[k].value)
  }

  lemma FilledIsTable(t: BatchTable, sequences: seq<Option<View>>)
    requires |t.table| == |sequences| * t.maxBlocks && |t.lengths| == |sequences| && AllFit(sequences, t.maxBlocks)
    requires forall k :: 0 <= k < |sequences| ==> t.lengths[k] == sequences[k].value.numTokens
    requires t.maxBlocks > 0 ==> exists k: nat :: k < |sequences| && |sequences[k].value.blocks| == t.maxBlocks
    requires Filled(t.table, t.maxBlocks, sequences, |sequences|, 0)
    ensures TableIs(t, Views(sequences))
  {
    var views := Views(sequences);
    forall r: nat | r < |views| ensures RowIs(t, r, views[r].blocks) {
    }
    if t.maxBlocks > 0 {
      var k: nat :| k < |sequences| && |sequences[k].value.blocks| == t.maxBlocks;
      assert |views[k].blocks| == t.maxBlocks;
    }
  }

  /** With rows as long as its longest table, the batch's table has more than 64 bits' worth of cells. */
  ghost predicate TooWide(sequences: seq<Option<View>>) {
    exists k: nat :: k < |sequences| && sequences[k].Some? && |sequences| * |sequences[k].value.blocks| > MAX64
  }

  /** The guard of the source, written to avoid overflow itself, is the one intended. */
  lemma WidthGuard(sequences: seq<Option<View>>, width: nat)
    requires sequences != [] && forall k ::
               0 <= k < |sequences| ==> sequences[k].Some? && |sequences[k].value.blocks| <= width
    requires width > 0 ==> exists k: nat :: k < |sequences| && |sequences[k].value.blocks| == width
    ensures width > MAX64 / |sequences| <==> TooWide(sequences)
  {
    var n := |sequences|;
    OverflowGuard(width, 0, n);
    if TooWide(sequences) {
      var k: nat :| k < n && n * |sequences[k].value.blocks| > MAX64;
      MulOrder(|sequences[k].value.blocks|, width, n);
    }
    if width * n > MAX64 {
      var k: nat :| k < n && |sequences[k].value.blocks| == width;
      assert n * |sequences[k].value.blocks| > MAX64;
    }
  }

  /** One snapshot of the batch, in the order of its sequences, each row exactly its sequence's blocks. */
  method BuildBatchTable(sequences: seq<Option<View>>) returns (r: Result<BatchTable>)
    ensures sequences == [] ==> r == Ok(BatchTable([], 0, []))
    ensures r.Ok? ==> (forall k :: 0 <= k < |sequences| ==>
                         sequences[0].Some? && sequences[k].Some? && sequences[k].value.pool == sequences[0].value.pool)
                      && TableIs(r.value, Views(sequences))
    ensures r == Err(InvalidArgument) <==>
              sequences != []
              && (exists k :: 0 <= k < |sequences| && (sequences[k].None? || sequences[0].None?
                                                       || sequences[k].value.pool != sequences[0].value.pool))
    ensures r.Err? ==> r.error in {InvalidArgument, OverflowError}
    ensures r == Err(OverflowError) ==> TooWide(sequences)
    ensures r.Ok? ==> !TooWide(sequences)
  {
    if sequences == [] { return Ok(BatchTable([], 0, [])); }
    if sequences[0].None? { return Err(InvalidArgument); }
    var widest := Widest(sequences);
    if widest.Err? { return Err(InvalidArgument); }
    var lengths, width := widest.value.0, widest.value.1;
    WidthGuard(sequences, width);
    if width > MAX64 / |sequences| { return Err(OverflowError); }
    var table := seq(|sequences| * width, _ => NONE);
    EmptyIsFilled(table, width, sequences);
    for row := 0 to |sequences|
      invariant |table| == |sequences| * width && Filled(table, width, sequences, row, 0)
    {
      for column := 0 to |sequences[row].value.blocks|
        invariant |table| == |sequences| * width && Filled(table, width, sequences, row, column)
      {
        FillStep(table, width, sequences, row, column);
        table := table[row * width + column := sequences[row].value.blocks[column]];
      }
      RowDone(table, width, sequences, row);
    }
    r := Ok(BatchTable(lengths, width, table));
    FilledIsTable(r.value, sequences);
  }

  function PhysicalId(t: BatchTable, request: nat, logical: nat): Result<nat> {
    if request >= |t.lengths| || logical >= t.maxBlocks || At(request, logical, t.maxBlocks) >= |t.table|
      then Err(OutOfRange)
    else if t.table[At(request, logical, t.maxBlocks)] < 0 then Err(OutOfRange)
    else Ok(t.table[At(request, logical, t.maxBlocks)])
  }

  /** A lookup answers exactly for a sequence's own blocks, and refuses padding. */
  lemma LookupIsTable(t: BatchTable, sequences: seq<View>, request: nat, logical: nat)
    requires TableIs(t, sequences)
    ensures PhysicalId(t, request, logical)
         == if request < |sequences| && logical < |sequences[request].blocks|
              then Ok(sequences[request].blocks[logical]) else Err(OutOfRange)
  {
    if request < |sequences| {
      assert RowIs(t, request, sequences[request].blocks);
    }
  }

  function LogicalBlock(v: View, token: nat): (k: nat)
    requires v.Valid() && token < v.numTokens
    ensures k < |v.blocks| && k == token / v.blockSize
  {
    TokenHasBlock(v, token);
    token / v.blockSize
  }

  /** A request's visible tokens never lead into padding. */
  lemma NoPaddingRead(t: BatchTable, sequences: seq<View>, request: nat, token: nat)
    requires TableIs(t, sequences) && request < |sequences| && sequences[request].Valid() && token < t.lengths[request]
    ensures PhysicalId(t, request, LogicalBlock(sequences[request], token))
         == Ok(sequences[request].blocks[LogicalBlock(sequences[request], token)])
  {
    LookupIsTable(t, sequences, request, LogicalBlock(sequences[request], token));
  }
}
