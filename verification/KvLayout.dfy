/** Where an element of the paged K/V cache lives (src/v2/paged_kv_layout.cpp), and which element of a packed
    tensor a flat index names. Both are mixed-radix numbers, so both are bijections onto their grids. */
module KvLayouts {
  import opened Common
  import opened Arithmetic

  datatype KvKind = Key | Value

  datatype Layout = Layout(numBlocks: nat, heads: nat, blockSize: nat, headSize: nat, elementBytes: nat,
                           pageBytes: nat, cacheBytes: nat, totalBytes: nat, slotCount: nat)

  // ---------------------------------------------------------------- mixed radix

  lemma DigitsOf(n: nat, d: nat)
    requires d > 0
    ensures n == (n / d) * d + n % d && 0 <= n / d && 0 <= n % d < d
  {
  }

  lemma LessByDigits(q: nat, r: nat, d: nat, bound: nat)
    requires q < bound && r < d
    ensures q * d + r < bound * d
  {
    MulOrder(q, bound, d);
  }

  lemma QuotientBelow(n: nat, d: nat, bound: nat)
    requires d > 0 && n < bound * d
    ensures n / d < bound
  {
    DigitsOf(n, d);
    MulOrder(bound, n / d, d);
  }

  // ---------------------------------------------------------------- packed tensors [row][head][dim]

  function Flat(row: nat, head: nat, dim: nat, heads: nat, headSize: nat): nat {
    (row * heads + head) * headSize + dim
  }

  /** The row, head and dimension that a flat index names are the only ones that name it. */
  lemma FlatParts(index: nat, row: nat, head: nat, dim: nat, heads: nat, headSize: nat)
    requires head < heads && dim < headSize && index == Flat(row, head, dim, heads, headSize)
    ensures heads * headSize > 0
    ensures index % headSize == dim && (index / headSize) % heads == head && index / (heads * headSize) == row
    ensures index - dim == (row * heads + head) * headSize
  {
    DivModUnique(index, headSize, row * heads + head, dim);
    DivModUnique(row * heads + head, heads, row, head);
    assert (row * heads + head) * headSize == row * (heads * headSize) + head * headSize;
    LessByDigits(head, dim, headSize, heads);
    DivModUnique(index, heads * headSize, row, head * headSize + dim);
  }

  lemma FlatOf(index: nat, rows: nat, heads: nat, headSize: nat)
    requires heads > 0 && headSize > 0 && index < rows * heads * headSize
    ensures heads * headSize > 0
    ensures var row := index / (heads * headSize); var head := (index / headSize) % heads; var dim := index % headSize;
            && 0 <= row < rows && head < heads && dim < headSize && index == Flat(row, head, dim, heads, headSize)
  {
    var dim := index % headSize;
    var q := index / headSize;
    DigitsOf(index, headSize);
    DigitsOf(q, heads);
    FlatParts(index, q / heads, q % heads, dim, heads, headSize);
    QuotientBelow(index, headSize, rows * heads);
    QuotientBelow(q, heads, rows);
  }

  lemma FlatBelow(row: nat, head: nat, dim: nat, rows: nat, heads: nat, headSize: nat)
    requires row < rows && head < heads && dim < headSize
    ensures Flat(row, head, dim, heads, headSize) < rows * heads * headSize
  {
    LessByDigits(row, head, heads, rows);
    LessByDigits(row * heads + head, dim, headSize, rows * heads);
  }

  // ---------------------------------------------------------------- the cache [block][head][token][dim]

  function CacheIndex(block: nat, head: nat, token: nat, dim: nat, heads: nat, blockSize: nat, headSize: nat): nat {
    ((block * heads + head) * blockSize + token) * headSize + dim
  }

  lemma CacheParts(block: nat, head: nat, token: nat, dim: nat, heads: nat, blockSize: nat, headSize: nat)
    requires head < heads && token < blockSize && dim < headSize
    ensures var c := CacheIndex(block, head, token, dim, heads, blockSize, headSize);
            && c % headSize == dim && (c / headSize) % blockSize == token
            && (c / headSize / blockSize) % heads == head && c / headSize / blockSize / heads == block
  {
    var c := CacheIndex(block, head, token, dim, heads, blockSize, headSize);
    DivModUnique(c, headSize, (block * heads + head) * blockSize + token, dim);
    DivModUnique((block * heads + head) * blockSize + token, blockSize, block * heads + head, token);
    DivModUnique(block * heads + head, heads, block, head);
  }

  lemma CacheInjective(b1: nat, h1: nat, t1: nat, d1: nat, b2: nat, h2: nat, t2: nat, d2: nat,
                       heads: nat, blockSize: nat, headSize: nat)
    requires h1 < heads && t1 < blockSize && d1 < headSize && h2 < heads && t2 < blockSize && d2 < headSize
    requires CacheIndex(b1, h1, t1, d1, heads, blockSize, headSize)
               == CacheIndex(b2, h2, t2, d2, heads, blockSize, headSize)
    ensures b1 == b2 && h1 == h2 && t1 == t2 && d1 == d2
  {
    CacheParts(b1, h1, t1, d1, heads, blockSize, headSize);
    CacheParts(b2, h2, t2, d2, heads, blockSize, headSize);
  }

  lemma CacheBelow(block: nat, head: nat, token: nat, dim: nat, blocks: nat, heads: nat, blockSize: nat, headSize: nat)
    requires block < blocks && head < heads && token < blockSize && dim < headSize
    ensures CacheIndex(block, head, token, dim, heads, blockSize, headSize) < blocks * heads * blockSize * headSize
  {
    LessByDigits(block, head, heads, blocks);
    LessByDigits(block * heads + head, token, blockSize, blocks * heads);
    LessByDigits((block * heads + head) * blockSize + token, dim, headSize, blocks * heads * blockSize);
  }

  /** Every element of the cache is some block's, head's, token's and dimension's. */
  lemma CacheOnto(c: nat, blocks: nat, heads: nat, blockSize: nat, headSize: nat)
    requires heads > 0 && blockSize > 0 && headSize > 0 && c < blocks * heads * blockSize * headSize
    ensures exists block: nat, head: nat, token: nat, dim: nat ::
              && block < blocks && head < heads && token < blockSize && dim < headSize
              && c == CacheIndex(block, head, token, dim, heads, blockSize, headSize)
  {
    var q := c / headSize;
    DigitsOf(c, headSize);
    QuotientBelow(c, headSize, blocks * heads * blockSize);
    DigitsOf(q, blockSize);
    var p := q / blockSize;
    QuotientBelow(q, blockSize, blocks * heads);
    DigitsOf(p, heads);
    QuotientBelow(p, heads, blocks);
    assert c == CacheIndex(p / heads, p % heads, q % blockSize, c % headSize, heads, blockSize, headSize);
  }

  // ---------------------------------------------------------------- the layout

  function Multiply(a: nat, b: nat): Result<nat> {
    if b > 0 && a > MAX64 / b then Err(OverflowError) else Ok(a * b)
  }

  function Then(a: Result<nat>, b: nat): Result<nat> {
    if a.Err? then a else Multiply(a.value, b)
  }

  lemma MultiplyFits(a: nat, b: nat)
    ensures Multiply(a, b).Ok? <==> a * b <= MAX64
    ensures Multiply(a, b).Ok? ==> Multiply(a, b).value == a * b
  {
    if b > 0 {
      DigitsOf(MAX64, b);
      if a > MAX64 / b {
        MulOrder(MAX64 / b + 1, a, b);
      } else {
        MulOrder(a, MAX64 / b, b);
      }
    }
  }

  function MakeLayout(numBlocks: nat, heads: nat, blockSize: nat, headSize: nat, elementBytes: nat): Result<Layout> {
    if numBlocks == 0 || heads == 0 || blockSize == 0 || headSize == 0 then Err(InvalidArgument)
    else
      var page := Then(Then(Multiply(heads, blockSize), headSize), elementBytes);
      if page.Err? then Err(page.error)
      else
        var cache := Multiply(numBlocks, page.value);
        if cache.Err? then Err(cache.error)
        else
          var total := Multiply(2, cache.value);
          if total.Err? then Err(total.error)
          else
            var slots := Multiply(numBlocks, blockSize);
            if slots.Err? then Err(slots.error)
            else Ok(Layout(numBlocks, heads, blockSize, headSize, elementBytes, page.value, cache.value, total.value,
                           slots.value))
  }

  lemma FactorAtMost(a: nat, b: nat)
    requires b > 0
    ensures a <= a * b
  {
    MulOrder(1, b, 1);
    assert a * b == a + a * (b - 1);
  }

  /** A layout is refused exactly when a dimension is zero or the two caches do not fit the address space. */
  lemma LayoutFits(numBlocks: nat, heads: nat, blockSize: nat, headSize: nat, elementBytes: nat)
    requires elementBytes > 0
    ensures MakeLayout(numBlocks, heads, blockSize, headSize, elementBytes).Ok? <==>
              && numBlocks > 0 && heads > 0 && blockSize > 0 && headSize > 0
              && 2 * (numBlocks * (heads * blockSize * headSize * elementBytes)) <= MAX64
    ensures var r := MakeLayout(numBlocks, heads, blockSize, headSize, elementBytes);
            r.Ok? ==> && r.value.pageBytes == heads * blockSize * headSize * elementBytes
                      && r.value.cacheBytes == numBlocks * r.value.pageBytes
                      && r.value.totalBytes == 2 * r.value.cacheBytes
                      && r.value.slotCount == numBlocks * blockSize
  {
    if numBlocks > 0 && heads > 0 && blockSize > 0 && headSize > 0 {
      var page := heads * blockSize * headSize * elementBytes;
      MultiplyFits(heads, blockSize);
      MultiplyFits(heads * blockSize, headSize);
      MultiplyFits(heads * blockSize * headSize, elementBytes);
      MultiplyFits(numBlocks, page);
      MultiplyFits(2, numBlocks * page);
      MultiplyFits(numBlocks, blockSize);
      FactorAtMost(heads * blockSize, headSize);
      FactorAtMost(heads * blockSize * headSize, elementBytes);
      FactorAtMost(blockSize, heads);
      FactorAtMost(page, numBlocks);
      SlotsAtMost(numBlocks, blockSize, page);
    }
  }

  lemma SlotsAtMost(numBlocks: nat, blockSize: nat, page: nat)
    requires blockSize <= page
    ensures numBlocks * blockSize <= numBlocks * page
  {
    MulMonotone(blockSize, page, numBlocks);
  }

  function PageByteOffset(l: Layout, kind: KvKind, block: nat): Result<nat> {
    if block >= l.numBlocks then Err(OutOfRange)
    else Ok((if kind == Value then l.cacheBytes else 0) + block * l.pageBytes)
  }

  function ByteOffset(l: Layout, kind: KvKind, block: nat, head: nat, token: nat, dim: nat): Result<nat> {
    var page := PageByteOffset(l, kind, block);
    if page.Err? then page
    else if head >= l.heads || token >= l.blockSize || dim >= l.headSize then Err(OutOfRange)
    else Ok(page.value + ((head * l.blockSize + token) * l.headSize + dim) * l.elementBytes)
  }

  function SlotByteOffset(l: Layout, kind: KvKind, slot: nat, head: nat, dim: nat): Result<nat>
    requires l.blockSize > 0
  {
    if slot >= l.slotCount then Err(OutOfRange)
    else (DigitsOf(slot, l.blockSize); ByteOffset(l, kind, slot / l.blockSize, head, slot % l.blockSize, dim))
  }

  predicate IsLayout(l: Layout) {
    l.elementBytes > 0 && MakeLayout(l.numBlocks, l.heads, l.blockSize, l.headSize, l.elementBytes) == Ok(l)
  }

  function Half(l: Layout, kind: KvKind): nat {
    if kind == Value then Elements(l) else 0
  }

  lemma LayoutSizes(l: Layout)
    requires IsLayout(l)
    ensures l.numBlocks > 0 && l.heads > 0 && l.blockSize > 0 && l.headSize > 0
    ensures l.pageBytes == l.heads * l.blockSize * l.headSize * l.elementBytes
    ensures l.cacheBytes == Elements(l) * l.elementBytes && l.totalBytes == (2 * Elements(l)) * l.elementBytes
    ensures l.slotCount == l.numBlocks * l.blockSize
  {
    LayoutFits(l.numBlocks, l.heads, l.blockSize, l.headSize, l.elementBytes);
    WholeCache(l.numBlocks, l.heads, l.blockSize, l.headSize, l.elementBytes);
    Distribute(Elements(l), Elements(l), l.elementBytes);
  }

  /** Elements of one of the two caches. */
  function Elements(l: Layout): nat {
    l.numBlocks * l.heads * l.blockSize * l.headSize
  }

  lemma Distribute(a: nat, b: nat, e: nat)
    ensures (a + b) * e == a * e + b * e
  {
  }

  /** A byte offset is the element's place in the row-major cache, times the element size; values follow keys. */
  lemma OffsetIsIndex(l: Layout, kind: KvKind, block: nat, head: nat, token: nat, dim: nat)
    requires IsLayout(l) && block < l.numBlocks && head < l.heads && token < l.blockSize && dim < l.headSize
    ensures ByteOffset(l, kind, block, head, token, dim)
         == Ok((Half(l, kind) + CacheIndex(block, head, token, dim, l.heads, l.blockSize, l.headSize)) * l.elementBytes)
  {
    LayoutSizes(l);
    PageThenElement(block, head, token, dim, l.heads, l.blockSize, l.headSize, l.elementBytes);
    Distribute(Half(l, kind), CacheIndex(block, head, token, dim, l.heads, l.blockSize, l.headSize), l.elementBytes);
  }

  lemma WholeCache(n: nat, h: nat, b: nat, d: nat, e: nat)
    ensures n * (h * b * d * e) == n * h * b * d * e
  {
    assert n * (h * b * d * e) == (n * (h * b * d)) * e;
    assert n * (h * b * d) == (n * (h * b)) * d;
    assert n * (h * b) == (n * h) * b;
  }

  lemma PageThenElement(block: nat, head: nat, token: nat, dim: nat, h: nat, b: nat, d: nat, e: nat)
    ensures block * (h * b * d * e) + ((head * b + token) * d + dim) * e
              == CacheIndex(block, head, token, dim, h, b, d) * e
  {
    WholeCache(block, h, b, d, e);
    var rest := (head * b + token) * d + dim;
    assert (block * h + head) * b + token == block * h * b + (head * b + token);
    assert (block * h * b + (head * b + token)) * d + dim == block * h * b * d + rest;
    assert (block * h * b * d + rest) * e == block * h * b * d * e + rest * e;
  }

  datatype Coordinate = Coordinate(kind: KvKind, block: nat, head: nat, token: nat, dim: nat)

  predicate InLayout(l: Layout, c: Coordinate) {
    c.block < l.numBlocks && c.head < l.heads && c.token < l.blockSize && c.dim < l.headSize
  }

  /** The element's number, keys first. */
  function Cell(l: Layout, c: Coordinate): nat {
    Half(l, c.kind) + CacheIndex(c.block, c.head, c.token, c.dim, l.heads, l.blockSize, l.headSize)
  }

  function Offset(l: Layout, c: Coordinate): Result<nat> {
    ByteOffset(l, c.kind, c.block, c.head, c.token, c.dim)
  }

  lemma CellBelow(l: Layout, c: Coordinate)
    requires InLayout(l, c)
    ensures Cell(l, c) < 2 * Elements(l)
    ensures c.kind == Key ==> Cell(l, c) < Elements(l)
    ensures c.kind == Value ==> Cell(l, c) >= Elements(l)
  {
    CacheBelow(c.block, c.head, c.token, c.dim, l.numBlocks, l.heads, l.blockSize, l.headSize);
  }

  lemma CellInjective(l: Layout, c: Coordinate, d: Coordinate)
    requires InLayout(l, c) && InLayout(l, d) && c != d
    ensures Cell(l, c) != Cell(l, d)
  {
    CellBelow(l, c);
    CellBelow(l, d);
    if c.kind == d.kind && Cell(l, c) == Cell(l, d) {
      CacheInjective(c.block, c.head, c.token, c.dim, d.block, d.head, d.token, d.dim, l.heads, l.blockSize,
                     l.headSize);
    }
  }

  lemma CellsApart(i: nat, j: nat, n: nat, e: nat)
    requires i != j && i < n && e > 0
    ensures i * e + e <= n * e && (i * e + e <= j * e || j * e + e <= i * e)
  {
    MulOrder(i, n, e);
    MulOrder(i, j, e);
    MulOrder(j, i, e);
  }

  /** Different elements never share a byte, and all of them lie within the two caches. */
  lemma OffsetsApart(l: Layout, c: Coordinate, d: Coordinate)
    requires IsLayout(l) && InLayout(l, c) && InLayout(l, d) && c != d
    ensures Offset(l, c).Ok? && Offset(l, d).Ok? && Offset(l, c).value + l.elementBytes <= l.totalBytes
    ensures Offset(l, c).value + l.elementBytes <= Offset(l, d).value
            || Offset(l, d).value + l.elementBytes <= Offset(l, c).value
  {
    OffsetIsIndex(l, c.kind, c.block, c.head, c.token, c.dim);
    OffsetIsIndex(l, d.kind, d.block, d.head, d.token, d.dim);
    LayoutSizes(l);
    CellInjective(l, c, d);
    CellBelow(l, c);
    CellsApart(Cell(l, c), Cell(l, d), 2 * Elements(l), l.elementBytes);
  }

  lemma CellOnto(l: Layout, cell: nat)
    requires l.heads > 0 && l.blockSize > 0 && l.headSize > 0 && cell < 2 * Elements(l)
    ensures exists c :: InLayout(l, c) && Cell(l, c) == cell
  {
    var n := Elements(l);
    var rest := if cell < n then cell else cell - n;
    CacheOnto(rest, l.numBlocks, l.heads, l.blockSize, l.headSize);
    var block: nat, head: nat, token: nat, dim: nat :|
      && block < l.numBlocks && head < l.heads && token < l.blockSize && dim < l.headSize
      && rest == CacheIndex(block, head, token, dim, l.heads, l.blockSize, l.headSize);
    var c := Coordinate(if cell < n then Key else Value, block, head, token, dim);
    assert InLayout(l, c) && Cell(l, c) == cell;
  }

  /** No byte of the two caches is wasted: each element-sized cell holds some element. */
  lemma OffsetsCover(l: Layout, cell: nat)
    requires IsLayout(l) && cell * l.elementBytes + l.elementBytes <= l.totalBytes
    ensures exists c :: InLayout(l, c) && Offset(l, c) == Ok(cell * l.elementBytes)
  {
    LayoutSizes(l);
    MulOrder(cell, 2 * Elements(l), l.elementBytes);
    CellOnto(l, cell);
    var c :| InLayout(l, c) && Cell(l, c) == cell;
    OffsetIsIndex(l, c.kind, c.block, c.head, c.token, c.dim);
  }

  lemma SlotParts(slot: nat, block: nat, token: nat, blockSize: nat, blocks: nat)
    requires slot == block * blockSize + token && token < blockSize && block < blocks
    ensures slot / blockSize == block && slot % blockSize == token && slot < blocks * blockSize
  {
    LessByDigits(block, token, blockSize, blocks);
    DivModUnique(slot, blockSize, block, token);
  }

  /** Addressing by slot number agrees with addressing by block and offset. */
  lemma SlotAgrees(l: Layout, kind: KvKind, slot: nat, block: nat, token: nat, head: nat, dim: nat)
    requires IsLayout(l) && block < l.numBlocks && token < l.blockSize && slot == block * l.blockSize + token
    ensures l.blockSize > 0 && slot < l.slotCount
    ensures SlotByteOffset(l, kind, slot, head, dim) == ByteOffset(l, kind, block, head, token, dim)
  {
    LayoutSizes(l);
    SlotParts(slot, block, token, l.blockSize, l.numBlocks);
  }

  /** An offset is given out exactly for a coordinate in range. */
  lemma RangesAreChecked(l: Layout, kind: KvKind, block: nat, head: nat, token: nat, dim: nat, slot: nat)
    requires IsLayout(l)
    ensures ByteOffset(l, kind, block, head, token, dim).Ok? <==>
              block < l.numBlocks && head < l.heads && token < l.blockSize && dim < l.headSize
    ensures l.blockSize > 0
    ensures SlotByteOffset(l, kind, slot, head, dim).Ok? <==>
              slot < l.numBlocks * l.blockSize && head < l.heads && dim < l.headSize
  {
    LayoutSizes(l);
    if slot < l.numBlocks * l.blockSize { QuotientBelow(slot, l.blockSize, l.numBlocks); }
    DigitsOf(slot, l.blockSize);
  }

  /** Three blocks of two heads, four tokens of eight 2-byte elements each: dimension 5 of token 3 of head 1 in
      block 2. */
  lemma KnownOffsets()
    ensures var r := MakeLayout(3, 2, 4, 8, 2);
            && r.Ok? && r.value.totalBytes == 768 && r.value.slotCount == 12
            && ByteOffset(r.value, Key, 2, 1, 3, 5) == Ok(378) && ByteOffset(r.value, Value, 2, 1, 3, 5) == Ok(762)
            && SlotByteOffset(r.value, Key, 11, 1, 5) == Ok(378)
  {
    LayoutFits(3, 2, 4, 8, 2);
  }
}
