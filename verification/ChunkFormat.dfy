/** The chunk file: header, header checksum, payload (src/v3/chunk_file_store.cpp). */
module ChunkFormat {
  import opened Common
  import opened Checksums

  const TWO32: nat := 0x1_0000_0000

  /** 'K' 'V' 'F' 'X'. */
  const MAGIC: seq<Byte> := [75, 86, 70, 88]
  const VERSION: nat := 1
  const MAX_MODEL: nat := 4096
  const MAX_PREFIX: nat := 0x40_0000

  /** `dtype` is the enumerator's number. */
  datatype Meta = Meta(modelId: seq<Byte>, layoutVersion: nat, dtype: nat, firstLayer: nat, lastLayer: nat,
                       prefixHash: nat, prefix: Tokens, validTokens: nat, payloadSize: nat)

  /** The field widths of the source's struct. */
  predicate MetaOk(m: Meta) {
    && |m.modelId| < TWO32 && m.layoutVersion < TWO32 && m.dtype <= 2 && m.firstLayer < TWO32 && m.lastLayer < TWO32
    && m.prefixHash < TWO64 && |m.prefix| < TWO64 && m.validTokens < TWO64 && m.payloadSize < TWO64
  }

  // ---------------------------------------------------------------- little-endian numbers

  function Put(v: nat, n: nat): (b: seq<Byte>)
    ensures |b| == n
  {
    if n == 0 then [] else [v % 256] + Put(v / 256, n - 1)
  }

  function Take(b: seq<Byte>): (v: nat)
    ensures v < Pow256(|b|)
    decreases |b|
  {
    if b == [] then 0 else b[0] + 256 * Take(b[1..])
  }

  function Pow256(n: nat): (p: nat)
    ensures p > 0
  {
    if n == 0 then 1 else 256 * Pow256(n - 1)
  }

  lemma Widths()
    ensures Pow256(4) == TWO32 && Pow256(8) == TWO64
  {
    assert Pow256(2) == 256 * (256 * Pow256(0));
    assert Pow256(4) == 256 * (256 * Pow256(2));
    assert Pow256(6) == 256 * (256 * Pow256(4));
    assert Pow256(8) == 256 * (256 * Pow256(6));
  }

  lemma {:induction false} TakePut(v: nat, n: nat)
    requires v < Pow256(n)
    ensures Take(Put(v, n)) == v
  {
    if n > 0 {
      TakePut(v / 256, n - 1);
      assert Put(v, n)[1..] == Put(v / 256, n - 1);
    }
  }

  lemma {:induction false} PutTake(b: seq<Byte>)
    ensures Put(Take(b), |b|) == b
    decreases |b|
  {
    if b != [] {
      PutTake(b[1..]);
      assert Take(b) % 256 == b[0] && Take(b) / 256 == Take(b[1..]);
      assert b == [b[0]] + b[1..];
    }
  }

  /** The two's-complement bits of a 32-bit token. */
  function Unsigned(t: Token): (u: nat)
    ensures u < TWO32
  {
    if t < 0 then t + TWO32 else t
  }

  function Signed(u: nat): Token
    requires u < TWO32
  {
    if u >= 0x8000_0000 then u - TWO32 else u
  }

  lemma SignedUnsigned(t: Token)
    ensures Signed(Unsigned(t)) == t
  {
  }

  lemma UnsignedSigned(u: nat)
    requires u < TWO32
    ensures Unsigned(Signed(u)) == u
  {
  }

  function PutTokens(ts: Tokens): (b: seq<Byte>)
    ensures |b| == 4 * |ts|
  {
    if ts == [] then [] else Put(Unsigned(ts[0]), 4) + PutTokens(ts[1..])
  }

  function TakeTokens(b: seq<Byte>): (ts: Tokens)
    requires |b| % 4 == 0
    ensures 4 * |ts| == |b|
    decreases |b|
  {
    if b == [] then [] else (Widths(); [Signed(Take(b[..4]))] + TakeTokens(b[4..]))
  }

  lemma {:induction false} TakePutTokens(ts: Tokens)
    ensures TakeTokens(PutTokens(ts)) == ts
  {
    if ts != [] {
      var b := PutTokens(ts);
      Widths();
      TakePut(Unsigned(ts[0]), 4);
      assert b[..4] == Put(Unsigned(ts[0]), 4) && b[4..] == PutTokens(ts[1..]);
      TakePutTokens(ts[1..]);
      SignedUnsigned(ts[0]);
    }
  }

  lemma {:induction false} PutTakeTokens(b: seq<Byte>)
    requires |b| % 4 == 0
    ensures PutTokens(TakeTokens(b)) == b
    decreases |b|
  {
    if b != [] {
      Widths();
      PutTake(b[..4]);
      PutTakeTokens(b[4..]);
      UnsignedSigned(Take(b[..4]));
      var ts := TakeTokens(b);
      assert ts[1..] == TakeTokens(b[4..]);
      assert b == b[..4] + b[4..];
    }
  }

  // ---------------------------------------------------------------- the header

  /** The fixed fields between the model name and the prefix. */
  function Fixed(m: Meta): (b: seq<Byte>)
    ensures |b| == 32
  {
    Put(m.layoutVersion, 4) + Put(m.dtype, 4) + Put(m.firstLayer, 4) + Put(m.lastLayer, 4) + Put(m.prefixHash, 8)
      + Put(|m.prefix|, 8)
  }

  function Lead(m: Meta): (b: seq<Byte>)
    ensures |b| == 12
  {
    MAGIC + Put(VERSION, 4) + Put(|m.modelId|, 4)
  }

  function Tail(m: Meta, sum: nat): (b: seq<Byte>)
    ensures |b| == 24
  {
    Put(m.validTokens, 8) + Put(m.payloadSize, 8) + Put(sum, 8)
  }

  /** All header fields, the payload's checksum last. */
  function Header(m: Meta, sum: nat): seq<Byte> {
    Lead(m) + m.modelId + Fixed(m) + PutTokens(m.prefix) + Tail(m, sum)
  }

  /** One header, byte by byte, every number with its low byte first: magic, version, length of the model id; */
  lemma KnownLead(m: Meta)
    requires |m.modelId| == 2
    ensures Lead(m) == [75, 86, 70, 88] + [1, 0, 0, 0] + [2, 0, 0, 0]
  {
    SmallPut(1);
    SmallPut(2);
  }

  /** layout, data type, layers, hash, length of the prefix; */
  lemma KnownFixed(m: Meta)
    requires m.layoutVersion == 258 && m.dtype == 2 && m.firstLayer == 3 && m.lastLayer == 4 && m.prefixHash == 5
    requires |m.prefix| == 2
    ensures Fixed(m) == [2, 1, 0, 0] + [2, 0, 0, 0] + [3, 0, 0, 0] + [4, 0, 0, 0] + [5, 0, 0, 0, 0, 0, 0, 0]
                        + [2, 0, 0, 0, 0, 0, 0, 0]
  {
    SmallPut(2);
    SmallPut(3);
    SmallPut(4);
    SmallPut(5);
    assert Put(258, 4) == [2, 1, 0, 0] by { assert Put(1, 3) == [1, 0, 0]; }
  }

  /** tokens in two's complement; */
  lemma KnownTokens()
    ensures PutTokens([-1, 7]) == [255, 255, 255, 255] + [7, 0, 0, 0]
  {
    SmallPut(7);
    assert Put(4294967295, 4) == [255] + ([255] + ([255] + ([255] + [])));
    assert [-1, 7][1..] == [7] && PutTokens([7]) == Put(7, 4) + PutTokens([7][1..]);
  }

  /** valid tokens, payload size, payload checksum. */
  lemma KnownTail(m: Meta)
    requires m.validTokens == 6 && m.payloadSize == 8
    ensures Tail(m, 9) == [6, 0, 0, 0, 0, 0, 0, 0] + [8, 0, 0, 0, 0, 0, 0, 0] + [9, 0, 0, 0, 0, 0, 0, 0]
  {
    SmallPut(6);
    SmallPut(8);
    SmallPut(9);
  }

  lemma KnownHeader()
    ensures Header(Meta([65, 66], 258, 2, 3, 4, 5, [-1, 7], 6, 8), 9)
         == ([75, 86, 70, 88] + [1, 0, 0, 0] + [2, 0, 0, 0]) + [65, 66]
            + ([2, 1, 0, 0] + [2, 0, 0, 0] + [3, 0, 0, 0] + [4, 0, 0, 0] + [5, 0, 0, 0, 0, 0, 0, 0]
               + [2, 0, 0, 0, 0, 0, 0, 0])
            + ([255, 255, 255, 255] + [7, 0, 0, 0])
            + ([6, 0, 0, 0, 0, 0, 0, 0] + [8, 0, 0, 0, 0, 0, 0, 0] + [9, 0, 0, 0, 0, 0, 0, 0])
  {
    var m := Meta([65, 66], 258, 2, 3, 4, 5, [-1, 7], 6, 8);
    KnownLead(m);
    KnownFixed(m);
    KnownTokens();
    KnownTail(m);
  }

  lemma SmallPut(v: nat)
    requires v < 256
    ensures Put(v, 4) == [v, 0, 0, 0] && Put(v, 8) == [v, 0, 0, 0, 0, 0, 0, 0]
  {
    assert Put(0, 3) == [0, 0, 0];
    assert Put(0, 7) == [0] + ([0] + ([0] + ([0] + Put(0, 3))));
    assert v % 256 == v && v / 256 == 0;
  }

  /** A complete file: the header, the header's own checksum, the payload. */
  function FileOf(m: Meta, payload: seq<Byte>): seq<Byte> {
    var h := Header(m, Checksum(payload));
    h + Put(Checksum(h), 8) + payload
  }

  // ---------------------------------------------------------------- reading

  datatype Outcome = Loaded(meta: Meta, payload: seq<Byte>) | Corrupt

  predicate SameIdentity(a: Meta, b: Meta) {
    && a.modelId == b.modelId && a.layoutVersion == b.layoutVersion && a.dtype == b.dtype
    && a.firstLayer == b.firstLayer
    && a.lastLayer == b.lastLayer && a.prefixHash == b.prefixHash && a.prefix == b.prefix
  }

  /** What the header parser reads off before any checksum is compared. */
  datatype Parsed = Parsed(meta: Meta, payloadSum: nat, headerSum: nat, size: nat)

  function ParseFixed(b: seq<Byte>): (nat, nat, nat, nat, nat, nat)
    requires |b| == 32
  {
    (Take(b[..4]), Take(b[4..8]), Take(b[8..12]), Take(b[12..16]), Take(b[16..24]), Take(b[24..32]))
  }

  /** Cursor by cursor: every piece must be there in full, and lengths must be plausible. */
  function Parse(file: seq<Byte>): Option<Parsed> {
    if |file| < 12 || file[..4] != MAGIC || Take(file[4..8]) != VERSION then None
    else
      var modelLen := Take(file[8..12]);
      if modelLen > MAX_MODEL || |file| < 12 + modelLen + 32 then None
      else
        var fields := ParseFixed(file[12 + modelLen..12 + modelLen + 32]);
        if fields.1 > 2 || fields.5 > MAX_PREFIX || |file| < 12 + modelLen + 32 + 4 * fields.5 + 32 then None
        else Some(ParseRest(file, modelLen, fields))
  }

  /** The token prefix and the three numbers behind it, and the header checksum. */
  function ParseRest(file: seq<Byte>, modelLen: nat, fields: (nat, nat, nat, nat, nat, nat)): Parsed
    requires |file| >= 12 + modelLen + 32 + 4 * fields.5 + 32
  {
    var p := 12 + modelLen + 32;
    var q := p + 4 * fields.5;
    assert |file[p..q]| == 4 * fields.5;
    Parsed(Meta(file[12..12 + modelLen], fields.0, fields.1, fields.2, fields.3, fields.4, TakeTokens(file[p..q]),
                Take(file[q..q + 8]), Take(file[q + 8..q + 16])),
           Take(file[q + 16..q + 24]), Take(file[q + 24..q + 32]), q + 32)
  }

  /** Once parsed: rebuild the header and compare its checksum, compare the identity, then the payload. */
  function Check(file: seq<Byte>, parsed: Parsed, expected: Meta, capacity: nat): Outcome {
    var Parsed(meta, payloadSum, headerSum, size) := parsed;
    if Checksum(Header(meta, payloadSum)) != headerSum || !SameIdentity(meta, expected) || meta.payloadSize > capacity
      then Corrupt
    else if |file| < size + meta.payloadSize then Corrupt
    else
      var payload := file[size..size + meta.payloadSize];
      if Checksum(payload) != payloadSum then Corrupt else Loaded(meta, payload)
  }

  function Read(file: seq<Byte>, expected: Meta, capacity: nat): Outcome {
    match Parse(file)
    case None => Corrupt
    case Some(parsed) => Check(file, parsed, expected, capacity)
  }

  // ---------------------------------------------------------------- parsing what was written

  predicate Plausible(m: Meta) {
    |m.modelId| <= MAX_MODEL && |m.prefix| <= MAX_PREFIX
  }

  lemma SubSlice(s: seq<Byte>, a: nat, b: nat, c: nat, d: nat)
    requires a <= b <= |s| && c <= d <= b - a
    ensures s[a..b][c..d] == s[a + c..a + d]
  {
    var x, y := s[a..b][c..d], s[a + c..a + d];
    assert |x| == |y|;
    forall k | 0 <= k < |x| ensures x[k] == y[k] {
      assert x[k] == s[a..b][c + k];
    }
  }

  lemma FixedParses(m: Meta)
    requires MetaOk(m)
    ensures ParseFixed(Fixed(m)) == (m.layoutVersion, m.dtype, m.firstLayer, m.lastLayer, m.prefixHash, |m.prefix|)
  {
    var b := Fixed(m);
    Widths();
    TakePut(m.layoutVersion, 4);
    TakePut(m.dtype, 4);
    TakePut(m.firstLayer, 4);
    TakePut(m.lastLayer, 4);
    TakePut(m.prefixHash, 8);
    TakePut(|m.prefix|, 8);
    var u, v, w, x, y, z := Put(m.layoutVersion, 4), Put(m.dtype, 4), Put(m.firstLayer, 4), Put(m.lastLayer, 4),
                            Put(m.prefixHash, 8), Put(|m.prefix|, 8);
    assert b[..32] == b;
    LastPiece(b, 32, u + v + w + x + y, z);
    LastPiece(b, 24, u + v + w + x, y);
    LastPiece(b, 16, u + v + w, x);
    LastPiece(b, 12, u + v, w);
    LastPiece(b, 8, u, v);
  }

  /** The last piece of a prefix, and what comes before it. */
  lemma LastPiece(file: seq<Byte>, n: nat, x: seq<Byte>, y: seq<Byte>)
    requires n <= |file| && file[..n] == x + y
    ensures n == |x| + |y| && file[..|x|] == x && file[|x|..n] == y
  {
    SubSlice(file, 0, n, 0, |x|);
    SubSlice(file, 0, n, |x|, n);
    assert (x + y)[..|x|] == x && (x + y)[|x|..] == y;
    assert file[..n][0..|x|] == x && file[..n][|x|..n] == y;
  }

  lemma LeadParses(m: Meta, file: seq<Byte>)
    requires MetaOk(m) && |file| >= 12 && file[..12] == Lead(m)
    ensures file[..4] == MAGIC && Take(file[4..8]) == VERSION && Take(file[8..12]) == |m.modelId|
  {
    Widths();
    TakePut(VERSION, 4);
    TakePut(|m.modelId|, 4);
    LastPiece(file, 12, MAGIC + Put(VERSION, 4), Put(|m.modelId|, 4));
    LastPiece(file, 8, MAGIC, Put(VERSION, 4));
  }

  lemma TailParses(m: Meta, sum: nat, b: seq<Byte>)
    requires MetaOk(m) && sum < TWO64 && b == Tail(m, sum)
    ensures Take(b[..8]) == m.validTokens && Take(b[8..16]) == m.payloadSize && Take(b[16..24]) == sum
  {
    Widths();
    TakePut(m.validTokens, 8);
    TakePut(m.payloadSize, 8);
    TakePut(sum, 8);
    assert b[..24] == b;
    LastPiece(b, 24, Put(m.validTokens, 8) + Put(m.payloadSize, 8), Put(sum, 8));
    LastPiece(b, 16, Put(m.validTokens, 8), Put(m.payloadSize, 8));
  }

  ghost predicate Split(m: Meta, sum: nat, headerSum: nat, file: seq<Byte>) {
    forall f {:trigger Unseal(f)} :: f == file ==> Cuts(m, sum, headerSum, f)
  }

  ghost predicate Decoded(m: Meta, sum: nat, headerSum: nat, file: seq<Byte>) {
    forall f {:trigger Unseal(f)} :: f == file ==> Fields(m, sum, headerSum, f)
  }

  /** Every number the parser takes is the one that was put there. */
  ghost predicate Fields(m: Meta, sum: nat, headerSum: nat, file: seq<Byte>) {
    |file| >= TailAt(m) + 32 && LeadFields(m, file) && BodyFields(m, file) && TailFields(m, sum, headerSum, file)
  }

  function BodyAt(m: Meta): nat {
    12 + |m.modelId| + 32
  }

  function TailAt(m: Meta): nat {
    BodyAt(m) + 4 * |m.prefix|
  }

  ghost predicate LeadFields(m: Meta, file: seq<Byte>)
    requires |file| >= TailAt(m) + 32
  {
    file[..4] == MAGIC && Take(file[4..8]) == VERSION && Take(file[8..12]) == |m.modelId|
    && file[12..12 + |m.modelId|] == m.modelId
  }

  ghost predicate BodyFields(m: Meta, file: seq<Byte>)
    requires |file| >= TailAt(m) + 32
  {
    && ParseFixed(file[12 + |m.modelId|..BodyAt(m)])
      == (m.layoutVersion, m.dtype, m.firstLayer, m.lastLayer, m.prefixHash, |m.prefix|)
    && |file[BodyAt(m)..TailAt(m)]| % 4 == 0 && TakeTokens(file[BodyAt(m)..TailAt(m)]) == m.prefix
  }

  ghost predicate TailFields(m: Meta, sum: nat, headerSum: nat, file: seq<Byte>)
    requires |file| >= TailAt(m) + 32
  {
    var q := TailAt(m);
    && Take(file[q..q + 8]) == m.validTokens && Take(file[q + 8..q + 16]) == m.payloadSize
    && Take(file[q + 16..q + 24]) == sum && Take(file[q + 24..q + 32]) == headerSum
  }

  /** Where the pieces of a file start. */
  ghost predicate Cuts(m: Meta, sum: nat, headerSum: nat, file: seq<Byte>) {
    && |file| >= TailAt(m) + 32 && file[..12] == Lead(m) && file[12..12 + |m.modelId|] == m.modelId
    && file[12 + |m.modelId|..BodyAt(m)] == Fixed(m) && file[BodyAt(m)..TailAt(m)] == PutTokens(m.prefix)
    && file[TailAt(m)..TailAt(m) + 24] == Tail(m, sum)
    && file[TailAt(m) + 24..TailAt(m) + 32] == Put(headerSum, 8)
  }

  lemma HeaderSize(m: Meta, sum: nat)
    ensures |Header(m, sum)| == TailAt(m) + 24
  {
  }

  lemma Pieces(m: Meta, sum: nat, headerSum: nat, rest: seq<Byte>, file: seq<Byte>)
    requires file == Header(m, sum) + Put(headerSum, 8) + rest
    ensures Split(m, sum, headerSum, file)
  {
    var a, b, c, d, e, f := Lead(m), m.modelId, Fixed(m), PutTokens(m.prefix), Tail(m, sum), Put(headerSum, 8);
    SixPieces(a, b, c, d, e, f, rest, file);
    assert Cuts(m, sum, headerSum, file);
  }

  lemma SixPieces(a: seq<Byte>, b: seq<Byte>, c: seq<Byte>, d: seq<Byte>, e: seq<Byte>, f: seq<Byte>, rest: seq<Byte>,
                  file: seq<Byte>)
    requires file == (a + b + c + d + e) + f + rest
    ensures var i := |a| + |b|; var j := i + |c|; var k := j + |d|; var l := k + |e|; var n := l + |f|;
            && n <= |file| && file[..|a|] == a && file[|a|..i] == b && file[i..j] == c && file[j..k] == d
            && file[k..l] == e && file[l..n] == f
            && file[n..] == rest
  {
    assert file[..|file|] == file;
    LastPiece(file, |file|, a + b + c + d + e + f, rest);
    LastPiece(file, |file| - |rest|, a + b + c + d + e, f);
    LastPiece(file, |a| + |b| + |c| + |d| + |e|, a + b + c + d, e);
    LastPiece(file, |a| + |b| + |c| + |d|, a + b + c, d);
    LastPiece(file, |a| + |b| + |c|, a + b, c);
    LastPiece(file, |a| + |b|, a, b);
  }

  lemma TailSlices(file: seq<Byte>, q: nat)
    requires q + 24 <= |file|
    ensures var b := file[q..q + 24];
            b[..8] == file[q..q + 8] && b[8..16] == file[q + 8..q + 16] && b[16..24] == file[q + 16..q + 24]
  {
    SubSlice(file, q, q + 24, 0, 8);
    SubSlice(file, q, q + 24, 8, 16);
    SubSlice(file, q, q + 24, 16, 24);
  }

  lemma TailDecodes(m: Meta, sum: nat, headerSum: nat, file: seq<Byte>, q: nat)
    requires MetaOk(m) && sum < TWO64 && headerSum < TWO64 && q + 32 <= |file|
    requires file[q..q + 24] == Tail(m, sum) && file[q + 24..q + 32] == Put(headerSum, 8)
    ensures Take(file[q..q + 8]) == m.validTokens && Take(file[q + 8..q + 16]) == m.payloadSize
    ensures Take(file[q + 16..q + 24]) == sum && Take(file[q + 24..q + 32]) == headerSum
  {
    TailParses(m, sum, file[q..q + 24]);
    TailSlices(file, q);
    Widths();
    TakePut(headerSum, 8);
  }

  lemma BodyDecodes(m: Meta, file: seq<Byte>)
    requires MetaOk(m) && |file| >= TailAt(m) + 32
    requires file[12 + |m.modelId|..BodyAt(m)] == Fixed(m) && file[BodyAt(m)..TailAt(m)] == PutTokens(m.prefix)
    ensures BodyFields(m, file)
  {
    FixedReads(m, file[12 + |m.modelId|..BodyAt(m)]);
    TokensRead(m.prefix, file[BodyAt(m)..TailAt(m)]);
  }

  lemma FixedReads(m: Meta, bytes: seq<Byte>)
    requires MetaOk(m) && bytes == Fixed(m)
    ensures |bytes| == 32
    ensures ParseFixed(bytes) == (m.layoutVersion, m.dtype, m.firstLayer, m.lastLayer, m.prefixHash, |m.prefix|)
  {
    FixedParses(m);
  }

  lemma TokensRead(ts: Tokens, bytes: seq<Byte>)
    requires bytes == PutTokens(ts)
    ensures |bytes| % 4 == 0 && TakeTokens(bytes) == ts
  {
    TakePutTokens(ts);
  }

  lemma CutsDecode(m: Meta, sum: nat, headerSum: nat, file: seq<Byte>)
    requires MetaOk(m) && sum < TWO64 && headerSum < TWO64 && Split(m, sum, headerSum, file)
    ensures Decoded(m, sum, headerSum, file)
  {
    CutLead(m, sum, headerSum, file);
    CutBody(m, sum, headerSum, file);
    CutTail(m, sum, headerSum, file);
    FoldFields(m, sum, headerSum, file);
  }

  lemma CutLead(m: Meta, sum: nat, headerSum: nat, file: seq<Byte>)
    requires MetaOk(m) && Split(m, sum, headerSum, file)
    ensures |file| >= TailAt(m) + 32 && LeadFields(m, file)
  {
    assert Unseal(file);
    LeadParses(m, file);
  }

  lemma CutBody(m: Meta, sum: nat, headerSum: nat, file: seq<Byte>)
    requires MetaOk(m) && Split(m, sum, headerSum, file)
    ensures |file| >= TailAt(m) + 32 && BodyFields(m, file)
  {
    assert Unseal(file);
    BodyDecodes(m, file);
  }

  lemma CutTail(m: Meta, sum: nat, headerSum: nat, file: seq<Byte>)
    requires MetaOk(m) && sum < TWO64 && headerSum < TWO64 && Split(m, sum, headerSum, file)
    ensures |file| >= TailAt(m) + 32 && TailFields(m, sum, headerSum, file)
  {
    LastCuts(m, sum, headerSum, file);
    TailDecodes(m, sum, headerSum, file, TailAt(m));
  }

  lemma LastCuts(m: Meta, sum: nat, headerSum: nat, file: seq<Byte>)
    requires Split(m, sum, headerSum, file)
    ensures var q := TailAt(m);
            |file| >= q + 32 && file[q..q + 24] == Tail(m, sum) && file[q + 24..q + 32] == Put(headerSum, 8)
  {
    assert Unseal(file);
  }

  lemma FoldFields(m: Meta, sum: nat, headerSum: nat, file: seq<Byte>)
    requires |file| >= TailAt(m) + 32 && LeadFields(m, file) && BodyFields(m, file)
             && TailFields(m, sum, headerSum, file)
    ensures Decoded(m, sum, headerSum, file)
  {
    assert Fields(m, sum, headerSum, file);
  }

  /** The fields one by one make up the result. */
  lemma FieldsParse(m: Meta, sum: nat, headerSum: nat, file: seq<Byte>)
    requires MetaOk(m) && Plausible(m) && Decoded(m, sum, headerSum, file)
    ensures Parse(file) == Some(Parsed(m, sum, headerSum, TailAt(m) + 32))
  {
    assert Unseal(file);
  }

  /** Parsing a written header, whatever follows it, gives back its fields. */
  lemma HeaderParses(m: Meta, sum: nat, headerSum: nat, rest: seq<Byte>)
    requires MetaOk(m) && Plausible(m) && sum < TWO64 && headerSum < TWO64
    ensures Parse(Header(m, sum) + Put(headerSum, 8) + rest) == Some(Parsed(m, sum, headerSum, TailAt(m) + 32))
  {
    Pieces(m, sum, headerSum, rest, Header(m, sum) + Put(headerSum, 8) + rest);
    CutsDecode(m, sum, headerSum, Header(m, sum) + Put(headerSum, 8) + rest);
    FieldsParse(m, sum, headerSum, Header(m, sum) + Put(headerSum, 8) + rest);
  }

  /** A header whose name or prefix is longer than the reader allows does not parse. */
  lemma ImplausibleIsRefused(m: Meta, sum: nat, headerSum: nat, rest: seq<Byte>)
    requires MetaOk(m) && !Plausible(m)
    ensures Parse(Header(m, sum) + Put(headerSum, 8) + rest).None?
  {
    Pieces(m, sum, headerSum, rest, Header(m, sum) + Put(headerSum, 8) + rest);
    ImplausibleCuts(m, sum, headerSum, Header(m, sum) + Put(headerSum, 8) + rest);
  }

  lemma ImplausibleCuts(m: Meta, sum: nat, headerSum: nat, file: seq<Byte>)
    requires MetaOk(m) && !Plausible(m) && Split(m, sum, headerSum, file)
    ensures Parse(file).None?
  {
    CutLead(m, sum, headerSum, file);
    CutBody(m, sum, headerSum, file);
  }

  /** Reading what was written returns it, exactly when the model id has at most 4096 bytes and the prefix at most
      2^22 tokens; writing accepts longer ones, reading never does. */
  lemma RoundTrip(m: Meta, payload: seq<Byte>, expected: Meta, capacity: nat)
    requires MetaOk(m) && |payload| == m.payloadSize && SameIdentity(m, expected) && m.payloadSize <= capacity
    ensures Read(FileOf(m, payload), expected, capacity) == if Plausible(m) then Loaded(m, payload) else Corrupt
  {
    var sum := Checksum(payload);
    var h := Header(m, sum);
    if Plausible(m) {
      HeaderParses(m, sum, Checksum(h), payload);
      ChecksOut(m, sum, payload, FileOf(m, payload), expected, capacity);
    } else {
      ImplausibleIsRefused(m, sum, Checksum(h), payload);
    }
  }

  /** One byte more than the reader believes: the payload is written, and lost. */
  lemma LongIdIsRefused(payload: seq<Byte>, capacity: nat)
    requires |payload| <= capacity && |payload| < TWO64
    ensures var m := Meta(seq(4097, _ => 65), 1, 0, 0, 1, 0, [], 0, |payload|);
            MetaOk(m) && Read(FileOf(m, payload), m, capacity) == Corrupt
  {
    var m := Meta(seq(4097, _ => 65), 1, 0, 0, 1, 0, [], 0, |payload|);
    RoundTrip(m, payload, m, capacity);
  }

  /** What a read accepts, in numbers and field by field: a file is loaded as `expected` exactly if its model id has at
      most 4096 bytes and its prefix at most 2^22 tokens, if it agrees with `expected` in all seven fields of its
      identity, and if its payload fits. Another chunk's file is never loaded. */
  lemma OnlyItsOwnIdentity(m: Meta, payload: seq<Byte>, expected: Meta, capacity: nat)
    requires MetaOk(m) && |payload| == m.payloadSize
    ensures var r := Read(FileOf(m, payload), expected, capacity);
            if && |m.modelId| <= 4096 && |m.prefix| <= 4194304 && |payload| <= capacity
               && m.modelId == expected.modelId && m.layoutVersion == expected.layoutVersion
               && m.dtype == expected.dtype && m.firstLayer == expected.firstLayer && m.lastLayer == expected.lastLayer
               && m.prefixHash == expected.prefixHash && m.prefix == expected.prefix
            then r == Loaded(m, payload) else r == Corrupt
  {
    var sum := Checksum(payload);
    var h := Header(m, sum);
    if Plausible(m) {
      HeaderParses(m, sum, Checksum(h), payload);
      ChecksOut(m, sum, payload, FileOf(m, payload), expected, capacity);
    } else {
      ImplausibleIsRefused(m, sum, Checksum(h), payload);
    }
  }

  /** Whatever the file, what is loaded from it has all of `expected`'s identity, and fits. */
  lemma LoadedIsExpected(file: seq<Byte>, expected: Meta, capacity: nat)
    requires Read(file, expected, capacity).Loaded?
    ensures var Loaded(m, payload) := Read(file, expected, capacity);
            && m.modelId == expected.modelId && m.layoutVersion == expected.layoutVersion
            && m.dtype == expected.dtype && m.firstLayer == expected.firstLayer && m.lastLayer == expected.lastLayer
            && m.prefixHash == expected.prefixHash && m.prefix == expected.prefix
            && |payload| == m.payloadSize <= capacity && |m.modelId| <= 4096 && |m.prefix| <= 4194304
            && FileOf(m, payload) <= file
  {
    ReserialisedHeader(file);
    LoadedIsWritten(file, expected, capacity);
  }

  /** It is the file that writing the chunk gives, whatever follows it. */
  lemma LoadedIsWritten(file: seq<Byte>, expected: Meta, capacity: nat)
    requires Read(file, expected, capacity).Loaded?
    ensures var Loaded(m, payload) := Read(file, expected, capacity); FileOf(m, payload) <= file
  {
    var p := Parse(file).value;
    ReserialisedHeader(file);
    ThreeParts(file, p.size - 8, p.size, p.size + p.meta.payloadSize);
  }

  lemma ThreeParts(file: seq<Byte>, a: nat, b: nat, c: nat)
    requires a <= b <= c <= |file|
    ensures file[..a] + file[a..b] + file[b..c] == file[..c] <= file
  {
    SliceGrows(file, a, b);
    SliceGrows(file, b, c);
  }

  lemma ChecksOut(m: Meta, sum: nat, payload: seq<Byte>, file: seq<Byte>, expected: Meta, capacity: nat)
    requires |payload| == m.payloadSize && file == Header(m, sum) + Put(Checksum(Header(m, sum)), 8) + payload
    ensures var parsed := Parsed(m, sum, Checksum(Header(m, sum)), TailAt(m) + 32);
            Check(file, parsed, expected, capacity)
            == if SameIdentity(m, expected) && m.payloadSize <= capacity && Checksum(payload) == sum
                 then Loaded(m, payload) else Corrupt
  {
    var start := Header(m, sum) + Put(Checksum(Header(m, sum)), 8);
    HeaderSize(m, sum);
    assert file[|start|..|start| + |payload|] == payload;
  }

  lemma FileDecodes(m: Meta, payload: seq<Byte>)
    requires MetaOk(m)
    ensures Decoded(m, Checksum(payload), Checksum(Header(m, Checksum(payload))), FileOf(m, payload))
  {
    var sum := Checksum(payload);
    Pieces(m, sum, Checksum(Header(m, sum)), payload, FileOf(m, payload));
    CutsDecode(m, sum, Checksum(Header(m, sum)), FileOf(m, payload));
  }

  /** The lengths come before what they measure, so the fields can be read off one after the other. */
  lemma FieldsDetermine(m1: Meta, sum1: nat, headerSum1: nat, m2: Meta, sum2: nat, headerSum2: nat, file: seq<Byte>)
    requires Decoded(m1, sum1, headerSum1, file) && Decoded(m2, sum2, headerSum2, file)
    ensures m1 == m2
  {
    assert Unseal(file);
    BodiesAgree(m1, m2, file);
    TailsAgree(m1, sum1, headerSum1, m2, sum2, headerSum2, file);
  }

  lemma BodiesAgree(m1: Meta, m2: Meta, file: seq<Byte>)
    requires |file| >= TailAt(m1) + 32 && LeadFields(m1, file) && BodyFields(m1, file)
    requires |file| >= TailAt(m2) + 32 && LeadFields(m2, file) && BodyFields(m2, file)
    ensures m1.modelId == m2.modelId && m1.prefix == m2.prefix && m1.layoutVersion == m2.layoutVersion
    ensures m1.dtype == m2.dtype && m1.firstLayer == m2.firstLayer && m1.lastLayer == m2.lastLayer
    ensures m1.prefixHash == m2.prefixHash && TailAt(m1) == TailAt(m2)
  {
    assert |m1.modelId| == |m2.modelId| && BodyAt(m1) == BodyAt(m2);
    assert |m1.prefix| == |m2.prefix|;
  }

  lemma TailsAgree(m1: Meta, sum1: nat, headerSum1: nat, m2: Meta, sum2: nat, headerSum2: nat, file: seq<Byte>)
    requires |file| >= TailAt(m1) + 32 && TailAt(m1) == TailAt(m2)
    requires TailFields(m1, sum1, headerSum1, file) && TailFields(m2, sum2, headerSum2, file)
    ensures m1.validTokens == m2.validTokens && m1.payloadSize == m2.payloadSize
  {
  }

  /** No two chunks have the same file, readable or not. */
  lemma FilesDiffer(m1: Meta, p1: seq<Byte>, m2: Meta, p2: seq<Byte>)
    requires MetaOk(m1) && MetaOk(m2) && |p1| == m1.payloadSize && |p2| == m2.payloadSize
    requires FileOf(m1, p1) == FileOf(m2, p2)
    ensures m1 == m2 && p1 == p2
  {
    FileDecodes(m1, p1);
    FileDecodes(m2, p2);
    FieldsDetermine(m1, Checksum(p1), Checksum(Header(m1, Checksum(p1))), m2, Checksum(p2),
                    Checksum(Header(m2, Checksum(p2))), FileOf(m1, p1));
    var size := TailAt(m1) + 32;
    HeaderSize(m1, Checksum(p1));
    HeaderSize(m2, Checksum(p2));
    assert FileOf(m1, p1)[size..] == p1 && FileOf(m2, p2)[size..] == p2;
  }

  // ---------------------------------------------------------------- writing what was parsed

  lemma FixedRebuilds(b: seq<Byte>, m: Meta)
    requires |b| == 32
             && ParseFixed(b) == (m.layoutVersion, m.dtype, m.firstLayer, m.lastLayer, m.prefixHash, |m.prefix|)
    ensures Fixed(m) == b
  {
    PutTake(b[..4]);
    PutTake(b[4..8]);
    PutTake(b[8..12]);
    PutTake(b[12..16]);
    PutTake(b[16..24]);
    PutTake(b[24..32]);
    assert b[..32] == b;
    SliceGrows(b, 4, 8);
    SliceGrows(b, 8, 12);
    SliceGrows(b, 12, 16);
    SliceGrows(b, 16, 24);
    SliceGrows(b, 24, 32);
  }

  lemma LeadRebuilds(file: seq<Byte>, m: Meta)
    requires |file| >= 12 && file[..4] == MAGIC && Take(file[4..8]) == VERSION && Take(file[8..12]) == |m.modelId|
    ensures Lead(m) == file[..12]
  {
    PutTake(file[4..8]);
    PutTake(file[8..12]);
    SliceGrows(file, 4, 8);
    SliceGrows(file, 8, 12);
  }

  lemma TailRebuilds(b: seq<Byte>, m: Meta, sum: nat)
    requires |b| == 24 && Take(b[..8]) == m.validTokens && Take(b[8..16]) == m.payloadSize && Take(b[16..24]) == sum
    ensures Tail(m, sum) == b
  {
    PutTake(b[..8]);
    PutTake(b[8..16]);
    PutTake(b[16..24]);
    assert b[..24] == b;
    SliceGrows(b, 8, 16);
    SliceGrows(b, 16, 24);
  }

  /** Serialising a parsed header gives back the very bytes it was parsed from, so the header checksum that is
      compared is that of the file's own bytes. */
  lemma ReserialisedHeader(file: seq<Byte>)
    requires Parse(file).Some?
    ensures var p := Parse(file).value;
            && 8 <= p.size <= |file| && MetaOk(p.meta) && Plausible(p.meta)
            && Header(p.meta, p.payloadSum) == file[..p.size - 8] && Put(p.headerSum, 8) == file[p.size - 8..p.size]
  {
    var r := Parse(file).value;
    ParsedDecodes(file);
    HeaderRebuilds(r.meta, r.payloadSum, r.headerSum, file);
  }

  lemma ParsedDecodes(file: seq<Byte>)
    requires Parse(file).Some?
    ensures var p := Parse(file).value;
            && MetaOk(p.meta) && Plausible(p.meta) && Decoded(p.meta, p.payloadSum, p.headerSum, file)
            && p.size == TailAt(p.meta) + 32
  {
    var p := Parse(file).value;
    Widths();
    assert Fields(p.meta, p.payloadSum, p.headerSum, file);
  }

  lemma HeaderRebuilds(m: Meta, sum: nat, headerSum: nat, file: seq<Byte>)
    requires Decoded(m, sum, headerSum, file)
    ensures var n := TailAt(m) + 24;
            n + 8 <= |file| && Header(m, sum) == file[..n] && Put(headerSum, 8) == file[n..n + 8]
  {
    DecodedCuts(m, sum, headerSum, file);
    CutsJoin(m, sum, headerSum, file);
  }

  /** The pieces, one behind the other, are the header. */
  lemma CutsJoin(m: Meta, sum: nat, headerSum: nat, file: seq<Byte>)
    requires Split(m, sum, headerSum, file)
    ensures var n := TailAt(m) + 24;
            n + 8 <= |file| && Header(m, sum) == file[..n] && Put(headerSum, 8) == file[n..n + 8]
  {
    CutPieces(m, sum, headerSum, file);
    Joined(file, 12, 12 + |m.modelId|, BodyAt(m), TailAt(m), TailAt(m) + 24);
  }

  lemma CutPieces(m: Meta, sum: nat, headerSum: nat, file: seq<Byte>)
    requires Split(m, sum, headerSum, file)
    ensures |file| >= TailAt(m) + 32 && file[..12] == Lead(m) && file[12..12 + |m.modelId|] == m.modelId
    ensures file[12 + |m.modelId|..BodyAt(m)] == Fixed(m) && file[BodyAt(m)..TailAt(m)] == PutTokens(m.prefix)
    ensures file[TailAt(m)..TailAt(m) + 24] == Tail(m, sum)
    ensures file[TailAt(m) + 24..TailAt(m) + 32] == Put(headerSum, 8)
  {
    assert Unseal(file);
  }

  /** The converse of CutsDecode: what decodes to these fields consists of their pieces. */
  lemma DecodedCuts(m: Meta, sum: nat, headerSum: nat, file: seq<Byte>)
    requires Decoded(m, sum, headerSum, file)
    ensures Split(m, sum, headerSum, file)
  {
    LeadPiece(m, sum, headerSum, file);
    BodyPieces(m, sum, headerSum, file);
    TailPieces(m, sum, headerSum, file);
    assert Cuts(m, sum, headerSum, file);
  }

  lemma LeadPiece(m: Meta, sum: nat, headerSum: nat, file: seq<Byte>)
    requires Decoded(m, sum, headerSum, file)
    ensures |file| >= TailAt(m) + 32 && file[..12] == Lead(m) && file[12..12 + |m.modelId|] == m.modelId
  {
    assert Unseal(file);
    LeadRebuilds(file, m);
  }

  lemma BodyPieces(m: Meta, sum: nat, headerSum: nat, file: seq<Byte>)
    requires Decoded(m, sum, headerSum, file)
    ensures |file| >= TailAt(m) + 32
    ensures file[12 + |m.modelId|..BodyAt(m)] == Fixed(m) && file[BodyAt(m)..TailAt(m)] == PutTokens(m.prefix)
  {
    assert Unseal(file);
    FixedRebuilds(file[12 + |m.modelId|..BodyAt(m)], m);
    PutTakeTokens(file[BodyAt(m)..TailAt(m)]);
  }

  lemma TailPieces(m: Meta, sum: nat, headerSum: nat, file: seq<Byte>)
    requires Decoded(m, sum, headerSum, file)
    ensures var q := TailAt(m);
            |file| >= q + 32 && file[q..q + 24] == Tail(m, sum) && file[q + 24..q + 32] == Put(headerSum, 8)
  {
    LastFields(m, sum, headerSum, file);
    var q := TailAt(m);
    TailSlices(file, q);
    TailRebuilds(file[q..q + 24], m, sum);
    PutTake(file[q + 24..q + 32]);
  }

  lemma LastFields(m: Meta, sum: nat, headerSum: nat, file: seq<Byte>)
    requires Decoded(m, sum, headerSum, file)
    ensures |file| >= TailAt(m) + 32 && TailFields(m, sum, headerSum, file)
  {
    assert Unseal(file);
  }

  lemma Joined(file: seq<Byte>, a: nat, b: nat, c: nat, d: nat, e: nat)
    requires a <= b <= c <= d <= e <= |file|
    ensures file[..e] == file[..a] + file[a..b] + file[b..c] + file[c..d] + file[d..e]
  {
    SliceGrows(file, a, b);
    SliceGrows(file, b, c);
    SliceGrows(file, c, d);
    SliceGrows(file, d, e);
  }

  // ---------------------------------------------------------------- damaged files

  /** A file one of whose payload bytes has changed is refused, wherever the byte and however long the payload. */
  lemma DamagedPayloadIsRefused(m: Meta, payload: seq<Byte>, i: nat, b: Byte, expected: Meta, capacity: nat)
    requires MetaOk(m) && |payload| == m.payloadSize && i < |payload| && b != payload[i]
    ensures var at := |FileOf(m, payload)| - |payload| + i;
            && 0 <= at < |FileOf(m, payload)| && FileOf(m, payload)[at] == payload[i]
            && Read(FileOf(m, payload)[at := b], expected, capacity) == Corrupt
  {
    var sum := Checksum(payload);
    var start := Header(m, sum) + Put(Checksum(Header(m, sum)), 8);
    UpdateAfter(start, payload, i, b);
    OneByteShows(payload, i, b);
    OtherPayloadIsRefused(m, sum, payload[i := b], expected, capacity);
  }

  /** One changed byte anywhere, in the header, in its checksum or in the payload: the file is refused. */
  lemma DamagedByteIsRefused(m: Meta, payload: seq<Byte>, i: nat, b: Byte, capacity: nat)
    requires MetaOk(m) && |payload| == m.payloadSize && i < |FileOf(m, payload)| && b != FileOf(m, payload)[i]
    ensures Read(FileOf(m, payload)[i := b], m, capacity) == Corrupt
  {
    HeaderEnds(m, payload);
    var size := |FileOf(m, payload)| - |payload|;
    if i >= size { DamagedAt(m, payload, i - size, i, b, capacity); }
    else { DamagedHeadIsRefused(m, payload, i, b, capacity); }
  }

  lemma DamagedAt(m: Meta, payload: seq<Byte>, k: nat, i: nat, b: Byte, capacity: nat)
    requires MetaOk(m) && |payload| == m.payloadSize && k < |payload|
    requires i == |FileOf(m, payload)| - |payload| + k && i < |FileOf(m, payload)| && b != FileOf(m, payload)[i]
    ensures Read(FileOf(m, payload)[i := b], m, capacity) == Corrupt
  {
    PayloadAt(m, payload, k);
    DamagedPayloadIsRefused(m, payload, k, b, m, capacity);
  }

  lemma HeaderEnds(m: Meta, payload: seq<Byte>)
    ensures |FileOf(m, payload)| == |Header(m, Checksum(payload))| + 8 + |payload|
  {
  }

  lemma PayloadAt(m: Meta, payload: seq<Byte>, k: nat)
    requires k < |payload|
    ensures var at := |FileOf(m, payload)| - |payload| + k;
            0 <= at < |FileOf(m, payload)| && FileOf(m, payload)[at] == payload[k]
  {
  }

  lemma DamagedHeadIsRefused(m: Meta, payload: seq<Byte>, i: nat, b: Byte, capacity: nat)
    requires MetaOk(m) && i < |Header(m, Checksum(payload))| + 8
    requires i < |FileOf(m, payload)| && b != FileOf(m, payload)[i]
    ensures Read(FileOf(m, payload)[i := b], m, capacity) == Corrupt
  {
    var file := FileOf(m, payload)[i := b];
    if Parse(file).Some? && SameIdentity(Parse(file).value.meta, m) { DamagedHeader(m, payload, i, b); }
  }

  /** Unless the identity itself is damaged the header has its old size, and its checksum is where it was. */
  lemma DamagedHeader(m: Meta, payload: seq<Byte>, i: nat, b: Byte)
    requires MetaOk(m) && i < |Header(m, Checksum(payload))| + 8 && b != FileOf(m, payload)[i]
    requires var r := Parse(FileOf(m, payload)[i := b]); r.Some? && SameIdentity(r.value.meta, m)
    ensures var p := Parse(FileOf(m, payload)[i := b]).value;
            Checksum(Header(p.meta, p.payloadSum)) != p.headerSum
  {
    var h := Header(m, Checksum(payload));
    var p := Parse(FileOf(m, payload)[i := b]).value;
    SameSizeHeader(FileOf(m, payload)[i := b], m, Checksum(payload));
    DamagedSlices(m, payload, i, b);
    ParsedSums(FileOf(m, payload)[i := b]);
    SumShows(h, i, b, Header(p.meta, p.payloadSum), p.headerSum);
  }

  /** The header read back, byte for byte. */
  lemma SameSizeHeader(file: seq<Byte>, m: Meta, sum: nat)
    requires Parse(file).Some? && SameIdentity(Parse(file).value.meta, m)
    ensures var p, n := Parse(file).value, |Header(m, sum)|;
            n + 8 <= |file| && Header(p.meta, p.payloadSum) == file[..n] && Put(p.headerSum, 8) == file[n..n + 8]
  {
    var p := Parse(file).value;
    ReserialisedHeader(file);
    SameSize(m, sum, p.meta, p.payloadSum);
    assert |file[..p.size - 8]| == p.size - 8;
  }

  lemma SameSize(m1: Meta, sum1: nat, m2: Meta, sum2: nat)
    requires SameIdentity(m2, m1)
    ensures |Header(m1, sum1)| == |Header(m2, sum2)|
  {
    HeaderSize(m1, sum1);
    HeaderSize(m2, sum2);
  }

  lemma DamagedSlices(m: Meta, payload: seq<Byte>, i: nat, b: Byte)
    requires i < |Header(m, Checksum(payload))| + 8 && b != FileOf(m, payload)[i]
    ensures var h := Header(m, Checksum(payload)); var c, file := Put(Checksum(h), 8), FileOf(m, payload)[i := b];
            if i < |h| then b != h[i] && file[..|h|] == h[i := b] && file[|h|..|h| + 8] == c
            else b != c[i - |h|] && file[..|h|] == h && file[|h|..|h| + 8] == c[i - |h| := b]
  {
    var h := Header(m, Checksum(payload));
    UpdateSlices(h, Put(Checksum(h), 8), payload, i, b);
  }

  /** A header and its checksum, one byte of the two changed. */
  lemma SumShows(h: seq<Byte>, i: nat, b: Byte, changed: seq<Byte>, sum: nat)
    requires i < |h| + 8 && sum < TWO64
    requires if i < |h| then b != h[i] && changed == h[i := b] && Put(sum, 8) == Put(Checksum(h), 8)
             else b != Put(Checksum(h), 8)[i - |h|] && changed == h && Put(sum, 8) == Put(Checksum(h), 8)[i - |h| := b]
    ensures Checksum(changed) != sum
  {
    if i < |h| {
      OneByteShows(h, i, b);
      SameNumber(sum, Checksum(h));
    }
  }

  lemma ParsedSums(file: seq<Byte>)
    requires Parse(file).Some?
    ensures Parse(file).value.headerSum < TWO64
  {
    Widths();
  }

  lemma UpdateSlices(h: seq<Byte>, c: seq<Byte>, rest: seq<Byte>, i: nat, b: Byte)
    requires i < |h| + |c|
    ensures var file := (h + c + rest)[i := b];
            if i < |h| then (h + c + rest)[i] == h[i] && file[..|h|] == h[i := b] && file[|h|..|h| + |c|] == c
            else (h + c + rest)[i] == c[i - |h|] && file[..|h|] == h && file[|h|..|h| + |c|] == c[i - |h| := b]
  {
  }

  lemma SameNumber(a: nat, b: nat)
    requires a < TWO64 && b < TWO64 && Put(a, 8) == Put(b, 8)
    ensures a == b
  {
    Widths();
    TakePut(a, 8);
    TakePut(b, 8);
  }

  lemma UpdateAfter(a: seq<Byte>, b: seq<Byte>, i: nat, x: Byte)
    requires i < |b|
    ensures (a + b)[|a| + i := x] == a + b[i := x] && (a + b)[|a| + i] == b[i]
  {
  }

  /** Behind an intact header, a payload with another checksum is refused. */
  lemma OtherPayloadIsRefused(m: Meta, sum: nat, other: seq<Byte>, expected: Meta, capacity: nat)
    requires MetaOk(m) && |other| == m.payloadSize && sum < TWO64 && Checksum(other) != sum
    ensures Read(Header(m, sum) + Put(Checksum(Header(m, sum)), 8) + other, expected, capacity) == Corrupt
  {
    var headerSum := Checksum(Header(m, sum));
    if Plausible(m) {
      HeaderParses(m, sum, headerSum, other);
      ChecksOut(m, sum, other, Header(m, sum) + Put(headerSum, 8) + other, expected, capacity);
    } else {
      ImplausibleIsRefused(m, sum, headerSum, other);
    }
  }

  /** How far into a file its header reaches. */
  lemma ParseExtent(b: seq<Byte>)
    requires Parse(b).Some?
    ensures |b| >= 12 && |b| >= 12 + Take(b[8..12]) + 32
    ensures var k := Take(b[8..12]);
            Parse(b).value.size == 12 + k + 64 + 4 * ParseFixed(b[12 + k..12 + k + 32]).5 <= |b|
  {
  }

  lemma LeadAgrees(file: seq<Byte>, n: nat, k: nat)
    requires n <= |file| && 12 + k + 32 <= n
    ensures var b := file[..n];
            && b[..4] == file[..4] && b[4..8] == file[4..8] && b[8..12] == file[8..12]
            && b[12 + k..12 + k + 32] == file[12 + k..12 + k + 32]
  {
    SubSlice(file, 0, n, 0, 4);
    SubSlice(file, 0, n, 4, 8);
    SubSlice(file, 0, n, 8, 12);
    SubSlice(file, 0, n, 12 + k, 12 + k + 32);
  }

  lemma RestAgrees(file: seq<Byte>, n: nat, k: nat, fields: (nat, nat, nat, nat, nat, nat))
    requires n <= |file| && 12 + k + 32 + 4 * fields.5 + 32 <= n
    ensures ParseRest(file[..n], k, fields) == ParseRest(file, k, fields)
  {
    var p := 12 + k + 32;
    var q := p + 4 * fields.5;
    SubSlice(file, 0, n, 12, 12 + k);
    SubSlice(file, 0, n, p, q);
    SubSlice(file, 0, n, q, q + 8);
    SubSlice(file, 0, n, q + 8, q + 16);
    SubSlice(file, 0, n, q + 16, q + 24);
    SubSlice(file, 0, n, q + 24, q + 32);
  }

  /** What parses in a prefix parses the same in the whole, and lies within the prefix. */
  lemma ParsePrefix(file: seq<Byte>, n: nat)
    requires n <= |file| && Parse(file[..n]).Some?
    ensures Parse(file) == Parse(file[..n]) && Parse(file).value.size <= n
  {
    var b := file[..n];
    ParseExtent(b);
    var k := Take(b[8..12]);
    LeadAgrees(file, n, k);
    RestAgrees(file, n, k, ParseFixed(b[12 + k..12 + k + 32]));
  }

  /** A file cut short anywhere is refused. */
  lemma TruncatedIsRefused(m: Meta, payload: seq<Byte>, n: nat, expected: Meta, capacity: nat)
    requires MetaOk(m) && |payload| == m.payloadSize && n < |FileOf(m, payload)|
    ensures Read(FileOf(m, payload)[..n], expected, capacity) == Corrupt
  {
    var file := FileOf(m, payload);
    var h := Header(m, Checksum(payload));
    if Parse(file[..n]).Some? {
      ParsePrefix(file, n);
      if Plausible(m) {
        HeaderParses(m, Checksum(payload), Checksum(h), payload);
      } else {
        ImplausibleIsRefused(m, Checksum(payload), Checksum(h), payload);
      }
    }
  }
}
