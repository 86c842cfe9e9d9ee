/** The chunk file store (src/v3/chunk_file_store.cpp): loops over bytes, publication by rename, and a quota. */
module ChunkFileStores {
  import opened Common
  import opened Checksums
  import opened ChunkFormat

  // ---------------------------------------------------------------- byte loops

  /** Appends the low `n` bytes of `v`, least significant first. */
  method PutNumber(bytes: seq<Byte>, v: nat, n: nat) returns (longer: seq<Byte>)
    ensures longer == bytes + Put(v, n)
  {
    longer := bytes;
    var rest := v;
    for i := 0 to n
      invariant longer + Put(rest, n - i) == bytes + Put(v, n)
    {
      assert longer + Put(rest, n - i) == (longer + [rest % 256]) + Put(rest / 256, n - i - 1);
      longer := longer + [rest % 256];
      rest := rest / 256;
    }
    assert longer + Put(rest, 0) == longer;
  }

  lemma {:induction false} TakeSnocByte(b: seq<Byte>, x: Byte)
    ensures Take(b + [x]) == Take(b) + x * Pow256(|b|)
    decreases |b|
  {
    if b == [] {
      assert Take([x]) == x + 256 * Take([x][1..]);
    } else {
      assert (b + [x])[1..] == b[1..] + [x];
      TakeSnocByte(b[1..], x);
      Scale(x, Pow256(|b| - 1));
    }
  }

  lemma Scale(x: nat, p: nat)
    ensures 256 * (x * p) == x * (256 * p)
  {
  }

  method TakeNumber(b: seq<Byte>) returns (v: nat)
    ensures v == Take(b)
  {
    var scale: nat := 1;
    v := 0;
    for i := 0 to |b|
      invariant v == Take(b[..i]) && scale == Pow256(i)
    {
      TakeSnocByte(b[..i], b[i]);
      TakeSnoc(b, i);
      v := v + b[i] * scale;
      scale := scale * 256;
    }
    assert b[..|b|] == b;
  }

  lemma {:induction false} PutTokensSnoc(ts: Tokens, t: Token)
    ensures PutTokens(ts + [t]) == PutTokens(ts) + Put(Unsigned(t), 4)
  {
    if ts == [] {
      assert PutTokens([t]) == Put(Unsigned(t), 4) + PutTokens([t][1..]);
    } else {
      assert (ts + [t])[1..] == ts[1..] + [t];
      PutTokensSnoc(ts[1..], t);
      assert Put(Unsigned(ts[0]), 4) + (PutTokens(ts[1..]) + Put(Unsigned(t), 4))
               == (Put(Unsigned(ts[0]), 4) + PutTokens(ts[1..])) + Put(Unsigned(t), 4);
    }
  }

  method PutTokenList(ts: Tokens) returns (b: seq<Byte>)
    ensures b == PutTokens(ts)
  {
    b := [];
    for k := 0 to |ts|
      invariant b == PutTokens(ts[..k])
    {
      PutTokensSnoc(ts[..k], ts[k]);
      TakeSnoc(ts, k);
      b := PutNumber(b, Unsigned(ts[k]), 4);
    }
    assert ts[..|ts|] == ts;
  }

  method PutFixed(m: Meta) returns (b: seq<Byte>)
    ensures b == Fixed(m)
  {
    b := PutNumber([], m.layoutVersion, 4);
    assert b == Put(m.layoutVersion, 4);
    b := PutNumber(b, m.dtype, 4);
    b := PutNumber(b, m.firstLayer, 4);
    b := PutNumber(b, m.lastLayer, 4);
    b := PutNumber(b, m.prefixHash, 8);
    b := PutNumber(b, |m.prefix|, 8);
  }

  method PutTail(m: Meta, sum: nat) returns (b: seq<Byte>)
    ensures b == Tail(m, sum)
  {
    b := PutNumber([], m.validTokens, 8);
    assert b == Put(m.validTokens, 8);
    b := PutNumber(b, m.payloadSize, 8);
    b := PutNumber(b, sum, 8);
  }

  /** The header, with room for the payload's checksum already filled in. */
  method SerializeHeader(m: Meta, sum: nat) returns (h: seq<Byte>)
    ensures h == Header(m, sum)
  {
    h := PutNumber(MAGIC, VERSION, 4);
    h := PutNumber(h, |m.modelId|, 4);
    h := h + m.modelId;
    var fixedFields := PutFixed(m);
    h := h + fixedFields;
    var tokens := PutTokenList(m.prefix);
    h := h + tokens;
    var tail := PutTail(m, sum);
    h := h + tail;
  }

  /** The whole file: header, header checksum, payload. */
  method BuildFile(m: Meta, payload: seq<Byte>) returns (file: seq<Byte>)
    ensures file == FileOf(m, payload)
  {
    var sum := ComputeChecksum(payload);
    var header := SerializeHeader(m, sum);
    var headerSum := ComputeChecksum(header);
    file := PutNumber(header, headerSum, 8);
    file := file + payload;
  }

  method TakeTokenList(b: seq<Byte>) returns (ts: Tokens)
    requires |b| % 4 == 0
    ensures ts == TakeTokens(b)
  {
    ts := [];
    var p := 0;
    while p < |b|
      invariant p <= |b| && p % 4 == 0 && ts + TakeTokens(b[p..]) == TakeTokens(b)
    {
      TakeOneToken(ts, b, p);
      var u := TakeNumber(b[p..p + 4]);
      ts := ts + [Signed(u)];
      p := p + 4;
    }
  }

  /** The cursor moves over one token. */
  lemma TakeOneToken(ts: Tokens, b: seq<Byte>, p: nat)
    requires |b| % 4 == 0 && p < |b| && p % 4 == 0
    ensures p + 4 <= |b| && Take(b[p..p + 4]) < TWO32
    ensures ts + TakeTokens(b[p..]) == (ts + [Signed(Take(b[p..p + 4]))]) + TakeTokens(b[p + 4..])
  {
    Widths();
    var rest := b[p..];
    assert rest[..4] == b[p..p + 4] && rest[4..] == b[p + 4..];
    assert TakeTokens(rest) == [Signed(Take(rest[..4]))] + TakeTokens(rest[4..]);
  }

  /** The six numbers behind the model id. */
  method TakeFixed(b: seq<Byte>)
    returns (layoutVersion: nat, dtype: nat, firstLayer: nat, lastLayer: nat, prefixHash: nat, prefixLen: nat)
    requires |b| == 32
    ensures (layoutVersion, dtype, firstLayer, lastLayer, prefixHash, prefixLen) == ParseFixed(b)
  {
    layoutVersion := TakeNumber(b[..4]);
    dtype := TakeNumber(b[4..8]);
    firstLayer := TakeNumber(b[8..12]);
    lastLayer := TakeNumber(b[12..16]);
    prefixHash := TakeNumber(b[16..24]);
    prefixLen := TakeNumber(b[24..32]);
  }

  /** The read cursor moves over the header; a piece that is cut short, or a length nobody would write, ends the
      parse. */
  method ParseFile(file: seq<Byte>) returns (r: Option<Parsed>)
    ensures r == Parse(file)
  {
    if |file| < 12 || file[..4] != MAGIC { return None; }
    var version := TakeNumber(file[4..8]);
    if version != VERSION { return None; }
    var modelLen := TakeNumber(file[8..12]);
    if modelLen > MAX_MODEL || |file| < 12 + modelLen + 32 { return None; }
    var layoutVersion, dtype, firstLayer, lastLayer, prefixHash, prefixLen :=
      TakeFixed(file[12 + modelLen..12 + modelLen + 32]);
    if dtype > 2 || prefixLen > MAX_PREFIX || |file| < 12 + modelLen + 32 + 4 * prefixLen + 32 { return None; }
    var parsed := TakeRest(file, modelLen, (layoutVersion, dtype, firstLayer, lastLayer, prefixHash, prefixLen));
    r := Some(parsed);
  }

  /** The rest of the header, once its lengths are known. */
  method TakeRest(file: seq<Byte>, modelLen: nat, fields: (nat, nat, nat, nat, nat, nat)) returns (r: Parsed)
    requires |file| >= 12 + modelLen + 32 + 4 * fields.5 + 32
    ensures r == ParseRest(file, modelLen, fields)
  {
    var p := 12 + modelLen + 32;
    var q := p + 4 * fields.5;
    var prefix := TakeTokenList(file[p..q]);
    var validTokens := TakeNumber(file[q..q + 8]);
    var payloadSize := TakeNumber(file[q + 8..q + 16]);
    var payloadSum := TakeNumber(file[q + 16..q + 24]);
    var headerSum := TakeNumber(file[q + 24..q + 32]);
    r := Parsed(Meta(file[12..12 + modelLen], fields.0, fields.1, fields.2, fields.3, fields.4, prefix, validTokens,
                     payloadSize), payloadSum, headerSum, q + 32);
  }

  /** Parse, rebuild the header and compare its checksum, compare the identity, read the payload, compare its
      checksum. */
  method ReadFile(file: seq<Byte>, expected: Meta, capacity: nat) returns (r: Outcome)
    ensures r == Read(file, expected, capacity)
  {
    var parsed := ParseFile(file);
    if parsed.None? { return Corrupt; }
    r := CheckFile(file, parsed.value, expected, capacity);
  }

  method CheckFile(file: seq<Byte>, parsed: Parsed, expected: Meta, capacity: nat) returns (r: Outcome)
    ensures r == Check(file, parsed, expected, capacity)
  {
    var rebuilt := SerializeHeader(parsed.meta, parsed.payloadSum);
    var headerSum := ComputeChecksum(rebuilt);
    if headerSum != parsed.headerSum || !SameIdentity(parsed.meta, expected)
       || parsed.meta.payloadSize > capacity { return Corrupt; }
    if |file| < parsed.size + parsed.meta.payloadSize { return Corrupt; }
    var payload := file[parsed.size..parsed.size + parsed.meta.payloadSize];
    var payloadSum := ComputeChecksum(payload);
    r := if payloadSum != parsed.payloadSum then Corrupt else Loaded(parsed.meta, payload);
  }

  // ---------------------------------------------------------------- bytes on disk

  ghost function Total(files: map<nat, seq<Byte>>): nat
    decreases |files|
  {
    if files == map[] then 0
    else
      var k :| k in files;
      |files[k]| + Total(files - {k})
  }

  /** It does not matter which file is counted first. */
  lemma {:induction false} TotalSplit(files: map<nat, seq<Byte>>, k: nat)
    requires k in files
    ensures Total(files) == |files[k]| + Total(files - {k})
    decreases |files|
  {
    var j :| j in files && Total(files) == |files[j]| + Total(files - {j});
    if j != k {
      TotalSplit(files - {j}, k);
      TotalSplit(files - {k}, j);
      assert files - {j} - {k} == files - {k} - {j};
    }
  }

  lemma TotalUpdate(files: map<nat, seq<Byte>>, k: nat, file: seq<Byte>)
    ensures Total(files[k := file]) == Total(files) - (if k in files then |files[k]| else 0) + |file|
  {
    var after := files[k := file];
    TotalSplit(after, k);
    assert after - {k} == files - {k};
    if k in files { TotalSplit(files, k); } else { assert files - {k} == files; }
  }

  /** What the quota check compares, in 64-bit arithmetic. */
  function Needed(stored: nat, replaced: nat, size: nat): (n: nat)
  {
    (stored - replaced + size) % TWO64
  }

  /** The check means what it says exactly when the true sum fits 64 bits. */
  lemma QuotaCheckExact(total: nat, replaced: nat, size: nat, quota: nat)
    requires replaced <= total && quota < TWO64
    ensures var needed := Needed(total % TWO64, replaced % TWO64, size % TWO64);
            && needed == (total - replaced + size) % TWO64
            && (total - replaced + size < TWO64 ==> (needed <= quota <==> total - replaced + size <= quota))
            && (needed <= quota ==> (total - replaced + size <= quota <==> total - replaced + size < TWO64))
  {
    SumModulo(total, replaced, size);
    var sum := total - replaced + size;
    if sum < TWO64 { assert sum % TWO64 == sum; }
  }

  lemma SumModulo(a: nat, b: nat, c: nat)
    ensures (a % TWO64 - b % TWO64 + c % TWO64) % TWO64 == (a - b + c) % TWO64
  {
    var x, y, z := a / TWO64, b / TWO64, c / TWO64;
    assert a - b + c == (a % TWO64 - b % TWO64 + c % TWO64) + (x - y + z) * TWO64;
  }

  /** It can be passed by a sum that does not: a store that already holds almost 2^64 bytes. */
  lemma QuotaCheckWraps(total: nat, size: nat, quota: nat)
    requires total == TWO64 - 10 && size == 100 && quota == TWO64 - 1
    ensures total <= quota && size <= quota && Needed(total, 0, size) <= quota && total + size > quota
  {
    assert Needed(total, 0, size) == 90;
  }

  function Replaced(files: map<nat, seq<Byte>>, slot: nat): nat {
    if slot in files then |files[slot]| else 0
  }

  /** The 64-bit counter follows the true total. */
  lemma CounterFollows(files: map<nat, seq<Byte>>, slot: nat, file: seq<Byte>, quota: nat)
    requires quota < TWO64 && |file| < TWO64
    ensures var n := Needed(Total(files) % TWO64, Replaced(files, slot) % TWO64, |file|);
            && n == Total(files[slot := file]) % TWO64
            && (n <= quota ==> (Total(files[slot := file]) <= quota <==> Total(files[slot := file]) < TWO64))
  {
    TotalUpdate(files, slot, file);
    if slot in files { TotalSplit(files, slot); }
    CountsThrough(Total(files), Replaced(files, slot), |file|, Total(files[slot := file]), quota);
  }

  lemma CountsThrough(total: nat, replaced: nat, size: nat, after: nat, quota: nat)
    requires replaced <= total && quota < TWO64 && size < TWO64 && after == total - replaced + size
    ensures var n := Needed(total % TWO64, replaced % TWO64, size);
            n == after % TWO64 && (n <= quota ==> (after <= quota <==> after < TWO64))
  {
    assert size % TWO64 == size;
    QuotaCheckExact(total, replaced, size, quota);
  }

  lemma CounterErased(files: map<nat, seq<Byte>>, slot: nat)
    requires slot in files
    ensures Needed(Total(files) % TWO64, |files[slot]| % TWO64, 0) == Total(files - {slot}) % TWO64
  {
    TotalSplit(files, slot);
    QuotaCheckExact(Total(files), |files[slot]|, 0, 0);
  }

  /** Of files holding `all` bytes, those not in `left` have been counted. */
  ghost predicate Counted(total: nat, left: map<nat, seq<Byte>>, all: nat) {
    Total(left) <= all && total == (all - Total(left)) % TWO64
  }

  lemma CountOne(total: nat, left: map<nat, seq<Byte>>, k: nat, all: nat)
    requires Counted(total, left, all) && k in left
    ensures Counted((total + |left[k]|) % TWO64, left - {k}, all)
  {
    TotalSplit(left, k);
    AddModulo(all - Total(left), |left[k]|);
  }

  lemma AllCounted(total: nat, all: nat)
    requires Counted(total, map[], all)
    ensures total == all % TWO64
  {
  }

  lemma AddModulo(a: nat, b: nat)
    ensures ((a % TWO64) + b) % TWO64 == (a + b) % TWO64
  {
  }

  datatype WriteOutcome = Written | QuotaExceeded | WriteFailed

  datatype ReadResult = Found(outcome: Outcome) | Missing | ReadFailed

  datatype EraseOutcome = Erased | NothingThere | EraseFailed

  class ChunkFileStore {
    const quota: nat
    /** Whether the k-th system call goes through, and how many bytes it takes if it is a write. */
    const works: nat -> bool
    const takes: nat -> nat
    var calls: nat
    var stored: nat
    var published: map<nat, seq<Byte>>
    var temporary: map<nat, seq<Byte>>
    /** The published files as they were after each system call: what a crash then would leave. */
    ghost var history: seq<map<nat, seq<Byte>>>

    /** The counter is the published files' total size, as far as 64 bits can tell. */
    ghost predicate Valid()
      reads this
    {
      quota < TWO64 && stored == Total(published) % TWO64
    }

    /** Some system call since then has failed. */
    ghost predicate Broke(since: nat)
      reads this
    {
      exists k :: since <= k < calls && !works(k)
    }

    /** Every state a crash could have left since `before` was the history. */
    ghost predicate CrashSafe(before: seq<map<nat, seq<Byte>>>, was: map<nat, seq<Byte>>, slot: nat, file: seq<Byte>)
      reads this
    {
      before <= history && forall k ::
        |before| <= k < |history| ==> history[k] == was || history[k] == was[slot := file]
    }

    /** Opening a directory counts the files that are there; a temporary file is not one of them. */
    constructor (quotaBytes: nat, files: map<nat, seq<Byte>>, works: nat -> bool, takes: nat -> nat)
      requires quotaBytes < TWO64
      ensures Valid() && published == files && temporary == map[] && quota == quotaBytes && history == []
      ensures this.works == works && this.takes == takes && calls == 0
    {
      quota := quotaBytes;
      this.works, this.takes, calls := works, takes, 0;
      published, temporary, history := files, map[], [];
      stored := 0;
      new;
      stored := Scan();
    }

    method Scan() returns (total: nat)
      ensures total == Total(published) % TWO64
    {
      total := 0;
      var left := published;
      ghost var all := Total(left);
      while left != map[]
        invariant Counted(total, left, all)
        decreases |left|
      {
        var k :| k in left;
        CountOne(total, left, k, all);
        total, left := (total + |left[k]|) % TWO64, left - {k};
      }
      AllCounted(total, all);
    }

    /** A store opened again on the same files counts what this one has counted. */
    method Reopen() returns (other: ChunkFileStore)
      requires Valid()
      ensures fresh(other) && other.Valid() && other.published == published && other.stored == stored
    {
      other := new ChunkFileStore(quota, published, works, takes);
    }

    // -------------------------------------------------------------- system calls; any of them may fail

    /** The outcome of the next system call. */
    method Call() returns (ok: bool)
      modifies `calls
      ensures calls == old(calls) + 1 && (ok <==> !Broke(old(calls)))
    {
      ok := works(calls);
      calls := calls + 1;
      assert old(calls) <= calls - 1 < calls;
    }

    ghost method Note()
      modifies `history
      ensures history == old(history) + [published]
    {
      history := history + [published];
    }

    method OpenTemporary(slot: nat) returns (ok: bool)
      modifies `temporary, `history, `calls
      ensures history == old(history) + [published] && (ok ==> temporary == old(temporary)[slot := []])
      ensures calls > old(calls) && (ok <==> !Broke(old(calls)))
    {
      ok := Call();
      if ok { temporary := temporary[slot := []]; }
      Note();
    }

    /** write(2) may take only part of the data. */
    method WriteSome(slot: nat, data: seq<Byte>) returns (ok: bool, n: nat)
      requires slot in temporary && data != []
      modifies `temporary, `history, `calls
      ensures history == old(history) + [published] && slot in temporary
      ensures ok ==> 0 < n <= |data| && temporary[slot] == old(temporary[slot]) + data[..n]
      ensures calls > old(calls) && (ok <==> !Broke(old(calls)))
    {
      var taken := takes(calls);
      ok := Call();
      n := if 0 < taken < |data| then taken else |data|;
      if ok { temporary := temporary[slot := temporary[slot] + data[..n]]; }
      Note();
    }

    method WriteAll(slot: nat, data: seq<Byte>, ghost was: map<nat, seq<Byte>>, ghost before: seq<map<nat, seq<Byte>>>,
                    ghost file: seq<Byte>)
      returns (ok: bool)
      requires slot in temporary && published == was && CrashSafe(before, was, slot, file)
      modifies `temporary, `history, `calls
      ensures calls >= old(calls) && (ok <==> !Broke(old(calls)))
      ensures CrashSafe(before, was, slot, file) && slot in temporary
              && (ok ==> temporary[slot] == old(temporary[slot]) + data)
    {
      var done := 0;
      while done < |data|
        invariant done <= |data| && slot in temporary && CrashSafe(before, was, slot, file)
        invariant calls >= old(calls) && !Broke(old(calls))
        invariant temporary[slot] == old(temporary[slot]) + data[..done]
        decreases |data| - done
      {
        var n: nat;
        ok, n := WriteSome(slot, data[done..]);
        if !ok { return; }
        SliceGrows(data, done, done + n);
        assert data[done..][..n] == data[done..done + n];
        done := done + n;
      }
      assert data[..|data|] == data;
      ok := true;
    }

    method Sync() returns (ok: bool)
      modifies `history, `calls
      ensures history == old(history) + [published]
      ensures calls > old(calls) && (ok <==> !Broke(old(calls)))
    {
      ok := Call();
      Note();
    }

    method UnlinkTemporary(slot: nat)
      modifies `temporary, `history, `calls
      ensures history == old(history) + [published] && calls >= old(calls)
    {
      var ok := Call();
      if ok { temporary := temporary - {slot}; }
      Note();
    }

    /** rename(2) replaces the published file in one step or not at all. */
    method Rename(slot: nat) returns (ok: bool)
      requires slot in temporary
      modifies `published, `temporary, `history, `calls
      ensures history == old(history) + [published]
      ensures calls > old(calls) && (ok <==> !Broke(old(calls)))
      ensures published == if ok then old(published)[slot := old(temporary[slot])] else old(published)
    {
      ok := Call();
      if ok {
        published := published[slot := temporary[slot]];
        temporary := temporary - {slot};
      }
      Note();
    }

    // -------------------------------------------------------------- write, read, erase

    /** Publishes a chunk. At every moment the slot holds its whole old file or the whole new one; the counter
        follows; an accepted write leaves the counter within the quota. */
    method Write(slot: nat, m: Meta, payload: seq<Byte>) returns (r: WriteOutcome)
      requires Valid() && MetaOk(m) && |payload| == m.payloadSize && |FileOf(m, payload)| < TWO64
      modifies this
      ensures Valid() && CrashSafe(old(history), old(published), slot, FileOf(m, payload))
      ensures published
                == Changed(old(published), if r == Written then Publishes(slot, FileOf(m, payload)) else Nothing)
      ensures r == Written ==> stored <= quota && (Total(published) <= quota <==> Total(published) < TWO64)
      ensures r != Written ==> stored == old(stored)
      ensures r == QuotaExceeded <==>
                |FileOf(m, payload)| > quota || Total(old(published)[slot := FileOf(m, payload)]) % TWO64 > quota
      ensures r == QuotaExceeded ==> history == old(history) && temporary == old(temporary)
      ensures (r == WriteFailed <==> Broke(old(calls))) && calls >= old(calls)
    {
      var file := BuildFile(m, payload);
      var replaced := if slot in published then |published[slot]| else 0;
      CounterFollows(published, slot, file, quota);
      var needed := Needed(stored, replaced % TWO64, |file|);
      if |file| > quota || needed > quota { return QuotaExceeded; }
      r := Publish(slot, file);
      if r == Written { stored := needed; }
    }

    method Publish(slot: nat, file: seq<Byte>) returns (r: WriteOutcome)
      modifies `published, `temporary, `history, `calls
      ensures (r == WriteFailed <==> Broke(old(calls))) && calls >= old(calls)
      ensures CrashSafe(old(history), old(published), slot, file) && r != QuotaExceeded
      ensures published == if r == Written then old(published)[slot := file] else old(published)
    {
      ghost var before, was := history, published;
      var ok := OpenTemporary(slot);
      if !ok { return WriteFailed; }
      ok := WriteAll(slot, file, was, before, file);
      assert [] + file == file;
      if ok { ok := Sync(); }
      if !ok {
        UnlinkTemporary(slot);
        return WriteFailed;
      }
      ok := Sync();
      if !ok { return WriteFailed; }
      ok := Rename(slot);
      r := if ok then Written else WriteFailed;
    }

    /** Reads only what is published. The file may be `unreadable`. */
    method ReadChunk(slot: nat, expected: Meta, capacity: nat, unreadable: bool) returns (r: ReadResult)
      ensures r == Missing <==> slot !in published
      ensures r == ReadFailed <==> slot in published && unreadable
      ensures r.Found? ==> slot in published && r.outcome == Read(published[slot], expected, capacity)
    {
      if slot !in published { return Missing; }
      if unreadable { return ReadFailed; }
      var outcome := ReadFile(published[slot], expected, capacity);
      r := Found(outcome);
    }

    method Exists(slot: nat) returns (there: bool)
      ensures there <==> slot in published
    {
      there := slot in published;
    }

    method Erase(slot: nat) returns (r: EraseOutcome)
      requires Valid()
      modifies `published, `stored, `history, `calls
      ensures (r == EraseFailed <==> Broke(old(calls))) && calls >= old(calls)
      ensures Valid() && (r == NothingThere <==> slot !in old(published))
      ensures published == Changed(old(published), if r == Erased then Unpublishes(slot) else Nothing)
    {
      if slot !in published { return NothingThere; }
      var size := |published[slot]|;
      var ok := Call();
      if !ok { return EraseFailed; }
      CounterErased(published, slot);
      published := published - {slot};
      stored := Needed(stored, size % TWO64, 0);
      Note();
      r := Erased;
    }
  }

  // ---------------------------------------------------------------- runs of a store

  /** What one call does to the published files; a refused call, a read or a reopening does nothing. */
  datatype Change = Publishes(slot: nat, file: seq<Byte>) | Unpublishes(slot: nat) | Nothing

  function Changed(files: map<nat, seq<Byte>>, c: Change): map<nat, seq<Byte>> {
    match c
    case Publishes(slot, file) => files[slot := file]
    case Unpublishes(slot) => files - {slot}
    case Nothing => files
  }

  function AfterAll(files: map<nat, seq<Byte>>, changes: seq<Change>): map<nat, seq<Byte>> {
    if changes == [] then files else Changed(AfterAll(files, changes[..|changes| - 1]), changes[|changes| - 1])
  }

  predicate Concerns(c: Change, slot: nat) {
    !c.Nothing? && c.slot == slot
  }

  lemma {:induction false} SlotUntouched(files: map<nat, seq<Byte>>, changes: seq<Change>, slot: nat)
    requires slot in files && forall i :: 0 <= i < |changes| ==> !Concerns(changes[i], slot)
    ensures slot in AfterAll(files, changes) && AfterAll(files, changes)[slot] == files[slot]
  {
    if changes != [] { SlotUntouched(files, changes[..|changes| - 1], slot); }
  }

  /** A chunk that was written can be read back through any run of calls on other slots, until its own slot is written
      again or erased; a chunk with an implausible identity never can. */
  lemma WrittenIsReadable(files: map<nat, seq<Byte>>, slot: nat, m: Meta, payload: seq<Byte>, changes: seq<Change>,
                          expected: Meta, capacity: nat)
    requires MetaOk(m) && |payload| == m.payloadSize && SameIdentity(m, expected) && m.payloadSize <= capacity
    requires forall i :: 0 <= i < |changes| ==> !Concerns(changes[i], slot)
    ensures var later := AfterAll(Changed(files, Publishes(slot, FileOf(m, payload))), changes);
            slot in later
            && Read(later[slot], expected, capacity) == if Plausible(m) then Loaded(m, payload) else Corrupt
  {
    SlotUntouched(Changed(files, Publishes(slot, FileOf(m, payload))), changes, slot);
    RoundTrip(m, payload, expected, capacity);
  }
}
