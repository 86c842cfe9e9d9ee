/** Whole runs of the paged cache: every step refines a step on private arrays, and a cache filled
    with what a model computes from token prefixes never shows a request anything else. */
module TransparentSharing {
  import opened Common
  import opened Arithmetic
  import opened PagePool
  import opened PagedSequences
  import opened PagedMemory

  datatype Step =
    | Create(r: nat)
    | Append(r: nat, values: seq<KV>)
    | CopyAppend(r: nat, value: KV)
    | Fork(r: nat, child: nat)
    | Attach(r: nat, tokens: Tokens)
    | PublishBlock(r: nat, block: nat, prefix: Tokens)
    | Destroy(r: nat)
    | Refused
    | DirectAllocate(key: nat)
    | DirectRetain(key: nat, h: Handle)
    | DirectRelease(key: nat)

  ghost predicate Next(w: World, step: Step, v: World) {
    match step
    case Create(r) => CreateStep(w, v, r)
    case Append(r, values) => AppendStep(w, v, r, values)
    case CopyAppend(r, value) => CopyStep(w, v, r, value)
    case Fork(r, child) => ForkStep(w, v, r, child)
    case Attach(r, tokens) => AttachStep(w, v, r, tokens)
    case PublishBlock(r, block, prefix) => PublishStep(w, v, r, block, prefix)
    case Destroy(r) => DestroyStep(w, v, r)
    case Refused => FailStep(w, v)
    case DirectAllocate(key) => DirectAllocateStep(w, v, key)
    case DirectRetain(key, h) => DirectRetainStep(w, v, key, h)
    case DirectRelease(key) => DirectReleaseStep(w, v, key)
  }

  ghost predicate SameRequests(w: World, v: World) {
    v.requests.Keys == w.requests.Keys
  }

  /** The same step as seen by requests that each own a private array, next to a store of published
      block contents that may lose entries but never changes them. */
  ghost predicate PrivateEffect(w: World, step: Step, v: World)
    requires WorldInv(w) && WorldInv(v)
  {
    match step
    case Create(r) =>
      r !in w.requests && v.requests.Keys == w.requests.Keys + {r} && Read(v, r) == [] && OthersRead(w, v, r)
      && CacheOnlyShrinks(w, v)
    case Append(r, values) =>
      r in w.requests && SameRequests(w, v) && Read(v, r) == Read(w, r) + values
      && OthersRead(w, v, r) && CacheOnlyShrinks(w, v)
    case CopyAppend(r, value) =>
      r in w.requests && SameRequests(w, v) && Read(v, r) == Read(w, r) + [value]
      && OthersRead(w, v, r) && CacheOnlyShrinks(w, v)
    case Fork(r, child) =>
      r in w.requests && v.requests.Keys == w.requests.Keys + {child} && Read(v, child) == Read(w, r)
      && OthersRead(w, v, child) && CacheOnlyShrinks(w, v)
    case Attach(r, tokens) =>
      r in w.requests && SameRequests(w, v) && Read(w, r) == [] && ReadsPublishedRun(w, tokens, Read(v, r))
      && OthersRead(w, v, r) && CacheOnlyShrinks(w, v)
    case PublishBlock(r, block, prefix) =>
      var B := w.pool.blockSize;
      && r in w.requests && |prefix| == block * B + B <= |Read(w, r)| && Published(w, prefix).None?
      && SameReads(w, v)
      && forall other :: Published(v, other) ==
           if other == prefix then Some(Read(w, r)[block * B..block * B + B]) else Published(w, other)
    case Destroy(r) =>
      r in w.requests && v.requests.Keys == w.requests.Keys - {r} && OthersRead(w, v, r) && CacheOnlyShrinks(w, v)
    case _ => SameReads(w, v) && CacheOnlyShrinks(w, v)
  }

  ghost predicate SameReads(w: World, v: World)
    requires WorldInv(w) && WorldInv(v)
  {
    SameRequests(w, v) && forall x :: x in w.requests ==> Read(v, x) == Read(w, x)
  }

  /** Paging, sharing, copy-on-write and eviction are invisible: one step. */
  lemma StepRefines(w: World, step: Step, v: World)
    requires WorldInv(w) && Next(w, step, v)
    ensures WorldInv(v) && PrivateEffect(w, step, v)
  {
    match step
    case PublishBlock(r, block, prefix) => PublishEffect(w, v, r, block, prefix);
    case Append(_, _) => TokensEffect(w, step, v);
    case CopyAppend(_, _) => TokensEffect(w, step, v);
    case Attach(_, _) => TokensEffect(w, step, v);
    case Create(_) => LifecycleEffect(w, step, v);
    case Fork(_, _) => LifecycleEffect(w, step, v);
    case Destroy(_) => LifecycleEffect(w, step, v);
    case _ => QuietEffect(w, step, v);
  }

  lemma TokensEffect(w: World, step: Step, v: World)
    requires WorldInv(w) && Next(w, step, v) && (step.Append? || step.CopyAppend? || step.Attach?)
    ensures WorldInv(v) && PrivateEffect(w, step, v)
  {
    match step
    case Append(r, values) => AppendEffect(w, v, r, values);
    case CopyAppend(r, value) => CopyRefines(w, v, r, value);
    case Attach(r, tokens) => AttachEffect(w, v, r, tokens);
  }

  lemma AppendEffect(w: World, v: World, r: nat, values: seq<KV>)
    requires WorldInv(w) && AppendStep(w, v, r, values)
    ensures WorldInv(v) && PrivateEffect(w, Append(r, values), v)
  {
    AppendRefines(w, v, r, values);
  }

  lemma AttachEffect(w: World, v: World, r: nat, tokens: Tokens)
    requires WorldInv(w) && AttachStep(w, v, r, tokens)
    ensures WorldInv(v) && PrivateEffect(w, Attach(r, tokens), v)
  {
    AttachRefines(w, v, r, tokens);
  }

  lemma LifecycleEffect(w: World, step: Step, v: World)
    requires WorldInv(w) && Next(w, step, v) && (step.Create? || step.Fork? || step.Destroy?)
    ensures WorldInv(v) && PrivateEffect(w, step, v)
  {
    match step
    case Create(r) => CreateRefines(w, v, r);
    case Fork(r, child) => ForkRefines(w, v, r, child);
    case Destroy(r) => DestroyRefines(w, v, r);
  }

  lemma PublishEffect(w: World, v: World, r: nat, block: nat, prefix: Tokens)
    requires WorldInv(w) && PublishStep(w, v, r, block, prefix)
    ensures WorldInv(v) && PrivateEffect(w, PublishBlock(r, block, prefix), v)
  {
    PublishRefines(w, v, r, block, prefix);
  }

  lemma QuietEffect(w: World, step: Step, v: World)
    requires WorldInv(w) && Next(w, step, v)
    requires step.Refused? || step.DirectAllocate? || step.DirectRetain? || step.DirectRelease?
    ensures WorldInv(v) && SameReads(w, v) && CacheOnlyShrinks(w, v)
  {
    match step
    case Refused => FailRefines(w, v);
    case DirectAllocate(key) => DirectRefines(w, v, key, Handle(0, 0));
    case DirectRetain(key, h) => DirectRefines(w, v, key, h);
    case DirectRelease(key) => DirectRefines(w, v, key, Handle(0, 0));
  }

  // ---------------------------------------------------------------- runs

  ghost predicate Initial(w: World) {
    && w.pool.blockSize > 0 && w.pool == Empty(|w.pool.pages|, w.pool.blockSize)
    && MemOk(w.pool, w.mem) && w.requests == map[] && w.direct == map[]
  }

  lemma InitialInv(w: World)
    requires Initial(w)
    ensures WorldInv(w)
  {
    StartOk(|w.pool.pages|, w.pool.blockSize);
    assert Inv(Start(|w.pool.pages|, w.pool.blockSize).pool);
    forall i | 0 <= i < |w.pool.pages| ensures w.pool.pages[i].refs == |Holders(w.requests, w.direct, i)| {
      assert Holders(w.requests, w.direct, i) == {};
    }
  }

  ghost predicate StepAt(worlds: seq<World>, steps: seq<Step>, i: nat)
    requires i < |steps| && |worlds| == |steps| + 1
  {
    Next(worlds[i], steps[i], worlds[i + 1])
  }

  ghost predicate IsRun(worlds: seq<World>, steps: seq<Step>) {
    && |worlds| == |steps| + 1 && Initial(worlds[0])
    && forall i {:trigger StepAt(worlds, steps, i)} :: 0 <= i < |steps| ==> StepAt(worlds, steps, i)
  }

  lemma {:induction false} RunKeepsInv(worlds: seq<World>, steps: seq<Step>, n: nat)
    requires IsRun(worlds, steps) && n < |worlds|
    ensures WorldInv(worlds[n])
  {
    if n == 0 {
      InitialInv(worlds[0]);
    } else {
      RunKeepsInv(worlds, steps, n - 1);
      assert StepAt(worlds, steps, n - 1);
      StepRefines(worlds[n - 1], steps[n - 1], worlds[n]);
    }
  }

  /** Over every run, each request reads exactly the values it wrote or inherited. */
  lemma RunRefines(worlds: seq<World>, steps: seq<Step>, n: nat)
    requires IsRun(worlds, steps) && n < |steps|
    ensures WorldInv(worlds[n]) && WorldInv(worlds[n + 1]) && PrivateEffect(worlds[n], steps[n], worlds[n + 1])
  {
    RunKeepsInv(worlds, steps, n);
    assert StepAt(worlds, steps, n);
    StepRefines(worlds[n], steps[n], worlds[n + 1]);
  }

  // ---------------------------------------------------------------- transparency

  /** The tokens each request has fed so far. */
  type Ledger = map<nat, Tokens>

  /** Clients write what the model computes from the request's own tokens, publish under those tokens,
      and attach with the tokens they are about to process. */
  ghost predicate Disciplined(w: World, l: Ledger, step: Step, v: World, m: Ledger, model: Tokens -> KV) {
    match step
    case Create(r) => m == l[r := []]
    case Append(r, values) =>
      && r in l && r in m && m == l[r := m[r]] && l[r] <= m[r] && |m[r]| == |l[r]| + |values|
      && forall j :: 0 <= j < |values| ==> values[j] == model(m[r][..|l[r]| + j + 1])
    case CopyAppend(r, value) =>
      && r in l && r in m && m == l[r := m[r]] && l[r] <= m[r] && |m[r]| == |l[r]| + 1 && value == model(m[r])
    case Fork(r, child) => r in l && m == l[child := l[r]]
    case Attach(r, tokens) =>
      r in v.requests && v.requests[r].numTokens <= |tokens| && m == l[r := tokens[..v.requests[r].numTokens]]
    case PublishBlock(r, block, prefix) => r in l && prefix <= l[r] && m == l
    case Destroy(r) => m == l - {r}
    case _ => m == l
  }

  ghost predicate Computed(contents: seq<KV>, tokens: Tokens, model: Tokens -> KV) {
    |contents| == |tokens| && forall t :: 0 <= t < |tokens| ==> contents[t] == model(tokens[..t + 1])
  }

  /** The last block of `prefix`, as the model computes it. */
  ghost predicate ComputedBlock(contents: seq<KV>, prefix: Tokens, model: Tokens -> KV) {
    |contents| <= |prefix| &&
    forall o :: 0 <= o < |contents| ==> contents[o] == model(prefix[..|prefix| - |contents| + o + 1])
  }

  ghost predicate Truthful(w: World, l: Ledger, model: Tokens -> KV)
    requires WorldInv(w)
  {
    && (forall r :: r in w.requests ==> r in l && Computed(Read(w, r), l[r], model))
    && (forall prefix :: Published(w, prefix).Some? ==> ComputedBlock(Published(w, prefix).value, prefix, model))
  }

  lemma ComputedGrows(contents: seq<KV>, tokens: Tokens, values: seq<KV>, longer: Tokens, model: Tokens -> KV)
    requires Computed(contents, tokens, model) && tokens <= longer && |longer| == |tokens| + |values|
    requires forall j :: 0 <= j < |values| ==> values[j] == model(longer[..|tokens| + j + 1])
    ensures Computed(contents + values, longer, model)
  {
    forall t | 0 <= t < |longer| ensures (contents + values)[t] == model(longer[..t + 1]) {
      if t < |tokens| {
        assert longer[..t + 1] == tokens[..t + 1];
      } else {
        assert values[t - |tokens|] == model(longer[..|tokens| + (t - |tokens|) + 1]);
      }
    }
  }

  lemma AttachedComputed(w: World, l: Ledger, tokens: Tokens, contents: seq<KV>, model: Tokens -> KV)
    requires WorldInv(w) && Truthful(w, l, model) && ReadsPublishedRun(w, tokens, contents)
    ensures Computed(contents, tokens[..|contents|], model)
  {
    forall t | 0 <= t < |contents| ensures contents[t] == model(tokens[..|contents|][..t + 1]) {
      AttachedToken(w, l, tokens, contents, model, t);
      assert tokens[..|contents|][..t + 1] == tokens[..t + 1];
    }
  }

  lemma AttachedToken(w: World, l: Ledger, tokens: Tokens, contents: seq<KV>, model: Tokens -> KV, t: nat)
    requires WorldInv(w) && Truthful(w, l, model) && ReadsPublishedRun(w, tokens, contents) && t < |contents|
    ensures contents[t] == model(tokens[..t + 1])
  {
    var B := w.pool.blockSize;
    BlockInside(t, |contents|, B);
    AttachedBlock(w, l, tokens, contents, model, t / B);
    BlockToken(tokens, contents, (t / B) * B, B, t % B, model);
  }

  /** Every whole block that was attached is what the model computes. */
  lemma AttachedBlock(w: World, l: Ledger, tokens: Tokens, contents: seq<KV>, model: Tokens -> KV, k: nat)
    requires WorldInv(w) && Truthful(w, l, model) && ReadsPublishedRun(w, tokens, contents)
    requires k * w.pool.blockSize + w.pool.blockSize <= |contents|
    ensures var a, B := k * w.pool.blockSize, w.pool.blockSize;
            |contents| <= |tokens| && ComputedBlock(contents[a..a + B], tokens[..a + B], model)
  {
    assert BlockIsPublished(w, tokens, contents, k);
    var prefix := UpToBlock(tokens, k, w.pool.blockSize);
    assert Published(w, prefix).Some?;
  }

  lemma BlockToken(tokens: Tokens, contents: seq<KV>, a: nat, B: nat, o: nat, model: Tokens -> KV)
    requires o < B && a + B <= |contents| <= |tokens| && ComputedBlock(contents[a..a + B], tokens[..a + B], model)
    ensures contents[a + o] == model(tokens[..a + o + 1])
  {
    var block, prefix := contents[a..a + B], tokens[..a + B];
    assert block[o] == model(prefix[..|prefix| - |block| + o + 1]);
    assert prefix[..a + o + 1] == tokens[..a + o + 1];
  }

  /** In a sequence of whole blocks, the block of every token is complete. */
  lemma BlockInside(t: nat, n: nat, B: nat)
    requires B > 0 && n % B == 0 && t < n
    ensures 0 <= t / B && t == (t / B) * B + t % B && (t / B) * B + B <= n
  {
    assert t == (t / B) * B + t % B && n == (n / B) * B;
    MulOrder(t / B, n / B, B);
    MulOrder(n / B, t / B, B);
  }

  lemma PublishedComputed(contents: seq<KV>, tokens: Tokens, prefix: Tokens, a: nat, B: nat, model: Tokens -> KV)
    requires Computed(contents, tokens, model) && prefix <= tokens && |prefix| == a + B <= |contents|
    ensures ComputedBlock(contents[a..a + B], prefix, model)
  {
    var block := contents[a..a + B];
    forall o | 0 <= o < |block| ensures block[o] == model(prefix[..|prefix| - B + o + 1]) {
      assert prefix[..a + o + 1] == tokens[..a + o + 1];
    }
  }

  lemma OthersTruthful(w: World, l: Ledger, v: World, m: Ledger, r: nat, model: Tokens -> KV)
    requires WorldInv(w) && WorldInv(v) && Truthful(w, l, model)
    requires OthersRead(w, v, r) && CacheOnlyShrinks(w, v)
    requires forall x :: x in v.requests && x != r ==> x in w.requests && x in m && m[x] == l[x]
    requires r in v.requests ==> r in m && Computed(Read(v, r), m[r], model)
    ensures Truthful(v, m, model)
  {
  }

  lemma AppendTransparent(w: World, l: Ledger, v: World, m: Ledger, r: nat, values: seq<KV>, model: Tokens -> KV)
    requires WorldInv(w) && WorldInv(v) && Truthful(w, l, model)
    requires PrivateEffect(w, Append(r, values), v) && Disciplined(w, l, Append(r, values), v, m, model)
    ensures Truthful(v, m, model)
  {
    ComputedGrows(Read(w, r), l[r], values, m[r], model);
    OthersTruthful(w, l, v, m, r, model);
  }

  lemma CopyTransparent(w: World, l: Ledger, v: World, m: Ledger, r: nat, value: KV, model: Tokens -> KV)
    requires WorldInv(w) && WorldInv(v) && Truthful(w, l, model)
    requires PrivateEffect(w, CopyAppend(r, value), v) && Disciplined(w, l, CopyAppend(r, value), v, m, model)
    ensures Truthful(v, m, model)
  {
    assert m[r][..|l[r]| + 0 + 1] == m[r];
    ComputedGrows(Read(w, r), l[r], [value], m[r], model);
    OthersTruthful(w, l, v, m, r, model);
  }

  lemma AttachTransparent(w: World, l: Ledger, v: World, m: Ledger, r: nat, tokens: Tokens, model: Tokens -> KV)
    requires WorldInv(w) && WorldInv(v) && Truthful(w, l, model)
    requires PrivateEffect(w, Attach(r, tokens), v) && Disciplined(w, l, Attach(r, tokens), v, m, model)
    ensures Truthful(v, m, model)
  {
    AttachedComputed(w, l, tokens, Read(v, r), model);
    OthersTruthful(w, l, v, m, r, model);
  }

  lemma PublishTransparent(w: World, l: Ledger, v: World, r: nat, block: nat, prefix: Tokens, model: Tokens -> KV)
    requires WorldInv(w) && WorldInv(v) && Truthful(w, l, model)
    requires PrivateEffect(w, PublishBlock(r, block, prefix), v) && r in l && prefix <= l[r]
    ensures Truthful(v, l, model)
  {
    PublishedBlock(w, l, r, block, prefix, model);
    forall other | Published(v, other).Some? ensures ComputedBlock(Published(v, other).value, other, model) {
      if other != prefix {
        assert Published(w, other).Some?;
      }
    }
  }

  lemma PublishedBlock(w: World, l: Ledger, r: nat, block: nat, prefix: Tokens, model: Tokens -> KV)
    requires WorldInv(w) && Truthful(w, l, model) && r in w.requests && r in l && prefix <= l[r]
    requires |prefix| == block * w.pool.blockSize + w.pool.blockSize <= |Read(w, r)|
    ensures var B := w.pool.blockSize;
            0 <= block * B && ComputedBlock(Read(w, r)[block * B..block * B + B], prefix, model)
  {
    var a: nat := block * w.pool.blockSize;
    PublishedComputed(Read(w, r), l[r], prefix, a, w.pool.blockSize, model);
  }

  /** Requests that come, go or fork inherit the truth from the requests there were. */
  lemma LifecycleTransparent(w: World, l: Ledger, step: Step, v: World, m: Ledger, model: Tokens -> KV)
    requires WorldInv(w) && WorldInv(v) && Truthful(w, l, model)
    requires step.Create? || step.Fork? || step.Destroy?
    requires PrivateEffect(w, step, v) && Disciplined(w, l, step, v, m, model)
    ensures Truthful(v, m, model)
  {
    OthersTruthful(w, l, v, m, if step.Fork? then step.child else step.r, model);
  }

  /** Sharing is transparent: whatever is cached, evicted, forked or copied, a request reads what the
      model computes from its own tokens. */
  lemma SharingIsTransparent(w: World, l: Ledger, step: Step, v: World, m: Ledger, model: Tokens -> KV)
    requires WorldInv(w) && Next(w, step, v) && Truthful(w, l, model)
    requires Disciplined(w, l, step, v, m, model)
    ensures WorldInv(v) && Truthful(v, m, model)
  {
    StepRefines(w, step, v);
    EffectIsTransparent(w, l, step, v, m, model);
  }

  lemma EffectIsTransparent(w: World, l: Ledger, step: Step, v: World, m: Ledger, model: Tokens -> KV)
    requires WorldInv(w) && WorldInv(v) && PrivateEffect(w, step, v) && Truthful(w, l, model)
    requires Disciplined(w, l, step, v, m, model)
    ensures Truthful(v, m, model)
  {
    if step.Append? || step.CopyAppend? || step.Attach? {
      TokensTransparent(w, l, step, v, m, model);
    } else if step.PublishBlock? {
      PublishTransparent(w, l, v, step.r, step.block, step.prefix, model);
    } else {
      RestTransparent(w, l, step, v, m, model);
    }
  }

  lemma TokensTransparent(w: World, l: Ledger, step: Step, v: World, m: Ledger, model: Tokens -> KV)
    requires WorldInv(w) && WorldInv(v) && PrivateEffect(w, step, v) && Truthful(w, l, model)
    requires Disciplined(w, l, step, v, m, model) && (step.Append? || step.CopyAppend? || step.Attach?)
    ensures Truthful(v, m, model)
  {
    match step
    case Append(r, values) => AppendTransparent(w, l, v, m, r, values, model);
    case CopyAppend(r, value) => CopyTransparent(w, l, v, m, r, value, model);
    case Attach(r, tokens) => AttachTransparent(w, l, v, m, r, tokens, model);
  }

  lemma RestTransparent(w: World, l: Ledger, step: Step, v: World, m: Ledger, model: Tokens -> KV)
    requires WorldInv(w) && WorldInv(v) && PrivateEffect(w, step, v) && Truthful(w, l, model)
    requires Disciplined(w, l, step, v, m, model)
    requires !step.Append? && !step.CopyAppend? && !step.Attach? && !step.PublishBlock?
    ensures Truthful(v, m, model)
  {
    if step.Create? || step.Fork? || step.Destroy? { LifecycleTransparent(w, l, step, v, m, model); }
  }

  ghost predicate DisciplinedRun(worlds: seq<World>, steps: seq<Step>, ledgers: seq<Ledger>, model: Tokens -> KV) {
    && IsRun(worlds, steps) && |ledgers| == |worlds| && ledgers[0] == map[]
    && forall i :: 0 <= i < |steps| ==>
         Disciplined(worlds[i], ledgers[i], steps[i], worlds[i + 1], ledgers[i + 1], model)
  }

  lemma InitialTruthful(w: World, l: Ledger, model: Tokens -> KV)
    requires Initial(w) && l == map[]
    ensures WorldInv(w) && Truthful(w, l, model)
  {
    InitialInv(w);
    assert forall prefix :: Published(w, prefix).None?;
  }

  /** At every point of every disciplined run, each request reads back what the model computes from
      its own tokens, as if nothing were shared. */
  lemma {:induction false} RunIsTransparent(
      worlds: seq<World>, steps: seq<Step>, ledgers: seq<Ledger>, model: Tokens -> KV, n: nat)
    requires DisciplinedRun(worlds, steps, ledgers, model) && n < |worlds|
    ensures WorldInv(worlds[n]) && Truthful(worlds[n], ledgers[n], model)
  {
    if n == 0 {
      InitialTruthful(worlds[0], ledgers[0], model);
    } else {
      RunIsTransparent(worlds, steps, ledgers, model, n - 1);
      assert StepAt(worlds, steps, n - 1);
      SharingIsTransparent(worlds[n - 1], ledgers[n - 1], steps[n - 1], worlds[n], ledgers[n], model);
    }
  }
}
