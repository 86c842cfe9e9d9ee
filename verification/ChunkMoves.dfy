/** What a synchronous move of a chunk between tiers does to the directory and to the bytes, as values
    (src/v3/gpu_cpu_transfer.cpp, src/v3/nvme_transfer.cpp). */
module ChunkMoves {
  import opened Common
  import opened CacheDirectories
  import opened Checksums
  import opened ChunkFormat
  import opened MigrationProtocol

  // ---------------------------------------------------------------- the directory

  /** The condition under which a move may begin. */
  predicate Departs(d: Directory, key: CacheKey, source: StorageTier, destination: StorageTier) {
    source != destination && IsReady(d, key, source) && !d.HasReplica(key, destination)
  }

  /** The source is COPYING, and a destination slot is reserved. */
  function Opened(d: Directory, key: CacheKey, source: StorageTier, destination: StorageTier, arrival: ChunkState,
                  loc: Location): Directory
    requires Departs(d, key, source, destination) && CanAllocate(d.Tier(destination), loc)
  {
    Place(SetState(d, key, source, COPYING), key, destination, arrival, loc)
  }

  /** No record differs and the same slots are taken; only a free slot's generation may have moved on. */
  ghost predicate Unmoved(d: Directory, e: Directory) {
    e.records == d.records && SameTaken(d.gpu, e.gpu) && SameTaken(d.cpu, e.cpu) && SameTaken(d.nvme, e.nvme)
  }

  ghost predicate SameTaken(t: TierState, u: TierState) {
    u.taken == t.taken && |u.generations| == |t.generations|
  }

  /** The destination marked ERROR and removed. */
  function Undone(d: Directory, key: CacheKey, destination: StorageTier): Directory
    requires d.HasReplica(key, destination)
  {
    Remove(SetState(d, key, destination, ERROR), key, destination)
  }

  lemma OpenedHas(d: Directory, key: CacheKey, source: StorageTier, destination: StorageTier, arrival: ChunkState,
                  loc: Location)
    requires Departs(d, key, source, destination) && CanAllocate(d.Tier(destination), loc)
    ensures var p := Opened(d, key, source, destination, arrival, loc);
            p.HasReplica(key, destination) && Undone(p, key, destination).HasReplica(key, source)
  {
  }

  lemma OpenedThenUndone(d: Directory, key: CacheKey, source: StorageTier, destination: StorageTier,
                         arrival: ChunkState, loc: Location)
    requires Departs(d, key, source, destination) && CanAllocate(d.Tier(destination), loc)
    ensures var p := Opened(d, key, source, destination, arrival, loc);
            && p.HasReplica(key, destination) && Undone(p, key, destination).HasReplica(key, source)
            && Unmoved(d, SetState(Undone(p, key, destination), key, source, READY))
  {
    OpenedHas(d, key, source, destination, arrival, loc);
    UndoneTiers(d, key, source, destination, arrival, loc);
    UndoneRecords(d, key, source, destination, arrival, loc);
  }

  lemma UndoneTiers(d: Directory, key: CacheKey, source: StorageTier, destination: StorageTier, arrival: ChunkState,
                    loc: Location)
    requires Departs(d, key, source, destination) && CanAllocate(d.Tier(destination), loc)
    ensures var p := Opened(d, key, source, destination, arrival, loc);
            p.HasReplica(key, destination) && forall t :: SameTaken(d.Tier(t), Undone(p, key, destination).Tier(t))
  {
    OpenedHas(d, key, source, destination, arrival, loc);
    var u := Undone(Opened(d, key, source, destination, arrival, loc), key, destination);
    FreedAgain(d.Tier(destination), loc);
    assert u.Tier(destination) == Freed(Allocated(d.Tier(destination), loc), loc.slot);
    assert forall t :: t != destination ==> u.Tier(t) == d.Tier(t);
  }

  lemma FreedAgain(t: TierState, loc: Location)
    requires CanAllocate(t, loc)
    ensures SameTaken(t, Freed(Allocated(t, loc), loc.slot))
  {
    assert (t.taken + {loc.slot}) - {loc.slot} == t.taken;
  }

  lemma UndoneRecords(d: Directory, key: CacheKey, source: StorageTier, destination: StorageTier, arrival: ChunkState,
                      loc: Location)
    requires Departs(d, key, source, destination) && CanAllocate(d.Tier(destination), loc)
    ensures var p := Opened(d, key, source, destination, arrival, loc);
            && p.HasReplica(key, destination) && Undone(p, key, destination).HasReplica(key, source)
            && SetState(Undone(p, key, destination), key, source, READY).records == d.records
  {
    OpenedHas(d, key, source, destination, arrival, loc);
    var u := Undone(Opened(d, key, source, destination, arrival, loc), key, destination);
    var r := d.records[key];
    ReplicasBack(r.replicas, source, destination, arrival, loc);
    assert u.records[key].replicas[source := u.records[key].replicas[source].(state := READY)] == r.replicas;
    assert u.records == d.records[key := u.records[key]];
  }

  /** Marked, entered, taken out and marked back: the replicas there were. */
  lemma ReplicasBack(m: map<StorageTier, Replica>, source: StorageTier, destination: StorageTier, arrival: ChunkState,
                     loc: Location)
    requires source in m && m[source].state == READY && destination !in m
    ensures var u := m[source := m[source].(state := COPYING)][destination := Replica(loc, arrival)]
                      [destination := Replica(loc, ERROR)] - {destination};
            source in u && u[source := u[source].(state := READY)] == m
  {
  }

  /** The chunk's replicas once the move is over. */
  function Arrived(d: Directory, key: CacheKey, source: StorageTier, destination: StorageTier, loc: Location,
                   released: bool): map<StorageTier, Replica>
    requires d.HasReplica(key, source)
  {
    var r := d.records[key].replicas;
    var both := r[source := r[source].(state := READY)][destination := Replica(loc, READY)];
    if released then both - {source} else both
  }

  // ---------------------------------------------------------------- the bytes

  datatype Bytes = Bytes(gpu: seq<Payload>, cpu: seq<Payload>, files: map<nat, seq<Byte>>)

  function DTypeNumber(t: DType): nat {
    match t
    case Float16 => 0
    case BFloat16 => 1
    case Float32 => 2
  }

  /** The identity a chunk file carries. */
  function FileMeta(key: CacheKey, validTokens: nat, size: nat): Meta {
    Meta(key.modelId, key.layoutVersion, DTypeNumber(key.dtype), key.firstLayer, key.lastLayer, key.prefixHash,
         key.prefix, validTokens, size)
  }

  ghost predicate KeyFits(key: CacheKey) {
    MetaOk(FileMeta(key, 0, 0))
  }

  /** Slot `slot` of tier `t` holds the bytes `p` of the chunk `key`. */
  ghost predicate Holds(b: Bytes, key: CacheKey, t: StorageTier, slot: nat, p: Payload) {
    match t
    case GPU => slot < |b.gpu| && b.gpu[slot] == p
    case CPU => slot < |b.cpu| && b.cpu[slot] == p
    case NVME => slot in b.files && IsFileOf(b.files[slot], key, p)
  }

  ghost predicate IsFileOf(file: seq<Byte>, key: CacheKey, p: Payload) {
    exists valid: nat :: valid < TWO64 && file == FileOf(FileMeta(key, valid, |p|), p)
  }

  ghost predicate ReplicaHolds(d: Directory, b: Bytes, key: CacheKey, t: StorageTier, p: Payload) {
    d.HasReplica(key, t) && Holds(b, key, t, d.ReplicaOf(key, t).location.slot, p)
  }

  /** Every READY replica of every chunk holds that chunk's bytes. */
  ghost predicate Intact(d: Directory, b: Bytes, truth: map<CacheKey, Payload>) {
    forall key, t :: key in truth && IsReady(d, key, t) ==> ReplicaHolds(d, b, key, t, truth[key])
  }

  /** No slot in `taken` differs. */
  ghost predicate Untouched(before: seq<Payload>, after: seq<Payload>, taken: set<nat>) {
    |after| == |before| && forall i: nat :: i < |before| && i in taken ==> after[i] == before[i]
  }

  ghost predicate FilesUntouched(before: map<nat, seq<Byte>>, after: map<nat, seq<Byte>>, taken: set<nat>) {
    forall i: nat :: i in taken && i in before ==> i in after && after[i] == before[i]
  }

  ghost predicate BytesUntouched(d: Directory, b: Bytes, c: Bytes) {
    && Untouched(b.gpu, c.gpu, d.gpu.taken) && Untouched(b.cpu, c.cpu, d.cpu.taken)
    && FilesUntouched(b.files, c.files, d.nvme.taken)
  }

  /** Whatever a replica holds it still holds when only free slots have been written. */
  lemma StillHolds(d: Directory, b: Bytes, c: Bytes, key: CacheKey, t: StorageTier, p: Payload)
    requires ReplicasLive(d) && BytesUntouched(d, b, c) && ReplicaHolds(d, b, key, t, p)
    ensures ReplicaHolds(d, c, key, t, p)
  {
    assert IsLive(d.Tier(t), d.ReplicaOf(key, t).location);
  }

  ghost predicate OtherRecordsAlike(d: Directory, e: Directory, key: CacheKey) {
    forall k :: k != key ==> (k in e.records <==> k in d.records) && (k in d.records ==> e.records[k] == d.records[k])
  }

  /** A move keeps everyone's bytes if it writes only free slots and what `key` has READY afterwards is right. */
  lemma MoveKeepsIntact(d: Directory, b: Bytes, e: Directory, c: Bytes, key: CacheKey, truth: map<CacheKey, Payload>)
    requires ReplicasLive(d) && Intact(d, b, truth) && BytesUntouched(d, b, c) && OtherRecordsAlike(d, e, key)
    requires forall t :: key in truth && IsReady(e, key, t) ==> ReplicaHolds(e, c, key, t, truth[key])
    ensures Intact(e, c, truth)
  {
    forall k, t | k in truth && IsReady(e, k, t) ensures ReplicaHolds(e, c, k, t, truth[k]) {
      if k != key { OtherHolds(d, b, e, c, key, truth, k, t); }
    }
  }

  lemma OtherHolds(d: Directory, b: Bytes, e: Directory, c: Bytes, key: CacheKey, truth: map<CacheKey, Payload>,
                   k: CacheKey, t: StorageTier)
    requires ReplicasLive(d) && Intact(d, b, truth) && BytesUntouched(d, b, c) && OtherRecordsAlike(d, e, key)
    requires k != key && k in truth && IsReady(e, k, t)
    ensures ReplicaHolds(e, c, k, t, truth[k])
  {
    assert IsReady(d, k, t);
    StillHolds(d, b, c, k, t, truth[k]);
  }

  lemma UnmovedKeepsIntact(d: Directory, b: Bytes, e: Directory, c: Bytes, truth: map<CacheKey, Payload>)
    requires ReplicasLive(d) && Intact(d, b, truth) && BytesUntouched(d, b, c) && Unmoved(d, e)
    ensures Intact(e, c, truth)
  {
    forall k, t | k in truth && IsReady(e, k, t) ensures ReplicaHolds(e, c, k, t, truth[k]) {
      assert IsReady(d, k, t);
      StillHolds(d, b, c, k, t, truth[k]);
    }
  }

  /** A replica after the move is the new one, or one that was there, at its old place. */
  lemma ArrivedAt(d: Directory, key: CacheKey, source: StorageTier, destination: StorageTier, loc: Location,
                  released: bool, t: StorageTier)
    requires d.HasReplica(key, source) && t in Arrived(d, key, source, destination, loc, released)
    ensures var after := Arrived(d, key, source, destination, loc, released)[t];
            if t == destination then after == Replica(loc, READY)
            else d.HasReplica(key, t) && after.location == d.ReplicaOf(key, t).location
                 && (t == source || after == d.ReplicaOf(key, t))
  {
  }

  lemma OwnStillHolds(d: Directory, b: Bytes, e: Directory, c: Bytes, key: CacheKey, source: StorageTier,
                      destination: StorageTier, loc: Location, released: bool, t: StorageTier, p: Payload)
    requires ReplicasLive(d) && BytesUntouched(d, b, c) && IsReady(e, key, t)
    requires ReplicaHolds(d, b, key, source, p) && (IsReady(d, key, t) ==> ReplicaHolds(d, b, key, t, p))
    requires e.records[key].replicas == Arrived(d, key, source, destination, loc, released)
    requires Holds(c, key, destination, loc.slot, p)
    ensures ReplicaHolds(e, c, key, t, p)
  {
    ArrivedAt(d, key, source, destination, loc, released, t);
    if t != destination { StillHolds(d, b, c, key, t, p); }
  }

  /** The chunk's own replicas after a finished move: the destination holds what the source held. */
  lemma ArrivedHolds(d: Directory, b: Bytes, e: Directory, c: Bytes, key: CacheKey, source: StorageTier,
                     destination: StorageTier, loc: Location, released: bool, truth: map<CacheKey, Payload>)
    requires ReplicasLive(d) && Intact(d, b, truth) && BytesUntouched(d, b, c)
    requires d.HasReplica(key, source) && (key in truth ==> ReplicaHolds(d, b, key, source, truth[key]))
    requires OtherRecordsAlike(d, e, key) && key in e.records && source != destination
    requires e.records[key].replicas == Arrived(d, key, source, destination, loc, released)
    requires key in truth ==> Holds(c, key, destination, loc.slot, truth[key])
    ensures Intact(e, c, truth) && IsReady(e, key, destination)
  {
    forall t | key in truth && IsReady(e, key, t) ensures ReplicaHolds(e, c, key, t, truth[key]) {
      OwnStillHolds(d, b, e, c, key, source, destination, loc, released, t, truth[key]);
    }
    MoveKeepsIntact(d, b, e, c, key, truth);
  }

  // ---------------------------------------------------------------- moves begun and not yet finished

  datatype PendingMove = PendingMove(source: Location, destination: Location, offload: bool)
  {
    function From(): StorageTier { if offload then GPU else CPU }

    function To(): StorageTier { if offload then CPU else GPU }

    function Arriving(): ChunkState { if offload then COPYING else LOADING }
  }

  /** Both replicas are where the move left them, neither is READY, and the chunk is pinned. */
  ghost predicate UnderWay(d: Directory, key: CacheKey, p: PendingMove) {
    && key in d.records && d.records[key].pinCount > 0
    && p.From() in d.records[key].replicas && d.records[key].replicas[p.From()] == Replica(p.source, COPYING)
    && p.To() in d.records[key].replicas && d.records[key].replicas[p.To()] == Replica(p.destination, p.Arriving())
  }

  ghost predicate AllUnderWay(d: Directory, pending: map<CacheKey, PendingMove>) {
    forall key :: key in pending ==> UnderWay(d, key, pending[key])
  }

  /** What is being moved is still there to be moved. */
  ghost predicate Carried(d: Directory, b: Bytes, pending: map<CacheKey, PendingMove>, truth: map<CacheKey, Payload>) {
    forall key :: key in pending && key in truth ==> ReplicaHolds(d, b, key, pending[key].From(), truth[key])
  }

  lemma OthersStayUnderWay(d: Directory, b: Bytes, e: Directory, c: Bytes, key: CacheKey,
                           pending: map<CacheKey, PendingMove>, truth: map<CacheKey, Payload>)
    requires ReplicasLive(d) && AllUnderWay(d, pending) && Carried(d, b, pending, truth)
    requires OtherRecordsAlike(d, e, key) && BytesUntouched(d, b, c)
    ensures AllUnderWay(e, pending - {key}) && Carried(e, c, pending - {key}, truth)
  {
    forall k | k in pending - {key} && k in truth ensures ReplicaHolds(e, c, k, pending[k].From(), truth[k]) {
      StillHolds(d, b, c, k, pending[k].From(), truth[k]);
    }
  }

  lemma UnmovedStayUnderWay(d: Directory, b: Bytes, e: Directory, c: Bytes, pending: map<CacheKey, PendingMove>,
                            truth: map<CacheKey, Payload>)
    requires ReplicasLive(d) && AllUnderWay(d, pending) && Carried(d, b, pending, truth)
    requires Unmoved(d, e) && BytesUntouched(d, b, c)
    ensures AllUnderWay(e, pending) && Carried(e, c, pending, truth)
  {
    forall k | k in pending && k in truth ensures ReplicaHolds(e, c, k, pending[k].From(), truth[k]) {
      StillHolds(d, b, c, k, pending[k].From(), truth[k]);
    }
  }

  /** The directory without the replica that is on its way. */
  function Ashore(d: Directory, key: CacheKey, p: PendingMove): Directory
    requires d.HasReplica(key, p.To())
  {
    Remove(d, key, p.To())
  }

  lemma AshoreIsSound(d: Directory, b: Bytes, key: CacheKey, p: PendingMove, pending: map<CacheKey, PendingMove>,
                      truth: map<CacheKey, Payload>)
    requires DirectoryInv(d) && Intact(d, b, truth) && AllUnderWay(d, pending) && Carried(d, b, pending, truth)
    requires key in pending && p == pending[key]
    ensures d.HasReplica(key, p.To()) && d.HasReplica(key, p.From())
    ensures var a := Ashore(d, key, p);
            && DirectoryInv(a) && Intact(a, b, truth) && a.HasReplica(key, p.From())
            && AllUnderWay(a, pending - {key}) && Carried(a, b, pending - {key}, truth)
            && OtherRecordsAlike(d, a, key) && a.records[key].replicas == d.records[key].replicas - {p.To()}
            && p.destination.slot !in a.Tier(p.To()).taken
            && (key in truth ==> ReplicaHolds(a, b, key, p.From(), truth[key]))
  {
    assert UnderWay(d, key, p);
    RemoveKeepsInv(d, key, p.To());
    AshoreIsIntact(d, b, key, p, truth);
    AshoreCarries(d, b, key, p, pending, truth);
    assert key in truth ==> ReplicaHolds(d, b, key, p.From(), truth[key]);
  }

  lemma AshoreIsIntact(d: Directory, b: Bytes, key: CacheKey, p: PendingMove, truth: map<CacheKey, Payload>)
    requires Intact(d, b, truth) && d.HasReplica(key, p.To())
    ensures Intact(Ashore(d, key, p), b, truth)
  {
    var a := Ashore(d, key, p);
    forall k, t | k in truth && IsReady(a, k, t) ensures ReplicaHolds(a, b, k, t, truth[k]) {
      assert IsReady(d, k, t) && ReplicaHolds(d, b, k, t, truth[k]);
    }
  }

  lemma AshoreCarries(d: Directory, b: Bytes, key: CacheKey, p: PendingMove, pending: map<CacheKey, PendingMove>,
                      truth: map<CacheKey, Payload>)
    requires AllUnderWay(d, pending) && Carried(d, b, pending, truth) && d.HasReplica(key, p.To())
    ensures AllUnderWay(Ashore(d, key, p), pending - {key}) && Carried(Ashore(d, key, p), b, pending - {key}, truth)
  {
    var a := Ashore(d, key, p);
    forall k | k in pending - {key} ensures UnderWay(a, k, pending[k]) {
      assert UnderWay(d, k, pending[k]);
    }
    forall k | k in pending - {key} && k in truth ensures ReplicaHolds(a, b, k, pending[k].From(), truth[k]) {
      assert ReplicaHolds(d, b, k, pending[k].From(), truth[k]);
    }
  }

  // ---------------------------------------------------------------- everything together

  /** The directory, the bytes and the pending moves agree (folded). */
  ghost predicate Sane(d: Directory, b: Bytes, pending: map<CacheKey, PendingMove>, truth: map<CacheKey, Payload>) {
    forall t {:trigger Unseal(t)} :: t == d ==>
      DirectoryInv(t) && Intact(t, b, truth) && AllUnderWay(t, pending) && Carried(t, b, pending, truth)
  }

  lemma Unfold(d: Directory, b: Bytes, pending: map<CacheKey, PendingMove>, truth: map<CacheKey, Payload>)
    requires Sane(d, b, pending, truth)
    ensures DirectoryInv(d) && Intact(d, b, truth) && AllUnderWay(d, pending) && Carried(d, b, pending, truth)
  {
    assert Unseal(d);
  }

  lemma Fold(d: Directory, b: Bytes, pending: map<CacheKey, PendingMove>, truth: map<CacheKey, Payload>)
    requires DirectoryInv(d) && Intact(d, b, truth) && AllUnderWay(d, pending) && Carried(d, b, pending, truth)
    ensures Sane(d, b, pending, truth)
  {
  }

  lemma NothingUnderWay(d: Directory, b: Bytes, truth: map<CacheKey, Payload>)
    requires DirectoryInv(d) && Intact(d, b, truth)
    ensures Sane(d, b, map[], truth)
  {
    Fold(d, b, map[], truth);
  }

  lemma UnmovedIsSane(d: Directory, b: Bytes, e: Directory, c: Bytes, pending: map<CacheKey, PendingMove>,
                      truth: map<CacheKey, Payload>)
    requires Sane(d, b, pending, truth) && DirectoryInv(e) && Unmoved(d, e) && BytesUntouched(d, b, c)
    ensures Sane(e, c, pending, truth)
  {
    Unfold(d, b, pending, truth);
    UnmovedKeepsIntact(d, b, e, c, truth);
    UnmovedStayUnderWay(d, b, e, c, pending, truth);
    Fold(e, c, pending, truth);
  }

  function Begun(d: Directory, key: CacheKey, p: PendingMove): Directory
    requires Departs(d, key, p.From(), p.To()) && CanAllocate(d.Tier(p.To()), p.destination)
  {
    SetPins(Opened(d, key, p.From(), p.To(), p.Arriving(), p.destination), key, d.records[key].pinCount + 1)
  }

  ghost predicate BeginsWith(d: Directory, e: Directory, key: CacheKey, p: PendingMove) {
    Departs(d, key, p.From(), p.To()) && CanAllocate(d.Tier(p.To()), p.destination) && e == Begun(d, key, p)
  }

  lemma BegunIsSane(d: Directory, b: Bytes, key: CacheKey, p: PendingMove, pending: map<CacheKey, PendingMove>,
                     truth: map<CacheKey, Payload>)
    requires Sane(d, b, pending, truth)
    requires key !in pending && Departs(d, key, p.From(), p.To()) && CanAllocate(d.Tier(p.To()), p.destination)
    requires p.source == d.ReplicaOf(key, p.From()).location
    requires DirectoryInv(Begun(d, key, p))
    ensures Sane(Begun(d, key, p), b, pending[key := p], truth)
  {
    Unfold(d, b, pending, truth);
    BegunIntact(d, b, key, p, truth);
    BegunUnderWay(d, b, key, p, pending, truth);
    Fold(Begun(d, key, p), b, pending[key := p], truth);
  }

  lemma BegunUnderWay(d: Directory, b: Bytes, key: CacheKey, p: PendingMove, pending: map<CacheKey, PendingMove>,
                      truth: map<CacheKey, Payload>)
    requires ReplicasLive(d) && Intact(d, b, truth) && AllUnderWay(d, pending) && Carried(d, b, pending, truth)
    requires key !in pending && Departs(d, key, p.From(), p.To()) && CanAllocate(d.Tier(p.To()), p.destination)
    requires p.source == d.ReplicaOf(key, p.From()).location
    ensures AllUnderWay(Begun(d, key, p), pending[key := p]) && Carried(Begun(d, key, p), b, pending[key := p], truth)
  {
    var e := Begun(d, key, p);
    BegunRecords(d, key, p);
    assert key in truth ==> ReplicaHolds(d, b, key, p.From(), truth[key]);
    OthersStayUnderWay(d, b, e, b, key, pending, truth);
    assert pending[key := p] - {key} == pending - {key};
    assert UnderWay(e, key, p);
  }

  lemma BegunIntact(d: Directory, b: Bytes, key: CacheKey, p: PendingMove, truth: map<CacheKey, Payload>)
    requires ReplicasLive(d) && Intact(d, b, truth)
    requires Departs(d, key, p.From(), p.To()) && CanAllocate(d.Tier(p.To()), p.destination)
    ensures Intact(Begun(d, key, p), b, truth)
  {
    var e := Begun(d, key, p);
    BegunRecords(d, key, p);
    forall t | key in truth && IsReady(e, key, t) ensures ReplicaHolds(e, b, key, t, truth[key]) {
      BegunReady(d, key, p, t);
      assert ReplicaHolds(d, b, key, t, truth[key]);
    }
    MoveKeepsIntact(d, b, e, b, key, truth);
  }

  /** What is READY while the move is under way was READY before, at the same place. */
  lemma BegunReady(d: Directory, key: CacheKey, p: PendingMove, t: StorageTier)
    requires Departs(d, key, p.From(), p.To()) && CanAllocate(d.Tier(p.To()), p.destination)
             && IsReady(Begun(d, key, p), key, t)
    ensures IsReady(d, key, t) && Begun(d, key, p).ReplicaOf(key, t) == d.ReplicaOf(key, t)
  {
    BegunRecords(d, key, p);
  }

  lemma BegunRecords(d: Directory, key: CacheKey, p: PendingMove)
    requires Departs(d, key, p.From(), p.To()) && CanAllocate(d.Tier(p.To()), p.destination)
    ensures var e := Begun(d, key, p);
            && OtherRecordsAlike(d, e, key) && key in e.records && e.records[key].pinCount > 0
            && e.records[key].replicas
              == d.records[key].replicas[p.From() := d.ReplicaOf(key, p.From()).(state := COPYING)]
                                            [p.To() := Replica(p.destination, p.Arriving())]
  {
  }

  lemma SpoiledIntact(d: Directory, b: Bytes, c: Bytes, key: CacheKey, p: PendingMove, truth: map<CacheKey, Payload>)
    requires UnderWay(d, key, p) && ReplicasLive(Ashore(d, key, p)) && Intact(Ashore(d, key, p), b, truth)
    requires BytesUntouched(Ashore(d, key, p), b, c)
    ensures Intact(d, c, truth)
  {
    var a := Ashore(d, key, p);
    forall k, t | k in truth && IsReady(d, k, t) ensures ReplicaHolds(d, c, k, t, truth[k]) {
      assert IsReady(a, k, t);
      StillHolds(a, b, c, k, t, truth[k]);
    }
  }

  lemma SpoiledIsSane(d: Directory, b: Bytes, c: Bytes, key: CacheKey, p: PendingMove,
                      pending: map<CacheKey, PendingMove>, truth: map<CacheKey, Payload>)
    requires Sane(d, b, pending, truth)
    requires key in pending && p == pending[key] && d.HasReplica(key, p.To()) && BytesUntouched(Ashore(d, key, p), b, c)
    ensures Sane(d, c, pending, truth)
  {
    Unfold(d, b, pending, truth);
    AshoreIsSound(d, b, key, p, pending, truth);
    var a := Ashore(d, key, p);
    SpoiledIntact(d, b, c, key, p, truth);
    forall k | k in pending && k in truth ensures ReplicaHolds(d, c, k, pending[k].From(), truth[k]) {
      assert ReplicaHolds(a, b, k, pending[k].From(), truth[k]);
      StillHolds(a, b, c, k, pending[k].From(), truth[k]);
    }
    Fold(d, c, pending, truth);
  }

  lemma FinishedIsSane(d: Directory, b: Bytes, e: Directory, c: Bytes, key: CacheKey, p: PendingMove, released: bool,
                        pending: map<CacheKey, PendingMove>, truth: map<CacheKey, Payload>)
    requires Sane(d, b, pending, truth) && DirectoryInv(e)
    requires key in pending && p == pending[key] && d.HasReplica(key, p.To()) && BytesUntouched(Ashore(d, key, p), b, c)
    requires OtherRecordsAlike(d, e, key) && key in e.records && d.HasReplica(key, p.From())
    requires e.records[key].replicas == Arrived(d, key, p.From(), p.To(), p.destination, released)
    requires key in truth && Holds(b, key, p.From(), p.source.slot, truth[key]) ==>
               Holds(c, key, p.To(), p.destination.slot, truth[key])
    ensures Sane(e, c, pending - {key}, truth)
  {
    Unfold(d, b, pending, truth);
    AshoreIsSound(d, b, key, p, pending, truth);
    assert UnderWay(d, key, p);
    var a := Ashore(d, key, p);
    assert Arrived(a, key, p.From(), p.To(), p.destination, released)
             == Arrived(d, key, p.From(), p.To(), p.destination, released);
    ArrivedHolds(a, b, e, c, key, p.From(), p.To(), p.destination, released, truth);
    OthersStayUnderWay(a, b, e, c, key, pending - {key}, truth);
    assert pending - {key} - {key} == pending - {key};
    Fold(e, c, pending - {key}, truth);
  }

  /** The chunk has arrived and its pin is given back; nobody else's record differs. */
  ghost predicate Concluded(d: Directory, e: Directory, key: CacheKey, p: PendingMove, released: bool) {
    && OtherRecordsAlike(d, e, key) && d.HasReplica(key, p.From()) && key in e.records && d.records[key].pinCount > 0
    && e.records[key] == d.records[key].(pinCount := d.records[key].pinCount - 1,
                                         replicas := Arrived(d, key, p.From(), p.To(), p.destination, released))
    && |e.gpu.generations| == |d.gpu.generations| && |e.cpu.generations| == |d.cpu.generations|
  }

  /** No byte differs outside the move's destination slot. */
  ghost predicate OnlySlot(gpu: seq<Payload>, cpu: seq<Payload>, gpuAfter: seq<Payload>, cpuAfter: seq<Payload>,
                           p: PendingMove) {
    && |gpuAfter| == |gpu| && |cpuAfter| == |cpu|
    && (forall i :: 0 <= i < |gpu| && (p.offload || i != p.destination.slot) ==> gpuAfter[i] == gpu[i])
    && (forall i :: 0 <= i < |cpu| && (!p.offload || i != p.destination.slot) ==> cpuAfter[i] == cpu[i])
  }

  lemma PendingFits(d: Directory, b: Bytes, key: CacheKey, pending: map<CacheKey, PendingMove>,
                    truth: map<CacheKey, Payload>)
    requires Sane(d, b, pending, truth) && key in pending
    ensures var p := pending[key];
            UnderWay(d, key, p) && IsLive(d.Tier(p.From()), p.source) && IsLive(d.Tier(p.To()), p.destination)
  {
    Unfold(d, b, pending, truth);
    var p := pending[key];
    assert UnderWay(d, key, p);
    assert d.HasReplica(key, p.From()) && d.HasReplica(key, p.To());
  }

  lemma BothReadyRecords(d: Directory, key: CacheKey, p: PendingMove)
    requires UnderWay(d, key, p)
    ensures d.HasReplica(key, p.From()) && d.HasReplica(key, p.To())
    ensures var e := SetState(SetState(d, key, p.To(), READY), key, p.From(), READY);
            e == d.WithRecord(key, d.records[key].(replicas := Arrived(d, key, p.From(), p.To(), p.destination, false)))
  {
    var r := d.records[key].replicas;
    assert r[p.To() := Replica(p.destination, READY)][p.From() := Replica(p.source, READY)]
        == r[p.From() := Replica(p.source, READY)][p.To() := Replica(p.destination, READY)];
    var e := SetState(SetState(d, key, p.To(), READY), key, p.From(), READY);
    assert e.records[key].replicas == Arrived(d, key, p.From(), p.To(), p.destination, false);
    assert e.records
             == d.records[key := d.records[key].(replicas := Arrived(d, key, p.From(), p.To(), p.destination, false))];
  }

  /** Both replicas READY and the pin returned. */
  function Settled(d: Directory, key: CacheKey, p: PendingMove): Directory
    requires d.HasReplica(key, p.From()) && d.HasReplica(key, p.To()) && d.records[key].pinCount > 0
  {
    SetPins(SetState(SetState(d, key, p.To(), READY), key, p.From(), READY), key, d.records[key].pinCount - 1)
  }

  lemma ConcludedKept(d: Directory, key: CacheKey, p: PendingMove)
    requires UnderWay(d, key, p)
    ensures d.HasReplica(key, p.From()) && d.HasReplica(key, p.To()) && Concluded(d, Settled(d, key, p), key, p, false)
  {
    BothReadyRecords(d, key, p);
  }

  lemma ConcludedReleased(d: Directory, key: CacheKey, p: PendingMove)
    requires UnderWay(d, key, p)
    ensures d.HasReplica(key, p.From()) && d.HasReplica(key, p.To()) && Removable(Settled(d, key, p), key, p.From())
    ensures Concluded(d, Remove(Settled(d, key, p), key, p.From()), key, p, true)
  {
    ConcludedKept(d, key, p);
    var s := Settled(d, key, p);
    var e := Remove(s, key, p.From());
    assert Arrived(d, key, p.From(), p.To(), p.destination, true)
             == Arrived(d, key, p.From(), p.To(), p.destination, false) - {p.From()};
  }

  lemma OnlySlotLeavesAshore(d: Directory, b: Bytes, c: Bytes, key: CacheKey, p: PendingMove)
    requires UnderWay(d, key, p) && OnlySlot(b.gpu, b.cpu, c.gpu, c.cpu, p) && c.files == b.files
    ensures d.HasReplica(key, p.To()) && BytesUntouched(Ashore(d, key, p), b, c)
  {
  }

  lemma SpoiledSlotIsSane(d: Directory, b: Bytes, c: Bytes, key: CacheKey, p: PendingMove,
                          pending: map<CacheKey, PendingMove>, truth: map<CacheKey, Payload>)
    requires Sane(d, b, pending, truth) && key in pending && p == pending[key]
    requires UnderWay(d, key, p) && OnlySlot(b.gpu, b.cpu, c.gpu, c.cpu, p) && c.files == b.files
    ensures Sane(d, c, pending, truth)
  {
    OnlySlotLeavesAshore(d, b, c, key, p);
    SpoiledIsSane(d, b, c, key, p, pending, truth);
  }

  lemma DeliveredIsSane(d: Directory, b: Bytes, e: Directory, c: Bytes, key: CacheKey, p: PendingMove, released: bool,
                        pending: map<CacheKey, PendingMove>, truth: map<CacheKey, Payload>)
    requires Sane(d, b, pending, truth) && DirectoryInv(e) && key in pending && p == pending[key]
    requires UnderWay(d, key, p) && OnlySlot(b.gpu, b.cpu, c.gpu, c.cpu, p) && c.files == b.files
    requires Concluded(d, e, key, p, released)
    requires p.destination.slot < (if p.offload then |c.cpu| else |c.gpu|)
    requires p.source.slot < (if p.offload then |c.gpu| else |c.cpu|)
    requires if p.offload then c.cpu[p.destination.slot] == c.gpu[p.source.slot]
             else c.gpu[p.destination.slot] == c.cpu[p.source.slot]
    ensures Sane(e, c, pending - {key}, truth)
  {
    OnlySlotLeavesAshore(d, b, c, key, p);
    FinishedIsSane(d, b, e, c, key, p, released, pending, truth);
  }

  // ---------------------------------------------------------------- moves in one call

  /** The chunk has gained a READY replica at `loc`; nobody else's record differs, and no slot was lost. Folded, all but
      the sizes. */
  ghost predicate Gained(d: Directory, e: Directory, key: CacheKey, source: StorageTier, destination: StorageTier,
                         loc: Location, released: bool) {
    SameSizes(d, e) && forall t {:trigger Unseal(t)} :: t == e ==> Gains(d, t, key, source, destination, loc, released)
  }

  ghost predicate Gains(d: Directory, e: Directory, key: CacheKey, source: StorageTier, destination: StorageTier,
                        loc: Location, released: bool) {
    && Departs(d, key, source, destination) && CanAllocate(d.Tier(destination), loc)
    && OtherRecordsAlike(d, e, key) && key in e.records
    && e.records[key] == d.records[key].(replicas := Arrived(d, key, source, destination, loc, released))
  }

  lemma UnfoldGained(d: Directory, e: Directory, key: CacheKey, source: StorageTier, destination: StorageTier,
                     loc: Location, released: bool)
    requires Gained(d, e, key, source, destination, loc, released)
    ensures Gains(d, e, key, source, destination, loc, released)
  {
    assert Unseal(e);
  }

  lemma FoldGained(d: Directory, e: Directory, key: CacheKey, source: StorageTier, destination: StorageTier,
                   loc: Location, released: bool)
    requires SameSizes(d, e) && Gains(d, e, key, source, destination, loc, released)
    ensures Gained(d, e, key, source, destination, loc, released)
  {
  }

  ghost predicate SameSizes(d: Directory, e: Directory) {
    && |e.gpu.generations| == |d.gpu.generations| && |e.cpu.generations| == |d.cpu.generations|
    && |e.nvme.generations| == |d.nvme.generations|
  }

  /** Both replicas READY after `Opened`. */
  function Joined(d: Directory, key: CacheKey, source: StorageTier, destination: StorageTier, arrival: ChunkState,
                  loc: Location): Directory
    requires Departs(d, key, source, destination) && CanAllocate(d.Tier(destination), loc)
  {
    var o := Opened(d, key, source, destination, arrival, loc);
    SetState(SetState(o, key, destination, READY), key, source, READY)
  }

  lemma JoinedGained(d: Directory, key: CacheKey, source: StorageTier, destination: StorageTier, arrival: ChunkState,
                     loc: Location)
    requires Departs(d, key, source, destination) && CanAllocate(d.Tier(destination), loc)
    ensures var o := Opened(d, key, source, destination, arrival, loc);
            o.HasReplica(key, source) && o.HasReplica(key, destination)
    ensures Gained(d, Joined(d, key, source, destination, arrival, loc), key, source, destination, loc, false)
  {
    var e := Joined(d, key, source, destination, arrival, loc);
    assert e.records[key].replicas == Arrived(d, key, source, destination, loc, false);
    FoldGained(d, e, key, source, destination, loc, false);
  }

  lemma GainedThenRemoved(d: Directory, e: Directory, key: CacheKey, source: StorageTier, destination: StorageTier,
                          loc: Location)
    requires Gained(d, e, key, source, destination, loc, false)
    ensures Removable(e, key, source) && Gained(d, Remove(e, key, source), key, source, destination, loc, true)
  {
    UnfoldGained(d, e, key, source, destination, loc, false);
    RemovedGains(d, e, key, source, destination, loc);
    FoldGained(d, Remove(e, key, source), key, source, destination, loc, true);
  }

  lemma RemovedGains(d: Directory, e: Directory, key: CacheKey, source: StorageTier, destination: StorageTier,
                     loc: Location)
    requires SameSizes(d, e) && Gains(d, e, key, source, destination, loc, false)
    ensures Removable(e, key, source) && SameSizes(d, Remove(e, key, source))
    ensures Gains(d, Remove(e, key, source), key, source, destination, loc, true)
  {
    assert Arrived(d, key, source, destination, loc, true)
             == Arrived(d, key, source, destination, loc, false) - {source};
  }

  /** Deleting the file of a replica that is about to go touches no slot that stays owned. */
  lemma ErasedUntouched(d: Directory, e: Directory, b: Bytes, c: Bytes, key: CacheKey, loc: Location)
    requires Gained(d, e, key, NVME, CPU, loc, false)
    requires d.HasReplica(key, NVME) && c == b.(files := b.files - {d.ReplicaOf(key, NVME).location.slot})
    ensures e.HasReplica(key, NVME) && BytesUntouched(Remove(e, key, NVME), b, c)
  {
    UnfoldGained(d, e, key, NVME, CPU, loc, false);
    GainedThenRemoved(d, e, key, NVME, CPU, loc);
  }

  /** A chunk under way between GPU and CPU has no replica a move by way of files could start or end with. */
  lemma FileMovesAvoidPending(d: Directory, key: CacheKey, source: StorageTier, destination: StorageTier,
                              pending: map<CacheKey, PendingMove>)
    requires AllUnderWay(d, pending) && Departs(d, key, source, destination) && (source == CPU || destination == CPU)
    ensures key !in pending
  {
    forall k | k in pending ensures k != key {
      assert UnderWay(d, k, pending[k]);
    }
  }

  lemma GainedIsSane(d: Directory, b: Bytes, e: Directory, c: Bytes, key: CacheKey, source: StorageTier,
                     destination: StorageTier, loc: Location, pending: map<CacheKey, PendingMove>,
                     truth: map<CacheKey, Payload>)
    requires Sane(d, b, pending, truth) && DirectoryInv(e) && Gained(d, e, key, source, destination, loc, false)
    requires BytesUntouched(d, b, c) && (source == CPU || destination == CPU)
    requires key in truth && ReplicaHolds(d, b, key, source, truth[key]) ==>
               Holds(c, key, destination, loc.slot, truth[key])
    ensures Sane(e, c, pending, truth) && key !in pending
  {
    Unfold(d, b, pending, truth);
    UnfoldGained(d, e, key, source, destination, loc, false);
    FileMovesAvoidPending(d, key, source, destination, pending);
    assert key in truth ==> ReplicaHolds(d, b, key, source, truth[key]);
    ArrivedHolds(d, b, e, c, key, source, destination, loc, false, truth);
    OthersStayUnderWay(d, b, e, c, key, pending, truth);
    assert pending - {key} == pending;
    Fold(e, c, pending, truth);
  }

  /** A file written into a free slot: nobody's bytes differ, and the file holds what the CPU replica holds. */
  lemma SentHolds(d: Directory, b: Bytes, c: Bytes, key: CacheKey, loc: Location, file: seq<Byte>,
                  truth: map<CacheKey, Payload>)
    requires CanAllocate(d.nvme, loc) && d.HasReplica(key, CPU) && d.ReplicaOf(key, CPU).location.slot < |b.cpu|
    requires c == b.(files := b.files[loc.slot := file])
             && IsFileOf(file, key, b.cpu[d.ReplicaOf(key, CPU).location.slot])
    ensures BytesUntouched(d, b, c)
    ensures key in truth && ReplicaHolds(d, b, key, CPU, truth[key]) ==> Holds(c, key, NVME, loc.slot, truth[key])
  {
  }

  /** A replica may go, and its slot's bytes with it. */
  lemma RemovedIsSane(d: Directory, b: Bytes, c: Bytes, key: CacheKey, t: StorageTier,
                      pending: map<CacheKey, PendingMove>, truth: map<CacheKey, Payload>)
    requires Sane(d, b, pending, truth) && d.HasReplica(key, t) && key !in pending
    requires BytesUntouched(Remove(d, key, t), b, c)
    ensures Sane(Remove(d, key, t), c, pending, truth)
  {
    Unfold(d, b, pending, truth);
    RemoveKeepsInv(d, key, t);
    var e := Remove(d, key, t);
    forall k, u | k in truth && IsReady(e, k, u) ensures ReplicaHolds(e, c, k, u, truth[k]) {
      assert IsReady(d, k, u) && ReplicaHolds(d, b, k, u, truth[k]);
      StillHolds(e, b, c, k, u, truth[k]);
    }
    RemovedStaysUnderWay(d, b, c, key, t, pending, truth);
    Fold(e, c, pending, truth);
  }

  lemma RemovedStaysUnderWay(d: Directory, b: Bytes, c: Bytes, key: CacheKey, t: StorageTier,
                             pending: map<CacheKey, PendingMove>, truth: map<CacheKey, Payload>)
    requires AllUnderWay(d, pending) && Carried(d, b, pending, truth) && d.HasReplica(key, t) && key !in pending
    requires ReplicasLive(Remove(d, key, t)) && BytesUntouched(Remove(d, key, t), b, c)
    ensures AllUnderWay(Remove(d, key, t), pending) && Carried(Remove(d, key, t), c, pending, truth)
  {
    var e := Remove(d, key, t);
    forall k | k in pending ensures UnderWay(e, k, pending[k]) {
      assert UnderWay(d, k, pending[k]);
    }
    forall k | k in pending && k in truth ensures ReplicaHolds(e, c, k, pending[k].From(), truth[k]) {
      assert ReplicaHolds(d, b, k, pending[k].From(), truth[k]);
      StillHolds(e, b, c, k, pending[k].From(), truth[k]);
    }
  }

  /** A chunk with a READY source stands for its bytes. */
  lemma SourceHolds(d: Directory, b: Bytes, key: CacheKey, t: StorageTier, pending: map<CacheKey, PendingMove>,
                    truth: map<CacheKey, Payload>)
    requires Sane(d, b, pending, truth) && IsReady(d, key, t)
    ensures IsLive(d.Tier(t), d.ReplicaOf(key, t).location)
    ensures key in truth ==> ReplicaHolds(d, b, key, t, truth[key])
  {
    Unfold(d, b, pending, truth);
    assert d.HasReplica(key, t);
  }

  // ---------------------------------------------------------------- nothing is lost

  /** The chunk has a READY replica somewhere, or is on its way between two. */
  ghost predicate Reachable(d: Directory, pending: map<CacheKey, PendingMove>, key: CacheKey) {
    key in pending || exists t :: IsReady(d, key, t)
  }

  ghost predicate AllReachable(d: Directory, pending: map<CacheKey, PendingMove>, truth: map<CacheKey, Payload>) {
    forall key :: key in truth ==> Reachable(d, pending, key)
  }

  lemma OthersReachable(d: Directory, e: Directory, pending: map<CacheKey, PendingMove>,
                        after: map<CacheKey, PendingMove>, key: CacheKey, truth: map<CacheKey, Payload>)
    requires AllReachable(d, pending, truth) && OtherRecordsAlike(d, e, key) && Reachable(e, after, key)
    requires forall k :: k in pending && k != key ==> k in after
    ensures AllReachable(e, after, truth)
  {
    forall k | k in truth ensures Reachable(e, after, k) {
      if k != key && k !in pending {
        var t :| IsReady(d, k, t);
        assert IsReady(e, k, t);
      }
    }
  }

  lemma UnmovedReachable(d: Directory, e: Directory, pending: map<CacheKey, PendingMove>, truth: map<CacheKey, Payload>)
    requires AllReachable(d, pending, truth) && e.records == d.records
    ensures AllReachable(e, pending, truth)
  {
    forall k | k in truth ensures Reachable(e, pending, k) {
      if k !in pending {
        var t :| IsReady(d, k, t);
        assert IsReady(e, k, t);
      }
    }
  }

  lemma BegunReachable(d: Directory, e: Directory, key: CacheKey, p: PendingMove, pending: map<CacheKey, PendingMove>,
                       truth: map<CacheKey, Payload>)
    requires AllReachable(d, pending, truth) && BeginsWith(d, e, key, p)
    ensures AllReachable(e, pending[key := p], truth)
  {
    BegunRecords(d, key, p);
    OthersReachable(d, e, pending, pending[key := p], key, truth);
  }

  lemma ConcludedReachable(d: Directory, e: Directory, key: CacheKey, p: PendingMove, released: bool,
                           pending: map<CacheKey, PendingMove>, truth: map<CacheKey, Payload>)
    requires AllReachable(d, pending, truth) && Concluded(d, e, key, p, released)
    ensures AllReachable(e, pending - {key}, truth)
  {
    assert IsReady(e, key, p.To());
    OthersReachable(d, e, pending, pending - {key}, key, truth);
  }

  lemma GainedReachable(d: Directory, e: Directory, key: CacheKey, source: StorageTier, destination: StorageTier,
                        loc: Location, released: bool, pending: map<CacheKey, PendingMove>,
                        truth: map<CacheKey, Payload>)
    requires AllReachable(d, pending, truth) && Gained(d, e, key, source, destination, loc, released)
    ensures AllReachable(e, pending, truth)
  {
    UnfoldGained(d, e, key, source, destination, loc, released);
    assert IsReady(e, key, destination);
    OthersReachable(d, e, pending, pending, key, truth);
  }

  /** Somewhere there is a replica with exactly the chunk's bytes. */
  ghost predicate Kept(d: Directory, b: Bytes, key: CacheKey, p: Payload) {
    exists t :: ReplicaHolds(d, b, key, t, p)
  }

  lemma ReachableIsKept(d: Directory, b: Bytes, pending: map<CacheKey, PendingMove>, truth: map<CacheKey, Payload>,
                        key: CacheKey)
    requires Sane(d, b, pending, truth) && AllReachable(d, pending, truth) && key in truth
    ensures Kept(d, b, key, truth[key])
  {
    Unfold(d, b, pending, truth);
    assert Reachable(d, pending, key);
    if key in pending {
      assert ReplicaHolds(d, b, key, pending[key].From(), truth[key]);
    } else {
      var t :| IsReady(d, key, t);
      assert ReplicaHolds(d, b, key, t, truth[key]);
    }
  }

  // ---------------------------------------------------------------- chunk files

  /** A chunk file that this program wrote is read back, unless its identity is too long to be believed. */
  lemma ChunkFileReads(file: seq<Byte>, key: CacheKey, p: Payload, capacity: nat)
    requires KeyFits(key) && IsFileOf(file, key, p) && |p| <= capacity < TWO64
    ensures var r := Read(file, FileMeta(key, 0, capacity), capacity);
            if Plausible(FileMeta(key, 0, 0)) then r.Loaded? && r.payload == p else r == Corrupt
  {
    var valid: nat :| valid < TWO64 && file == FileOf(FileMeta(key, valid, |p|), p);
    RoundTrip(FileMeta(key, valid, |p|), p, FileMeta(key, 0, capacity), capacity);
  }

  /** Reading a published file into a slot of `capacity` bytes. */
  lemma ReadBack(file: seq<Byte>, key: CacheKey, truth: map<CacheKey, Payload>, capacity: nat)
    requires KeyFits(key) && capacity < TWO64 && (key in truth ==> |truth[key]| == capacity)
    ensures var r := Read(file, FileMeta(key, 0, capacity), capacity);
            && (r.Loaded? ==> |r.payload| <= capacity)
            && (key in truth && IsFileOf(file, key, truth[key]) ==>
                  if Plausible(FileMeta(key, 0, 0)) then r.Loaded? && r.payload == truth[key] else r == Corrupt)
  {
    if key in truth && IsFileOf(file, key, truth[key]) {
      ChunkFileReads(file, key, truth[key], capacity);
    }
  }

  /** What `onload` would read from the chunk's file is exactly its bytes. */
  ghost predicate ReadsBack(d: Directory, b: Bytes, key: CacheKey, p: Payload) {
    && d.HasReplica(key, NVME) && d.ReplicaOf(key, NVME).location.slot in b.files
    && var r := Read(b.files[d.ReplicaOf(key, NVME).location.slot], FileMeta(key, 0, |p|), |p|);
       r.Loaded? && r.payload == p
  }

  /** A replica in a file can be brought back exactly when its identity is short enough to be believed. */
  lemma FileReplicaReads(d: Directory, b: Bytes, key: CacheKey, p: Payload)
    requires KeyFits(key) && |p| < TWO64 && ReplicaHolds(d, b, key, NVME, p)
    ensures ReadsBack(d, b, key, p) <==> Plausible(FileMeta(key, 0, 0))
  {
    ChunkFileReads(b.files[d.ReplicaOf(key, NVME).location.slot], key, p, |p|);
  }

  /** A file's size depends on the lengths in its identity alone. */
  lemma FileSize(m: Meta, p: Payload)
    ensures |FileOf(m, p)| == 76 + |m.modelId| + 4 * |m.prefix| + |p|
  {
  }

  /** The identity's fields fit the file format's, and a file of `size` payload bytes fits a 64-bit count. */
  ghost predicate FileFits(key: CacheKey, size: nat) {
    KeyFits(key) && 76 + |key.modelId| + 4 * |key.prefix| + size < TWO64
  }
}
