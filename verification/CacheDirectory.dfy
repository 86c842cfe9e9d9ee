/** Chunk identities, their replicas on the three tiers, and the slots the replicas own
    (src/v3/cache_directory.cpp, src/v3/tier.cpp). */
module CacheDirectories {
  import opened Common

  datatype StorageTier = GPU | CPU | NVME

  datatype ChunkState = READY | COPYING | LOADING | EVICTING | ERROR

  datatype DType = Float16 | BFloat16 | Float32

  /** A chunk's logical identity; equality is exact on every field. */
  datatype CacheKey = CacheKey(modelId: seq<Byte>, layoutVersion: nat, dtype: DType,
                               firstLayer: nat, lastLayer: nat, prefixHash: nat, prefix: Tokens)

  datatype Location = Location(slot: nat, generation: nat)

  datatype Replica = Replica(location: Location, state: ChunkState)

  datatype Record = Record(version: nat, refCount: nat, pinCount: nat, replicas: map<StorageTier, Replica>)

  /** Slots of one tier: the generation of every slot's latest allocation, and which are allocated. */
  datatype TierState = TierState(generations: seq<nat>, taken: set<nat>)

  datatype Directory = Directory(records: map<CacheKey, Record>, gpu: TierState, cpu: TierState, nvme: TierState)
  {
    function Tier(t: StorageTier): TierState {
      match t
      case GPU => gpu
      case CPU => cpu
      case NVME => nvme
    }

    function WithTier(t: StorageTier, s: TierState): Directory {
      match t
      case GPU => this.(gpu := s)
      case CPU => this.(cpu := s)
      case NVME => this.(nvme := s)
    }

    function WithRecord(key: CacheKey, r: Record): Directory {
      this.(records := records[key := r])
    }

    predicate HasReplica(key: CacheKey, t: StorageTier) {
      key in records && t in records[key].replicas
    }

    function ReplicaOf(key: CacheKey, t: StorageTier): Replica
      requires HasReplica(key, t)
    {
      records[key].replicas[t]
    }
  }

  // ---------------------------------------------------------------- tiers

  /** A free slot, under a generation it never had. */
  predicate CanAllocate(t: TierState, loc: Location) {
    loc.slot < |t.generations| && loc.slot !in t.taken && loc.generation > t.generations[loc.slot]
  }

  /** Every slot is taken, or is one that the tier cannot hand out. */
  ghost predicate NoneLeft(t: TierState, lost: set<nat>) {
    forall i: nat :: i < |t.generations| ==> i in t.taken || i in lost
  }

  function Allocated(t: TierState, loc: Location): TierState
    requires CanAllocate(t, loc)
  {
    TierState(t.generations[loc.slot := loc.generation], t.taken + {loc.slot})
  }

  predicate IsLive(t: TierState, loc: Location) {
    loc.slot in t.taken && loc.slot < |t.generations| && t.generations[loc.slot] == loc.generation
  }

  function Freed(t: TierState, slot: nat): TierState {
    t.(taken := t.taken - {slot})
  }

  // ---------------------------------------------------------------- invariant

  /** Every replica owns a live slot of its tier. */
  ghost predicate ReplicasLive(d: Directory) {
    forall key, t :: d.HasReplica(key, t) ==> IsLive(d.Tier(t), d.ReplicaOf(key, t).location)
  }

  /** No two chunks own the same slot of a tier. */
  ghost predicate SlotsDistinct(d: Directory) {
    forall key, other, t :: d.HasReplica(key, t) && d.HasReplica(other, t) && key != other ==>
      d.ReplicaOf(key, t).location.slot != d.ReplicaOf(other, t).location.slot
  }

  ghost predicate Owned(d: Directory, t: StorageTier, slot: nat) {
    exists key :: d.HasReplica(key, t) && d.ReplicaOf(key, t).location.slot == slot
  }

  /** Every allocated slot belongs to a replica: none leaks. */
  ghost predicate NoLeak(d: Directory) {
    forall t: StorageTier, slot: nat :: slot in d.Tier(t).taken ==> Owned(d, t, slot)
  }

  ghost predicate DirectoryInv(d: Directory) {
    ReplicasLive(d) && SlotsDistinct(d) && NoLeak(d)
  }

  // ---------------------------------------------------------------- operations

  function SetState(d: Directory, key: CacheKey, t: StorageTier, state: ChunkState): Directory
    requires d.HasReplica(key, t)
  {
    var r := d.records[key];
    d.WithRecord(key, r.(replicas := r.replicas[t := r.replicas[t].(state := state)]))
  }

  predicate Placeable(d: Directory, key: CacheKey, t: StorageTier, loc: Location) {
    key in d.records && t !in d.records[key].replicas && CanAllocate(d.Tier(t), loc)
  }

  /** Registers a new replica in a freshly allocated slot. */
  function Place(d: Directory, key: CacheKey, t: StorageTier, state: ChunkState, loc: Location): Directory
    requires Placeable(d, key, t, loc)
  {
    var r := d.records[key];
    d.WithTier(t, Allocated(d.Tier(t), loc)).WithRecord(key, r.(replicas := r.replicas[t := Replica(loc, state)]))
  }

  predicate Removable(d: Directory, key: CacheKey, t: StorageTier) {
    d.HasReplica(key, t) && d.ReplicaOf(key, t).state in {READY, ERROR}
  }

  function Remove(d: Directory, key: CacheKey, t: StorageTier): Directory
    requires d.HasReplica(key, t)
  {
    var r := d.records[key];
    d.WithTier(t, Freed(d.Tier(t), r.replicas[t].location.slot))
     .WithRecord(key, r.(replicas := r.replicas - {t}))
  }

  function SetPins(d: Directory, key: CacheKey, pins: nat): Directory
    requires key in d.records
  {
    d.WithRecord(key, d.records[key].(pinCount := pins))
  }

  predicate Destroyable(d: Directory, key: CacheKey) {
    key in d.records && d.records[key].replicas == map[] && d.records[key].refCount == 0 && d.records[key].pinCount == 0
  }

  function Create(d: Directory, key: CacheKey): Directory {
    d.WithRecord(key, Record(1, 0, 0, map[]))
  }

  function Destroy(d: Directory, key: CacheKey): Directory {
    d.(records := d.records - {key})
  }

  // ---------------------------------------------------------------- the invariant is kept

  /** Changing states and counts moves no slot. */
  ghost predicate SameLocations(d: Directory, e: Directory) {
    && d.gpu == e.gpu && d.cpu == e.cpu && d.nvme == e.nvme
    && (forall key, t :: d.HasReplica(key, t) <==> e.HasReplica(key, t))
    && (forall key, t :: d.HasReplica(key, t) ==> d.ReplicaOf(key, t).location == e.ReplicaOf(key, t).location)
  }

  lemma SameLocationsKeepInv(d: Directory, e: Directory)
    requires DirectoryInv(d) && SameLocations(d, e)
    ensures DirectoryInv(e)
  {
    forall t: StorageTier, slot: nat | slot in e.Tier(t).taken ensures Owned(e, t, slot) {
      assert Owned(d, t, slot);
      var key :| d.HasReplica(key, t) && d.ReplicaOf(key, t).location.slot == slot;
      assert e.HasReplica(key, t);
    }
  }

  /** Not even the states differ. */
  ghost predicate SameReplicas(d: Directory, e: Directory) {
    && SameLocations(d, e)
    && (forall key, t :: d.HasReplica(key, t) ==> e.ReplicaOf(key, t) == d.ReplicaOf(key, t))
  }

  lemma CountsMoveNothing(d: Directory, key: CacheKey, r: Record)
    requires key in d.records && r.replicas == d.records[key].replicas
    ensures SameReplicas(d, d.WithRecord(key, r))
  {
  }

  lemma SetStateMovesNothing(d: Directory, key: CacheKey, t: StorageTier, state: ChunkState)
    requires d.HasReplica(key, t)
    ensures SameLocations(d, SetState(d, key, t, state))
  {
  }

  /** Every replica but the one at (key, t) is where and what it was. */
  ghost predicate OthersAlike(d: Directory, e: Directory, key: CacheKey, t: StorageTier) {
    forall k, u :: k != key || u != t ==>
      (e.HasReplica(k, u) <==> d.HasReplica(k, u)) && (d.HasReplica(k, u) ==> e.ReplicaOf(k, u) == d.ReplicaOf(k, u))
  }

  lemma PlaceKeepsInv(d: Directory, key: CacheKey, t: StorageTier, state: ChunkState, loc: Location)
    requires DirectoryInv(d) && Placeable(d, key, t, loc)
    ensures var e := Place(d, key, t, state, loc);
            && DirectoryInv(e) && OthersAlike(d, e, key, t)
            && e.HasReplica(key, t) && e.ReplicaOf(key, t) == Replica(loc, state)
  {
    var e := Place(d, key, t, state, loc);
    PlaceChangesOne(d, key, t, state, loc);
    forall k, u | e.HasReplica(k, u) ensures IsLive(e.Tier(u), e.ReplicaOf(k, u).location) {
      if k != key || u != t { PlacedApart(d, key, t, state, loc, k, u); }
    }
    forall k, other, u | e.HasReplica(k, u) && e.HasReplica(other, u) && k != other
      ensures e.ReplicaOf(k, u).location.slot != e.ReplicaOf(other, u).location.slot
    {
      if k != key || u != t { PlacedApart(d, key, t, state, loc, k, u); }
      if other != key || u != t { PlacedApart(d, key, t, state, loc, other, u); }
    }
    forall u: StorageTier, slot: nat | slot in e.Tier(u).taken ensures Owned(e, u, slot) {
      if u == t && slot == loc.slot {
        assert e.HasReplica(key, t);
      } else {
        OwnedStays(d, e, key, t, u, slot);
      }
    }
  }

  lemma PlaceChangesOne(d: Directory, key: CacheKey, t: StorageTier, state: ChunkState, loc: Location)
    requires Placeable(d, key, t, loc)
    ensures var e := Place(d, key, t, state, loc);
            && OthersAlike(d, e, key, t)
            && e.HasReplica(key, t) && e.ReplicaOf(key, t) == Replica(loc, state)
            && (forall u :: u != t ==> e.Tier(u) == d.Tier(u))
  {
  }

  /** The slot just handed out belonged to no replica. */
  lemma PlacedApart(d: Directory, key: CacheKey, t: StorageTier, state: ChunkState, loc: Location,
                    k: CacheKey, u: StorageTier)
    requires ReplicasLive(d) && Placeable(d, key, t, loc)
    requires k != key || u != t
    requires d.HasReplica(k, u)
    ensures IsLive(Place(d, key, t, state, loc).Tier(u), d.ReplicaOf(k, u).location)
    ensures u == t ==> d.ReplicaOf(k, u).location.slot != loc.slot
  {
    assert IsLive(d.Tier(u), d.ReplicaOf(k, u).location);
  }

  lemma OwnedStays(d: Directory, e: Directory, key: CacheKey, t: StorageTier, u: StorageTier, slot: nat)
    requires OthersAlike(d, e, key, t) && Owned(d, u, slot)
    requires !(u == t && d.HasReplica(key, t) && d.ReplicaOf(key, t).location.slot == slot)
    ensures Owned(e, u, slot)
  {
    var k :| d.HasReplica(k, u) && d.ReplicaOf(k, u).location.slot == slot;
    assert e.HasReplica(k, u) && e.ReplicaOf(k, u) == d.ReplicaOf(k, u);
  }

  lemma RemoveKeepsInv(d: Directory, key: CacheKey, t: StorageTier)
    requires DirectoryInv(d) && d.HasReplica(key, t)
    ensures var e := Remove(d, key, t); DirectoryInv(e) && !e.HasReplica(key, t) && OthersAlike(d, e, key, t)
  {
    var e := Remove(d, key, t);
    assert IsLive(d.Tier(t), d.ReplicaOf(key, t).location);
    assert OthersAlike(d, e, key, t);
    forall k, u | e.HasReplica(k, u) ensures IsLive(e.Tier(u), e.ReplicaOf(k, u).location) {
      assert d.HasReplica(k, u) && IsLive(d.Tier(u), d.ReplicaOf(k, u).location);
    }
    forall u: StorageTier, slot: nat | slot in e.Tier(u).taken ensures Owned(e, u, slot) {
      assert slot in d.Tier(u).taken && Owned(d, u, slot);
      OwnedStays(d, e, key, t, u, slot);
    }
  }

  lemma CreateDestroyKeepInv(d: Directory, key: CacheKey)
    requires DirectoryInv(d)
    ensures key !in d.records ==> SameReplicas(d, Create(d, key)) && DirectoryInv(Create(d, key))
    ensures Destroyable(d, key) ==> SameReplicas(d, Destroy(d, key)) && DirectoryInv(Destroy(d, key))
  {
    if key !in d.records { SameLocationsKeepInv(d, Create(d, key)); }
    if Destroyable(d, key) { SameLocationsKeepInv(d, Destroy(d, key)); }
  }
}
