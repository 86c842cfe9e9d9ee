/** The directory object (src/v3/cache_directory.cpp): records in a map, slots in three tier objects. Every method
    takes its state as CacheDirectories describes it from one value to the next. */
module DirectoryObjects {
  import opened Common
  import opened CacheDirectories
  import opened StorageTiers

  datatype TierStats = TierStats(capacity: nat, available: nat, allocations: nat, replicas: nat)

  /** The chunks that have a replica on tier `t`. */
  function KeysOn(d: Directory, t: StorageTier): set<CacheKey> {
    set key | key in d.records && t in d.records[key].replicas
  }

  /** Replicas and taken slots of a tier pair off one to one. */
  lemma ReplicasAreAllocations(d: Directory, t: StorageTier)
    requires DirectoryInv(d)
    ensures |KeysOn(d, t)| == |d.Tier(t).taken|
  {
    var slotOf := map key | key in KeysOn(d, t) :: d.ReplicaOf(key, t).location.slot;
    forall key | key in KeysOn(d, t) ensures slotOf[key] in d.Tier(t).taken {
      assert d.HasReplica(key, t) && IsLive(d.Tier(t), d.ReplicaOf(key, t).location);
    }
    forall key, other | key in slotOf && other in slotOf && key != other ensures slotOf[key] != slotOf[other] {
      assert d.HasReplica(key, t) && d.HasReplica(other, t);
    }
    forall slot | slot in d.Tier(t).taken ensures exists key :: key in slotOf && slotOf[key] == slot {
      assert Owned(d, t, slot);
      var key :| d.HasReplica(key, t) && d.ReplicaOf(key, t).location.slot == slot;
      assert key in slotOf && slotOf[key] == slot;
    }
    PairedOff(slotOf, d.Tier(t).taken);
    assert slotOf.Keys == KeysOn(d, t);
  }

  lemma {:induction false} PairedOff<K>(m: map<K, nat>, image: set<nat>)
    requires forall k :: k in m ==> m[k] in image
    requires forall j, k :: j in m && k in m && j != k ==> m[j] != m[k]
    requires forall i :: i in image ==> exists k :: k in m && m[k] == i
    ensures |m.Keys| == |image|
    decreases |image|
  {
    if image == {} {
      assert m.Keys == {} by { if k :| k in m { assert m[k] in image; } }
    } else {
      var i :| i in image;
      var k :| k in m && m[k] == i;
      var rest := m - {k};
      forall j | j in image - {i} ensures exists l :: l in rest && rest[l] == j {
        var l :| l in m && m[l] == j;
        assert l in rest && rest[l] == j;
      }
      PairedOff(rest, image - {i});
      assert rest.Keys == m.Keys - {k};
    }
  }

  lemma RemovedSlotIsLive(d: Directory, key: CacheKey, t: StorageTier)
    requires DirectoryInv(d) && d.HasReplica(key, t)
    ensures IsLive(d.Tier(t), d.ReplicaOf(key, t).location)
  {
  }

  class CacheDirectory {
    const gpu: GpuTier
    const cpu: SlotTier
    const nvme: SlotTier
    var records: map<CacheKey, Record>

    ghost function Tiers(): set<object> {
      {gpu, gpu.pool, gpu.pool.idleLru, cpu, nvme}
    }

    /** What the records and the tiers amount to. */
    ghost var view: Directory

    ghost function Current(): Directory
      reads this, Tiers()
    {
      Directory(records, gpu.View(), cpu.View(), nvme.View())
    }

    ghost predicate TiersValid()
      reads Tiers()
    {
      cpu != nvme && gpu.Valid() && cpu.Valid() && nvme.Valid() && gpu.again == cpu.again == nvme.again == 0
    }

    /** Folded. */
    ghost predicate Valid()
      reads this, Tiers()
    {
      view.records == records && forall k {:trigger Unseal(k)} ::
        k == 0 ==> TiersValid() && view == Current() && DirectoryInv(view)
    }

    lemma Unfold()
      requires Valid()
      ensures TiersValid() && view == Current() && DirectoryInv(view)
    {
      assert Unseal(0);
    }

    lemma Fold()
      requires TiersValid() && view == Current() && DirectoryInv(view)
      ensures Valid()
    {
    }

    lemma IsOrderly()
      requires Valid()
      ensures DirectoryInv(view)
    {
      Unfold();
    }

    /** Slots a tier cannot hand out although the directory does not have them: pages in other hands, and slots taken
        off the free list by calls that failed. */
    ghost function Lost(t: StorageTier): set<nat>
      reads Tiers()
    {
      match t
      case GPU => gpu.Others()
      case CPU => cpu.lost
      case NVME => nvme.lost
    }

    ghost predicate NoRoom(t: StorageTier)
      reads this, Tiers()
    {
      NoneLeft(view.Tier(t), Lost(t))
    }

    /** Slots at their last generation that nobody has. */
    ghost function Worn(t: StorageTier): set<nat>
      reads Tiers()
    {
      match t
      case GPU => WornPages(gpu.pool.View())
      case CPU => cpu.Worn()
      case NVME => nvme.Worn()
    }

    /** While no slot is worn out, a tier without room is full. */
    lemma LostAreWorn(t: StorageTier)
      requires Valid() && t != GPU
      ensures Lost(t) <= Worn(t)
    {
      Unfold();
      forall i: nat | i in Lost(t) ensures i in Worn(t) {
        if t == CPU { cpu.LostIsWornOut(i); } else { nvme.LostIsWornOut(i); }
      }
    }

    /** What other holders of the pool's pages do with references of their own leaves the directory as it is. */
    twostate lemma OthersAct()
      requires old(Valid()) && unchanged(this, gpu, cpu, nvme) && gpu.pool.Valid()
      requires LeavesAlone(old(gpu.pool.View()), gpu.pool.View(), gpu.mine)
      ensures Valid()
    {
      assert Unseal(0);
      gpu.OthersAct();
      Fold();
    }

    constructor (gpu: GpuTier, cpu: SlotTier, nvme: SlotTier)
      requires cpu != nvme && gpu.Valid() && cpu.Valid() && nvme.Valid() && gpu.again == cpu.again == nvme.again == 0
      requires gpu.View().taken == {} && cpu.View().taken == {} && nvme.View().taken == {}
      ensures Valid() && this.gpu == gpu && this.cpu == cpu && this.nvme == nvme
      ensures view == Directory(map[], gpu.View(), cpu.View(), nvme.View())
    {
      this.gpu, this.cpu, this.nvme := gpu, cpu, nvme;
      records := map[];
      new;
      view := Current();
      Fold();
    }

    method CreateRecord(key: CacheKey) returns (r: Result<()>)
      requires Valid()
      modifies `records, `view
      ensures Valid()
      ensures r == if key in old(records) then Err(InvalidArgument) else Ok(())
      ensures view == if r.Ok? then Create(old(view), key) else old(view)
    {
      Unfold();
      if key in records { return Err(InvalidArgument); }
      CreateDestroyKeepInv(view, key);
      records := records[key := Record(1, 0, 0, map[])];
      view := Current();
      Fold();
      r := Ok(());
    }

    // -------------------------------------------------------------- slots

    method AllocateFrom(t: StorageTier) returns (r: Result<Location>)
      requires TiersValid()
      modifies Tiers()
      ensures TiersValid()
      ensures r.Err? ==> Current() == old(Current()) && (r.error == CapacityError || r.error == OverflowError)
      ensures r == Err(CapacityError) <==> old(NoneLeft(Current().Tier(t), Lost(t)))
      ensures r == Err(OverflowError) ==> old(Worn(t)) != {}
      ensures r.Ok? ==> CanAllocate(old(Current()).Tier(t), r.value)
                        && Current() == old(Current()).WithTier(t, Allocated(old(Current()).Tier(t), r.value))
    {
      match t {
        case GPU => r := gpu.Allocate();
        case CPU => r := cpu.Allocate();
        case NVME => r := nvme.Allocate();
      }
    }

    method ReleaseTo(t: StorageTier, loc: Location)
      requires TiersValid() && IsLive(Current().Tier(t), loc)
      modifies Tiers()
      ensures TiersValid()
      ensures Current() == old(Current()).WithTier(t, Freed(old(Current()).Tier(t), loc.slot))
    {
      var r;
      match t {
        case GPU => r := gpu.Release(loc);
        case CPU => r := cpu.Release(loc);
        case NVME => r := nvme.Release(loc);
      }
    }

    /** A replica in a slot of its own, or nothing at all. */
    method Place(key: CacheKey, t: StorageTier, state: ChunkState) returns (r: Result<Location>)
      requires Valid()
      modifies this, Tiers()
      ensures Valid()
      ensures r.Ok? ==> Placeable(old(view), key, t, r.value)
                        && view == CacheDirectories.Place(old(view), key, t, state, r.value)
      ensures r.Err? ==> view == old(view)
      ensures r == Err(OutOfRange) <==> key !in old(records)
      ensures r == Err(LogicError) <==> old(view).HasReplica(key, t)
      ensures r == Err(CapacityError) <==>
                key in old(records) && t !in old(records)[key].replicas && old(NoRoom(t))
      ensures r == Err(OverflowError) ==> old(Worn(t)) != {}
      ensures r.Err? ==> r.error in {OutOfRange, LogicError, CapacityError, OverflowError}
    {
      Unfold();
      ghost var d := view;
      if key !in records { return Err(OutOfRange); }
      if t in records[key].replicas { return Err(LogicError); }
      r := AllocateFrom(t);
      if r.Ok? { Settle(key, t, Replica(r.value, state)); }
    }

    /** A slot has just been taken for this replica; the record follows. */
    method Settle(key: CacheKey, t: StorageTier, replica: Replica)
      requires TiersValid() && DirectoryInv(view) && view.records == records
               && Placeable(view, key, t, replica.location)
      requires Current() == view.WithTier(t, Allocated(view.Tier(t), replica.location))
      modifies `records, `view
      ensures Valid() && view == CacheDirectories.Place(old(view), key, t, replica.state, replica.location)
    {
      PlaceKeepsInv(view, key, t, replica.state, replica.location);
      var record := records[key];
      records := records[key := record.(replicas := record.replicas[t := replica])];
      view := CacheDirectories.Place(view, key, t, replica.state, replica.location);
      Fold();
    }

    /** Only a replica at rest, or one that failed, gives its slot back. */
    method Remove(key: CacheKey, t: StorageTier) returns (r: Result<()>)
      requires Valid()
      modifies this, Tiers()
      ensures Valid()
      ensures r.Ok? <==> Removable(old(view), key, t)
      ensures view == if r.Ok? then CacheDirectories.Remove(old(view), key, t) else old(view)
      ensures r.Err? ==> r.error == if key in old(records) then LogicError else OutOfRange
    {
      var found := FindRemovable(key, t);
      if found.Ok? {
        GiveBack(key, t, found.value);
        r := Ok(());
      } else {
        r := Err(found.error);
      }
    }

    method GiveBack(key: CacheKey, t: StorageTier, loc: Location)
      requires Valid() && view.HasReplica(key, t) && loc == view.ReplicaOf(key, t).location
      modifies this, Tiers()
      ensures Valid() && view == CacheDirectories.Remove(old(view), key, t)
    {
      Unfold();
      RemovedSlotIsLive(view, key, t);
      ReleaseTo(t, loc);
      Vacate(key, t);
    }

    method FindRemovable(key: CacheKey, t: StorageTier) returns (r: Result<Location>)
      requires Valid()
      ensures r.Ok? <==> Removable(view, key, t)
      ensures r.Ok? ==> r.value == view.ReplicaOf(key, t).location
      ensures r.Err? ==> r.error == if key in records then LogicError else OutOfRange
    {
      if key !in records { return Err(OutOfRange); }
      if t !in records[key].replicas { return Err(LogicError); }
      var replica := records[key].replicas[t];
      if replica.state != READY && replica.state != ERROR { return Err(LogicError); }
      r := Ok(replica.location);
    }

    /** The slot has just been given back; the record follows. */
    method Vacate(key: CacheKey, t: StorageTier)
      requires TiersValid() && DirectoryInv(view) && view.records == records && view.HasReplica(key, t)
      requires Current() == view.WithTier(t, Freed(view.Tier(t), view.ReplicaOf(key, t).location.slot))
      modifies `records, `view
      ensures Valid() && view == CacheDirectories.Remove(old(view), key, t)
    {
      RemoveKeepsInv(view, key, t);
      var record := records[key];
      records := records[key := record.(replicas := record.replicas - {t})];
      view := CacheDirectories.Remove(view, key, t);
      Fold();
    }

    method SetState(key: CacheKey, t: StorageTier, state: ChunkState) returns (r: Result<()>)
      requires Valid()
      modifies `records, `view
      ensures Valid()
      ensures r.Ok? <==> old(view).HasReplica(key, t)
      ensures view == if r.Ok? then CacheDirectories.SetState(old(view), key, t, state) else old(view)
      ensures r.Err? ==> r.error == if key in old(records) then LogicError else OutOfRange
    {
      Unfold();
      if key !in records { return Err(OutOfRange); }
      if t !in records[key].replicas { return Err(LogicError); }
      ghost var d := view;
      SetStateMovesNothing(d, key, t, state);
      SameLocationsKeepInv(d, CacheDirectories.SetState(d, key, t, state));
      var record := records[key];
      records := records[key := record.(replicas := record.replicas[t := record.replicas[t].(state := state)])];
      view := CacheDirectories.SetState(d, key, t, state);
      Fold();
      r := Ok(());
    }

    // -------------------------------------------------------------- counts

    method Recount(key: CacheKey, record: Record)
      requires Valid() && key in records && record.replicas == records[key].replicas
      modifies `records, `view
      ensures Valid() && records == old(records)[key := record] && view == old(view).WithRecord(key, record)
      ensures SameReplicas(old(view), view)
    {
      Unfold();
      ghost var d := view;
      CountsMoveNothing(d, key, record);
      SameLocationsKeepInv(d, d.WithRecord(key, record));
      records := records[key := record];
      view := d.WithRecord(key, record);
      Fold();
    }

    method AddRef(key: CacheKey) returns (r: Result<()>)
      requires Valid()
      modifies `records, `view
      ensures Valid() && SameReplicas(old(view), view)
      ensures r == if key in old(records) then Ok(()) else Err(OutOfRange)
      ensures r.Ok? ==> records == old(records)[key := old(records)[key].(refCount := old(records)[key].refCount + 1)]
      ensures r.Err? ==> records == old(records) && view == old(view)
    {
      Unfold();
      if key !in records { return Err(OutOfRange); }
      Recount(key, records[key].(refCount := records[key].refCount + 1));
      r := Ok(());
    }

    method ReleaseRef(key: CacheKey) returns (r: Result<()>)
      requires Valid()
      modifies `records, `view
      ensures Valid() && SameReplicas(old(view), view)
      ensures r == if key !in old(records) then Err(OutOfRange)
                   else if old(records)[key].refCount == 0 then Err(LogicError) else Ok(())
      ensures r.Ok? ==> records == old(records)[key := old(records)[key].(refCount := old(records)[key].refCount - 1)]
      ensures r.Err? ==> records == old(records) && view == old(view)
    {
      Unfold();
      if key !in records { return Err(OutOfRange); }
      if records[key].refCount == 0 { return Err(LogicError); }
      Recount(key, records[key].(refCount := records[key].refCount - 1));
      r := Ok(());
    }

    method Pin(key: CacheKey) returns (r: Result<()>)
      requires Valid()
      modifies `records, `view
      ensures Valid() && SameReplicas(old(view), view)
      ensures r == if key in old(records) then Ok(()) else Err(OutOfRange)
      ensures r.Ok? ==> view == SetPins(old(view), key, old(records)[key].pinCount + 1)
      ensures r.Err? ==> records == old(records) && view == old(view)
    {
      Unfold();
      if key !in records { return Err(OutOfRange); }
      Recount(key, records[key].(pinCount := records[key].pinCount + 1));
      r := Ok(());
    }

    method Unpin(key: CacheKey) returns (r: Result<()>)
      requires Valid()
      modifies `records, `view
      ensures Valid() && SameReplicas(old(view), view)
      ensures r == if key !in old(records) then Err(OutOfRange)
                   else if old(records)[key].pinCount == 0 then Err(LogicError) else Ok(())
      ensures r.Ok? ==> view == SetPins(old(view), key, old(records)[key].pinCount - 1)
      ensures r.Err? ==> records == old(records) && view == old(view)
    {
      Unfold();
      if key !in records { return Err(OutOfRange); }
      if records[key].pinCount == 0 { return Err(LogicError); }
      Recount(key, records[key].(pinCount := records[key].pinCount - 1));
      r := Ok(());
    }

    // -------------------------------------------------------------- the end of a record, and statistics

    method Destroy(key: CacheKey) returns (r: Result<()>)
      requires Valid()
      modifies `records, `view
      ensures Valid()
      ensures r.Ok? <==> Destroyable(old(view), key)
      ensures view == if r.Ok? then CacheDirectories.Destroy(old(view), key) else old(view)
      ensures r.Err? ==> r.error == if key in old(records) then LogicError else OutOfRange
    {
      Unfold();
      if key !in records { return Err(OutOfRange); }
      var record := records[key];
      if GPU in record.replicas || CPU in record.replicas || NVME in record.replicas { return Err(LogicError); }
      NoTierMeansNone(record.replicas);
      if record.refCount != 0 || record.pinCount != 0 { return Err(LogicError); }
      CreateDestroyKeepInv(view, key);
      records := records - {key};
      view := CacheDirectories.Destroy(view, key);
      Fold();
      r := Ok(());
    }

    /** Counting replicas record by record gives the number of slots the tier has taken. */
    method Stats(t: StorageTier) returns (s: TierStats)
      requires Valid()
      ensures s.capacity == |view.Tier(t).generations| && s.allocations == |view.Tier(t).taken|
      ensures s.replicas == s.allocations
      ensures s.available + s.allocations + (if t == GPU then |gpu.Others()| else 0) == s.capacity
    {
      Unfold();
      var replicas := 0;
      var left := records;
      ghost var all := KeysOn(view, t);
      while left != map[]
        invariant forall key :: key in left ==> key in records && left[key] == records[key]
        invariant replicas + |set key | key in left && t in left[key].replicas| == |all|
        decreases |left|
      {
        var key :| key in left;
        CountOne(left, key, t);
        if t in left[key].replicas { replicas := replicas + 1; }
        left := left - {key};
      }
      ReplicasAreAllocations(view, t);
      var capacity, available, allocations;
      match t {
        case GPU => available := gpu.Available(); capacity, allocations := |gpu.pool.slots|, gpu.taken;
        case CPU => available := cpu.Available(); capacity, allocations := |cpu.slots|, cpu.taken;
        case NVME => available := nvme.Available(); capacity, allocations := |nvme.slots|, nvme.taken;
      }
      s := TierStats(capacity, available, allocations, replicas);
    }
  }

  lemma NoTierMeansNone(m: map<StorageTier, Replica>)
    ensures GPU !in m && CPU !in m && NVME !in m <==> m == map[]
  {
    if GPU !in m && CPU !in m && NVME !in m {
      assert forall t :: t !in m by { forall t ensures t !in m { match t case GPU => case CPU => case NVME => } }
    }
  }

  lemma CountOne(left: map<CacheKey, Record>, key: CacheKey, t: StorageTier)
    requires key in left
    ensures |set k | k in left && t in left[k].replicas|
            == |set k | k in left - {key} && t in (left - {key})[k].replicas| + if t in left[key].replicas then 1 else 0
  {
    var here := set k | k in left && t in left[k].replicas;
    var rest := set k | k in left - {key} && t in (left - {key})[k].replicas;
    assert rest == here - {key};
  }
}
