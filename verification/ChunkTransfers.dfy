/** The synchronous movers between tiers: GPU and CPU in two phases (src/v3/gpu_cpu_transfer.cpp), CPU and NVMe in
    one (src/v3/nvme_transfer.cpp). Each either arrives with the chunk's bytes or leaves no trace. */
module ChunkTransfers {
  import opened Common
  import opened Checksums
  import opened CacheDirectories
  import opened DirectoryObjects
  import opened ChunkFormat
  import opened ChunkFileStores
  import opened ChunkMoves

  class ChunkBuffers {
    const chunkBytes: nat
    var data: seq<Payload>

    ghost predicate Valid()
      reads this
    {
      forall i :: 0 <= i < |data| ==> |data[i]| == chunkBytes
    }

    constructor (slots: nat, chunkBytes: nat)
      ensures Valid() && |data| == slots && this.chunkBytes == chunkBytes
    {
      this.chunkBytes := chunkBytes;
      data := seq(slots, _ => seq(chunkBytes, _ => 0));
    }

    /** The first bytes of a slot are overwritten. */
    method Fill(slot: nat, p: Payload)
      requires Valid() && slot < |data| && |p| <= chunkBytes
      modifies this
      ensures Valid() && data == old(data)[slot := p + old(data)[slot][|p|..]]
      ensures |p| == chunkBytes ==> data == old(data)[slot := p]
    {
      assert |p| == chunkBytes ==> p + data[slot][|p|..] == p;
      data := data[slot := p + data[slot][|p|..]];
    }

    /** A transfer that failed may have left anything behind. */
    method Spoil(slot: nat)
      requires Valid() && slot < |data|
      modifies this
      ensures Valid() && |data| == |old(data)|
      ensures forall i :: 0 <= i < |data| && i != slot ==> data[i] == old(data)[i]
    {
      var junk: Payload := *;
      if |junk| <= chunkBytes { Fill(slot, junk); }
    }
  }

  // ---------------------------------------------------------------- the two ends of every move

  /** The checks, the source's mark and the destination's slot; a refusal leaves no trace. */
  method Open(dir: CacheDirectory, key: CacheKey, source: StorageTier, destination: StorageTier, arrival: ChunkState)
    returns (r: Result<Location>)
    requires dir.Valid() && source != destination
    modifies dir, dir.Tiers()
    ensures dir.Valid()
    ensures r.Ok? ==> Departs(old(dir.view), key, source, destination)
                      && CanAllocate(old(dir.view).Tier(destination), r.value)
                      && dir.view == Opened(old(dir.view), key, source, destination, arrival, r.value)
    ensures r.Err? ==> Unmoved(old(dir.view), dir.view)
    ensures r == Err(OutOfRange) <==> key !in old(dir.records)
    ensures r == Err(LogicError) <==> key in old(dir.records) && !Departs(old(dir.view), key, source, destination)
    ensures r == Err(CapacityError) <==>
              Departs(old(dir.view), key, source, destination) && old(dir.NoRoom(destination))
    ensures r == Err(OverflowError) ==> old(dir.Worn(destination)) != {}
    ensures r.Err? ==> r.error in {OutOfRange, LogicError, CapacityError, OverflowError}
  {
    if key !in dir.records { return Err(OutOfRange); }
    var replicas := dir.records[key].replicas;
    if source !in replicas || replicas[source].state != READY { return Err(LogicError); }
    if destination in replicas { return Err(LogicError); }
    ghost var d := dir.view;
    var marked := dir.SetState(key, source, COPYING);
    r := dir.Place(key, destination, arrival);
    if r.Err? {
      marked := dir.SetState(key, source, READY);
      MarkedAndBack(d, key, source);
    }
  }

  lemma MarkedAndBack(d: Directory, key: CacheKey, source: StorageTier)
    requires MigrationProtocol.IsReady(d, key, source)
    ensures SetState(SetState(d, key, source, COPYING), key, source, READY) == d
  {
    var r := d.records[key];
    var e := SetState(SetState(d, key, source, COPYING), key, source, READY);
    assert r.replicas[source := r.replicas[source].(state := READY)] == r.replicas;
    assert e.records[key].replicas == r.replicas;
    assert e.records == d.records;
  }

  /** The failure path: the destination is marked ERROR and removed, the source is READY again. */
  method RollBack(dir: CacheDirectory, key: CacheKey, source: StorageTier, destination: StorageTier, ghost d: Directory,
                  ghost arrival: ChunkState, ghost loc: Location)
    requires dir.Valid() && Departs(d, key, source, destination) && CanAllocate(d.Tier(destination), loc)
    requires dir.view == Opened(d, key, source, destination, arrival, loc)
    modifies dir, dir.Tiers()
    ensures dir.Valid() && Unmoved(d, dir.view)
  {
    OpenedThenUndone(d, key, source, destination, arrival, loc);
    Undo(dir, key, destination);
    var r := dir.SetState(key, source, READY);
  }

  method Undo(dir: CacheDirectory, key: CacheKey, destination: StorageTier)
    requires dir.Valid() && dir.view.HasReplica(key, destination)
    modifies dir, dir.Tiers()
    ensures dir.Valid() && dir.view == Undone(old(dir.view), key, destination)
  {
    var r := dir.SetState(key, destination, ERROR);
    r := dir.Remove(key, destination);
  }

  method BothReady(dir: CacheDirectory, key: CacheKey, source: StorageTier, destination: StorageTier)
    requires dir.Valid() && dir.view.HasReplica(key, source) && dir.view.HasReplica(key, destination)
    modifies dir`records, dir`view
    ensures dir.Valid()
    ensures dir.view == SetState(SetState(old(dir.view), key, destination, READY), key, source, READY)
  {
    var r := dir.SetState(key, destination, READY);
    r := dir.SetState(key, source, READY);
  }

  // ---------------------------------------------------------------- GPU and CPU

  class GpuCpuTransfer {
    const directory: CacheDirectory
    const gpu: ChunkBuffers
    const cpu: ChunkBuffers
    var pending: map<CacheKey, PendingMove>

    /** One buffer for every slot. */
    ghost predicate BuffersFit(d: Directory)
      reads gpu, cpu
    {
      && gpu.Valid() && cpu.Valid() && gpu != cpu && gpu.chunkBytes == cpu.chunkBytes
      && |gpu.data| == |d.gpu.generations| && |cpu.data| == |d.cpu.generations|
    }

    ghost function Held(files: map<nat, seq<Byte>>): Bytes
      reads gpu, cpu
    {
      Bytes(gpu.data, cpu.data, files)
    }

    /** Every READY replica, and the source of every pending move, holds its chunk's bytes; a pending move has
        both its replicas in place, out of READY, and its chunk pinned. */
    ghost predicate Sound(files: map<nat, seq<Byte>>, truth: map<CacheKey, Payload>)
      reads this, directory, directory.Tiers(), gpu, cpu
    {
      directory.Valid() && BuffersFit(directory.view) && Sane(directory.view, Held(files), pending, truth)
    }

    constructor (directory: CacheDirectory, gpu: ChunkBuffers, cpu: ChunkBuffers, ghost files: map<nat, seq<Byte>>,
                 ghost truth: map<CacheKey, Payload>)
      requires directory.Valid() && gpu.Valid() && cpu.Valid() && gpu != cpu && gpu.chunkBytes == cpu.chunkBytes
      requires |gpu.data| == |directory.view.gpu.generations| && |cpu.data| == |directory.view.cpu.generations|
      requires Intact(directory.view, Bytes(gpu.data, cpu.data, files), truth)
      ensures Sound(files, truth) && pending == map[] && this.directory == directory && this.gpu == gpu
              && this.cpu == cpu
    {
      directory.Unfold();
      this.directory, this.gpu, this.cpu := directory, gpu, cpu;
      pending := map[];
      new;
      directory.Fold();
      directory.IsOrderly();
      NothingUnderWay(directory.view, Held(files), truth);
    }

    /** begin_offload and begin_onload. Accepted: both replicas are out of READY and the chunk is pinned.
        Refused: no record differs, and no taken slot. */
    method Begin(key: CacheKey, offload: bool, starts: bool, ghost files: map<nat, seq<Byte>>,
                 ghost truth: map<CacheKey, Payload>)
      returns (r: Result<()>)
      requires Sound(files, truth)
      modifies this, directory, directory.Tiers(), gpu, cpu
      ensures Sound(files, truth) && BytesUntouched(old(directory.view), old(Held(files)), Held(files))
      ensures r.Ok? ==> key !in old(pending) && key in pending && pending == old(pending)[key := pending[key]]
                        && pending[key].offload == offload
                        && BeginsWith(old(directory.view), directory.view, key, pending[key])
      ensures r.Err? ==> Unmoved(old(directory.view), directory.view) && pending == old(pending)
      ensures r == Err(OutOfRange) <==> key !in old(pending) && key !in old(directory.records)
      ensures r == Err(LogicError) <==>
                || key in old(pending)
                || (key in old(directory.records)
                    && !Departs(old(directory.view), key, if offload then GPU else CPU, if offload then CPU else GPU))
      ensures r == Err(CapacityError) <==>
                && key !in old(pending) && old(directory.NoRoom(if offload then CPU else GPU))
                && Departs(old(directory.view), key, if offload then GPU else CPU, if offload then CPU else GPU)
      ensures r == Err(OverflowError) ==> old(directory.Worn(if offload then CPU else GPU)) != {}
      ensures r.Err? ==> r.error in {OutOfRange, LogicError, CapacityError, OverflowError, DeviceError}
      ensures (r.Ok? ==> starts) && (r == Err(DeviceError) ==> !starts)
    {
      if key in pending { return Err(LogicError); }
      ghost var d, b := directory.view, Held(files);
      var placed := Open(directory, key, if offload then GPU else CPU, if offload then CPU else GPU,
                         if offload then COPYING else LOADING);
      if placed.Err? {
        directory.IsOrderly();
        UnmovedIsSane(d, b, directory.view, b, pending, truth);
        return Err(placed.error);
      }
      var p := PendingMove(directory.records[key].replicas[if offload then GPU else CPU].location, placed.value,
                           offload);
      r := Start(key, p, starts, d, files, truth);
    }

    /** The transfer is sent off, or given up. */
    method Start(key: CacheKey, p: PendingMove, starts: bool, ghost d: Directory, ghost files: map<nat, seq<Byte>>,
                 ghost truth: map<CacheKey, Payload>)
      returns (r: Result<()>)
      requires directory.Valid() && BuffersFit(d) && Sane(d, Held(files), pending, truth) && key !in pending
      requires Departs(d, key, p.From(), p.To()) && CanAllocate(d.Tier(p.To()), p.destination)
      requires directory.view == Opened(d, key, p.From(), p.To(), p.Arriving(), p.destination)
      requires p.source == d.ReplicaOf(key, p.From()).location
      modifies this, directory, directory.Tiers(), gpu, cpu
      ensures Sound(files, truth) && BytesUntouched(d, old(Held(files)), Held(files))
      ensures r.Ok? ==> pending == old(pending)[key := p] && BeginsWith(d, directory.view, key, p)
      ensures r.Err? ==> r.error == DeviceError && Unmoved(d, directory.view) && pending == old(pending)
      ensures r.Ok? <==> starts
    {
      ghost var b := Held(files);
      if starts {
        Launch(key, p, d, files, truth);
        r := Ok(());
      } else {
        GiveUp(key, p, d, files);
        directory.IsOrderly();
        UnmovedIsSane(d, b, directory.view, Held(files), pending, truth);
        r := Err(DeviceError);
      }
    }

    method Launch(key: CacheKey, p: PendingMove, ghost d: Directory, ghost files: map<nat, seq<Byte>>,
                  ghost truth: map<CacheKey, Payload>)
      requires directory.Valid() && Sane(d, Held(files), pending, truth) && key !in pending
      requires Departs(d, key, p.From(), p.To()) && CanAllocate(d.Tier(p.To()), p.destination)
      requires directory.view == Opened(d, key, p.From(), p.To(), p.Arriving(), p.destination)
      requires p.source == d.ReplicaOf(key, p.From()).location
      modifies `pending, directory`records, directory`view
      ensures directory.Valid() && Sane(directory.view, Held(files), pending, truth)
      ensures pending == old(pending)[key := p] && BeginsWith(d, directory.view, key, p)
    {
      ghost var before := pending;
      directory.Unfold();
      pending := pending[key := p];
      directory.Fold();
      var pinned := directory.Pin(key);
      directory.IsOrderly();
      assert directory.view == Begun(d, key, p);
      BegunIsSane(d, Held(files), key, p, before, truth);
    }

    /** The transfer could not be started; what it may have written is in a slot nobody owns. */
    method GiveUp(key: CacheKey, p: PendingMove, ghost d: Directory, ghost files: map<nat, seq<Byte>>)
      requires directory.Valid() && BuffersFit(d)
      requires Departs(d, key, p.From(), p.To()) && CanAllocate(d.Tier(p.To()), p.destination)
      requires directory.view == Opened(d, key, p.From(), p.To(), p.Arriving(), p.destination)
      modifies directory, directory.Tiers(), gpu, cpu
      ensures directory.Valid() && Unmoved(d, directory.view) && BuffersFit(d)
      ensures BytesUntouched(d, old(Held(files)), Held(files))
    {
      Spoil(p);
      RollBack(directory, key, p.From(), p.To(), d, p.Arriving(), p.destination);
    }

    method Spoil(p: PendingMove)
      requires gpu.Valid() && cpu.Valid() && gpu != cpu
               && p.destination.slot < (if p.offload then |cpu.data| else |gpu.data|)
      modifies gpu, cpu
      ensures gpu.Valid() && cpu.Valid() && OnlySlot(old(gpu.data), old(cpu.data), gpu.data, cpu.data, p)
    {
      if p.offload { cpu.Spoil(p.destination.slot); } else { gpu.Spoil(p.destination.slot); }
    }

    /** finish_offload and finish_onload. A transfer that `arrives` leaves the destination READY with the chunk's
        bytes and gives back the pin; otherwise it can be finished again later. */
    method Finish(key: CacheKey, offload: bool, releaseSource: bool, arrives: bool, ghost files: map<nat, seq<Byte>>,
                  ghost truth: map<CacheKey, Payload>)
      returns (r: Result<()>)
      requires Sound(files, truth)
      modifies this, directory, directory.Tiers(), gpu, cpu
      ensures Sound(files, truth)
      ensures r.Ok? ==> key in old(pending) && old(pending)[key].offload == offload && pending == old(pending) - {key}
                        && Concluded(old(directory.view), directory.view, key, old(pending)[key], releaseSource)
      ensures r.Err? ==> directory.view == old(directory.view) && pending == old(pending)
      ensures r == Err(LogicError) <==> key !in old(pending) || old(pending)[key].offload != offload
      ensures r.Err? ==> r.error in {LogicError, DeviceError}
      ensures (r.Ok? ==> arrives) && (r == Err(DeviceError) ==> !arrives)
    {
      if key !in pending || pending[key].offload != offload { return Err(LogicError); }
      var p := pending[key];
      ghost var d, b := directory.view, Held(files);
      PendingFits(d, b, key, pending, truth);
      if arrives {
        Arrive(key, p, releaseSource, files, truth);
        r := Ok(());
      } else {
        Spoil(p);
        SpoiledSlotIsSane(d, b, Held(files), key, p, pending, truth);
        r := Err(DeviceError);
      }
    }

    method Arrive(key: CacheKey, p: PendingMove, releaseSource: bool, ghost files: map<nat, seq<Byte>>,
                  ghost truth: map<CacheKey, Payload>)
      requires Sound(files, truth) && key in pending && pending[key] == p
      modifies this, directory, directory.Tiers(), gpu, cpu
      ensures Sound(files, truth) && pending == old(pending) - {key}
      ensures Concluded(old(directory.view), directory.view, key, p, releaseSource)
    {
      ghost var d, b := directory.view, Held(files);
      PendingFits(d, b, key, pending, truth);
      Deliver(p);
      Conclude(key, p, releaseSource);
      directory.IsOrderly();
      DeliveredIsSane(d, b, directory.view, Held(files), key, p, releaseSource, pending, truth);
      pending := pending - {key};
    }

    /** The copy itself. */
    method Deliver(p: PendingMove)
      requires gpu.Valid() && cpu.Valid() && gpu != cpu && gpu.chunkBytes == cpu.chunkBytes
      requires p.source.slot < (if p.offload then |gpu.data| else |cpu.data|)
      requires p.destination.slot < (if p.offload then |cpu.data| else |gpu.data|)
      modifies gpu, cpu
      ensures gpu.Valid() && cpu.Valid() && OnlySlot(old(gpu.data), old(cpu.data), gpu.data, cpu.data, p)
      ensures if p.offload then cpu.data[p.destination.slot] == gpu.data[p.source.slot]
              else gpu.data[p.destination.slot] == cpu.data[p.source.slot]
    {
      assert gpu.Valid() && cpu.Valid();
      if p.offload {
        cpu.Fill(p.destination.slot, gpu.data[p.source.slot]);
      } else {
        gpu.Fill(p.destination.slot, cpu.data[p.source.slot]);
      }
    }

    /** The directory's part of finishing. */
    method Conclude(key: CacheKey, p: PendingMove, releaseSource: bool)
      requires directory.Valid() && UnderWay(directory.view, key, p)
      modifies directory, directory.Tiers()
      ensures directory.Valid() && Concluded(old(directory.view), directory.view, key, p, releaseSource)
    {
      ghost var d := directory.view;
      BothReadyRecords(d, key, p);
      ConcludedKept(d, key, p);
      BothReady(directory, key, p.From(), p.To());
      var r := directory.Unpin(key);
      assert directory.view == Settled(d, key, p);
      if releaseSource {
        ConcludedReleased(d, key, p);
        r := directory.Remove(key, p.From());
      }
    }
  }

  // ---------------------------------------------------------------- CPU and NVMe

  /** How a move by way of a chunk file ends. The last: the chunk arrived, and deleting the file it came from threw. */
  datatype FileMove =
    | Arrived(location: Location)
    | Refused(error: Error)
    | OverQuota
    | StoreError
    | FileMissing
    | FileCorrupt
    | SourceKept(location: Location)

  /** How reading a file this program wrote for `key` can end: it is there, and refused exactly for an identity that is
      too long, whenever the read itself gets through. */
  ghost predicate TrustsOwnFile(key: CacheKey, r: FileMove) {
    && !r.FileMissing?
    && (r.FileCorrupt? ==> !Plausible(FileMeta(key, 0, 0)))
    && (r.Arrived? || r.SourceKept? ==> Plausible(FileMeta(key, 0, 0)))
  }

  /** The size of a chunk's file: a header of 76 bytes, the model's name, four bytes for each token, and the chunk. */
  function FileBytes(key: CacheKey, chunkBytes: nat): nat {
    76 + |key.modelId| + 4 * |key.prefix| + chunkBytes
  }

  /** The file is larger than the quota allows in all, or more than is left beside the files already there (counted in
      64 bits). */
  ghost predicate OverTheQuota(quota: nat, files: map<nat, seq<Byte>>, slot: nat, key: CacheKey,
                               chunkBytes: nat) {
    var size := FileBytes(key, chunkBytes);
    size > quota || (Total(files) - Replaced(files, slot) + size) % TWO64 > quota
  }

  lemma QuotaInNumbers(quota: nat, files: map<nat, seq<Byte>>, slot: nat, file: seq<Byte>, key: CacheKey,
                       chunkBytes: nat)
    requires |file| == FileBytes(key, chunkBytes)
    requires |file| > quota || Total(files[slot := file]) % TWO64 > quota
    ensures OverTheQuota(quota, files, slot, key, chunkBytes)
  {
    TotalUpdate(files, slot, file);
  }

  class NvmeTransfer {
    const directory: CacheDirectory
    const store: ChunkFileStore
    const cpu: ChunkBuffers

    ghost function Held(gpu: seq<Payload>): Bytes
      reads store, cpu
    {
      Bytes(gpu, cpu.data, store.published)
    }

    ghost predicate Fits(d: Directory, truth: map<CacheKey, Payload>)
      reads cpu
    {
      && cpu.Valid() && |cpu.data| == |d.cpu.generations| && cpu.chunkBytes < TWO64
      && forall key :: key in truth ==> |truth[key]| == cpu.chunkBytes
    }

    /** The same agreement as for moves between GPU and CPU, with the published files as the third tier's bytes. */
    ghost predicate Sound(gpu: seq<Payload>, pending: map<CacheKey, PendingMove>, truth: map<CacheKey, Payload>)
      reads directory, directory.Tiers(), store, cpu
    {
      directory.Valid() && store.Valid() && Fits(directory.view, truth)
      && Sane(directory.view, Held(gpu), pending, truth)
    }

    constructor (directory: CacheDirectory, store: ChunkFileStore, cpu: ChunkBuffers)
      ensures this.directory == directory && this.store == store && this.cpu == cpu
    {
      this.directory, this.store, this.cpu := directory, store, cpu;
    }

    /** Writes the chunk's file. Anything but arrival leaves the replicas and the published files as they were. */
    method Offload(key: CacheKey, validTokens: nat, releaseCpu: bool, ghost gpu: seq<Payload>,
                   ghost pending: map<CacheKey, PendingMove>, ghost truth: map<CacheKey, Payload>)
      returns (r: FileMove)
      requires Sound(gpu, pending, truth) && FileFits(key, cpu.chunkBytes)
               && validTokens < TWO64
      modifies directory, directory.Tiers(), store
      ensures Sound(gpu, pending, truth) && BytesUntouched(old(directory.view), old(Held(gpu)), Held(gpu))
      ensures r.Arrived? ==> Gained(old(directory.view), directory.view, key, CPU, NVME, r.location, releaseCpu)
      ensures !r.Arrived? ==> Unmoved(old(directory.view), directory.view) && store.published == old(store.published)
      ensures r.Arrived? || r.Refused? || r.OverQuota? || r.StoreError?
      ensures r == Refused(OutOfRange) <==> key !in old(directory.records)
      ensures r == Refused(LogicError) <==>
                key in old(directory.records) && !Departs(old(directory.view), key, CPU, NVME)
      ensures r == Refused(CapacityError) <==>
                Departs(old(directory.view), key, CPU, NVME) && old(directory.NoRoom(NVME))
      ensures r == Refused(OverflowError) ==> old(directory.Worn(NVME)) != {}
      ensures r.Refused? ==> r.error in {OutOfRange, LogicError, CapacityError, OverflowError}
      ensures r.StoreError? <==> store.Broke(old(store.calls))
      ensures r.OverQuota? ==> exists slot: nat ::
                OverTheQuota(store.quota, old(store.published), slot, key, cpu.chunkBytes)
    {
      ghost var d, b := directory.view, Held(gpu);
      var placed := Open(directory, key, CPU, NVME, COPYING);
      if placed.Ok? {
        r := Ship(key, validTokens, placed.value, directory.records[key].replicas[CPU].location.slot, releaseCpu, d, b,
                  gpu, pending, truth);
      } else {
        directory.IsOrderly();
        UnmovedIsSane(d, b, directory.view, b, pending, truth);
        r := Refused(placed.error);
      }
    }

    /** The move itself, with the destination's slot taken. */
    method Ship(key: CacheKey, validTokens: nat, loc: Location, source: nat, releaseCpu: bool, ghost d: Directory,
                ghost b: Bytes, ghost gpu: seq<Payload>, ghost pending: map<CacheKey, PendingMove>,
                ghost truth: map<CacheKey, Payload>)
      returns (r: FileMove)
      requires directory.Valid() && store.Valid() && Fits(d, truth) && b == Held(gpu) && Sane(d, b, pending, truth)
      requires Departs(d, key, CPU, NVME) && CanAllocate(d.nvme, loc) && source == d.ReplicaOf(key, CPU).location.slot
      requires directory.view == Opened(d, key, CPU, NVME, COPYING, loc)
      requires FileFits(key, cpu.chunkBytes) && validTokens < TWO64
      modifies directory, directory.Tiers(), store
      ensures Sound(gpu, pending, truth)
      ensures r.Arrived? ==> loc.slot in store.published
                             && store.published == old(store.published)[loc.slot := store.published[loc.slot]]
      ensures r.Arrived? ==> Gained(d, directory.view, key, CPU, NVME, r.location, releaseCpu)
      ensures !r.Arrived? ==>
                (r.OverQuota? || r.StoreError?) && Unmoved(d, directory.view) && store.published == old(store.published)
      ensures r.StoreError? <==> store.Broke(old(store.calls))
      ensures r.OverQuota? ==>
                OverTheQuota(store.quota, old(store.published), loc.slot, key, cpu.chunkBytes)
    {
      SourceHolds(d, b, key, CPU, pending, truth);
      r := Send(key, validTokens, loc, source, d, b, gpu, pending, truth);
      if r.Arrived? && releaseCpu {
        GainedThenRemoved(d, directory.view, key, CPU, NVME, r.location);
        Forget(key, CPU, NVME, d, Held(gpu), r.location, gpu, pending, truth);
      }
    }

    method Send(key: CacheKey, validTokens: nat, loc: Location, source: nat, ghost d: Directory, ghost b: Bytes,
                ghost gpu: seq<Payload>, ghost pending: map<CacheKey, PendingMove>, ghost truth: map<CacheKey, Payload>)
      returns (r: FileMove)
      requires directory.Valid() && store.Valid() && Fits(d, truth) && b == Held(gpu) && Sane(d, b, pending, truth)
      requires Departs(d, key, CPU, NVME) && CanAllocate(d.nvme, loc)
               && source == d.ReplicaOf(key, CPU).location.slot < |cpu.data|
      requires directory.view == Opened(d, key, CPU, NVME, COPYING, loc)
      requires FileFits(key, cpu.chunkBytes) && validTokens < TWO64
      modifies directory, directory.Tiers(), store
      ensures directory.Valid() && store.Valid() && Sane(directory.view, Held(gpu), pending, truth)
      ensures r.Arrived? ==> loc.slot in store.published
                             && store.published == old(store.published)[loc.slot := store.published[loc.slot]]
      ensures r.Arrived? ==>
                r.location == loc && key !in pending && Gained(d, directory.view, key, CPU, NVME, loc, false)
      ensures !r.Arrived? ==>
                (r.OverQuota? || r.StoreError?) && Unmoved(d, directory.view) && store.published == old(store.published)
      ensures r.StoreError? <==> store.Broke(old(store.calls))
      ensures r.OverQuota? ==>
                OverTheQuota(store.quota, old(store.published), loc.slot, key, cpu.chunkBytes)
    {
      var written := WriteFile(loc, key, validTokens, source, d, gpu, truth);
      if written == Written {
        Join(key, CPU, NVME, d, b, COPYING, loc, gpu, pending, truth);
        r := Arrived(loc);
      } else {
        Abandon(key, CPU, NVME, d, b, COPYING, loc, gpu, pending, truth);
        r := if written == QuotaExceeded then OverQuota else StoreError;
      }
    }

    /** A chunk file in a free slot holds what the CPU replica holds, and no owned slot's bytes differ. */
    method WriteFile(loc: Location, key: CacheKey, validTokens: nat, source: nat, ghost d: Directory,
                     ghost gpu: seq<Payload>, ghost truth: map<CacheKey, Payload>) returns (r: WriteOutcome)
      requires store.Valid() && cpu.Valid() && cpu.chunkBytes < TWO64 && FileFits(key, cpu.chunkBytes)
               && validTokens < TWO64
      requires CanAllocate(d.nvme, loc) && d.HasReplica(key, CPU)
               && source == d.ReplicaOf(key, CPU).location.slot < |cpu.data|
      modifies store
      ensures store.Valid() && BytesUntouched(d, old(Held(gpu)), Held(gpu))
      ensures r != Written ==> store.published == old(store.published)
      ensures r == Written ==> loc.slot in store.published
                               && store.published == old(store.published)[loc.slot := store.published[loc.slot]]
      ensures r == Written ==> key in truth && ReplicaHolds(d, old(Held(gpu)), key, CPU, truth[key]) ==>
                Holds(Held(gpu), key, NVME, loc.slot, truth[key])
      ensures r == WriteFailed <==> store.Broke(old(store.calls))
      ensures r == QuotaExceeded ==>
                OverTheQuota(store.quota, old(store.published), loc.slot, key, cpu.chunkBytes)
    {
      ghost var b := Held(gpu);
      r := PutFile(loc.slot, key, validTokens, source);
      if r == Written { SentHolds(d, b, Held(gpu), key, loc, store.published[loc.slot], truth); }
    }

    method PutFile(slot: nat, key: CacheKey, validTokens: nat, source: nat) returns (r: WriteOutcome)
      requires store.Valid() && cpu.Valid() && cpu.chunkBytes < TWO64 && source < |cpu.data|
      requires FileFits(key, cpu.chunkBytes) && validTokens < TWO64
      modifies store
      ensures store.Valid()
      ensures r != Written ==> store.published == old(store.published)
      ensures r == Written ==> slot in store.published && IsFileOf(store.published[slot], key, cpu.data[source])
                               && store.published == old(store.published)[slot := store.published[slot]]
      ensures r == WriteFailed <==> store.Broke(old(store.calls))
      ensures r == QuotaExceeded ==>
                OverTheQuota(store.quota, old(store.published), slot, key, cpu.chunkBytes)
    {
      var meta := FileMeta(key, validTokens, cpu.chunkBytes);
      FileSize(meta, cpu.data[source]);
      ghost var files, file := store.published, FileOf(meta, cpu.data[source]);
      r := store.Write(slot, meta, cpu.data[source]);
      if r == QuotaExceeded { QuotaInNumbers(store.quota, files, slot, file, key, cpu.chunkBytes); }
    }

    /** The bytes are there: both replicas become READY. */
    method Join(key: CacheKey, source: StorageTier, destination: StorageTier, ghost d: Directory, ghost b: Bytes,
                ghost arrival: ChunkState, ghost loc: Location, ghost gpu: seq<Payload>,
                ghost pending: map<CacheKey, PendingMove>, ghost truth: map<CacheKey, Payload>)
      requires directory.Valid() && Sane(d, b, pending, truth) && BytesUntouched(d, b, Held(gpu))
      requires Departs(d, key, source, destination) && CanAllocate(d.Tier(destination), loc)
               && (source == CPU || destination == CPU)
      requires directory.view == Opened(d, key, source, destination, arrival, loc)
      requires key in truth && ReplicaHolds(d, b, key, source, truth[key]) ==>
                 Holds(Held(gpu), key, destination, loc.slot, truth[key])
      modifies directory`records, directory`view
      ensures directory.Valid() && Sane(directory.view, Held(gpu), pending, truth) && key !in pending
      ensures Gained(d, directory.view, key, source, destination, loc, false)
    {
      JoinedGained(d, key, source, destination, arrival, loc);
      BothReady(directory, key, source, destination);
      directory.IsOrderly();
      GainedIsSane(d, b, directory.view, Held(gpu), key, source, destination, loc, pending, truth);
    }

    /** Something threw: the replicas are as they were. */
    method Abandon(key: CacheKey, source: StorageTier, destination: StorageTier, ghost d: Directory, ghost b: Bytes,
                   ghost arrival: ChunkState, ghost loc: Location, ghost gpu: seq<Payload>,
                   ghost pending: map<CacheKey, PendingMove>, ghost truth: map<CacheKey, Payload>)
      requires directory.Valid() && Sane(d, b, pending, truth) && BytesUntouched(d, b, Held(gpu))
      requires Departs(d, key, source, destination) && CanAllocate(d.Tier(destination), loc)
      requires directory.view == Opened(d, key, source, destination, arrival, loc)
      modifies directory, directory.Tiers()
      ensures directory.Valid() && Sane(directory.view, Held(gpu), pending, truth) && Unmoved(d, directory.view)
    {
      RollBack(directory, key, source, destination, d, arrival, loc);
      directory.IsOrderly();
      UnmovedIsSane(d, b, directory.view, Held(gpu), pending, truth);
    }

    /** The source replica goes, and with it whatever bytes of its slot have changed since `b`. */
    method Forget(key: CacheKey, source: StorageTier, destination: StorageTier, ghost d: Directory, ghost b: Bytes,
                  ghost loc: Location, ghost gpu: seq<Payload>, ghost pending: map<CacheKey, PendingMove>,
                  ghost truth: map<CacheKey, Payload>)
      requires directory.Valid() && Sane(directory.view, b, pending, truth) && key !in pending
      requires Gained(d, directory.view, key, source, destination, loc, false)
      requires directory.view.HasReplica(key, source)
               && BytesUntouched(Remove(directory.view, key, source), b, Held(gpu))
      modifies directory, directory.Tiers()
      ensures directory.Valid() && Sane(directory.view, Held(gpu), pending, truth)
      ensures Gained(d, directory.view, key, source, destination, loc, true)
    {
      GainedThenRemoved(d, directory.view, key, source, destination, loc);
      RemovedIsSane(directory.view, b, Held(gpu), key, source, pending, truth);
      var removed := directory.Remove(key, source);
    }

    /** Reads the chunk's file back. A file this program wrote for the chunk is there, and is accepted unless the
        chunk's identity is too long; anything but arrival leaves the replicas and the published files as they were.
        Only when the deletion of the file throws does the chunk arrive and the call fail. */
    method Onload(key: CacheKey, releaseNvme: bool, unreadable: bool, ghost gpu: seq<Payload>,
                  ghost pending: map<CacheKey, PendingMove>, ghost truth: map<CacheKey, Payload>)
      returns (r: FileMove)
      requires Sound(gpu, pending, truth) && KeyFits(key)
      modifies directory, directory.Tiers(), store, cpu
      ensures Sound(gpu, pending, truth) && Untouched(old(cpu.data), cpu.data, old(directory.view).cpu.taken)
      ensures r.Arrived? ==> Gained(old(directory.view), directory.view, key, NVME, CPU, r.location, releaseNvme)
      ensures r.SourceKept? ==>
                releaseNvme && Gained(old(directory.view), directory.view, key, NVME, CPU, r.location, false)
      ensures !r.Arrived? && !r.SourceKept? ==> Unmoved(old(directory.view), directory.view)
      ensures !(r.Arrived? && releaseNvme) ==> store.published == old(store.published)
      ensures r == Refused(OutOfRange) <==> key !in old(directory.records)
      ensures r == Refused(LogicError) <==>
                key in old(directory.records) && !Departs(old(directory.view), key, NVME, CPU)
      ensures r == Refused(CapacityError) <==>
                Departs(old(directory.view), key, NVME, CPU) && old(directory.NoRoom(CPU))
      ensures r == Refused(OverflowError) ==> old(directory.Worn(CPU)) != {}
      ensures r.Refused? ==> r.error in {OutOfRange, LogicError, CapacityError, OverflowError}
      ensures !r.OverQuota? && (r.StoreError? ==> unreadable) && (r.Arrived? || r.SourceKept? ==> !unreadable)
      ensures r.SourceKept? <==> store.Broke(old(store.calls))
      ensures key in truth ==> TrustsOwnFile(key, r)
    {
      ghost var d, b := directory.view, Held(gpu);
      var placed := Open(directory, key, NVME, CPU, LOADING);
      if placed.Ok? {
        SourceHolds(d, b, key, NVME, pending, truth);
        r := Bring(key, placed.value, directory.records[key].replicas[NVME].location.slot, releaseNvme, unreadable,
                   d, b, gpu, pending, truth);
      } else {
        directory.IsOrderly();
        UnmovedIsSane(d, b, directory.view, b, pending, truth);
        r := Refused(placed.error);
      }
    }

    /** The move itself, with the destination's slot taken. */
    method Bring(key: CacheKey, loc: Location, source: nat, releaseNvme: bool, unreadable: bool, ghost d: Directory,
                 ghost b: Bytes, ghost gpu: seq<Payload>, ghost pending: map<CacheKey, PendingMove>,
                 ghost truth: map<CacheKey, Payload>)
      returns (r: FileMove)
      requires directory.Valid() && store.Valid() && Fits(d, truth) && b == Held(gpu) && Sane(d, b, pending, truth)
      requires Departs(d, key, NVME, CPU) && CanAllocate(d.cpu, loc) && source == d.ReplicaOf(key, NVME).location.slot
      requires directory.view == Opened(d, key, NVME, CPU, LOADING, loc)
      requires KeyFits(key) && (key in truth ==> ReplicaHolds(d, b, key, NVME, truth[key]))
      modifies directory, directory.Tiers(), store, cpu
      ensures Sound(gpu, pending, truth) && Untouched(old(cpu.data), cpu.data, d.cpu.taken)
      ensures r.Arrived? ==> Gained(d, directory.view, key, NVME, CPU, r.location, releaseNvme)
      ensures r.SourceKept? ==> releaseNvme && Gained(d, directory.view, key, NVME, CPU, r.location, false)
      ensures !r.Arrived? && !r.SourceKept? ==> !r.Refused? && Unmoved(d, directory.view)
      ensures !(r.Arrived? && releaseNvme) ==> store.published == old(store.published)
      ensures !r.OverQuota? && (r.StoreError? ==> unreadable) && (r.Arrived? || r.SourceKept? ==> !unreadable)
      ensures r.SourceKept? <==> store.Broke(old(store.calls))
      ensures key in truth ==> TrustsOwnFile(key, r)
    {
      r := Fetch(key, loc, source, unreadable, d, b, gpu, pending, truth);
      if r.Arrived? && releaseNvme {
        var dropped := DropFile(key, source, d, loc, gpu, pending, truth);
        r := if dropped then Arrived(loc) else SourceKept(loc);
      }
    }

    method Fetch(key: CacheKey, loc: Location, source: nat, unreadable: bool, ghost d: Directory, ghost b: Bytes,
                 ghost gpu: seq<Payload>, ghost pending: map<CacheKey, PendingMove>,
                 ghost truth: map<CacheKey, Payload>)
      returns (r: FileMove)
      requires directory.Valid() && store.Valid() && Fits(d, truth) && b == Held(gpu) && Sane(d, b, pending, truth)
      requires Departs(d, key, NVME, CPU) && CanAllocate(d.cpu, loc) && source == d.ReplicaOf(key, NVME).location.slot
      requires directory.view == Opened(d, key, NVME, CPU, LOADING, loc)
      requires KeyFits(key) && (key in truth ==> ReplicaHolds(d, b, key, NVME, truth[key]))
      modifies directory, directory.Tiers(), cpu
      ensures Sound(gpu, pending, truth) && Untouched(old(cpu.data), cpu.data, d.cpu.taken)
      ensures r.Arrived? ==>
                r.location == loc && key !in pending && Gained(d, directory.view, key, NVME, CPU, loc, false)
      ensures r.Arrived? ==> source in store.published
      ensures !r.Arrived? ==> (r.StoreError? || r.FileMissing? || r.FileCorrupt?) && Unmoved(d, directory.view)
      ensures (r.StoreError? ==> unreadable) && (r.Arrived? ==> !unreadable)
      ensures key in truth ==> TrustsOwnFile(key, r)
    {
      r := ReadFile(loc, key, source, unreadable, truth);
      if r.Arrived? {
        Join(key, NVME, CPU, d, b, LOADING, loc, gpu, pending, truth);
      } else {
        Abandon(key, NVME, CPU, d, b, LOADING, loc, gpu, pending, truth);
      }
    }

    /** Fills the destination from the file; what a failed read leaves behind is in that slot alone. */
    method ReadFile(loc: Location, key: CacheKey, source: nat, unreadable: bool, ghost truth: map<CacheKey, Payload>)
      returns (r: FileMove)
      requires cpu.Valid() && loc.slot < |cpu.data| && KeyFits(key) && cpu.chunkBytes < TWO64
      requires key in truth ==> |truth[key]| == cpu.chunkBytes
      modifies cpu
      ensures cpu.Valid() && |cpu.data| == |old(cpu.data)|
      ensures forall i :: 0 <= i < |cpu.data| && i != loc.slot ==> cpu.data[i] == old(cpu.data)[i]
      ensures r == Arrived(loc) || r.StoreError? || r.FileMissing? || r.FileCorrupt?
      ensures r.FileMissing? <==> source !in store.published
      ensures (r.StoreError? ==> unreadable) && (r.Arrived? ==> !unreadable)
      ensures key in truth && source in store.published && IsFileOf(store.published[source], key, truth[key]) ==>
                TrustsOwnFile(key, r) && (r.Arrived? ==> cpu.data[loc.slot] == truth[key])
    {
      var found := Load(key, source, unreadable, truth);
      if found == Missing { return FileMissing; }
      if found.ReadFailed? || found.outcome.Corrupt? {
        cpu.Spoil(loc.slot);
        r := if found.ReadFailed? then StoreError else FileCorrupt;
      } else {
        cpu.Fill(loc.slot, found.outcome.payload);
        r := Arrived(loc);
      }
    }

    method Load(key: CacheKey, source: nat, unreadable: bool, ghost truth: map<CacheKey, Payload>)
      returns (found: ReadResult)
      requires KeyFits(key) && cpu.chunkBytes < TWO64 && (key in truth ==> |truth[key]| == cpu.chunkBytes)
      ensures found == Missing <==> source !in store.published
      ensures found == ReadFailed <==> source in store.published && unreadable
      ensures found.Found? && found.outcome.Loaded? ==> |found.outcome.payload| <= cpu.chunkBytes
      ensures key in truth && source in store.published && IsFileOf(store.published[source], key, truth[key])
              && found.Found? ==>
                if Plausible(FileMeta(key, 0, 0)) then found.outcome.Loaded? && found.outcome.payload == truth[key]
                else found.outcome == Corrupt
    {
      if source in store.published { ReadBack(store.published[source], key, truth, cpu.chunkBytes); }
      found := store.ReadChunk(source, FileMeta(key, 0, cpu.chunkBytes), cpu.chunkBytes, unreadable);
    }

    /** Deletes the file, then removes its replica; false if deleting the file throws. */
    method DropFile(key: CacheKey, source: nat, ghost d: Directory, loc: Location, ghost gpu: seq<Payload>,
                    ghost pending: map<CacheKey, PendingMove>, ghost truth: map<CacheKey, Payload>)
      returns (dropped: bool)
      requires Sound(gpu, pending, truth) && key !in pending
      requires Gained(d, directory.view, key, NVME, CPU, loc, false) && source in store.published
      requires d.HasReplica(key, NVME) && source == d.ReplicaOf(key, NVME).location.slot
      modifies directory, directory.Tiers(), store
      ensures Sound(gpu, pending, truth)
      ensures Gained(d, directory.view, key, NVME, CPU, loc, dropped)
      ensures !dropped ==> store.published == old(store.published)
      ensures dropped <==> !store.Broke(old(store.calls))
    {
      ghost var e, b := directory.view, Held(gpu);
      var erased := store.Erase(source);
      dropped := erased == Erased;
      if dropped {
        ErasedUntouched(d, e, b, Held(gpu), key, loc);
        Forget(key, NVME, CPU, d, b, loc, gpu, pending, truth);
      }
    }
  }

  // ---------------------------------------------------------------- any chain of moves

  datatype Move =
    | BeginMove(key: CacheKey, offload: bool, starts: bool)
    | FinishMove(key: CacheKey, offload: bool, release: bool, arrives: bool)
    | FileOut(key: CacheKey, validTokens: nat, release: bool)
    | FileIn(key: CacheKey, release: bool, unreadable: bool)

  /** A client of both movers over one directory and one set of host buffers. */
  class MoveClient {
    const device: GpuCpuTransfer
    const file: NvmeTransfer
    const directory: CacheDirectory

    /** Both movers agree with `truth`, and no chunk of it is out of reach. */
    ghost predicate Sound(truth: map<CacheKey, Payload>)
      reads device, device.gpu, device.cpu, directory, directory.Tiers(), file.store, file.cpu
    {
      && device.directory == directory && file.directory == directory && file.cpu == device.cpu
      && device.Sound(file.store.published, truth) && file.Sound(device.gpu.data, device.pending, truth)
      && AllReachable(directory.view, device.pending, truth)
    }

    ghost function Held(): Bytes
      reads device.gpu, device.cpu, file.store
    {
      Bytes(device.gpu.data, device.cpu.data, file.store.published)
    }

    constructor (device: GpuCpuTransfer, file: NvmeTransfer, ghost truth: map<CacheKey, Payload>)
      requires file.directory == device.directory && file.cpu == device.cpu
      requires device.Sound(file.store.published, truth) && file.Sound(device.gpu.data, device.pending, truth)
      requires AllReachable(device.directory.view, device.pending, truth)
      ensures Sound(truth) && this.device == device && this.file == file && this.directory == device.directory
    {
      device.directory.Unfold();
      this.device, this.file, this.directory := device, file, device.directory;
      new;
      directory.Fold();
    }

    ghost predicate Permitted(m: Move) {
      FileFits(m.key, file.cpu.chunkBytes) && (m.FileOut? ==> m.validTokens < TWO64)
    }

    method BeginOne(key: CacheKey, offload: bool, starts: bool, ghost truth: map<CacheKey, Payload>)
      requires Sound(truth)
      modifies device, directory, directory.Tiers(), device.gpu, device.cpu
      ensures Sound(truth)
    {
      ghost var d, pending := directory.view, device.pending;
      var r := device.Begin(key, offload, starts, file.store.published, truth);
      if r.Ok? {
        BegunReachable(d, directory.view, key, device.pending[key], pending, truth);
      } else {
        UnmovedReachable(d, directory.view, pending, truth);
      }
    }

    method FinishOne(key: CacheKey, offload: bool, release: bool, arrives: bool, ghost truth: map<CacheKey, Payload>)
      requires Sound(truth)
      modifies device, directory, directory.Tiers(), device.gpu, device.cpu
      ensures Sound(truth)
    {
      ghost var d, pending := directory.view, device.pending;
      var r := device.Finish(key, offload, release, arrives, file.store.published, truth);
      if r.Ok? { ConcludedReachable(d, directory.view, key, pending[key], release, pending, truth); }
    }

    method FileOutOne(key: CacheKey, validTokens: nat, release: bool, ghost truth: map<CacheKey, Payload>)
      requires Sound(truth) && FileFits(key, file.cpu.chunkBytes) && validTokens < TWO64
      modifies directory, directory.Tiers(), file.store
      ensures Sound(truth)
    {
      ghost var d := directory.view;
      var r := file.Offload(key, validTokens, release, device.gpu.data, device.pending, truth);
      if r.Arrived? {
        GainedReachable(d, directory.view, key, CPU, NVME, r.location, release, device.pending, truth);
      } else {
        UnmovedReachable(d, directory.view, device.pending, truth);
      }
    }

    method FileInOne(key: CacheKey, release: bool, unreadable: bool, ghost truth: map<CacheKey, Payload>)
      requires Sound(truth) && FileFits(key, file.cpu.chunkBytes)
      modifies directory, directory.Tiers(), file.store, device.cpu
      ensures Sound(truth)
    {
      ghost var d := directory.view;
      var r := file.Onload(key, release, unreadable, device.gpu.data, device.pending, truth);
      if r.Arrived? || r.SourceKept? {
        GainedReachable(d, directory.view, key, NVME, CPU, r.location, release && r.Arrived?, device.pending, truth);
      } else {
        UnmovedReachable(d, directory.view, device.pending, truth);
      }
    }

    /** Whatever moves are asked for, in whatever order, and however each of them ends: every chunk is still somewhere
        with exactly its bytes, and what is in a file can be read back unless its identity is too long. */
    method Chain(moves: seq<Move>, ghost truth: map<CacheKey, Payload>)
      requires Sound(truth) && forall m :: m in moves ==> Permitted(m)
      modifies device, directory, directory.Tiers(), device.gpu, device.cpu, file.store
      ensures Sound(truth) && forall key :: key in truth ==> Kept(directory.view, Held(), key, truth[key])
      ensures forall key ::
                key in truth && KeyFits(key) && ReplicaHolds(directory.view, Held(), key, NVME, truth[key]) ==>
                (ReadsBack(directory.view, Held(), key, truth[key]) <==> Plausible(FileMeta(key, 0, 0)))
    {
      for i := 0 to |moves|
        invariant Sound(truth)
      {
        assert Permitted(moves[i]);
        match moves[i] {
          case BeginMove(key, offload, starts) => BeginOne(key, offload, starts, truth);
          case FinishMove(key, offload, release, arrives) => FinishOne(key, offload, release, arrives, truth);
          case FileOut(key, validTokens, release) => FileOutOne(key, validTokens, release, truth);
          case FileIn(key, release, unreadable) => FileInOne(key, release, unreadable, truth);
        }
      }
      forall key | key in truth ensures Kept(directory.view, Held(), key, truth[key]) {
        ReachableIsKept(directory.view, Held(), device.pending, truth, key);
      }
      forall key | key in truth && KeyFits(key) && ReplicaHolds(directory.view, Held(), key, NVME, truth[key])
        ensures ReadsBack(directory.view, Held(), key, truth[key]) <==> Plausible(FileMeta(key, 0, 0))
      {
        FileReplicaReads(directory.view, Held(), key, truth[key]);
      }
    }
  }
}
