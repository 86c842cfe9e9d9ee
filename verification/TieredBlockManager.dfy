/** The tiered block manager (src/tiered_block_manager.cpp): blocks live on the device or in host memory, move
    asynchronously, and are never lost, whichever transfers fail. */
module TieredBlockManagers {
  import opened Common
  import opened PagePool
  import opened AsyncTransfers
  import opened TieredBlocks
  import opened TieredRecency
  import opened TieredPrefetches

  /** Every device slot is held by a lease. */
  ghost predicate AllLeased(s: Tiers) {
    forall slot: nat :: slot < |s.device.pool.pages| ==> LeasedSlot(s, slot)
  }

  ghost predicate LeasedSlot(s: Tiers, slot: nat) {
    exists i: nat :: OwnsSlot(s, i, slot) && s.entries[i].pins > 0
  }

  /** No move is pending or queued, and no block is between the tiers. */
  ghost predicate Quiet(s: Tiers) {
    s.pending == [] && s.queued == [] && forall i :: 0 <= i < |s.entries| ==> s.entries[i].location != TRANSFERRING
  }

  lemma NothingPendingIsQuiet(s: Tiers)
    requires Sound(s) && s.pending == [] && s.queued == []
    ensures Quiet(s)
  {
    Unfold(s);
    forall i: nat | i < |s.entries| ensures s.entries[i].location != TRANSFERRING {
      MovingTransfers(s, i);
      assert i !in s.pending && i !in s.queued;
      assert RestOk(s.device, s.entries[i], i, s.contents[i]);
    }
  }

  /** The loads still to come, once one that waited has had its turn. */
  function Advanced(work: seq<nat>, waited: bool): seq<nat> {
    if work != [] && waited then work[1..] else work
  }

  class TieredBlockManager {
    /** Whether the device does what it is asked for the k-th time. */
    const works: nat -> bool
    var asked: nat
    var logical: Pool
    var device: Device
    var entries: seq<Entry>
    var lru: seq<nat>
    var pending: seq<nat>
    var queued: seq<nat>
    var dispatchWork: seq<nat>
    var counters: Counters
    ghost var contents: seq<Payload>
    /** Whether any transfer has ever failed. */
    ghost var failed: bool

    ghost function State(): Tiers
      reads this
    {
      Tiers(logical, device, entries, lru, pending, dispatchWork + queued, counters, contents)
    }

    ghost predicate Valid()
      reads this
    {
      Sound(State()) && QueueFits(State()) && dispatchWork == [] && (!failed ==> Balanced(State()))
    }

    /** The device has let the manager down meanwhile. */
    ghost predicate Broke(since: nat)
      reads this
    {
      exists k :: since <= k < asked && !works(k)
    }

    /** One more request to the device. */
    method Ask() returns (ok: bool)
      modifies `asked
      ensures asked == old(asked) + 1 && ok == works(old(asked)) && (ok <==> !Broke(old(asked)))
    {
      ok := works(asked);
      asked := asked + 1;
      assert old(asked) <= asked - 1 < asked;
    }

    constructor (gpu: nat, cpu: nat, blockSize: nat, works: nat -> bool)
      requires 0 < gpu <= cpu && blockSize > 0
      ensures Valid() && !failed && State() == Blank(gpu, cpu, blockSize) && this.works == works && asked == 0
    {
      this.works, asked := works, 0;
      var s := Blank(gpu, cpu, blockSize);
      logical, device, entries, lru, pending, queued := s.logical, s.device, s.entries, s.lru, s.pending, s.queued;
      dispatchWork, counters, contents, failed := [], s.counters, s.contents, false;
      new;
      BlankIsSound(gpu, cpu, blockSize);
      assert State() == s;
    }

    // -------------------------------------------------------------- transfers come to an end

    /** The transfer that was submitted first is over. */
    method LandFirst(ghost n: nat, ok: bool, ghost claim: bool)
      requires Mid(State(), n, claim) && (claim ==> ok) && device.pending != []
      modifies `device
      ensures Mid(State(), n + 1, claim) && device.pool.free == old(device.pool.free)
              && |device.pool.pages| == old(|device.pool.pages|)
      ensures device.pending == old(device.pending[1..])
      ensures ok ==> device.toDevice + CountWrites(device.pending) == old(device.toDevice + CountWrites(device.pending))
      ensures ok ==> device.toDevice + device.toHost == old(device.toDevice + device.toHost) + 1
    {
      var junk: Option<Payload> := *;
      ghost var s := State();
      LandMid(s, n, claim, ok, junk);
      device := Landed(device, ok, junk);
      assert State() == s.(device := device);
    }

    /** The runtime's finish: every transfer in flight is over, one way or the other. */
    method LandAll(ok: bool, ghost claim: bool)
      requires Mid(State(), 0, claim) && (claim ==> ok)
      modifies `device
      ensures Mid(State(), 0, claim) && device.pending == [] && device.pool.free == old(device.pool.free)
              && |device.pool.pages| == old(|device.pool.pages|)
      ensures ok ==> device.toDevice == old(device.toDevice + CountWrites(device.pending))
      ensures ok ==> device.toDevice + device.toHost == old(device.toDevice + device.toHost + |device.pending|)
    {
      ghost var n := 0;
      while device.pending != []
        invariant Mid(State(), n, claim) && device.pool.free == old(device.pool.free)
                  && |device.pool.pages| == old(|device.pool.pages|)
        invariant ok ==>
                    device.toDevice + CountWrites(device.pending) == old(device.toDevice + CountWrites(device.pending))
        invariant ok ==> device.toDevice + device.toHost + |device.pending|
                           == old(device.toDevice + device.toHost + |device.pending|)
        decreases |device.pending|
      {
        LandFirst(n, ok, claim);
        n := n + 1;
      }
      AllLandedMid(State(), n, claim);
    }

    /** The first pending move is settled: its block ends up where the move led, or where it came from. */
    method SettleFirst(ok: bool)
      requires pending != [] && pending[0] < |entries| && entries[pending[0]].gpu.Some?
      modifies `device, `entries, `lru, `pending, `counters
      ensures State() == Settle(old(State()), ok)
    {
      var i := pending[0];
      if !ok { DiscardPrefetch(i); }
      var e := entries[i];
      var toCpu := e.move == ToCpu;
      if (ok && toCpu) || (!ok && !toCpu) {
        var released := PagePool.Release(device.pool, e.gpu.value);
        if released.Ok? { device := device.(pool := released.value); }
        entries := entries[i := e.(gpu := None, location := CPU_RESIDENT, move := NoMove)];
      } else {
        entries := entries[i := e.(location := GPU_RESIDENT, move := NoMove)];
        lru := Without(lru, i) + [i];
      }
      if ok {
        counters := if toCpu then counters.(offloads := counters.offloads + 1)
                      else counters.(loads := counters.loads + 1);
      }
      pending := pending[1..];
      UpdateTwice(old(entries), i, e, entries[i]);
    }

    method SettleNext(ok: bool, ghost s0: Tiers)
      requires Mid(State(), 0, ok) && device.pending == [] && pending != [] && Calm(s0, State(), ok)
      modifies `device, `entries, `lru, `pending, `counters
      ensures Mid(State(), 0, ok) && device.pending == [] && Calm(s0, State(), ok)
      ensures pending == old(pending[1..]) && device.toDevice == old(device.toDevice)
              && device.toHost == old(device.toHost)
      ensures SamePrefetches()
      ensures ok ==> Room(State()) == old(Room(State()))
      ensures ok ==> LoadsDue(State()) == old(LoadsDue(State())) && OffloadsDue(State()) == old(OffloadsDue(State()))
      ensures lru + Arrivals(entries, pending, ok) == old(lru + Arrivals(entries, pending, ok))
    {
      ghost var s := State();
      SettleMid(s, ok);
      SettleArrivesMid(s, ok);
      SettleFirst(ok);
      CalmTrans(s0, s, Settle(s, ok), ok);
    }

    /** All moves under way are settled, once no transfer is in flight. */
    method SettleAll(ok: bool)
      requires Mid(State(), 0, ok) && device.pending == []
      modifies `device, `entries, `lru, `pending, `counters
      ensures Mid(State(), 0, ok) && device.pending == [] && Calm(old(State()), State(), ok)
      ensures pending == [] && device.toDevice == old(device.toDevice) && device.toHost == old(device.toHost)
      ensures SamePrefetches()
      ensures ok ==> |device.pool.free| == old(Room(State()))
      ensures ok ==> LoadsDue(State()) == old(LoadsDue(State())) && OffloadsDue(State()) == old(OffloadsDue(State()))
      ensures lru == old(lru + Arrivals(entries, pending, ok))
    {
      SameEntriesCalm(State(), State(), ok);
      while pending != []
        invariant lru + Arrivals(entries, pending, ok) == old(lru + Arrivals(entries, pending, ok))
        invariant Mid(State(), 0, ok) && device.pending == [] && Calm(old(State()), State(), ok)
        invariant device.toDevice == old(device.toDevice) && device.toHost == old(device.toHost)
        invariant SamePrefetches()
        invariant ok ==> Room(State()) == old(Room(State()))
        invariant ok ==>
                    LoadsDue(State()) == old(LoadsDue(State())) && OffloadsDue(State()) == old(OffloadsDue(State()))
        decreases |pending|
      {
        SettleNext(ok, old(State()));
      }
    }

    /** The load that has waited longest is given up. */
    method UnqueueNext(ghost s0: Tiers)
      requires Mid(State(), 0, false) && device.pending == [] && Calm(s0, State(), false)
      requires queued != [] && dispatchWork == []
      modifies `entries, `queued, `counters
      ensures Mid(State(), 0, false) && Calm(s0, State(), false) && queued == old(queued[1..])
    {
      ghost var s := State();
      UnqueueMid(s);
      GiveUp(queued[0]);
      queued := queued[1..];
      assert State() == Unqueue(s);
      CalmTrans(s0, s, State(), false);
    }

    /** The manager's finish, once no transfer is in flight: moves that succeeded are complete, those that failed
        are undone; after a failure no load waits any more. */
    method Finish(ok: bool)
      requires Mid(State(), 0, ok) && device.pending == []
      requires dispatchWork == [] || queued == []
      modifies `device, `entries, `lru, `pending, `queued, `counters
      ensures Mid(State(), 0, ok) && device.pending == [] && Calm(old(State()), State(), ok)
      ensures pending == [] && queued == (if ok then old(queued) else [])
      ensures ok ==> |device.pool.free| == old(Room(State()))
      ensures ok ==> LoadsDue(State()) == old(LoadsDue(State())) && OffloadsDue(State()) == old(OffloadsDue(State()))
      ensures ok ==> device.toDevice == old(device.toDevice) && device.toHost == old(device.toHost)
      ensures ok ==> SamePrefetches()
      ensures lru == old(lru + Arrivals(entries, pending, ok))
    {
      SettleAll(ok);
      if !ok {
        while queued != []
          invariant lru == old(lru + Arrivals(entries, pending, ok))
          invariant Mid(State(), 0, false) && device.pending == [] && pending == [] && Calm(old(State()), State(), ok)
          invariant dispatchWork == [] || queued == []
          decreases |queued|
        {
          UnqueueNext(old(State()));
        }
      }
    }

    method DiscardPrefetch(i: nat)
      requires i < |entries|
      modifies `entries, `counters
      ensures entries == old(entries)[i := old(entries[i]).(prefetched := false)]
              && counters == Discarded(old(counters), old(entries[i]))
    {
      if entries[i].prefetched {
        counters := counters.(unused := counters.unused + 1);
        entries := entries[i := entries[i].(prefetched := false)];
      }
    }

    method GiveUp(i: nat)
      requires i < |entries|
      modifies `entries, `counters
      ensures entries
                == old(entries)[i := old(entries[i]).(location := CPU_RESIDENT, move := NoMove, prefetched := false)]
      ensures counters == Discarded(old(counters), old(entries[i]))
    {
      DiscardPrefetch(i);
      entries := entries[i := entries[i].(location := CPU_RESIDENT, move := NoMove)];
    }

    /** What every failed submission does: wait for the device, then treat all moves under way as failed. */
    method Abandon()
      requires Mid(State(), 0, false) && (dispatchWork == [] || queued == [])
      modifies `device, `entries, `lru, `pending, `queued, `counters, `failed
      ensures Sound(State()) && Calm(old(State()), State(), false)
      ensures pending == [] && queued == [] && failed
      ensures lru == old(lru + Arrivals(entries, pending, false))
    {
      var ok: bool := *;
      ghost var s := State();
      LandAll(ok, false);
      ghost var t := State();
      SameEntriesCalm(s, t, false);
      Finish(false);
      CalmTrans(s, t, State(), false);
      failed := true;
      IdleIsSound(State(), false);
    }

    // -------------------------------------------------------------- transfers begin

    ghost function LastMove(): Move
      reads this
    {
      if pending != [] && pending[|pending| - 1] < |entries| then entries[pending[|pending| - 1]].move else NoMove
    }

    ghost predicate LastIsLoad()
      reads this
    {
      LastMove() == ToGpu
    }

    /** The latest move goes to the runtime. */
    method SubmitLast()
      requires Launchable(State())
      modifies `device, `entries, `counters
      ensures State() == Launch(old(State()))
    {
      var i := pending[|pending| - 1];
      device := Submit(device, Transfer(entries[i].gpu.value, i, entries[i].move == ToGpu));
      if entries[i].move == ToCpu { DiscardPrefetch(i); }
    }

    method SendLast()
      requires Ready(State())
      modifies `device, `entries, `counters
      ensures Sound(State()) && Calm(old(State()), State(), old(LastIsLoad())) && Room(State()) == old(Room(State()))
      ensures CountOffloads(entries, pending) == old(CountOffloads(entries, pending))
      ensures old(LastIsLoad()) ==> entries == old(entries)
      ensures |entries| == |old(entries)| && old(pending) != []
      ensures forall j ::
                0 <= j < |entries| && j != old(pending[|pending| - 1]) ==> entries[j] == old(entries[j])
      ensures SameCounts() && LastMove() == old(LastMove()) && pending == old(pending) && old(pending) != []
              && Left(old(State()), State(), old(pending[|pending| - 1]))
    {
      LaunchIsSound(State());
      LaunchLeaves(State());
      SubmitLast();
    }

    /** The device could not start the latest move, or stopped half-way. */
    method SendFails()
      requires Ready(State()) && (dispatchWork == [] || queued == [])
      modifies `device, `entries, `lru, `pending, `queued, `counters, `failed
      ensures Sound(State()) && Calm(old(State()), State(), false)
      ensures pending == [] && queued == [] && failed
      ensures lru == old(lru + Arrivals(entries, pending, false))
    {
      var junk: Payload := *;
      ghost var s := State();
      SpoiltIsMid(s, junk);
      var i := pending[|pending| - 1];
      var slot := entries[i].gpu.value.id;
      if entries[i].move == ToCpu {
        if i < |device.backing| { device := device.(backing := device.backing[i := junk]); }
      } else if slot < |device.bytes| {
        device := device.(bytes := device.bytes[slot := junk]);
      }
      ghost var t := State();
      assert t == Spoilt(s, junk);
      Abandon();
      CalmTrans(s, t, State(), false);
    }

    /** No transfer has been counted and none has arrived. */
    twostate predicate SameCounts()
      reads this
    {
      && device.toDevice == old(device.toDevice) && device.toHost == old(device.toHost)
      && counters.loads == old(counters.loads) && counters.offloads == old(counters.offloads)
      && SamePrefetches() && failed == old(failed)
    }

    /** No prefetch has been accepted and none skipped. */
    twostate predicate SamePrefetches()
      reads this
    {
      counters.submitted == old(counters.submitted) && counters.skipped == old(counters.skipped)
    }

    /** Sends the latest move to the runtime, which never turns it down; the device may still fail. */
    method Send() returns (ok: bool)
      requires Ready(State()) && (dispatchWork == [] || queued == [])
      modifies `asked, `device, `entries, `lru, `pending, `queued, `counters, `failed
      ensures Sound(State()) && Calm(old(State()), State(), ok && old(LastIsLoad()))
      ensures (ok <==> !Broke(old(asked))) && asked == old(asked) + 1
      ensures ok && old(LastIsLoad()) ==> entries == old(entries)
      ensures ok ==> |entries| == |old(entries)| && old(pending) != []
      ensures ok ==> forall j ::
                0 <= j < |entries| && j != old(pending[|pending| - 1]) ==> entries[j] == old(entries[j])
      ensures lru == if ok then old(lru) else old(lru + Arrivals(entries, pending, false))
      ensures ok ==>
                SameCounts() && Room(State()) == old(Room(State())) && pending == old(pending) && queued == old(queued)
      ensures ok ==> CountOffloads(entries, pending) == old(CountOffloads(entries, pending))
      ensures ok ==> LastMove() == old(LastMove()) && old(pending) != []
                     && Left(old(State()), State(), old(pending[|pending| - 1]))
      ensures !ok ==> pending == [] && queued == [] && failed
    {
      ok := Ask();
      if ok {
        SendLast();
      } else {
        SendFails();
      }
    }

    method Occupy(i: nat, h: Handle, pool: Pool)
      requires i < |entries| && h.id < |device.initialized| && (dispatchWork == [] || queued == [])
      requires entries[i].move == QueuedLoad ==> dispatchWork + queued != []
      modifies `device, `entries, `pending, `queued, `dispatchWork
      ensures State() == Reserve(old(State()), i, h, pool)
      ensures dispatchWork == Advanced(old(dispatchWork), old(entries[i].move) == QueuedLoad)
      ensures dispatchWork == [] || queued == []
    {
      device := device.(pool := pool, initialized := device.initialized[h.id := false]);
      if entries[i].move == QueuedLoad {
        if dispatchWork != [] { dispatchWork := dispatchWork[1..]; } else { queued := queued[1..]; }
      }
      entries := entries[i := entries[i].(gpu := Some(h), location := TRANSFERRING, move := ToGpu)];
      pending := pending + [i];
    }

    /** A free slot is taken for block `i`, unless that slot has run out of generations. */
    method TakeSlot(i: nat) returns (ok: bool)
      requires Sound(State()) && Loadable(State(), i) && (dispatchWork == [] || queued == [])
      modifies `device, `entries, `pending, `queued, `dispatchWork
      ensures !ok ==> State() == old(State()) && dispatchWork == old(dispatchWork) && SlotsWornOut(State())
      ensures ok ==> Ready(State()) && Begun(old(State()), State(), i, true)
      ensures ok ==> Room(State()) + 1 == old(Room(State()))
                     && CountOffloads(entries, pending) == old(CountOffloads(entries, pending))
      ensures ok ==> LastIsLoad() && pending == old(pending) + [i] && i < |entries|
                     && entries == old(entries)[i := entries[i]]
      ensures counters == old(counters) && device.toDevice == old(device.toDevice)
              && device.toHost == old(device.toHost)
      ensures ok ==> dispatchWork == Advanced(old(dispatchWork), old(entries[i].location) != CPU_RESIDENT)
                     && dispatchWork + queued
                       == Advanced(old(dispatchWork + queued), old(entries[i].location) != CPU_RESIDENT)
      ensures dispatchWork == [] || queued == []
    {
      PoolInv(State());
      var slot := Allocate(device.pool);
      if slot.Err? {
        HeadWornOut(State());
        return false;
      }
      ReserveIsReady(State(), i, slot.value.0, slot.value.1);
      Occupy(i, slot.value.0, slot.value.1);
      ok := true;
    }

    method SendLoad(i: nat, ghost s: Tiers) returns (ok: bool)
      requires Ready(State()) && (dispatchWork == [] || queued == []) && LastIsLoad()
      requires Begun(s, State(), i, true) && pending == s.pending + [i]
      modifies `asked, `device, `entries, `lru, `pending, `queued, `counters, `failed
      ensures Sound(State()) && Begun(s, State(), i, ok)
      ensures (ok <==> !Broke(old(asked))) && asked >= old(asked)
      ensures old(lru) <= lru && (ok || old(CountOffloads(entries, pending)) == 0 ==> lru == old(lru))
      ensures ok ==> SameCounts() && Room(State()) == old(Room(State())) && pending == old(pending)
                     && queued == old(queued) && entries == old(entries) && i < |entries| && entries[i].move == ToGpu
                     && CountOffloads(entries, pending) == old(CountOffloads(entries, pending))
      ensures !ok ==> pending == [] && queued == [] && failed
    {
      ghost var t := State();
      PendingBelow(t);
      if CountOffloads(entries, pending) == 0 { LoadsArrive(entries, pending); }
      ok := Send();
      BegunThen(s, t, State(), i, ok);
    }

    /** A slot is taken for block `i` and its load sent off; a block that waited no longer does. */
    method StartLoad(i: nat) returns (r: Result<()>)
      requires Sound(State()) && Loadable(State(), i) && (dispatchWork == [] || queued == [])
      modifies `asked, `device, `entries, `lru, `pending, `queued, `dispatchWork, `counters, `failed
      ensures Sound(State()) && Begun(old(State()), State(), i, r.Ok?)
      ensures (r == Err(DeviceError) <==> Broke(old(asked))) && asked >= old(asked)
      ensures old(lru) <= lru
              && (r != Err(DeviceError) || old(CountOffloads(entries, pending)) == 0 ==> lru == old(lru))
      ensures r == Err(OverflowError) ==> SlotsWornOut(State())
      ensures r.Ok? ==> SameCounts() && i < |entries| && entries[i].move == ToGpu && pending == old(pending) + [i]
                        && entries == old(entries)[i := entries[i]]
      ensures r.Ok? ==> Room(State()) + 1 == old(Room(State()))
                        && CountOffloads(entries, pending) == old(CountOffloads(entries, pending))
      ensures r.Ok? ==>
                dispatchWork + queued == Advanced(old(dispatchWork + queued), old(entries[i].location) != CPU_RESIDENT)
      ensures r != Err(OverflowError) ==>
                dispatchWork == Advanced(old(dispatchWork), old(entries[i].location) != CPU_RESIDENT)
      ensures r.Err? ==> r.error in {OverflowError, DeviceError}
      ensures r == Err(OverflowError) ==> State() == old(State()) && dispatchWork == old(dispatchWork) && SameCounts()
      ensures r == Err(DeviceError) ==> pending == [] && queued == [] && failed
      ensures dispatchWork == [] || queued == []
    {
      ghost var s := State();
      var taken := TakeSlot(i);
      if taken {
        var ok := SendLoad(i, s);
        r := if ok then Ok(()) else Err(DeviceError);
      } else {
        BegunNot(s, i);
        r := Err(OverflowError);
      }
    }

    /** Block `i` begins to leave the device. */
    method StartOffload(i: nat) returns (r: Result<()>)
      requires Sound(State()) && i < |entries| && Evictable(entries[i]) && dispatchWork == []
      modifies `asked, `device, `entries, `lru, `pending, `queued, `counters, `failed
      ensures Sound(State()) && Calm(old(State()), State(), false)
      ensures (r == Err(DeviceError) <==> Broke(old(asked))) && asked >= old(asked)
      ensures if r.Ok? then lru == Without(old(lru), i) && pending == old(pending) + [i]
                else Without(old(lru), i) <= lru
      ensures r.Ok? ==> i < |entries| && entries[i].move == ToCpu && entries == old(entries)[i := entries[i]]
      ensures r.Ok? ==> Left(old(State()), State(), i) && SameCounts() && queued == old(queued)
                        && Room(State()) == old(Room(State())) + 1
      ensures r.Ok? ==> CountOffloads(entries, pending) == old(CountOffloads(entries, pending)) + 1
      ensures r.Err? ==> r.error == DeviceError && pending == [] && queued == [] && failed
    {
      ghost var s := State();
      OffloadIsReady(s, i);
      lru := Without(lru, i);
      entries := entries[i := entries[i].(location := TRANSFERRING, move := ToCpu)];
      pending := pending + [i];
      ghost var t := State();
      assert t == BeginOffload(s, i);
      LeftIsCalm(s, t, i);
      var ok := Send();
      CalmTrans(s, t, State(), false);
      if ok { LeftTrans(s, t, State(), i); }
      r := if ok then Ok(()) else Err(DeviceError);
    }

    /** Loads that cannot be dispatched after all are given up. */
    method GiveUpWork()
      requires Sound(State()) && queued == []
      modifies `entries, `dispatchWork, `counters
      ensures Sound(State()) && Calm(old(State()), State(), false) && dispatchWork == []
      ensures CountOffloads(entries, pending) == old(CountOffloads(entries, pending)) && SameCounts()
    {
      SameEntriesCalm(State(), State(), false);
      while dispatchWork != []
        invariant Sound(State()) && Calm(old(State()), State(), false) && queued == []
        invariant CountOffloads(entries, pending) == old(CountOffloads(entries, pending)) && SameCounts()
        decreases |dispatchWork|
      {
        ghost var s := State();
        UnqueueIsSound(s);
        GiveUp(dispatchWork[0]);
        dispatchWork := dispatchWork[1..];
        assert State() == Unqueue(s);
        CalmTrans(old(State()), s, State(), false);
      }
    }

    /** The load that has waited longest is sent off; if it cannot be, those behind it are given up with it. */
    method DispatchNext(ghost s0: Tiers) returns (r: Result<()>)
      requires Sound(State()) && Calm(s0, State(), true) && queued == [] && CountOffloads(entries, pending) == 0
      requires dispatchWork != [] && Room(State()) >= |dispatchWork|
      modifies `asked, `device, `entries, `lru, `pending, `queued, `dispatchWork, `counters, `failed
      ensures Sound(State()) && Calm(s0, State(), r.Ok?) && queued == [] && CountOffloads(entries, pending) == 0
      ensures lru == old(lru) && asked >= old(asked) && (r == Err(DeviceError) <==> Broke(old(asked)))
      ensures r.Ok? ==> SameCounts() && Room(State()) + 1 == old(Room(State()))
                        && pending == old(pending + [dispatchWork[0]]) && dispatchWork == old(dispatchWork[1..])
      ensures r.Err? ==> r.error in {OverflowError, DeviceError} && dispatchWork == []
      ensures r == Err(DeviceError) ==> pending == [] && failed
      ensures r == Err(OverflowError) ==> SameCounts() && pending == old(pending) && SlotsWornOut(State())
    {
      ghost var s := State();
      HeadIsLoadable(s);
      r := StartLoad(dispatchWork[0]);
      BegunIsCalm(s, State(), s.queued[0], r.Ok?);
      if r.Ok? {
        CalmTrans(s0, s, State(), true);
      } else {
        CalmWeaken(s0, s);
        CalmTrans(s0, s, State(), false);
        ghost var t := State();
        GiveUpWork();
        CalmTrans(s0, t, State(), false);
      }
    }

    /** Queued loads get the slots that finished offloads have freed: there are always enough. */
    method DispatchQueued() returns (r: Result<()>)
      requires Sound(State()) && pending == [] && dispatchWork == [] && |queued| <= |device.pool.free|
      modifies `asked, `device, `entries, `lru, `pending, `queued, `dispatchWork, `counters, `failed
      ensures Sound(State()) && Calm(old(State()), State(), r.Ok?) && dispatchWork == [] && queued == []
      ensures r.Ok? ==>
                SameCounts() && |pending| == |old(queued)| && Room(State()) + |old(queued)| == old(Room(State()))
      ensures CountOffloads(entries, pending) == 0 && forall i :: i in pending ==> i in old(queued)
      ensures lru == old(lru) && (r.Ok? ==> pending == old(queued))
      ensures (r == Err(DeviceError) <==> Broke(old(asked))) && asked >= old(asked)
      ensures r == Err(OverflowError) ==> SlotsWornOut(State())
      ensures r.Err? ==> r.error in {OverflowError, DeviceError}
      ensures r == Err(DeviceError) ==> pending == [] && failed
      ensures r == Err(OverflowError) ==> SameCounts()
    {
      ghost var s0 := State();
      dispatchWork, queued := queued, [];
      assert State() == s0;
      SameEntriesCalm(s0, s0, true);
      while dispatchWork != []
        invariant Sound(State()) && Calm(s0, State(), true) && queued == [] && CountOffloads(entries, pending) == 0
                  && SameCounts()
        invariant Room(State()) + |s0.queued| == Room(s0) + |dispatchWork| && pending + dispatchWork == s0.queued
        invariant forall i :: i in pending ==> i in s0.queued
        invariant lru == s0.lru && asked >= old(asked) && !Broke(old(asked))
        decreases |dispatchWork|
      {
        HeadMoves(pending, dispatchWork);
        r := DispatchNext(s0);
        if r.Err? { return; }
      }
      assert pending == s0.queued == old(queued);
      r := Ok(());
    }

    // -------------------------------------------------------------- waiting

    /** Everything in flight is over and settled. */
    method Complete(ok: bool)
      requires Valid()
      modifies `device, `entries, `lru, `pending, `queued, `counters, `failed
      ensures Sound(State()) && Calm(old(State()), State(), ok) && pending == []
              && queued == (if ok then old(queued) else [])
      ensures CountOffloads(entries, pending) == 0 && (!failed ==> Balanced(State())) && failed == (old(failed) || !ok)
      ensures ok ==> |device.pool.free| == old(Room(State())) && SamePrefetches()
      ensures lru == old(lru + Arrivals(entries, pending, ok))
    {
      ghost var s := State();
      SoundIsMidway(s, ok);
      LandAll(ok, ok);
      ghost var t := State();
      SameEntriesCalm(s, t, ok);
      Finish(ok);
      CalmTrans(s, t, State(), ok);
      IdleIsSound(State(), ok);
      if !ok { failed := true; }
    }

    /** One round of waiting: the moves are settled, and queued loads take the slots that came free. */
    method Advance() returns (r: Result<()>)
      requires Valid()
      modifies `asked, `device, `entries, `lru, `pending, `queued, `dispatchWork, `counters, `failed
      ensures Valid() && Calm(old(State()), State(), r.Ok?) && queued == []
      ensures r.Ok? ==> |pending| == |old(queued)| && Room(State()) + |old(queued)| == old(Room(State()))
      ensures r.Ok? ==> SamePrefetches()
      ensures r.Err? ==> r.error in {OverflowError, DeviceError}
      ensures r == Err(DeviceError) ==> pending == [] && failed
      ensures forall i :: i in pending ==> i in old(queued)
      ensures (r == Err(DeviceError) <==> Broke(old(asked))) && asked >= old(asked)
      ensures r == Err(OverflowError) ==> SlotsWornOut(State())
      ensures old(lru) <= lru
      ensures r.Ok? ==> lru == old(lru + Arrivals(entries, pending, true)) && pending == old(queued)
                        && Arrivals(entries, pending, true) == pending && CountOffloads(entries, pending) == 0
    {
      ghost var s := State();
      var ok := Ask();
      Complete(ok);
      if !ok { return Err(DeviceError); }
      ghost var u := State();
      r := DispatchQueued();
      if r.Err? { CalmWeaken(s, u); }
      CalmTrans(s, u, State(), r.Ok?);
      SoundPendingBelow(State());
      LoadsArrive(entries, pending);
    }

    /** Waits until nothing moves. Two rounds are enough: the loads dispatched in the first leave nothing queued. */
    method Wait() returns (r: Result<()>)
      requires Valid()
      modifies `asked, `device, `entries, `lru, `pending, `queued, `dispatchWork, `counters, `failed
      ensures Valid() && Calm(old(State()), State(), r.Ok?) && queued == []
      ensures r != Err(OverflowError) ==> pending == [] && Quiet(State())
      ensures r.Ok? ==> |device.pool.free| + |old(queued)| == old(Room(State()))
      ensures old(pending) == [] && old(queued) == [] ==> r.Ok? && State() == old(State())
      ensures r.Err? ==> r.error in {OverflowError, DeviceError}
      ensures forall i :: i in pending ==> i in old(queued)
      ensures (r == Err(DeviceError) <==> Broke(old(asked))) && asked >= old(asked)
      ensures r == Err(OverflowError) ==> SlotsWornOut(State())
      ensures if r.Ok? then lru == AfterWait(old(State())) else old(lru) <= lru
    {
      ghost var s := State();
      SameEntriesCalm(s, s, true);
      while pending != [] || queued != []
        invariant s.lru <= lru && lru + Arrivals(entries, pending, true) + queued == AfterWait(s)
        invariant asked >= old(asked) && !Broke(old(asked))
        invariant Valid() && Calm(s, State(), true) && forall i :: i in queued ==> i in s.queued
        invariant Room(State()) + |s.queued| == Room(s) + |queued|
        invariant s.pending == [] && s.queued == [] ==> State() == s
        decreases |queued|, |pending|
      {
        ghost var t := State();
        r := Advance();
        if r.Err? {
          CalmWeaken(s, t);
          CalmTrans(s, t, State(), false);
          if r == Err(DeviceError) { NothingPendingIsQuiet(State()); }
          return;
        }
        CalmTrans(s, t, State(), true);
      }
      NothingPendingIsQuiet(State());
      r := Ok(());
    }

    /** Moves things on without waiting, unless the device is still `busy`; true when nothing is on the move any
        more. */
    method Poll(busy: bool) returns (r: Result<bool>)
      requires Valid()
      modifies `asked, `device, `entries, `lru, `pending, `queued, `dispatchWork, `counters, `failed
      ensures Valid() && Calm(old(State()), State(), r.Ok?)
      ensures r == Ok(true) ==> Quiet(State())
      ensures r == Ok(false) ==> pending != []
      ensures r.Ok? ==> SamePrefetches() && (StillMoving(old(State()), busy) ==> r == Ok(false))
      ensures r.Err? ==> r.error in {OverflowError, DeviceError} && queued == []
      ensures (r == Err(DeviceError) <==> Broke(old(asked))) && asked >= old(asked)
      ensures r == Err(OverflowError) ==> SlotsWornOut(State())
      ensures old(lru) <= lru
      ensures StillMoving(old(State()), busy) || old(pending == [] && queued == []) ==> r.Ok? && State() == old(State())
      ensures r.Ok? && !StillMoving(old(State()), busy) ==>
                lru == old(lru + Arrivals(entries, pending, true)) && pending == old(queued) && queued == []
                && CountOffloads(entries, pending) == 0 && r == Ok(pending == [])
    {
      SameEntriesCalm(State(), State(), true);
      if pending == [] && queued == [] {
        NothingPendingIsQuiet(State());
        return Ok(true);
      }
      if busy {
        QueuedNeedPending(State());
        return Ok(false);
      }
      var advanced := Advance();
      if advanced.Err? { return Err(advanced.error); }
      if pending == [] { NothingPendingIsQuiet(State()); }
      r := Ok(pending == []);
    }

    // -------------------------------------------------------------- making room

    /** The least recently used block that no lease and no caller protects. */
    method Victim(protected: set<nat>) returns (r: Option<nat>)
      ensures r.Some? ==> r.value in lru && r.value !in protected
      ensures r.None? ==> forall i :: i in lru ==> i in protected
      ensures r.Some? ==> exists k :: 0 <= k < |lru| && lru[k] == r.value && forall j ::
                0 <= j < k ==> lru[j] in protected
      ensures r.Some? ==> Without(lru, r.value) == WithoutOldest(lru, protected)
    {
      for k := 0 to |lru|
        invariant forall j :: 0 <= j < k ==> lru[j] in protected
      {
        if lru[k] !in protected {
          VictimMakesWay(lru, protected, k);
          return Some(lru[k]);
        }
      }
      r := None;
    }

    /** Afterwards a device slot is free; there is none to be had exactly when leases hold them all. If a block has to
        leave, it is the one used least recently. */
    method MakeRoom() returns (r: Result<()>)
      requires Valid()
      modifies `asked, `device, `entries, `lru, `pending, `queued, `dispatchWork, `counters, `failed
      ensures Valid() && Calm(old(State()), State(), false)
      ensures r.Ok? ==> device.pool.free != []
      ensures r == Err(CapacityError) <==> old(AllLeased(State()))
      ensures r.Err? ==> r.error in {CapacityError, OverflowError, DeviceError}
      ensures r == Err(DeviceError) ==> Quiet(State())
      ensures old(device.pool.free) != [] ==> r.Ok? && State() == old(State())
      ensures r == Err(CapacityError) ==> State() == old(State())
      ensures (r == Err(DeviceError) <==> Broke(old(asked))) && asked >= old(asked)
      ensures r == Err(OverflowError) ==> SlotsWornOut(State())
      ensures if r.Ok? then lru == RoomMade(old(State())) else OnlyOldestLeaves(old(lru), lru)
      ensures r.Ok? && old(device.pool.free) == [] ==> pending == [] && queued == []
    {
      ghost var s := State();
      SameEntriesCalm(s, s, false);
      RoomIsFree(s);
      AllLeasedIsFull(s);
      if |device.pool.free| + |device.pool.idle| > 0 { return Ok(()); }
      r := Wait();
      if r.Ok? { CalmWeaken(s, State()); }
      if r.Err? || device.pool.free != [] { return; }
      NoneFreeMeansAllLeased(s, State());
      r := EvictOldest(s);
    }

    /** The block used least recently leaves, if there is one that may. */
    method EvictOldest(ghost s: Tiers) returns (r: Result<()>)
      requires Valid() && Calm(s, State(), false) && device.pool.free == [] && pending == [] && queued == []
      modifies `asked, `device, `entries, `lru, `pending, `queued, `dispatchWork, `counters, `failed
      ensures Valid() && Calm(s, State(), false)
      ensures r.Ok? ==> device.pool.free != [] && pending == [] && queued == []
                        && old(lru) != [] && lru == old(lru)[1..]
      ensures r == Err(CapacityError) <==> old(lru) == []
      ensures r == Err(CapacityError) ==> State() == old(State())
      ensures r.Err? ==> r.error in {CapacityError, OverflowError, DeviceError}
                         && (old(lru) != [] ==> old(lru)[1..] <= lru)
      ensures r == Err(DeviceError) ==> Quiet(State())
      ensures (r == Err(DeviceError) <==> Broke(old(asked))) && asked >= old(asked)
      ensures r == Err(OverflowError) ==> SlotsWornOut(State())
    {
      var victim := Victim({});
      assert lru != [] ==> lru[0] in lru;
      if victim.None? { return Err(CapacityError); }
      r := Evict(victim.value, s);
    }

    /** Block `victim`, the first of the list, leaves, and its slot is waited for. */
    method Evict(victim: nat, ghost s: Tiers) returns (r: Result<()>)
      requires Valid() && Calm(s, State(), false) && device.pool.free == [] && pending == [] && queued == []
      requires lru != [] && victim == lru[0]
      modifies `asked, `device, `entries, `lru, `pending, `queued, `dispatchWork, `counters, `failed
      ensures Valid() && Calm(s, State(), false)
      ensures r.Ok? ==> device.pool.free != [] && pending == [] && queued == [] && lru == old(lru)[1..]
      ensures r.Err? ==> r.error in {OverflowError, DeviceError} && old(lru)[1..] <= lru
      ensures r == Err(DeviceError) ==> Quiet(State())
      ensures (r == Err(DeviceError) <==> Broke(old(asked))) && asked >= old(asked)
      ensures r == Err(OverflowError) ==> SlotsWornOut(State())
    {
      ghost var t := State();
      LruEvictable(t);
      SoundPendingBelow(t);
      NoDupTail(lru);
      r := StartOffload(victim);
      CalmTrans(s, t, State(), false);
      if r.Err? {
        NothingPendingIsQuiet(State());
        return;
      }
      ghost var u := State();
      assert Arrivals(entries, pending, true) == [];
      r := Wait();
      if r.Ok? { CalmWeaken(u, State()); }
      CalmTrans(s, u, State(), false);
    }

    // -------------------------------------------------------------- moving one block

    predicate IsLive(h: Handle)
      reads this
    {
      Live(logical, h)
    }

    /** Brings a block to the device or on its way there; a handle that names no block is refused. */
    method Load(h: Handle) returns (r: Result<()>)
      requires Valid()
      modifies `asked, `device, `entries, `lru, `pending, `queued, `dispatchWork, `counters, `failed
      ensures Valid() && Mild(old(State()), State())
      ensures r == Err(InvalidArgument) <==> !IsLive(h)
      ensures r.Err? ==> r.error in {InvalidArgument, CapacityError, OverflowError, DeviceError}
      ensures r.Ok? ==> h.id < |entries| && entries[h.id].live && Bound(entries[h.id]) && entries[h.id].move != ToCpu
      ensures r == Err(CapacityError) ==>
                old(AllLeased(State())) && h.id < |entries| && entries[h.id].location == CPU_RESIDENT
      ensures r == Err(DeviceError) ==> Quiet(State())
      ensures IsLive(h) && old(h.id < |entries| && Bound(entries[h.id]) && entries[h.id].move != ToCpu) ==>
                r.Ok? && entries == old(entries)
      ensures IsLive(h) && old(h.id < |entries| && entries[h.id].location == CPU_RESIDENT) ==>
                h.id < |entries| && if r.Ok? then entries[h.id].move == ToGpu
                                      else entries[h.id].location != TRANSFERRING
      ensures (r == Err(DeviceError) <==> Broke(old(asked))) && asked >= old(asked)
      ensures r == Err(OverflowError) ==> SlotsWornOut(State())
      ensures !IsLive(h) || old(h.id < |entries| && OnItsWay(entries[h.id])) ==> State() == old(State())
      ensures IsLive(h) && old(h.id < |entries| && entries[h.id].location == GPU_RESIDENT) ==>
                r.Ok? && State() == old(State()).(lru := Refreshed(old(State()), h.id))
      ensures r.Ok? && old(h.id < |entries| && entries[h.id].location != GPU_RESIDENT) ==>
                h.id < |entries| && entries[h.id].location == TRANSFERRING
                && lru == Fetching(old(State()), h.id) && AfterWait(State()) == Called(old(State()), h.id)
      ensures r.Err? || old(h.id < |entries| && entries[h.id].location != GPU_RESIDENT) ==>
                OnlyOldestLeaves(old(lru), lru)
    {
      ghost var s := State();
      SameEntriesCalm(s, s, true);
      CalmIsMild(s, s, true);
      if !Live(logical, h) { return Err(InvalidArgument); }
      LiveEntry(s, h);
      if entries[h.id].location == GPU_RESIDENT {
        Refresh(h.id);
        return Ok(());
      }
      if entries[h.id].location == TRANSFERRING && entries[h.id].move != ToCpu { return Ok(()); }
      r := BringBack(h);
    }

    /** A block on the device is used, and unless a lease holds it nobody has been used more recently. */
    method Refresh(i: nat)
      requires Valid() && i < |entries| && entries[i].live && entries[i].location == GPU_RESIDENT
      modifies `lru
      ensures Valid() && Mild(old(State()), State()) && State() == old(State()).(lru := Refreshed(old(State()), i))
    {
      ghost var s := State();
      if entries[i].pins == 0 {
        TouchIsSound(s, i);
        lru := Without(lru, i) + [i];
        assert State() == Touched(s, i);
      } else {
        SameEntriesCalm(s, s, true);
        CalmIsMild(s, s, true);
      }
    }

    /** A block that is in host memory, or leaving for it, is sent for. */
    method BringBack(h: Handle) returns (r: Result<()>)
      requires Valid() && IsLive(h) && h.id < |entries| && entries[h.id].location != GPU_RESIDENT
               && !OnItsWay(entries[h.id])
      modifies `asked, `device, `entries, `lru, `pending, `queued, `dispatchWork, `counters, `failed
      ensures Valid() && Mild(old(State()), State())
      ensures r.Err? ==> r.error in {CapacityError, OverflowError, DeviceError}
      ensures r.Ok? ==> h.id < |entries| && entries[h.id].live && entries[h.id].move == ToGpu
                        && entries[h.id].location == TRANSFERRING
      ensures r == Err(CapacityError) ==>
                old(AllLeased(State())) && h.id < |entries| && entries[h.id].location == CPU_RESIDENT
      ensures r == Err(DeviceError) ==> Quiet(State())
      ensures r.Err? && old(entries[h.id].location == CPU_RESIDENT) ==>
                h.id < |entries| && entries[h.id].location != TRANSFERRING
      ensures (r == Err(DeviceError) <==> Broke(old(asked))) && asked >= old(asked)
      ensures r == Err(OverflowError) ==> SlotsWornOut(State())
      ensures r.Ok? ==> lru == Fetching(old(State()), h.id) && AfterWait(State()) == Called(old(State()), h.id)
      ensures OnlyOldestLeaves(old(lru), lru)
    {
      ghost var s := State();
      SameEntriesCalm(s, s, true);
      CalmIsMild(s, s, true);
      LiveEntry(s, h);
      if entries[h.id].move == ToCpu {
        r := WaitLeaving(h);
        if r.Err? { return; }
      }
      ghost var t := State();
      RoomMadeLeaves(t);
      r := FetchBlock(h);
      MildTrans(s, t, State());
      if r == Err(CapacityError) { AllLeasedBefore(s, t); }
      if r.Ok? { LiveEntry(State(), h); }
      LaterLeaves(s.lru, t.lru, lru);
    }

    /** A block that leaves the device is waited for. */
    method WaitLeaving(h: Handle) returns (r: Result<()>)
      requires Valid() && IsLive(h) && h.id < |entries| && entries[h.id].move == ToCpu
      modifies `asked, `device, `entries, `lru, `pending, `queued, `dispatchWork, `counters, `failed
      ensures Valid() && Mild(old(State()), State())
      ensures r.Err? ==> r.error in {OverflowError, DeviceError} && OnlyOldestLeaves(old(lru), lru)
      ensures (r == Err(DeviceError) <==> Broke(old(asked))) && asked >= old(asked)
      ensures r == Err(OverflowError) ==> SlotsWornOut(State())
      ensures r == Err(DeviceError) ==> Quiet(State())
      ensures r.Ok? ==> h.id < |entries| && entries[h.id].location == CPU_RESIDENT
      ensures r.Ok? ==> old(lru) <= lru && BroughtIn(State(), h.id) == RoomAfterWait(old(State())) + [h.id]
                        && RoomMade(State()) == RoomAfterWait(old(State()))
    {
      ghost var s := State();
      r := Wait();
      CalmIsMild(s, State(), r.Ok?);
      UnfoldCalm(s, State(), r.Ok?);
      if r.Ok? {
        SettledRoom(s, State(), h.id);
        LiveEntry(State(), h);
        assert Leaves(s.entries[h.id], entries[h.id]);
      }
    }

    /** The slow path of load: a slot is made free and the block's load started. */
    method FetchBlock(h: Handle) returns (r: Result<()>)
      requires Valid() && IsLive(h) && h.id < |entries| && entries[h.id].location == CPU_RESIDENT
      modifies `asked, `device, `entries, `lru, `pending, `queued, `dispatchWork, `counters, `failed
      ensures Valid() && Mild(old(State()), State())
      ensures r.Err? ==> r.error in {CapacityError, OverflowError, DeviceError}
      ensures r.Ok? ==> h.id < |entries| && entries[h.id].live && entries[h.id].move == ToGpu
      ensures r.Err? ==> h.id < |entries| && entries[h.id].location != TRANSFERRING
      ensures r == Err(CapacityError) ==> old(AllLeased(State())) && State() == old(State())
      ensures r == Err(DeviceError) ==> Quiet(State())
      ensures (r == Err(DeviceError) <==> Broke(old(asked))) && asked >= old(asked)
      ensures r == Err(OverflowError) ==> SlotsWornOut(State())
      ensures if r.Ok? then lru == RoomMade(old(State())) else OnlyOldestLeaves(old(lru), lru)
      ensures r.Ok? ==> AfterWait(State()) == BroughtIn(old(State()), h.id)
    {
      ghost var s := State();
      RoomMadeLeaves(s);
      r := MakeRoom();
      CalmIsMild(s, State(), false);
      UnfoldCalm(s, State(), false);
      if r.Err? { return; }
      LiveEntry(State(), h);
      ghost var t := State();
      r := FetchInto(h);
      MildTrans(s, t, State());
      if r.Err? { LeavesGrow(s.lru, t.lru, lru); }
    }

    /** A slot is free, and the block's load starts. */
    method FetchInto(h: Handle) returns (r: Result<()>)
      requires Valid() && IsLive(h) && h.id < |entries| && entries[h.id].location == CPU_RESIDENT
      requires entries[h.id].live && device.pool.free != []
      modifies `asked, `device, `entries, `lru, `pending, `queued, `dispatchWork, `counters, `failed
      ensures Valid() && Mild(old(State()), State())
      ensures r.Err? ==> r.error in {OverflowError, DeviceError}
      ensures r.Ok? ==> h.id < |entries| && entries[h.id].live && entries[h.id].move == ToGpu
      ensures r.Err? ==> h.id < |entries| && entries[h.id].location != TRANSFERRING
      ensures r == Err(DeviceError) ==> Quiet(State())
      ensures (r == Err(DeviceError) <==> Broke(old(asked))) && asked >= old(asked)
      ensures r == Err(OverflowError) ==> SlotsWornOut(State())
      ensures old(lru) <= lru && (r.Ok? ==> lru == old(lru) && AfterWait(State()) == BroughtIn(old(State()), h.id))
    {
      ghost var t := State();
      HomeIsUnlisted(t, h.id);
      r := StartLoad(h.id);
      BegunIsMild(t, State(), h.id, r.Ok?);
      LiveEntry(State(), h);
      if r == Err(DeviceError) { NothingPendingIsQuiet(State()); }
      if r.Ok? {
        assert dispatchWork + queued == queued;
        LoadJoins(t, State(), h.id);
      }
    }

    /** Starts moving a block to host memory. A leased block is refused. */
    method Offload(h: Handle) returns (r: Result<()>)
      requires Valid()
      modifies `asked, `device, `entries, `lru, `pending, `queued, `dispatchWork, `counters, `failed
      ensures Valid() && Mild(old(State()), State())
      ensures r == Err(InvalidArgument) <==> !IsLive(h)
      ensures r == Err(LogicError) <==> IsLive(h) && old(h.id < |entries| && entries[h.id].pins > 0)
      ensures r.Err? ==> r.error in {InvalidArgument, LogicError, OverflowError, DeviceError}
      ensures r.Ok? ==> h.id < |entries| && (entries[h.id].move == ToCpu || entries[h.id].location == CPU_RESIDENT)
      ensures (r == Err(DeviceError) <==> Broke(old(asked))) && asked >= old(asked)
      ensures r == Err(OverflowError) ==> SlotsWornOut(State())
      ensures !IsLive(h) || old(h.id < |entries| && !(Evictable(entries[h.id]) || OnItsWay(entries[h.id]))) ==>
                State() == old(State())
      ensures r.Ok? && old(h.id < |entries| && (Evictable(entries[h.id]) || OnItsWay(entries[h.id]))) ==>
                h.id < |entries| && entries[h.id].move == ToCpu
                && lru == Without(if old(entries[h.id].location == GPU_RESIDENT) then old(lru)
                                  else AfterWait(old(State())), h.id)
      ensures r.Err? ==> lru == old(lru) || Without(old(lru), h.id) <= lru
    {
      ghost var s := State();
      SameEntriesCalm(s, s, true);
      CalmIsMild(s, s, true);
      if !Live(logical, h) { return Err(InvalidArgument); }
      var i := h.id;
      LiveEntry(s, h);
      if entries[i].pins > 0 { return Err(LogicError); }
      if entries[i].move == ToCpu { return Ok(()); }
      if entries[i].location == TRANSFERRING {
        NotListed(s, i);
        r := Await(h);
        if r.Err? { return; }
        MildKeeps(s, State(), h);
      }
      if entries[i].location == GPU_RESIDENT {
        ghost var t := State();
        WithoutPrefixes(s.lru, t.lru, i);
        r := Evacuate(i);
        MildTrans(s, t, State());
        return;
      }
      r := Ok(());
    }

    method Evacuate(i: nat) returns (r: Result<()>)
      requires Valid() && i < |entries| && Evictable(entries[i])
      modifies `asked, `device, `entries, `lru, `pending, `queued, `counters, `failed
      ensures Valid() && Mild(old(State()), State())
      ensures (r == Err(DeviceError) <==> Broke(old(asked))) && asked >= old(asked)
      ensures r.Err? ==> r.error == DeviceError && Without(old(lru), i) <= lru
      ensures r.Ok? ==> i < |entries| && entries[i].move == ToCpu && lru == Without(old(lru), i)
    {
      ghost var t := State();
      r := StartOffload(i);
      CalmIsMild(t, State(), false);
    }

    // -------------------------------------------------------------- references

    method Retain(h: Handle) returns (r: Result<()>)
      requires Valid()
      modifies `logical
      ensures Valid() && (r.Err? ==> State() == old(State()))
      ensures r == Err(InvalidArgument) <==> !old(IsLive(h))
      ensures r == Err(OverflowError) <==>
                old(IsLive(h) && h.id < |logical.pages| && logical.pages[h.id].refs == MAX64)
      ensures r.Err? ==> r.error in {InvalidArgument, OverflowError}
      ensures r.Ok? ==> Elsewhere(old(State()), State(), h.id) && IsLive(h) && h.id < |logical.pages|
                        && old(h.id < |logical.pages|) && logical.pages[h.id].refs == old(logical.pages[h.id].refs) + 1
    {
      ghost var s := State();
      PoolInv(s);
      if !Live(logical, h) { return Err(InvalidArgument); }
      LiveEntry(s, h);
      var retained := PagePool.Retain(logical, h);
      if retained.Err? { return Err(OverflowError); }
      RetainChanges(logical, h);
      CountedIsSound(s, h.id, retained.value, entries[h.id].pins);
      logical := retained.value;
      LruEvictable(s);
      assert State() == Counted(s, h.id, logical, entries[h.id].pins);
      r := Ok(());
    }

    /** Gives up one reference. With the last one the block and its device slot are gone; a block on the move is
        waited for first, and if that fails the reference stays. Callers give up only references of their own,
        never a lease's. */
    method Release(h: Handle) returns (r: Result<()>)
      requires Valid()
      requires IsLive(h) ==> h.id < |entries| && entries[h.id].pins < logical.pages[h.id].refs
      modifies this
      ensures Valid() && Elsewhere(old(State()), State(), h.id)
      ensures r == Err(InvalidArgument) <==> !old(IsLive(h))
      ensures r.Err? ==> Mild(old(State()), State()) && r.error in {InvalidArgument, OverflowError, DeviceError}
      ensures r.Ok? ==> h.id < |logical.pages| && old(h.id < |logical.pages|)
                        && logical.pages[h.id].refs == old(logical.pages[h.id].refs) - 1
      ensures r.Ok? ==> |contents| == |entries| == |logical.pages| && old(|contents| == |entries| == |logical.pages|)
                        && (if old(logical.pages[h.id].refs) == 1 then !IsLive(h) && entries[h.id] == BLANK
                            else IsLive(h) && entries == old(entries) && contents == old(contents))
      ensures old(IsLive(h) && h.id < |entries| && entries[h.id].location != TRANSFERRING) ==>
                r.Ok? && asked == old(asked) && (SlotsWornOut(old(State())) ==> SlotsWornOut(State()))
      ensures (r == Err(DeviceError) <==> Broke(old(asked))) && asked >= old(asked)
      ensures r == Err(OverflowError) ==> SlotsWornOut(State())
      ensures r.Err? ==> old(lru) <= lru
      ensures r.Ok? && old(h.id < |logical.pages| && logical.pages[h.id].refs > 1) ==> lru == old(lru)
      ensures r.Ok? && old(h.id < |entries| == |logical.pages| && logical.pages[h.id].refs == 1) ==>
                lru == Without(if old(entries[h.id].location == TRANSFERRING) then AfterWait(old(State()))
                               else old(lru), h.id)
    {
      ghost var s := State();
      SameEntriesCalm(s, s, true);
      CalmIsMild(s, s, true);
      MildIsElsewhere(s, s, h.id);
      if !Live(logical, h) { return Err(InvalidArgument); }
      PoolInv(s);
      var i := h.id;
      LiveEntry(s, h);
      if logical.pages[i].refs == 1 {
        if entries[i].location == TRANSFERRING {
          r := Wait();
          CalmIsMild(s, State(), r.Ok?);
          MildIsElsewhere(s, State(), i);
          if r.Err? { return; }
          UnfoldMild(s, State());
        }
        ghost var t := State();
        Bury(h);
        ElsewhereTrans(s, t, State(), i);
      } else {
        ReleaseChanges(logical, h);
        CountedIsSound(s, i, PagePool.Release(logical, h).value, entries[i].pins);
        logical := PagePool.Release(logical, h).value;
        LruEvictable(s);
        assert State() == Counted(s, i, logical, entries[i].pins);
      }
      r := Ok(());
    }

    /** The last reference to a block at rest is given up. */
    method Bury(h: Handle)
      requires Valid() && IsLive(h) && h.id < |entries| && h.id < |logical.pages| && logical.pages[h.id].refs == 1
      requires entries[h.id].location != TRANSFERRING
      modifies this
      ensures Valid() && Elsewhere(old(State()), State(), h.id)
      ensures h.id < |logical.pages| && logical.pages[h.id].refs == 0 && !IsLive(h)
      ensures |contents| == |entries| == |logical.pages| && entries[h.id] == BLANK
      ensures lru == Without(old(lru), h.id) && asked == old(asked)
      ensures SlotsWornOut(old(State())) ==> SlotsWornOut(State())
    {
      ghost var s := State();
      var i := h.id;
      BuriedEnds(s, h);
      StillWornOut(s, i, PagePool.Release(logical, h).value);
      DiscardPrefetch(i);
      lru := Without(lru, i);
      FreeSlotOf(i);
      entries := entries[i := BLANK];
      logical := PagePool.Release(logical, h).value;
      assert State() == Buried(s, i, logical);
    }

    /** The block's device slot, if it has one, is free again. */
    method FreeSlotOf(i: nat)
      requires i < |entries| && Inv(device.pool)
      modifies `device
      ensures device == SlotFreed(old(device), entries[i].gpu)
    {
      if entries[i].gpu.Some? {
        var freed := PagePool.Release(device.pool, entries[i].gpu.value);
        if freed.Ok? { device := device.(pool := freed.value); }
      }
    }

    /** A new block, with one reference, on the device when it returns. If that fails there is no new block. */
    method Create(p: Payload) returns (r: Result<Handle>)
      requires Valid()
      modifies this
      ensures Valid()
      ensures r.Ok? ==> && !old(IsLive(r.value)) && IsLive(r.value) && Elsewhere(old(State()), State(), r.value.id)
                        && r.value.id < |contents| && contents[r.value.id] == p
                        && r.value.id < |entries| && entries[r.value.id].location == GPU_RESIDENT
                        && entries[r.value.id].pins == 0 && r.value.id < |logical.pages|
                        && logical.pages[r.value.id].refs == 1
      ensures r.Err? && r.error == CapacityError ==>
                old(AllLeased(State()))
                || (forall i :: 0 <= i < |old(logical.pages)| ==> old(logical.pages)[i].refs > 0)
      ensures r.Err? ==> r.error in {CapacityError, OverflowError, DeviceError}
      ensures (r == Err(DeviceError) <==> Broke(old(asked))) && asked >= old(asked)
      ensures r == Err(OverflowError) ==> SlotsWornOut(State()) || NameWornOut(old(logical))
      ensures if r.Ok? then lru == BroughtIn(old(State()), r.value.id) && r.value.id !in old(lru)
                else OnlyOldestLeaves(old(lru), lru)
      ensures r.Err? ==> SameRefs(old(logical), logical)
      ensures r.Err? ==> exists i: nat :: Elsewhere(old(State()), State(), i)
      ensures NothingLost(old(State()), State())
    {
      ghost var s := State();
      PoolInv(s);
      AllocateOutcome(logical);
      SameIsElsewhere(s);
      var slot := Allocate(logical);
      if slot.Err? {
        RefusedName(s);
        return Err(slot.error);
      }
      var h := slot.value.0;
      NewIsUnlisted(s, h, slot.value.1, p);
      Install(h, slot.value.1, p);
      CreatedLeases(s, State(), h.id);
      var brought := BringInNew(h, s);
      r := if brought.Ok? then Ok(h) else Err(brought.error);
      UnfoldElsewhere(s, State(), h.id);
      NewLosesNothing(s, State(), h.id);
    }

    /** A new block is brought in, or is gone again. */
    method BringInNew(h: Handle, ghost s: Tiers) returns (r: Result<()>)
      requires Valid() && Elsewhere(s, State(), h.id) && IsLive(h) && h.id < |entries| && entries[h.id].pins == 0
      requires entries[h.id].location == CPU_RESIDENT && lru == s.lru && h.id !in s.lru
      requires h.id < |logical.pages| && logical.pages[h.id].refs == 1
      modifies this
      ensures Valid() && Elsewhere(s, State(), h.id)
      ensures r.Ok? ==> logical == old(logical) && contents == old(contents) && h.id < |entries|
                        && entries[h.id].location == GPU_RESIDENT && entries[h.id].pins == 0
                        && lru == BroughtIn(old(State()), h.id)
      ensures r.Err? ==> r.error in {CapacityError, OverflowError, DeviceError} && OnlyOldestLeaves(s.lru, lru)
                         && h.id < |logical.pages| && logical.pages[h.id].refs == 0
      ensures r == Err(CapacityError) ==> old(AllLeased(State()))
      ensures (r == Err(DeviceError) <==> Broke(old(asked))) && asked >= old(asked)
      ensures r == Err(OverflowError) ==> SlotsWornOut(State())
    {
      r := BringIn(h, s);
      if r.Err? {
        LeavesWithout(s.lru, lru, h.id);
        TakeBack(h, s);
      }
    }

    /** Loads a new block and waits for it. */
    method BringIn(h: Handle, ghost s: Tiers) returns (r: Result<()>)
      requires Valid() && Elsewhere(s, State(), h.id) && IsLive(h) && h.id < |entries| && entries[h.id].pins == 0
      requires entries[h.id].location == CPU_RESIDENT
      modifies `asked, `device, `entries, `lru, `pending, `queued, `dispatchWork, `counters, `failed
      ensures Valid() && Elsewhere(s, State(), h.id) && |entries| == |old(entries)| && entries[h.id].pins == 0
      ensures if r.Ok? then entries[h.id].location == GPU_RESIDENT else entries[h.id].location != TRANSFERRING
      ensures r.Err? ==> r.error in {CapacityError, OverflowError, DeviceError}
      ensures r == Err(CapacityError) ==> old(AllLeased(State()))
      ensures (r == Err(DeviceError) <==> Broke(old(asked))) && asked >= old(asked)
      ensures r == Err(OverflowError) ==> SlotsWornOut(State())
      ensures if r.Ok? then lru == BroughtIn(old(State()), h.id) else OnlyOldestLeaves(old(lru), lru)
    {
      ghost var t := State();
      r := Load(h);
      ghost var u := State();
      MildKeeps(t, u, h);
      if r.Ok? {
        NotQueued(u, h.id);
        r := Wait();
        CalmIsMild(u, State(), r.Ok?);
        MildTrans(t, u, State());
        MildKeeps(u, State(), h);
        UnfoldCalm(u, State(), r.Ok?);
        LiveEntry(State(), h);
        AtRest(State(), h.id);
      }
      MildIsElsewhere(t, State(), h.id);
      ElsewhereTrans(s, t, State(), h.id);
    }

    /** Gives up the reference of a new block that could not be brought in. The block is at rest, so it is gone. */
    method TakeBack(h: Handle, ghost s: Tiers)
      requires Valid() && Elsewhere(s, State(), h.id) && IsLive(h) && h.id < |entries| && entries[h.id].pins == 0
      requires h.id < |logical.pages| && logical.pages[h.id].refs == 1 && entries[h.id].location != TRANSFERRING
      modifies this
      ensures Valid() && Elsewhere(s, State(), h.id) && h.id < |logical.pages| && logical.pages[h.id].refs == 0
      ensures lru == Without(old(lru), h.id) && asked == old(asked)
      ensures SlotsWornOut(old(State())) ==> SlotsWornOut(State())
    {
      ghost var v := State();
      PoolInv(v);
      var released := Release(h);
      ElsewhereTrans(s, v, State(), h.id);
    }

    method Install(h: Handle, pool: Pool, p: Payload)
      requires Valid() && Inv(logical) && Allocate(logical) == Ok((h, pool))
      modifies `logical, `entries, `device, `contents
      ensures Valid() && h.id < |entries| && old(h.id < |entries| == |contents| == |device.backing|)
      ensures State() == Created(old(State()), h, pool, p) && Elsewhere(old(State()), State(), h.id)
      ensures IsLive(h) && logical.pages[h.id].refs == 1 && entries[h.id].pins == 0 && !old(IsLive(h))
              && !old(entries)[h.id].live && entries[h.id].location == CPU_RESIDENT
    {
      ghost var s := State();
      PoolInv(s);
      AllocateOutcome(logical);
      CreateIsSound(s, h, pool, p);
      CreateElsewhere(s, h, pool, p);
      logical := pool;
      entries := entries[h.id := BLANK.(live := true, handle := h)];
      device := device.(backing := device.backing[h.id := p]);
      contents := contents[h.id := p];
      assert State() == Created(s, h, pool, p);
    }

    // -------------------------------------------------------------- leases

    /** Brings a block to the device and waits until it is there. */
    method LoadAndWait(h: Handle) returns (r: Result<()>)
      requires Valid()
      modifies `asked, `device, `entries, `lru, `pending, `queued, `dispatchWork, `counters, `failed
      ensures Valid() && Mild(old(State()), State())
      ensures r == Err(InvalidArgument) <==> !IsLive(h)
      ensures r.Ok? ==> h.id < |entries| && entries[h.id].live && entries[h.id].location == GPU_RESIDENT
      ensures r.Ok? && old(h.id < |entries| && entries[h.id].prefetched) ==> entries[h.id].prefetched
      ensures r == Err(CapacityError) ==> old(AllLeased(State()))
      ensures r.Err? ==> r.error in {InvalidArgument, CapacityError, OverflowError, DeviceError}
      ensures (r == Err(DeviceError) <==> Broke(old(asked))) && asked >= old(asked)
      ensures r == Err(OverflowError) ==> SlotsWornOut(State())
      ensures r.Ok? ==> old(h.id < |entries|) && lru == Used(old(State()), h.id)
      ensures r.Err? ==> OnlyOldestLeaves(old(lru), lru)
      ensures !IsLive(h) ==> State() == old(State())
      ensures IsLive(h) && old(h.id < |entries| && entries[h.id].location == GPU_RESIDENT) ==> r.Ok?
    {
      ghost var s := State();
      if Live(logical, h) { LiveEntry(s, h); }
      r := Load(h);
      if r.Err? { return; }
      ghost var t := State();
      LiveEntry(t, h);
      if entries[h.id].location == TRANSFERRING {
        r := Await(h);
        MildTrans(s, t, State());
        if r.Err? { LeavesGrow(s.lru, t.lru, lru); }
      }
    }

    /** A block on its way is waited for. */
    method Await(h: Handle) returns (r: Result<()>)
      requires Valid() && IsLive(h) && h.id < |entries| && Bound(entries[h.id]) && entries[h.id].move != ToCpu
      modifies `asked, `device, `entries, `lru, `pending, `queued, `dispatchWork, `counters, `failed
      ensures Valid() && Mild(old(State()), State())
      ensures r.Err? ==> r.error in {OverflowError, DeviceError}
      ensures r.Ok? ==> h.id < |entries| && entries[h.id].live && entries[h.id].location == GPU_RESIDENT
                        && entries[h.id].prefetched == old(entries[h.id].prefetched)
      ensures (r == Err(DeviceError) <==> Broke(old(asked))) && asked >= old(asked)
      ensures r == Err(OverflowError) ==> SlotsWornOut(State())
      ensures if r.Ok? then lru == AfterWait(old(State())) else old(lru) <= lru
    {
      ghost var t := State();
      r := Wait();
      CalmIsMild(t, State(), r.Ok?);
      UnfoldCalm(t, State(), r.Ok?);
      LiveEntry(State(), h);
    }

    /** Brings a block to the device and keeps it there until the lease is given back. */
    method AcquireGpu(h: Handle) returns (r: Result<Handle>)
      requires Valid()
      modifies this
      ensures Valid() && Elsewhere(old(State()), State(), h.id) && contents == old(contents)
      ensures r == Err(InvalidArgument) <==> !old(IsLive(h))
      ensures r.Err? ==> Mild(old(State()), State())
      ensures r.Ok? ==> && h.id < |entries| && entries[h.id].live && entries[h.id].location == GPU_RESIDENT
                        && entries[h.id].gpu == Some(r.value)
                        && old(h.id < |entries|) && entries[h.id].pins == old(entries[h.id].pins) + 1
                        && h.id < |logical.pages| && old(h.id < |logical.pages|)
                        && logical.pages[h.id].refs == old(logical.pages[h.id].refs) + 1 && IsLive(h)
      ensures r == Err(CapacityError) ==> old(AllLeased(State()))
      ensures r.Err? ==> r.error in {InvalidArgument, CapacityError, OverflowError, DeviceError}
      ensures r.Ok? ==> old(h.id < |entries|) && (old(entries[h.id].prefetched) ==> !entries[h.id].prefetched)
                        && DemandCounted(old(counters), counters, old(entries[h.id].location == GPU_RESIDENT),
                                         old(entries[h.id].prefetched))
      ensures (r == Err(DeviceError) <==> Broke(old(asked))) && asked >= old(asked)
      ensures r == Err(OverflowError) ==>
                SlotsWornOut(State()) || (h.id < |logical.pages| && logical.pages[h.id].refs == MAX64)
      ensures !old(IsLive(h)) ==> State() == old(State())
      ensures r.Ok? ==> old(h.id < |entries|) && lru == Without(Used(old(State()), h.id), h.id)
      ensures r.Err? ==> if old(IsLive(h) && h.id < |entries| && entries[h.id].location == GPU_RESIDENT)
                         then lru == Refreshed(old(State()), h.id) else OnlyOldestLeaves(old(lru), lru)
    {
      ghost var s := State();
      var resident := Live(logical, h) && h.id < |entries| && entries[h.id].location == GPU_RESIDENT;
      var prefetched := Live(logical, h) && h.id < |entries| && entries[h.id].prefetched;
      var loaded := LoadAndWait(h);
      ghost var u := State();
      if resident { assert loaded.Ok?; } else if Live(s.logical, h) {
        LiveEntry(s, h);
        CalledLeaves(s, h.id);
      }
      MildIsElsewhere(s, u, h.id);
      MildKeeps(s, u, h);
      if loaded.Err? { return Err(loaded.error); }
      UnfoldMild(s, u);
      if entries[h.id].pins == MAX64 {
        PoolInv(u);
        LiveEntry(u, h);
        return Err(OverflowError);
      }
      r := Lease(h, resident, prefetched);
      ElsewhereTrans(s, u, State(), h.id);
    }

    /** A block on the device is leased once more, and the demand counted. */
    method Lease(h: Handle, resident: bool, prefetched: bool) returns (r: Result<Handle>)
      requires Valid() && IsLive(h) && h.id < |entries| && entries[h.id].live && entries[h.id].location == GPU_RESIDENT
               && (prefetched ==> entries[h.id].prefetched)
      modifies `logical, `entries, `lru, `counters
      ensures Valid() && Elsewhere(old(State()), State(), h.id)
      ensures r.Err? ==> r == Err(OverflowError) && State() == old(State())
                         && h.id < |logical.pages| && logical.pages[h.id].refs == MAX64
      ensures r.Ok? ==> && h.id < |entries| && entries[h.id].live && entries[h.id].location == GPU_RESIDENT
                        && entries[h.id].gpu == Some(r.value)
                        && old(h.id < |entries|) && entries[h.id].pins == old(entries[h.id].pins) + 1
                        && h.id < |logical.pages| && old(h.id < |logical.pages|)
                        && logical.pages[h.id].refs == old(logical.pages[h.id].refs) + 1 && IsLive(h)
                        && lru == Without(old(lru), h.id)
      ensures r.Ok? ==> DemandCounted(old(counters), counters, resident, prefetched)
                        && entries[h.id].prefetched == (old(entries[h.id].prefetched) && !prefetched)
    {
      ghost var u := State();
      var i := h.id;
      PoolInv(u);
      LiveEntry(u, h);
      SameEntriesCalm(u, u, true);
      CalmIsMild(u, u, true);
      MildIsElsewhere(u, u, i);
      var retained := PagePool.Retain(logical, h);
      if retained.Err? { return Err(OverflowError); }
      Pin(h, retained.value);
      ghost var v := State();
      CountDemand(i, resident, prefetched);
      ElsewhereTrans(u, v, State(), i);
      ResidentHoldsContent(State(), i);
      r := Ok(entries[i].gpu.value);
    }

    method Pin(h: Handle, refs: Pool)
      requires Valid() && IsLive(h) && h.id < |entries| && entries[h.id].live && entries[h.id].location == GPU_RESIDENT
      requires PagePool.Retain(logical, h) == Ok(refs) && h.id < |logical.pages|
      modifies `logical, `entries, `lru
      ensures Valid() && Elsewhere(old(State()), State(), h.id) && IsLive(h)
      ensures h.id < |entries|
              && entries == old(entries)[h.id := old(entries[h.id]).(pins := old(entries[h.id].pins) + 1)]
      ensures h.id < |logical.pages| && logical.pages[h.id].refs == old(logical.pages[h.id].refs) + 1
      ensures lru == Without(old(lru), h.id)
    {
      ghost var s := State();
      PoolInv(s);
      LiveEntry(s, h);
      RetainChanges(logical, h);
      CountedIsSound(s, h.id, refs, entries[h.id].pins + 1);
      MarkPinned(h.id, refs);
    }

    method MarkPinned(i: nat, refs: Pool)
      requires i < |entries|
      modifies `logical, `entries, `lru
      ensures State() == Counted(old(State()), i, refs, old(entries[i].pins) + 1)
    {
      logical := refs;
      entries := entries[i := entries[i].(pins := entries[i].pins + 1)];
      lru := Without(lru, i);
    }

    method CountDemand(i: nat, resident: bool, prefetched: bool)
      requires Valid() && i < |entries| && entries[i].live && entries[i].location == GPU_RESIDENT
               && (prefetched ==> entries[i].prefetched)
      modifies `entries, `counters
      ensures Valid() && Elsewhere(old(State()), State(), i)
      ensures i < |entries| && entries == old(entries)[i := old(entries[i]).(prefetched := entries[i].prefetched)]
      ensures DemandCounted(old(counters), counters, resident, prefetched)
      ensures entries[i].prefetched == (old(entries[i].prefetched) && !prefetched)
    {
      ghost var s := State();
      DemandIsSound(s, i, resident, prefetched);
      counters := counters.(demands := counters.demands + 1);
      if resident { counters := counters.(gpuHits := counters.gpuHits + 1); }
      else { counters := counters.(misses := counters.misses + 1); }
      if prefetched {
        if resident { counters := counters.(hits := counters.hits + 1); }
        else { counters := counters.(late := counters.late + 1); }
        entries := entries[i := entries[i].(prefetched := false)];
      }
      assert State() == Demanded(s, i, resident, prefetched);
    }

    /** A lease is given back: the block may move again, and is gone if the lease held the last reference. */
    method Unpin(h: Handle)
      requires Valid() && IsLive(h) && h.id < |entries| && entries[h.id].pins > 0
      modifies this
      ensures Valid() && Elsewhere(old(State()), State(), h.id)
      ensures h.id < |logical.pages| && old(h.id < |logical.pages|)
              && logical.pages[h.id].refs == old(logical.pages[h.id].refs) - 1
      ensures h.id < |entries|
              && (IsLive(h) ==> entries[h.id].pins == old(entries[h.id].pins) - 1 && contents == old(contents))
      ensures IsLive(h) <==> logical.pages[h.id].refs > 0
      ensures asked == old(asked)
      ensures lru == if old(entries[h.id].pins) > 1 then old(lru)
                     else if IsLive(h) then Without(old(lru), h.id) + [h.id] else Without(old(lru), h.id)
    {
      ghost var s := State();
      LiveEntry(s, h);
      GiveBack(h);
      ghost var t := State();
      LiveEntry(t, h);
      NotListed(s, h.id);
      WithoutSnoc(s.lru, h.id);
      var released := Release(h);
      ElsewhereTrans(s, t, State(), h.id);
    }

    /** The lease goes; its reference is still there. */
    method GiveBack(h: Handle)
      requires Valid() && IsLive(h) && h.id < |entries| && entries[h.id].pins > 0
      modifies `entries, `lru
      ensures Valid() && Elsewhere(old(State()), State(), h.id)
      ensures entries == old(entries)[h.id := old(entries[h.id]).(pins := old(entries[h.id].pins) - 1)]
      ensures lru == if old(entries[h.id].pins) > 1 then old(lru) else Without(old(lru), h.id) + [h.id]
    {
      ghost var s := State();
      var i := h.id;
      PoolInv(s);
      LiveEntry(s, h);
      NotListed(s, i);
      SameRefsChange(logical, i);
      CountedIsSound(s, i, logical, entries[i].pins - 1);
      entries := entries[i := entries[i].(pins := entries[i].pins - 1)];
      if entries[i].pins == 0 { lru := Without(lru, i) + [i]; }
      assert State() == Counted(s, i, logical, entries[i].pins);
    }

    /** What was last written to the block, by its creator or through a lease; the block keeps it. The copy to the host
        may fail, and the lease is given back all the same. */
    method ReadBlock(h: Handle) returns (r: Result<Payload>)
      requires Valid()
      modifies this
      ensures Valid() && Elsewhere(old(State()), State(), h.id) && contents == old(contents)
      ensures r == Err(InvalidArgument) <==> !old(IsLive(h))
      ensures r.Ok? ==> h.id < |contents| && r.value == contents[h.id]
      ensures !old(IsLive(h)) ==> Mild(old(State()), State())
      ensures old(IsLive(h)) ==> IsLive(h) && h.id < |entries| && old(h.id < |entries|)
                                 && logical.pages[h.id].refs == old(logical.pages[h.id].refs)
                                 && entries[h.id].pins == old(entries[h.id].pins)
      ensures r.Err? ==> r.error in {InvalidArgument, CapacityError, OverflowError, DeviceError}
      ensures (r == Err(DeviceError) <==> Broke(old(asked))) && asked >= old(asked)
      ensures r == Err(CapacityError) ==> old(AllLeased(State()))
      ensures r == Err(OverflowError) ==>
                SlotsWornOut(State()) || (h.id < |logical.pages| && logical.pages[h.id].refs == MAX64)
      ensures !old(IsLive(h)) ==> State() == old(State())
      ensures r.Ok? ==> old(h.id < |entries|)
                        && lru == if old(entries[h.id].pins) > 0 then old(lru)
                                  else Without(Used(old(State()), h.id), h.id) + [h.id]
      ensures r.Err? ==> if old(IsLive(h) && h.id < |entries| && entries[h.id].location == GPU_RESIDENT)
                         then lru == Refreshed(old(State()), h.id) else OnlyOldestLeaves(old(lru), lru)
    {
      ghost var s := State();
      if Live(logical, h) { LiveEntry(s, h); }
      var lease := AcquireGpu(h);
      if lease.Err? {
        MildKeeps(s, State(), h);
        return Err(lease.error);
      }
      ghost var t := State();
      ResidentHoldsContent(t, h.id);
      var copied := Ask();
      r := if copied then Ok(device.bytes[lease.value.id]) else Err(DeviceError);
      ReadIsUse(s, h.id);
      NotListed(t, h.id);
      Unpin(h);
      ElsewhereTrans(s, t, State(), h.id);
    }

    /** A kernel writes the block that its lease holds. */
    method WriteThroughLease(h: Handle, p: Payload)
      requires Valid() && h.id < |entries| && entries[h.id].live && entries[h.id].pins > 0
               && entries[h.id].location == GPU_RESIDENT
      modifies `device, `contents
      ensures Valid() && Elsewhere(old(State()), State(), h.id)
      ensures entries == old(entries) && logical == old(logical) && h.id < |contents| && contents[h.id] == p
    {
      ghost var s := State();
      RewriteIsSound(s, h.id, p);
      device := device.(bytes := device.bytes[entries[h.id].gpu.value.id := p]);
      contents := contents[h.id := p];
      assert State() == Rewritten(s, h.id, p);
    }

    // -------------------------------------------------------------- prefetching

    /** Prefetches the `nextN` blocks after `current`, making room at the expense of blocks outside that window
        only, the least recently used first; a block that finds no room is skipped. The result is the number of
        prefetches accepted. */
    method PrefetchNext(order: seq<Handle>, current: nat, nextN: nat, busy: bool) returns (r: Result<nat>)
      requires Valid()
      modifies `asked, `device, `entries, `lru, `pending, `queued, `dispatchWork, `counters, `failed
      ensures Valid() && Mild(old(State()), State())
      ensures r == Err(OutOfRange) <==> current >= |order|
      ensures r.Ok? ==> r.value <= nextN && counters.submitted == old(counters.submitted) + r.value
      ensures r.Ok? ==> forall k :: current <= k <= current + nextN && k < |order| ==>
                order[k].id < |entries|
                && (old(order[k].id < |entries| && Bound(entries[order[k].id])) ==> Bound(entries[order[k].id]))
      ensures r == Err(InvalidArgument) <==> exists k ::
                current <= k <= current + nextN && k < |order| && !old(IsLive(order[k]))
      ensures r == Err(InvalidArgument) ==> State() == old(State())
      ensures r.Err? ==> r.error in {OutOfRange, InvalidArgument, OverflowError, DeviceError}
      ensures (r == Err(DeviceError) <==> Broke(old(asked))) && asked >= old(asked)
      ensures r == Err(OverflowError) ==> SlotsWornOut(State())
      ensures r.Ok? ==> WindowServed(old(State()), State(), order, current, nextN, busy)
      ensures r.Ok? ==>
                r.value == |NewlyBound(old(entries), entries, AheadOf(order, current, nextN))|
                && counters.skipped == old(counters.skipped) + CountHome(entries, AheadOf(order, current, nextN))
      ensures r.Ok? ==> MadeWayFor(old(State()), State(), Protected(order, current, nextN), busy)
      ensures r.Ok? ==> PolledPending(old(State()), busy) <= pending
                        && |pending| == |PolledPending(old(State()), busy)| + r.value
      ensures r.Err? ==> OnlyMadeWay(old(lru), lru, Protected(order, current, nextN))
    {
      ghost var s := State();
      SameEntriesCalm(s, s, true);
      CalmIsMild(s, s, true);
      NoneMakesWay(lru, Protected(order, current, nextN), lru);
      if current >= |order| { return Err(OutOfRange); }
      var end := WindowEnd(|order|, current, nextN);
      var checked := CheckWindow(order, current, end);
      if checked.None? { return Err(InvalidArgument); }
      AheadIsProtected(order, current, nextN);
      assert checked.value == Protected(order, current, nextN);
      r := PollAndPrefetch(order[current + 1..end], checked.value, busy);
      if r.Ok? {
        AheadIsWindow(s, State(), order, current, nextN, busy);
        WindowBoundKept(order, current, nextN, s.entries, entries);
        MildKeepsLive(s, State());
        PoolInv(s);
      }
    }

    /** Polls, and then serves the window. */
    method PollAndPrefetch(window: seq<Handle>, protected: set<nat>, busy: bool) returns (r: Result<nat>)
      requires Valid() && forall k :: 0 <= k < |window| ==> IsLive(window[k]) && window[k].id in protected
      modifies `asked, `device, `entries, `lru, `pending, `queued, `dispatchWork, `counters, `failed
      ensures Valid() && Mild(old(State()), State())
      ensures r.Err? ==> r.error in {OverflowError, DeviceError}
      ensures (r == Err(DeviceError) <==> Broke(old(asked))) && asked >= old(asked)
      ensures r == Err(OverflowError) ==> SlotsWornOut(State())
      ensures r.Ok? ==> r.value <= |window| && counters.submitted == old(counters.submitted) + r.value
      ensures r.Ok? ==> BoundKept(protected, old(entries), entries)
      ensures r.Ok? ==> forall i :: i in Ids(window) ==> Served(old(State()), State(), i, protected, busy)
      ensures r.Ok? ==> r.value == |NewlyBound(old(entries), entries, Ids(window))|
                        && counters.skipped == old(counters.skipped) + CountHome(entries, Ids(window))
      ensures r.Ok? ==> MadeWayFor(old(State()), State(), protected, busy)
      ensures r.Ok? ==> PolledPending(old(State()), busy) <= pending
                        && |pending| == |PolledPending(old(State()), busy)| + r.value
      ensures r.Err? ==> OnlyMadeWay(old(lru), lru, protected)
    {
      ghost var s := State();
      var polled := PollFirst(busy);
      NoneMakesWay(s.lru, protected, lru);
      if polled.Err? { return Err(polled.error); }
      ghost var p := State();
      UnfoldMild(s, p);
      r := PrefetchWindow(window, protected);
      MildTrans(s, p, State());
      if r.Ok? {
        PrefetchAfterPoll(s, p, State(), window, protected, r.value, busy);
        BoundKeptFrom(protected, s, p, entries);
      } else {
        SparingAfterPoll(s.lru, p.lru, protected, lru);
      }
    }

    method PollFirst(busy: bool) returns (r: Result<()>)
      requires Valid()
      modifies `asked, `device, `entries, `lru, `pending, `queued, `dispatchWork, `counters, `failed
      ensures Valid() && Mild(old(State()), State()) && old(lru) <= lru
      ensures r.Err? ==> r.error in {OverflowError, DeviceError}
      ensures (r == Err(DeviceError) <==> Broke(old(asked))) && asked >= old(asked)
      ensures r == Err(OverflowError) ==> SlotsWornOut(State())
      ensures r.Ok? ==> Polled(old(State()), State(), busy) && counters.submitted == old(counters.submitted)
    {
      ghost var s := State();
      var polled := Poll(busy);
      CalmIsMild(s, State(), polled.Ok?);
      if polled.Err? { return Err(polled.error); }
      UnfoldCalm(s, State(), true);
      assert s.queued == old(queued) && State().queued == queued;
      r := Ok(());
    }

    /** The blocks of the window, if all of its handles are live. */
    method CheckWindow(order: seq<Handle>, current: nat, end: nat) returns (r: Option<set<nat>>)
      requires current < end <= |order|
      ensures r.None? <==> exists k :: current <= k < end && !IsLive(order[k])
      ensures r.Some? ==> r.value == IdsIn(order[current..end])
    {
      var protected: set<nat> := {};
      for k := current to end
        invariant forall j :: current <= j < k ==> IsLive(order[j])
        invariant protected == IdsIn(order[current..k])
      {
        if !Live(logical, order[k]) { return None; }
        OneMore(order, current, k);
        protected := protected + {order[k].id};
      }
      r := Some(protected);
    }

    /** Each block of the window has its turn. */
    method PrefetchWindow(window: seq<Handle>, protected: set<nat>) returns (r: Result<nat>)
      requires Valid() && forall k :: 0 <= k < |window| ==> IsLive(window[k]) && window[k].id in protected
      modifies `asked, `device, `entries, `lru, `pending, `queued, `dispatchWork, `counters, `failed
      ensures Valid() && Mild(old(State()), State())
      ensures r.Err? ==> r.error in {OverflowError, DeviceError}
      ensures (r == Err(DeviceError) <==> Broke(old(asked))) && asked >= old(asked)
      ensures r == Err(OverflowError) ==> SlotsWornOut(State())
      ensures r.Ok? ==> r.value <= |window| && counters.submitted == old(counters.submitted) + r.value
      ensures r.Ok? ==> BoundKept(protected, old(entries), entries)
      ensures r.Ok? ==> Prefetching(old(State()), State(), Ids(window), protected, r.value)
      ensures r.Err? ==> OnlyMadeWay(old(lru), lru, protected)
    {
      ghost var s := State();
      SameEntriesCalm(s, s, true);
      CalmIsMild(s, s, true);
      PrefetchingStarts(s, protected);
      var submitted := 0;
      for k := 0 to |window|
        invariant Valid() && Mild(s, State()) && submitted <= k
        invariant counters.submitted == s.counters.submitted + submitted
        invariant BoundKept(protected, s.entries, entries)
        invariant Prefetching(s, State(), Ids(window[..k]), protected, submitted)
        invariant asked >= old(asked) && !Broke(old(asked))
      {
        IdsSnoc(window, k);
        IdsProtected(window[..k], protected);
        MildKeeps(s, State(), window[k]);
        var accepted := PrefetchTurn(s, Ids(window[..k]), window[k], protected, submitted);
        if accepted.Err? { return Err(accepted.error); }
        if accepted.value { submitted := submitted + 1; }
      }
      assert window[..|window|] == window;
      r := Ok(submitted);
    }

    /** One more block of the window that started in `s` has its turn. */
    method PrefetchTurn(ghost s: Tiers, ghost ids: seq<nat>, h: Handle, protected: set<nat>, ghost submitted: nat)
      returns (r: Result<bool>)
      requires Valid() && Mild(s, State()) && IsLive(h) && h.id in protected && BoundKept(protected, s.entries, entries)
      requires Prefetching(s, State(), ids, protected, submitted) && forall j :: j in ids ==> j in protected
      modifies `asked, `device, `entries, `lru, `pending, `queued, `dispatchWork, `counters, `failed
      ensures Valid() && Mild(s, State())
      ensures r.Err? ==> r.error in {OverflowError, DeviceError}
      ensures (r == Err(DeviceError) <==> Broke(old(asked))) && asked >= old(asked)
      ensures r == Err(OverflowError) ==> SlotsWornOut(State())
      ensures r.Ok? ==> counters.submitted == old(counters.submitted) + if r.value then 1 else 0
      ensures r.Ok? ==> BoundKept(protected, s.entries, entries)
      ensures r.Ok? ==>
                Prefetching(s, State(), ids + [h.id], protected, if r.value then submitted + 1 else submitted)
      ensures r.Err? ==> OnlyMadeWay(s.lru, lru, protected)
    {
      ghost var t := State();
      LiveEntry(t, h);
      r := PrefetchOne(h, protected);
      MildTrans(s, t, State());
      if r.Err? {
        SparesOneMore(s, t, ids, protected, submitted, lru);
      } else {
        PrefetchStep(s, t, State(), ids, h.id, protected, submitted, r.value);
        BoundKeptTrans(protected, s.entries, t.entries, entries);
      }
    }

    method PrefetchOne(h: Handle, protected: set<nat>) returns (r: Result<bool>)
      requires Valid() && IsLive(h) && h.id in protected
      modifies `asked, `device, `entries, `lru, `pending, `queued, `dispatchWork, `counters, `failed
      ensures Valid() && Mild(old(State()), State())
      ensures r.Err? ==> r.error in {OverflowError, DeviceError}
      ensures (r == Err(DeviceError) <==> Broke(old(asked))) && asked >= old(asked)
      ensures r == Err(OverflowError) ==> SlotsWornOut(State())
      ensures r.Ok? ==> counters.submitted == old(counters.submitted) + if r.value then 1 else 0
      ensures r.Ok? ==> BoundKept(protected, old(entries), entries)
      ensures r.Ok? ==> OnePrefetch(old(State()), State(), h.id, protected, r.value)
      ensures r.Err? ==> old(lru) <= lru || WithoutOldest(old(lru), protected) <= lru
    {
      ghost var s := State();
      LiveEntry(s, h);
      SameEntriesCalm(s, s, true);
      CalmIsMild(s, s, true);
      var i := h.id;
      if entries[i].location != CPU_RESIDENT { return Ok(false); }
      r := BeginPrefetch(h, protected);
      if r.Err? || !r.value { return; }
      ghost var t := State();
      LiveEntry(t, h);
      PrefetchIsSound(t, i);
      counters := counters.(submitted := counters.submitted + 1);
      entries := entries[i := entries[i].(prefetched := true)];
      assert State() == Prefetched(t, i);
      MildTrans(s, t, State());
    }

    /** What the start of a prefetch does to the lists. */
    twostate predicate Sent(h: Handle, protected: set<nat>, accepted: bool)
      reads this
    {
      && h.id < |entries| == |old(entries)|
      && (forall j {:trigger entries[j]} ::
            0 <= j < |entries| && j in protected && j != h.id ==> entries[j] == old(entries)[j])
      && if !accepted then
           Full(old(State()), protected)
           && State() == old(State()).(counters := old(counters).(skipped := old(counters).skipped + 1))
         else
           && !Full(old(State()), protected) && Fetched(entries[h.id])
           && counters.skipped == old(counters.skipped) && old(pending) <= pending
           && |pending| == |old(pending)| + 1
           && if old(device).pool.free != []
              then lru == old(lru) && queued == old(queued)
              else device.pool.free == [] && lru == WithoutOldest(old(lru), protected)
                   && queued == old(queued) + [h.id]
    }

    /** A free slot is loaded at once; otherwise an unprotected block starts to leave and the load queues for its
        slot. */
    method BeginPrefetch(h: Handle, protected: set<nat>) returns (r: Result<bool>)
      requires Valid() && IsLive(h) && h.id in protected && h.id < |entries| && entries[h.id].location == CPU_RESIDENT
      requires entries[h.id].live && !entries[h.id].prefetched
      modifies `asked, `device, `entries, `lru, `pending, `queued, `dispatchWork, `counters, `failed
      ensures Valid() && Mild(old(State()), State())
      ensures r.Err? ==> r.error in {OverflowError, DeviceError}
      ensures (r == Err(DeviceError) <==> Broke(old(asked))) && asked >= old(asked)
      ensures r == Err(OverflowError) ==> SlotsWornOut(State())
      ensures r.Ok? ==> counters.submitted == old(counters.submitted) && BoundKept(protected, old(entries), entries)
      ensures r == Ok(true) ==> h.id < |entries| && (entries[h.id].move == ToGpu || entries[h.id].move == QueuedLoad)
                                && !entries[h.id].prefetched
      ensures r.Ok? ==> Sent(h, protected, r.value)
      ensures r.Err? ==> old(lru) <= lru || WithoutOldest(old(lru), protected) <= lru
    {
      ghost var s := State();
      RoomIsFree(s);
      if |device.pool.free| + |device.pool.idle| > 0 {
        var started := StartLoad(h.id);
        BegunIsMild(s, State(), h.id, started.Ok?);
        if started.Err? { return Err(started.error); }
        UnfoldBegun(s, State(), h.id, true);
        LiveEntry(State(), h);
        assert dispatchWork + queued == queued;
        return Ok(true);
      }
      r := QueueBehind(h, protected);
    }

    /** With no slot free, the oldest unprotected block starts to leave and the load waits for its slot. */
    method QueueBehind(h: Handle, protected: set<nat>) returns (r: Result<bool>)
      requires Valid() && h.id in protected && h.id < |entries| && entries[h.id].location == CPU_RESIDENT
      requires entries[h.id].live && !entries[h.id].prefetched && device.pool.free == []
      modifies `asked, `device, `entries, `lru, `pending, `queued, `counters, `failed
      ensures Valid() && Mild(old(State()), State())
      ensures r.Err? ==> r.error == DeviceError
      ensures (r == Err(DeviceError) <==> Broke(old(asked))) && asked >= old(asked)
      ensures r.Ok? ==> counters.submitted == old(counters.submitted) && BoundKept(protected, old(entries), entries)
      ensures r == Ok(true) ==> h.id < |entries| && entries[h.id].move == QueuedLoad && !entries[h.id].prefetched
      ensures r.Ok? ==> Sent(h, protected, r.value)
      ensures r.Err? ==> WithoutOldest(old(lru), protected) <= lru
    {
      ghost var s := State();
      var victim := Victim(protected);
      if victim.None? {
        counters := counters.(skipped := counters.skipped + 1);
        SkippedIsSound(s, State());
        return Ok(false);
      }
      r := Displace(h, victim.value);
    }

    /** Block `victim` leaves for block `h`. */
    method Displace(h: Handle, victim: nat) returns (r: Result<bool>)
      requires Valid() && h.id < |entries| && entries[h.id].location == CPU_RESIDENT && victim in lru
      requires entries[h.id].live && !entries[h.id].prefetched && device.pool.free == []
      modifies `asked, `device, `entries, `lru, `pending, `queued, `counters, `failed
      ensures Valid() && Mild(old(State()), State())
      ensures r.Err? ==> r.error == DeviceError && Without(old(lru), victim) <= lru
      ensures (r == Err(DeviceError) <==> Broke(old(asked))) && asked >= old(asked)
      ensures r.Ok? ==> r == Ok(true) && SamePrefetches() && victim != h.id
      ensures r.Ok? ==> h.id < |entries| == |old(entries)| && entries[h.id].move == QueuedLoad
                        && entries[h.id].location == TRANSFERRING && !entries[h.id].prefetched
                        && forall j {:trigger entries[j]} ::
                          0 <= j < |entries| && j != h.id && j != victim ==> entries[j] == old(entries)[j]
      ensures r.Ok? ==> lru == Without(old(lru), victim) && queued == old(queued) + [h.id]
                        && pending == old(pending) + [victim] && device.pool.free == []
    {
      ghost var s := State();
      LruEvictable(s);
      var gone := StartOffload(victim);
      CalmIsMild(s, State(), false);
      if gone.Err? { return Err(gone.error); }
      JoinQueue(h.id, victim, s);
      r := Ok(true);
    }

    /** The load of block `i` waits for the slot that `victim` is leaving. */
    method JoinQueue(i: nat, ghost victim: nat, ghost s: Tiers)
      requires Sound(State()) && Left(s, State(), victim) && i != victim && i < |s.entries| && dispatchWork == []
      requires s.entries[i].location == CPU_RESIDENT && s.entries[i].live && !s.entries[i].prefetched
      modifies `entries, `queued
      ensures i < |old(entries)| == |entries| && State() == Enqueue(old(State()), i)
      ensures Sound(State()) && Mild(s, State()) && OnwardBut(s, State(), victim)
      ensures CountOffloads(entries, pending) == CountOffloads(old(entries), pending)
      ensures entries[i].move == QueuedLoad && entries[i].location == TRANSFERRING && !entries[i].prefetched
      ensures entries == old(entries)[i := entries[i]] && queued == old(queued) + [i]
    {
      ghost var t := State();
      EnqueueBehind(s, t, i, victim);
      entries := entries[i := entries[i].(location := TRANSFERRING, move := QueuedLoad)];
      queued := queued + [i];
      assert State() == Enqueue(t, i);
    }

    // -------------------------------------------------------------- statistics

    method Stats() returns (live: nat, gpuResident: nat, cpuResident: nat, transferring: nat)
      ensures gpuResident == CountAt(entries, GPU_RESIDENT) && cpuResident == CountAt(entries, CPU_RESIDENT)
      ensures transferring == CountAt(entries, TRANSFERRING) && live == gpuResident + cpuResident + transferring
    {
      live, gpuResident, cpuResident, transferring := 0, 0, 0, 0;
      for k := 0 to |entries|
        invariant gpuResident == CountAt(entries[..k], GPU_RESIDENT)
                  && cpuResident == CountAt(entries[..k], CPU_RESIDENT)
        invariant transferring == CountAt(entries[..k], TRANSFERRING)
                  && live == gpuResident + cpuResident + transferring
      {
        TakeSnoc(entries, k);
        if entries[k].live {
          live := live + 1;
          match entries[k].location {
            case GPU_RESIDENT => gpuResident := gpuResident + 1;
            case CPU_RESIDENT => cpuResident := cpuResident + 1;
            case TRANSFERRING => transferring := transferring + 1;
          }
        }
      }
      assert entries[..|entries|] == entries;
    }

    /** Nothing is lost in the accounts: every accepted prefetch and every demand has one outcome, and unless a
        transfer has failed the moves counted are the transfers that arrived. */
    method Metrics() returns (outstanding: nat)
      requires Valid()
      ensures outstanding == CountPrefetched(entries)
      ensures counters.submitted == counters.hits + counters.late + counters.unused + outstanding
      ensures counters.demands == counters.gpuHits + counters.misses
      ensures !failed ==> counters.loads == device.toDevice && counters.offloads == device.toHost
    {
      outstanding := 0;
      for k := 0 to |entries|
        invariant outstanding == CountPrefetched(entries[..k])
      {
        TakeSnoc(entries, k);
        if entries[k].prefetched { outstanding := outstanding + 1; }
      }
      assert entries[..|entries|] == entries;
      Unfold(State());
    }
  }

  lemma SkippedIsSound(s: Tiers, u: Tiers)
    requires Sound(s) && u == s.(counters := s.counters.(skipped := s.counters.skipped + 1))
    ensures Sound(u) && Mild(s, u)
  {
    Unfold(s);
    CountersOnly(s, u);
    Fold(u);
    assert Steady(s, u);
  }

  lemma NotQueued(s: Tiers, i: nat)
    requires Sound(s) && i < |s.entries| && s.entries[i].move != QueuedLoad
    ensures i !in s.queued
  {
    Unfold(s);
  }

  /** Only pending and queued blocks are between the tiers. */
  lemma AtRest(s: Tiers, i: nat)
    requires Sound(s) && i < |s.entries| && i !in s.pending && i !in s.queued && s.entries[i].live
    ensures s.entries[i].location != TRANSFERRING
  {
    Unfold(s);
    EntryState(s, i);
  }

  lemma MildKeepsLive(s: Tiers, u: Tiers)
    requires Mild(s, u)
    ensures |u.entries| == |s.entries| && u.logical == s.logical
  {
    UnfoldMild(s, u);
  }

  lemma SameRefsChange(p: Pool, i: nat)
    requires Inv(p) && NeverPublished(p) && i < |p.pages| && p.pages[i].refs > 0
    ensures RefsChange(p, p, i)
  {
  }

  /** Every block there was keeps its content and its references, and every leased one its place. */
  ghost predicate NothingLost(s: Tiers, u: Tiers) {
    && |u.entries| == |s.entries| && |u.contents| == |s.contents|
    && forall j :: 0 <= j < |s.entries| && s.entries[j].live ==>
         EntryKept(s.entries[j], u.entries[j]) && (j < |s.contents| ==> u.contents[j] == s.contents[j])
         && (j < |s.logical.pages| ==> j < |u.logical.pages| && u.logical.pages[j] == s.logical.pages[j])
  }

  lemma SameIsElsewhere(s: Tiers)
    ensures Elsewhere(s, s, 0)
  {
    assert SameBut(s, s, 0);
  }

  lemma NewLosesNothing(s: Tiers, u: Tiers, i: nat)
    requires Elsewhere(s, u, i) && (i < |s.entries| ==> !s.entries[i].live)
    ensures NothingLost(s, u)
  {
    UnfoldElsewhere(s, u, i);
  }

  predicate SameRefs(p: Pool, q: Pool) {
    |q.pages| == |p.pages| && forall j :: 0 <= j < |p.pages| ==> q.pages[j].refs == p.pages[j].refs
  }

  /** A new block leases nothing, so the same slots are leased. */
  lemma CreatedLeases(s: Tiers, t: Tiers, i: nat)
    requires Elsewhere(s, t, i) && i < |t.entries| && t.entries[i].pins == 0
    ensures AllLeased(t) && |t.device.pool.pages| == |s.device.pool.pages| ==> AllLeased(s)
  {
    UnfoldElsewhere(s, t, i);
    if AllLeased(t) && |t.device.pool.pages| == |s.device.pool.pages| {
      forall slot: nat | slot < |s.device.pool.pages| ensures LeasedSlot(s, slot) {
        assert LeasedSlot(t, slot);
        var j: nat :| OwnsSlot(t, j, slot) && t.entries[j].pins > 0;
        assert EntryKept(s.entries[j], t.entries[j]);
        assert OwnsSlot(s, j, slot);
      }
    }
  }

  lemma MildKeeps(s: Tiers, u: Tiers, h: Handle)
    requires Mild(s, u)
    ensures u.logical == s.logical && u.contents == s.contents && |u.entries| == |s.entries|
    ensures h.id < |s.entries| ==> u.entries[h.id].pins == s.entries[h.id].pins
  {
    UnfoldMild(s, u);
    if h.id < |s.entries| { assert EntryKept(s.entries[h.id], u.entries[h.id]); }
  }

  /** What is left of a block whose last reference is given up. */
  lemma BuriedEnds(s: Tiers, h: Handle)
    requires Sound(s) && Live(s.logical, h) && h.id < |s.entries| && h.id < |s.logical.pages|
             && s.logical.pages[h.id].refs == 1
    requires s.entries[h.id].location != TRANSFERRING
    ensures Inv(s.device.pool) && PagePool.Release(s.logical, h).Ok?
    ensures var u := Buried(s, h.id, PagePool.Release(s.logical, h).value);
            && Sound(u) && Elsewhere(s, u, h.id)
            && h.id < |u.logical.pages| && u.logical.pages[h.id].refs == 0 && !Live(u.logical, h)
            && |u.contents| == |u.entries| == |u.logical.pages| && u.entries[h.id] == BLANK
            && CountOffloads(u.entries, u.pending) == CountOffloads(s.entries, s.pending)
  {
    PoolInv(s);
    LiveEntry(s, h);
    ReleaseChanges(s.logical, h);
    var refs := PagePool.Release(s.logical, h).value;
    BuriedIsSound(s, h.id, refs);
    PoolInv(Buried(s, h.id, refs));
    DeadHandle(Buried(s, h.id, refs), h);
  }

  /** Without published blocks a handle whose page has no reference is dead. */
  lemma DeadHandle(s: Tiers, h: Handle)
    requires Sound(s) && h.id < |s.logical.pages| && s.logical.pages[h.id].refs == 0
    ensures !Live(s.logical, h)
  {
    Unfold(s);
    FreeOrReferenced(s.logical);
  }

  lemma AllLeasedBefore(s: Tiers, t: Tiers)
    requires Mild(s, t) && AllLeased(t)
    ensures AllLeased(s)
  {
    UnfoldMild(s, t);
    forall slot: nat | slot < |s.device.pool.pages| ensures LeasedSlot(s, slot) {
      assert LeasedSlot(t, slot);
      var i: nat :| OwnsSlot(t, i, slot) && t.entries[i].pins > 0;
      assert EntryKept(s.entries[i], t.entries[i]);
      assert OwnsSlot(s, i, slot);
    }
  }

  lemma UnleasedSlot(s: Tiers, j: nat)
    requires Apart(s) && j < |s.entries| && s.entries[j].gpu.Some? && s.entries[j].pins == 0
    ensures !LeasedSlot(s, s.entries[j].gpu.value.id)
  {
    forall i: nat | OwnsSlot(s, i, s.entries[j].gpu.value.id) ensures s.entries[i] == s.entries[j] {
    }
  }

  lemma FreeSlotUnleased(s: Tiers, slot: nat)
    requires Settled(s) && slot in s.device.pool.free
    ensures !LeasedSlot(s, slot) && slot < |s.device.pool.pages|
  {
    assert PageOk(s.device.pool.blockSize, s.device.pool.pages[slot]);
    forall i: nat | i < |s.entries| && s.entries[i].gpu.Some? ensures s.entries[i].gpu.value.id != slot {
      GpuHeld(s, i);
    }
  }

  /** If leases hold every slot, none is free, nothing moves, and nothing can be evicted. */
  lemma AllLeasedIsFull(s: Tiers)
    requires Sound(s) && QueueFits(s)
    ensures AllLeased(s) ==> s.device.pool.free == [] && s.pending == [] && s.queued == [] && s.lru == []
  {
    Unfold(s);
    if s.device.pool.free != [] { FreeSlotUnleased(s, s.device.pool.free[0]); }
    if s.pending != [] {
      MovingTransfers(s, s.pending[0]);
      MovingOwns(s, 0);
      GpuHeld(s, s.pending[0]);
      UnleasedSlot(s, s.pending[0]);
    }
    if s.lru != [] {
      assert s.lru[0] in s.lru;
      EvictableRests(s, s.lru[0]);
      GpuHeld(s, s.lru[0]);
      UnleasedSlot(s, s.lru[0]);
    }
  }

  lemma MovingOwns(s: Tiers, k: nat)
    requires Settled(s) && k < |s.pending|
    ensures s.pending[k] in s.pending && s.pending[k] < |s.entries| && s.entries[s.pending[k]].gpu.Some?
  {
    Flew(s, k, true);
  }

  lemma OwnerLeases(t: Tiers, j: nat)
    requires Settled(t) && Quiet(t) && t.lru == [] && j < |t.entries| && t.entries[j].gpu.Some?
    ensures t.entries[j].pins > 0
  {
    EvictableRests(t, j);
    assert j !in t.lru;
  }

  /** With nothing free, nothing on the move and nothing to evict, every slot is leased, and was before the wait. */
  lemma NoneFreeMeansAllLeased(s: Tiers, t: Tiers)
    requires Sound(t) && Calm(s, t, false) && Quiet(t) && t.device.pool.free == []
    ensures t.lru == [] ==> AllLeased(s)
  {
    Unfold(t);
    UnfoldCalm(s, t, false);
    FreeOrReferenced(t.device.pool);
    if t.lru == [] {
      forall slot: nat | slot < |s.device.pool.pages| ensures LeasedSlot(s, slot) {
        assert Owned(t, slot);
        var j: nat :| OwnsSlot(t, j, slot);
        OwnerLeases(t, j);
        assert EntryKept(s.entries[j], t.entries[j]);
        assert OwnsSlot(s, j, slot);
      }
    }
  }

  lemma QueuedNeedPending(s: Tiers)
    requires QueueFits(s) && (s.pending != [] || s.queued != [])
    ensures s.pending != []
  {
  }
}
