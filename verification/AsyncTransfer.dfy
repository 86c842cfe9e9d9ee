/** Device memory and the asynchronous copies to and from host buffers: what is in flight keeps a reference,
    and nothing in flight can be read, written or submitted again (src/gpu_memory_pool.cpp,
    src/async_transfer.cpp). */
module AsyncTransfers {
  import opened Common
  import opened PagePool

  /** One block on its way to the device (`write`) or to a host buffer. */
  datatype Transfer = Transfer(block: Handle, buffer: nat, write: bool)

  /** `toDevice` and `toHost` count the transfers that have arrived. */
  datatype Device = Device(pool: Pool, initialized: seq<bool>, inFlight: seq<bool>, bytes: seq<Payload>,
                           backing: seq<Payload>, busy: seq<bool>, pending: seq<Transfer>, toDevice: nat, toHost: nat)

  // ---------------------------------------------------------------- operations

  /** What is wrong with a transfer, in the order in which it is checked. */
  function Refusal(d: Device, t: Transfer): Option<Error> {
    if t.buffer >= |d.busy| then Some(InvalidArgument)
    else if d.busy[t.buffer] then Some(LogicError)
    else if !Held(d.pool, t.block) || t.block.id >= |d.inFlight| || t.block.id >= |d.initialized|
           then Some(InvalidArgument)
    else if d.inFlight[t.block.id] then Some(LogicError)
    else if t.write && (d.pool.pages[t.block.id].refs != 1 || d.pool.pages[t.block.id].cached)
           then Some(InvalidArgument)
    else if !t.write && !d.initialized[t.block.id] then Some(InvalidArgument)
    else if d.pool.pages[t.block.id].refs == MAX64 then Some(OverflowError)
    else None
  }

  /** From here on the runtime holds a reference of its own. */
  function Submit(d: Device, t: Transfer): Device
    requires Refusal(d, t).None?
  {
    d.(pool := Retain(d.pool, t.block).value,
       inFlight := d.inFlight[t.block.id := true],
       initialized := if t.write then d.initialized[t.block.id := false] else d.initialized,
       busy := d.busy[t.buffer := true],
       pending := d.pending + [t])
  }

  predicate InRange(d: Device, t: Transfer) {
    t.block.id < |d.inFlight| == |d.initialized| == |d.bytes| && t.buffer < |d.busy| == |d.backing|
  }

  /** One transfer is over. A failed one may have left anything in its destination. */
  function Land(d: Device, t: Transfer, ok: bool, junk: Option<Payload>): Device
    requires InRange(d, t)
  {
    var slot := t.block.id;
    d.(pool := if Release(d.pool, t.block).Ok? then Release(d.pool, t.block).value else d.pool,
       inFlight := d.inFlight[slot := false],
       initialized := if t.write then d.initialized[slot := ok] else d.initialized,
       busy := d.busy[t.buffer := false],
       bytes := if !t.write then d.bytes
                else if ok then d.bytes[slot := d.backing[t.buffer]]
                else if junk.Some? then d.bytes[slot := junk.value] else d.bytes,
       backing := if t.write then d.backing
                  else if ok then d.backing[t.buffer := d.bytes[slot]]
                  else if junk.Some? then d.backing[t.buffer := junk.value] else d.backing,
       toDevice := if ok && t.write then d.toDevice + 1 else d.toDevice,
       toHost := if ok && !t.write then d.toHost + 1 else d.toHost)
  }

  // ---------------------------------------------------------------- invariant

  ghost predicate Sized(d: Device) {
    && |d.initialized| == |d.inFlight| == |d.bytes| == |d.pool.pages|
    && |d.busy| == |d.backing|
  }

  ghost predicate NeverPublished(p: Pool) {
    forall i :: 0 <= i < |p.pages| ==> !p.pages[i].cached
  }

  /** A pending transfer holds its block; a block being written counts as unwritten until it has arrived. */
  ghost predicate Flies(d: Device, t: Transfer) {
    && InRange(d, t) && Held(d.pool, t.block) && d.inFlight[t.block.id] && d.busy[t.buffer]
    && d.initialized[t.block.id] == !t.write
  }

  /** Every pending transfer is the only one on its block and on its buffer. */
  ghost predicate PendingOk(d: Device) {
    && (forall k :: 0 <= k < |d.pending| ==> Flies(d, d.pending[k]))
    && (forall j, k :: 0 <= j < k < |d.pending| ==>
          d.pending[j].block.id != d.pending[k].block.id && d.pending[j].buffer != d.pending[k].buffer)
  }

  ghost predicate Moves(d: Device, slot: nat) {
    exists k :: 0 <= k < |d.pending| && d.pending[k].block.id == slot
  }

  ghost predicate Uses(d: Device, buffer: nat) {
    exists k :: 0 <= k < |d.pending| && d.pending[k].buffer == buffer
  }

  /** Whatever is marked in flight or busy belongs to a pending transfer. */
  ghost predicate FlagsOk(d: Device) {
    && (forall slot: nat :: slot < |d.inFlight| && d.inFlight[slot] ==> Moves(d, slot))
    && (forall b: nat :: b < |d.busy| && d.busy[b] ==> Uses(d, b))
  }

  ghost predicate DeviceInv(d: Device) {
    Inv(d.pool) && NeverPublished(d.pool) && Sized(d) && PendingOk(d) && FlagsOk(d)
  }

  lemma SubmitKeepsPending(d: Device, t: Transfer)
    requires Sized(d) && PendingOk(d) && Refusal(d, t).None?
    ensures Sized(Submit(d, t)) && PendingOk(Submit(d, t))
  {
    var e := Submit(d, t);
    forall k | 0 <= k < |e.pending| ensures Flies(e, e.pending[k]) {
      if k < |d.pending| { assert Flies(d, d.pending[k]); }
    }
  }

  lemma SubmitKeepsFlags(d: Device, t: Transfer)
    requires FlagsOk(d) && Refusal(d, t).None?
    ensures FlagsOk(Submit(d, t))
  {
    var e := Submit(d, t);
    assert e.pending[|d.pending|] == t;
    forall slot: nat | slot < |e.inFlight| && e.inFlight[slot] ensures Moves(e, slot) {
      if slot != t.block.id {
        var k :| 0 <= k < |d.pending| && d.pending[k].block.id == slot;
        assert e.pending[k].block.id == slot;
      }
    }
    forall b: nat | b < |e.busy| && e.busy[b] ensures Uses(e, b) {
      if b != t.buffer {
        var k :| 0 <= k < |d.pending| && d.pending[k].buffer == b;
        assert e.pending[k].buffer == b;
      }
    }
  }

  lemma SubmitKeepsInv(d: Device, t: Transfer)
    requires DeviceInv(d) && Refusal(d, t).None?
    ensures DeviceInv(Submit(d, t))
  {
    RetainKeepsInv(d.pool, t.block);
    SubmitKeepsPending(d, t);
    SubmitKeepsFlags(d, t);
  }

  /** The device once its oldest pending transfer is over. */
  function Landed(d: Device, ok: bool, junk: Option<Payload>): Device
    requires d.pending != [] && InRange(d, d.pending[0])
  {
    Land(d, d.pending[0], ok, junk).(pending := d.pending[1..])
  }

  lemma LandKeepsPending(d: Device, ok: bool, junk: Option<Payload>)
    requires Sized(d) && PendingOk(d) && d.pending != []
    ensures InRange(d, d.pending[0]) && Sized(Landed(d, ok, junk)) && PendingOk(Landed(d, ok, junk))
  {
    assert Flies(d, d.pending[0]);
    var e := Landed(d, ok, junk);
    forall k | 0 <= k < |e.pending| ensures Flies(e, e.pending[k]) {
      assert e.pending[k] == d.pending[k + 1] && Flies(d, d.pending[k + 1]);
      assert d.pending[0].block.id != d.pending[k + 1].block.id;
    }
  }

  lemma LandKeepsFlags(d: Device, ok: bool, junk: Option<Payload>)
    requires FlagsOk(d) && d.pending != [] && InRange(d, d.pending[0])
    ensures FlagsOk(Landed(d, ok, junk))
  {
    var e := Landed(d, ok, junk);
    forall slot: nat | slot < |e.inFlight| && e.inFlight[slot] ensures Moves(e, slot) {
      var k :| 0 <= k < |d.pending| && d.pending[k].block.id == slot;
      assert e.pending[k - 1].block.id == slot;
    }
    forall b: nat | b < |e.busy| && e.busy[b] ensures Uses(e, b) {
      var k :| 0 <= k < |d.pending| && d.pending[k].buffer == b;
      assert e.pending[k - 1].buffer == b;
    }
  }

  lemma LandKeepsInv(d: Device, ok: bool, junk: Option<Payload>)
    requires DeviceInv(d) && d.pending != []
    ensures InRange(d, d.pending[0]) && DeviceInv(Landed(d, ok, junk))
  {
    assert Flies(d, d.pending[0]);
    ReleaseKeepsInv(d.pool, d.pending[0].block);
    LandKeepsPending(d, ok, junk);
    LandKeepsFlags(d, ok, junk);
  }
}
