/** The sender and receiver as the mutable objects they are in src/snapshot. */
module SnapshotObjects {
  import opened RaftTypes
  import opened SnapshotTransfer
  import C = Configuration

  /** Each claim's bytes are in its slot. */
  ghost predicate Held(source: seq<Byte>, slots: seq<seq<Byte>>, claims: seq<Claim>)
  {
    forall i :: 0 <= i < |claims| ==>
      && claims[i].slot < |slots| && ClaimEnd(claims[i]) <= |source|
      && slots[claims[i].slot] == source[claims[i].offset..ClaimEnd(claims[i])]
  }

  /** Writing a free slot disturbs no claim. */
  lemma StillHeld(source: seq<Byte>, slots: seq<seq<Byte>>, slots': seq<seq<Byte>>, claims: seq<Claim>, c: Claim)
    requires Held(source, slots, claims) && c.slot < |slots| == |slots'| && ClaimEnd(c) <= |source|
    requires !SlotInUse(claims, c.slot)
    requires slots' == slots[c.slot := source[c.offset..ClaimEnd(c)]]
    ensures Held(source, slots', claims + [c])
  {
    forall i | 0 <= i < |claims| ensures claims[i].slot != c.slot { assert !SlotInUse(claims, c.slot); }
  }

  lemma HeldSuffix(source: seq<Byte>, slots: seq<seq<Byte>>, claims: seq<Claim>, d: nat)
    requires Held(source, slots, claims) && d <= |claims|
    ensures Held(source, slots, claims[d..])
  {
  }

  class SnapshotSender {
    const t: Transfer
    const hash: seq<Byte> -> Digest
    const slots: array<seq<Byte>>
    var acked: nat
    var next: nat
    var claims: seq<Claim>
    var complete: bool

    ghost function Now(): (s: Sender)
      reads this
    {
      Sender(acked, next, claims, complete)
    }

    /** Every claim's bytes sit in its own slot. */
    ghost predicate Valid()
      reads this, slots
    {
      ValidTransfer(t, hash) && Tiled(t, Now()) && slots.Length == t.inflight && Held(t.source, slots[..], claims)
    }

    /** tr_raft_snapshot_sender_begin_source on a fresh sender. */
    constructor (t: Transfer, hash: seq<Byte> -> Digest)
      requires ValidTransfer(t, hash)
      ensures Valid() && Now() == STARTED && this.t == t && this.hash == hash && fresh(slots)
    {
      this.t, this.hash := t, hash;
      slots := new seq<Byte>[t.inflight](_ => []);
      acked, next, claims, complete := 0, 0, [], false;
    }

    method SlotTaken(slot: nat) returns (taken: bool)
      ensures taken == SlotInUse(claims, slot)
    {
      for i := 0 to |claims|
        invariant forall k :: 0 <= k < i ==> claims[k].slot != slot
      {
        if claims[i].slot == slot { return true; }
      }
      return false;
    }

    method FindFreeSlot() returns (slot: nat)
      requires Valid()
      ensures slot == FreeSlot(claims, 0, t.inflight)
    {
      hide Tiled, ValidTransfer;
      slot := 0;
      while slot < t.inflight
        invariant slot <= t.inflight && FreeSlot(claims, slot, t.inflight) == FreeSlot(claims, 0, t.inflight)
      {
        var taken := SlotTaken(slot);
        if !taken { return; }
        slot := slot + 1;
      }
    }

    /** The chunk is read back from the claim's slot. */
    method FillChunk(c: Claim) returns (k: Chunk)
      requires c.slot < slots.Length && ClaimEnd(c) <= |t.source| && slots[c.slot] == t.source[c.offset..ClaimEnd(c)]
      ensures k == ChunkOf(t, c)
    {
      var conf := if c.offset == 0 then Some(t.conf) else None;
      k := Chunk(t.id, c.offset, conf, slots[c.slot], c.offset + c.length == |t.source|);
    }

    method NextChunk() returns (status: Status, chunk: Option<Chunk>)
      requires Valid()
      modifies this, slots
      ensures Valid() && Now() == Claimed(t, old(Now()))
      ensures var c := NextClaim(t, old(Now()));
        && (status == OK <==> c.Some?) && (c.None? ==> chunk == None)
        && (c.Some? ==> ClaimEnd(c.value) <= |t.source| && chunk == Some(ChunkOf(t, c.value)))
    {
      hide Tiled;
      ghost var s0 := Now();
      ClaimTiled(t, s0, hash);
      TiledBounds(t, s0);
      if complete { return EBUSY, None; }
      if |claims| >= t.inflight {
        if t.inflight != 1 { return EBUSY, None; }
        var k := FillChunk(claims[0]);
        return OK, Some(k);
      }
      if next == |t.source| && claims != [] { return EBUSY, None; }
      var slot := FindFreeSlot();
      if slot == t.inflight { return EBUSY, None; }
      var c := Claim(next, Min(|t.source| - next, t.chunkSize), slot);
      Read(c);
      var k := FillChunk(c);
      return OK, Some(k);
    }

    /** The claimed bytes are read into their slot. */
    method Read(c: Claim)
      requires c.slot < slots.Length && ClaimEnd(c) <= |t.source| && Held(t.source, slots[..], claims)
      requires !SlotInUse(claims, c.slot)
      modifies this`claims, this`next, slots
      ensures claims == old(claims) + [c] && next == ClaimEnd(c) && Held(t.source, slots[..], claims)
      ensures slots[c.slot] == t.source[c.offset..ClaimEnd(c)]
    {
      ghost var was := slots[..];
      slots[c.slot] := t.source[c.offset..ClaimEnd(c)];
      StillHeld(t.source, was, slots[..], claims, c);
      claims, next := claims + [c], ClaimEnd(c);
    }

    method CancelChunk(offset: nat) returns (status: Status)
      requires Valid()
      modifies this
      ensures Valid() && Now() == Cancelled(old(Now()), offset)
      ensures status == OK <==> old(claims) != [] && old(claims)[|old(claims)| - 1].offset == offset
    {
      hide Tiled;
      CancelTiled(t, Now(), offset);
      if claims == [] { return EINVAL; }
      var last := claims[|claims| - 1];
      if last.offset != offset { return EPROTO; }
      ghost var was := claims;
      next := last.offset;
      claims := claims[..|claims| - 1];
      assert forall i :: 0 <= i < |claims| ==> claims[i] == was[i];
      return OK;
    }

    method PrepareResume() returns (status: Status)
      requires Valid()
      modifies this
      ensures Valid() && Now() == Resumed(old(Now())) && (status == OK <==> !complete)
    {
      hide Tiled;
      ResumeTiled(t, Now());
      if complete { return EBUSY; }
      next, claims := acked, [];
      return OK;
    }

    method AtBoundary(offset: nat) returns (found: bool)
      ensures found == EndsAt(claims, offset)
    {
      for i := 0 to |claims|
        invariant forall k :: 0 <= k < i ==> claims[k].offset + claims[k].length != offset
      {
        if claims[i].offset + claims[i].length == offset { return true; }
      }
      return false;
    }

    method Release(offset: nat)
      modifies this`claims
      ensures claims == Released(old(claims), offset)
    {
      var left := claims;
      while left != [] && left[0].offset + left[0].length <= offset
        invariant Released(left, offset) == Released(old(claims), offset)
        decreases |left|
      {
        left := left[1..];
      }
      claims := left;
    }

    method Acknowledge(a: Ack) returns (status: Status)
      requires Valid()
      modifies this
      ensures Valid() && Now() == Acknowledged(t, old(Now()), a)
      ensures status != OK ==> Now() == old(Now())
      ensures complete ==> old(complete) || (a.accepted && a.next == |t.source|)
    {
      hide Tiled, EndsAt, Released;
      ghost var was := claims;
      AckTiled(t, Now(), a, hash);
      if !AckForTransfer(t, a) { return EPROTO; }
      if complete { return if a.accepted && a.next == |t.source| then OK else EPROTO; }
      if a.next > next || (a.next != |t.source| && a.next % t.chunkSize != 0) { return EPROTO; }
      if !a.accepted {
        if a.next > acked { return EPROTO; }
        acked, next, claims := a.next, a.next, [];
        return OK;
      }
      if a.next < acked { return EPROTO; }
      var boundary := AtBoundary(a.next);
      if a.next != acked && !boundary { return EPROTO; }
      acked := a.next;
      Release(a.next);
      complete := a.next == |t.source|;
      HeldSuffix(t.source, slots[..], was, |was| - |claims|);
      return OK;
    }
  }

  class SnapshotReceiver {
    const self: NodeId
    const maxSize: nat
    const hash: seq<Byte> -> Digest
    var active: bool
    var completed: bool
    var id: Ident
    var conf: C.Conf
    var buffer: array<Byte>
    var next: nat

    ghost predicate Valid()
      reads this, buffer
    {
      active ==> next <= buffer.Length == id.size
    }

    ghost function Now(): (r: Receiver)
      reads this, buffer
      requires Valid()
    {
      if active then Receiver(true, completed, id, conf, buffer[..next]) else IDLE
    }

    constructor (self: NodeId, maxSize: nat, hash: seq<Byte> -> Digest)
      ensures Valid() && Now() == IDLE && this.self == self && this.maxSize == maxSize && this.hash == hash
      ensures fresh(buffer)
    {
      this.self, this.maxSize, this.hash := self, maxSize, hash;
      active, completed, id, conf, next := false, false, Ident(0, 0, 0, 0, 0, 0, 0), NO_CONF, 0;
      buffer := new Byte[0];
    }

    /** tr_snapshot_receiver_clear_transfer */
    method Clear()
      modifies this
      ensures Valid() && Now() == IDLE && buffer == old(buffer)
    {
      active, completed, next := false, false, 0;
    }

    /** tr_snapshot_receiver_start */
    method Start(c: Chunk, space: bool, starts: bool) returns (status: Status)
      requires Valid() && c.conf.Some?
      modifies this
      ensures Valid() && status == if !space then EFBIG else if starts then OK else EIO
      ensures Now() == if !space then old(Now()) else if starts then Begun(c) else IDLE
      ensures buffer == old(buffer) || fresh(buffer)
    {
      if !space { return EFBIG; }
      Clear();
      if !starts { return EIO; }
      id, conf := c.id, c.conf.value;
      buffer := new Byte[c.id.size];
      active, completed, next := true, false, 0;
      return OK;
    }

    /** The copy loop behind memcpy. */
    method CopyIn(data: seq<Byte>)
      requires active && Valid() && next + |data| <= buffer.Length
      modifies buffer
      ensures buffer[..next + |data|] == old(buffer[..next]) + data
    {
      var i := 0;
      while i < |data|
        invariant i <= |data| && buffer[..next + i] == old(buffer[..next]) + data[..i]
      {
        buffer[next + i] := data[i];
        i := i + 1;
      }
      assert data[..i] == data;
    }

    /** The part after the transfer has been identified. */
    method Take(c: Chunk, sink: Sink) returns (status: Status, ack: Ack, installed: bool)
      requires Valid() && active && c.offset + |c.data| <= id.size
      modifies this, buffer
      ensures Valid()
      ensures var h := Continued(self, hash, old(Now()), c, sink);
        Now() == h.receiver && status == h.status && ack == h.ack && installed == h.installed
      ensures buffer == old(buffer)
    {
      if completed { return OK, AckOf(self, c, next, true), false; }
      if c.offset < next { return OK, AckOf(self, c, next, true), false; }
      if c.offset != next { return EPROTO, AckOf(self, c, next, false), false; }
      if c.data != [] && !sink.writes {
        Clear();
        return EIO, AckOf(self, c, 0, false), false;
      }
      CopyIn(c.data);
      next := next + |c.data|;
      if !c.done { return OK, AckOf(self, c, next, true), false; }
      if hash(buffer[..next]) != id.digest {
        Clear();
        return EPROTO, AckOf(self, c, 0, false), false;
      }
      if !sink.installs {
        Clear();
        return EIO, AckOf(self, c, 0, false), false;
      }
      completed := true;
      return OK, AckOf(self, c, next, true), true;
    }

    /** tr_raft_snapshot_receiver_handle */
    method HandleChunk(c: Chunk, sink: Sink) returns (status: Status, ack: Ack, installed: bool)
      requires Valid()
      modifies this, buffer
      ensures Valid()
      ensures var h := Handle(self, maxSize, hash, old(Now()), c, sink);
        Now() == h.receiver && status == h.status && ack == h.ack && installed == h.installed
    {
      hide Extended;
      if !ChunkValid(self, maxSize, c) { return EPROTO, AckOf(self, c, 0, false), false; }
      var same := active && id == c.id && (c.offset == 0 ==> c.conf == Some(conf));
      if !same {
        if !active && c.offset != 0 { return EPROTO, AckOf(self, c, 0, false), false; }
        if active && (c.offset != 0 || c.id.index <= id.index || c.id.term < id.term) {
          return EPROTO, AckOf(self, c, next, false), false;
        }
        status := Start(c, sink.space, sink.starts);
        if status != OK { return status, AckOf(self, c, 0, false), false; }
      }
      status, ack, installed := Take(c, sink);
    }
  }
}
