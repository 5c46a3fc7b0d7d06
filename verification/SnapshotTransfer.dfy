/**
 Snapshot transfer (src/snapshot): a windowed sender and an in-order receiver.
 The step functions are the behaviour of the two objects; the classes below
 refine them.  The digest is an arbitrary function of the content.
 */
module SnapshotTransfer {
  import opened RaftTypes
  import C = Configuration

  const MAX_CHUNK_BYTES: nat := 65536
  const MAX_INFLIGHT_CHUNKS: nat := 4

  type Digest = nat

  /** What names one snapshot in flight. */
  datatype Ident = Ident(from: NodeId, to: NodeId, term: nat, index: nat, snapTerm: nat, size: nat, digest: Digest)

  datatype Chunk = Chunk(id: Ident, offset: nat, conf: Option<C.Conf>, data: seq<Byte>, done: bool)

  datatype Ack = Ack(from: NodeId, to: NodeId, term: nat, index: nat, size: nat, digest: Digest, next: nat,
    accepted: bool)

  // ------------------------------------------------------------------ sender

  datatype Claim = Claim(offset: nat, length: nat, slot: nat)

  datatype Transfer = Transfer(id: Ident, conf: C.Conf, source: seq<Byte>, chunkSize: nat, inflight: nat)

  datatype Sender = Sender(acked: nat, next: nat, claims: seq<Claim>, complete: bool)

  const STARTED := Sender(0, 0, [], false)

  predicate ValidTransfer(t: Transfer, hash: seq<Byte> -> Digest)
  {
    && t.id.from != 0 && t.id.to != 0 && t.id.from != t.id.to && t.id.term != 0 && t.id.index != 0
    && 0 < t.id.snapTerm <= t.id.term && t.id.size == |t.source| && t.id.digest == hash(t.source) && C.Valid(t.conf)
    && 0 < t.chunkSize <= MAX_CHUNK_BYTES && 0 < t.inflight <= MAX_INFLIGHT_CHUNKS
  }

  predicate SlotInUse(claims: seq<Claim>, slot: nat)
  {
    exists i :: 0 <= i < |claims| && claims[i].slot == slot
  }

  /** tr_raft_snapshot_sender_find_free_slot: the least unused slot, or the limit. */
  function FreeSlot(claims: seq<Claim>, slot: nat, limit: nat): (r: nat)
    requires slot <= limit
    ensures slot <= r <= limit && (r < limit ==> !SlotInUse(claims, r))
    ensures forall k :: slot <= k < r ==> SlotInUse(claims, k)
    decreases limit - slot
  {
    if slot == limit || !SlotInUse(claims, slot) then slot else FreeSlot(claims, slot + 1, limit)
  }

  /** tr_raft_snapshot_sender_fill_chunk */
  function ChunkOf(t: Transfer, c: Claim): (k: Chunk)
    requires c.offset + c.length <= |t.source|
  {
    Chunk(t.id, c.offset, if c.offset == 0 then Some(t.conf) else None, t.source[c.offset..c.offset + c.length],
          c.offset + c.length == |t.source|)
  }

  /** tr_raft_snapshot_sender_next_chunk; a full window of one resends its only chunk. */
  function NextClaim(t: Transfer, s: Sender): (r: Option<Claim>)
    requires s.next <= |t.source| && t.inflight > 0
  {
    if s.complete then None
    else if |s.claims| >= t.inflight then if t.inflight != 1 then None else Some(s.claims[0])
    else if s.next == |t.source| && s.claims != [] then None
    else
      var slot := FreeSlot(s.claims, 0, t.inflight);
      if slot == t.inflight then None else Some(Claim(s.next, Min(|t.source| - s.next, t.chunkSize), slot))
  }

  function Claimed(t: Transfer, s: Sender): (s': Sender)
    requires s.next <= |t.source| && t.inflight > 0
  {
    var c := NextClaim(t, s);
    if c.None? || |s.claims| >= t.inflight then s
    else s.(claims := s.claims + [c.value], next := s.next + c.value.length)
  }

  /** tr_raft_snapshot_sender_cancel_chunk: only the newest claim can be taken back. */
  function Cancelled(s: Sender, offset: nat): (s': Sender)
  {
    var n := |s.claims|;
    if n == 0 || s.claims[n - 1].offset != offset then s else s.(next := offset, claims := s.claims[..n - 1])
  }

  /** tr_raft_snapshot_sender_prepare_resume */
  function Resumed(s: Sender): (s': Sender)
  {
    if s.complete then s else s.(next := s.acked, claims := [])
  }

  predicate AckForTransfer(t: Transfer, a: Ack)
  {
    && a.from == t.id.to && a.to == t.id.from && a.term == t.id.term && a.index == t.id.index && a.size == t.id.size
    && a.digest == t.id.digest
  }

  predicate EndsAt(claims: seq<Claim>, offset: nat)
  {
    exists i :: 0 <= i < |claims| && claims[i].offset + claims[i].length == offset
  }

  /** Claims that end at or before the offset leave from the front. */
  function Released(claims: seq<Claim>, offset: nat): (r: seq<Claim>)
    ensures |r| <= |claims| && r == claims[|claims| - |r|..]
    ensures forall k :: 0 <= k < |claims| - |r| ==> claims[k].offset + claims[k].length <= offset
    ensures r != [] ==> r[0].offset + r[0].length > offset
  {
    if claims == [] || claims[0].offset + claims[0].length > offset then claims else Released(claims[1..], offset)
  }

  /** tr_raft_snapshot_sender_acknowledge */
  function Acknowledged(t: Transfer, s: Sender, a: Ack): (s': Sender)
    requires t.chunkSize > 0
  {
    if !AckForTransfer(t, a) || s.complete || a.next > s.next || (a.next != |t.source| && a.next % t.chunkSize != 0)
      then s
    else if !a.accepted then
      if a.next > s.acked then s else Sender(a.next, a.next, [], false)
    else if a.next < s.acked || !(a.next == s.acked || EndsAt(s.claims, a.next)) then s
    else Sender(a.next, s.next, Released(s.claims, a.next), a.next == |t.source|)
  }

  /** Claims tile what was sent but not acknowledged, each in a slot of its own. */
  ghost predicate Tiled(t: Transfer, s: Sender)
  {
    && s.acked <= s.next <= |t.source| && |s.claims| <= t.inflight
    && (s.claims == [] ==> s.acked == s.next)
    && (s.claims != [] ==> s.claims[0].offset == s.acked && ClaimEnd(s.claims[|s.claims| - 1]) == s.next)
    && Linked(t, s.claims)
    && (s.complete ==> s.acked == |t.source|)
    && (!s.complete && |t.source| > 0 ==> s.acked < |t.source|)
  }

  function ClaimEnd(c: Claim): (e: nat)
  {
    c.offset + c.length
  }

  /** Each claim starts where the one before it ends. */
  predicate Consecutive(claims: seq<Claim>)
  {
    forall i :: 0 < i < |claims| ==> claims[i].offset == ClaimEnd(claims[i - 1])
  }

  lemma {:induction false} ClaimsRise(claims: seq<Claim>, i: nat, j: nat)
    requires i <= j < |claims| && Consecutive(claims)
    ensures claims[i].offset <= claims[j].offset && ClaimEnd(claims[i]) <= ClaimEnd(claims[j])
    decreases j
  {
    if i < j { ClaimsRise(claims, i, j - 1); }
  }

  lemma ClaimTiled(t: Transfer, s: Sender, hash: seq<Byte> -> Digest)
    requires ValidTransfer(t, hash) && Tiled(t, s)
    ensures Tiled(t, Claimed(t, s))
    ensures var c := NextClaim(t, s); c.Some? ==> ClaimEnd(c.value) <= |t.source|
  {
    var c := NextClaim(t, s);
    if c.Some? && |s.claims| < t.inflight {
      var s' := Claimed(t, s);
      forall i, j | 0 <= i < j < |s'.claims| ensures s'.claims[i].slot != s'.claims[j].slot {
        if j == |s.claims| { assert !SlotInUse(s.claims, c.value.slot); }
      }
    } else if c.Some? {
      ClaimsRise(s.claims, 0, |s.claims| - 1);
    }
  }

  lemma CancelTiled(t: Transfer, s: Sender, offset: nat)
    requires Tiled(t, s)
    ensures Tiled(t, Cancelled(s, offset))
  {
    var n := |s.claims|;
    if n > 0 { ClaimsRise(s.claims, 0, n - 1); }
  }

  lemma AckTiled(t: Transfer, s: Sender, a: Ack, hash: seq<Byte> -> Digest)
    requires ValidTransfer(t, hash) && Tiled(t, s)
    ensures Tiled(t, Acknowledged(t, s, a))
  {
    var s' := Acknowledged(t, s, a);
    if s' != s && a.accepted {
      ReleaseTiled(t, s, a.next);
    }
  }

  /** After a release the first claim left starts at the acknowledged offset. */
  lemma ReleaseFront(claims: seq<Claim>, acked: nat, offset: nat)
    requires claims != [] && claims[0].offset == acked && acked <= offset && (offset == acked || EndsAt(claims, offset))
    requires Consecutive(claims)
    ensures var r := Released(claims, offset); r != [] ==> r[0].offset == offset
  {
    hide Released, Consecutive;
    var r := Released(claims, offset);
    var d := |claims| - |r|;
    if r != [] {
      assert r[0] == claims[d];
      if d > 0 {
        ClaimsRise(claims, 0, d - 1);
        JoinedAt(claims, d);
      }
      if offset != acked {
        var i :| 0 <= i < |claims| && claims[i].offset + claims[i].length == offset;
        if i >= d { ClaimsRise(claims, d, i); } else { ClaimsRise(claims, i, d - 1); }
      }
    }
  }

  lemma JoinedAt(claims: seq<Claim>, i: nat)
    requires Consecutive(claims) && 0 < i < |claims|
    ensures claims[i].offset == ClaimEnd(claims[i - 1])
  {
  }

  /** The tiling and the slots survive in any suffix of the claims. */
  ghost predicate Linked(t: Transfer, claims: seq<Claim>)
  {
    && Consecutive(claims)
    && (forall i :: 0 <= i < |claims| ==> claims[i].slot < t.inflight && (claims[i].length == 0 ==> |t.source| == 0))
    && (forall i, j :: 0 <= i < j < |claims| ==> claims[i].slot != claims[j].slot)
  }

  lemma LinkedSuffix(t: Transfer, claims: seq<Claim>, d: nat)
    requires Linked(t, claims) && d <= |claims|
    ensures Linked(t, claims[d..])
  {
    var r := claims[d..];
    forall i | 0 < i < |r| ensures r[i].offset == ClaimEnd(r[i - 1])
      { assert claims[d + i].offset == ClaimEnd(claims[d + i - 1]); }
  }

  lemma LinkedConsecutive(t: Transfer, claims: seq<Claim>)
    requires Linked(t, claims)
    ensures Consecutive(claims)
  {
  }

  lemma ReleaseTiled(t: Transfer, s: Sender, offset: nat)
    requires Tiled(t, s) && !s.complete && s.acked <= offset <= s.next
    requires (offset == s.acked || EndsAt(s.claims, offset))
    ensures Tiled(t, Sender(offset, s.next, Released(s.claims, offset), offset == |t.source|))
  {
    hide Released, EndsAt, Linked, Consecutive, Tiled;
    TiledFields(t, s);
    var r := LinkedRelease(t, s.claims, s.acked, offset);
    SuffixTiled(t, s, offset, r);
  }

  lemma LinkedRelease(t: Transfer, claims: seq<Claim>, acked: nat, offset: nat) returns (r: seq<Claim>)
    requires Linked(t, claims) && acked <= offset && (offset == acked || EndsAt(claims, offset))
    requires claims != [] ==> claims[0].offset == acked
    ensures r == Released(claims, offset) && Linked(t, r) && |r| <= |claims|
    ensures claims != [] ==>
      if r != [] then r[|r| - 1] == claims[|claims| - 1] && r[0].offset == offset
      else ClaimEnd(claims[|claims| - 1]) <= offset
  {
    hide Released, EndsAt, Linked, Consecutive;
    r := Released(claims, offset);
    LinkedConsecutive(t, claims);
    LinkedSuffix(t, claims, |claims| - |r|);
    ReleasedEnds(claims, offset);
    if claims != [] { ReleaseFront(claims, acked, offset); }
  }

  lemma TiledFields(t: Transfer, s: Sender)
    requires Tiled(t, s)
    ensures Linked(t, s.claims) && (s.claims != [] ==> s.claims[0].offset == s.acked)
  {
  }

  lemma SuffixTiled(t: Transfer, s: Sender, offset: nat, r: seq<Claim>)
    requires Tiled(t, s) && !s.complete && s.acked <= offset <= s.next && Linked(t, r) && |r| <= |s.claims|
    requires s.claims != [] ==>
      if r != [] then r[|r| - 1] == s.claims[|s.claims| - 1] && r[0].offset == offset
      else ClaimEnd(s.claims[|s.claims| - 1]) <= offset
    ensures Tiled(t, Sender(offset, s.next, r, offset == |t.source|))
  {
    hide Linked;
  }

  /** Releasing takes claims from the front only. */
  lemma ReleasedEnds(claims: seq<Claim>, offset: nat)
    ensures var r := Released(claims, offset);
      claims != [] ==>
        if r != [] then r[|r| - 1] == claims[|claims| - 1] else ClaimEnd(claims[|claims| - 1]) <= offset
  {
    hide Released;
    var r := Released(claims, offset);
    if r == [] && claims != [] { assert claims[|claims| - 1].offset + claims[|claims| - 1].length <= offset; }
  }

  // ---------------------------------------------------------------- receiver

  datatype Receiver = Receiver(active: bool, completed: bool, id: Ident, conf: C.Conf, data: seq<Byte>)

  const NO_CONF := C.Conf(0, 0, [])
  const IDLE := Receiver(false, false, Ident(0, 0, 0, 0, 0, 0, 0), NO_CONF, [])

  /** Whether there is a buffer for the whole snapshot, and how the sink answers: starting, writing, installing. */
  datatype Sink = Sink(space: bool, starts: bool, writes: bool, installs: bool)

  /** tr_snapshot_receiver_chunk_valid */
  predicate ChunkValid(self: NodeId, maxSize: nat, c: Chunk)
  {
    && c.id.from != 0 && c.id.to == self && c.id.term != 0 && c.id.index != 0 && c.id.snapTerm != 0
    && c.id.snapTerm <= c.id.term
    && c.id.size <= maxSize && c.offset <= c.id.size && |c.data| <= MAX_CHUNK_BYTES && |c.data| <= c.id.size - c.offset
    && (if c.offset == 0 then c.conf.Some? && C.Valid(c.conf.value) else c.conf.None?)
    && c.done == (c.offset + |c.data| == c.id.size) && (c.done || c.data != [])
  }

  /** tr_snapshot_receiver_identity_matches */
  predicate SameTransfer(r: Receiver, c: Chunk)
  {
    r.id == c.id && (c.offset == 0 ==> c.conf == Some(r.conf))
  }

  datatype Handled = Handled(status: Status, receiver: Receiver, ack: Ack, installed: bool)

  function AckOf(self: NodeId, c: Chunk, next: nat, accepted: bool): (a: Ack)
  {
    Ack(self, c.id.from, c.id.term, c.id.index, c.id.size, c.id.digest, next, accepted)
  }

  /** The chunk extends the transfer, and the last one installs it. */
  function Extended(self: NodeId, hash: seq<Byte> -> Digest, r: Receiver, c: Chunk, sink: Sink): (h: Handled)
  {
    var data := r.data + c.data;
    if c.data != [] && !sink.writes then Handled(EIO, IDLE, AckOf(self, c, 0, false), false)
    else if !c.done then Handled(OK, r.(data := data), AckOf(self, c, |data|, true), false)
    else if hash(data) != r.id.digest then Handled(EPROTO, IDLE, AckOf(self, c, 0, false), false)
    else if !sink.installs then Handled(EIO, IDLE, AckOf(self, c, 0, false), false)
    else Handled(OK, r.(data := data, completed := true), AckOf(self, c, |data|, true), true)
  }

  /** A chunk of the transfer in progress. */
  function Continued(self: NodeId, hash: seq<Byte> -> Digest, r: Receiver, c: Chunk, sink: Sink): (h: Handled)
  {
    if r.completed || c.offset < |r.data| then Handled(OK, r, AckOf(self, c, |r.data|, true), false)
    else if c.offset != |r.data| then Handled(EPROTO, r, AckOf(self, c, |r.data|, false), false)
    else Extended(self, hash, r, c, sink)
  }

  function Begun(c: Chunk): (r: Receiver)
  {
    Receiver(true, false, c.id, if c.conf.Some? then c.conf.value else NO_CONF, [])
  }

  /** tr_raft_snapshot_receiver_handle */
  function Handle(self: NodeId, maxSize: nat, hash: seq<Byte> -> Digest, r: Receiver, c: Chunk,
                  sink: Sink): (h: Handled)
  {
    if !ChunkValid(self, maxSize, c) then Handled(EPROTO, r, AckOf(self, c, 0, false), false)
    else if r.active && SameTransfer(r, c) then Continued(self, hash, r, c, sink)
    else if !r.active && c.offset != 0 then Handled(EPROTO, r, AckOf(self, c, 0, false), false)
    else if r.active && (c.offset != 0 || c.id.index <= r.id.index || c.id.term < r.id.term) then
      Handled(EPROTO, r, AckOf(self, c, |r.data|, false), false)
    else if !sink.space then Handled(EFBIG, r, AckOf(self, c, 0, false), false)
    else if !sink.starts then Handled(EIO, IDLE, AckOf(self, c, 0, false), false)
    else Continued(self, hash, Begun(c), c, sink)
  }

  // ---------------------------------------- both ends over a hostile channel

  /**
   Chunks and acknowledgements are never removed: any of them may arrive at any
   time, again and again.  `installed` holds the bytes of every installation so
   far, `recent` counts those since the receiver was last reset.  `held` is the
   most the receiver ever held, and `kept` says that it has not lost any of it.
   */
  datatype System = System(
    sender: Sender,
    receiver: Receiver,
    chunks: set<Chunk>,
    acks: set<Ack>,
    installed: seq<seq<Byte>>,
    recent: nat,
    held: nat,
    kept: bool)

  const BEGUN := System(STARTED, IDLE, {}, {}, [], 0, 0, true)

  datatype Event =
    | Send
    | Cancel(offset: nat)
    | Resume
    | ChunkArrives(chunk: Chunk, sink: Sink)
    | AckArrives(ack: Ack)
    | ReceiverReset

  predicate Possible(y: System, e: Event)
  {
    match e
    case ChunkArrives(c, _) => c in y.chunks
    case AckArrives(a) => a in y.acks
    case _ => true
  }

  function Step(t: Transfer, maxSize: nat, hash: seq<Byte> -> Digest, y: System, e: Event): (y': System)
    requires y.sender.next <= |t.source| && t.inflight > 0 && t.chunkSize > 0
  {
    match e
    case Send =>
      var c := NextClaim(t, y.sender);
      if c.Some? && ClaimEnd(c.value) <= |t.source|
      then y.(sender := Claimed(t, y.sender), chunks := y.chunks + {ChunkOf(t, c.value)})
      else y
    case Cancel(o) => y.(sender := Cancelled(y.sender, o))
    case Resume => y.(sender := Resumed(y.sender))
    case ChunkArrives(c, sink) =>
      var h := Handle(t.id.to, maxSize, hash, y.receiver, c, sink);
      y.(receiver := h.receiver, acks := y.acks + {h.ack},
         installed := y.installed + (if h.installed then [h.receiver.data] else []),
         recent := y.recent + (if h.installed then 1 else 0), held := Max(y.held, |h.receiver.data|),
         kept := y.kept && (y.receiver.active ==> h.receiver.active))
    case AckArrives(a) => y.(sender := Acknowledged(t, y.sender, a))
    case ReceiverReset => y.(receiver := IDLE, recent := 0, kept := y.kept && !y.receiver.active)
  }

  /** A chunk this sender cuts from the source. */
  predicate Genuine(t: Transfer, c: Chunk)
  {
    && c.id == t.id && c.offset + |c.data| <= |t.source| && c.data == t.source[c.offset..c.offset + |c.data|]
    && c.done == (c.offset + |c.data| == |t.source|) && (c.offset == 0 ==> c.conf == Some(t.conf))
  }

  ghost predicate ReceiverOK(t: Transfer, r: Receiver)
  {
    if !r.active then r.data == [] else
      && r.id == t.id && r.conf == t.conf && r.data <= t.source
      && (r.completed ==> r.data == t.source)
      && (!r.completed && |t.source| > 0 ==> |r.data| < |t.source|)
  }

  ghost predicate Inv(t: Transfer, y: System)
  {
    && Tiled(t, y.sender) && ReceiverOK(t, y.receiver)
    && (forall c :: c in y.chunks ==> Genuine(t, c))
    && (forall a :: a in y.acks && a.accepted && a.next == |t.source| ==> y.installed != [])
    && (y.receiver.active && y.receiver.completed ==> y.installed != [])
    && (y.sender.complete ==> y.installed != [])
    && (forall b :: b in y.installed ==> b == t.source)
    && y.recent == (if y.receiver.active && y.receiver.completed then 1 else 0)
    && (forall a :: a in y.acks && a.accepted ==> a.next <= y.held) && y.sender.acked <= y.held
    && |y.receiver.data| <= y.held && (y.kept ==> y.held == |y.receiver.data|)
  }

  // --------------------------------------------------------------- invariance

  lemma GenuineChunk(t: Transfer, c: Claim)
    requires ClaimEnd(c) <= |t.source|
    ensures Genuine(t, ChunkOf(t, c))
  {
  }

  /** A genuine chunk keeps what was assembled a prefix of the source. */
  lemma HandleKeeps(t: Transfer, maxSize: nat, hash: seq<Byte> -> Digest, r: Receiver, c: Chunk, sink: Sink)
    requires ValidTransfer(t, hash) && ReceiverOK(t, r) && Genuine(t, c)
    ensures var h := Handle(t.id.to, maxSize, hash, r, c, sink);
      && ReceiverOK(t, h.receiver)
      && (h.ack.accepted && h.ack.next == |t.source| ==> h.installed || (r.active && r.completed))
      && (h.installed ==> h.receiver.active && h.receiver.completed && h.receiver.data == t.source)
      && (h.installed ==> !(r.active && r.completed))
      && (r.active && r.completed ==> h.receiver == r)
      && (h.receiver.active && h.receiver.completed && !h.installed ==> r.active && r.completed)
      && (h.installed || (h.receiver.active && !h.receiver.completed) ==>
            (r.active && !r.completed) || (!r.active && c.offset == 0))
      && (h.ack.accepted ==> h.receiver.active && h.ack.next == |h.receiver.data|)
      && (h.receiver.active && r.active ==> r.data <= h.receiver.data)
      && (!r.active ==> r.data == []) && (!h.receiver.active ==> h.receiver.data == [])
  {
    if r.active && SameTransfer(r, c) {
      ContinueKeeps(t, hash, r, c, sink);
    } else if !r.active && c.offset == 0 {
      ContinueKeeps(t, hash, Begun(c), c, sink);
    }
  }

  lemma ContinueKeeps(t: Transfer, hash: seq<Byte> -> Digest, r: Receiver, c: Chunk, sink: Sink)
    requires ValidTransfer(t, hash) && Genuine(t, c) && r.active && r.id == t.id && r.conf == t.conf
    requires r.data <= t.source
    requires (r.completed ==> r.data == t.source) && (!r.completed && |t.source| > 0 ==> |r.data| < |t.source|)
    ensures var h := Continued(t.id.to, hash, r, c, sink);
      && ReceiverOK(t, h.receiver)
      && (h.ack.accepted && h.ack.next == |t.source| ==> h.installed || r.completed)
      && (h.installed ==> h.receiver.active && h.receiver.completed && !r.completed)
      && (h.receiver.active && h.receiver.completed && !h.installed ==> r.completed)
      && (h.ack.accepted ==> h.receiver.active && h.ack.next == |h.receiver.data|)
      && (h.receiver.active ==> r.data <= h.receiver.data)
  {
    if !r.completed && c.offset == |r.data| {
      GenuineExtends(t, r.data, c);
      hide Genuine;
    }
  }

  /** A genuine chunk that starts where the data ends continues the source. */
  lemma GenuineExtends(t: Transfer, data: seq<Byte>, c: Chunk)
    requires Genuine(t, c) && data <= t.source && c.offset == |data|
    ensures data + c.data <= t.source && (c.done <==> data + c.data == t.source)
    ensures (!c.done ==> |data| + |c.data| < |t.source|)
  {
    assert data + c.data == t.source[..|data| + |c.data|];
    if c.done { assert data + c.data == t.source; }
  }

  lemma Initially(t: Transfer)
    requires t.chunkSize > 0
    ensures Inv(t, BEGUN)
  {
  }

  lemma StepKeeps(t: Transfer, maxSize: nat, hash: seq<Byte> -> Digest, y: System, e: Event)
    requires ValidTransfer(t, hash) && Inv(t, y) && Possible(y, e)
    ensures Inv(t, Step(t, maxSize, hash, y, e))
  {
    hide Tiled, ReceiverOK, Genuine, Handle, Acknowledged, NextClaim;
    TiledBounds(t, y.sender);
    AckedStays(t, y.sender);
    match e
    case Send =>
      ClaimTiled(t, y.sender, hash);
      var c := NextClaim(t, y.sender);
      if c.Some? { GenuineChunk(t, c.value); }
    case Cancel(o) => CancelTiled(t, y.sender, o);
    case Resume => ResumeTiled(t, y.sender);
    case ChunkArrives(c, sink) => HandleKeeps(t, maxSize, hash, y.receiver, c, sink);
    case AckArrives(a) =>
      AckTiled(t, y.sender, a, hash);
      CompletedByAck(t, y.sender, a);
    case ReceiverReset => IdleOK(t, y.receiver);
  }

  /** Sending, cancelling and resuming leave the acknowledged offset alone. */
  lemma AckedStays(t: Transfer, s: Sender)
    requires s.next <= |t.source| && t.inflight > 0
    ensures Claimed(t, s).acked == s.acked && Resumed(s).acked == s.acked
    ensures forall o: nat :: Cancelled(s, o).acked == s.acked
  {
  }

  lemma TiledBounds(t: Transfer, s: Sender)
    requires Tiled(t, s)
    ensures s.next <= |t.source|
  {
  }

  lemma ResumeTiled(t: Transfer, s: Sender)
    requires Tiled(t, s)
    ensures Tiled(t, Resumed(s)) && Resumed(s).complete == s.complete
  {
  }

  lemma IdleOK(t: Transfer, r: Receiver)
    requires ReceiverOK(t, r)
    ensures ReceiverOK(t, IDLE) && (!r.active ==> r.data == [])
  {
  }

  lemma CompletedByAck(t: Transfer, s: Sender, a: Ack)
    requires t.chunkSize > 0
    ensures Acknowledged(t, s, a).complete ==> s.complete || (a.accepted && a.next == |t.source|)
    ensures Acknowledged(t, s, a).acked <= s.acked || (a.accepted && Acknowledged(t, s, a).acked == a.next)
  {
  }

  ghost predicate IsRun(t: Transfer, maxSize: nat, hash: seq<Byte> -> Digest, ys: seq<System>, es: seq<Event>)
  {
    && ValidTransfer(t, hash) && |ys| == |es| + 1 && ys[0] == BEGUN
    && forall i :: 0 <= i < |es| ==>
         ys[i].sender.next <= |t.source| && Possible(ys[i], es[i]) && ys[i + 1] == Step(t, maxSize, hash, ys[i], es[i])
  }

  lemma {:induction false} RunKeeps(t: Transfer, maxSize: nat, hash: seq<Byte> -> Digest, ys: seq<System>,
                                    es: seq<Event>, i: nat)
    requires IsRun(t, maxSize, hash, ys, es) && i < |ys|
    ensures Inv(t, ys[i])
    decreases i
  {
    hide Inv, Step, Possible, ValidTransfer;
    if i == 0 {
      SizePositive(t, hash);
      Initially(t);
    } else {
      RunKeeps(t, maxSize, hash, ys, es, i - 1);
      StepKeeps(t, maxSize, hash, ys[i - 1], es[i - 1]);
    }
  }

  lemma SizePositive(t: Transfer, hash: seq<Byte> -> Digest)
    requires ValidTransfer(t, hash)
    ensures t.chunkSize > 0
  {
  }

  /**
   Snapshot transfer: whatever is lost, repeated or reordered, and through
   cancellations, resumptions and receiver resets, the sink holds a prefix of
   the source, the sender's claims tile what is in flight in distinct slots,
   only the whole source is ever installed, at most once between two resets of
   the receiver, and a completed sender means it was.  What the sender believes
   acknowledged the receiver did hold, and still does unless it lost a transfer.
   */
  lemma TransferSafe(t: Transfer, maxSize: nat, hash: seq<Byte> -> Digest, ys: seq<System>, es: seq<Event>, i: nat)
    requires IsRun(t, maxSize, hash, ys, es) && i < |ys|
    ensures var y := ys[i];
      && Tiled(t, y.sender)
      && (y.receiver.active ==> y.receiver.data <= t.source && (y.receiver.completed ==> y.receiver.data == t.source))
      && (forall b :: b in y.installed ==> b == t.source) && y.recent <= 1
      && (y.sender.complete ==> t.source in y.installed)
      && y.sender.acked <= y.held && (y.kept ==> y.sender.acked <= |y.receiver.data|)
  {
    RunKeeps(t, maxSize, hash, ys, es, i);
    if ys[i].installed != [] { assert ys[i].installed[0] in ys[i].installed; }
  }
}
