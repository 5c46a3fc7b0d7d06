/**
 A snapshot transfer gets there: acknowledgements tell what the receiver holds, a
 chunk that follows on is taken, and from every reachable state the whole source
 can still be installed and the sender completed.
 */
module TransferProgress {
  import opened RaftTypes
  import opened SnapshotTransfer
  import C = Configuration

  /** There is room, and every call on the sink succeeds. */
  const WILLING := Sink(true, true, true, true)

  /** An accepted acknowledgement names exactly the length of what is held after the call, for any chunk at all. */
  lemma AckHonest(self: NodeId, maxSize: nat, hash: seq<Byte> -> Digest, r: Receiver, c: Chunk, sink: Sink)
    ensures var h := Handle(self, maxSize, hash, r, c, sink);
      && (h.ack.accepted <==> h.status == OK)
      && (h.ack.accepted ==> h.receiver.active && h.ack.next == |h.receiver.data|)
      && h.ack.from == self && h.ack.to == c.id.from && h.ack.term == c.id.term && h.ack.index == c.id.index
      && h.ack.size == c.id.size && h.ack.digest == c.id.digest
  {
    hide ChunkValid, SameTransfer;
  }

  /** A receiver that holds the first k bytes of the source, or has not begun. */
  ghost predicate At(t: Transfer, r: Receiver, k: nat)
  {
    && k <= |t.source|
    && if k == 0 then !r.active else r == Receiver(true, false, t.id, t.conf, t.source[..k])
  }

  /** The next chunk of the source. */
  function Cut(t: Transfer, k: nat): (c: Claim)
    requires k <= |t.source|
  {
    Claim(k, Min(|t.source| - k, t.chunkSize), 0)
  }

  /** A chunk that follows on is taken by a willing sink: the bytes join, and the last one installs the source. */
  lemma InOrder(t: Transfer, maxSize: nat, hash: seq<Byte> -> Digest, r: Receiver, k: nat)
    requires ValidTransfer(t, hash) && At(t, r, k) && |t.source| <= maxSize && (k < |t.source| || t.source == [])
    ensures var c, k' := ChunkOf(t, Cut(t, k)), ClaimEnd(Cut(t, k));
      Handle(t.id.to, maxSize, hash, r, c, WILLING) ==
        Handled(OK, Receiver(true, k' == |t.source|, t.id, t.conf, t.source[..k']),
                Ack(t.id.to, t.id.from, t.id.term, t.id.index, t.id.size, t.id.digest, k', true), k' == |t.source|)
  {
    hide ChunkValid, ValidTransfer, Extended, ChunkOf;
    var c := ChunkOf(t, Cut(t, k));
    var held := Receiver(true, false, t.id, t.conf, t.source[..k]);
    CutValid(t, maxSize, hash, k);
    Extends(t, hash, k);
    assert Continued(t.id.to, hash, held, c, WILLING) == Extended(t.id.to, hash, held, c, WILLING);
    if k == 0 {
      assert t.source[..0] == [];
      assert Begun(c) == held;
    }
  }

  lemma CutValid(t: Transfer, maxSize: nat, hash: seq<Byte> -> Digest, k: nat)
    requires ValidTransfer(t, hash) && k <= |t.source| <= maxSize && (k < |t.source| || t.source == [])
    ensures var c := ChunkOf(t, Cut(t, k));
      ChunkValid(t.id.to, maxSize, c) && c.id == t.id && c.offset == k && (k == 0 ==> c.conf == Some(t.conf))
  {
    hide C.Valid;
  }

  lemma Extends(t: Transfer, hash: seq<Byte> -> Digest, k: nat)
    requires ValidTransfer(t, hash) && k <= |t.source| && (k < |t.source| || t.source == [])
    ensures var c, k' := ChunkOf(t, Cut(t, k)), ClaimEnd(Cut(t, k));
      Extended(t.id.to, hash, Receiver(true, false, t.id, t.conf, t.source[..k]), c, WILLING) ==
        Handled(OK, Receiver(true, k' == |t.source|, t.id, t.conf, t.source[..k']),
                Ack(t.id.to, t.id.from, t.id.term, t.id.index, t.id.size, t.id.digest, k', true), k' == |t.source|)
  {
    hide C.Valid;
    var k' := ClaimEnd(Cut(t, k));
    assert t.source[..k] + t.source[k..k'] == t.source[..k'];
    assert t.source[..|t.source|] == t.source;
  }

  /** A chunk the receiver has already is acknowledged with what it holds, a gap is refused with it; nothing changes. */
  lemma OutOfOrder(t: Transfer, maxSize: nat, hash: seq<Byte> -> Digest, r: Receiver, k: nat, c: Chunk, sink: Sink)
    requires ValidTransfer(t, hash) && At(t, r, k) && 0 < k && Genuine(t, c) && ChunkValid(t.id.to, maxSize, c)
    requires c.offset != k
    ensures var h := Handle(t.id.to, maxSize, hash, r, c, sink);
      && h.receiver == r && !h.installed && h.ack.next == k
      && h.ack.accepted == (c.offset < k) && h.status == (if c.offset < k then OK else EPROTO)
  {
  }

  /** The sender puts the next chunk out and takes its acknowledgement. */
  lemma SenderTurn(t: Transfer, hash: seq<Byte> -> Digest, k: nat)
    requires ValidTransfer(t, hash) && k <= |t.source| && (k < |t.source| || t.source == []) && k % t.chunkSize == 0
    ensures var s, k' := Sender(k, k, [], false), ClaimEnd(Cut(t, k));
      var a := Ack(t.id.to, t.id.from, t.id.term, t.id.index, t.id.size, t.id.digest, k', true);
      && NextClaim(t, s) == Some(Cut(t, k)) && Claimed(t, s) == Sender(k, k', [Cut(t, k)], false)
      && Acknowledged(t, Claimed(t, s), a) == Sender(k', k', [], k' == |t.source|)
      && (k' < |t.source| ==> k' % t.chunkSize == 0 && k' > k)
  {
    hide C.Valid, Acknowledged, NextClaim, Claimed;
    var k' := ClaimEnd(Cut(t, k));
    if k' < |t.source| {
      assert k' == k + t.chunkSize;
      StepAligned(k, t.chunkSize);
    }
    ClaimTurn(t, k);
    AckTurn(t, Cut(t, k));
  }

  lemma ClaimTurn(t: Transfer, k: nat)
    requires k <= |t.source| && t.inflight > 0
    ensures var s, k' := Sender(k, k, [], false), ClaimEnd(Cut(t, k));
      NextClaim(t, s) == Some(Cut(t, k)) && Claimed(t, s) == Sender(k, k', [Cut(t, k)], false)
  {
    assert FreeSlot([], 0, t.inflight) == 0;
    assert [] + [Cut(t, k)] == [Cut(t, k)];
  }

  lemma AckTurn(t: Transfer, c: Claim)
    requires t.chunkSize > 0 && ClaimEnd(c) <= |t.source|
    requires ClaimEnd(c) == |t.source| || ClaimEnd(c) % t.chunkSize == 0
    ensures var k' := ClaimEnd(c);
      var a := Ack(t.id.to, t.id.from, t.id.term, t.id.index, t.id.size, t.id.digest, k', true);
      Acknowledged(t, Sender(c.offset, k', [c], false), a) == Sender(k', k', [], k' == |t.source|)
  {
    hide Released;
    var claims := [c];
    assert claims[0].offset + claims[0].length == ClaimEnd(c);
    OneReleased(c);
  }

  lemma OneReleased(c: Claim)
    ensures Released([c], ClaimEnd(c)) == []
  {
    assert [c][1..] == [];
  }

  lemma StepAligned(k: nat, n: nat)
    requires n > 0 && k % n == 0
    ensures (k + n) % n == 0
  {
    var q, q', r := k / n, (k + n) / n, (k + n) % n;
    var d := q' - q - 1;
    assert n * d + r == 0 by {
      assert k == n * q && k + n == n * q' + r;
      assert n * d == n * q' - n * q - n;
    }
    Multiples(n, d);
  }

  lemma Multiples(n: int, d: int)
    requires n > 0
    ensures (d >= 1 ==> n * d >= n) && (d <= -1 ==> n * d <= -n)
  {
  }

  // ------------------------------------------------------------------- runs

  ghost predicate Continues(t: Transfer, maxSize: nat, hash: seq<Byte> -> Digest, ys: seq<System>, es: seq<Event>,
                            ys': seq<System>, es': seq<Event>)
  {
    IsRun(t, maxSize, hash, ys', es') && ys <= ys' && es <= es'
  }

  function Now(ys: seq<System>): (y: System)
    requires ys != []
  {
    ys[|ys| - 1]
  }

  lemma Proceed(t: Transfer, maxSize: nat, hash: seq<Byte> -> Digest, ys: seq<System>, es: seq<Event>, e: Event)
    returns (ys': seq<System>, es': seq<Event>)
    requires IsRun(t, maxSize, hash, ys, es) && ys != [] && Possible(Now(ys), e)
    ensures ys' != [] && Continues(t, maxSize, hash, ys, es, ys', es')
    ensures ValidTransfer(t, hash) && Now(ys).sender.next <= |t.source|
    ensures Now(ys') == Step(t, maxSize, hash, Now(ys), e)
  {
    hide Step, Possible;
    RunKeeps(t, maxSize, hash, ys, es, |ys| - 1);
    TiledBounds(t, Now(ys).sender);
    ys', es' := ys + [Step(t, maxSize, hash, Now(ys), e)], es + [e];
    forall i | 0 <= i < |es'|
      ensures ys'[i].sender.next <= |t.source| && Possible(ys'[i], es'[i])
      ensures ys'[i + 1] == Step(t, maxSize, hash, ys'[i], es'[i])
    {
      if i < |es| { assert ys'[i] == ys[i] && ys'[i + 1] == ys[i + 1]; }
    }
  }

  lemma Chain(t: Transfer, maxSize: nat, hash: seq<Byte> -> Digest, a: seq<System>, ea: seq<Event>, b: seq<System>,
              eb: seq<Event>, c: seq<System>, ec: seq<Event>)
    requires Continues(t, maxSize, hash, a, ea, b, eb) && Continues(t, maxSize, hash, b, eb, c, ec)
    ensures Continues(t, maxSize, hash, a, ea, c, ec)
  {
    hide IsRun;
  }

  /** Both ends stand at k, with nothing in flight. */
  ghost predicate InStep(t: Transfer, y: System, k: nat)
  {
    && At(t, y.receiver, k) && y.sender == Sender(k, k, [], false) && (k < |t.source| || t.source == [])
    && t.chunkSize > 0 && k % t.chunkSize == 0
  }

  /** One chunk goes over. */
  lemma ChunkRound(t: Transfer, maxSize: nat, hash: seq<Byte> -> Digest, ys: seq<System>, es: seq<Event>, k: nat)
    returns (ys': seq<System>, es': seq<Event>)
    requires IsRun(t, maxSize, hash, ys, es) && ys != [] && InStep(t, Now(ys), k) && |t.source| <= maxSize
    requires ValidTransfer(t, hash)
    ensures ys' != [] && Continues(t, maxSize, hash, ys, es, ys', es')
    ensures var k' := ClaimEnd(Cut(t, k));
      if k' == |t.source| then Now(ys').sender.complete && t.source in Now(ys').installed
      else k < k' && InStep(t, Now(ys'), k')
  {
    hide IsRun, Handle, Acknowledged, NextClaim, Claimed, ValidTransfer;
    SenderTurn(t, hash, k);
    InOrder(t, maxSize, hash, Now(ys).receiver, k);
    var c, k' := ChunkOf(t, Cut(t, k)), ClaimEnd(Cut(t, k));
    var a := Ack(t.id.to, t.id.from, t.id.term, t.id.index, t.id.size, t.id.digest, k', true);
    var y1, e1 := Proceed(t, maxSize, hash, ys, es, Send);
    assert c in Now(y1).chunks;
    var y2, e2 := Proceed(t, maxSize, hash, y1, e1, ChunkArrives(c, WILLING));
    assert a in Now(y2).acks;
    var y3, e3 := Proceed(t, maxSize, hash, y2, e2, AckArrives(a));
    Chain(t, maxSize, hash, ys, es, y1, e1, y2, e2);
    Chain(t, maxSize, hash, ys, es, y2, e2, y3, e3);
    ys', es' := y3, e3;
    if k' == |t.source| { assert t.source[..k'] == t.source; }
  }

  lemma {:induction false} ChunkRounds(t: Transfer, maxSize: nat, hash: seq<Byte> -> Digest, ys: seq<System>,
                                       es: seq<Event>, k: nat) returns (ys': seq<System>, es': seq<Event>)
    requires IsRun(t, maxSize, hash, ys, es) && ys != [] && InStep(t, Now(ys), k) && |t.source| <= maxSize
    requires ValidTransfer(t, hash)
    ensures ys' != [] && Continues(t, maxSize, hash, ys, es, ys', es')
    ensures Now(ys').sender.complete && t.source in Now(ys').installed
    decreases |t.source| - k
  {
    hide IsRun, ValidTransfer;
    var y1, e1 := ChunkRound(t, maxSize, hash, ys, es, k);
    if ClaimEnd(Cut(t, k)) == |t.source| {
      ys', es' := y1, e1;
    } else {
      var y2, e2 := ChunkRounds(t, maxSize, hash, y1, e1, ClaimEnd(Cut(t, k)));
      Chain(t, maxSize, hash, ys, es, y1, e1, y2, e2);
      ys', es' := y2, e2;
    }
  }

  /** A receiver that starts over sends the sender back to the beginning. */
  lemma StartOver(t: Transfer, maxSize: nat, hash: seq<Byte> -> Digest, ys: seq<System>, es: seq<Event>)
    returns (ys': seq<System>, es': seq<Event>)
    requires IsRun(t, maxSize, hash, ys, es) && ys != [] && !Now(ys).sender.complete && ValidTransfer(t, hash)
    ensures ys' != [] && Continues(t, maxSize, hash, ys, es, ys', es') && InStep(t, Now(ys'), 0)
  {
    hide IsRun, ValidTransfer;
    var y1, e1 := Proceed(t, maxSize, hash, ys, es, ReceiverReset);
    var y2, e2 := Proceed(t, maxSize, hash, y1, e1, Resume);
    Chain(t, maxSize, hash, ys, es, y1, e1, y2, e2);
    SizePositive(t, hash);
    RunKeeps(t, maxSize, hash, y2, e2, |y2| - 1);
    var k := Now(y2).sender.acked;
    if k == 0 {
      ys', es' := y2, e2;
      AtOnce(t, Now(y2).sender);
    } else {
      var y3, e3 := Rejected(t, maxSize, hash, y2, e2, k);
      Chain(t, maxSize, hash, ys, es, y2, e2, y3, e3);
      ys', es' := y3, e3;
    }
  }

  lemma AtOnce(t: Transfer, s: Sender)
    requires Tiled(t, s) && !s.complete && s.acked == 0
    ensures 0 < |t.source| || t.source == []
  {
  }

  /** A chunk from the middle reaches a receiver that has not begun, and the rejection reaches the sender. */
  lemma Rejected(t: Transfer, maxSize: nat, hash: seq<Byte> -> Digest, ys: seq<System>, es: seq<Event>, k: nat)
    returns (ys': seq<System>, es': seq<Event>)
    requires IsRun(t, maxSize, hash, ys, es) && ys != [] && ValidTransfer(t, hash) && 0 < k < |t.source|
    requires Now(ys).sender == Sender(k, k, [], false) && Now(ys).receiver == IDLE
    ensures ys' != [] && Continues(t, maxSize, hash, ys, es, ys', es') && InStep(t, Now(ys'), 0)
  {
    hide IsRun;
    var claim := Cut(t, k);
    assert FreeSlot([], 0, t.inflight) == 0;
    var y1, e1 := Proceed(t, maxSize, hash, ys, es, Send);
    var c := ChunkOf(t, claim);
    assert c in Now(y1).chunks;
    var y2, e2 := Proceed(t, maxSize, hash, y1, e1, ChunkArrives(c, WILLING));
    var a := AckOf(t.id.to, c, 0, false);
    assert a in Now(y2).acks;
    var y3, e3 := Proceed(t, maxSize, hash, y2, e2, AckArrives(a));
    Chain(t, maxSize, hash, ys, es, y1, e1, y2, e2);
    Chain(t, maxSize, hash, ys, es, y2, e2, y3, e3);
    ys', es' := y3, e3;
  }

  /**
   From every reachable state of a transfer that fits the receiver, whatever was
   lost or repeated so far, some continuation with a willing sink ends with the
   source installed and the sender complete.
   */
  lemma TransferPossible(t: Transfer, maxSize: nat, hash: seq<Byte> -> Digest, ys: seq<System>, es: seq<Event>)
    returns (ys': seq<System>, es': seq<Event>)
    requires IsRun(t, maxSize, hash, ys, es) && |t.source| <= maxSize
    ensures ys' != [] && Continues(t, maxSize, hash, ys, es, ys', es')
    ensures Now(ys').sender.complete && t.source in Now(ys').installed
  {
    assert ys != [] && ValidTransfer(t, hash);
    hide IsRun;
    if Now(ys).sender.complete {
      TransferSafe(t, maxSize, hash, ys, es, |ys| - 1);
      ys', es' := ys, es;
    } else {
      var y1, e1 := StartOver(t, maxSize, hash, ys, es);
      var y2, e2 := ChunkRounds(t, maxSize, hash, y1, e1, 0);
      Chain(t, maxSize, hash, ys, es, y1, e1, y2, e2);
      ys', es' := y2, e2;
    }
  }
}
