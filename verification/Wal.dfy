/**
 Replay of the write-ahead log: the recovery record, what each operation does to
 it, and how frames, segments and the manifest's live range are read back.  The
 payload of a snapshot is in a file of its own, which replay opens again for
 every snapshot operation it meets.
 */
module Wal {
  import opened RaftTypes
  import opened WalFormat
  import C = Configuration

  /** tr_raft_wal_recovery_t: the durable state. */
  datatype Recovery = Recovery(
    term: nat, votedFor: nat, commit: nat, entries: seq<Entry>,
    snapIndex: nat, snapTerm: nat, snapConf: Option<C.Conf>)

  const EMPTY := Recovery(0, 0, 0, [], 0, 0, None)

  datatype Limits = Limits(maxLog: nat, maxSnapshot: nat, capacity: nat, segmentBytes: nat, maxLive: nat)

  /** The checksum functions; nothing is assumed about them. */
  datatype Hashes = Hashes(frame: (seq<Byte>, nat, nat, nat) -> U64, header: seq<Byte> -> U64)

  /** A snapshot payload: its length, and the checksum and digest of its bytes. */
  datatype Payload = Payload(size: U64, checksum: U64, digest: seq<Byte>)

  /** The payload files on disk, which are named by index and term. */
  type Files = map<(nat, nat), Payload>

  /** tr_wal_read_snapshot_file: the operation's file is there and is the one it was written for. */
  predicate Present(files: Files, op: Op)
    requires op.Snapshot?
  {
    var name := (op.snapIndex, op.snapTerm);
    && name in files && files[name].size == op.size && files[name].checksum == op.checksum
    && (op.digest == [] || op.digest == files[name].digest)
  }

  function LastIndex(r: Recovery): (i: nat)
  {
    r.snapIndex + |r.entries|
  }

  /** The entries stand at consecutive indices behind the snapshot. */
  predicate Numbered(r: Recovery)
  {
    forall k :: 0 <= k < |r.entries| ==> r.entries[k].index == r.snapIndex + k + 1
  }

  /** The entries that stay in the log behind a snapshot. */
  function Survivors(r: Recovery, index: nat, term: nat): (es: seq<Entry>)
    requires index > r.snapIndex
  {
    var at := index - r.snapIndex;
    if at <= |r.entries| && r.entries[at - 1].term == term then r.entries[at..] else []
  }

  function ApplySnapshot(lim: Limits, files: Files, r: Recovery, op: Op): (r': Option<Recovery>)
    requires op.Snapshot?
  {
    if op.leaderTerm == 0 || op.snapIndex == 0 || op.snapTerm == 0 || op.snapTerm > op.leaderTerm ||
       op.leaderTerm < r.term || op.snapIndex <= r.snapIndex || op.size > lim.maxSnapshot ||
       op.commit < op.snapIndex || (op.commit != op.snapIndex && op.commit > LastIndex(r)) || !Present(files, op)
    then None
    else Some(Recovery(op.leaderTerm, op.vote, op.commit, Survivors(r, op.snapIndex, op.snapTerm), op.snapIndex,
                       op.snapTerm, Some(op.conf)))
  }

  /** One operation of tr_wal_apply_payload. */
  function Apply(lim: Limits, files: Files, r: Recovery, op: Op): (r': Option<Recovery>)
  {
    match op
    case HardState(t, v) => if t < r.term then None else Some(r.(term := t, votedFor := v))
    case Truncate(i) =>
      if i == 0 || i <= r.commit || i <= r.snapIndex || i > LastIndex(r) + 1 then None
      else Some(r.(entries := r.entries[..i - r.snapIndex - 1]))
    case Append(e) =>
      if |r.entries| >= lim.maxLog || e.index != LastIndex(r) + 1 || e.term == 0 then None
      else Some(r.(entries := r.entries + [e]))
    case CommitIndex(i) => if i < r.commit || i > LastIndex(r) then None else Some(r.(commit := i))
    case Snapshot(_, _, _, _, _, _, _, _, _) => ApplySnapshot(lim, files, r, op)
  }

  function ApplyAll(lim: Limits, files: Files, r: Recovery, ops: seq<Op>): (r': Option<Recovery>)
    decreases |ops|
  {
    if ops == [] then Some(r)
    else
      var r1 := Apply(lim, files, r, ops[0]);
      if r1.None? then None else ApplyAll(lim, files, r1.value, ops[1..])
  }

  /** tr_wal_apply_payload */
  function ApplyPayload(lim: Limits, files: Files, r: Recovery, p: seq<Byte>): (r': Option<Recovery>)
    decreases |p|
  {
    if p == [] then Some(r)
    else
      var next := ParseOp(p);
      if next.None? then None
      else
        var r1 := Apply(lim, files, r, next.value.0);
        if r1.None? then None else ApplyPayload(lim, files, r1.value, next.value.1)
  }

  function EncodeAll(ops: seq<Op>): (p: seq<Byte>)
    requires forall op :: op in ops ==> Fits(op)
  {
    if ops == [] then [] else EncodeAll(ops[..|ops| - 1]) + Encode(ops[|ops| - 1])
  }

  lemma {:induction false} EncodeAllHead(ops: seq<Op>)
    requires ops != [] && forall op :: op in ops ==> Fits(op)
    ensures EncodeAll(ops) == Encode(ops[0]) + EncodeAll(ops[1..])
  {
    hide Encode, Fits;
    var front, rest, last := ops[..|ops| - 1], ops[1..], ops[|ops| - 1];
    if |ops| == 1 {
      assert front == [] && rest == [];
    } else {
      EncodeAllHead(front);
      assert front[1..] == rest[..|rest| - 1] && rest[|rest| - 1] == last && front[0] == ops[0];
      Associates(Encode(ops[0]), EncodeAll(front[1..]), Encode(last));
    }
  }

  lemma Associates(a: seq<Byte>, b: seq<Byte>, c: seq<Byte>)
    ensures a + b + c == a + (b + c)
  {
  }

  /** Reading back an encoded transaction is applying its operations. */
  lemma {:induction false} PayloadRoundTrip(lim: Limits, files: Files, r: Recovery, ops: seq<Op>)
    requires forall op :: op in ops ==> Fits(op)
    ensures ApplyPayload(lim, files, r, EncodeAll(ops)) == ApplyAll(lim, files, r, ops)
    decreases |ops|
  {
    if ops != [] {
      hide Apply, ParseOp, Encode;
      EncodeAllHead(ops);
      ParseEncoded(ops[0], EncodeAll(ops[1..]));
      EncodedSize(ops[0]);
      var r1 := Apply(lim, files, r, ops[0]);
      if r1.Some? { PayloadRoundTrip(lim, files, r1.value, ops[1..]); }
    }
  }

  lemma EncodedSize(op: Op)
    requires Fits(op)
    ensures |Encode(op)| >= OP_HEADER
  {
  }

  lemma {:induction false} ApplyAllSnoc(lim: Limits, files: Files, r: Recovery, ops: seq<Op>, op: Op)
    requires ApplyAll(lim, files, r, ops).Some?
    ensures ApplyAll(lim, files, r, ops + [op]) == Apply(lim, files, ApplyAll(lim, files, r, ops).value, op)
    decreases |ops|
  {
    hide Apply;
    if ops == [] {
      assert [op][1..] == [];
    } else {
      assert (ops + [op])[1..] == ops[1..] + [op];
      ApplyAllSnoc(lim, files, Apply(lim, files, r, ops[0]).value, ops[1..], op);
    }
  }

  /** The same interpreter as the loop it is in the source. */
  method ReplayPayload(lim: Limits, files: Files, payload: seq<Byte>, start: Recovery) returns (r: Option<Recovery>)
    ensures r == ApplyPayload(lim, files, start, payload)
  {
    hide Apply, ParseOp;
    var rec := start;
    var offset := 0;
    while offset < |payload|
      invariant offset <= |payload|
      invariant ApplyPayload(lim, files, rec, payload[offset..]) == ApplyPayload(lim, files, start, payload)
    {
      var next := ParseOp(payload[offset..]);
      if next.None? { return None; }
      ParsedRest(payload[offset..]);
      var applied := Apply(lim, files, rec, next.value.0);
      if applied.None? { return None; }
      rec := applied.value;
      offset := |payload| - |next.value.1|;
    }
    assert payload[offset..] == [];
    return Some(rec);
  }

  lemma ParsedRest(p: seq<Byte>)
    requires ParseOp(p).Some?
    ensures var rest := ParseOp(p).value.1; |rest| < |p| && rest == p[|p| - |rest|..]
  {
  }

  // ------------------------------------------------------------------- frames

  /** The 48-byte transaction header followed by the payload. */
  function Frame(h: Hashes, tx: nat, prev: nat, payload: seq<Byte>): (f: seq<Byte>)
    ensures |f| == FRAME_HEADER + |payload|
  {
    FRAME_MAGIC + Half(FORMAT_VERSION) + Half(FRAME_HEADER) +
    Words([tx, prev, |payload|, h.frame(payload, tx, prev, |payload|)]) + payload
  }

  /** Progress of a replay: state, last transaction, bytes of the current segment accepted. */
  datatype Scan = Scan(rec: Recovery, lastTx: nat, used: nat)

  datatype Header = Header(tx: nat, prev: nat, size: nat, checksum: nat)

  /** The transaction header, when its constant fields are right. */
  function ParseHeader(b: seq<Byte>): (r: Option<Header>)
    requires |b| >= FRAME_HEADER
  {
    if b[..8] != FRAME_MAGIC || HalfAt(b, 8) != FORMAT_VERSION || HalfAt(b, 12) != FRAME_HEADER then None
    else Some(Header(WordAt(b, 16), WordAt(b, 24), WordAt(b, 32), WordAt(b, 40)))
  }

  /** Transaction numbers wrap around. */
  function Succ(tx: nat): (next: nat)
  {
    if tx == U64_MAX then 0 else tx + 1
  }

  /** A compacted log may start at any transaction. */
  function StartTx(first: bool, lastTx: nat, prev: nat): (t: nat)
  {
    if first && lastTx == 0 && prev != 0 then prev else lastTx
  }

  /**
   The frame loop of tr_wal_replay_segment: `first` while at the start of the
   first live segment, `last` when a torn tail is acceptable.
   */
  function ReplayFrames(lim: Limits, files: Files, h: Hashes, b: seq<Byte>, first: bool, last: bool,
                        s: Scan): (r: Option<Scan>)
    decreases |b|
  {
    if b == [] then Some(s)
    else if |b| < FRAME_HEADER then if last then Some(s) else None
    else
      var hd := ParseHeader(b);
      if hd.None? then None
      else
        var x := hd.value;
        var lastTx := StartTx(first, s.lastTx, x.prev);
        if x.tx != Succ(lastTx) || x.prev != lastTx || x.size + FRAME_HEADER > lim.capacity then None
        else if x.size > |b| - FRAME_HEADER then if last then Some(s.(lastTx := lastTx)) else None
        else
          var payload := b[FRAME_HEADER..FRAME_HEADER + x.size];
          if x.checksum != h.frame(payload, x.tx, x.prev, x.size) then None
          else
            var rec := ApplyPayload(lim, files, s.rec, payload);
            if rec.None? || (first && x.prev != 0 && rec.value.snapIndex == 0) then None
            else ReplayFrames(lim, files, h, b[FRAME_HEADER + x.size..], false, last,
                              Scan(rec.value, x.tx, s.used + FRAME_HEADER + x.size))
  }

  lemma FrameParts(h: Hashes, tx: nat, prev: nat, payload: seq<Byte>, rest: seq<Byte>)
    requires tx <= U64_MAX && prev <= U64_MAX && |payload| <= U64_MAX
    ensures var b := Frame(h, tx, prev, payload) + rest;
      && |b| >= FRAME_HEADER
      && ParseHeader(b) == Some(Header(tx, prev, |payload|, h.frame(payload, tx, prev, |payload|)))
      && b[FRAME_HEADER..FRAME_HEADER + |payload|] == payload && b[FRAME_HEADER + |payload|..] == rest
  {
    hide Words, ParseHeader, Half;
    var ws := [tx, prev, |payload|, h.frame(payload, tx, prev, |payload|)];
    var b := Frame(h, tx, prev, payload) + rest;
    HeaderFields(ws, payload + rest);
    assert b == FRAME_MAGIC + Half(FORMAT_VERSION) + Half(FRAME_HEADER) + (Words(ws) + (payload + rest));
    TailParts(b, payload, rest);
  }

  lemma TailParts(b: seq<Byte>, payload: seq<Byte>, rest: seq<Byte>)
    requires |b| >= FRAME_HEADER && b[FRAME_HEADER..] == payload + rest
    ensures b[FRAME_HEADER..FRAME_HEADER + |payload|] == payload && b[FRAME_HEADER + |payload|..] == rest
  {
    assert b[FRAME_HEADER..FRAME_HEADER + |payload|] == b[FRAME_HEADER..][..|payload|];
    assert b[FRAME_HEADER + |payload|..] == b[FRAME_HEADER..][|payload|..];
  }

  lemma HeaderFields(ws: seq<nat>, tail: seq<Byte>)
    requires |ws| == 4 && forall i :: 0 <= i < 4 ==> ws[i] <= U64_MAX
    ensures var b := FRAME_MAGIC + Half(FORMAT_VERSION) + Half(FRAME_HEADER) + (Words(ws) + tail);
      && |b| >= FRAME_HEADER && ParseHeader(b) == Some(Header(ws[0], ws[1], ws[2], ws[3]))
      && b[FRAME_HEADER..] == tail
  {
    hide Words, FromLittle, Half;
    var body := Words(ws) + tail;
    var b := FRAME_MAGIC + Half(FORMAT_VERSION) + Half(FRAME_HEADER) + body;
    HalfRoundTrip(FORMAT_VERSION);
    HalfRoundTrip(FRAME_HEADER);
    assert b[..8] == FRAME_MAGIC && b[8..12] == Half(FORMAT_VERSION) && b[12..16] == Half(FRAME_HEADER);
    assert b[16..24] == body[0..8] && b[24..32] == body[8..16] && b[32..40] == body[16..24] &&
      b[40..48] == body[24..32];
    WordsAt(ws, tail, 0);
    WordsAt(ws, tail, 1);
    WordsAt(ws, tail, 2);
    WordsAt(ws, tail, 3);
  }

  /** The next transaction of a log whose state is s, ready to be written. */
  predicate NextFrame(lim: Limits, files: Files, s: Scan, payload: seq<Byte>)
  {
    && s.lastTx <= U64_MAX && |payload| + FRAME_HEADER <= lim.capacity <= U64_MAX
    && ApplyPayload(lim, files, s.rec, payload).Some?
  }

  function AfterFrame(lim: Limits, files: Files, s: Scan, payload: seq<Byte>): (s': Scan)
    requires NextFrame(lim, files, s, payload)
  {
    Scan(ApplyPayload(lim, files, s.rec, payload).value, Succ(s.lastTx), s.used + FRAME_HEADER + |payload|)
  }

  /** A frame at the very start of the first segment must follow nothing or hold a snapshot. */
  predicate StartsLog(lim: Limits, files: Files, first: bool, s: Scan, payload: seq<Byte>)
    requires NextFrame(lim, files, s, payload)
  {
    first && s.lastTx != 0 ==> AfterFrame(lim, files, s, payload).rec.snapIndex != 0
  }

  /** A complete frame is replayed and the scan goes on behind it. */
  lemma FrameReplays(lim: Limits, files: Files, h: Hashes, payload: seq<Byte>, rest: seq<Byte>, first: bool,
                     last: bool, s: Scan)
    requires NextFrame(lim, files, s, payload) && StartsLog(lim, files, first, s, payload)
    ensures ReplayFrames(lim, files, h, Frame(h, Succ(s.lastTx), s.lastTx, payload) + rest, first, last, s) ==
            ReplayFrames(lim, files, h, rest, false, last, AfterFrame(lim, files, s, payload))
  {
    hide Frame, ApplyPayload, ParseHeader;
    FrameParts(h, Succ(s.lastTx), s.lastTx, payload, rest);
  }

  /** A frame cut anywhere short of its end is ignored at the end of the last segment. */
  lemma TornFrameIgnored(lim: Limits, files: Files, h: Hashes, payload: seq<Byte>, k: nat, first: bool, s: Scan)
    requires NextFrame(lim, files, s, payload) && k < FRAME_HEADER + |payload|
    ensures ReplayFrames(lim, files, h, Frame(h, Succ(s.lastTx), s.lastTx, payload)[..k], first, true, s) == Some(s)
  {
    hide Frame, ApplyPayload, ParseHeader;
    var f := Frame(h, Succ(s.lastTx), s.lastTx, payload);
    FrameParts(h, Succ(s.lastTx), s.lastTx, payload, []);
    assert f + [] == f;
    if k >= FRAME_HEADER { HeaderOfCut(f, k); }
  }

  lemma HeaderOfCut(f: seq<Byte>, k: nat)
    requires FRAME_HEADER <= k <= |f|
    ensures ParseHeader(f[..k]) == ParseHeader(f)
  {
    var c := f[..k];
    assert c[..8] == f[..8] && c[8..12] == f[8..12] && c[12..16] == f[12..16] && c[16..24] == f[16..24];
    assert c[24..32] == f[24..32] && c[32..40] == f[32..40] && c[40..48] == f[40..48];
  }

  lemma PartsOfCut(b: seq<Byte>, k: nat, n: nat)
    requires FRAME_HEADER <= k <= n <= |b|
    ensures b[..n][FRAME_HEADER..k] == b[FRAME_HEADER..k] && b[..n][k..] == b[k..][..n - k]
  {
  }

  lemma HeaderOfMore(b: seq<Byte>, c: seq<Byte>)
    requires |b| >= FRAME_HEADER
    ensures ParseHeader(b + c) == ParseHeader(b)
  {
    assert (b + c)[..|b|] == b;
    HeaderOfCut(b + c, |b|);
  }

  /** What was accepted in full is a prefix of any longer replay. */
  lemma {:induction false} ReplayContinues(lim: Limits, files: Files, h: Hashes, b: seq<Byte>, c: seq<Byte>,
                                           first: bool, l0: bool, last: bool, s: Scan)
    requires ReplayFrames(lim, files, h, b, first, l0, s).Some?
    requires ReplayFrames(lim, files, h, b, first, l0, s).value.used == s.used + |b|
    ensures ReplayFrames(lim, files, h, b + c, first, last, s) ==
            ReplayFrames(lim, files, h, c, first && b == [], last, ReplayFrames(lim, files, h, b, first, l0, s).value)
    decreases |b|
  {
    hide ApplyPayload, ParseHeader;
    ReplayUsed(lim, files, h, b, first, l0, s);
    if b == [] {
      assert b + c == c;
    } else {
      var x := ParseHeader(b).value;
      HeaderOfMore(b, c);
      var n := FRAME_HEADER + x.size;
      assert (b + c)[FRAME_HEADER..n] == b[FRAME_HEADER..n];
      assert (b + c)[n..] == b[n..] + c;
      var rec := ApplyPayload(lim, files, s.rec, b[FRAME_HEADER..n]).value;
      ReplayContinues(lim, files, h, b[n..], c, false, l0, last, Scan(rec, x.tx, s.used + n));
    }
  }

  /** A replay never claims more bytes than there are; a torn tail is not claimed. */
  lemma {:induction false} ReplayUsed(lim: Limits, files: Files, h: Hashes, b: seq<Byte>, first: bool, last: bool,
                                      s: Scan)
    requires ReplayFrames(lim, files, h, b, first, last, s).Some?
    ensures s.used <= ReplayFrames(lim, files, h, b, first, last, s).value.used <= s.used + |b|
    ensures var s' := ReplayFrames(lim, files, h, b, first, last, s).value;
      s'.used == s.used ==> s'.rec == s.rec && (first || s'.lastTx == s.lastTx)
    ensures b != [] && ReplayFrames(lim, files, h, b, first, last, s).value.used == s.used + |b| ==>
      |b| >= FRAME_HEADER && ParseHeader(b).Some? && ParseHeader(b).value.size <= |b| - FRAME_HEADER
    decreases |b|
  {
    hide ApplyPayload, ParseHeader;
    if |b| >= FRAME_HEADER {
      var x := ParseHeader(b).value;
      var n := FRAME_HEADER + x.size;
      if n <= |b| {
        var rec := ApplyPayload(lim, files, s.rec, b[FRAME_HEADER..n]).value;
        ReplayUsed(lim, files, h, b[n..], false, last, Scan(rec, x.tx, s.used + n));
      }
    }
  }

  /** Cutting off the unclaimed tail changes nothing but the tail. */
  lemma {:induction false} ReplayTruncated(lim: Limits, files: Files, h: Hashes, b: seq<Byte>, first: bool,
                                           last: bool, s: Scan)
    requires ReplayFrames(lim, files, h, b, first, true, s).Some?
    ensures var s' := ReplayFrames(lim, files, h, b, first, true, s).value;
      var n := s'.used - s.used;
      && 0 <= n <= |b|
      && ReplayFrames(lim, files, h, b[..n], first, last, s) == Some(if n == 0 then s else s')
      && (n == 0 ==> s'.rec == s.rec && (first || s'.lastTx == s.lastTx))
    decreases |b|
  {
    hide HeadOK, HeadNext, ReplayFrames;
    ReplayUsed(lim, files, h, b, first, true, s);
    var s' := ReplayFrames(lim, files, h, b, first, true, s).value;
    var n := s'.used - s.used;
    if n > 0 {
      HeadTaken(lim, files, h, b, first, true, s);
      var k := HeadSize(b);
      var next := HeadNext(lim, files, h, b, first, s);
      HeadStep(lim, files, h, b, first, true, s);
      ReplayTruncated(lim, files, h, b[k..], false, last, next);
      ReplayUsed(lim, files, h, b[k..], false, true, next);
      HeadOfCut(lim, files, h, b, first, s, n);
      HeadStep(lim, files, h, b[..n], first, last, s);
      PartsOfCut(b, k, n);
    } else {
      assert b[..n] == [];
      NothingReplays(lim, files, h, first, last, s);
    }
  }

  lemma NothingReplays(lim: Limits, files: Files, h: Hashes, first: bool, last: bool, s: Scan)
    ensures ReplayFrames(lim, files, h, [], first, last, s) == Some(s)
  {
  }

  /** The bytes start with one whole acceptable frame. */
  ghost predicate HeadOK(lim: Limits, files: Files, h: Hashes, b: seq<Byte>, first: bool, s: Scan)
  {
    && |b| >= FRAME_HEADER && ParseHeader(b).Some?
    && (var x := ParseHeader(b).value;
        var lastTx := StartTx(first, s.lastTx, x.prev);
        && x.tx == Succ(lastTx) && x.prev == lastTx && x.size + FRAME_HEADER <= lim.capacity
        && x.size <= |b| - FRAME_HEADER
        && (var payload := b[FRAME_HEADER..FRAME_HEADER + x.size];
            var rec := ApplyPayload(lim, files, s.rec, payload);
            && x.checksum == h.frame(payload, x.tx, x.prev, x.size)
            && rec.Some? && !(first && x.prev != 0 && rec.value.snapIndex == 0)))
  }

  ghost function HeadSize(b: seq<Byte>): (k: nat)
    ensures k >= FRAME_HEADER
  {
    if |b| >= FRAME_HEADER && ParseHeader(b).Some? then FRAME_HEADER + ParseHeader(b).value.size else FRAME_HEADER
  }

  ghost function HeadNext(lim: Limits, files: Files, h: Hashes, b: seq<Byte>, first: bool, s: Scan): (s': Scan)
    requires HeadOK(lim, files, h, b, first, s)
    ensures s'.used == s.used + HeadSize(b) && HeadSize(b) <= |b|
  {
    var x := ParseHeader(b).value;
    var k := FRAME_HEADER + x.size;
    Scan(ApplyPayload(lim, files, s.rec, b[FRAME_HEADER..k]).value, x.tx, s.used + k)
  }

  lemma HeadStep(lim: Limits, files: Files, h: Hashes, b: seq<Byte>, first: bool, last: bool, s: Scan)
    requires HeadOK(lim, files, h, b, first, s)
    ensures HeadSize(b) <= |b|
    ensures ReplayFrames(lim, files, h, b, first, last, s) ==
      ReplayFrames(lim, files, h, b[HeadSize(b)..], false, last, HeadNext(lim, files, h, b, first, s))
  {
    hide ApplyPayload, ParseHeader, StartTx;
  }

  lemma HeadTaken(lim: Limits, files: Files, h: Hashes, b: seq<Byte>, first: bool, last: bool, s: Scan)
    requires ReplayFrames(lim, files, h, b, first, last, s).Some?
    requires ReplayFrames(lim, files, h, b, first, last, s).value.used > s.used
    ensures HeadOK(lim, files, h, b, first, s)
  {
    hide ApplyPayload, ParseHeader, StartTx;
  }

  lemma HeadOfCut(lim: Limits, files: Files, h: Hashes, b: seq<Byte>, first: bool, s: Scan, n: nat)
    requires HeadOK(lim, files, h, b, first, s) && HeadSize(b) <= n <= |b|
    ensures HeadOK(lim, files, h, b[..n], first, s) && HeadSize(b[..n]) == HeadSize(b)
    ensures HeadNext(lim, files, h, b[..n], first, s) == HeadNext(lim, files, h, b, first, s)
  {
    hide ApplyPayload, ParseHeader, StartTx;
    HeaderOfCut(b, n);
    PartsOfCut(b, HeadSize(b), n);
  }

  // ----------------------------------------------------------------- segments

  function SegmentWords(seqNo: nat): (b: seq<Byte>)
    ensures |b| == 24
  {
    SEGMENT_MAGIC + Half(FORMAT_VERSION) + Half(SEGMENT_HEADER) + Word(seqNo)
  }

  function SegmentStart(h: Hashes, seqNo: nat): (b: seq<Byte>)
    ensures |b| == SEGMENT_HEADER
  {
    SegmentWords(seqNo) + Word(h.header(SegmentWords(seqNo)))
  }

  predicate GoodStart(h: Hashes, b: seq<Byte>, seqNo: nat)
  {
    && |b| >= SEGMENT_HEADER && b[..8] == SEGMENT_MAGIC && HalfAt(b, 8) == FORMAT_VERSION
    && HalfAt(b, 12) == SEGMENT_HEADER
    && WordAt(b, 16) == seqNo && WordAt(b, 24) == h.header(b[..24])
  }

  lemma StartIsGood(h: Hashes, seqNo: nat, rest: seq<Byte>)
    requires seqNo <= U64_MAX
    ensures GoodStart(h, SegmentStart(h, seqNo) + rest, seqNo)
  {
    hide Half, Word, FromLittle;
    var b := SegmentStart(h, seqNo) + rest;
    HalfRoundTrip(FORMAT_VERSION);
    HalfRoundTrip(SEGMENT_HEADER);
    WordRoundTrip(seqNo);
    WordRoundTrip(h.header(SegmentWords(seqNo)));
    assert b[..8] == SEGMENT_MAGIC && b[8..12] == Half(FORMAT_VERSION) && b[12..16] == Half(SEGMENT_HEADER);
    assert b[16..24] == Word(seqNo) && b[..24] == SegmentWords(seqNo);
    assert b[24..32] == Word(h.header(SegmentWords(seqNo)));
  }

  lemma StartStays(h: Hashes, b: seq<Byte>, c: seq<Byte>, seqNo: nat)
    requires |b| >= SEGMENT_HEADER && |c| >= SEGMENT_HEADER && b[..SEGMENT_HEADER] == c[..SEGMENT_HEADER]
    ensures GoodStart(h, b, seqNo) == GoodStart(h, c, seqNo)
  {
    hide FromLittle;
    var p, q := b[..SEGMENT_HEADER], c[..SEGMENT_HEADER];
    assert b[..8] == p[..8] && b[8..12] == p[8..12] && b[12..16] == p[12..16] && b[16..24] == p[16..24] &&
      b[24..32] == p[24..32];
    assert c[..8] == q[..8] && c[8..12] == q[8..12] && c[12..16] == q[12..16] && c[16..24] == q[16..24] &&
      c[24..32] == q[24..32];
    assert b[..24] == p[..24] && c[..24] == q[..24];
  }

  /** tr_wal_replay_segment */
  function ReplaySegment(lim: Limits, files: Files, h: Hashes, b: seq<Byte>, seqNo: nat, first: bool, last: bool,
                         s: Scan): (r: Option<Scan>)
  {
    if |b| < SEGMENT_HEADER || |b| > lim.segmentBytes || !GoodStart(h, b, seqNo) then None
    else ReplayFrames(lim, files, h, b[SEGMENT_HEADER..], first, last, s.(used := SEGMENT_HEADER))
  }

  datatype Disk = Disk(segments: map<nat, seq<Byte>>, files: Files, first: nat, last: nat)

  /** tr_wal_live_range_valid */
  predicate LiveRange(lim: Limits, first: nat, last: nat)
  {
    first != 0 && first <= last && last - first < lim.maxLive
  }

  /** The segments before k, none of which may be torn. */
  function Through(lim: Limits, files: Files, h: Hashes, segments: map<nat, seq<Byte>>, first: nat,
                   k: nat): (r: Option<Scan>)
    requires first <= k
    decreases k
  {
    if k == first then Some(Scan(EMPTY, 0, 0))
    else
      var s := Through(lim, files, h, segments, first, k - 1);
      if s.None? || k - 1 !in segments then None
      else ReplaySegment(lim, files, h, segments[k - 1], k - 1, k - 1 == first, false, s.value)
  }

  /** tr_wal_replay: the manifest's live range is authoritative. */
  function Replay(lim: Limits, h: Hashes, d: Disk): (r: Option<Scan>)
  {
    if !LiveRange(lim, d.first, d.last) then None
    else
      var s := Through(lim, d.files, h, d.segments, d.first, d.last);
      if s.None? || d.last !in d.segments then None
      else ReplaySegment(lim, d.files, h, d.segments[d.last], d.last, d.last == d.first, true, s.value)
  }

  /** tr_wal_replay as a loop over the live segments. */
  method Load(lim: Limits, h: Hashes, d: Disk) returns (r: Option<Scan>)
    ensures r == Replay(lim, h, d)
  {
    hide ReplaySegment;
    if !LiveRange(lim, d.first, d.last) { return None; }
    var k := d.first;
    var s := Scan(EMPTY, 0, 0);
    while k < d.last
      invariant d.first <= k <= d.last && Through(lim, d.files, h, d.segments, d.first, k) == Some(s)
    {
      if k !in d.segments {
        ThroughStops(lim, d.files, h, d.segments, d.first, k + 1, d.last);
        return None;
      }
      var next := ReplaySegment(lim, d.files, h, d.segments[k], k, k == d.first, false, s);
      if next.None? {
        ThroughStops(lim, d.files, h, d.segments, d.first, k + 1, d.last);
        return None;
      }
      s, k := next.value, k + 1;
    }
    if d.last !in d.segments { return None; }
    return ReplaySegment(lim, d.files, h, d.segments[d.last], d.last, d.last == d.first, true, s);
  }

  lemma {:induction false} ThroughStops(lim: Limits, files: Files, h: Hashes, segments: map<nat, seq<Byte>>,
                                        first: nat, j: nat, k: nat)
    requires first <= j <= k && Through(lim, files, h, segments, first, j).None?
    ensures Through(lim, files, h, segments, first, k).None?
    decreases k
  {
    hide ReplaySegment;
    if j < k { ThroughStops(lim, files, h, segments, first, j, k - 1); }
  }

  /** Segments outside the live range do not matter. */
  lemma {:induction false} ThroughLocal(lim: Limits, files: Files, h: Hashes, a: map<nat, seq<Byte>>, b: map<nat,
                                        seq<Byte>>, first: nat, k: nat)
    requires first <= k && forall i :: first <= i < k ==> (i in a <==> i in b) && (i in a ==> a[i] == b[i])
    ensures Through(lim, files, h, a, first, k) == Through(lim, files, h, b, first, k)
    decreases k
  {
    hide ReplaySegment;
    if k > first { ThroughLocal(lim, files, h, a, b, first, k - 1); }
  }

  // ------------------------------------------------------ committing a frame

  /** The log replays to s with nothing torn: where every commit starts from. */
  predicate Settled(lim: Limits, h: Hashes, d: Disk, s: Scan)
  {
    Replay(lim, h, d) == Some(s) && d.last in d.segments && s.used == |d.segments[d.last]| && d.last <= U64_MAX
  }

  /** The bytes of the current segment after k bytes of a frame were written. */
  function Written(d: Disk, f: seq<Byte>, k: nat): (d': Disk)
    requires d.last in d.segments && k <= |f|
  {
    d.(segments := d.segments[d.last := d.segments[d.last] + f[..k]])
  }

  lemma SegmentContinues(lim: Limits, files: Files, h: Hashes, b: seq<Byte>, c: seq<Byte>, seqNo: nat, first: bool,
                         l0: bool, last: bool, s: Scan)
    requires ReplaySegment(lim, files, h, b, seqNo, first, l0, s).Some?
    requires ReplaySegment(lim, files, h, b, seqNo, first, l0, s).value.used == |b|
    requires |b| + |c| <= lim.segmentBytes
    ensures ReplaySegment(lim, files, h, b + c, seqNo, first, last, s) ==
            ReplayFrames(lim, files, h, c, first && |b| == SEGMENT_HEADER, last,
                         ReplaySegment(lim, files, h, b, seqNo, first, l0, s).value)
  {
    hide GoodStart, ReplayFrames;
    assert (b + c)[..SEGMENT_HEADER] == b[..SEGMENT_HEADER];
    StartStays(h, b, b + c, seqNo);
    assert (b + c)[SEGMENT_HEADER..] == b[SEGMENT_HEADER..] + c;
    ReplayContinues(lim, files, h, b[SEGMENT_HEADER..], c, first, l0, last, s.(used := SEGMENT_HEADER));
  }

  /** An empty first segment is the beginning of history. */
  lemma EmptyLogStarts(lim: Limits, h: Hashes, d: Disk, s: Scan)
    requires Settled(lim, h, d, s) && d.first == d.last && s.used == SEGMENT_HEADER
    ensures s == Scan(EMPTY, 0, SEGMENT_HEADER)
  {
    assert d.segments[d.last][SEGMENT_HEADER..] == [];
  }

  lemma FrameContinues(lim: Limits, files: Files, h: Hashes, payload: seq<Byte>, k: nat, first: bool, s: Scan)
    requires NextFrame(lim, files, s, payload) && StartsLog(lim, files, first, s, payload)
    requires k <= FRAME_HEADER + |payload|
    ensures ReplayFrames(lim, files, h, Frame(h, Succ(s.lastTx), s.lastTx, payload)[..k], first, true, s) ==
            Some(if k == FRAME_HEADER + |payload| then AfterFrame(lim, files, s, payload) else s)
  {
    hide Frame, NextFrame, StartsLog;
    var f := Frame(h, Succ(s.lastTx), s.lastTx, payload);
    if k < |f| {
      TornFrameIgnored(lim, files, h, payload, k, first, s);
    } else {
      assert f[..k] == f + [];
      FrameReplays(lim, files, h, payload, [], first, true, s);
    }
  }

  /**
   Crash atomicity of a commit into the current segment: however many bytes of
   the frame reached the disk, reopening finds the state before it or, only when
   all of it did, the state after it.
   */
  lemma CommitAtomic(lim: Limits, h: Hashes, d: Disk, s: Scan, payload: seq<Byte>, k: nat)
    requires Settled(lim, h, d, s) && NextFrame(lim, d.files, s, payload)
    requires s.used + FRAME_HEADER + |payload| <= lim.segmentBytes && k <= FRAME_HEADER + |payload|
    ensures var f := Frame(h, Succ(s.lastTx), s.lastTx, payload);
      Replay(lim, h, Written(d, f, k)) == Some(if k == |f| then AfterFrame(lim, d.files, s, payload) else s)
  {
    hide Frame, NextFrame, ReplaySegment;
    var f := Frame(h, Succ(s.lastTx), s.lastTx, payload);
    var d' := Written(d, f, k);
    ThroughLocal(lim, d.files, h, d.segments, d'.segments, d.first, d.last);
    var s0 := Through(lim, d.files, h, d.segments, d.first, d.last).value;
    SegmentContinues(lim, d.files, h, d.segments[d.last], f[..k], d.last, d.last == d.first, true, true, s0);
    var first := d.last == d.first && s.used == SEGMENT_HEADER;
    if first { EmptyLogStarts(lim, h, d, s); }
    FrameContinues(lim, d.files, h, payload, k, first, s);
  }

  /** The next segment with k bytes of a frame behind its header; the manifest still names the old range. */
  function Rotating(h: Hashes, d: Disk, f: seq<Byte>, k: nat): (d': Disk)
    requires k <= |f|
  {
    d.(segments := d.segments[d.last + 1 := SegmentStart(h, d.last + 1) + f[..k]])
  }

  lemma OrphanIgnored(lim: Limits, h: Hashes, d: Disk, f: seq<Byte>, k: nat)
    requires k <= |f|
    ensures Replay(lim, h, Rotating(h, d, f, k)) == Replay(lim, h, d)
  {
    hide ReplaySegment;
    if LiveRange(lim, d.first, d.last) {
      ThroughLocal(lim, d.files, h, d.segments, Rotating(h, d, f, k).segments, d.first, d.last);
    }
  }

  lemma FreshSegment(lim: Limits, files: Files, h: Hashes, payload: seq<Byte>, seqNo: nat, s: Scan)
    requires NextFrame(lim, files, s, payload) && seqNo <= U64_MAX
    requires SEGMENT_HEADER + FRAME_HEADER + |payload| <= lim.segmentBytes
    ensures var f := Frame(h, Succ(s.lastTx), s.lastTx, payload);
      ReplaySegment(lim, files, h, SegmentStart(h, seqNo) + f, seqNo, false, true, s) ==
      Some(AfterFrame(lim, files, s, payload).(used := SEGMENT_HEADER + |f|))
  {
    hide Frame, GoodStart, ApplyPayload;
    var f := Frame(h, Succ(s.lastTx), s.lastTx, payload);
    StartIsGood(h, seqNo, f);
    var s1 := s.(used := SEGMENT_HEADER);
    FrameContinues(lim, files, h, payload, |f|, false, s1);
    assert (SegmentStart(h, seqNo) + f)[SEGMENT_HEADER..] == f[..|f|];
  }

  /** The old last segment, read as one that must not be torn. */
  lemma SettledThrough(lim: Limits, h: Hashes, d: Disk, s: Scan)
    requires Settled(lim, h, d, s)
    ensures Through(lim, d.files, h, d.segments, d.first, d.last + 1) == Some(s)
  {
    hide ReplaySegment;
    var b := d.segments[d.last];
    var s0 := Through(lim, d.files, h, d.segments, d.first, d.last).value;
    SegmentBound(lim, d.files, h, b, d.last, d.last == d.first, true, s0);
    SegmentContinues(lim, d.files, h, b, [], d.last, d.last == d.first, true, false, s0);
    assert b + [] == b;
  }

  lemma SegmentBound(lim: Limits, files: Files, h: Hashes, b: seq<Byte>, seqNo: nat, first: bool, last: bool, s: Scan)
    requires ReplaySegment(lim, files, h, b, seqNo, first, last, s).Some?
    ensures |b| <= lim.segmentBytes
  {
  }

  /**
   Crash atomicity of a commit that rotates: until the manifest names the new
   segment nothing has changed, and once it does the transaction is there.
   */
  lemma RotationAtomic(lim: Limits, h: Hashes, d: Disk, s: Scan, payload: seq<Byte>, k: nat)
    requires Settled(lim, h, d, s) && NextFrame(lim, d.files, s, payload) && LiveRange(lim, d.first, d.last + 1)
    requires d.last < U64_MAX
    requires SEGMENT_HEADER + FRAME_HEADER + |payload| <= lim.segmentBytes && k <= FRAME_HEADER + |payload|
    ensures var f := Frame(h, Succ(s.lastTx), s.lastTx, payload);
      && Replay(lim, h, Rotating(h, d, f, k)) == Some(s)
      && Replay(lim, h, Rotating(h, d, f, |f|).(last := d.last + 1)) ==
         Some(AfterFrame(lim, d.files, s, payload).(used := SEGMENT_HEADER + |f|))
  {
    hide Frame, NextFrame, ReplaySegment, ApplyPayload;
    var f := Frame(h, Succ(s.lastTx), s.lastTx, payload);
    OrphanIgnored(lim, h, d, f, k);
    var d' := Rotating(h, d, f, |f|).(last := d.last + 1);
    SettledThrough(lim, h, d, s);
    ThroughLocal(lim, d.files, h, d.segments, d'.segments, d.first, d.last + 1);
    FreshSegment(lim, d.files, h, payload, d.last + 1, s);
    assert f[..|f|] == f;
  }

  // ----------------------------------------------------- checkpoint compaction

  /** A snapshot that leaves no entries behind it means the same on any history, and needs only its own file. */
  lemma CheckpointForgets(lim: Limits, files: Files, kept: Files, r: Recovery, op: Op)
    requires op.Snapshot? && op.commit == op.snapIndex && Apply(lim, files, r, op).Some? && Present(kept, op)
    requires Apply(lim, files, r, op).value.entries == []
    ensures Apply(lim, kept, EMPTY, op) == Apply(lim, files, r, op)
  {
  }

  lemma CheckpointPayload(lim: Limits, files: Files, r: Recovery, op: Op)
    requires Fits(op)
    ensures ApplyPayload(lim, files, r, Encode(op)) == Apply(lim, files, r, op)
  {
    hide Apply, ParseOp, Encode;
    ParseEncoded(op, []);
    EncodedSize(op);
    assert Encode(op) + [] == Encode(op);
  }

  lemma CheckpointSegment(lim: Limits, files: Files, kept: Files, h: Hashes, op: Op, start: seq<Byte>, seqNo: nat,
                          s: Scan)
    requires Fits(op) && NextFrame(lim, files, s, Encode(op)) && |start| == SEGMENT_HEADER && GoodStart(h, start, seqNo)
    requires op.Snapshot? && op.commit == op.snapIndex && Apply(lim, files, s.rec, op).Some? && Present(kept, op)
    requires Apply(lim, files, s.rec, op).value.entries == []
    requires SEGMENT_HEADER + FRAME_HEADER + |Encode(op)| <= lim.segmentBytes
    ensures var f := Frame(h, Succ(s.lastTx), s.lastTx, Encode(op));
      ReplaySegment(lim, kept, h, start + f, seqNo, true, true, Scan(EMPTY, 0, 0)) ==
      Some(Scan(Apply(lim, files, s.rec, op).value, Succ(s.lastTx), SEGMENT_HEADER + |f|))
  {
    hide Frame, GoodStart, ApplyPayload, Encode, Present;
    var payload := Encode(op);
    var f := Frame(h, Succ(s.lastTx), s.lastTx, payload);
    assert (start + f)[..SEGMENT_HEADER] == start[..SEGMENT_HEADER];
    StartStays(h, start, start + f, seqNo);
    CheckpointForgets(lim, files, kept, s.rec, op);
    CheckpointPayload(lim, kept, EMPTY, op);
    assert (start + f)[SEGMENT_HEADER..] == f + [];
    CheckpointFrame(lim, kept, h, payload, s.lastTx, Apply(lim, files, s.rec, op).value);
  }

  /** The first frame of a compacted log brings its own predecessor. */
  lemma CheckpointFrame(lim: Limits, files: Files, h: Hashes, payload: seq<Byte>, prev: nat, r: Recovery)
    requires prev <= U64_MAX && |payload| + FRAME_HEADER <= lim.capacity <= U64_MAX
    requires ApplyPayload(lim, files, EMPTY, payload) == Some(r) && r.snapIndex != 0
    ensures var f := Frame(h, Succ(prev), prev, payload);
      ReplayFrames(lim, files, h, f + [], true, true, Scan(EMPTY, 0, SEGMENT_HEADER)) ==
        Some(Scan(r, Succ(prev), SEGMENT_HEADER + |f|))
  {
    hide Frame, ApplyPayload, ParseHeader;
    FrameParts(h, Succ(prev), prev, payload, []);
  }

  /**
   Checkpoint compaction: replaying only the checkpoint segment gives exactly
   what replaying the whole history through it gives, so the manifest may move
   to it, and the older segments and payload files may go, in any order and
   however far the removal got.
   */
  lemma CheckpointAtomic(lim: Limits, h: Hashes, d: Disk, s: Scan, op: Op, k: nat, left: map<nat, seq<Byte>>,
                         kept: Files)
    requires Settled(lim, h, d, s) && Fits(op) && NextFrame(lim, d.files, s, Encode(op)) && lim.maxLive > 0
    requires op.Snapshot? && op.commit == op.snapIndex && Apply(lim, d.files, s.rec, op).Some? && d.last < U64_MAX
    requires Apply(lim, d.files, s.rec, op).value.entries == [] && Present(kept, op)
    requires SEGMENT_HEADER + FRAME_HEADER + |Encode(op)| <= lim.segmentBytes && k <= FRAME_HEADER + |Encode(op)|
    requires var f := Frame(h, Succ(s.lastTx), s.lastTx, Encode(op));
      d.last + 1 in left && left[d.last + 1] == SegmentStart(h, d.last + 1) + f
    ensures var f := Frame(h, Succ(s.lastTx), s.lastTx, Encode(op));
      var after := Scan(Apply(lim, d.files, s.rec, op).value, Succ(s.lastTx), SEGMENT_HEADER + |f|);
      && Replay(lim, h, Rotating(h, d, f, k)) == Some(s)
      && (LiveRange(lim, d.first, d.last + 1) ==>
           Replay(lim, h, Rotating(h, d, f, |f|).(last := d.last + 1)) == Some(after))
      && Replay(lim, h, Disk(left, kept, d.last + 1, d.last + 1)) == Some(after)
  {
    hide Frame, NextFrame, ReplaySegment, ApplyPayload, Encode, Apply, SegmentStart, Present;
    var f := Frame(h, Succ(s.lastTx), s.lastTx, Encode(op));
    OrphanIgnored(lim, h, d, f, k);
    StartIsGood(h, d.last + 1, []);
    assert SegmentStart(h, d.last + 1) + [] == SegmentStart(h, d.last + 1);
    CheckpointSegment(lim, d.files, kept, h, op, SegmentStart(h, d.last + 1), d.last + 1, s);
    CheckpointPayload(lim, d.files, s.rec, op);
    if LiveRange(lim, d.first, d.last + 1) { RotationAtomic(lim, h, d, s, Encode(op), k); }
  }
}
