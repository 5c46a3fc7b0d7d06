/**
 What the write-ahead log means, without its interpreter: entries below and above
 an index, hard state, and the fact that replay accepts nothing but what the
 writer's own encoding produces.
 */
module WalMeaning {
  import opened RaftTypes
  import opened WalFormat
  import opened Wal
  import opened WalFiles

  // ------------------------------------------------- entries by their index

  /** The entries with an index below i, in order. */
  function Below(es: seq<Entry>, i: nat): (r: seq<Entry>)
  {
    if es == [] then []
    else Below(es[..|es| - 1], i) + if es[|es| - 1].index < i then [es[|es| - 1]] else []
  }

  /** The entries with an index above i, in order. */
  function Above(es: seq<Entry>, i: nat): (r: seq<Entry>)
  {
    if es == [] then []
    else Above(es[..|es| - 1], i) + if es[|es| - 1].index > i then [es[|es| - 1]] else []
  }

  lemma {:induction false} BelowIs(es: seq<Entry>, first: nat, i: nat)
    requires (forall k :: 0 <= k < |es| ==> es[k].index == first + k) && first <= i <= first + |es|
    ensures Below(es, i) == es[..i - first]
    decreases |es|
  {
    if i == first + |es| {
      BelowAll(es, first, i);
      assert es[..i - first] == es;
    } else {
      var front, last := es[..|es| - 1], es[|es| - 1];
      assert last.index == first + |es| - 1;
      BelowIs(front, first, i);
      assert front[..i - first] == es[..i - first];
    }
  }

  lemma {:induction false} BelowAll(es: seq<Entry>, first: nat, i: nat)
    requires (forall k :: 0 <= k < |es| ==> es[k].index == first + k) && first + |es| <= i
    ensures Below(es, i) == es
    decreases |es|
  {
    if es != [] {
      BelowAll(es[..|es| - 1], first, i);
      assert es == es[..|es| - 1] + [es[|es| - 1]];
    }
  }

  lemma {:induction false} AboveIs(es: seq<Entry>, first: nat, i: nat)
    requires (forall k :: 0 <= k < |es| ==> es[k].index == first + k) && first <= i + 1 <= first + |es|
    ensures Above(es, i) == es[i + 1 - first..]
    decreases |es|
  {
    if es != [] {
      var front, last := es[..|es| - 1], es[|es| - 1];
      assert last.index == first + |es| - 1;
      if i + 1 == first + |es| {
        NoneAbove(front, first, i);
        assert es[i + 1 - first..] == [];
      } else {
        AboveIs(front, first, i);
        assert es[i + 1 - first..] == front[i + 1 - first..] + [last];
      }
    }
  }

  lemma {:induction false} NoneAbove(es: seq<Entry>, first: nat, i: nat)
    requires (forall k :: 0 <= k < |es| ==> es[k].index == first + k) && first + |es| <= i + 1
    ensures Above(es, i) == []
    decreases |es|
  {
    if es != [] { NoneAbove(es[..|es| - 1], first, i); }
  }

  // ------------------------------------------------- what operations leave

  /** The log holds an entry of this index and term. */
  ghost predicate Holds(r: Recovery, index: nat, term: nat)
  {
    exists k :: 0 <= k < |r.entries| && r.entries[k].index == index && r.entries[k].term == term
  }

  /** Truncation keeps exactly the entries below the index. */
  lemma TruncateMeans(lim: Limits, files: Files, r: Recovery, i: nat)
    requires Numbered(r)
    ensures Apply(lim, files, r, Truncate(i)) ==
      if r.commit < i && r.snapIndex < i <= LastIndex(r) + 1 then Some(r.(entries := Below(r.entries, i))) else None
  {
    if r.snapIndex < i <= LastIndex(r) + 1 { BelowIs(r.entries, r.snapIndex + 1, i); }
  }

  /** A snapshot keeps exactly the entries above it, if the log holds the entry it ends with. */
  lemma SurvivorsMean(r: Recovery, index: nat, term: nat)
    requires Numbered(r) && index > r.snapIndex
    ensures Survivors(r, index, term) == if Holds(r, index, term) then Above(r.entries, index) else []
  {
    var at := index - r.snapIndex;
    if at <= |r.entries| {
      AboveIs(r.entries, r.snapIndex + 1, index);
      assert r.entries[at - 1].index == index;
    }
  }

  /** The batch follows the log and the log has room for it. */
  predicate Follows(lim: Limits, r: Recovery, es: seq<Entry>)
  {
    && (forall k :: 0 <= k < |es| ==> es[k].index == LastIndex(r) + k + 1 && es[k].term != 0)
    && (es != [] ==> |r.entries| + |es| <= lim.maxLog)
  }

  function Batch(es: seq<Entry>): (ops: seq<Op>)
    ensures |ops| == |es| && forall i :: 0 <= i < |es| ==> ops[i] == Append(es[i])
  {
    seq(|es|, i requires 0 <= i < |es| => Append(es[i]))
  }

  /** Appending a batch puts exactly it behind the log. */
  lemma {:induction false} AppendsMean(lim: Limits, files: Files, r: Recovery, es: seq<Entry>)
    ensures ApplyAll(lim, files, r, Batch(es)) ==
      if Follows(lim, r, es) then Some(r.(entries := r.entries + es)) else None
    decreases |es|
  {
    if es == [] {
      assert r.entries + [] == r.entries;
    } else {
      var r1 := r.(entries := r.entries + [es[0]]);
      var rest := es[1..];
      assert Batch(es)[1..] == Batch(rest);
      AppendsMean(lim, files, r1, rest);
      assert r.entries + [es[0]] + rest == r.entries + es;
      if Follows(lim, r1, rest) && Apply(lim, files, r, Append(es[0])).Some? {
        forall k | 0 <= k < |es| ensures es[k].index == LastIndex(r) + k + 1 && es[k].term != 0 {
          if k > 0 { assert rest[k - 1] == es[k]; }
        }
      }
    }
  }

  /** Operations that touch neither hard state nor snapshot. */
  predicate LeavesHardState(op: Op)
  {
    !op.HardState? && !op.Snapshot?
  }

  /** Term and vote stay until they are written again. */
  lemma {:induction false} HardStateStays(lim: Limits, files: Files, r: Recovery, ops: seq<Op>)
    requires ApplyAll(lim, files, r, ops).Some? && forall i :: 0 <= i < |ops| ==> LeavesHardState(ops[i])
    ensures ApplyAll(lim, files, r, ops).value.term == r.term
    ensures ApplyAll(lim, files, r, ops).value.votedFor == r.votedFor
    decreases |ops|
  {
    if ops != [] { HardStateStays(lim, files, Apply(lim, files, r, ops[0]).value, ops[1..]); }
  }

  // ------------------------------------------ replay reads what was written

  /** A payload that replay accepts is the encoding of operations, which it applies in turn. */
  lemma {:induction false} PayloadWritten(lim: Limits, files: Files, r: Recovery, p: seq<Byte>) returns (ops: seq<Op>)
    requires ApplyPayload(lim, files, r, p).Some?
    ensures (forall i :: 0 <= i < |ops| ==> Fits(ops[i])) && p == EncodeAll(ops)
    ensures ApplyAll(lim, files, r, ops) == ApplyPayload(lim, files, r, p)
    decreases |p|
  {
    hide ParseOp, Encode, Apply, Fits;
    if p == [] {
      ops := [];
    } else {
      ParseCanonical(p);
      var (op, rest) := ParseOp(p).value;
      var tail := PayloadWritten(lim, files, Apply(lim, files, r, op).value, rest);
      ops := [op] + tail;
      assert ops[1..] == tail;
      EncodeAllHead(ops);
    }
  }

  /** An accepted frame is the writer's frame for its number, predecessor and payload. */
  lemma FrameWritten(lim: Limits, files: Files, h: Hashes, b: seq<Byte>, first: bool, s: Scan)
    requires HeadOK(lim, files, h, b, first, s)
    ensures |b| >= FRAME_HEADER && ParseHeader(b).Some?
    ensures var x := ParseHeader(b).value;
      && HeadSize(b) == FRAME_HEADER + x.size <= |b|
      && b[..HeadSize(b)] == Frame(h, x.tx, x.prev, b[FRAME_HEADER..HeadSize(b)])
      && x.tx == Succ(x.prev) && x.prev == StartTx(first, s.lastTx, x.prev)
  {
    hide Words, Half, FromLittle, ApplyPayload, WordAt;
    var x := ParseHeader(b).value;
    var n := HeadSize(b);
    HalfCanonical(b, 8);
    HalfCanonical(b, 12);
    HeaderWords(b);
    assert b[..n] == b[..8] + b[8..12] + b[12..16] + b[16..48] + b[FRAME_HEADER..n];
  }

  lemma HeaderWords(b: seq<Byte>)
    requires |b| >= FRAME_HEADER
    ensures Words([WordAt(b, 16), WordAt(b, 24), WordAt(b, 32), WordAt(b, 40)]) == b[16..48]
  {
    hide Word, FromLittle, WordAt;
    WordCanonical(b, 16);
    WordCanonical(b, 24);
    WordCanonical(b, 32);
    WordCanonical(b, 40);
    var d, c, a := [WordAt(b, 40)], [WordAt(b, 32), WordAt(b, 40)], [WordAt(b, 24), WordAt(b, 32), WordAt(b, 40)];
    assert d[1..] == [] && c[1..] == d && a[1..] == c;
    assert Words(d) == b[40..48] + [];
    assert Words(c) == b[32..40] + b[40..48] && Words(a) == b[24..32] + (b[32..40] + b[40..48]);
    assert [WordAt(b, 16), WordAt(b, 24), WordAt(b, 32), WordAt(b, 40)][1..] == a;
    assert b[16..48] == b[16..24] + (b[24..32] + (b[32..40] + b[40..48]));
  }

  /** The bytes of transactions that follow the one numbered prev. */
  ghost function Log(h: Hashes, prev: nat, txs: seq<seq<Op>>): (b: seq<Byte>)
    requires forall i, op :: 0 <= i < |txs| && op in txs[i] ==> Fits(op)
    decreases |txs|
  {
    if txs == [] then []
    else Frame(h, Succ(prev), prev, EncodeAll(txs[0])) + Log(h, Succ(prev), txs[1..])
  }

  /** The state after transactions. */
  ghost function Result(lim: Limits, files: Files, r: Recovery, txs: seq<seq<Op>>): (r': Option<Recovery>)
    decreases |txs|
  {
    if txs == [] then Some(r)
    else
      var r1 := ApplyAll(lim, files, r, txs[0]);
      if r1.None? then None else Result(lim, files, r1.value, txs[1..])
  }

  /**
   Replay accepts nothing but what a writer wrote: the accepted bytes are the
   frames of consecutive transactions, checksums included, and the state is what
   those transactions leave.
   */
  lemma {:induction false} ReplayWritten(lim: Limits, files: Files, h: Hashes, b: seq<Byte>, first: bool, last: bool,
                                         s: Scan) returns (prev: nat, txs: seq<seq<Op>>)
    requires ReplayFrames(lim, files, h, b, first, last, s).Some?
    ensures forall i, op :: 0 <= i < |txs| && op in txs[i] ==> Fits(op)
    ensures var s' := ReplayFrames(lim, files, h, b, first, last, s).value;
      && s.used <= s'.used <= s.used + |b| && b[..s'.used - s.used] == Log(h, prev, txs)
      && Result(lim, files, s.rec, txs) == Some(s'.rec)
      && (prev == s.lastTx || (first && s.lastTx == 0))
    decreases |b|
  {
    hide ReplayFrames, HeadOK, HeadNext, EncodeAll, Frame, Fits, ApplyAll, ParseHeader, HeadSize, ApplyPayload;
    ReplayUsed(lim, files, h, b, first, last, s);
    var s' := ReplayFrames(lim, files, h, b, first, last, s).value;
    if s'.used == s.used {
      UsedNothing(lim, files, h, b, first, last, s);
      prev, txs := s.lastTx, [];
    } else {
      HeadTaken(lim, files, h, b, first, last, s);
      HeadStep(lim, files, h, b, first, last, s);
      FrameWritten(lim, files, h, b, first, s);
      var x, n := ParseHeader(b).value, HeadSize(b);
      var next := HeadNext(lim, files, h, b, first, s);
      HeadState(lim, files, h, b, first, s);
      var ops := PayloadWritten(lim, files, s.rec, b[FRAME_HEADER..n]);
      var p, rest := ReplayWritten(lim, files, h, b[n..], false, last, next);
      prev, txs := x.prev, [ops] + rest;
      LogJoins(lim, files, h, b, n, s'.used - next.used, prev, ops, rest, s.rec, next.rec);
    }
  }

  /** An accepted segment header is the one a writer writes for that segment. */
  lemma StartWritten(h: Hashes, b: seq<Byte>, seqNo: nat)
    requires GoodStart(h, b, seqNo)
    ensures b[..SEGMENT_HEADER] == SegmentStart(h, seqNo)
  {
    hide Half, Word, FromLittle, WordAt, HalfAt;
    HalfCanonical(b, 8);
    HalfCanonical(b, 12);
    WordCanonical(b, 16);
    WordCanonical(b, 24);
    assert b[..24] == b[..8] + b[8..12] + b[12..16] + b[16..24];
    assert b[..SEGMENT_HEADER] == b[..24] + b[24..32];
  }

  /** An accepted segment, up to a torn tail, is the header and the transactions a writer put there. */
  lemma SegmentWritten(lim: Limits, files: Files, h: Hashes, b: seq<Byte>, seqNo: nat, first: bool, last: bool, s: Scan)
    returns (prev: nat, txs: seq<seq<Op>>)
    requires ReplaySegment(lim, files, h, b, seqNo, first, last, s).Some?
    ensures forall i, op :: 0 <= i < |txs| && op in txs[i] ==> Fits(op)
    ensures var s' := ReplaySegment(lim, files, h, b, seqNo, first, last, s).value;
      && s'.used <= |b| && b[..s'.used] == SegmentStart(h, seqNo) + Log(h, prev, txs)
      && Result(lim, files, s.rec, txs) == Some(s'.rec)
      && (prev == s.lastTx || (first && s.lastTx == 0))
  {
    hide ReplayFrames, GoodStart, SegmentStart, Log, Result, Fits;
    prev, txs := ReplayWritten(lim, files, h, b[SEGMENT_HEADER..], first, last, s.(used := SEGMENT_HEADER));
    StartWritten(h, b, seqNo);
    var n := ReplaySegment(lim, files, h, b, seqNo, first, last, s).value.used;
    assert b[..n] == b[..SEGMENT_HEADER] + b[SEGMENT_HEADER..][..n - SEGMENT_HEADER];
  }

  lemma LogJoins(lim: Limits, files: Files, h: Hashes, b: seq<Byte>, n: nat, k: nat, prev: nat, ops: seq<Op>,
                 rest: seq<seq<Op>>, r: Recovery, r1: Recovery)
    requires n + k <= |b| && (forall op :: op in ops ==> Fits(op))
    requires forall i, op :: 0 <= i < |rest| && op in rest[i] ==> Fits(op)
    requires b[..n] == Frame(h, Succ(prev), prev, EncodeAll(ops)) && b[n..][..k] == Log(h, Succ(prev), rest)
    requires ApplyAll(lim, files, r, ops) == Some(r1)
    ensures forall i, op :: 0 <= i < |rest| + 1 && op in ([ops] + rest)[i] ==> Fits(op)
    ensures b[..n + k] == Log(h, prev, [ops] + rest)
    ensures Result(lim, files, r, [ops] + rest) == Result(lim, files, r1, rest)
  {
    hide EncodeAll, Frame, Fits, ApplyAll;
    var txs := [ops] + rest;
    assert txs[1..] == rest && txs[0] == ops;
    assert b[..n + k] == b[..n] + b[n..][..k];
  }

  lemma UsedNothing(lim: Limits, files: Files, h: Hashes, b: seq<Byte>, first: bool, last: bool, s: Scan)
    requires ReplayFrames(lim, files, h, b, first, last, s).Some?
    requires ReplayFrames(lim, files, h, b, first, last, s).value.used == s.used
    ensures ReplayFrames(lim, files, h, b, first, last, s).value.rec == s.rec
  {
    ReplayUsed(lim, files, h, b, first, last, s);
  }

  lemma HeadState(lim: Limits, files: Files, h: Hashes, b: seq<Byte>, first: bool, s: Scan)
    requires HeadOK(lim, files, h, b, first, s)
    ensures var next := HeadNext(lim, files, h, b, first, s);
      && ApplyPayload(lim, files, s.rec, b[FRAME_HEADER..HeadSize(b)]) == Some(next.rec)
      && next.lastTx == ParseHeader(b).value.tx && next.used == s.used + HeadSize(b)
  {
    hide ApplyPayload, ParseHeader;
  }
}
