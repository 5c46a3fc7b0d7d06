/**
 What the payload files mean for replay.  A file that replay does not ask for
 changes nothing, a log refused for a missing file stays refused however it
 grows, and a log that ends at a snapshot asks for that snapshot's file.
 */
module WalFiles {
  import opened RaftTypes
  import opened WalFormat
  import opened Wal

  predicate Within(files: Files, more: Files)
  {
    forall name :: name in files ==> name in more && files[name] == more[name]
  }

  // ----------------------------------------------------------- more files

  lemma {:induction false} PayloadMore(lim: Limits, files: Files, more: Files, r: Recovery, p: seq<Byte>)
    requires Within(files, more) && ApplyPayload(lim, files, r, p).Some?
    ensures ApplyPayload(lim, more, r, p) == ApplyPayload(lim, files, r, p)
    decreases |p|
  {
    hide ParseOp;
    if p != [] {
      var next := ParseOp(p).value;
      PayloadMore(lim, files, more, Apply(lim, files, r, next.0).value, next.1);
    }
  }

  lemma {:induction false} FramesMore(lim: Limits, files: Files, more: Files, h: Hashes, b: seq<Byte>, first: bool,
                                      last: bool, s: Scan)
    requires Within(files, more) && ReplayFrames(lim, files, h, b, first, last, s).Some?
    ensures ReplayFrames(lim, more, h, b, first, last, s) == ReplayFrames(lim, files, h, b, first, last, s)
    decreases |b|
  {
    hide ApplyPayload, ParseHeader, Within;
    if |b| >= FRAME_HEADER {
      var x := ParseHeader(b).value;
      var n := FRAME_HEADER + x.size;
      if n <= |b| {
        PayloadMore(lim, files, more, s.rec, b[FRAME_HEADER..n]);
        var rec := ApplyPayload(lim, files, s.rec, b[FRAME_HEADER..n]).value;
        FramesMore(lim, files, more, h, b[n..], false, last, Scan(rec, x.tx, s.used + n));
      }
    }
  }

  lemma SegmentMore(lim: Limits, files: Files, more: Files, h: Hashes, b: seq<Byte>, seqNo: nat, first: bool,
                    last: bool, s: Scan)
    requires Within(files, more) && ReplaySegment(lim, files, h, b, seqNo, first, last, s).Some?
    ensures ReplaySegment(lim, more, h, b, seqNo, first, last, s) ==
      ReplaySegment(lim, files, h, b, seqNo, first, last, s)
  {
    hide ReplayFrames, GoodStart, Within;
    FramesMore(lim, files, more, h, b[SEGMENT_HEADER..], first, last, s.(used := SEGMENT_HEADER));
  }

  lemma {:induction false} ThroughMore(lim: Limits, files: Files, more: Files, h: Hashes,
                                       segments: map<nat, seq<Byte>>, first: nat, k: nat)
    requires first <= k && Within(files, more) && Through(lim, files, h, segments, first, k).Some?
    ensures Through(lim, more, h, segments, first, k) == Through(lim, files, h, segments, first, k)
    decreases k
  {
    hide ReplaySegment, Within;
    if k > first {
      ThroughMore(lim, files, more, h, segments, first, k - 1);
      var s := Through(lim, files, h, segments, first, k - 1).value;
      SegmentMore(lim, files, more, h, segments[k - 1], k - 1, k - 1 == first, false, s);
    }
  }

  /** Files that replay did not ask for change nothing. */
  lemma ReplayMore(lim: Limits, h: Hashes, d: Disk, more: Files)
    requires Within(d.files, more) && Replay(lim, h, d).Some?
    ensures Replay(lim, h, d.(files := more)) == Replay(lim, h, d)
  {
    hide ReplaySegment, Within;
    ThroughMore(lim, d.files, more, h, d.segments, d.first, d.last);
    var s := Through(lim, d.files, h, d.segments, d.first, d.last).value;
    SegmentMore(lim, d.files, more, h, d.segments[d.last], d.last, d.last == d.first, true, s);
  }

  // ------------------------------------------------------- files asked for

  /** The file of the state's snapshot is there. */
  predicate Named(files: Files, r: Recovery)
  {
    r.snapIndex == 0 || (r.snapIndex, r.snapTerm) in files
  }

  /** What replay can leave. */
  predicate Left(files: Files, r: Recovery)
  {
    Named(files, r) && Numbered(r) && r.votedFor <= U64_MAX && r.commit <= U64_MAX
  }

  lemma {:induction false} PayloadLeft(lim: Limits, files: Files, r: Recovery, p: seq<Byte>)
    requires Left(files, r) && ApplyPayload(lim, files, r, p).Some?
    ensures Left(files, ApplyPayload(lim, files, r, p).value)
    decreases |p|
  {
    hide ParseOp;
    if p != [] {
      var next := ParseOp(p).value;
      ParsedWords(p);
      PayloadLeft(lim, files, Apply(lim, files, r, next.0).value, next.1);
    }
  }

  lemma {:induction false} FramesLeft(lim: Limits, files: Files, h: Hashes, b: seq<Byte>, first: bool, last: bool,
                                       s: Scan)
    requires Left(files, s.rec) && ReplayFrames(lim, files, h, b, first, last, s).Some?
    ensures Left(files, ReplayFrames(lim, files, h, b, first, last, s).value.rec)
    decreases |b|
  {
    hide ApplyPayload, ParseHeader, Left;
    if |b| >= FRAME_HEADER {
      var x := ParseHeader(b).value;
      var n := FRAME_HEADER + x.size;
      if n <= |b| {
        PayloadLeft(lim, files, s.rec, b[FRAME_HEADER..n]);
        var rec := ApplyPayload(lim, files, s.rec, b[FRAME_HEADER..n]).value;
        FramesLeft(lim, files, h, b[n..], false, last, Scan(rec, x.tx, s.used + n));
      }
    }
  }

  lemma SegmentLeft(lim: Limits, files: Files, h: Hashes, b: seq<Byte>, seqNo: nat, first: bool, last: bool, s: Scan)
    requires Left(files, s.rec) && ReplaySegment(lim, files, h, b, seqNo, first, last, s).Some?
    ensures Left(files, ReplaySegment(lim, files, h, b, seqNo, first, last, s).value.rec)
  {
    hide ReplayFrames, GoodStart, Left;
    FramesLeft(lim, files, h, b[SEGMENT_HEADER..], first, last, s.(used := SEGMENT_HEADER));
  }

  lemma {:induction false} ThroughLeft(lim: Limits, files: Files, h: Hashes, segments: map<nat, seq<Byte>>,
                                        first: nat, k: nat)
    requires first <= k && Through(lim, files, h, segments, first, k).Some?
    ensures Left(files, Through(lim, files, h, segments, first, k).value.rec)
    decreases k
  {
    hide ReplaySegment;
    if k > first {
      ThroughLeft(lim, files, h, segments, first, k - 1);
      var s := Through(lim, files, h, segments, first, k - 1).value;
      SegmentLeft(lim, files, h, segments[k - 1], k - 1, k - 1 == first, false, s);
    }
  }

  /** A log that replays to a snapshot has that snapshot's file, and its numbers are words. */
  lemma ReplayLeft(lim: Limits, h: Hashes, d: Disk)
    requires Replay(lim, h, d).Some?
    ensures Left(d.files, Replay(lim, h, d).value.rec)
  {
    hide ReplaySegment, Left;
    ThroughLeft(lim, d.files, h, d.segments, d.first, d.last);
    var s := Through(lim, d.files, h, d.segments, d.first, d.last).value;
    SegmentLeft(lim, d.files, h, d.segments[d.last], d.last, d.last == d.first, true, s);
  }

  /** Taking away the file of the state's snapshot leaves a log that does not replay. */
  lemma Unlinked(lim: Limits, h: Hashes, d: Disk, rest: Files)
    requires Replay(lim, h, d).Some? && Within(rest, d.files) && !Named(rest, Replay(lim, h, d).value.rec)
    ensures Replay(lim, h, d.(files := rest)).None?
  {
    hide Replay, Named, Within;
    var d' := d.(files := rest);
    if Replay(lim, h, d').Some? {
      ReplayMore(lim, h, d', d.files);
      assert d'.(files := d.files) == d;
      ReplayLeft(lim, h, d');
    }
  }

  // --------------------------------------------------- refused stays refused

  /** Bytes that would be accepted whole with more files, and are refused with these, are refused at any length. */
  lemma {:induction false} FramesRefused(lim: Limits, files: Files, more: Files, h: Hashes, b: seq<Byte>, c: seq<Byte>,
                                         first: bool, last: bool, last': bool, s: Scan)
    requires Within(files, more) && ReplayFrames(lim, files, h, b, first, last, s).None?
    requires ReplayFrames(lim, more, h, b, first, last, s).Some?
    requires ReplayFrames(lim, more, h, b, first, last, s).value.used == s.used + |b|
    ensures ReplayFrames(lim, files, h, b + c, first, last', s).None?
    decreases |b|
  {
    hide ApplyPayload, ParseHeader, Within;
    ReplayUsed(lim, more, h, b, first, last, s);
    var x := ParseHeader(b).value;
    HeaderOfMore(b, c);
    var n := FRAME_HEADER + x.size;
    var payload := b[FRAME_HEADER..n];
    assert (b + c)[FRAME_HEADER..n] == payload && (b + c)[n..] == b[n..] + c;
    if ApplyPayload(lim, files, s.rec, payload).Some? {
      PayloadMore(lim, files, more, s.rec, payload);
      var rec := ApplyPayload(lim, files, s.rec, payload).value;
      FramesRefused(lim, files, more, h, b[n..], c, false, last, last', Scan(rec, x.tx, s.used + n));
    }
  }

  lemma SegmentRefused(lim: Limits, files: Files, more: Files, h: Hashes, b: seq<Byte>, c: seq<Byte>, seqNo: nat,
                       first: bool, last: bool, last': bool, s: Scan)
    requires Within(files, more) && ReplaySegment(lim, files, h, b, seqNo, first, last, s).None?
    requires ReplaySegment(lim, more, h, b, seqNo, first, last, s).Some?
    requires ReplaySegment(lim, more, h, b, seqNo, first, last, s).value.used == |b|
    ensures ReplaySegment(lim, files, h, b + c, seqNo, first, last', s).None?
  {
    hide ReplayFrames, GoodStart, Within;
    assert (b + c)[SEGMENT_HEADER..] == b[SEGMENT_HEADER..] + c;
    FramesRefused(lim, files, more, h, b[SEGMENT_HEADER..], c, first, last, last', s.(used := SEGMENT_HEADER));
  }

  /** A later state of the same log: bytes joined the last segment, or a next one was begun. */
  predicate Grown(d: Disk, d': Disk)
  {
    && d'.first == d.first <= d.last && d.last in d.segments && d.last in d'.segments && d'.files == d.files
    && (forall i :: d.first <= i < d.last ==> (i in d.segments <==> i in d'.segments))
    && (forall i :: d.first <= i < d.last && i in d.segments ==> d.segments[i] == d'.segments[i])
    && (if d'.last == d.last then d.segments[d.last] <= d'.segments[d.last]
        else d'.last == d.last + 1 && d.segments[d.last] == d'.segments[d.last])
  }

  /** Growing a log does not make up for a missing file. */
  lemma RefusedStays(lim: Limits, h: Hashes, d: Disk, d': Disk, more: Files, s: Scan)
    requires Within(d.files, more) && Settled(lim, h, d.(files := more), s) && Replay(lim, h, d).None? && Grown(d, d')
    ensures Replay(lim, h, d').None?
  {
    hide ReplaySegment, Within;
    var b := d.segments[d.last];
    ThroughLocal(lim, d.files, h, d.segments, d'.segments, d.first, d.last);
    var t := Through(lim, d.files, h, d.segments, d.first, d.last);
    if t.None? {
      ThroughStops(lim, d.files, h, d'.segments, d.first, d.last, d'.last);
    } else {
      ThroughMore(lim, d.files, more, h, d.segments, d.first, d.last);
      var c := if d'.last == d.last then d'.segments[d.last][|b|..] else [];
      assert b + c == d'.segments[d.last];
      SegmentRefused(lim, d.files, more, h, b, c, d.last, d.last == d.first, true, d'.last == d.last, t.value);
    }
  }

  /** The log replays to s, with nothing torn, once the files in more are back. */
  predicate Backed(lim: Limits, h: Hashes, d: Disk, more: Files, s: Scan)
  {
    Within(d.files, more) && Settled(lim, h, d.(files := more), s)
  }

  /** When such a log replays at all, it replays to s. */
  lemma BackedSettles(lim: Limits, h: Hashes, d: Disk, more: Files, s: Scan)
    requires Backed(lim, h, d, more, s) && Replay(lim, h, d).Some?
    ensures Settled(lim, h, d, s)
  {
    hide Replay, Within;
    ReplayMore(lim, h, d, more);
  }
}
