/**
 The byte layout of the write-ahead log (src/storage/raft_wal_storage.c):
 little-endian words, operations, transaction frames and segment headers, with
 the parsers that replay uses.  Checksums are arbitrary functions, supplied as
 parameters.
 */
module WalFormat {
  import opened RaftTypes
  import C = Configuration

  const FORMAT_VERSION: nat := 1
  const SEGMENT_HEADER: nat := 32
  const FRAME_HEADER: nat := 48
  const OP_HEADER: nat := 8
  const DIGEST_SIZE: nat := 32
  const SEGMENT_MAGIC: seq<Byte> := [0x54, 0x52, 0x53, 0x45, 0x47, 0x30, 0x30, 0x31]
  const FRAME_MAGIC: seq<Byte> := [0x54, 0x52, 0x57, 0x41, 0x4C, 0x30, 0x30, 0x31]
  const U32_MAX: nat := 0xFFFF_FFFF

  // ------------------------------------------------------------------ words

  /** n bytes of v, least significant first. */
  function Little(v: nat, n: nat): (s: seq<Byte>)
    ensures |s| == n
  {
    if n == 0 then [] else [v % 256] + Little(v / 256, n - 1)
  }

  function FromLittle(s: seq<Byte>): (v: nat)
  {
    if s == [] then 0 else s[0] + 256 * FromLittle(s[1..])
  }

  lemma {:induction false} LittleRoundTrip(v: nat, n: nat)
    requires v < C.Pow256(n)
    ensures FromLittle(Little(v, n)) == v
  {
    if n > 0 { LittleRoundTrip(v / 256, n - 1); }
  }

  lemma {:induction false} LittleBound(s: seq<Byte>)
    ensures FromLittle(s) < C.Pow256(|s|)
  {
    if s != [] { LittleBound(s[1..]); }
  }

  function Word(v: nat): (s: seq<Byte>)
    ensures |s| == 8
  {
    Little(v, 8)
  }

  function Half(v: nat): (s: seq<Byte>)
    ensures |s| == 4
  {
    Little(v, 4)
  }

  lemma WordRoundTrip(v: nat)
    requires v <= U64_MAX
    ensures FromLittle(Word(v)) == v
  {
    C.WordFitsEightBytes();
    LittleRoundTrip(v, 8);
  }

  lemma HalfRoundTrip(v: nat)
    requires v <= U32_MAX
    ensures FromLittle(Half(v)) == v
  {
    assert C.Pow256(4) == 256 * (256 * (256 * (256 * C.Pow256(0))));
    LittleRoundTrip(v, 4);
  }

  /** Consecutive 64-bit words. */
  function Words(ws: seq<nat>): (s: seq<Byte>)
    ensures |s| == 8 * |ws|
  {
    if ws == [] then [] else Word(ws[0]) + Words(ws[1..])
  }

  lemma {:induction false} WordsAt(ws: seq<nat>, tail: seq<Byte>, i: nat)
    requires i < |ws| && ws[i] <= U64_MAX
    ensures WordAt(Words(ws) + tail, 8 * i) == ws[i]
  {
    var rest := Words(ws[1..]) + tail;
    assert Words(ws) + tail == Word(ws[0]) + rest;
    if i == 0 {
      assert (Word(ws[0]) + rest)[0..8] == Word(ws[0]);
      WordRoundTrip(ws[0]);
    } else {
      WordsAt(ws[1..], tail, i - 1);
      assert (Word(ws[0]) + rest)[8 * i..8 * i + 8] == rest[8 * (i - 1)..8 * (i - 1) + 8];
    }
  }

  /** tr_wal_get_u64 */
  method GetWord(input: seq<Byte>, offset: nat) returns (value: nat)
    requires offset + 8 <= |input|
    ensures value == FromLittle(input[offset..offset + 8])
  {
    value := 0;
    var i := 8;
    while i > 0
      invariant 0 <= i <= 8 && value == FromLittle(input[offset + i..offset + 8])
    {
      i := i - 1;
      value := input[offset + i] + 256 * value;
      assert input[offset + i..offset + 8] == [input[offset + i]] + input[offset + i + 1..offset + 8];
    }
  }

  // ------------------------------------------------------------- operations

  datatype Op =
    | HardState(term: nat, votedFor: nat)
    | Truncate(from: nat)
    | Append(entry: Entry)
    | CommitIndex(index: nat)
    | Snapshot(leaderTerm: nat, snapIndex: nat, snapTerm: nat, size: nat, checksum: nat, commit: nat, vote: nat,
               conf: C.Conf, digest: seq<Byte>)

  /** Every field is a 64-bit word and every length is within the format's limits. */
  predicate Fits(op: Op)
  {
    match op
    case HardState(t, v) => t <= U64_MAX && v <= U64_MAX
    case Truncate(i) => i <= U64_MAX
    case Append(e) => e.index <= U64_MAX && e.term <= U64_MAX && e.command <= U64_MAX && |e.data| <= MAX_ENTRY_BYTES
    case CommitIndex(i) => i <= U64_MAX
    case Snapshot(lt, i, t, s, k, m, v, conf, d) =>
      && lt <= U64_MAX && i <= U64_MAX && t <= U64_MAX && s <= U64_MAX && k <= U64_MAX && m <= U64_MAX && v <= U64_MAX
      && C.Valid(conf) && (|d| == 0 || |d| == DIGEST_SIZE)
  }

  function OpType(op: Op): (t: Byte)
  {
    match op
    case HardState(_, _) => 1
    case Truncate(_) => 2
    case Append(_) => 3
    case CommitIndex(_) => 4
    case Snapshot(_, _, _, _, _, _, _, _, _) => 5
  }

  function EntryBody(e: Entry): (s: seq<Byte>)
  {
    Word(e.index) + Word(e.term) + Word(e.command) + Half(|e.data|) + Half(0) + e.data
  }

  function SnapshotHead(op: Op): (s: seq<Byte>)
    requires op.Snapshot?
    ensures |s| == 56
  {
    Words([op.leaderTerm, op.snapIndex, op.snapTerm, op.size, op.checksum, op.commit, op.vote])
  }

  function SnapshotBody(op: Op): (s: seq<Byte>)
    requires op.Snapshot? && C.Valid(op.conf)
  {
    var conf := C.EncodedForm(op.conf);
    SnapshotHead(op) + Half(|conf|) + Half(|op.digest|) + conf + op.digest
  }

  function Body(op: Op): (s: seq<Byte>)
    requires Fits(op)
  {
    match op
    case HardState(t, v) => Word(t) + Word(v)
    case Truncate(i) => Word(i)
    case Append(e) => EntryBody(e)
    case CommitIndex(i) => Word(i)
    case Snapshot(_, _, _, _, _, _, _, _, _) => SnapshotBody(op)
  }

  /** tr_wal_append_operation: an 8-byte header and the body. */
  function Encode(op: Op): (s: seq<Byte>)
    requires Fits(op)
    ensures |s| == OP_HEADER + |Body(op)|
  {
    [OpType(op), 0, 0, 0] + Half(|Body(op)|) + Body(op)
  }

  function WordAt(s: seq<Byte>, i: nat): (v: nat)
    requires i + 8 <= |s|
  {
    FromLittle(s[i..i + 8])
  }

  function HalfAt(s: seq<Byte>, i: nat): (v: nat)
    requires i + 4 <= |s|
  {
    FromLittle(s[i..i + 4])
  }

  function ParseEntry(d: seq<Byte>): (r: Option<Op>)
  {
    if |d| < 32 then None
    else
      var length := HalfAt(d, 24);
      if HalfAt(d, 28) != 0 || length > MAX_ENTRY_BYTES || |d| != 32 + length then None
      else Some(Append(Entry(WordAt(d, 0), WordAt(d, 8), WordAt(d, 16), d[32..])))
  }

  function ParseSnapshot(d: seq<Byte>): (r: Option<Op>)
  {
    if |d| < 64 then None
    else
      var confSize, digestSize := HalfAt(d, 56), HalfAt(d, 60);
      if (digestSize != 0 && digestSize != DIGEST_SIZE) || |d| != 64 + confSize + digestSize then None
      else
        var conf := C.Decoded(d[64..64 + confSize]);
        if conf.None? then None
        else Some(Snapshot(WordAt(d, 0), WordAt(d, 8), WordAt(d, 16), WordAt(d, 24), WordAt(d, 32), WordAt(d, 40),
                           WordAt(d, 48), conf.value, d[64 + confSize..]))
  }

  /** The body of one operation, as tr_wal_apply_payload reads it. */
  function ParseBody(kind: Byte, d: seq<Byte>): (r: Option<Op>)
  {
    if kind == 1 then if |d| != 16 then None else Some(HardState(WordAt(d, 0), WordAt(d, 8)))
    else if kind == 2 then if |d| != 8 then None else Some(Truncate(WordAt(d, 0)))
    else if kind == 3 then ParseEntry(d)
    else if kind == 4 then if |d| != 8 then None else Some(CommitIndex(WordAt(d, 0)))
    else if kind == 5 then ParseSnapshot(d)
    else None
  }

  /** The first operation of a payload and what follows it. */
  function ParseOp(p: seq<Byte>): (r: Option<(Op, seq<Byte>)>)
    ensures r.Some? ==> |r.value.1| < |p|
  {
    if |p| < OP_HEADER || p[1] != 0 || p[2] != 0 || p[3] != 0 then None
    else
      var size := HalfAt(p, 4);
      if size > |p| - OP_HEADER then None
      else
        var op := ParseBody(p[0], p[OP_HEADER..OP_HEADER + size]);
        if op.None? then None else Some((op.value, p[OP_HEADER + size..]))
  }

  /** The numbers an operation brings into the recovered state are 64-bit words. */
  predicate InWords(op: Op)
  {
    match op
    case HardState(_, v) => v <= U64_MAX
    case CommitIndex(i) => i <= U64_MAX
    case Snapshot(_, _, _, _, _, m, v, _, _) => m <= U64_MAX && v <= U64_MAX
    case _ => true
  }

  lemma WordBound(s: seq<Byte>, i: nat)
    requires i + 8 <= |s|
    ensures WordAt(s, i) <= U64_MAX
  {
    C.WordFitsEightBytes();
    LittleBound(s[i..i + 8]);
  }

  lemma ParsedWords(p: seq<Byte>)
    requires ParseOp(p).Some?
    ensures InWords(ParseOp(p).value.0)
  {
    hide FromLittle, C.Decoded;
    var d := p[OP_HEADER..OP_HEADER + HalfAt(p, 4)];
    var kind := p[0];
    if kind == 1 { WordBound(d, 8); }
    if kind == 4 { WordBound(d, 0); }
    if kind == 5 {
      WordBound(d, 40);
      WordBound(d, 48);
    }
  }

  // ---------------------------------------------------------- round trips

  lemma ParseSimple(op: Op)
    requires Fits(op) && (op.HardState? || op.Truncate? || op.CommitIndex?)
    ensures ParseBody(OpType(op), Body(op)) == Some(op)
  {
    var b := Body(op);
    match op {
      case HardState(t, v) =>
        WordRoundTrip(t);
        WordRoundTrip(v);
        assert b[0..8] == Word(t) && b[8..16] == Word(v);
      case Truncate(i) =>
        WordRoundTrip(i);
        assert b[0..8] == Word(i);
      case CommitIndex(i) =>
        WordRoundTrip(i);
        assert b[0..8] == Word(i);
    }
  }

  lemma ParseAppend(e: Entry)
    requires Fits(Append(e))
    ensures ParseEntry(EntryBody(e)) == Some(Append(e))
  {
    hide Word, Half, FromLittle;
    var b := EntryBody(e);
    WordRoundTrip(e.index);
    WordRoundTrip(e.term);
    WordRoundTrip(e.command);
    HalfRoundTrip(|e.data|);
    HalfRoundTrip(0);
    assert b[0..8] == Word(e.index) && b[8..16] == Word(e.term) && b[16..24] == Word(e.command);
    assert b[24..28] == Half(|e.data|) && b[28..32] == Half(0) && b[32..] == e.data;
  }

  lemma ParseSnapshotHead(op: Op, tail: seq<Byte>)
    requires op.Snapshot? && Fits(op)
    ensures var b := SnapshotHead(op) + tail;
      && WordAt(b, 0) == op.leaderTerm && WordAt(b, 8) == op.snapIndex && WordAt(b, 16) == op.snapTerm
      && WordAt(b, 24) == op.size && WordAt(b, 32) == op.checksum && WordAt(b, 40) == op.commit
      && WordAt(b, 48) == op.vote
  {
    hide Words;
    var ws := [op.leaderTerm, op.snapIndex, op.snapTerm, op.size, op.checksum, op.commit, op.vote];
    WordsAt(ws, tail, 0);
    WordsAt(ws, tail, 1);
    WordsAt(ws, tail, 2);
    WordsAt(ws, tail, 3);
    WordsAt(ws, tail, 4);
    WordsAt(ws, tail, 5);
    WordsAt(ws, tail, 6);
  }

  lemma SnapshotParts(head: seq<Byte>, a: seq<Byte>, b: seq<Byte>, conf: seq<Byte>, digest: seq<Byte>)
    requires |head| == 56 && |a| == 4 && |b| == 4
    ensures var s := head + a + b + conf + digest;
      && s == head + (a + b + conf + digest)
      && s[56..60] == a && s[60..64] == b && s[64..64 + |conf|] == conf && s[64 + |conf|..] == digest
  {
  }

  lemma ParseSnapshotBody(op: Op)
    requires op.Snapshot? && Fits(op)
    ensures ParseSnapshot(SnapshotBody(op)) == Some(op)
  {
    hide SnapshotHead, Half, WordAt, FromLittle, C.EncodedForm, C.Decoded;
    var conf := C.EncodedForm(op.conf);
    var a, b := Half(|conf|), Half(|op.digest|);
    SnapshotParts(SnapshotHead(op), a, b, conf, op.digest);
    ParseSnapshotHead(op, a + b + conf + op.digest);
    ConfSize(op.conf);
    HalfRoundTrip(|conf|);
    HalfRoundTrip(|op.digest|);
    C.DecodeEncode(op.conf);
  }

  lemma ConfSize(c: C.Conf)
    requires C.Valid(c)
    ensures |C.EncodedForm(c)| <= C.HEADER_SIZE + C.MEMBER_SIZE * MAX_MEMBERS
  {
  }

  lemma BodySize(op: Op)
    requires Fits(op)
    ensures |Body(op)| <= U32_MAX
  {
    if op.Snapshot? { ConfSize(op.conf); }
  }

  /** An encoded operation is read back, whatever follows it. */
  lemma ParseEncoded(op: Op, rest: seq<Byte>)
    requires Fits(op)
    ensures ParseOp(Encode(op) + rest) == Some((op, rest))
  {
    hide ParseEntry, ParseSnapshot, EntryBody, SnapshotBody;
    var b := Body(op);
    var p := Encode(op) + rest;
    BodySize(op);
    HalfRoundTrip(|b|);
    assert p[4..8] == Half(|b|) && p[OP_HEADER..OP_HEADER + |b|] == b && p[OP_HEADER + |b|..] == rest;
    match op {
      case Append(e) => ParseAppend(e);
      case Snapshot(_, _, _, _, _, _, _, _, _) => ParseSnapshotBody(op);
      case _ => ParseSimple(op);
    }
  }

  // ------------------------------------------------------ canonical bytes

  lemma {:induction false} LittleCanonical(s: seq<Byte>)
    ensures Little(FromLittle(s), |s|) == s
  {
    if s != [] {
      LittleCanonical(s[1..]);
      assert FromLittle(s) / 256 == FromLittle(s[1..]);
      assert s == [s[0]] + s[1..];
    }
  }

  lemma WordCanonical(s: seq<Byte>, i: nat)
    requires i + 8 <= |s|
    ensures Word(WordAt(s, i)) == s[i..i + 8] && WordAt(s, i) <= U64_MAX
  {
    LittleCanonical(s[i..i + 8]);
    WordBound(s, i);
  }

  lemma HalfCanonical(s: seq<Byte>, i: nat)
    requires i + 4 <= |s|
    ensures Half(HalfAt(s, i)) == s[i..i + 4]
  {
    LittleCanonical(s[i..i + 4]);
  }

  lemma EntryCanonical(d: seq<Byte>)
    requires ParseEntry(d).Some?
    ensures var op := ParseEntry(d).value; op.Append? && Fits(op) && EntryBody(op.entry) == d
  {
    hide Word, Half, FromLittle;
    WordCanonical(d, 0);
    WordCanonical(d, 8);
    WordCanonical(d, 16);
    HalfCanonical(d, 24);
    HalfCanonical(d, 28);
    assert d == d[0..8] + d[8..16] + d[16..24] + d[24..28] + d[28..32] + d[32..];
  }

  lemma SnapshotCanonical(d: seq<Byte>)
    requires ParseSnapshot(d).Some?
    ensures var op := ParseSnapshot(d).value; op.Snapshot? && Fits(op) && SnapshotBody(op) == d
  {
    hide Word, Half, FromLittle, C.Decoded, C.EncodedForm, C.Valid, SnapshotHead;
    var op := ParseSnapshot(d).value;
    var n := HalfAt(d, 56);
    HeadCanonical(d, op);
    HalfCanonical(d, 56);
    HalfCanonical(d, 60);
    C.EncodeDecode(d[64..64 + n]);
    assert d == d[0..56] + d[56..60] + d[60..64] + d[64..64 + n] + d[64 + n..];
  }

  lemma HeadCanonical(d: seq<Byte>, op: Op)
    requires |d| >= 64 && op.Snapshot?
    requires op.leaderTerm == WordAt(d, 0) && op.snapIndex == WordAt(d, 8) && op.snapTerm == WordAt(d, 16)
    requires op.size == WordAt(d, 24) && op.checksum == WordAt(d, 32) && op.commit == WordAt(d, 40)
    requires op.vote == WordAt(d, 48)
    ensures SnapshotHead(op) == d[0..56]
    ensures op.leaderTerm <= U64_MAX && op.snapIndex <= U64_MAX && op.snapTerm <= U64_MAX && op.size <= U64_MAX
    ensures op.checksum <= U64_MAX && op.commit <= U64_MAX && op.vote <= U64_MAX
  {
    hide Word, Words, FromLittle, WordAt;
    WordBound(d, 0);
    WordBound(d, 8);
    WordBound(d, 16);
    WordBound(d, 24);
    WordBound(d, 32);
    WordBound(d, 40);
    WordBound(d, 48);
    WordsCanonical(d);
  }

  /** The words read from the front of a byte string are its front. */
  lemma WordsCanonical(d: seq<Byte>)
    requires |d| >= 56
    ensures Words([WordAt(d, 0), WordAt(d, 8), WordAt(d, 16), WordAt(d, 24), WordAt(d, 32), WordAt(d, 40),
                   WordAt(d, 48)]) == d[0..56]
  {
    hide Word, Words, FromLittle, WordAt;
    NoWords();
    var w6 := [WordAt(d, 48)];
    var w5 := [WordAt(d, 40), WordAt(d, 48)];
    var w4 := [WordAt(d, 32), WordAt(d, 40), WordAt(d, 48)];
    var w3 := [WordAt(d, 24), WordAt(d, 32), WordAt(d, 40), WordAt(d, 48)];
    var w2 := [WordAt(d, 16), WordAt(d, 24), WordAt(d, 32), WordAt(d, 40), WordAt(d, 48)];
    var w1 := [WordAt(d, 8), WordAt(d, 16), WordAt(d, 24), WordAt(d, 32), WordAt(d, 40), WordAt(d, 48)];
    WordsFrom(d, 48, [], w6);
    WordsFrom(d, 40, w6, w5);
    WordsFrom(d, 32, w5, w4);
    WordsFrom(d, 24, w4, w3);
    WordsFrom(d, 16, w3, w2);
    WordsFrom(d, 8, w2, w1);
    WordsFrom(d, 0, w1, [WordAt(d, 0), WordAt(d, 8), WordAt(d, 16), WordAt(d, 24), WordAt(d, 32), WordAt(d, 40),
                         WordAt(d, 48)]);
  }

  lemma NoWords()
    ensures Words([]) == []
  {
  }

  lemma WordsFrom(d: seq<Byte>, at: nat, ws: seq<nat>, all: seq<nat>)
    requires |d| >= 56 && at + 8 <= 56 && Words(ws) == d[at + 8..56] && all == [WordAt(d, at)] + ws
    ensures Words(all) == d[at..56]
  {
    hide Word, FromLittle, WordAt;
    WordCanonical(d, at);
    assert all[1..] == ws;
    assert d[at..56] == d[at..at + 8] + d[at + 8..56];
  }

  /** What is read as an operation is exactly that operation's encoding. */
  lemma ParseCanonical(p: seq<Byte>)
    requires ParseOp(p).Some?
    ensures var (op, rest) := ParseOp(p).value; Fits(op) && p == Encode(op) + rest
  {
    hide ParseEntry, ParseSnapshot, EntryBody, SnapshotBody, Word, Half, FromLittle;
    var size := HalfAt(p, 4);
    var d := p[OP_HEADER..OP_HEADER + size];
    HalfCanonical(p, 4);
    if p[0] == 1 {
      WordCanonical(d, 0);
      WordCanonical(d, 8);
      assert d == d[0..8] + d[8..16];
    } else if p[0] == 2 || p[0] == 4 {
      WordCanonical(d, 0);
      assert d == d[0..8];
    } else if p[0] == 3 {
      EntryCanonical(d);
    } else {
      SnapshotCanonical(d);
    }
    assert p == [p[0], p[1], p[2], p[3]] + p[4..8] + d + p[OP_HEADER + size..];
  }
}
