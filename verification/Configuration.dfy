/**
 Cluster configurations and their canonical byte form
 (src/core/raft_configuration.c).
 */
module Configuration {
  import opened RaftTypes

  const PHASE_JOINT: Byte := 1
  const PHASE_FINAL: Byte := 2
  const ROLE_LEARNER: Byte := 4
  const ROLE_VOTER: Byte := 3
  const CODEC_VERSION: Byte := 1
  const HEADER_SIZE: nat := 16
  const MEMBER_SIZE: nat := 9
  const MAGIC: seq<Byte> := [0x54, 0x52, 0x43, 0x46]

  /** roles is a bit set: 1 old voter, 2 new voter, 4 learner. */
  datatype Member = Member(nodeId: U64, roles: Byte)

  datatype Conf = Conf(phase: Byte, transitionId: U64, members: seq<Member>)

  predicate OldVoter(roles: Byte) { roles % 2 == 1 }

  predicate NewVoter(roles: Byte) { roles / 2 % 2 == 1 }

  predicate Learner(roles: Byte) { roles / 4 % 2 == 1 }

  predicate RolesValid(phase: Byte, roles: Byte)
  {
    && roles != 0 && roles < 8
    && !(NewVoter(roles) && Learner(roles))
    && if phase == PHASE_FINAL then roles == ROLE_VOTER || roles == ROLE_LEARNER else phase == PHASE_JOINT
  }

  /** Node ids are non-zero and strictly ascending. */
  predicate Ascending(ms: seq<Member>)
  {
    && (forall i :: 0 <= i < |ms| ==> ms[i].nodeId != 0)
    && (forall i, j :: 0 <= i < j < |ms| ==> ms[i].nodeId < ms[j].nodeId)
  }

  function OldVoterCount(ms: seq<Member>): (n: nat)
  {
    if ms == [] then 0
    else OldVoterCount(ms[..|ms| - 1]) + if OldVoter(ms[|ms| - 1].roles) then 1 else 0
  }

  function NewVoterCount(ms: seq<Member>): (n: nat)
  {
    if ms == [] then 0
    else NewVoterCount(ms[..|ms| - 1]) + if NewVoter(ms[|ms| - 1].roles) then 1 else 0
  }

  /** What tr_raft_conf_validate accepts. */
  predicate Valid(c: Conf)
  {
    && (c.phase == PHASE_JOINT || c.phase == PHASE_FINAL)
    && (c.phase == PHASE_JOINT ==> c.transitionId != 0)
    && 0 < |c.members| <= MAX_MEMBERS
    && Ascending(c.members)
    && (forall i :: 0 <= i < |c.members| ==> RolesValid(c.phase, c.members[i].roles))
    && OldVoterCount(c.members) != 0 && NewVoterCount(c.members) != 0
  }

  /** The validation loop accepts exactly the valid configurations. */
  method Validate(c: Conf) returns (status: Status)
    ensures status == OK || status == EINVAL
    ensures status == OK <==> Valid(c)
  {
    if (c.phase == PHASE_JOINT && c.transitionId == 0) || |c.members| == 0 || |c.members| > MAX_MEMBERS ||
       (c.phase != PHASE_JOINT && c.phase != PHASE_FINAL)
    {
      return EINVAL;
    }
    var oldCount, newCount := 0, 0;
    var i := 0;
    while i < |c.members|
      invariant 0 <= i <= |c.members|
      invariant Ascending(c.members[..i])
      invariant forall k :: 0 <= k < i ==> RolesValid(c.phase, c.members[k].roles)
      invariant oldCount == OldVoterCount(c.members[..i]) && newCount == NewVoterCount(c.members[..i])
    {
      var m := c.members[i];
      if m.nodeId == 0 || (i != 0 && c.members[i - 1].nodeId >= m.nodeId) || !RolesValid(c.phase, m.roles) {
        return EINVAL;
      }
      assert c.members[..i + 1][..i] == c.members[..i];
      AscendingExtends(c.members, i);
      if OldVoter(m.roles) { oldCount := oldCount + 1; }
      if NewVoter(m.roles) { newCount := newCount + 1; }
      i := i + 1;
    }
    assert c.members[..i] == c.members;
    return if oldCount != 0 && newCount != 0 then OK else EINVAL;
  }

  /** Checking each id against its predecessor is enough. */
  lemma AscendingExtends(ms: seq<Member>, i: nat)
    requires i < |ms| && Ascending(ms[..i]) && ms[i].nodeId != 0
    requires i == 0 || ms[i - 1].nodeId < ms[i].nodeId
    ensures Ascending(ms[..i + 1])
  {
    var before, after := ms[..i], ms[..i + 1];
    forall a, b | 0 <= a < b < |after| ensures after[a].nodeId < after[b].nodeId {
      assert before == after[..i];
      if b < i { assert before[a].nodeId < before[b].nodeId; }
      else if a < i - 1 { assert before[a].nodeId < before[i - 1].nodeId; }
    }
    forall a | 0 <= a < |after| ensures after[a].nodeId != 0 {
      if a < i { assert before[a].nodeId != 0; }
    }
  }

  // ---------------------------------------------------------------- words

  /** The n low-order base-256 digits of v, most significant first. */
  function BigEndian(v: nat, n: nat): (s: seq<Byte>)
    ensures |s| == n
  {
    if n == 0 then [] else BigEndian(v / 256, n - 1) + [v % 256]
  }

  /** The number a big-endian byte string denotes. */
  function FromBigEndian(s: seq<Byte>): (v: nat)
  {
    if s == [] then 0 else 256 * FromBigEndian(s[..|s| - 1]) + s[|s| - 1]
  }

  function Pow256(n: nat): (p: nat)
    ensures p > 0
  {
    if n == 0 then 1 else 256 * Pow256(n - 1)
  }

  lemma {:induction false} WordFitsEightBytes()
    ensures Pow256(8) == U64_MAX + 1
  {
    assert Pow256(4) == 256 * (256 * (256 * (256 * Pow256(0))));
    assert Pow256(8) == 256 * (256 * (256 * (256 * Pow256(4))));
  }

  lemma {:induction false} FromBigEndianBound(s: seq<Byte>)
    ensures FromBigEndian(s) < Pow256(|s|)
  {
    if s != [] { FromBigEndianBound(s[..|s| - 1]); }
  }

  /** Reading back a written word gives the word. */
  lemma {:induction false} BigEndianRoundTrip(v: nat, n: nat)
    requires v < Pow256(n)
    ensures FromBigEndian(BigEndian(v, n)) == v
  {
    if n > 0 {
      BigEndianRoundTrip(v / 256, n - 1);
      assert BigEndian(v, n)[..n - 1] == BigEndian(v / 256, n - 1);
    }
  }

  /** Every byte string is the big-endian form of the word it denotes. */
  lemma {:induction false} BigEndianCanonical(s: seq<Byte>)
    ensures BigEndian(FromBigEndian(s), |s|) == s
  {
    if s != [] {
      var front := s[..|s| - 1];
      BigEndianCanonical(front);
      assert FromBigEndian(s) / 256 == FromBigEndian(front);
      assert s == front + [s[|s| - 1]];
    }
  }

  /** tr_raft_conf_put_u64: writes eight bytes, low byte last. */
  method PutU64(output: array<Byte>, offset: nat, value: U64)
    requires offset + 8 <= output.Length
    modifies output
    ensures output[offset..offset + 8] == BigEndian(value, 8)
    ensures forall k :: 0 <= k < output.Length && !(offset <= k < offset + 8) ==> output[k] == old(output[k])
  {
    var i: nat, v: nat := 0, value;
    while i < 8
      invariant 0 <= i <= 8
      invariant BigEndian(value, 8) == BigEndian(v, 8 - i) + output[offset + 8 - i..offset + 8]
      invariant forall k :: 0 <= k < output.Length && !(offset <= k < offset + 8) ==> output[k] == old(output[k])
    {
      ghost var tail := output[offset + 8 - i..offset + 8];
      output[offset + 7 - i] := v % 256;
      assert output[offset + 7 - i..offset + 8] == [v % 256] + tail;
      v := v / 256;
      i := i + 1;
    }
  }

  /** tr_raft_conf_get_u64: reads eight bytes, high byte first. */
  method GetU64(input: seq<Byte>, offset: nat) returns (value: nat)
    requires offset + 8 <= |input|
    ensures value == FromBigEndian(input[offset..offset + 8]) && value <= U64_MAX
  {
    value := 0;
    var i := 0;
    while i < 8
      invariant 0 <= i <= 8
      invariant value == FromBigEndian(input[offset..offset + i])
    {
      assert input[offset..offset + i + 1][..i] == input[offset..offset + i];
      value := 256 * value + input[offset + i];
      i := i + 1;
    }
    FromBigEndianBound(input[offset..offset + 8]);
    WordFitsEightBytes();
  }

  // ---------------------------------------------------------------- codec

  function EncodeMember(m: Member): (s: seq<Byte>)
    ensures |s| == MEMBER_SIZE
  {
    BigEndian(m.nodeId, 8) + [m.roles]
  }

  function EncodeMembers(ms: seq<Member>): (s: seq<Byte>)
    ensures |s| == MEMBER_SIZE * |ms|
  {
    if ms == [] then [] else EncodeMembers(ms[..|ms| - 1]) + EncodeMember(ms[|ms| - 1])
  }

  function HeaderForm(c: Conf): (s: seq<Byte>)
    requires |c.members| < 256
    ensures |s| == HEADER_SIZE
  {
    MAGIC + [CODEC_VERSION, c.phase, |c.members|, 0] + BigEndian(c.transitionId, 8)
  }

  /** The byte layout the encoder produces for a valid configuration. */
  function EncodedForm(c: Conf): (s: seq<Byte>)
    requires |c.members| < 256
    ensures |s| == HEADER_SIZE + MEMBER_SIZE * |c.members|
  {
    HeaderForm(c) + EncodeMembers(c.members)
  }

  function DecodeWord(s: seq<Byte>, offset: nat): (v: U64)
    requires offset + 8 <= |s|
  {
    FromBigEndianBound(s[offset..offset + 8]);
    WordFitsEightBytes();
    FromBigEndian(s[offset..offset + 8])
  }

  function DecodeMembers(s: seq<Byte>, n: nat): (ms: seq<Member>)
    requires |s| >= HEADER_SIZE + MEMBER_SIZE * n
    ensures |ms| == n
  {
    if n == 0 then [] else
      var offset := HEADER_SIZE + MEMBER_SIZE * (n - 1);
      DecodeMembers(s, n - 1) + [Member(DecodeWord(s, offset), s[offset + 8])]
  }

  /** What the decoder accepts and the configuration it yields. */
  function Decoded(s: seq<Byte>): (r: Option<Conf>)
  {
    if |s| < HEADER_SIZE || s[..4] != MAGIC || s[4] != CODEC_VERSION || s[7] != 0 then None
    else if s[6] == 0 || s[6] > MAX_MEMBERS || |s| != HEADER_SIZE + MEMBER_SIZE * s[6] then None
    else
      var c := Conf(s[5], DecodeWord(s, 8), DecodeMembers(s, s[6]));
      if Valid(c) then Some(c) else None
  }

  /**
   tr_raft_conf_encode.  On success the first `length` bytes are the canonical
   form and later bytes are untouched; a short buffer reports the size needed
   and is left alone.
   */
  method Encode(c: Conf, output: array<Byte>) returns (status: Status, length: nat)
    modifies output
    ensures status == EINVAL <==> !Valid(c)
    ensures !Valid(c) ==> length == 0
    ensures Valid(c) ==> length == |EncodedForm(c)| && (status == OK <==> length <= output.Length)
    ensures status == OK || status == EINVAL || status == ENOSPC
    ensures status == OK ==> output[..] == EncodedForm(c) + old(output[length..])
    ensures status != OK ==> output[..] == old(output[..])
  {
    status := Validate(c);
    length := 0;
    if status != OK { return; }
    length := HEADER_SIZE + MEMBER_SIZE * |c.members|;
    if output.Length < length { return ENOSPC, length; }
    hide Valid;
    PutHeader(c, output);
    PutMembers(c.members, output);
    assert output[..] == output[..length] + output[length..];
  }

  /** The member loop, behind a header that is already in place. */
  method PutMembers(ms: seq<Member>, output: array<Byte>)
    requires HEADER_SIZE + MEMBER_SIZE * |ms| <= output.Length
    modifies output
    ensures output[..HEADER_SIZE + MEMBER_SIZE * |ms|] == old(output[..HEADER_SIZE]) + EncodeMembers(ms)
    ensures output[HEADER_SIZE + MEMBER_SIZE * |ms|..] == old(output[HEADER_SIZE + MEMBER_SIZE * |ms|..])
  {
    var i := 0;
    while i < |ms|
      invariant 0 <= i <= |ms|
      invariant output[..HEADER_SIZE + MEMBER_SIZE * i] == old(output[..HEADER_SIZE]) + EncodeMembers(ms[..i])
      invariant output[HEADER_SIZE + MEMBER_SIZE * i..] == old(output[HEADER_SIZE + MEMBER_SIZE * i..])
    {
      ghost var tail := output[HEADER_SIZE + MEMBER_SIZE * i..];
      PutMember(ms[i], output, HEADER_SIZE + MEMBER_SIZE * i);
      assert output[HEADER_SIZE + MEMBER_SIZE * (i + 1)..] == tail[MEMBER_SIZE..];
      assert ms[..i + 1][..i] == ms[..i];
      i := i + 1;
    }
    assert ms[..i] == ms;
  }

  method PutHeader(c: Conf, output: array<Byte>)
    requires |c.members| < 256 && HEADER_SIZE <= output.Length
    modifies output
    ensures output[..] == HeaderForm(c) + old(output[HEADER_SIZE..])
  {
    output[0], output[1], output[2], output[3] := 0x54, 0x52, 0x43, 0x46;
    output[4], output[5], output[6], output[7] := CODEC_VERSION, c.phase, |c.members|, 0;
    PutU64(output, 8, c.transitionId);
    assert output[..8] == MAGIC + [CODEC_VERSION, c.phase, |c.members|, 0];
    assert output[..] == output[..8] + output[8..16] + output[16..];
  }

  method PutMember(m: Member, output: array<Byte>, offset: nat)
    requires offset + MEMBER_SIZE <= output.Length
    modifies output
    ensures output[..offset + MEMBER_SIZE] == old(output[..offset]) + EncodeMember(m)
    ensures output[offset + MEMBER_SIZE..] == old(output[offset + MEMBER_SIZE..])
  {
    PutU64(output, offset, m.nodeId);
    output[offset + 8] := m.roles;
    assert output[..offset + 9] == output[..offset] + output[offset..offset + 8] + [output[offset + 8]];
  }

  /** tr_raft_conf_decode computes exactly Decoded. */
  method Decode(input: seq<Byte>) returns (r: Option<Conf>)
    ensures r == Decoded(input)
  {
    if |input| < HEADER_SIZE || input[..4] != MAGIC || input[4] != CODEC_VERSION || input[7] != 0 {
      return None;
    }
    var count := input[6];
    if count == 0 || count > MAX_MEMBERS || |input| != HEADER_SIZE + MEMBER_SIZE * count {
      return None;
    }
    var transition := GetU64(input, 8);
    var members: seq<Member> := [];
    var i: nat := 0;
    while i < count
      invariant 0 <= i <= count
      invariant members == DecodeMembers(input, i)
    {
      var id := GetU64(input, HEADER_SIZE + MEMBER_SIZE * i);
      members := members + [Member(id, input[HEADER_SIZE + MEMBER_SIZE * i + 8])];
      i := i + 1;
    }
    var c := Conf(input[5], transition, members);
    var status := Validate(c);
    r := if status == OK then Some(c) else None;
  }

  lemma {:induction false} DecodeEncodedMembers(s: seq<Byte>, ms: seq<Member>, n: nat)
    requires n <= |ms| && |s| == HEADER_SIZE + MEMBER_SIZE * |ms|
    requires s[HEADER_SIZE..HEADER_SIZE + MEMBER_SIZE * n] == EncodeMembers(ms[..n])
    ensures DecodeMembers(s, n) == ms[..n]
  {
    if n > 0 {
      hide BigEndian, FromBigEndian;
      var offset := HEADER_SIZE + MEMBER_SIZE * (n - 1);
      assert ms[..n][..n - 1] == ms[..n - 1];
      LastMemberBytes(s, offset, EncodeMembers(ms[..n - 1]), ms[n - 1]);
      DecodeEncodedMembers(s, ms, n - 1);
      WordFitsEightBytes();
      BigEndianRoundTrip(ms[n - 1].nodeId, 8);
      assert ms[..n] == ms[..n - 1] + [ms[n - 1]];
    }
  }

  lemma LastMemberBytes(s: seq<Byte>, offset: nat, before: seq<Byte>, m: Member)
    requires HEADER_SIZE <= offset && offset + 9 <= |s| && |before| == offset - HEADER_SIZE
    requires s[HEADER_SIZE..offset + 9] == before + EncodeMember(m)
    ensures s[HEADER_SIZE..offset] == before && s[offset..offset + 8] == BigEndian(m.nodeId, 8)
    ensures s[offset + 8] == m.roles
  {
    hide BigEndian;
    var body := s[HEADER_SIZE..offset + 9];
    assert s[HEADER_SIZE..offset] == body[..|before|];
    assert s[offset..offset + 9] == body[|before|..] == EncodeMember(m);
    assert s[offset..offset + 8] == s[offset..offset + 9][..8];
    assert s[offset + 8] == s[offset..offset + 9][8];
  }

  /** decode(encode(c)) == c for every valid configuration. */
  lemma DecodeEncode(c: Conf)
    requires Valid(c)
    ensures Decoded(EncodedForm(c)) == Some(c)
  {
    var s := EncodedForm(c);
    assert s[8..16] == BigEndian(c.transitionId, 8);
    assert s[HEADER_SIZE..] == EncodeMembers(c.members);
    assert c.members[..|c.members|] == c.members;
    assert s[HEADER_SIZE..HEADER_SIZE + MEMBER_SIZE * |c.members|] == s[HEADER_SIZE..];
    DecodeEncodedMembers(s, c.members, |c.members|);
    WordFitsEightBytes();
    BigEndianRoundTrip(c.transitionId, 8);
    assert s[..4] == MAGIC;
  }

  lemma {:induction false} EncodeDecodedMembers(s: seq<Byte>, n: nat)
    requires |s| >= HEADER_SIZE + MEMBER_SIZE * n
    ensures EncodeMembers(DecodeMembers(s, n)) == s[HEADER_SIZE..HEADER_SIZE + MEMBER_SIZE * n]
  {
    if n > 0 {
      var offset := HEADER_SIZE + MEMBER_SIZE * (n - 1);
      EncodeDecodedMembers(s, n - 1);
      var ms := DecodeMembers(s, n);
      assert ms[..n - 1] == DecodeMembers(s, n - 1);
      BigEndianCanonical(s[offset..offset + 8]);
      assert EncodeMember(ms[n - 1]) == s[offset..offset + 9];
      assert s[HEADER_SIZE..offset] + s[offset..offset + 9] == s[HEADER_SIZE..offset + 9];
    }
  }

  /** The byte form is canonical: any accepted string is the encoding of its result. */
  lemma EncodeDecode(s: seq<Byte>)
    requires Decoded(s).Some?
    ensures Valid(Decoded(s).value) && EncodedForm(Decoded(s).value) == s
  {
    var c := Decoded(s).value;
    EncodeDecodedMembers(s, s[6]);
    BigEndianCanonical(s[8..16]);
    assert s == s[..4] + [s[4], s[5], s[6], s[7]] + s[8..16] + s[16..];
  }

  // ------------------------------------------------------- log entries

  /** tr_raft_conf_entry_is_configuration */
  predicate IsConfigurationEntry(e: Entry) { e.command == 0 }

  /** tr_raft_conf_entry_decode on a configuration entry. */
  function EntryConf(e: Entry): (r: Option<Conf>)
  {
    if !IsConfigurationEntry(e) || e.index == 0 || e.term == 0 || |e.data| > MAX_ENTRY_BYTES then None
    else Decoded(e.data)
  }

  /** A configuration entry decodes to the configuration it was built from. */
  lemma EntryRoundTrip(c: Conf, index: nat, term: nat)
    requires Valid(c) && index > 0 && term > 0
    ensures EntryConf(Entry(index, term, 0, EncodedForm(c))) == Some(c)
  {
    DecodeEncode(c);
  }
}
