/** The k-way sorted union of member ids (src/core/raft_peer_set.c). */
module PeerSet {
  import opened RaftTypes
  import opened Configuration
  import opened Membership

  const MAX_SOURCES: nat := 3

  /** Everyone named by some configuration, except the merge's sentinel id. */
  ghost function Everyone(cs: seq<Conf>): (s: set<U64>)
  {
    set i, k | 0 <= i < |cs| && 0 <= k < |cs[i].members| && cs[i].members[k].nodeId != U64_MAX ::
      cs[i].members[k].nodeId
  }

  /** What tr_raft_peer_set_membership_valid accepts. */
  predicate Mergeable(c: Conf)
  {
    0 < |c.members| <= MAX_MEMBERS && Ascending(c.members)
  }

  method IsMergeable(c: Conf) returns (ok: bool)
    ensures ok == Mergeable(c)
  {
    if |c.members| == 0 || |c.members| > MAX_MEMBERS { return false; }
    for i := 0 to |c.members|
      invariant Ascending(c.members[..i])
    {
      var m := c.members[i];
      if m.nodeId == 0 || (i != 0 && c.members[i - 1].nodeId >= m.nodeId) { return false; }
      AscendingExtends(c.members, i);
    }
    assert c.members[..|c.members|] == c.members;
    return true;
  }

  /** Every cursor has passed exactly the ids below f. */
  ghost predicate Cursors(cs: seq<Conf>, ps: seq<nat>, f: nat)
  {
    |ps| == |cs| && forall i :: 0 <= i < |cs| ==> SplitAt(IdsOf(cs[i].members), ps[i], f)
  }

  /** The least id at or after the cursors, and whether there is one below the sentinel. */
  method Least(cs: seq<Conf>, positions: array<nat>, ghost f: nat) returns (next: nat, available: bool)
    requires positions.Length == |cs| && Cursors(cs, positions[..], f) && forall c :: c in cs ==> Mergeable(c)
    ensures available <==> next < U64_MAX
    ensures available ==> next in Everyone(cs) && f <= next && next != 0
    ensures forall x :: x in Everyone(cs) && f <= x ==> available && next <= x
  {
    next, available := U64_MAX, false;
    for i := 0 to |cs|
      invariant (available <==> next < U64_MAX) && next <= U64_MAX
      invariant available ==> next in Everyone(cs) && f <= next && next != 0
      invariant forall j :: 0 <= j < i && positions[j] < |cs[j].members| ==> next <= cs[j].members[positions[j]].nodeId
    {
      var ms, p := cs[i].members, positions[i];
      assert SplitAt(IdsOf(ms), positions[..][i], f) && Mergeable(cs[i]);
      if p < |ms| && ms[p].nodeId < next {
        next, available := ms[p].nodeId, true;
      }
    }
    forall x | x in Everyone(cs) && f <= x ensures available && next <= x {
      var i, k :| 0 <= i < |cs| && 0 <= k < |cs[i].members| && cs[i].members[k].nodeId == x && x != U64_MAX;
      assert Mergeable(cs[i]);
      assert SplitAt(IdsOf(cs[i].members), positions[..][i], f);
      assert IdsOf(cs[i].members)[k] == x;
    }
  }

  /** Every cursor standing at `next` moves on. */
  method Advance(cs: seq<Conf>, positions: array<nat>, ghost f: nat, next: nat)
    requires positions.Length == |cs| && Cursors(cs, positions[..], f) && (forall c :: c in cs ==> Mergeable(c))
    requires f <= next < U64_MAX && forall x :: x in Everyone(cs) && f <= x ==> next <= x
    modifies positions
    ensures Cursors(cs, positions[..], next + 1)
  {
    for i := 0 to |cs|
      invariant forall j :: 0 <= j < i ==> SplitAt(IdsOf(cs[j].members), positions[j], next + 1)
      invariant forall j :: i <= j < |cs| ==> SplitAt(IdsOf(cs[j].members), positions[j], f)
    {
      var ms, p := cs[i].members, positions[i];
      assert Mergeable(cs[i]);
      if p < |ms| && ms[p].nodeId != U64_MAX { assert ms[p].nodeId in Everyone(cs); }
      SplitStep(IdsOf(ms), p, f, next);
      if p < |ms| && ms[p].nodeId == next { positions[i] := p + 1; }
    }
  }

  /** The merge loop; too many ids are reported as no space. */
  method Merge(cs: seq<Conf>) returns (status: Status, ids: seq<U64>)
    requires forall c :: c in cs ==> Mergeable(c)
    ensures status == OK <==> |Everyone(cs)| <= MAX_MEMBERS
    ensures status == OK ==> Sorted(ids) && IdSet(ids) == Everyone(cs)
  {
    hide Everyone, IdSet;
    var positions := new nat[|cs|](_ => 0);
    ghost var f: nat := 0;
    ghost var all := Everyone(cs);
    ids := [];
    NoIds(all);
    while true
      invariant f <= U64_MAX && Cursors(cs, positions[..], f)
      invariant Sorted(ids) && IdSet(ids) == Below(all, f) && |ids| == |Below(all, f)| && |ids| <= MAX_MEMBERS
      decreases U64_MAX - f
    {
      var next, available := Least(cs, positions, f);
      if !available {
        assert Below(all, f) == all;
        return OK, ids;
      }
      BelowStep(all, f, next);
      BelowLeast(all, f, next);
      if |ids| == MAX_MEMBERS {
        SubsetCount(Below(all, next + 1), all);
        return ENOSPC, [];
      }
      PushId(ids, next);
      ids := ids + [next];
      Advance(cs, positions, f, next);
      f := next + 1;
    }
  }

  lemma NoIds(all: set<U64>)
    ensures IdSet([]) == Below(all, 0) == {}
  {
  }

  /** tr_raft_peer_set_build */
  method Build(cs: seq<Conf>) returns (status: Status, ids: seq<U64>)
    ensures status == OK <==>
      0 < |cs| <= MAX_SOURCES && (forall c :: c in cs ==> Mergeable(c)) && |Everyone(cs)| <= MAX_MEMBERS
    ensures status == OK ==> Sorted(ids) && IdSet(ids) == Everyone(cs)
  {
    hide Everyone;
    if |cs| == 0 || |cs| > MAX_SOURCES { return EINVAL, []; }
    for i := 0 to |cs|
      invariant forall j :: 0 <= j < i ==> Mergeable(cs[j])
    {
      var ok := IsMergeable(cs[i]);
      if !ok { return EINVAL, []; }
    }
    status, ids := Merge(cs);
  }

  lemma BelowLeast(s: set<U64>, f: nat, next: nat)
    requires f <= next <= U64_MAX && next in s && forall x :: x in s && f <= x ==> next <= x
    ensures Below(s, next + 1) == Below(s, f) + {next}
  {
  }

  lemma PushId(ids: seq<U64>, x: U64)
    requires Sorted(ids) && x != 0 && forall y :: y in IdSet(ids) ==> y < x
    ensures Sorted(ids + [x]) && IdSet(ids + [x]) == IdSet(ids) + {x}
  {
    assert forall i :: 0 <= i < |ids| ==> ids[i] in IdSet(ids);
  }

  /** tr_raft_peer_set_index: the search stops at the first larger id. */
  method Index(ids: seq<U64>, x: U64) returns (i: int)
    requires Sorted(ids)
    ensures i == -1 <==> x !in ids
    ensures i != -1 ==> 0 <= i < |ids| && ids[i] == x
  {
    if x == 0 { return -1; }
    for k := 0 to |ids|
      invariant forall j :: 0 <= j < k ==> ids[j] != x
    {
      if ids[k] == x { return k; }
      if ids[k] > x { return -1; }
    }
    return -1;
  }
}
