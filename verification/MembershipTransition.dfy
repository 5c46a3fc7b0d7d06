/**
 The membership transition machine (src/core/raft_membership_transition.c):
 configurations staged at log indices, and the commit clamp that activates them
 one at a time.
 */
module MembershipTransition {
  import opened RaftTypes
  import opened Configuration
  import opened Membership
  import opened PeerSet

  const MAX_PENDING: nat := 2

  datatype State = State(committed: Conf, pending: seq<Conf>, indices: seq<nat>)

  /** The newest configuration staged so far. */
  function Newest(s: State): (c: Conf)
  {
    if s.pending == [] then s.committed else s.pending[|s.pending| - 1]
  }

  /** tr_raft_membership_transition_validate_next */
  ghost predicate MayFollow(s: State, c: Conf)
  {
    && Valid(c) && |s.pending| + 2 <= MAX_SOURCES
    && (forall d :: d in [s.committed] + s.pending + [c] ==> Mergeable(d))
    && |Everyone([s.committed] + s.pending + [c])| <= MAX_MEMBERS
    && if c.phase == PHASE_JOINT
       then s.pending == [] && s.committed.phase == PHASE_FINAL &&
         OldVoterSet(c.members) == OldVoterSet(s.committed.members)
       else Newest(s).phase == PHASE_JOINT && Valid(Newest(s)) && c == FinalConf(Newest(s))
  }

  /** Position of a configuration staged at a log index, or the number of pending ones. */
  function PendingAt(indices: seq<nat>, index: nat): (k: nat)
    ensures k <= |indices|
    ensures k < |indices| ==> indices[k] == index
    ensures forall j :: 0 <= j < k ==> indices[j] != index
  {
    if indices == [] then 0 else if indices[0] == index then 0 else 1 + PendingAt(indices[1..], index)
  }

  /** tr_raft_membership_transition_stage: staging the same configuration twice is harmless. */
  ghost predicate Stageable(s: State, c: Conf, index: nat)
    requires |s.pending| == |s.indices|
  {
    && index != 0
    && var k := PendingAt(s.indices, index);
       if k < |s.indices| then s.pending[k] == c
       else
         && |s.pending| < MAX_PENDING && (s.pending != [] ==> s.indices[|s.indices| - 1] < index)
         && MayFollow(s, c)
  }

  ghost function Staged(s: State, c: Conf, index: nat): (s': State)
    requires |s.pending| == |s.indices|
  {
    if Stageable(s, c, index) && PendingAt(s.indices, index) == |s.indices|
    then State(s.committed, s.pending + [c], s.indices + [index]) else s
  }

  /** tr_raft_membership_transition_commit_limit */
  function CommitLimit(s: State, candidate: nat): (limit: nat)
  {
    if s.indices == [] || candidate < s.indices[0] then candidate else s.indices[0]
  }

  /** tr_raft_membership_transition_apply */
  function Applied(s: State, commit: nat): (s': State)
    requires |s.pending| == |s.indices|
    ensures |s'.pending| == |s'.indices|
    decreases |s.pending|
  {
    if s.pending == [] || s.indices[0] > commit then s
    else Applied(State(s.pending[0], s.pending[1..], s.indices[1..]), commit)
  }

  // ------------------------------------------------------------ chain safety

  /** The legal shapes: final with none, joint, or joint then final pending; joint with none or final pending. */
  ghost predicate Legal(s: State)
  {
    && Valid(s.committed) && |s.pending| == |s.indices| && |s.pending| <= MAX_PENDING
    && (forall i :: 0 <= i < |s.pending| ==> Valid(s.pending[i]))
    && (forall i, j :: 0 <= i < j < |s.indices| ==> s.indices[i] < s.indices[j])
    && (|s.pending| >= 1 ==> s.pending[0].phase != s.committed.phase && Successor(s.committed, s.pending[0]))
    && (|s.pending| == 2 ==>
         s.committed.phase == PHASE_FINAL && s.pending[1].phase == PHASE_FINAL && Successor(s.pending[0], s.pending[1]))
  }

  lemma StageKeepsLegal(s: State, c: Conf, index: nat)
    requires Legal(s)
    ensures Legal(Staged(s, c, index)) && Staged(s, c, index).committed == s.committed
  {
  }

  /** A clamped commit activates at most one configuration, the first pending one. */
  lemma ClampAppliesOne(s: State, candidate: nat)
    requires Legal(s)
    ensures var s' := Applied(s, CommitLimit(s, candidate));
      && Legal(s')
      && (if s.indices != [] && s.indices[0] <= candidate
          then s' == State(s.pending[0], s.pending[1..], s.indices[1..]) && Successor(s.committed, s'.committed)
          else s' == s)
  {
    if s.indices != [] && s.indices[0] <= candidate {
      var s1 := State(s.pending[0], s.pending[1..], s.indices[1..]);
      assert Applied(s1, s.indices[0]) == s1;
    }
  }

  /** The configurations that an apply makes the committed one, in turn. */
  function Activated(s: State, commit: nat): (cs: seq<Conf>)
    requires |s.pending| == |s.indices|
    decreases |s.pending|
  {
    if s.pending == [] || s.indices[0] > commit then []
    else [s.pending[0]] + Activated(State(s.pending[0], s.pending[1..], s.indices[1..]), commit)
  }

  /** Valid configurations, each the successor of the one before. */
  ghost predicate Chained(cs: seq<Conf>)
  {
    && (forall i :: 0 <= i < |cs| ==> Valid(cs[i]))
    && (forall i :: 0 < i < |cs| ==> Successor(cs[i - 1], cs[i]))
  }

  /** Applying up to any index, clamped or not, keeps the shape and passes only successors. */
  lemma {:induction false} ApplyKeepsLegal(s: State, commit: nat)
    requires Legal(s)
    ensures Legal(Applied(s, commit))
    ensures var cs := [s.committed] + Activated(s, commit); Chained(cs) && cs[|cs| - 1] == Applied(s, commit).committed
    decreases |s.pending|
  {
    hide Successor, Valid;
    if s.pending != [] && s.indices[0] <= commit {
      var s1 := State(s.pending[0], s.pending[1..], s.indices[1..]);
      ApplyKeepsLegal(s1, commit);
      var rest := [s1.committed] + Activated(s1, commit);
      assert [s.committed] + Activated(s, commit) == [s.committed] + rest;
    }
  }

  /** A rebuild starts over with nothing pending. */
  datatype Op = StageOp(conf: Conf, index: nat) | CommitOp(candidate: nat) | ApplyOp(commit: nat) | RebuildOp

  ghost function Do(s: State, op: Op): (s': State)
    requires |s.pending| == |s.indices|
    ensures |s'.pending| == |s'.indices|
  {
    match op
    case StageOp(c, i) => Staged(s, c, i)
    case CommitOp(k) => Applied(s, CommitLimit(s, k))
    case ApplyOp(k) => Applied(s, k)
    case RebuildOp => State(s.committed, [], [])
  }

  function Adopted(s: State, op: Op): (cs: seq<Conf>)
    requires |s.pending| == |s.indices|
  {
    match op
    case CommitOp(k) => Activated(s, CommitLimit(s, k))
    case ApplyOp(k) => Activated(s, k)
    case _ => []
  }

  /** States joined by stage, clamped commit, apply and rebuild calls. */
  ghost predicate IsHistory(ss: seq<State>, ops: seq<Op>)
  {
    && |ss| == |ops| + 1 && Legal(ss[0])
    && forall i :: 0 <= i < |ops| ==> |ss[i].pending| == |ss[i].indices| && ss[i + 1] == Do(ss[i], ops[i])
  }

  /** Every configuration committed in the first n calls, in turn. */
  ghost function Adoptions(ss: seq<State>, ops: seq<Op>, n: nat): (cs: seq<Conf>)
    requires IsHistory(ss, ops) && n <= |ops|
    ensures cs != []
  {
    if n == 0 then [ss[0].committed] else Adoptions(ss, ops, n - 1) + Adopted(ss[n - 1], ops[n - 1])
  }

  lemma DoKeepsLegal(s: State, op: Op)
    requires Legal(s)
    ensures |s.pending| == |s.indices| && Legal(Do(s, op))
    ensures var cs := [s.committed] + Adopted(s, op); Chained(cs) && cs[|cs| - 1] == Do(s, op).committed
  {
    hide MayFollow, Successor, Valid;
    match op
    case StageOp(c, k) => StageKeepsLegal(s, c, k);
    case CommitOp(k) => ApplyKeepsLegal(s, CommitLimit(s, k));
    case ApplyOp(k) => ApplyKeepsLegal(s, k);
    case RebuildOp =>
  }

  lemma ChainedJoin(a: seq<Conf>, b: seq<Conf>)
    requires a != [] && Chained(a) && Chained([a[|a| - 1]] + b)
    ensures Chained(a + b) && (a + b)[|a + b| - 1] == ([a[|a| - 1]] + b)[|b|]
  {
    hide Successor, Valid;
    var c, d := [a[|a| - 1]] + b, a + b;
    forall i | 0 <= i < |d| ensures d[i] == if i < |a| then a[i] else c[i - |a| + 1] {
    }
    forall i | 0 < i < |d| ensures Successor(d[i - 1], d[i]) {
      if i < |a| { assert Successor(a[i - 1], a[i]); } else { assert Successor(c[i - |a|], c[i - |a| + 1]); }
    }
  }

  /**
   Every state of a history is legal, and the configurations committed so far
   form a chain that ends in the current one.
   */
  lemma {:induction false} AlwaysLegal(ss: seq<State>, ops: seq<Op>, n: nat)
    requires IsHistory(ss, ops) && n <= |ops|
    ensures Legal(ss[n])
    ensures var cs := Adoptions(ss, ops, n); Chained(cs) && cs[|cs| - 1] == ss[n].committed
    decreases n
  {
    hide Legal, Chained;
    if n > 0 {
      AlwaysLegal(ss, ops, n - 1);
      DoKeepsLegal(ss[n - 1], ops[n - 1]);
      ChainedJoin(Adoptions(ss, ops, n - 1), Adopted(ss[n - 1], ops[n - 1]));
    } else {
      LegalStart(ss[0]);
    }
  }

  lemma LegalStart(s: State)
    requires Legal(s)
    ensures Chained([s.committed])
  {
  }

  lemma LegalLengths(s: State)
    requires Legal(s)
    ensures |s.pending| == |s.indices| && Valid(s.committed)
  {
  }

  /**
   Membership chain safety: through any sequence of stage, commit, apply and
   rebuild calls, every configuration that becomes the committed one has
   overlapping quorums with the one committed just before it, also when one
   call passes several.
   */
  lemma ChainSafe(ss: seq<State>, ops: seq<Op>, i: nat, a: set<U64>, b: set<U64>)
    requires IsHistory(ss, ops) && i + 1 < |Adoptions(ss, ops, |ops|)|
    requires var cs := Adoptions(ss, ops, |ops|); Quorum(cs[i].members, a) && Quorum(cs[i + 1].members, b)
    ensures a * b != {}
  {
    hide Legal, IsHistory, Quorum, Successor;
    AlwaysLegal(ss, ops, |ops|);
    var cs := Adoptions(ss, ops, |ops|);
    assert Successor(cs[i + 1 - 1], cs[i + 1]);
    QuorumsOverlap(cs[i], cs[i + 1], a, b);
  }

  // ------------------------------------------------------------ old voters

  function OldIds(ms: seq<Member>): (ids: seq<U64>)
  {
    if ms == [] then []
    else OldIds(ms[..|ms| - 1]) + if OldVoter(ms[|ms| - 1].roles) then [ms[|ms| - 1].nodeId] else []
  }

  lemma {:induction false} OldIdsShape(ms: seq<Member>)
    requires Ascending(ms)
    ensures Sorted(OldIds(ms)) && IdSet(OldIds(ms)) == OldVoterSet(ms)
    ensures forall i :: 0 <= i < |OldIds(ms)| ==> |ms| > 0 && OldIds(ms)[i] <= ms[|ms| - 1].nodeId
  {
    hide OldVoter;
    if ms != [] {
      var front, m := ms[..|ms| - 1], ms[|ms| - 1];
      AscendingFront(ms);
      OldIdsShape(front);
      OldVoterStep(ms, |ms| - 1);
      assert ms[..|ms|] == ms;
      var ids := OldIds(front);
      assert forall i :: 0 <= i < |ids| ==> ids[i] < m.nodeId;
      PushId(ids, m.nodeId);
    } else {
      VotersEmpty();
    }
  }

  /** Two sorted lists of the same ids are equal. */
  lemma {:induction false} SortedUnique(a: seq<U64>, b: seq<U64>)
    requires Sorted(a) && Sorted(b) && IdSet(a) == IdSet(b)
    ensures a == b
    decreases |a|
  {
    assert a != [] ==> a[|a| - 1] in IdSet(a);
    assert b != [] ==> b[|b| - 1] in IdSet(b);
    if a != [] && b != [] {
      var x, y := a[|a| - 1], b[|b| - 1];
      assert x in b && y in a;
      assert x == y;
      var a0, b0 := a[..|a| - 1], b[..|b| - 1];
      assert IdSet(a0) == IdSet(a) - {x};
      assert IdSet(b0) == IdSet(b) - {x};
      SortedUnique(a0, b0);
    }
  }

  lemma {:induction false} OldIdsFrom(ms: seq<Member>, k: nat)
    requires k < |ms|
    ensures OldIds(ms[..k + 1]) == OldIds(ms[..k]) + if OldVoter(ms[k].roles) then [ms[k].nodeId] else []
  {
    assert ms[..k + 1][..k] == ms[..k];
  }

  lemma {:induction false} OldIdsPrefix(ms: seq<Member>, k: nat, j: nat)
    requires k <= j <= |ms|
    ensures OldIds(ms[..k]) <= OldIds(ms[..j])
    decreases j
  {
    if k < j {
      OldIdsPrefix(ms, k, j - 1);
      OldIdsFrom(ms, j - 1);
    }
  }

  /** The next old voter at or after a position. */
  method NextOldVoter(ms: seq<Member>, from: nat) returns (k: nat)
    requires from <= |ms|
    ensures from <= k <= |ms| && OldIds(ms[..k]) == OldIds(ms[..from])
    ensures k < |ms| ==> OldVoter(ms[k].roles)
  {
    k := from;
    while k < |ms| && !OldVoter(ms[k].roles)
      invariant from <= k <= |ms| && OldIds(ms[..k]) == OldIds(ms[..from])
    {
      OldIdsFrom(ms, k);
      k := k + 1;
    }
  }

  lemma OldIdAt(ms: seq<Member>, i: nat)
    requires i <= |ms| && (i < |ms| ==> OldVoter(ms[i].roles))
    ensures var p := |OldIds(ms[..i])|;
      if i < |ms| then p < |OldIds(ms)| && OldIds(ms)[p] == ms[i].nodeId else p == |OldIds(ms)|
  {
    hide OldIds, OldVoter;
    assert ms[..|ms|] == ms;
    if i < |ms| {
      OldIdsFrom(ms, i);
      OldIdsPrefix(ms, i + 1, |ms|);
    }
  }

  lemma DiffersAt(a: seq<Member>, b: seq<Member>, i: nat, j: nat)
    requires i <= |a| && j <= |b| && OldIds(a[..i]) == OldIds(b[..j])
    requires i < |a| ==> OldVoter(a[i].roles)
    requires j < |b| ==> OldVoter(b[j].roles)
    requires if i < |a| && j < |b| then a[i].nodeId != b[j].nodeId else i < |a| || j < |b|
    ensures OldIds(a) != OldIds(b)
  {
    hide OldIds, OldVoter;
    OldIdAt(a, i);
    OldIdAt(b, j);
  }

  /** tr_raft_joint_old_voters_match, with one cursor in each configuration. */
  method OldVotersMatch(a: seq<Member>, b: seq<Member>) returns (same: bool)
    requires Ascending(a) && Ascending(b)
    ensures same == (OldVoterSet(b) == OldVoterSet(a))
  {
    hide OldVoterSet, OldIds, OldVoter;
    OldIdsShape(a);
    OldIdsShape(b);
    if OldVoterSet(a) == OldVoterSet(b) { SortedUnique(OldIds(a), OldIds(b)); }
    assert a[..0] == b[..0];
    var i, j := 0, 0;
    while i < |a| || j < |b|
      invariant i <= |a| && j <= |b| && OldIds(a[..i]) == OldIds(b[..j])
      decreases |a| - i + |b| - j
    {
      i := NextOldVoter(a, i);
      j := NextOldVoter(b, j);
      if i == |a| || j == |b| {
        if i < |a| || j < |b| { DiffersAt(a, b, i, j); }
        assert a[..|a|] == a && b[..|b|] == b;
        return i == |a| && j == |b|;
      }
      if a[i].nodeId != b[j].nodeId {
        DiffersAt(a, b, i, j);
        return false;
      }
      OldIdsFrom(a, i);
      OldIdsFrom(b, j);
      i, j := i + 1, j + 1;
    }
    assert a[..|a|] == a && b[..|b|] == b;
    return true;
  }

  /** tr_raft_membership_transition_t */
  class Transition {
    var committed: Conf
    var pending: seq<Conf>
    var indices: seq<nat>

    ghost function Now(): (s: State)
      reads this
    {
      State(committed, pending, indices)
    }

    ghost predicate Valid()
      reads this
    {
      Legal(Now())
    }

    constructor (configuration: Conf)
      requires Configuration.Valid(configuration)
      ensures Valid() && Now() == State(configuration, [], [])
    {
      committed, pending, indices := configuration, [], [];
    }

    /** tr_raft_membership_transition_validate_next */
    method Follows(c: Conf) returns (status: Status)
      requires Valid()
      ensures status == OK <==> MayFollow(Now(), c)
    {
      hide Everyone, OldVoterSet;
      status := Validate(c);
      if status != OK { return EPROTO; }
      if |pending| > MAX_SOURCES - 2 { return EPROTO; }
      var ids;
      status, ids := Build([committed] + pending + [c]);
      if status != OK { return EPROTO; }
      var base := if pending == [] then committed else pending[|pending| - 1];
      if c.phase == PHASE_JOINT {
        if pending != [] || committed.phase != PHASE_FINAL { return EPROTO; }
        var same := OldVotersMatch(committed.members, c.members);
        return if same then OK else EPROTO;
      }
      if base.phase != PHASE_JOINT { return EPROTO; }
      var expected;
      status, expected := Final(base);
      if status != OK || expected != c { return EPROTO; }
      return OK;
    }

    /** tr_raft_membership_transition_stage */
    method Stage(c: Conf, index: nat) returns (status: Status)
      requires Valid()
      modifies this
      ensures Valid() && Now() == Staged(old(Now()), c, index)
      ensures status == OK <==> Stageable(old(Now()), c, index)
    {
      hide MayFollow, Legal;
      LegalLengths(Now());
      StageKeepsLegal(Now(), c, index);
      if index == 0 { return EINVAL; }
      var k := 0;
      while k < |pending|
        invariant k <= |pending| == |indices| && Now() == old(Now())
        invariant forall j :: 0 <= j < k ==> indices[j] != index
      {
        if indices[k] == index {
          PendingFound(indices, index, k);
          return if pending[k] == c then OK else EPROTO;
        }
        k := k + 1;
      }
      if |pending| == MAX_PENDING || (|pending| != 0 && indices[|pending| - 1] >= index) { return EPROTO; }
      status := Follows(c);
      if status != OK { return; }
      pending, indices := pending + [c], indices + [index];
    }

    /** tr_raft_membership_transition_commit_limit */
    function Limit(candidate: nat): (limit: nat)
      reads this
      requires |pending| == |indices|
      ensures limit <= candidate && (limit == candidate || (pending != [] && limit == indices[0]))
      ensures pending != [] ==> limit <= indices[0]
    {
      if |pending| == 0 || candidate < indices[0] then candidate else indices[0]
    }

    /** tr_raft_membership_transition_apply */
    method Apply(commit: nat)
      requires Valid()
      modifies this
      ensures Valid() && Now() == Applied(old(Now()), commit)
      ensures pending != [] ==> indices[0] > commit
    {
      hide Legal;
      LegalLengths(Now());
      ApplyKeepsLegal(Now(), commit);
      while pending != [] && indices[0] <= commit
        invariant |pending| == |indices| && Applied(Now(), commit) == Applied(old(Now()), commit)
        decreases |pending|
      {
        committed := pending[0];
        pending, indices := pending[1..], indices[1..];
      }
    }

    /** A commit step as the core performs it. */
    method Commit(candidate: nat) returns (limit: nat)
      requires Valid()
      modifies this
      ensures Valid() && limit <= candidate && Now() == Do(old(Now()), CommitOp(candidate))
      ensures committed == old(committed) || Successor(old(committed), committed)
    {
      hide Legal;
      LegalLengths(Now());
      ClampAppliesOne(Now(), candidate);
      limit := Limit(candidate);
      Apply(limit);
    }

    predicate NeedsFinal()
      reads this
    {
      committed.phase == PHASE_JOINT && pending == []
    }

    /** tr_raft_membership_transition_propose; the sentinel id aside, what it builds can be staged. */
    method Propose(voters: seq<U64>, learners: seq<U64>, transitionId: U64) returns (status: Status, c: Conf)
      requires Valid()
      ensures status == EBUSY <==> committed.phase != PHASE_FINAL || pending != []
      ensures status == OK <==>
        && committed.phase == PHASE_FINAL && pending == [] && transitionId != 0 && ValidSets(voters, learners)
        && Representable(committed, voters) && StableValid(committed)
        && |IdSet(IdsOf(committed.members)) + IdSet(voters) + IdSet(learners)| <= MAX_MEMBERS
      ensures status == OK ==>
        && Configuration.Valid(c) && c.phase == PHASE_JOINT && c.transitionId == transitionId
        && forall x :: RolesOf(c.members, x) == JointRoles(committed.members, voters, learners, x)
      ensures status == OK ==> forall index :: index > 0 ==>
        (Stageable(Now(), c, index) <==> U64_MAX !in OldVoterSet(committed.members))
    {
      if committed.phase != PHASE_FINAL || pending != [] { return EBUSY, committed; }
      status, c := Joint(committed, voters, learners, transitionId);
      if status == OK { JointFollows(Now(), voters, learners, c); }
    }

    /** What the leader appends next can always be staged. */
    method NextFinal() returns (status: Status, c: Conf)
      requires Valid()
      ensures status == OK <==> NeedsFinal()
      ensures status == OK ==> Configuration.Valid(c) && c == FinalConf(committed)
      ensures status == OK ==> forall index :: index > 0 ==> Stageable(Now(), c, index)
    {
      if NeedsFinal() { FinalFollows(Now()); }
      if !(committed.phase == PHASE_JOINT && pending == []) { return EINVAL, committed; }
      status, c := Final(committed);
    }
  }

  /** Everyone named by two configurations, one of which names nobody outside a set. */
  lemma EveryoneWithin(c: Conf, d: Conf, all: set<U64>)
    requires IdSet(IdsOf(c.members)) <= all && IdSet(IdsOf(d.members)) <= all
    ensures |Everyone([c, d])| <= |all|
  {
    forall x | x in Everyone([c, d]) ensures x in all {
      var i, k :| 0 <= i < 2 && 0 <= k < |[c, d][i].members| && [c, d][i].members[k].nodeId == x;
      assert IdsOf([c, d][i].members)[k] == x;
    }
    SubsetCount(Everyone([c, d]), all);
  }

  /** The joint configuration built for a stable one may follow it, exactly when no current voter is the sentinel. */
  lemma JointFollows(s: State, voters: seq<U64>, learners: seq<U64>, joint: Conf)
    requires Legal(s) && s.pending == [] && StableValid(s.committed) && ValidSets(voters, learners)
    requires Valid(joint) && joint.phase == PHASE_JOINT
    requires |IdSet(IdsOf(s.committed.members)) + IdSet(voters) + IdSet(learners)| <= MAX_MEMBERS
    requires forall x :: RolesOf(joint.members, x) == JointRoles(s.committed.members, voters, learners, x)
    ensures forall index :: index > 0 ==> (Stageable(s, joint, index) <==> U64_MAX !in OldVoterSet(s.committed.members))
  {
    hide OldVoterSet, Everyone, JointRoles, RolesOf, IdSet;
    JointOldVoters(s.committed, voters, learners, joint);
    JointIds(s.committed, voters, learners, joint.members);
    EveryoneWithin(s.committed, joint, IdSet(IdsOf(s.committed.members)) + IdSet(voters) + IdSet(learners));
    assert [s.committed] + s.pending + [joint] == [s.committed, joint];
  }

  /** The final configuration of a committed joint one may follow it. */
  lemma FinalFollows(s: State)
    requires Legal(s) && s.committed.phase == PHASE_JOINT && s.pending == []
    ensures forall index :: index > 0 ==> Stageable(s, FinalConf(s.committed), index)
  {
    hide OldVoterSet, Everyone, RolesOf, IdSet, FinalMembers;
    var c := FinalConf(s.committed);
    FinalValid(s.committed);
    FinalIds(s.committed.members);
    DistinctIds(s.committed.members);
    EveryoneWithin(s.committed, c, IdSet(IdsOf(s.committed.members)));
    assert [s.committed] + s.pending + [c] == [s.committed, c];
  }

  lemma FinalIds(ms: seq<Member>)
    requires Ascending(ms)
    ensures IdSet(IdsOf(FinalMembers(ms))) <= IdSet(IdsOf(ms))
  {
    hide FinalMembers, RolesOf, FinalRoles;
    var fs := FinalMembers(ms);
    forall x | x in IdSet(IdsOf(fs)) ensures x in IdSet(IdsOf(ms)) {
      var i :| 0 <= i < |fs| && IdsOf(fs)[i] == x;
      FinalMembersShape(ms);
      RolesAt(fs, i);
      FinalRolesOf(ms, x);
      FinalRolesRange(0);
      var k := RolesHeld(ms, x);
      assert IdsOf(ms)[k] == x;
    }
  }

  lemma {:induction false} PendingFound(indices: seq<nat>, index: nat, k: nat)
    requires k < |indices| && indices[k] == index && forall j :: 0 <= j < k ==> indices[j] != index
    ensures PendingAt(indices, index) == k
  {
    if k > 0 {
      assert indices[0] != index;
      PendingFound(indices[1..], index, k - 1);
    }
  }
}
