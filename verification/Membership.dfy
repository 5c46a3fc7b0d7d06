/**
 The membership algebra (src/core/raft_membership.c): stable, joint and final
 configurations built by sorted merges, and the double-majority quorum test.

 A configuration is described by one function, the roles it gives each node id;
 each merge is shown to produce the intended function, and ascending members
 with the same roles are equal, so the algebraic laws follow.
 */
module Membership {
  import opened RaftTypes
  import opened Configuration

  // ------------------------------------------------------------ role functions

  /** The roles of node x, 0 when it is no member. */
  function RolesOf(ms: seq<Member>, x: U64): (r: Byte)
  {
    if ms == [] then 0
    else if ms[|ms| - 1].nodeId == x then ms[|ms| - 1].roles
    else RolesOf(ms[..|ms| - 1], x)
  }

  lemma {:induction false} RolesAt(ms: seq<Member>, i: nat)
    requires Ascending(ms) && i < |ms|
    ensures RolesOf(ms, ms[i].nodeId) == ms[i].roles
  {
    if i < |ms| - 1 {
      var front := ms[..|ms| - 1];
      AscendingFront(ms);
      RolesAt(front, i);
      assert front[i] == ms[i];
    }
  }

  lemma AscendingFront(ms: seq<Member>)
    requires Ascending(ms) && ms != []
    ensures Ascending(ms[..|ms| - 1])
    ensures forall i :: 0 <= i < |ms| - 1 ==> ms[i].nodeId < ms[|ms| - 1].nodeId
  {
  }

  lemma {:induction false} RolesElsewhere(ms: seq<Member>, x: U64)
    requires forall i :: 0 <= i < |ms| ==> ms[i].nodeId != x
    ensures RolesOf(ms, x) == 0
  {
    if ms != [] { RolesElsewhere(ms[..|ms| - 1], x); }
  }

  lemma {:induction false} RolesHeld(ms: seq<Member>, x: U64) returns (i: nat)
    requires RolesOf(ms, x) != 0
    ensures i < |ms| && ms[i] == Member(x, RolesOf(ms, x))
  {
    if ms[|ms| - 1].nodeId == x { i := |ms| - 1; } else { i := RolesHeld(ms[..|ms| - 1], x); }
  }

  /** Ascending members are determined by the roles they give. */
  lemma {:induction false} RolesDetermine(a: seq<Member>, b: seq<Member>)
    requires Ascending(a) && Ascending(b)
    requires forall i :: 0 <= i < |a| ==> a[i].roles != 0
    requires forall i :: 0 <= i < |b| ==> b[i].roles != 0
    requires forall x :: RolesOf(a, x) == RolesOf(b, x)
    ensures a == b
    decreases |a|
  {
    if b != [] { assert RolesOf(b, b[|b| - 1].nodeId) == b[|b| - 1].roles; }
    if a != [] {
      RolesAt(a, |a| - 1);
      var i := RolesHeld(b, a[|a| - 1].nodeId);
      RolesAt(b, |b| - 1);
      var j := RolesHeld(a, b[|b| - 1].nodeId);
      assert a[|a| - 1] == b[|b| - 1];
      var a0, b0 := a[..|a| - 1], b[..|b| - 1];
      AscendingFront(a);
      AscendingFront(b);
      forall x ensures RolesOf(a0, x) == RolesOf(b0, x) {
        if x == a[|a| - 1].nodeId {
          RolesElsewhere(a0, x);
          RolesElsewhere(b0, x);
        } else {
          assert RolesOf(a, x) == RolesOf(b, x);
        }
      }
      RolesDetermine(a0, b0);
    }
  }

  /** Adding a member above all others. */
  lemma AscendingPush(ms: seq<Member>, x: U64, r: Byte)
    requires Ascending(ms) && x != 0 && forall i :: 0 <= i < |ms| ==> ms[i].nodeId < x
    ensures Ascending(ms + [Member(x, r)])
  {
  }

  lemma PushRoles(ms: seq<Member>, x: U64, r: Byte)
    requires Ascending(ms) && x != 0 && forall i :: 0 <= i < |ms| ==> ms[i].nodeId < x
    ensures Ascending(ms + [Member(x, r)]) && RolesOf(ms, x) == 0
    ensures forall y :: RolesOf(ms + [Member(x, r)], y) == if y == x then r else RolesOf(ms, y)
  {
    RolesElsewhere(ms, x);
    assert (ms + [Member(x, r)])[..|ms|] == ms;
  }

  // ----------------------------------------------------------------- id lists

  /** Non-zero, strictly ascending node ids. */
  predicate Sorted(ids: seq<U64>)
  {
    (forall i :: 0 <= i < |ids| ==> ids[i] != 0) && forall i, j :: 0 <= i < j < |ids| ==> ids[i] < ids[j]
  }

  predicate Disjoint(a: seq<U64>, b: seq<U64>)
  {
    forall i, j :: 0 <= i < |a| && 0 <= j < |b| ==> a[i] != b[j]
  }

  /** What tr_raft_membership_validate_set accepts. */
  predicate ValidSets(voters: seq<U64>, learners: seq<U64>)
  {
    && 0 < |voters| && |voters| + |learners| <= MAX_MEMBERS
    && Sorted(voters) && Sorted(learners) && Disjoint(voters, learners)
  }

  /** A cursor splits a list at f. */
  predicate SplitAt(ids: seq<U64>, i: nat, f: nat)
  {
    && i <= |ids|
    && (forall k :: 0 <= k < i ==> ids[k] < f)
    && (forall k :: i <= k < |ids| ==> ids[k] >= f)
  }

  lemma SplitStep(ids: seq<U64>, i: nat, f: nat, next: nat)
    requires Sorted(ids) && SplitAt(ids, i, f) && f <= next && (i < |ids| ==> next <= ids[i])
    ensures next in ids <==> i < |ids| && ids[i] == next
    ensures SplitAt(ids, if i < |ids| && ids[i] == next then i + 1 else i, next + 1)
    ensures forall x :: f <= x < next ==> x !in ids
  {
  }

  method SortedIds(ids: seq<U64>) returns (ok: bool)
    ensures ok == Sorted(ids)
  {
    for i := 0 to |ids|
      invariant Sorted(ids[..i])
    {
      if ids[i] == 0 || (i != 0 && ids[i - 1] >= ids[i]) { return false; }
      var t := ids[..i + 1];
      assert forall a :: 0 <= a < i ==> t[a] == ids[..i][a];
    }
    assert ids[..|ids|] == ids;
    return true;
  }

  /** Two sorted lists share an element exactly when the merge meets it. */
  method DisjointIds(a: seq<U64>, b: seq<U64>) returns (ok: bool)
    requires Sorted(a) && Sorted(b)
    ensures ok == Disjoint(a, b)
  {
    var i, j := 0, 0;
    while i < |a| && j < |b|
      invariant i <= |a| && j <= |b|
      invariant forall x, y :: 0 <= x < |a| && 0 <= y < |b| && (x < i || y < j) ==> a[x] != b[y]
    {
      if a[i] == b[j] { return false; }
      if a[i] < b[j] { i := i + 1; } else { j := j + 1; }
    }
    return true;
  }

  method ValidateSets(voters: seq<U64>, learners: seq<U64>) returns (ok: bool)
    ensures ok == ValidSets(voters, learners)
  {
    if |voters| == 0 || |voters| + |learners| > MAX_MEMBERS { return false; }
    ok := SortedIds(voters);
    if !ok { return; }
    ok := SortedIds(learners);
    if !ok { return; }
    ok := DisjointIds(voters, learners);
  }

  // ------------------------------------------------------------------- stable

  function StableRoles(voters: seq<U64>, learners: seq<U64>, x: U64): (r: Byte)
  {
    if x in voters then ROLE_VOTER else if x in learners then ROLE_LEARNER else 0
  }

  /** Members below f are merged, nothing else is. */
  ghost predicate Merged(ms: seq<Member>, f: nat, roles: U64 -> Byte)
  {
    && Ascending(ms) && (forall i :: 0 <= i < |ms| ==> ms[i].nodeId < f && ms[i].roles != 0)
    && forall x: U64 :: x < f ==> RolesOf(ms, x) == roles(x)
  }

  lemma MergedStep(ms: seq<Member>, f: nat, roles: U64 -> Byte, x: U64, r: Byte)
    requires Merged(ms, f, roles) && f <= x && x != 0 && r != 0 && roles(x) == r
    requires forall y: U64 :: f <= y < x ==> roles(y) == 0
    ensures Merged(ms + [Member(x, r)], x + 1, roles)
  {
    PushRoles(ms, x, r);
    var ms' := ms + [Member(x, r)];
    forall y: U64 | y < x + 1 ensures RolesOf(ms', y) == roles(y) {
      if f <= y < x { RolesElsewhere(ms, y); }
    }
  }

  lemma MergedAll(ms: seq<Member>, f: nat, roles: U64 -> Byte)
    requires Merged(ms, f, roles) && forall y: U64 :: f <= y ==> roles(y) == 0
    ensures forall y: U64 :: RolesOf(ms, y) == roles(y)
  {
    forall y: U64 ensures RolesOf(ms, y) == roles(y) { if f <= y { RolesElsewhere(ms, y); } }
  }

  /** tr_raft_membership_stable */
  method Stable(voters: seq<U64>, learners: seq<U64>) returns (status: Status, c: Conf)
    ensures status == OK <==> ValidSets(voters, learners)
    ensures status == OK ==>
      && c.phase == PHASE_FINAL && c.transitionId == 0 && Ascending(c.members)
      && (forall i :: 0 <= i < |c.members| ==> c.members[i].roles != 0)
      && forall x :: RolesOf(c.members, x) == StableRoles(voters, learners, x)
  {
    var ok := ValidateSets(voters, learners);
    c := Conf(PHASE_FINAL, 0, []);
    if !ok { return EINVAL, c; }
    ghost var roles := (x: U64) => StableRoles(voters, learners, x);
    ghost var f: nat := 0;
    var ms: seq<Member> := [];
    var v, l := 0, 0;
    while v < |voters| || l < |learners|
      invariant SplitAt(voters, v, f) && SplitAt(learners, l, f) && Merged(ms, f, roles)
      decreases |voters| - v + |learners| - l
    {
      var next: nat := if l == |learners| || (v < |voters| && voters[v] < learners[l]) then voters[v] else learners[l];
      SplitStep(voters, v, f, next);
      SplitStep(learners, l, f, next);
      var r := if v < |voters| && voters[v] == next then ROLE_VOTER else ROLE_LEARNER;
      MergedStep(ms, f, roles, next, r);
      ms := ms + [Member(next, r)];
      if v < |voters| && voters[v] == next { v := v + 1; } else { l := l + 1; }
      f := next + 1;
    }
    MergedAll(ms, f, roles);
    return OK, Conf(PHASE_FINAL, 0, ms);
  }

  // -------------------------------------------------------------------- joint

  /** A stable configuration as tr_raft_membership_stable_valid sees it. */
  predicate StableValid(c: Conf)
  {
    && c.phase == PHASE_FINAL && 0 < |c.members| <= MAX_MEMBERS && Ascending(c.members)
    && (forall i :: 0 <= i < |c.members| ==> c.members[i].roles == ROLE_VOTER || c.members[i].roles == ROLE_LEARNER)
    && exists i :: 0 <= i < |c.members| && c.members[i].roles == ROLE_VOTER
  }

  method IsStable(c: Conf) returns (ok: bool)
    ensures ok == StableValid(c)
  {
    if c.phase != PHASE_FINAL || |c.members| == 0 || |c.members| > MAX_MEMBERS { return false; }
    var voters := 0;
    for i := 0 to |c.members|
      invariant Ascending(c.members[..i])
      invariant forall k :: 0 <= k < i ==> c.members[k].roles == ROLE_VOTER || c.members[k].roles == ROLE_LEARNER
      invariant voters > 0 <==> exists k :: 0 <= k < i && c.members[k].roles == ROLE_VOTER
      invariant voters >= 0
    {
      var m := c.members[i];
      if m.nodeId == 0 || (i != 0 && c.members[i - 1].nodeId >= m.nodeId) ||
         (m.roles != ROLE_VOTER && m.roles != ROLE_LEARNER)
      {
        return false;
      }
      AscendingExtends(c.members, i);
      if m.roles == ROLE_VOTER { voters := voters + 1; }
    }
    assert c.members[..|c.members|] == c.members;
    return voters != 0;
  }

  function IdsOf(ms: seq<Member>): (ids: seq<U64>)
    ensures |ids| == |ms| && forall i :: 0 <= i < |ms| ==> ids[i] == ms[i].nodeId
  {
    seq(|ms|, i requires 0 <= i < |ms| => ms[i].nodeId)
  }

  ghost function IdSet(ids: seq<U64>): (s: set<U64>)
  {
    set x | x in ids
  }

  /** Old voter for the current voters, new voter and learner for the targets. */
  function JointRoles(current: seq<Member>, voters: seq<U64>, learners: seq<U64>, x: U64): (r: Byte)
  {
    if x == U64_MAX then 0
    else
      (if RolesOf(current, x) == ROLE_VOTER then 1 else 0) + (if x in voters then 2 else 0) +
      (if x in learners then 4 else 0)
  }

  /** tr_raft_membership_union_count */
  method UnionCount(current: seq<Member>, voters: seq<U64>, learners: seq<U64>) returns (count: nat)
    requires Ascending(current) && Sorted(voters) && Sorted(learners)
    ensures count == |IdSet(IdsOf(current)) + IdSet(voters) + IdSet(learners)|
  {
    ghost var ids := IdsOf(current);
    ghost var all := IdSet(ids) + IdSet(voters) + IdSet(learners);
    ghost var f: nat := 0;
    count := 0;
    var c, v, l := 0, 0, 0;
    while c < |current| || v < |voters| || l < |learners|
      invariant SplitAt(ids, c, f) && SplitAt(voters, v, f) && SplitAt(learners, l, f)
      invariant count == |Below(all, f)|
      decreases |current| - c + |voters| - v + |learners| - l
    {
      var next: nat := U64_MAX;
      if c < |current| && current[c].nodeId < next { next := current[c].nodeId; }
      if v < |voters| && voters[v] < next { next := voters[v]; }
      if l < |learners| && learners[l] < next { next := learners[l]; }
      SplitStep(ids, c, f, next);
      SplitStep(voters, v, f, next);
      SplitStep(learners, l, f, next);
      BelowStep(all, f, next);
      count := count + 1;
      if c < |current| && current[c].nodeId == next { c := c + 1; }
      if v < |voters| && voters[v] == next { v := v + 1; }
      if l < |learners| && learners[l] == next { l := l + 1; }
      f := next + 1;
    }
    assert Below(all, f) == all;
  }

  ghost function Below(s: set<U64>, f: nat): (b: set<U64>)
  {
    set x | x in s && x < f
  }

  lemma BelowStep(s: set<U64>, f: nat, next: nat)
    requires f <= next <= U64_MAX && next in s && forall x :: x in s && f <= x ==> next <= x
    ensures |Below(s, next + 1)| == |Below(s, f)| + 1
  {
    var n: U64 := next;
    assert Below(s, next + 1) == Below(s, f) + {n};
  }

  /** The cursor over the current members has passed what is below f, and learners. */
  predicate VotersFrom(current: seq<Member>, c: nat, f: nat)
  {
    && c <= |current|
    && (forall k :: 0 <= k < c ==> current[k].nodeId < f || current[k].roles == ROLE_LEARNER)
    && (forall k :: c <= k < |current| ==> current[k].nodeId >= f)
  }

  lemma VotersStep(current: seq<Member>, c: nat, f: nat, next: nat)
    requires Ascending(current) && VotersFrom(current, c, f) && f <= next <= U64_MAX
    requires (c < |current| ==> next <= current[c].nodeId)
    requires c < |current| ==> current[c].roles == ROLE_VOTER
    ensures RolesOf(current, next) == ROLE_VOTER <==> c < |current| && current[c].nodeId == next
    ensures VotersFrom(current, if c < |current| && current[c].nodeId == next then c + 1 else c, next + 1)
    ensures forall x: U64 :: f <= x < next ==> RolesOf(current, x) != ROLE_VOTER
  {
    if c < |current| { RolesAt(current, c); }
    forall x: U64 | f <= x <= next && RolesOf(current, x) == ROLE_VOTER
      ensures x == next && c < |current| && current[c].nodeId == next
    {
      var i := RolesHeld(current, x);
    }
  }

  method SkipLearners(current: seq<Member>, c: nat, ghost f: nat) returns (c': nat)
    requires VotersFrom(current, c, f)
    ensures VotersFrom(current, c', f) && c <= c'
    ensures c' < |current| ==> current[c'].roles != ROLE_LEARNER
  {
    c' := c;
    while c' < |current| && current[c'].roles == ROLE_LEARNER
      invariant VotersFrom(current, c', f) && c <= c'
    {
      c' := c' + 1;
    }
  }

  /** The merge loop of tr_raft_membership_joint; the largest id is its sentinel and never merged. */
  method MergeJoint(current: Conf, voters: seq<U64>, learners: seq<U64>) returns (ms: seq<Member>)
    requires StableValid(current) && ValidSets(voters, learners)
    ensures Ascending(ms) && (forall i :: 0 <= i < |ms| ==> ms[i].roles != 0)
    ensures forall x :: RolesOf(ms, x) == JointRoles(current.members, voters, learners, x)
  {
    var cur := current.members;
    ghost var roles := (x: U64) => JointRoles(cur, voters, learners, x);
    ghost var f: nat := 0;
    ms := [];
    var c, v, l := 0, 0, 0;
    while c < |cur| || v < |voters| || l < |learners|
      invariant VotersFrom(cur, c, f) && SplitAt(voters, v, f) && SplitAt(learners, l, f) && Merged(ms, f, roles)
      invariant f <= U64_MAX
      decreases |cur| - c + |voters| - v + |learners| - l
    {
      c := SkipLearners(cur, c, f);
      var next: nat := U64_MAX;
      if c < |cur| && cur[c].nodeId < next { next := cur[c].nodeId; }
      if v < |voters| && voters[v] < next { next := voters[v]; }
      if l < |learners| && learners[l] < next { next := learners[l]; }
      VotersStep(cur, c, f, next);
      SplitStep(voters, v, f, next);
      SplitStep(learners, l, f, next);
      if next == U64_MAX { break; }
      var r := 0;
      if c < |cur| && cur[c].nodeId == next { r := r + 1; c := c + 1; }
      if v < |voters| && voters[v] == next { r := r + 2; v := v + 1; }
      if l < |learners| && learners[l] == next { r := r + 4; l := l + 1; }
      MergedStep(ms, f, roles, next, r);
      ms := ms + [Member(next, r)];
      f := next + 1;
    }
    JointDone(cur, c, v, l, voters, learners, f);
    MergedAll(ms, f, roles);
  }

  lemma JointDone(cur: seq<Member>, c: nat, v: nat, l: nat, voters: seq<U64>, learners: seq<U64>, f: nat)
    requires Ascending(cur) && VotersFrom(cur, c, f) && SplitAt(voters, v, f) && SplitAt(learners, l, f)
    requires forall k :: c <= k < |cur| ==> cur[k].nodeId == U64_MAX
    requires forall k :: v <= k < |voters| ==> voters[k] == U64_MAX
    requires forall k :: l <= k < |learners| ==> learners[k] == U64_MAX
    ensures forall x: U64 :: f <= x ==> JointRoles(cur, voters, learners, x) == 0
  {
    forall x: U64 | f <= x ensures JointRoles(cur, voters, learners, x) == 0 {
      if RolesOf(cur, x) == ROLE_VOTER { var i := RolesHeld(cur, x); }
    }
  }

  lemma {:induction false} CountsFind(ms: seq<Member>, i: nat)
    requires i < |ms|
    ensures OldVoter(ms[i].roles) ==> OldVoterCount(ms) > 0
    ensures NewVoter(ms[i].roles) ==> NewVoterCount(ms) > 0
  {
    if i < |ms| - 1 {
      var front := ms[..|ms| - 1];
      assert front[i] == ms[i];
      CountsFind(front, i);
    }
  }

  lemma {:induction false} CountsEmpty(ms: seq<Member>)
    ensures (forall i :: 0 <= i < |ms| ==> !OldVoter(ms[i].roles)) ==> OldVoterCount(ms) == 0
    ensures (forall i :: 0 <= i < |ms| ==> !NewVoter(ms[i].roles)) ==> NewVoterCount(ms) == 0
  {
    if ms != [] { CountsEmpty(ms[..|ms| - 1]); }
  }

  /** Ascending members are as many as their ids. */
  lemma {:induction false} DistinctIds(ms: seq<Member>)
    requires Ascending(ms)
    ensures |IdSet(IdsOf(ms))| == |ms|
  {
    if ms == [] {
      assert IdSet(IdsOf(ms)) == {};
    } else {
      var front, last := ms[..|ms| - 1], ms[|ms| - 1].nodeId;
      AscendingFront(ms);
      DistinctIds(front);
      var ids, ids0 := IdsOf(ms), IdsOf(front);
      assert ids == ids0 + [last];
      assert IdSet(ids) == IdSet(ids0) + {last};
      assert last !in ids0;
    }
  }

  lemma {:induction false} SubsetCount(a: set<U64>, b: set<U64>)
    requires a <= b
    ensures |a| <= |b|
  {
    if a != {} {
      var x :| x in a;
      SubsetCount(a - {x}, b - {x});
    }
  }

  /** The joint members are among everyone involved, so they fit when everyone does. */
  lemma JointFits(current: Conf, voters: seq<U64>, learners: seq<U64>, ms: seq<Member>)
    requires Ascending(ms) && (forall i :: 0 <= i < |ms| ==> ms[i].roles != 0)
    requires forall x :: RolesOf(ms, x) == JointRoles(current.members, voters, learners, x)
    ensures |ms| <= |IdSet(IdsOf(current.members)) + IdSet(voters) + IdSet(learners)|
  {
    JointIds(current, voters, learners, ms);
    DistinctIds(ms);
    SubsetCount(IdSet(IdsOf(ms)), IdSet(IdsOf(current.members)) + IdSet(voters) + IdSet(learners));
  }

  /** A joint configuration names nobody new. */
  lemma JointIds(current: Conf, voters: seq<U64>, learners: seq<U64>, ms: seq<Member>)
    requires Ascending(ms) && (forall i :: 0 <= i < |ms| ==> ms[i].roles != 0)
    requires forall x :: RolesOf(ms, x) == JointRoles(current.members, voters, learners, x)
    ensures IdSet(IdsOf(ms)) <= IdSet(IdsOf(current.members)) + IdSet(voters) + IdSet(learners)
  {
    var all := IdSet(IdsOf(current.members)) + IdSet(voters) + IdSet(learners);
    forall x | x in IdSet(IdsOf(ms)) ensures x in all {
      var i :| 0 <= i < |ms| && IdsOf(ms)[i] == x;
      RolesAt(ms, i);
      if x !in voters && x !in learners {
        var k := RolesHeld(current.members, x);
        assert IdsOf(current.members)[k] == x;
      }
    }
  }

  /** Some current voter and some target voter is not the sentinel id. */
  predicate Representable(current: Conf, voters: seq<U64>)
  {
    && (exists i :: 0 <= i < |current.members| && current.members[i].roles == ROLE_VOTER &&
         current.members[i].nodeId != U64_MAX)
    && (exists i :: 0 <= i < |voters| && voters[i] != U64_MAX)
  }

  lemma JointRolesValid(current: Conf, voters: seq<U64>, learners: seq<U64>, ms: seq<Member>)
    requires Ascending(ms) && (forall i :: 0 <= i < |ms| ==> ms[i].roles != 0) && Disjoint(voters, learners)
    requires forall x :: RolesOf(ms, x) == JointRoles(current.members, voters, learners, x)
    ensures forall i :: 0 <= i < |ms| ==> RolesValid(PHASE_JOINT, ms[i].roles)
  {
    forall i | 0 <= i < |ms| ensures RolesValid(PHASE_JOINT, ms[i].roles) {
      RolesAt(ms, i);
      assert ms[i].nodeId in voters && ms[i].nodeId in learners ==> false;
    }
  }

  lemma JointCounts(current: Conf, voters: seq<U64>, learners: seq<U64>, ms: seq<Member>)
    requires StableValid(current) && Ascending(ms)
    requires forall x :: RolesOf(ms, x) == JointRoles(current.members, voters, learners, x)
    ensures Representable(current, voters) <==> OldVoterCount(ms) != 0 && NewVoterCount(ms) != 0
  {
    if Representable(current, voters) { JointCounted(current, voters, learners, ms); }
    if OldVoterCount(ms) != 0 && NewVoterCount(ms) != 0 {
      hide Representable;
      JointHeld(current, voters, learners, ms);
    }
  }

  lemma JointCounted(current: Conf, voters: seq<U64>, learners: seq<U64>, ms: seq<Member>)
    requires StableValid(current) && Ascending(ms) && Representable(current, voters)
    requires forall x :: RolesOf(ms, x) == JointRoles(current.members, voters, learners, x)
    ensures OldVoterCount(ms) != 0 && NewVoterCount(ms) != 0
  {
    var cur := current.members;
    var i :| 0 <= i < |cur| && cur[i].roles == ROLE_VOTER && cur[i].nodeId != U64_MAX;
    RolesAt(cur, i);
    var a := RolesHeld(ms, cur[i].nodeId);
    CountsFind(ms, a);
    var j :| 0 <= j < |voters| && voters[j] != U64_MAX;
    var b := RolesHeld(ms, voters[j]);
    CountsFind(ms, b);
  }

  lemma JointHeld(current: Conf, voters: seq<U64>, learners: seq<U64>, ms: seq<Member>)
    requires StableValid(current) && Ascending(ms) && OldVoterCount(ms) != 0 && NewVoterCount(ms) != 0
    requires forall x :: RolesOf(ms, x) == JointRoles(current.members, voters, learners, x)
    ensures Representable(current, voters)
  {
    CountsEmpty(ms);
    var a :| 0 <= a < |ms| && OldVoter(ms[a].roles);
    RolesAt(ms, a);
    var i := RolesHeld(current.members, ms[a].nodeId);
    var b :| 0 <= b < |ms| && NewVoter(ms[b].roles);
    RolesAt(ms, b);
  }

  /** tr_raft_membership_joint */
  method Joint(current: Conf, voters: seq<U64>, learners: seq<U64>, transitionId: U64) returns (status: Status, c: Conf)
    ensures status == OK <==>
      && transitionId != 0 && StableValid(current) && ValidSets(voters, learners) && Representable(current, voters)
      && |IdSet(IdsOf(current.members)) + IdSet(voters) + IdSet(learners)| <= MAX_MEMBERS
    ensures status == OK || status == EINVAL || status == ENOSPC
    ensures status == OK ==>
      && Valid(c) && c.phase == PHASE_JOINT && c.transitionId == transitionId
      && forall x :: RolesOf(c.members, x) == JointRoles(current.members, voters, learners, x)
  {
    c := Conf(PHASE_JOINT, transitionId, []);
    var stable := IsStable(current);
    var sets := ValidateSets(voters, learners);
    if transitionId == 0 || !stable || !sets { return EINVAL, c; }
    var count := UnionCount(current.members, voters, learners);
    if count > MAX_MEMBERS { return ENOSPC, c; }
    var ms := MergeJoint(current, voters, learners);
    c := Conf(PHASE_JOINT, transitionId, ms);
    JointFits(current, voters, learners, ms);
    JointRolesValid(current, voters, learners, ms);
    JointCounts(current, voters, learners, ms);
    status := Validate(c);
    if |ms| == 0 { CountsEmpty(ms); }
  }

  // -------------------------------------------------------------------- final

  function FinalRoles(r: Byte): (r': Byte)
  {
    if NewVoter(r) then ROLE_VOTER else if Learner(r) then ROLE_LEARNER else 0
  }

  /** The members a joint configuration ends with. */
  function FinalMembers(ms: seq<Member>): (fs: seq<Member>)
  {
    if ms == [] then []
    else
      var m := ms[|ms| - 1];
      FinalMembers(ms[..|ms| - 1]) + if FinalRoles(m.roles) == 0 then [] else [Member(m.nodeId, FinalRoles(m.roles))]
  }

  lemma {:induction false} FinalMembersShape(ms: seq<Member>)
    requires Ascending(ms)
    ensures var fs := FinalMembers(ms);
      && Ascending(fs) && |fs| <= |ms|
      && (forall i :: 0 <= i < |fs| ==> fs[i].roles == ROLE_VOTER || fs[i].roles == ROLE_LEARNER)
      && (forall i :: 0 <= i < |fs| ==> |ms| > 0 && fs[i].nodeId <= ms[|ms| - 1].nodeId)
  {
    hide FinalRoles, Ascending;
    if ms != [] {
      var front, m := ms[..|ms| - 1], ms[|ms| - 1];
      AscendingFront(ms);
      FinalMembersShape(front);
      FinalRolesRange(m.roles);
      FinalBelow(front, m.nodeId);
      AscendingNonZero(ms);
      AscendingPush(FinalMembers(front), m.nodeId, FinalRoles(m.roles));
      assert FinalMembers(front) + [] == FinalMembers(front);
    } else {
      assert FinalMembers(ms) == ms;
    }
  }

  lemma AscendingNonZero(ms: seq<Member>)
    requires Ascending(ms) && ms != []
    ensures ms[|ms| - 1].nodeId != 0
  {
  }

  lemma FinalBelow(ms: seq<Member>, x: U64)
    requires forall i :: 0 <= i < |ms| ==> ms[i].nodeId < x
    requires var fs := FinalMembers(ms); forall i :: 0 <= i < |fs| ==> |ms| > 0 && fs[i].nodeId <= ms[|ms| - 1].nodeId
    ensures var fs := FinalMembers(ms); forall i :: 0 <= i < |fs| ==> fs[i].nodeId < x
  {
    hide FinalMembers;
  }

  lemma FinalRolesRange(r: Byte)
    ensures FinalRoles(r) == 0 || FinalRoles(r) == ROLE_VOTER || FinalRoles(r) == ROLE_LEARNER
    ensures FinalRoles(0) == 0 && (FinalRoles(r) == ROLE_VOTER <==> NewVoter(r))
  {
  }

  /** Leaving the joint phase maps each node's roles. */
  lemma {:induction false} FinalRolesOf(ms: seq<Member>, x: U64)
    requires Ascending(ms)
    ensures RolesOf(FinalMembers(ms), x) == FinalRoles(RolesOf(ms, x))
  {
    hide FinalRoles;
    FinalRolesRange(0);
    if ms != [] {
      var front, m := ms[..|ms| - 1], ms[|ms| - 1];
      AscendingFront(ms);
      FinalRolesOf(front, x);
      FinalMembersShape(front);
      FinalBelow(front, m.nodeId);
      FinalPush(FinalMembers(front), front, m, x);
    }
  }

  lemma FinalPush(fs: seq<Member>, front: seq<Member>, m: Member, x: U64)
    requires Ascending(fs) && (forall i :: 0 <= i < |fs| ==> fs[i].nodeId < m.nodeId) && m.nodeId != 0
    requires RolesOf(fs, x) == FinalRoles(RolesOf(front, x))
    ensures var r := FinalRoles(m.roles);
      RolesOf(fs + (if r == 0 then [] else [Member(m.nodeId, r)]), x) ==
        FinalRoles(if m.nodeId == x then m.roles else RolesOf(front, x))
  {
    hide FinalRoles;
    var r := FinalRoles(m.roles);
    PushRoles(fs, m.nodeId, r);
    if r == 0 { assert fs + [] == fs; }
  }

  /** tr_raft_membership_final */
  method Final(joint: Conf) returns (status: Status, c: Conf)
    ensures status == OK <==> joint.phase == PHASE_JOINT && Valid(joint)
    ensures status == OK ==> c == FinalConf(joint) && Valid(c)
  {
    c := Conf(PHASE_FINAL, joint.transitionId, []);
    if joint.phase != PHASE_JOINT { return EINVAL, c; }
    status := Validate(joint);
    if status != OK { return; }
    var fs: seq<Member> := [];
    for i := 0 to |joint.members|
      invariant fs == FinalMembers(joint.members[..i])
    {
      var m := joint.members[i];
      assert joint.members[..i + 1][..i] == joint.members[..i];
      if NewVoter(m.roles) || Learner(m.roles) {
        fs := fs + [Member(m.nodeId, if NewVoter(m.roles) then ROLE_VOTER else ROLE_LEARNER)];
      }
    }
    assert joint.members[..|joint.members|] == joint.members;
    c := Conf(PHASE_FINAL, joint.transitionId, fs);
    FinalValid(joint);
    status := Validate(c);
  }

  function FinalConf(joint: Conf): (c: Conf)
  {
    Conf(PHASE_FINAL, joint.transitionId, FinalMembers(joint.members))
  }

  lemma FinalValid(joint: Conf)
    requires joint.phase == PHASE_JOINT && Valid(joint)
    ensures Valid(FinalConf(joint)) && StableValid(FinalConf(joint))
  {
    hide NewVoter, OldVoter, Learner, FinalRoles, FinalMembers;
    var ms, fs := joint.members, FinalMembers(joint.members);
    FinalMembersShape(ms);
    CountsEmpty(ms);
    var b :| 0 <= b < |ms| && NewVoter(ms[b].roles);
    RolesAt(ms, b);
    FinalRolesOf(ms, ms[b].nodeId);
    FinalRolesRange(ms[b].roles);
    var i := RolesHeld(fs, ms[b].nodeId);
    CountsFind(fs, i);
    VoterRoles();
  }

  lemma VoterRoles()
    ensures OldVoter(ROLE_VOTER) && NewVoter(ROLE_VOTER) && !OldVoter(ROLE_LEARNER) && !NewVoter(ROLE_LEARNER)
    ensures RolesValid(PHASE_FINAL, ROLE_VOTER) && RolesValid(PHASE_FINAL, ROLE_LEARNER)
  {
  }

  lemma JointFinalRoles(current: Conf, voters: seq<U64>, learners: seq<U64>, x: U64)
    requires Disjoint(voters, learners)
    ensures FinalRoles(JointRoles(current.members, voters, learners, x)) ==
            if x == U64_MAX then 0 else StableRoles(voters, learners, x)
  {
    assert x in voters && x in learners ==> false;
  }

  /**
   A membership change reaches its target: leaving the joint configuration built
   for the target sets gives the stable configuration of those sets, up to the
   transition id, exactly when no target id is the merge's sentinel.
   */
  lemma JointThenFinal(current: Conf, voters: seq<U64>, learners: seq<U64>, joint: Conf, target: Conf)
    requires ValidSets(voters, learners) && Valid(joint) && Ascending(target.members)
    requires forall x :: RolesOf(joint.members, x) == JointRoles(current.members, voters, learners, x)
    requires forall x :: RolesOf(target.members, x) == StableRoles(voters, learners, x)
    requires forall i :: 0 <= i < |target.members| ==> target.members[i].roles != 0
    ensures FinalConf(joint).members == target.members <==> U64_MAX !in voters && U64_MAX !in learners
  {
    hide NewVoter, OldVoter, Learner, FinalRoles, FinalMembers, RolesOf, JointRoles;
    var fs := FinalMembers(joint.members);
    FinalMembersShape(joint.members);
    forall x ensures RolesOf(fs, x) == if x == U64_MAX then 0 else RolesOf(target.members, x) {
      FinalRolesOf(joint.members, x);
      JointFinalRoles(current, voters, learners, x);
    }
    if U64_MAX !in voters && U64_MAX !in learners {
      RolesDetermine(fs, target.members);
    } else {
      assert RolesOf(target.members, U64_MAX) != 0;
    }
  }

  // ------------------------------------------------------------------ quorums

  /** An id is an old voter exactly when its roles say so. */
  lemma OldVoterAt(ms: seq<Member>, x: U64)
    requires Ascending(ms)
    ensures x in OldVoterSet(ms) <==> OldVoter(RolesOf(ms, x))
  {
    hide OldVoter;
    if x in OldVoterSet(ms) {
      var i :| 0 <= i < |ms| && OldVoter(ms[i].roles) && ms[i].nodeId == x;
      RolesAt(ms, i);
    } else if OldVoter(RolesOf(ms, x)) {
      assert !OldVoter(0) by { NobodyVotes(); }
      var i := RolesHeld(ms, x);
    }
  }

  lemma NobodyVotes()
    ensures !OldVoter(0)
  {
  }

  /**
   The old voters of a joint configuration are the voters it was built from,
   exactly when none of those is the merge's sentinel.
   */
  lemma JointOldVoters(current: Conf, voters: seq<U64>, learners: seq<U64>, joint: Conf)
    requires StableValid(current) && ValidSets(voters, learners) && Ascending(joint.members)
    requires forall x :: RolesOf(joint.members, x) == JointRoles(current.members, voters, learners, x)
    ensures OldVoterSet(joint.members) == OldVoterSet(current.members) <==> U64_MAX !in OldVoterSet(current.members)
  {
    hide OldVoterSet, RolesOf;
    var a, b := OldVoterSet(joint.members), OldVoterSet(current.members);
    forall x: U64 ensures x in a <==> x != U64_MAX && x in b {
      OldVoterAt(joint.members, x);
      OldVoterAt(current.members, x);
      StableRolesOf(current, x);
      JointVoter(current, voters, learners, x);
    }
    if U64_MAX !in b { assert a == b; }
  }

  lemma StableRolesOf(c: Conf, x: U64)
    requires StableValid(c)
    ensures RolesOf(c.members, x) == 0 || RolesOf(c.members, x) == ROLE_VOTER || RolesOf(c.members, x) == ROLE_LEARNER
  {
    if RolesOf(c.members, x) != 0 { var i := RolesHeld(c.members, x); }
  }

  lemma JointVoter(current: Conf, voters: seq<U64>, learners: seq<U64>, x: U64)
    requires Disjoint(voters, learners)
    requires var r := RolesOf(current.members, x); r == 0 || r == ROLE_VOTER || r == ROLE_LEARNER
    ensures OldVoter(JointRoles(current.members, voters, learners, x)) <==>
      x != U64_MAX && OldVoter(RolesOf(current.members, x))
  {
    hide RolesOf;
    assert x in voters && x in learners ==> false;
  }

  ghost function OldVoterSet(ms: seq<Member>): (s: set<U64>)
  {
    set i | 0 <= i < |ms| && OldVoter(ms[i].roles) :: ms[i].nodeId
  }

  ghost function NewVoterSet(ms: seq<Member>): (s: set<U64>)
  {
    set i | 0 <= i < |ms| && NewVoter(ms[i].roles) :: ms[i].nodeId
  }

  /** The ids of the members at the acknowledged positions. */
  ghost function AckedIds(ms: seq<Member>, acks: set<nat>): (s: set<U64>)
  {
    set i | i in acks && i < |ms| :: ms[i].nodeId
  }

  ghost predicate Majority(s: set<U64>, voters: set<U64>)
  {
    voters != {} && |s * voters| >= |voters| / 2 + 1
  }

  /** A majority of the old voters and a majority of the new ones. */
  ghost predicate Quorum(ms: seq<Member>, s: set<U64>)
  {
    Majority(s, OldVoterSet(ms)) && Majority(s, NewVoterSet(ms))
  }

  lemma OldVoterStep(ms: seq<Member>, i: nat)
    requires Ascending(ms) && i < |ms|
    ensures var a, b, x := OldVoterSet(ms[..i]), OldVoterSet(ms[..i + 1]), ms[i].nodeId;
      x !in a && b == if OldVoter(ms[i].roles) then a + {x} else a
  {
    hide OldVoter;
    var a, b := ms[..i], ms[..i + 1];
    assert b[i] == ms[i] && forall k :: 0 <= k < i ==> b[k] == a[k] == ms[k];
  }

  lemma NewVoterStep(ms: seq<Member>, i: nat)
    requires Ascending(ms) && i < |ms|
    ensures var a, b, x := NewVoterSet(ms[..i]), NewVoterSet(ms[..i + 1]), ms[i].nodeId;
      x !in a && b == if NewVoter(ms[i].roles) then a + {x} else a
  {
    hide NewVoter;
    var a, b := ms[..i], ms[..i + 1];
    assert b[i] == ms[i] && forall k :: 0 <= k < i ==> b[k] == a[k] == ms[k];
  }

  /** Counting one more voter. */
  lemma CountStep(a: set<U64>, b: set<U64>, s: set<U64>, x: U64, joins: bool, acked: bool)
    requires x !in a && b == (if joins then a + {x} else a) && (x in s <==> acked)
    ensures |b| == |a| + (if joins then 1 else 0)
    ensures |s * b| == |s * a| + (if joins && acked then 1 else 0)
  {
    assert s * b == s * a + if joins && acked then {x} else {};
  }

  lemma AckedAt(ms: seq<Member>, acks: set<nat>, i: nat)
    requires Ascending(ms) && i < |ms|
    ensures ms[i].nodeId in AckedIds(ms, acks) <==> i in acks
  {
  }

  lemma VoterStep(ms: seq<Member>, acks: set<nat>, i: nat)
    requires Ascending(ms) && i < |ms|
    ensures var a, b := ms[..i], ms[..i + 1];
      && |OldVoterSet(b)| == |OldVoterSet(a)| + (if OldVoter(ms[i].roles) then 1 else 0)
      && |NewVoterSet(b)| == |NewVoterSet(a)| + (if NewVoter(ms[i].roles) then 1 else 0)
      && |AckedIds(ms, acks) * OldVoterSet(b)| ==
         |AckedIds(ms, acks) * OldVoterSet(a)| + (if OldVoter(ms[i].roles) && i in acks then 1 else 0)
      && |AckedIds(ms, acks) * NewVoterSet(b)| ==
         |AckedIds(ms, acks) * NewVoterSet(a)| + (if NewVoter(ms[i].roles) && i in acks then 1 else 0)
  {
    hide OldVoter, NewVoter, AckedIds, OldVoterSet, NewVoterSet;
    var s, x := AckedIds(ms, acks), ms[i].nodeId;
    AckedAt(ms, acks, i);
    OldVoterStep(ms, i);
    NewVoterStep(ms, i);
    CountStep(OldVoterSet(ms[..i]), OldVoterSet(ms[..i + 1]), s, x, OldVoter(ms[i].roles), i in acks);
    CountStep(NewVoterSet(ms[..i]), NewVoterSet(ms[..i + 1]), s, x, NewVoter(ms[i].roles), i in acks);
  }

  /** tr_raft_membership_has_quorum; the mask is the set of acknowledged positions. */
  method HasQuorum(c: Conf, acks: set<nat>) returns (enough: bool)
    requires Ascending(c.members)
    ensures enough == (0 < |c.members| <= MAX_MEMBERS && Quorum(c.members, AckedIds(c.members, acks)))
  {
    hide AckedIds, OldVoterSet, NewVoterSet;
    if |c.members| == 0 || |c.members| > MAX_MEMBERS { return false; }
    VotersEmpty();
    var oldCount, oldAcks, newCount, newAcks := 0, 0, 0, 0;
    ghost var s := AckedIds(c.members, acks);
    assert c.members[..0] == [] && s * {} == {};
    for i := 0 to |c.members|
      invariant oldCount == |OldVoterSet(c.members[..i])| && oldAcks == |s * OldVoterSet(c.members[..i])|
      invariant newCount == |NewVoterSet(c.members[..i])| && newAcks == |s * NewVoterSet(c.members[..i])|
    {
      VoterStep(c.members, acks, i);
      var roles := c.members[i].roles;
      if OldVoter(roles) {
        oldCount := oldCount + 1;
        if i in acks { oldAcks := oldAcks + 1; }
      }
      if NewVoter(roles) {
        newCount := newCount + 1;
        if i in acks { newAcks := newAcks + 1; }
      }
    }
    assert c.members[..|c.members|] == c.members;
    enough := oldCount != 0 && newCount != 0 && oldAcks >= oldCount / 2 + 1 && newAcks >= newCount / 2 + 1;
  }

  lemma VotersEmpty()
    ensures OldVoterSet([]) == {} && NewVoterSet([]) == {}
  {
  }

  /** tr_raft_membership_match_quorum */
  method MatchQuorum(c: Conf, matched: seq<nat>, candidate: nat) returns (enough: bool)
    requires Ascending(c.members) && |c.members| <= |matched|
    ensures enough ==
      (0 < |c.members| <= MAX_MEMBERS && candidate != 0 &&
       Quorum(c.members, set i | 0 <= i < |c.members| && matched[i] >= candidate :: c.members[i].nodeId))
  {
    if candidate == 0 || |c.members| > MAX_MEMBERS { return false; }
    var acks: set<nat> := {};
    for i := 0 to |c.members|
      invariant acks == set k: nat | k < i && matched[k] >= candidate
    {
      if matched[i] >= candidate { acks := acks + {i}; }
    }
    assert AckedIds(c.members, acks) == set i | 0 <= i < |c.members| && matched[i] >= candidate :: c.members[i].nodeId;
    enough := HasQuorum(c, acks);
  }

  /** Two majorities of the same voters share a voter. */
  lemma MajoritiesMeet(a: set<U64>, b: set<U64>, voters: set<U64>)
    requires Majority(a, voters) && Majority(b, voters)
    ensures a * b * voters != {}
  {
    var x, y := a * voters, b * voters;
    if x * y == {} {
      assert |x + y| == |x| + |y|;
      SubsetCount(x + y, voters);
      assert false;
    }
    assert x * y == a * b * voters;
  }

  /** The configurations that may follow one another. */
  ghost predicate Successor(c: Conf, d: Conf)
  {
    || (c.phase == PHASE_FINAL && d.phase == PHASE_JOINT && OldVoterSet(d.members) == OldVoterSet(c.members))
    || (c.phase == PHASE_JOINT && d == FinalConf(c))
  }

  lemma FinalVoters(joint: Conf)
    requires Valid(joint)
    ensures OldVoterSet(FinalConf(joint).members) == NewVoterSet(joint.members)
  {
    hide NewVoter, OldVoter, Learner, FinalRoles, FinalMembers;
    var ms, fs := joint.members, FinalMembers(joint.members);
    FinalMembersShape(ms);
    VoterRoles();
    forall x | x in OldVoterSet(fs) ensures x in NewVoterSet(ms) {
      var i :| 0 <= i < |fs| && OldVoter(fs[i].roles) && fs[i].nodeId == x;
      RolesAt(fs, i);
      FinalRolesOf(ms, x);
      FinalRolesRange(RolesOf(ms, x));
      var k := RolesHeld(ms, x);
    }
    forall x | x in NewVoterSet(ms) ensures x in OldVoterSet(fs) {
      var k :| 0 <= k < |ms| && NewVoter(ms[k].roles) && ms[k].nodeId == x;
      RolesAt(ms, k);
      FinalRolesOf(ms, x);
      FinalRolesRange(RolesOf(ms, x));
      var i := RolesHeld(fs, x);
    }
  }

  /** Any quorum of a configuration meets any quorum of its successor, and of itself. */
  lemma QuorumsOverlap(c: Conf, d: Conf, a: set<U64>, b: set<U64>)
    requires Valid(c) && (d == c || Successor(c, d)) && Quorum(c.members, a) && Quorum(d.members, b)
    ensures a * b != {}
  {
    if c.phase == PHASE_JOINT && d != c {
      FinalVoters(c);
      MajoritiesMeet(a, b, NewVoterSet(c.members));
    } else {
      MajoritiesMeet(a, b, OldVoterSet(c.members));
    }
  }
}
