/**
 A whole membership change (src/core/raft_membership_transition.c): which staged
 configurations an apply activates, when the final configuration may be staged
 behind a joint one that has not been committed, and the run of calls that takes
 a cluster from one stable configuration to another.
 */
module MembershipChange {
  import opened RaftTypes
  import opened Configuration
  import opened Membership
  import opened MembershipTransition
  import opened PeerSet

  /** A quorum is more than half of the old voters together with more than half of the new ones. */
  lemma QuorumExact(ms: seq<Member>, s: set<U64>)
    ensures Quorum(ms, s) <==>
      2 * |s * OldVoterSet(ms)| > |OldVoterSet(ms)| && 2 * |s * NewVoterSet(ms)| > |NewVoterSet(ms)|
  {
    hide OldVoterSet, NewVoterSet;
    assert s * {} == {};
  }

  /** How many staged configurations have an index the commit has reached. */
  function Due(indices: seq<nat>, commit: nat): (n: nat)
    ensures n <= |indices|
    ensures forall k :: 0 <= k < n ==> indices[k] <= commit
    ensures n < |indices| ==> indices[n] > commit
  {
    if indices == [] || indices[0] > commit then 0 else 1 + Due(indices[1..], commit)
  }

  /**
   An apply activates exactly the staged configurations the commit index has
   reached, and the last of them is the committed one.
   */
  lemma {:induction false} ApplyExact(s: State, commit: nat)
    requires Legal(s)
    ensures |s.pending| == |s.indices|
    ensures forall k :: 0 <= k < |s.indices| ==> (k < Due(s.indices, commit) <==> s.indices[k] <= commit)
    ensures var n := Due(s.indices, commit);
      Applied(s, commit) ==
      State(if n == 0 then s.committed else s.pending[n - 1], s.pending[n..], s.indices[n..])
    decreases |s.pending|
  {
    hide Successor, Configuration.Valid;
    if s.pending != [] && s.indices[0] <= commit {
      var s1 := State(s.pending[0], s.pending[1..], s.indices[1..]);
      ApplyExact(s1, commit);
      var n := Due(s1.indices, commit);
      assert s1.pending[n..] == s.pending[n + 1..] && s1.indices[n..] == s.indices[n + 1..];
    }
  }

  /**
   The final configuration may be staged behind a joint one that is still
   pending, at any later index, whenever the joint one could be staged itself.
   */
  lemma FinalBehindJoint(s: State, joint: Conf, i: nat, j: nat)
    requires Legal(s) && s.pending == [] && joint.phase == PHASE_JOINT
    requires Stageable(s, joint, i) && i < j
    ensures Staged(s, joint, i) == State(s.committed, [joint], [i])
    ensures Stageable(Staged(s, joint, i), FinalConf(joint), j)
  {
    hide OldVoterSet, Everyone, RolesOf, IdSet, FinalMembers, Successor;
    var c, f := s.committed, FinalConf(joint);
    assert [c] + s.pending + [joint] == [c, joint];
    assert [c] + [joint] + [f] == [c, joint, f];
    FinalValid(joint);
    FinalIds(joint.members);
    EveryoneAlso(c, joint, f);
  }

  /** A configuration that names nobody new adds nobody. */
  lemma EveryoneAlso(c: Conf, d: Conf, e: Conf)
    requires IdSet(IdsOf(e.members)) <= IdSet(IdsOf(d.members))
    ensures Everyone([c, d, e]) == Everyone([c, d])
  {
    forall x | x in Everyone([c, d, e]) ensures x in Everyone([c, d]) {
      var i, k :| 0 <= i < 3 && 0 <= k < |[c, d, e][i].members| && [c, d, e][i].members[k].nodeId == x;
      if i == 2 {
        assert IdsOf(e.members)[k] == x;
        assert x in IdSet(IdsOf(d.members));
        var h :| 0 <= h < |d.members| && IdsOf(d.members)[h] == x;
        assert [c, d][1].members[h].nodeId == x;
      } else {
        assert [c, d][i].members[k].nodeId == x;
      }
    }
    forall x | x in Everyone([c, d]) ensures x in Everyone([c, d, e]) {
      var i, k :| 0 <= i < 2 && 0 <= k < |[c, d][i].members| && [c, d][i].members[k].nodeId == x;
      assert [c, d, e][i].members[k].nodeId == x;
    }
  }

  /** The members the target sets ask for, without the id the merges use as their end mark. */
  ghost predicate Targets(c: Conf, voters: seq<U64>, learners: seq<U64>)
  {
    forall x :: RolesOf(c.members, x) == if x == U64_MAX then 0 else StableRoles(voters, learners, x)
  }

  /** Leaving the joint configuration built for the target sets reaches them. */
  lemma FinalTargets(current: Conf, voters: seq<U64>, learners: seq<U64>, joint: Conf)
    requires ValidSets(voters, learners) && Configuration.Valid(joint)
    requires forall x :: RolesOf(joint.members, x) == JointRoles(current.members, voters, learners, x)
    ensures Targets(FinalConf(joint), voters, learners)
  {
    hide NewVoter, OldVoter, Learner, FinalRoles, FinalMembers, RolesOf, JointRoles;
    forall x ensures
        RolesOf(FinalConf(joint).members, x) == if x == U64_MAX then 0 else StableRoles(voters, learners, x)
    {
      FinalRolesOf(joint.members, x);
      JointFinalRoles(current, voters, learners, x);
    }
  }

  lemma FinalShape(joint: Conf)
    ensures FinalConf(joint).phase == PHASE_FINAL && FinalConf(joint).transitionId == joint.transitionId
  {
  }

  /** One configuration staged on a settled machine, and a commit short of it or up to it. */
  lemma StageThenCommit(s: State, c: Conf, i: nat, k: nat)
    requires Legal(s) && s.pending == [] && Stageable(s, c, i)
    ensures var s' := Staged(s, c, i);
      s' == State(s.committed, [c], [i]) && Legal(s') && Do(s', CommitOp(k)) == if i <= k then State(c, [], []) else s'
  {
    hide MayFollow, Successor, Configuration.Valid;
    StageKeepsLegal(s, c, i);
    var s' := Staged(s, c, i);
    assert s.pending + [c] == [c] && s.indices + [i] == [i];
    ClampAppliesOne(s', k);
    assert s'.pending[1..] == [] && s'.indices[1..] == [];
  }

  /**
   A membership change from end to end: whatever is proposed to a settled
   machine, staged at one index, committed there, left through the final
   configuration and committed again, ends in the target sets with nothing
   pending. Commits short of the staged indices change nothing.
   */
  method Change(tr: Transition, voters: seq<U64>, learners: seq<U64>, id: U64, i: nat, j: nat) returns (status: Status)
    requires tr.Valid() && 0 < i < j
    modifies tr
    ensures tr.Valid()
    ensures status == OK <==>
      && old(tr.committed).phase == PHASE_FINAL && old(tr.pending) == [] && id != 0 && ValidSets(voters, learners)
      && Representable(old(tr.committed), voters) && StableValid(old(tr.committed))
      && |IdSet(IdsOf(old(tr.committed).members)) + IdSet(voters) + IdSet(learners)| <= MAX_MEMBERS
      && U64_MAX !in OldVoterSet(old(tr.committed).members)
    ensures status == OK ==> tr.pending == [] && StableValid(tr.committed) && tr.committed.transitionId == id
    ensures status == OK ==> Targets(tr.committed, voters, learners)
    ensures status != OK ==> tr.Now() == old(tr.Now())
  {
    hide Configuration.Valid, Stageable, StableValid, Representable, ValidSets, RolesOf, JointRoles, OldVoterSet, IdSet,
      Successor, MayFollow, Targets, FinalConf, Legal;
    ghost var s := tr.Now();
    var joint, final, limit;
    LegalLengths(s);
    status, joint := tr.Propose(voters, learners, id);
    if status != OK { return; }
    status := tr.Stage(joint, i);
    if status != OK { return; }
    StageThenCommit(s, joint, i, i - 1);
    limit := tr.Commit(i - 1);
    StageThenCommit(s, joint, i, i);
    limit := tr.Commit(i);
    s := tr.Now();
    status, final := tr.NextFinal();
    status := tr.Stage(final, j);
    StageThenCommit(s, final, j, j);
    limit := tr.Commit(j);
    FinalValid(joint);
    FinalShape(joint);
    FinalTargets(old(tr.committed), voters, learners, joint);
  }
}
