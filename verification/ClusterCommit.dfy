/**
 Commit indices.  A leader's commit rule is sound in every run.  A follower
 bounds the leader's commit index by its own last entry, not by the last entry
 the request vouches for, so agreement of committed entries is proved for the
 runs in which that bound does not reach past both the request and the
 follower's commit index.
 */
module ClusterCommit {
  import opened RaftTypes
  import opened RaftNode
  import opened Cluster
  import opened ClusterInvariant
  import opened ClusterCalls
  import opened ClusterProgress
  import opened Safety

  // ------------------------------------------------- what one call can emit

  /** Replication traffic carries the sender's term and commit index, or its whole snapshot. */
  predicate FromLeader(s: Node, m: Message)
  {
    || (m.AppendReq? && m.term == s.term && m.leaderCommit == s.commit && (m.entries == [] ==> m.prev == |s.log|))
    || (m.SnapshotMsg? && m.term == s.term && s.base <= |s.log| && m.prefix == s.log[..s.base])
  }

  /** The call changed only send positions and windows. */
  ghost predicate Sends(s: Node, o: Out)
  {
    && o.node == s.(progress := o.node.progress) && o.node.progress.Keys == s.progress.Keys
    && (forall p :: p in s.progress ==> o.node.progress[p].matched == s.progress[p].matched)
    && (forall m :: m in o.msgs ==> FromLeader(s, m))
  }

  lemma EmitSends(cfg: Config, n: NodeId, s: Node, p: NodeId, heartbeat: bool)
    requires ProgressInRange(cfg, s) && p in s.progress
    ensures Sends(s, EmitReplication(cfg, n, s, p, heartbeat))
  {
  }

  lemma SendsTwice(s: Node, a: Out, b: Out)
    requires Sends(s, a) && Sends(a.node, b)
    ensures Sends(s, Out(b.node, a.msgs + b.msgs))
  {
  }

  lemma {:induction false} BroadcastSends(cfg: Config, n: NodeId, s: Node, ps: seq<NodeId>)
    requires ProgressInRange(cfg, s) && forall p :: p in ps ==> p in s.progress
    ensures Sends(s, Broadcast(cfg, n, s, ps))
    decreases ps
  {
    if ps != [] {
      hide EmitReplication;
      EmitKeepsRange(cfg, n, s, ps[0], true);
      if ps[0] == n { BroadcastSends(cfg, n, s, ps[1..]); }
      else {
        var first := EmitReplication(cfg, n, s, ps[0], true);
        EmitSends(cfg, n, s, ps[0], true);
        BroadcastSends(cfg, n, first.node, ps[1..]);
        SendsTwice(s, first, Broadcast(cfg, n, first.node, ps[1..]));
      }
    }
  }

  lemma {:induction false} FillSends(cfg: Config, n: NodeId, s: Node, p: NodeId, room: nat)
    requires ProgressInRange(cfg, s) && p in s.progress
    ensures Sends(s, FillPeer(cfg, n, s, p, room))
    decreases room
  {
    hide EmitReplication;
    EmitSends(cfg, n, s, p, false);
    EmitKeepsRange(cfg, n, s, p, false);
    var first := EmitReplication(cfg, n, s, p, false);
    if room > 0 {
      FillSends(cfg, n, first.node, p, room - 1);
      SendsTwice(s, first, FillPeer(cfg, n, first.node, p, room - 1));
    }
  }

  /**
   The committed prefix is kept, and a commit index that moves satisfies the
   leader's commit rule.
   */
  ghost predicate Advances(cfg: Config, s: Node, o: Out)
  {
    && s.term <= o.node.term && s.commit <= o.node.commit && s.commit <= |s.log|
    && Agree(s.log, o.node.log, s.commit)
    && (o.node.commit == s.commit || CommitRule(cfg, o.node, o.node.commit))
    && (forall m :: m in o.msgs && (m.AppendReq? || m.SnapshotMsg?) ==> o.node.role == Leader && FromLeader(o.node, m))
    && (forall m :: m in o.msgs ==> !m.SnapshotAck?)
  }

  lemma SendsAdvances(cfg: Config, s: Node, s1: Node, o: Out)
    requires s.term <= s1.term && s.commit <= s1.commit && s.commit <= |s.log| && Agree(s.log, s1.log, s.commit)
    requires s1.commit == s.commit || CommitRule(cfg, s1, s1.commit)
    requires Sends(s1, o) && s1.role == Leader
    ensures Advances(cfg, s, o)
  {
    if s1.commit != s.commit {
      assert MatchedVoters(cfg, o.node, s1.commit) == MatchedVoters(cfg, s1, s1.commit);
    }
  }

  lemma LeadAdvances(cfg: Config, n: NodeId, s: Node)
    requires NodeOK(cfg, n, s)
    ensures Advances(cfg, s, BecomeLeader(cfg, n, s))
  {
    hide Broadcast, Advances, Sends;
    var s1 := TakeLeadership(cfg, n, s);
    assert ProgressInRange(cfg, s1);
    BroadcastSends(cfg, n, s1, cfg.peers);
    SendsAdvances(cfg, s, s1, Broadcast(cfg, n, s1, cfg.peers));
  }

  lemma ElectionAdvances(cfg: Config, n: NodeId, s: Node)
    requires NodeOK(cfg, n, s) && s.campaign >= s.term
    ensures Advances(cfg, s, StartElection(cfg, n, s))
  {
    hide BecomeLeader;
    LeadAdvances(cfg, n, Stand(n, s));
  }

  lemma PreVoteAdvances(cfg: Config, n: NodeId, s: Node)
    requires NodeOK(cfg, n, s) && s.role != Leader
    ensures Advances(cfg, s, StartPreVote(cfg, n, s))
  {
    hide StartElection;
    ElectionAdvances(cfg, n,
      s.(role := PreCandidate, leaderId := 0, campaign := s.term + 1, preVotes := {n}, votes := {}));
  }

  lemma UpdateCommitRule(cfg: Config, s: Node)
    requires s.role == Leader && s.commit <= |s.log|
    ensures var s' := UpdateCommit(cfg, s);
      s.commit <= s'.commit <= |s.log| && (s'.commit == s.commit || CommitRule(cfg, s', s'.commit))
  {
    var s' := UpdateCommit(cfg, s);
    assert MatchedVoters(cfg, s', s'.commit) == MatchedVoters(cfg, s, s'.commit);
  }

  lemma AcknowledgeRule(cfg: Config, s: Node, m: Message)
    requires m.AppendResp? && m.from in s.progress && s.role == Leader && s.commit <= |s.log|
    ensures var s' := Acknowledge(cfg, s, m);
      && s' == s.(progress := s'.progress, commit := s'.commit)
      && s.commit <= s'.commit <= |s.log| && (s'.commit == s.commit || CommitRule(cfg, s', s'.commit))
  {
    UpdateCommitRule(cfg, s.(progress := s.progress[m.from := Advanced(s.progress[m.from], m.matched)]));
  }

  lemma AppendRespAdvances(cfg: Config, n: NodeId, s: Node, m: Message, room: nat)
    requires NodeOK(cfg, n, s) && m.AppendResp? && m.from in s.progress
    ensures Advances(cfg, s, HandleAppendResp(cfg, n, s, m, room))
  {
    hide Acknowledge, FillPeer, IgnoresResp, CommitRule;
    if m.term == s.term && s.role == Leader && !IgnoresResp(s, m) {
      var s1 := Acknowledge(cfg, s, m);
      AcknowledgeRule(cfg, s, m);
      AcknowledgeKeepsRange(cfg, s, m);
      FillSends(cfg, n, s1, m.from, room);
      SendsAdvances(cfg, s, s1, FillPeer(cfg, n, s1, m.from, room));
      HandOverRule(cfg, s1, s1.(transferSent := m.from !in s.paused));
    }
  }

  lemma HandOverRule(cfg: Config, s: Node, s': Node)
    requires s' == s.(transferSent := s'.transferSent)
    ensures forall k :: CommitRule(cfg, s, k) ==> CommitRule(cfg, s', k)
  {
    forall k | CommitRule(cfg, s, k) ensures CommitRule(cfg, s', k) {
      assert MatchedVoters(cfg, s', k) == MatchedVoters(cfg, s, k);
    }
  }

  lemma CompletedAdvances(cfg: Config, n: NodeId, s: Node, p: NodeId, index: nat, room: nat)
    requires NodeOK(cfg, n, s)
    ensures Advances(cfg, s, SnapshotCompleted(cfg, n, s, p, index, room))
  {
    hide FillPeer, Sends;
    if s.role == Leader && p in s.progress && index <= s.base {
      CompletedOK(cfg, n, s, p, index);
      var s1 := s.(progress := s.progress[p := Progress(index + 1, Max(s.progress[p].matched, index), [], true)]);
      FillSends(cfg, n, s1, p, room);
      SendsAdvances(cfg, s, s1, FillPeer(cfg, n, s1, p, room));
    }
  }

  lemma ProposeAdvances(cfg: Config, n: NodeId, s: Node, commands: seq<(nat, seq<Byte>)>)
    requires ValidConfig(cfg) && NodeOK(cfg, n, s)
    ensures Advances(cfg, s, Propose(cfg, n, s, commands))
  {
    hide Broadcast, Sends, UpdateCommit, CommitRule, ValidProposals;
    if s.role == Leader && |s.log| - s.base + |commands| <= cfg.maxLog {
      var s1 := AppendLocal(n, s, Proposed(s, commands));
      UpdateCommitRule(cfg, s1);
      var s2 := UpdateCommit(cfg, s1);
      UpdateCommitFields(cfg, s1);
      AppendLocalRange(cfg, n, s, commands);
      BroadcastSends(cfg, n, s2, cfg.peers);
      SendsAdvances(cfg, s, s2, Broadcast(cfg, n, s2, cfg.peers));
    }
  }

  lemma AppendLocalRange(cfg: Config, n: NodeId, s: Node, commands: seq<(nat, seq<Byte>)>)
    requires NodeOK(cfg, n, s) && s.role == Leader
    ensures var s1 := AppendLocal(n, s, Proposed(s, commands));
      ProgressInRange(cfg, s1) && s1.role == Leader && s1.term == s.term && s1.commit == s.commit &&
      Agree(s.log, s1.log, |s.log|)
  {
    assert AppendLocal(n, s, Proposed(s, commands)).progress.Keys == s.progress.Keys;
  }

  lemma TickAdvances(cfg: Config, n: NodeId, s: Node, expired: set<NodeId>, heartbeat: bool)
    requires NodeOK(cfg, n, s) && s.role == Leader
    ensures Advances(cfg, s, LeaderTick(cfg, n, s, expired, heartbeat))
  {
    hide Broadcast, Sends;
    var s1 := ExpireWindows(s, expired);
    assert ProgressInRange(cfg, s1);
    BroadcastSends(cfg, n, s1, cfg.peers);
    SendsAdvances(cfg, s, s1, Broadcast(cfg, n, s1, cfg.peers));
  }

  lemma TransferAdvances(cfg: Config, n: NodeId, s: Node, target: NodeId)
    requires NodeOK(cfg, n, s)
    ensures Advances(cfg, s, Transfer(cfg, n, s, target))
  {
    hide EmitReplication;
    if s.role == Leader && target in s.progress {
      var s1 := s.(transferTarget := target, transferSent := false);
      EmitSends(cfg, n, s1, target, false);
      SendsAdvances(cfg, s, s1, EmitReplication(cfg, n, s1, target, false));
    }
  }

  lemma PollAdvances(cfg: Config, n: NodeId, s: Node, p: NodeId)
    requires NodeOK(cfg, n, s) && s.role == Leader && p in s.progress
    ensures Advances(cfg, s, EmitReplication(cfg, n, s, p, false))
  {
    hide EmitReplication;
    EmitSends(cfg, n, s, p, false);
    SendsAdvances(cfg, s, s, EmitReplication(cfg, n, s, p, false));
  }

  /** The two calls in which a follower takes a commit index from a message. */
  predicate FollowerCommits(e: Event)
  {
    e.Deliver? && (e.m.AppendReq? || e.m.SnapshotMsg?)
  }

  lemma ReceiveAdvances(cfg: Config, n: NodeId, s: Node, m: Message, room: nat)
    requires NodeOK(cfg, n, s) && m.from in cfg.peers && !m.AppendReq? && !m.SnapshotMsg?
    requires s.campaign == 0 || s.campaign >= s.term
    requires m.PreVoteResp? ==> m.campaign >= 1
    ensures Advances(cfg, s, Receive(cfg, n, s, m, room))
  {
    hide StartElection, BecomeLeader, HandleAppendResp, SnapshotCompleted;
    if m.PreVoteResp? {
      if s.campaign >= s.term { ElectionAdvances(cfg, n, s.(preVotes := s.preVotes + {m.from})); }
    } else if m.VoteResp? { LeadAdvances(cfg, n, s.(votes := s.votes + {m.from})); }
    else if m.AppendResp? { AppendRespAdvances(cfg, n, s, m, room); }
    else if m.TimeoutNow? { ElectionAdvances(cfg, n, s.(campaign := s.term + 1)); }
    else if m.SnapshotAck? { CompletedAdvances(cfg, n, s, m.from, m.index, room); }
  }

  lemma FireAdvances(cfg: Config, c: Cluster, h: History, e: Event)
    requires ValidConfig(cfg) && Inv(cfg, c, h) && Enabled(cfg, c, e) && !FollowerCommits(e)
    ensures NodeOK(cfg, e.n, c.nodes[e.n])
    ensures Advances(cfg, c.nodes[e.n], Fire(cfg, c.nodes[e.n], e))
  {
    hide Inv, StartPreVote, LeaderTick, Receive, Propose, Transfer, EmitReplication, LogOK, LeaderOK, ValidConfig;
    var n, s := e.n, c.nodes[e.n];
    InvNode(cfg, c, h, n);
    if e.Deliver? {
      InvMsg(cfg, c, h, e.m);
      if Deliverable(cfg, n, e.m) { ReceiveAdvances(cfg, n, s, e.m, e.room); }
    } else if e.ElectionTimeout? { if s.role != Leader { PreVoteAdvances(cfg, n, s); } }
    else if e.TickLeader? { if s.role == Leader { TickAdvances(cfg, n, s, e.expired, e.heartbeat); } }
    else if e.Submit? { ProposeAdvances(cfg, n, s, e.commands); }
    else if e.TransferTo? { TransferAdvances(cfg, n, s, e.target); }
    else if e.PollPeer? { if s.role == Leader && e.p in s.progress { PollAdvances(cfg, n, s, e.p); } }
  }
}
