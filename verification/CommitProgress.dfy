/**
 The other half of the leader's commit rule: at every point of every run a
 leader has committed everything of its own term that a majority is known to
 hold.
 */
module CommitProgress {
  import opened RaftTypes
  import opened RaftNode
  import opened Cluster
  import opened ClusterInvariant
  import opened ClusterCalls
  import opened ClusterProgress
  import opened Safety
  import opened ClusterCommit
  import L = RaftLog

  /** Nothing of the leader's own term above its commit index is matched by a majority. */
  ghost predicate Maximal(cfg: Config, s: Node)
  {
    s.role == Leader ==>
      forall k :: s.commit < k <= |s.log| && s.log[k - 1].term == s.term ==> !IsQuorum(cfg, MatchedVoters(cfg, s, k))
  }

  /** A candidate's log holds nothing of the term it stands in. */
  ghost predicate Fresh(s: Node)
  {
    s.role == Candidate ==> TermsAtMost(s.log, s.term - 1)
  }

  ghost predicate Kept(cfg: Config, s: Node)
  {
    Maximal(cfg, s) && Fresh(s)
  }

  lemma SameVoters(cfg: Config, s: Node, s': Node)
    requires s'.progress.Keys == s.progress.Keys && s'.commit == s.commit && s'.log == s.log && s'.term == s.term
    requires s'.role == s.role && s.base <= s.commit
    requires forall p :: p in s.progress ==>
      s'.progress[p].matched == s.progress[p].matched || s.progress[p].matched <= s'.progress[p].matched <= s.base
    requires Kept(cfg, s)
    ensures Kept(cfg, s')
  {
    hide IsQuorum;
    forall k | s.commit < k <= |s.log| ensures MatchedVoters(cfg, s', k) == MatchedVoters(cfg, s, k) {
    }
  }

  lemma SendsKept(cfg: Config, s: Node, o: Out)
    requires Sends(s, o) && Kept(cfg, s) && s.base <= s.commit
    ensures Kept(cfg, o.node)
  {
    hide Kept, FromLeader;
    SameVoters(cfg, s, o.node);
  }

  lemma UpdateKept(cfg: Config, s: Node)
    requires s.role == Leader && s.commit <= |s.log|
    ensures Kept(cfg, UpdateCommit(cfg, s))
  {
    hide IsQuorum;
    var s' := UpdateCommit(cfg, s);
    forall k | s'.commit < k <= |s.log| && s.log[k - 1].term == s.term
      ensures !IsQuorum(cfg, MatchedVoters(cfg, s', k))
    {
      assert MatchedVoters(cfg, s', k) == MatchedVoters(cfg, s, k);
      assert TermAt(s.log, k) == s.term;
    }
  }

  lemma LeadKept(cfg: Config, n: NodeId, s: Node)
    requires NodeOK(cfg, n, s) && TermsAtMost(s.log, s.term - 1)
    ensures Kept(cfg, BecomeLeader(cfg, n, s).node)
  {
    hide Broadcast, Sends, IsQuorum;
    var s1 := TakeLeadership(cfg, n, s);
    assert ProgressInRange(cfg, s1);
    BroadcastSends(cfg, n, s1, cfg.peers);
    SendsKept(cfg, s1, Broadcast(cfg, n, s1, cfg.peers));
  }

  lemma ElectionKept(cfg: Config, n: NodeId, s: Node)
    requires NodeOK(cfg, n, s) && TermsAtMost(s.log, s.term) && s.campaign == s.term + 1
    ensures Kept(cfg, StartElection(cfg, n, s).node)
  {
    hide BecomeLeader, IsQuorum;
    LeadKept(cfg, n, Stand(n, s));
  }

  lemma PreVoteKept(cfg: Config, n: NodeId, s: Node)
    requires NodeOK(cfg, n, s) && TermsAtMost(s.log, s.term)
    ensures Kept(cfg, StartPreVote(cfg, n, s).node)
  {
    hide StartElection, IsQuorum;
    ElectionKept(cfg, n,
                 s.(role := PreCandidate, leaderId := 0, campaign := s.term + 1, preVotes := {n}, votes := {}));
  }

  lemma AcknowledgeKept(cfg: Config, s: Node, m: Message)
    requires m.AppendResp? && m.from in s.progress && s.role == Leader && s.base <= s.commit <= |s.log|
    requires Kept(cfg, s)
    ensures Kept(cfg, Acknowledge(cfg, s, m))
  {
    hide Kept, BackedOff, UpdateCommit, Advanced, IsQuorum;
    var pr := s.progress[m.from];
    AdvancedMatch(pr, m.matched);
    var s1 := s.(progress := s.progress[m.from := Advanced(pr, m.matched)]);
    if m.granted && m.matched > pr.matched {
      UpdateKept(cfg, s1);
    } else {
      BackedOffMatch(s.base, pr, m);
      SameVoters(cfg, s, Acknowledge(cfg, s, m));
    }
  }

  lemma AdvancedMatch(pr: Progress, matched: nat)
    ensures Advanced(pr, matched).matched == Max(pr.matched, matched)
  {
  }

  lemma BackedOffMatch(base: nat, pr: Progress, m: Message)
    requires m.AppendResp?
    ensures BackedOff(base, pr, m).matched == pr.matched
  {
  }

  lemma AppendRespKept(cfg: Config, n: NodeId, s: Node, m: Message, room: nat)
    requires NodeOK(cfg, n, s) && m.AppendResp? && m.from in s.progress && Kept(cfg, s)
    ensures Kept(cfg, HandleAppendResp(cfg, n, s, m, room).node)
  {
    hide Acknowledge, FillPeer, IgnoresResp, CommitRule, Sends;
    if m.term == s.term && s.role == Leader && !IgnoresResp(s, m) {
      var s1 := Acknowledge(cfg, s, m);
      AcknowledgeRule(cfg, s, m);
      AcknowledgeKept(cfg, s, m);
      AcknowledgeKeepsRange(cfg, s, m);
      FillSends(cfg, n, s1, m.from, room);
      SendsKept(cfg, s1, FillPeer(cfg, n, s1, m.from, room));
      SameVoters(cfg, s1, s1.(transferSent := m.from !in s1.paused));
    }
  }

  lemma CompletedKept(cfg: Config, n: NodeId, s: Node, p: NodeId, index: nat, room: nat)
    requires NodeOK(cfg, n, s) && Kept(cfg, s)
    ensures Kept(cfg, SnapshotCompleted(cfg, n, s, p, index, room).node)
  {
    hide FillPeer, Sends, Kept;
    if s.role == Leader && p in s.progress && index <= s.base {
      var s1 := s.(progress := s.progress[p := Progress(index + 1, Max(s.progress[p].matched, index), [], true)]);
      SameVoters(cfg, s, s1);
      FillSends(cfg, n, s1, p, room);
      SendsKept(cfg, s1, FillPeer(cfg, n, s1, p, room));
    }
  }

  lemma ProposeKept(cfg: Config, n: NodeId, s: Node, commands: seq<(nat, seq<Byte>)>)
    requires NodeOK(cfg, n, s) && Kept(cfg, s)
    ensures Kept(cfg, Propose(cfg, n, s, commands).node)
  {
    hide Broadcast, Sends, UpdateCommit, ValidProposals, Kept;
    if s.role == Leader && |s.log| - s.base + |commands| <= cfg.maxLog {
      var s1 := AppendLocal(n, s, Proposed(s, commands));
      UpdateKept(cfg, s1);
      UpdateCommitFields(cfg, s1);
      AppendLocalRange(cfg, n, s, commands);
      var s2 := UpdateCommit(cfg, s1);
      BroadcastSends(cfg, n, s2, cfg.peers);
      SendsKept(cfg, s2, Broadcast(cfg, n, s2, cfg.peers));
    }
  }

  lemma TickKept(cfg: Config, n: NodeId, s: Node, expired: set<NodeId>, heartbeat: bool)
    requires NodeOK(cfg, n, s) && s.role == Leader && Kept(cfg, s)
    ensures Kept(cfg, LeaderTick(cfg, n, s, expired, heartbeat).node)
  {
    hide Broadcast, Sends, Kept;
    var s1 := ExpireWindows(s, expired);
    SameVoters(cfg, s, s1);
    assert ProgressInRange(cfg, s1);
    BroadcastSends(cfg, n, s1, cfg.peers);
    SendsKept(cfg, s1, Broadcast(cfg, n, s1, cfg.peers));
  }

  lemma TransferKept(cfg: Config, n: NodeId, s: Node, target: NodeId)
    requires NodeOK(cfg, n, s) && Kept(cfg, s)
    ensures Kept(cfg, Transfer(cfg, n, s, target).node)
  {
    hide EmitReplication, Sends, Kept;
    if s.role == Leader && target in s.progress {
      var s1 := s.(transferTarget := target, transferSent := false);
      SameVoters(cfg, s, s1);
      SameVoters(cfg, s, s1.(transferSent := true));
      EmitSends(cfg, n, s1, target, false);
      SendsKept(cfg, s1, EmitReplication(cfg, n, s1, target, false));
    }
  }

  lemma FollowerKept(cfg: Config, s: Node)
    requires s.role == Follower
    ensures Kept(cfg, s)
  {
  }

  lemma ReceiveKept(cfg: Config, n: NodeId, s: Node, m: Message, room: nat)
    requires NodeOK(cfg, n, s) && m.from in cfg.peers && Kept(cfg, s) && TermsAtMost(s.log, s.term)
    requires s.campaign == 0 || (s.role == PreCandidate && s.campaign == s.term + 1)
    requires m.PreVoteResp? ==> m.campaign >= 1
    ensures Kept(cfg, Receive(cfg, n, s, m, room).node)
  {
    hide StartElection, BecomeLeader, HandleAppendResp, SnapshotCompleted, L.Reconcile, L.LogAfter, IsQuorum;
    if m.PreVoteResp? {
      if s.role == PreCandidate && m.campaign == s.campaign {
        ElectionKept(cfg, n, s.(preVotes := s.preVotes + {m.from}));
      }
    } else if m.VoteResp? {
      if s.role == Candidate { LeadKept(cfg, n, s.(votes := s.votes + {m.from})); }
    } else if m.AppendResp? { AppendRespKept(cfg, n, s, m, room); }
    else if m.TimeoutNow? { ElectionKept(cfg, n, s.(campaign := s.term + 1)); }
    else if m.SnapshotAck? { CompletedKept(cfg, n, s, m.from, m.index, room); }
    else { AnswerKept(cfg, n, s, m, room); }
  }

  /** Requests leave the node's own leadership alone or end it. */
  lemma AnswerKept(cfg: Config, n: NodeId, s: Node, m: Message, room: nat)
    requires NodeOK(cfg, n, s) && m.from in cfg.peers && Kept(cfg, s)
    requires m.PreVoteReq? || m.VoteReq? || m.AppendReq? || m.ReadReq? || m.ReadResp? || m.SnapshotMsg?
    ensures Kept(cfg, Receive(cfg, n, s, m, room).node)
  {
    hide L.Reconcile, L.LogAfter, IsQuorum, UpToDate, MatchedVoters, Kept;
    var s' := Receive(cfg, n, s, m, room).node;
    if s'.role == Follower { FollowerKept(cfg, s'); } else { SameVoters(cfg, s, s'); }
  }

  lemma FireKept(cfg: Config, c: Cluster, h: History, e: Event)
    requires ValidConfig(cfg) && Inv(cfg, c, h) && Enabled(cfg, c, e) && Kept(cfg, c.nodes[e.n])
    ensures NodeOK(cfg, e.n, c.nodes[e.n]) && Kept(cfg, Fire(cfg, c.nodes[e.n], e).node)
  {
    hide Inv, StartPreVote, LeaderTick, Receive, Propose, Transfer, EmitReplication, LeaderOK, ValidConfig, Kept;
    var n, s := e.n, c.nodes[e.n];
    InvNode(cfg, c, h, n);
    if e.Deliver? {
      InvMsg(cfg, c, h, e.m);
      if Deliverable(cfg, n, e.m) { ReceiveKept(cfg, n, s, e.m, e.room); }
    } else if e.ElectionTimeout? { if s.role != Leader { PreVoteKept(cfg, n, s); } }
    else if e.TickLeader? { if s.role == Leader { TickKept(cfg, n, s, e.expired, e.heartbeat); } }
    else if e.Submit? { ProposeKept(cfg, n, s, e.commands); }
    else if e.TransferTo? { TransferKept(cfg, n, s, e.target); }
    else if e.PollPeer? {
      if s.role == Leader && e.p in s.progress {
        EmitSends(cfg, n, s, e.p, false);
        SendsKept(cfg, s, EmitReplication(cfg, n, s, e.p, false));
      }
    } else { LocalKept(cfg, s, e); }
  }

  lemma LocalKept(cfg: Config, s: Node, e: Event)
    requires NodeOK(cfg, e.n, s) && Kept(cfg, s)
    requires e.CheckQuorumFailed? || e.TransferExpired? || e.SetPaused? || e.StartRead? || e.Compact? || e.Reboot?
    ensures Kept(cfg, Fire(cfg, s, e).node)
  {
    hide Kept;
    var s' := Fire(cfg, s, e).node;
    if s'.role == Follower {
      FollowerKept(cfg, s');
    } else {
      SameVoters(cfg, s, s'.(base := s.base));
      SameVoters(cfg, s'.(base := s.base), s');
    }
  }

  lemma {:induction false} RunKept(cfg: Config, cs: seq<Cluster>, es: seq<Event>, i: nat, n: NodeId)
    requires IsRun(cfg, cs, es) && i < |cs| && n in cs[i].nodes
    ensures Kept(cfg, cs[i].nodes[n])
    decreases i
  {
    hide Inv, Kept, Fire, ClusterOK;
    if i == 0 {
      FollowerKept(cfg, cs[0].nodes[n]);
    } else {
      StepAt(cfg, cs, es, i - 1);
      var hs := Histories(cfg, cs, es);
      var c, e := cs[i - 1], es[i - 1];
      assert Step(cfg, c, e, cs[i]);
      RunKept(cfg, cs, es, i - 1, e.n);
      FireKept(cfg, c, hs[i - 1], e);
      if n != e.n { RunKept(cfg, cs, es, i - 1, n); }
    }
  }

  // ------------------------------------------------- the leader's own record

  /** A leader counts itself for its whole log. */
  ghost predicate Own(n: NodeId, s: Node)
  {
    s.role == Leader ==> n in s.progress && s.progress[n].matched == |s.log|
  }

  lemma SendsOwn(n: NodeId, s: Node, o: Out)
    requires Sends(s, o) && Own(n, s)
    ensures Own(n, o.node)
  {
  }

  lemma LeadOwn(cfg: Config, n: NodeId, s: Node)
    requires NodeOK(cfg, n, s)
    ensures Own(n, BecomeLeader(cfg, n, s).node)
  {
    hide Broadcast, Sends;
    var s1 := TakeLeadership(cfg, n, s);
    assert ProgressInRange(cfg, s1);
    BroadcastSends(cfg, n, s1, cfg.peers);
    SendsOwn(n, s1, Broadcast(cfg, n, s1, cfg.peers));
  }

  lemma ElectionOwn(cfg: Config, n: NodeId, s: Node)
    requires NodeOK(cfg, n, s)
    ensures Own(n, StartElection(cfg, n, s).node) && Own(n, StartPreVote(cfg, n, s).node)
  {
    hide BecomeLeader, IsQuorum;
    var s1 := s.(role := PreCandidate, leaderId := 0, campaign := s.term + 1, preVotes := {n}, votes := {});
    LeadOwn(cfg, n, Stand(n, s));
    LeadOwn(cfg, n, Stand(n, s1));
  }

  lemma ResponseOwn(cfg: Config, n: NodeId, s: Node, m: Message, room: nat)
    requires NodeOK(cfg, n, s) && m.AppendResp? && m.from in s.progress && m.from != n && Own(n, s)
    ensures Own(n, HandleAppendResp(cfg, n, s, m, room).node)
  {
    hide FillPeer, IgnoresResp, CommitRule, Sends, UpdateCommit, BackedOff, Advanced;
    if m.term == s.term && s.role == Leader && !IgnoresResp(s, m) {
      var s1 := Acknowledge(cfg, s, m);
      UpdateCommitFields(cfg, s.(progress := s.progress[m.from := Advanced(s.progress[m.from], m.matched)]));
      AcknowledgeKeepsRange(cfg, s, m);
      FillSends(cfg, n, s1, m.from, room);
      SendsOwn(n, s1, FillPeer(cfg, n, s1, m.from, room));
    }
  }

  lemma CompletedOwn(cfg: Config, n: NodeId, s: Node, p: NodeId, index: nat, room: nat)
    requires NodeOK(cfg, n, s) && Own(n, s)
    ensures Own(n, SnapshotCompleted(cfg, n, s, p, index, room).node)
  {
    hide FillPeer, Sends;
    if s.role == Leader && p != n && p in s.progress && index <= s.base {
      var s1 := s.(progress := s.progress[p := Progress(index + 1, Max(s.progress[p].matched, index), [], true)]);
      FillSends(cfg, n, s1, p, room);
      SendsOwn(n, s1, FillPeer(cfg, n, s1, p, room));
    }
  }

  lemma ProposeOwn(cfg: Config, n: NodeId, s: Node, commands: seq<(nat, seq<Byte>)>)
    requires NodeOK(cfg, n, s) && Own(n, s)
    ensures Own(n, Propose(cfg, n, s, commands).node)
  {
    hide Broadcast, Sends, UpdateCommit, ValidProposals;
    if s.role == Leader {
      var s1 := AppendLocal(n, s, Proposed(s, commands));
      UpdateCommitFields(cfg, s1);
      AppendLocalRange(cfg, n, s, commands);
      BroadcastSends(cfg, n, UpdateCommit(cfg, s1), cfg.peers);
      SendsOwn(n, UpdateCommit(cfg, s1), Broadcast(cfg, n, UpdateCommit(cfg, s1), cfg.peers));
    }
  }

  lemma ReceiveOwn(cfg: Config, n: NodeId, s: Node, m: Message, room: nat)
    requires NodeOK(cfg, n, s) && m.from in cfg.peers && m.from != n && Own(n, s)
    ensures Own(n, Receive(cfg, n, s, m, room).node)
  {
    hide StartElection, StartPreVote, BecomeLeader, HandleAppendResp, SnapshotCompleted, L.Reconcile, IsQuorum;
    hide UpToDate;
    if m.PreVoteResp? { ElectionOwn(cfg, n, s.(preVotes := s.preVotes + {m.from})); }
    else if m.VoteResp? { LeadOwn(cfg, n, s.(votes := s.votes + {m.from})); }
    else if m.AppendResp? { ResponseOwn(cfg, n, s, m, room); }
    else if m.TimeoutNow? { ElectionOwn(cfg, n, s.(campaign := s.term + 1)); }
    else if m.SnapshotAck? { CompletedOwn(cfg, n, s, m.from, m.index, room); }
  }

  lemma FireOwn(cfg: Config, s: Node, e: Event)
    requires NodeOK(cfg, e.n, s) && Own(e.n, s)
    ensures Own(e.n, Fire(cfg, s, e).node)
  {
    hide StartPreVote, Receive, Propose, EmitReplication, Broadcast, Sends;
    var n := e.n;
    if e.Deliver? { if Deliverable(cfg, n, e.m) { ReceiveOwn(cfg, n, s, e.m, e.room); } }
    else if e.ElectionTimeout? { ElectionOwn(cfg, n, s); }
    else if e.TickLeader? {
      if s.role == Leader {
        var s1 := ExpireWindows(s, e.expired);
        assert ProgressInRange(cfg, s1);
        BroadcastSends(cfg, n, s1, cfg.peers);
        SendsOwn(n, s1, Broadcast(cfg, n, s1, cfg.peers));
      }
    } else if e.Submit? { ProposeOwn(cfg, n, s, e.commands); }
    else if e.TransferTo? {
      if s.role == Leader && e.target in s.progress {
        var s1 := s.(transferTarget := e.target, transferSent := false);
        EmitSends(cfg, n, s1, e.target, false);
        SendsOwn(n, s1, EmitReplication(cfg, n, s1, e.target, false));
      }
    } else if e.PollPeer? {
      if s.role == Leader && e.p in s.progress {
        EmitSends(cfg, n, s, e.p, false);
        SendsOwn(n, s, EmitReplication(cfg, n, s, e.p, false));
      }
    }
  }

  lemma {:induction false} RunOwn(cfg: Config, cs: seq<Cluster>, es: seq<Event>, i: nat, n: NodeId)
    requires IsRun(cfg, cs, es) && i < |cs| && n in cs[i].nodes
    ensures Own(n, cs[i].nodes[n])
    decreases i
  {
    hide Fire, NodeOK;
    if i > 0 {
      StepAt(cfg, cs, es, i - 1);
      var c, e := cs[i - 1], es[i - 1];
      assert Step(cfg, c, e, cs[i]);
      RunOwn(cfg, cs, es, i - 1, n);
      if n == e.n { FireOwn(cfg, c.nodes[n], e); }
    }
  }

  /** The voters whose match index shows the first k entries. */
  ghost function Holders(cfg: Config, s: Node, k: nat): (vs: set<NodeId>)
  {
    set v | v in cfg.voters && v in s.progress && k <= s.progress[v].matched
  }

  /**
   At every point of every run an entry of the leader's own term is committed
   there as soon as the match indices show it at a majority of the voters.
   */
  lemma LeaderCommitsAll(cfg: Config, cs: seq<Cluster>, es: seq<Event>, i: nat, n: NodeId, k: nat)
    requires IsRun(cfg, cs, es) && i < |cs| && n in cs[i].nodes && cs[i].nodes[n].role == Leader
    requires var s := cs[i].nodes[n];
      && 1 <= k <= |s.log| && s.log[k - 1].term == s.term
      && 2 * |Holders(cfg, s, k)| > |cfg.voters|
    ensures k <= cs[i].nodes[n].commit
  {
    hide IsRun;
    RunKept(cfg, cs, es, i, n);
    var s := cs[i].nodes[n];
    assert MatchedVoters(cfg, s, k) == Holders(cfg, s, k);
    assert MatchedVoters(cfg, s, k) * cfg.voters == MatchedVoters(cfg, s, k);
  }
}
