/** Every core call keeps the cluster invariant, for a suitably extended history. */
module ClusterCalls {
  import opened RaftTypes
  import opened RaftNode
  import opened Cluster
  import opened ClusterInvariant
  import opened ClusterSteps
  import opened ClusterGrowth

  lemma ExtendsItself(h: History)
    ensures Extends(h, h)
  {
  }

  lemma ExtendsChain(h0: History, h1: History, h2: History)
    requires Extends(h0, h1) && Extends(h1, h2)
    ensures Extends(h0, h2)
  {
    forall t | t in h0.ballots ensures t in h2.ballots && GrownBallot(t, h0.ballots[t], h2.ballots[t]) {
      assert GrownBallot(t, h0.ballots[t], h1.ballots[t]) && GrownBallot(t, h1.ballots[t], h2.ballots[t]);
    }
  }

  /** Two calls of the same core in a row act as one. */
  lemma ApplyTwice(c: Cluster, n: NodeId, a: Out, b: Out)
    ensures Apply(Apply(c, n, a), n, b) == Apply(c, n, Out(b.node, a.msgs + b.msgs))
  {
    assert c.net + a.msgs + b.msgs == c.net + (a.msgs + b.msgs);
    assert c.nodes[n := a.node][n := b.node] == c.nodes[n := b.node];
  }

  lemma ApplyNothing(c: Cluster, n: NodeId, s: Node)
    ensures Apply(c, n, Out(s, {})) == With(c, n, s)
    ensures n in c.nodes && c.nodes[n] == s ==> With(c, n, s) == c
  {
    assert c.net + {} == c.net;
    if n in c.nodes && c.nodes[n] == s { assert c.nodes[n := s] == c.nodes; }
  }

  /** What the invariant says of one node. */
  lemma InvNode(cfg: Config, c: Cluster, h: History, n: NodeId)
    requires Inv(cfg, c, h) && n in c.nodes
    ensures NodeOK(cfg, n, c.nodes[n]) && LogOK(h, c.nodes[n]) && LeaderOK(h, n, c.nodes[n])
    ensures CandidateOK(cfg, h, n, c.nodes[n])
    ensures c.nodes.Keys == Peers(cfg)
  {
  }

  lemma InvMsg(cfg: Config, c: Cluster, h: History, m: Message)
    requires Inv(cfg, c, h) && m in c.net
    ensures MsgOK(c, h, m)
  {
  }

  lemma QuietApply(cfg: Config, c: Cluster, h: History, n: NodeId, o: Out)
    requires Inv(cfg, c, h) && n in c.nodes && Quiet(cfg, h, n, c.nodes[n], o.node) && NodeOK(cfg, n, o.node)
    requires forall m :: m in o.msgs ==> MsgOK(With(c, n, o.node), h, m)
    ensures Inv(cfg, Apply(c, n, o), h)
  {
    hide Inv, Quiet, NodeOK, MsgOK;
    QuietInv(cfg, c, h, n, o.node);
    AddMessages(cfg, With(c, n, o.node), h, o.msgs);
  }

  // ------------------------------------------------------------- emission

  lemma EmittedOK(cfg: Config, c: Cluster, h: History, n: NodeId, p: NodeId, heartbeat: bool, m: Message)
    requires BallotsOK(cfg, c, h) && NodesOK(cfg, c, h) && n in c.nodes && c.nodes[n].role == Leader
    requires ProgressInRange(cfg, c.nodes[n]) && p in c.nodes[n].progress
    requires m in EmitReplication(cfg, n, c.nodes[n], p, heartbeat).msgs
    ensures MsgOK(c, h, m)
  {
    assert LeaderOK(h, n, c.nodes[n]);
    NoLaterBallots(cfg, c, h, n);
    hide BallotsOK, NodesOK, MatchesOK;
    EmittedShape(cfg, n, c.nodes[n], p, heartbeat, m);
  }

  /** What one emission can contain. */
  lemma EmittedShape(cfg: Config, n: NodeId, s: Node, p: NodeId, heartbeat: bool, m: Message)
    requires ProgressInRange(cfg, s) && p in s.progress && m in EmitReplication(cfg, n, s, p, heartbeat).msgs
    ensures m.AppendReq? || m.SnapshotMsg?
    ensures m.AppendReq? ==> m.term == s.term && m.prev + |m.entries| <= |s.log| && m.prevTerm == TermAt(s.log, m.prev)
                             && m.entries == s.log[m.prev..m.prev + |m.entries|]
    ensures m.SnapshotMsg? ==> m.from == n && m.term == s.term && m.prefix == s.log[..s.base]
  {
    var pr := s.progress[p];
    if pr.next == |s.log| + 1 { assert s.log[|s.log|..|s.log|] == []; }
  }

  /** A node leads no term beyond its own. */
  lemma NoLaterBallots(cfg: Config, c: Cluster, h: History, n: NodeId)
    requires BallotsOK(cfg, c, h) && n in c.nodes
    ensures forall u :: u in h.ballots && u > c.nodes[n].term ==> h.ballots[u].leader != n
  {
    forall u | u in h.ballots ensures u > c.nodes[n].term ==> h.ballots[u].leader != n {
      assert BallotOK(cfg, c, h, u);
    }
  }

  lemma EmitQuiet(cfg: Config, h: History, n: NodeId, s: Node, p: NodeId, heartbeat: bool)
    requires NodeOK(cfg, n, s) && s.role == Leader && p in s.progress && LeaderOK(h, n, s) && CandidateOK(cfg, h, n, s)
    ensures var s' := EmitReplication(cfg, n, s, p, heartbeat).node; Quiet(cfg, h, n, s, s') && NodeOK(cfg, n, s')
  {
    EmitKeepsWindow(cfg, n, s, p, heartbeat);
    MatchesKept(h, s, EmitReplication(cfg, n, s, p, heartbeat).node);
  }

  lemma EmitInv(cfg: Config, c: Cluster, h: History, n: NodeId, p: NodeId, heartbeat: bool)
    requires Inv(cfg, c, h) && n in c.nodes && c.nodes[n].role == Leader && p in c.nodes[n].progress
    ensures ProgressInRange(cfg, c.nodes[n])
    ensures Inv(cfg, Apply(c, n, EmitReplication(cfg, n, c.nodes[n], p, heartbeat)), h)
  {
    InvNode(cfg, c, h, n);
    EmitQuiet(cfg, h, n, c.nodes[n], p, heartbeat);
    EmitMessages(cfg, c, h, n, p, heartbeat);
    EmitApply(cfg, c, h, n, EmitReplication(cfg, n, c.nodes[n], p, heartbeat));
  }

  lemma EmitMessages(cfg: Config, c: Cluster, h: History, n: NodeId, p: NodeId, heartbeat: bool)
    requires Inv(cfg, c, h) && n in c.nodes && c.nodes[n].role == Leader && p in c.nodes[n].progress
    requires ProgressInRange(cfg, c.nodes[n])
    ensures forall m :: m in EmitReplication(cfg, n, c.nodes[n], p, heartbeat).msgs ==> MsgOK(c, h, m)
  {
    forall m | m in EmitReplication(cfg, n, c.nodes[n], p, heartbeat).msgs ensures MsgOK(c, h, m) {
      EmittedOK(cfg, c, h, n, p, heartbeat, m);
    }
  }

  /** Messages true before a quiet change of their sender are true after it. */
  lemma EmitApply(cfg: Config, c: Cluster, h: History, n: NodeId, o: Out)
    requires Inv(cfg, c, h) && n in c.nodes && Quiet(cfg, h, n, c.nodes[n], o.node) && NodeOK(cfg, n, o.node)
    requires forall m :: m in o.msgs ==> MsgOK(c, h, m)
    ensures Inv(cfg, Apply(c, n, o), h)
  {
    hide Inv, MsgOK, NodeOK;
    forall m | m in o.msgs ensures MsgOK(With(c, n, o.node), h, m) { KeepMsg(c, h, n, o.node, m); }
    QuietApply(cfg, c, h, n, o);
  }

  /** Match indices depend only on term, log and the match fields. */
  lemma MatchesKept(h: History, s: Node, s': Node)
    requires MatchesOK(h, s) && s'.term == s.term && s'.log == s.log
    requires forall p :: p in s'.progress ==> p in s.progress && s'.progress[p].matched <= s.progress[p].matched
    ensures MatchesOK(h, s')
  {
    forall p, m | p in s'.progress && 1 <= m <= s'.progress[p].matched && m <= |s'.log| && s'.log[m - 1].term == s'.term
      ensures Acked(h, p, s'.term, m)
    {
      assert m <= s.progress[p].matched;
    }
  }

  lemma {:induction false} BroadcastInv(cfg: Config, c: Cluster, h: History, n: NodeId, ps: seq<NodeId>)
    requires Inv(cfg, c, h) && n in c.nodes && c.nodes[n].role == Leader
    requires forall p :: p in ps ==> p in c.nodes[n].progress
    ensures ProgressInRange(cfg, c.nodes[n])
    ensures Inv(cfg, Apply(c, n, Broadcast(cfg, n, c.nodes[n], ps)), h)
    decreases ps
  {
    hide Inv;
    var s := c.nodes[n];
    InvNode(cfg, c, h, n);
    if ps == [] {
      ApplyNothing(c, n, s);
    } else if ps[0] == n {
      BroadcastInv(cfg, c, h, n, ps[1..]);
    } else {
      var first := EmitReplication(cfg, n, s, ps[0], true);
      EmitInv(cfg, c, h, n, ps[0], true);
      EmitKeepsWindow(cfg, n, s, ps[0], true);
      BroadcastInv(cfg, Apply(c, n, first), h, n, ps[1..]);
      ApplyTwice(c, n, first, Broadcast(cfg, n, first.node, ps[1..]));
    }
  }

  lemma {:induction false} FillInv(cfg: Config, c: Cluster, h: History, n: NodeId, p: NodeId, room: nat)
    requires Inv(cfg, c, h) && n in c.nodes && c.nodes[n].role == Leader && p in c.nodes[n].progress
    ensures ProgressInRange(cfg, c.nodes[n])
    ensures Inv(cfg, Apply(c, n, FillPeer(cfg, n, c.nodes[n], p, room)), h)
    decreases room
  {
    hide Inv, EmitReplication, LogOK, LeaderOK, CandidateOK;
    var s := c.nodes[n];
    InvNode(cfg, c, h, n);
    EmitInv(cfg, c, h, n, p, false);
    ApplyNothing(c, n, s);
    var first := EmitReplication(cfg, n, s, p, false);
    if s.progress[p].next > s.base && room > 0 && s.progress[p].next <= |s.log| && first.msgs != {} {
      EmitKeepsWindow(cfg, n, s, p, false);
      FillInv(cfg, Apply(c, n, first), h, n, p, room - 1);
      ApplyTwice(c, n, first, FillPeer(cfg, n, first.node, p, room - 1));
    }
  }

  // ------------------------------------------------------------- elections

  lemma TakeLeadershipOK(cfg: Config, n: NodeId, s: Node)
    requires ValidConfig(cfg) && NodeOK(cfg, n, s)
    ensures NodeOK(cfg, n, TakeLeadership(cfg, n, s))
  {
  }

  /** A silent change followed by a call is the call alone. */
  lemma ApplyAfter(c: Cluster, n: NodeId, s: Node, o: Out)
    ensures Apply(With(c, n, s), n, o) == Apply(c, n, o)
  {
    assert c.nodes[n := s][n := o.node] == c.nodes[n := o.node];
  }

  lemma LeadInv(cfg: Config, c: Cluster, h: History, n: NodeId) returns (h': History)
    requires ValidConfig(cfg) && Inv(cfg, c, h) && Wins(cfg, c, n)
    ensures c.nodes[n].base <= |c.nodes[n].log|
    ensures Inv(cfg, Apply(c, n, BecomeLeader(cfg, n, c.nodes[n])), h') && Extends(h, h')
  {
    hide Inv, Extends, IsQuorum, Broadcast, ValidConfig;
    var s := c.nodes[n];
    InvNode(cfg, c, h, n);
    var s1 := TakeLeadership(cfg, n, s);
    TakeLeadershipOK(cfg, n, s);
    ElectInv(cfg, c, h, n);
    h' := RecordElection(h, n, s);
    BroadcastInv(cfg, With(c, n, s1), h', n, cfg.peers);
    ApplyAfter(c, n, s1, Broadcast(cfg, n, s1, cfg.peers));
  }

  lemma VoteRequestsOK(cfg: Config, c: Cluster, h: History, n: NodeId)
    requires n in c.nodes && n != 0 && c.nodes[n].term >= 1
    ensures forall m :: m in VoteRequests(cfg, n, c.nodes[n]) ==> MsgOK(c, h, m)
  {
  }

  lemma StandIsNewVote(cfg: Config, c: Cluster, h: History, n: NodeId, s1: Node)
    requires VotesOK(c, h) && n in c.nodes && n in cfg.voters && n != 0
    requires s1.campaign == c.nodes[n].term + 1 && s1.log == c.nodes[n].log && s1.base == c.nodes[n].base
    ensures NewVote(cfg, c, h, n, Stand(n, s1), n)
    ensures Extends(h, RecordVote(h, n, s1.campaign, n, s1.log))
  {
    var k := (n, s1.campaign);
    assert k in h.votes ==> VoteOK(c, h, k);
  }

  lemma StandInv(cfg: Config, c: Cluster, h: History, n: NodeId, s1: Node)
    requires ValidConfig(cfg) && Inv(cfg, c, h) && n in c.nodes && n in cfg.voters
    requires s1.campaign == c.nodes[n].term + 1 && NodeOK(cfg, n, s1)
    requires s1.log == c.nodes[n].log && s1.base == c.nodes[n].base
    ensures n != 0
    ensures Inv(cfg, With(c, n, Stand(n, s1)), RecordVote(h, n, s1.campaign, n, s1.log))
    ensures Extends(h, RecordVote(h, n, s1.campaign, n, s1.log))
  {
    assert n in cfg.peers;
    StandIsNewVote(cfg, c, h, n, s1);
    StandOK(cfg, n, s1);
    VoteInv(cfg, c, h, n, Stand(n, s1), n);
  }

  lemma StandOK(cfg: Config, n: NodeId, s1: Node)
    requires NodeOK(cfg, n, s1)
    ensures NodeOK(cfg, n, Stand(n, s1))
  {
  }

  /** s1 is core n about to stand for the term after its own. */
  lemma StartElectionInv(cfg: Config, c: Cluster, h: History, n: NodeId, s1: Node) returns (h': History)
    requires ValidConfig(cfg) && Inv(cfg, c, h) && n in c.nodes && n in cfg.voters
    requires s1.campaign == c.nodes[n].term + 1 && NodeOK(cfg, n, s1)
    requires s1.log == c.nodes[n].log && s1.base == c.nodes[n].base
    ensures Inv(cfg, Apply(c, n, StartElection(cfg, n, s1)), h') && Extends(h, h')
  {
    hide Inv, Extends, IsQuorum, BecomeLeader, VoteRequests, MsgOK, ValidConfig;
    var s2 := Stand(n, s1);
    StandInv(cfg, c, h, n, s1);
    h' := RecordVote(h, n, s1.campaign, n, s1.log);
    var c2 := With(c, n, s2);
    assert c2.nodes[n] == s2;
    if IsQuorum(cfg, s2.votes) {
      var h2 := LeadInv(cfg, c2, h', n);
      ExtendsChain(h, h', h2);
      h' := h2;
      ApplyAfter(c, n, s2, BecomeLeader(cfg, n, s2));
    } else {
      VoteRequestsOK(cfg, c2, h', n);
      AddMessages(cfg, c2, h', VoteRequests(cfg, n, s2));
    }
  }

  lemma PreVoteInv(cfg: Config, c: Cluster, h: History, n: NodeId) returns (h': History)
    requires ValidConfig(cfg) && Inv(cfg, c, h) && n in c.nodes && n in cfg.voters && c.nodes[n].role != Leader
    ensures c.nodes[n].base <= |c.nodes[n].log|
    ensures Inv(cfg, Apply(c, n, StartPreVote(cfg, n, c.nodes[n])), h') && Extends(h, h')
  {
    hide Inv, IsQuorum, StartElection, ValidConfig, Extends;
    var s := c.nodes[n];
    InvNode(cfg, c, h, n);
    var s1 := s.(role := PreCandidate, leaderId := 0, campaign := s.term + 1, preVotes := {n}, votes := {});
    if IsQuorum(cfg, s1.preVotes) {
      h' := StartElectionInv(cfg, c, h, n, s1);
    } else {
      h' := h;
      ExtendsItself(h);
      QuietApply(cfg, c, h, n, Out(s1, PreVoteRequests(cfg, n, s1)));
    }
  }
}
