/** Every delivered message keeps the cluster invariant. */
module ClusterReceive {
  import opened RaftTypes
  import opened RaftNode
  import opened Cluster
  import opened ClusterInvariant
  import opened ClusterSteps
  import opened ClusterGrowth
  import opened ClusterAppend
  import opened ClusterCalls
  import L = RaftLog

  // ---------------------------------------------------------- falling back

  lemma FollowInv(cfg: Config, c: Cluster, h: History, n: NodeId, t: nat)
    requires Inv(cfg, c, h) && n in c.nodes
    ensures NodeOK(cfg, n, BecomeFollower(c.nodes[n], t))
    ensures Inv(cfg, With(c, n, BecomeFollower(c.nodes[n], t)), h)
  {
    hide Inv, LogOK, LeaderOK;
    var s := c.nodes[n];
    InvNode(cfg, c, h, n);
    if t > s.term {
      RaisedInv(cfg, c, h, n, BecomeFollower(s, t));
    } else {
      QuietInv(cfg, c, h, n, BecomeFollower(s, t));
    }
  }

  lemma FollowApply(cfg: Config, c: Cluster, h: History, n: NodeId, t: nat)
    requires Inv(cfg, c, h) && n in c.nodes
    ensures Inv(cfg, Apply(c, n, Out(BecomeFollower(c.nodes[n], t), {})), h)
  {
    FollowInv(cfg, c, h, n, t);
    ApplyNothing(c, n, BecomeFollower(c.nodes[n], t));
  }

  lemma IdleApply(cfg: Config, c: Cluster, h: History, n: NodeId)
    requires Inv(cfg, c, h) && n in c.nodes
    ensures Inv(cfg, Apply(c, n, Out(c.nodes[n], {})), h)
  {
    ApplyNothing(c, n, c.nodes[n]);
  }

  // ------------------------------------------------------------- pre-votes

  lemma PreVoteReqInv(cfg: Config, c: Cluster, h: History, n: NodeId, m: Message)
    requires Inv(cfg, c, h) && n in c.nodes && m.PreVoteReq? && m in c.net
    ensures Inv(cfg, Apply(c, n, HandlePreVoteReq(cfg, n, c.nodes[n], m)), h)
  {
    hide Inv;
    InvNode(cfg, c, h, n);
    InvMsg(cfg, c, h, m);
    QuietApply(cfg, c, h, n, HandlePreVoteReq(cfg, n, c.nodes[n], m));
  }

  lemma PreVoteRespInv(cfg: Config, c: Cluster, h: History, n: NodeId, m: Message) returns (h': History)
    requires ValidConfig(cfg) && Inv(cfg, c, h) && n in c.nodes && m.PreVoteResp? && m in c.net
    ensures c.nodes[n].base <= |c.nodes[n].log|
    ensures Inv(cfg, Apply(c, n, HandlePreVoteResp(cfg, n, c.nodes[n], m)), h') && Extends(h, h')
  {
    hide Inv, IsQuorum, StartElection, ValidConfig, Extends;
    var s := c.nodes[n];
    InvNode(cfg, c, h, n);
    InvMsg(cfg, c, h, m);
    h' := h;
    ExtendsItself(h);
    FollowApply(cfg, c, h, n, m.term);
    IdleApply(cfg, c, h, n);
    var s1 := s.(preVotes := s.preVotes + {m.from});
    if m.term <= s.term && s.role == PreCandidate && m.campaign == s.campaign {
      if IsQuorum(cfg, s1.preVotes) && m.granted && m.from !in s.preVotes {
        h' := StartElectionInv(cfg, c, h, n, s1);
      } else {
        QuietApply(cfg, c, h, n, Out(s1, {}));
      }
    }
  }

  // ----------------------------------------------------------------- votes

  lemma AdoptInv(cfg: Config, c: Cluster, h: History, n: NodeId, t: nat)
    requires Inv(cfg, c, h) && n in c.nodes
    ensures Inv(cfg, With(c, n, AdoptTerm(c.nodes[n], t)), h)
  {
    FollowInv(cfg, c, h, n, t);
    ApplyNothing(c, n, c.nodes[n]);
  }

  /** A granted request is a fresh vote, unless the same vote was already cast. */
  lemma GrantIsNewVote(cfg: Config, c: Cluster, h: History, n: NodeId, m: Message)
    requires VotesOK(c, h) && n in c.nodes && n != 0 && m.VoteReq? && MsgOK(c, h, m) && m.from != n
    requires GrantsVote(cfg, n, c.nodes[n], m) && c.nodes[n].votedFor == 0
    ensures NewVote(cfg, c, h, n, c.nodes[n].(votedFor := m.from), m.from)
    ensures Extends(h, RecordVote(h, n, m.term, m.from, c.nodes[n].log))
  {
    var k := (n, m.term);
    assert k in h.votes ==> VoteOK(c, h, k);
  }

  lemma GrantInv(cfg: Config, c: Cluster, h: History, n: NodeId, m: Message) returns (h': History)
    requires ValidConfig(cfg) && Inv(cfg, c, h) && n in c.nodes && m.VoteReq? && MsgOK(c, h, m) && m.from != n
    requires GrantsVote(cfg, n, c.nodes[n], m)
    ensures Inv(cfg, With(c, n, c.nodes[n].(votedFor := m.from)), h') && Extends(h, h')
    ensures (n, m.term) in h'.votes && h'.votes[(n, m.term)].candidate == m.from
  {
    hide Inv, VotesOK, NewVote, MsgOK, IsQuorum, UpToDate;
    var s := c.nodes[n];
    InvNode(cfg, c, h, n);
    if s.votedFor == 0 {
      assert n in cfg.peers;
      InvVotes(cfg, c, h);
      GrantIsNewVote(cfg, c, h, n, m);
      VoteInv(cfg, c, h, n, s.(votedFor := m.from), m.from);
      h' := RecordVote(h, n, m.term, m.from, s.log);
    } else {
      h' := h;
      ApplyNothing(c, n, s);
      ExtendsItself(h);
    }
  }

  lemma InvVotes(cfg: Config, c: Cluster, h: History)
    requires Inv(cfg, c, h)
    ensures VotesOK(c, h)
  {
  }

  lemma VoteReqInv(cfg: Config, c: Cluster, h: History, n: NodeId, m: Message) returns (h': History)
    requires ValidConfig(cfg) && Inv(cfg, c, h) && n in c.nodes && m.VoteReq? && m in c.net && m.from != n
    ensures Inv(cfg, Apply(c, n, HandleVoteReq(cfg, n, c.nodes[n], m)), h') && Extends(h, h')
  {
    hide Inv, ValidConfig, Extends, BecomeFollower;
    var s1 := AdoptTerm(c.nodes[n], m.term);
    AdoptInv(cfg, c, h, n, m.term);
    var c1 := With(c, n, s1);
    InvMsg(cfg, c1, h, m);
    h' := h;
    ExtendsItself(h);
    var s2 := s1;
    if GrantsVote(cfg, n, s1, m) {
      h' := GrantInv(cfg, c1, h, n, m);
      s2 := s1.(votedFor := m.from);
    }
    var c2 := With(c1, n, s2);
    ApplyNothing(c1, n, s1);
    var reply := Emit(s2, VoteResp(n, m.from, s2.term, GrantsVote(cfg, n, s1, m)));
    AddMessages(cfg, c2, h', reply);
    ApplyAfter(c, n, s1, Out(s2, reply));
  }

  lemma VoteRespInv(cfg: Config, c: Cluster, h: History, n: NodeId, m: Message) returns (h': History)
    requires ValidConfig(cfg) && Inv(cfg, c, h) && n in c.nodes && m.VoteResp? && m in c.net && m.from in cfg.voters
    requires m.to == n
    ensures c.nodes[n].base <= |c.nodes[n].log|
    ensures Inv(cfg, Apply(c, n, HandleVoteResp(cfg, n, c.nodes[n], m)), h') && Extends(h, h')
  {
    hide Inv, IsQuorum, BecomeLeader, ValidConfig, Extends, BecomeFollower;
    var s := c.nodes[n];
    InvNode(cfg, c, h, n);
    InvMsg(cfg, c, h, m);
    h' := h;
    ExtendsItself(h);
    FollowApply(cfg, c, h, n, m.term);
    IdleApply(cfg, c, h, n);
    var s1 := s.(votes := s.votes + {m.from});
    if m.term == s.term && s.role == Candidate && m.granted && m.from !in s.votes {
      QuietInv(cfg, c, h, n, s1);
      var c1 := With(c, n, s1);
      if IsQuorum(cfg, s1.votes) {
        h' := LeadInv(cfg, c1, h, n);
        ApplyAfter(c, n, s1, BecomeLeader(cfg, n, s1));
      } else {
        ApplyNothing(c, n, s1);
      }
    }
  }

  lemma TimeoutNowInv(cfg: Config, c: Cluster, h: History, n: NodeId, m: Message) returns (h': History)
    requires ValidConfig(cfg) && Inv(cfg, c, h) && n in c.nodes && m.TimeoutNow?
    ensures c.nodes[n].base <= |c.nodes[n].log|
    ensures Inv(cfg, Apply(c, n, HandleTimeoutNow(cfg, n, c.nodes[n], m)), h') && Extends(h, h')
  {
    hide Inv, StartElection, ValidConfig, Extends;
    var s := c.nodes[n];
    InvNode(cfg, c, h, n);
    h' := h;
    ExtendsItself(h);
    IdleApply(cfg, c, h, n);
    if n in cfg.voters && s.role == Follower {
      h' := StartElectionInv(cfg, c, h, n, s.(campaign := s.term + 1));
      if m.term != s.term || s.leaderId != m.from || s.term == U64_MAX {
        h' := h;
      }
    }
  }

  // -------------------------------------------------------- append requests

  /** Two sound logs with the same term at an index agree up to it (Log Matching). */
  lemma SameTermAgrees(h: History, a: seq<Entry>, b: seq<Entry>, i: nat)
    requires Sound(h, a) && Sound(h, b) && i <= |a| && i <= |b| && TermAt(a, i) == TermAt(b, i)
    ensures Agree(a, b, i)
  {
    if i > 0 {
      var g := h.ballots[a[i - 1].term].log;
      assert Agree(a, g, i - 1 + 1) && Agree(b, g, i - 1 + 1);
    }
  }

  /** Where the scan stopped, both logs and the batch agree. */
  lemma ScannedAgrees(log: seq<Entry>, prev: nat, incoming: seq<Entry>, at: nat, g: seq<Entry>)
    requires Agree(log, g, prev) && prev + |incoming| <= |g| && incoming == g[prev..prev + |incoming|]
    requires at <= |incoming| && prev + at <= |log|
    requires forall k :: 0 <= k < at ==> log[prev + k] == incoming[k]
    ensures Agree(log, g, prev + at)
    ensures log[..prev + at] + incoming[at..] == g[..prev + |incoming|]
  {
    forall j | 0 <= j < prev + at ensures log[j] == g[j] {
      if j >= prev { assert log[prev + (j - prev)] == incoming[j - prev]; }
    }
    assert log[..prev + at] == g[..prev + at];
  }

  /** A follower that accepts a leader's batch takes the leader's prefix. */
  lemma ReconcileTakes(h: History, log: seq<Entry>, base: nat, maxLog: nat, prev: nat, incoming: seq<Entry>,
                       protect: nat, g: seq<Entry>)
    requires Sound(h, log) && Sound(h, g) && base <= |log| && prev + |incoming| <= |g|
    requires incoming == g[prev..prev + |incoming|]
    ensures var r := L.Reconcile(log, base, maxLog, prev, TermAt(g, prev), incoming, protect);
      r.Keep? || r.Replace? ==> TakesPrefix(log, L.LogAfter(log, r), g, prev + |incoming|)
  {
    hide Sound, L.ScanFrom;
    var r := L.Reconcile(log, base, maxLog, prev, TermAt(g, prev), incoming, protect);
    if r.Keep? || r.Replace? {
      SameTermAgrees(h, log, g, prev);
      L.ScanMeaning(log, prev, incoming, 0);
      ScannedAgrees(log, prev, incoming, if r.Keep? then |incoming| else r.at, g);
      if r.Replace? && r.truncates { assert log[prev + r.at] != g[prev + r.at]; }
    }
  }

  lemma AppendReqTakes(cfg: Config, c: Cluster, h: History, n: NodeId, m: Message)
    requires BallotsOK(cfg, c, h) && NodesOK(cfg, c, h) && n in c.nodes && m.AppendReq? && MsgOK(c, h, m)
    requires c.nodes[n].base <= |c.nodes[n].log|
    ensures var s := c.nodes[n];
      var r := L.Reconcile(s.log, s.base, cfg.maxLog, m.prev, m.prevTerm, m.entries, s.commit);
      r.Keep? || r.Replace? ==>
        TakesPrefix(s.log, L.LogAfter(s.log, r), h.ballots[m.term].log, m.prev + |m.entries|)
  {
    var s := c.nodes[n];
    assert BallotOK(cfg, c, h, m.term);
    ReconcileTakes(h, s.log, s.base, cfg.maxLog, m.prev, m.entries, s.commit, h.ballots[m.term].log);
  }

  /** From the fallen-back node on: the log and commit change is a Takes step. */
  lemma AcceptInv(cfg: Config, c: Cluster, h: History, n: NodeId, s': Node, m: nat, reply: Message)
    requires Inv(cfg, c, h) && n in c.nodes && Takes(h, c.nodes[n], s', m) && NodeOK(cfg, n, s')
    requires reply.AppendResp? && reply.from == n && reply.term == s'.term && reply.matched == m
    ensures Inv(cfg, Apply(c, n, Out(s', Emit(s', reply))), RecordAck(h, n, s'.term, m))
    ensures Extends(h, RecordAck(h, n, s'.term, m))
  {
    hide Inv, Takes, NodeOK, Extends;
    var h' := RecordAck(h, n, s'.term, m);
    TakeInv(cfg, c, h, n, s', m);
    AddMessages(cfg, With(c, n, s'), h', Emit(s', reply));
  }

  lemma AppendReqInv(cfg: Config, c: Cluster, h: History, n: NodeId, m: Message) returns (h': History)
    requires ValidConfig(cfg) && Inv(cfg, c, h) && n in c.nodes && m.AppendReq? && m in c.net
    ensures c.nodes[n].base <= |c.nodes[n].log|
    ensures Inv(cfg, Apply(c, n, HandleAppendReq(cfg, n, c.nodes[n], m)), h') && Extends(h, h')
  {
    hide Inv, ValidConfig, Extends, L.Reconcile, LogOK, TakesPrefix, BecomeFollower, NodeOK;
    var s := c.nodes[n];
    InvNode(cfg, c, h, n);
    InvMsg(cfg, c, h, m);
    h' := h;
    ExtendsItself(h);
    AppendReqKeepsOK(cfg, n, s, m);
    AppendReqBounds(cfg, n, s);
    var o := HandleAppendReq(cfg, n, s, m);
    var r := L.Reconcile(s.log, s.base, cfg.maxLog, m.prev, m.prevTerm, m.entries, s.commit);
    if m.term < s.term || r.Failed? {
      assert o.node == s;
      RefuseInv(cfg, c, h, n, o);
    } else {
      var s0 := BecomeFollower(s, m.term);
      FollowInv(cfg, c, h, n, m.term);
      var c0 := With(c, n, s0);
      FollowFields(s, m.term);
      ApplyAfter(c, n, s0, o);
      if r.Mismatch? {
        RefuseInv(cfg, c0, h, n, o);
      } else {
        InvTakes(cfg, c, h, n, m);
        AcceptInv(cfg, c0, h, n, o.node, m.prev + |m.entries|,
                  AppendResp(n, m.from, o.node.term, m.entries == [], true, m.prev + |m.entries|, 0, m.prev));
        h' := RecordAck(h, n, o.node.term, m.prev + |m.entries|);
      }
    }
  }

  lemma AppendReqBounds(cfg: Config, n: NodeId, s: Node)
    requires NodeOK(cfg, n, s)
    ensures s.base <= s.commit <= |s.log|
  {
  }

  lemma FollowFields(s: Node, t: nat)
    ensures var s' := BecomeFollower(s, t);
      && s'.term == Max(s.term, t) && s'.log == s.log && s'.base == s.base && s'.commit == s.commit
      && s'.role == Follower && s'.campaign == 0
  {
  }

  /** An append request handed over as the invariant has it. */
  lemma InvTakes(cfg: Config, c: Cluster, h: History, n: NodeId, m: Message)
    requires Inv(cfg, c, h) && n in c.nodes && m.AppendReq? && m in c.net
    ensures c.nodes[n].base <= |c.nodes[n].log|
    ensures m.term in h.ballots && m.prev + |m.entries| <= |h.ballots[m.term].log|
    ensures var s := c.nodes[n];
      var r := L.Reconcile(s.log, s.base, cfg.maxLog, m.prev, m.prevTerm, m.entries, s.commit);
      r.Keep? || r.Replace? ==>
        TakesPrefix(s.log, L.LogAfter(s.log, r), h.ballots[m.term].log, m.prev + |m.entries|)
  {
    InvMsg(cfg, c, h, m);
    InvNode(cfg, c, h, n);
    AppendReqTakes(cfg, c, h, n, m);
  }

  /** A change of the leader hint only, with messages that promise nothing. */
  lemma RefuseInv(cfg: Config, c: Cluster, h: History, n: NodeId, o: Out)
    requires Inv(cfg, c, h) && n in c.nodes && NodeOK(cfg, n, o.node)
    requires o.node == c.nodes[n].(leaderId := o.node.leaderId)
    requires forall m :: m in o.msgs ==> (m.AppendResp? && !m.granted) || m.TimeoutNow? || m.ReadReq? || m.ReadResp?
    ensures Inv(cfg, Apply(c, n, o), h)
  {
    hide Inv;
    InvNode(cfg, c, h, n);
    QuietApply(cfg, c, h, n, o);
  }
}
