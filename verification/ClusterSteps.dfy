/**
 Each elementary change a core can make keeps the cluster invariant.  A core
 call is a short sequence of these changes.
 */
module ClusterSteps {
  import opened RaftTypes
  import opened RaftNode
  import opened Cluster
  import opened ClusterInvariant

  function With(c: Cluster, n: NodeId, s: Node): (c': Cluster)
  {
    c.(nodes := c.nodes[n := s])
  }

  // -------------------------------------------------------- adding messages

  lemma AddMessages(cfg: Config, c: Cluster, h: History, ms: set<Message>)
    requires Inv(cfg, c, h) && forall m :: m in ms ==> MsgOK(c, h, m)
    ensures Inv(cfg, c.(net := c.net + ms), h)
  {
    var c' := c.(net := c.net + ms);
    forall t | t in h.ballots ensures BallotOK(cfg, c', h, t) { assert BallotOK(cfg, c, h, t); }
    forall k | k in h.votes ensures VoteOK(c', h, k) { assert VoteOK(c, h, k); }
    forall k | k in h.acked ensures AckOK(c', h, k) { assert AckOK(c, h, k); }
    forall m | m in c'.net ensures MsgOK(c', h, m) { assert MsgOK(c, h, m); }
  }

  // ---------------------------------------------------------- quiet changes

  /** The change touches nothing another node or the history relies on. */
  ghost predicate Quiet(cfg: Config, h: History, n: NodeId, s: Node, s': Node)
  {
    && s'.term == s.term && s'.votedFor == s.votedFor && s'.log == s.log && s'.base >= s.base
    && (s'.role == Leader ==> s.role == Leader && MatchesOK(h, s'))
    && (s'.role == Candidate ==> s.role == Candidate && s'.votes <= cfg.voters && CountsOnlyVotes(h, n, s'))
    && (s'.role != Follower ==> n in cfg.voters)
    && (s'.campaign == 0 || (s'.role == PreCandidate && s'.campaign == s'.term + 1))
  }

  ghost predicate CountsOnlyVotes(h: History, n: NodeId, s: Node)
  {
    forall v :: v in s.votes ==> (v, s.term) in h.votes && h.votes[(v, s.term)].candidate == n
  }

  lemma QuietNodes(cfg: Config, c: Cluster, h: History, n: NodeId, s': Node)
    requires NodesOK(cfg, c, h) && n in c.nodes && Quiet(cfg, h, n, c.nodes[n], s')
    ensures NodesOK(cfg, With(c, n, s'), h)
  {
    var s := c.nodes[n];
    assert LogOK(h, s) && LeaderOK(h, n, s) && CandidateOK(cfg, h, n, s);
    var c' := With(c, n, s');
    forall x | x in c'.nodes
      ensures LogOK(h, c'.nodes[x]) && LeaderOK(h, x, c'.nodes[x]) && CandidateOK(cfg, h, x, c'.nodes[x]) {
      if x != n { assert c'.nodes[x] == c.nodes[x]; } else { assert c'.nodes[x] == s'; }
    }
  }

  lemma QuietVotes(cfg: Config, c: Cluster, h: History, n: NodeId, s': Node)
    requires VotesOK(c, h) && AcksOK(c, h) && n in c.nodes && Quiet(cfg, h, n, c.nodes[n], s')
    ensures VotesOK(With(c, n, s'), h) && AcksOK(With(c, n, s'), h)
  {
    var c' := With(c, n, s');
    forall k | k in h.votes ensures VoteOK(c', h, k) { assert VoteOK(c, h, k); }
    forall k | k in h.acked ensures AckOK(c', h, k) { assert AckOK(c, h, k); }
  }

  lemma KeepBallots(cfg: Config, c: Cluster, h: History, n: NodeId, s': Node)
    requires BallotsOK(cfg, c, h) && n in c.nodes && c.nodes[n].term <= s'.term
    ensures BallotsOK(cfg, With(c, n, s'), h)
  {
    var c' := With(c, n, s');
    forall t | t in h.ballots ensures BallotOK(cfg, c', h, t) { assert BallotOK(cfg, c, h, t); }
  }

  lemma KeepCluster(cfg: Config, c: Cluster, n: NodeId, s': Node)
    requires ClusterOK(cfg, c) && n in c.nodes && NodeOK(cfg, n, s')
    ensures ClusterOK(cfg, With(c, n, s'))
  {
    ApplyKeepsOK(cfg, c, n, Out(s', {}));
    assert c.net + {} == c.net;
    assert With(c, n, s') == Apply(c, n, Out(s', {}));
  }

  /** A message stays true when its subject moves on without being a candidate of the same term. */
  lemma KeepMsg(c: Cluster, h: History, n: NodeId, s': Node, m: Message)
    requires n in c.nodes && MsgOK(c, h, m)
    requires c.nodes[n].term <= s'.term && c.nodes[n].base <= s'.base
    requires s'.role == Candidate && s'.term == c.nodes[n].term ==>
      c.nodes[n].role == Candidate && s'.log == c.nodes[n].log
    ensures MsgOK(With(c, n, s'), h, m)
  {
  }

  lemma KeepNet(c: Cluster, h: History, n: NodeId, s': Node)
    requires n in c.nodes && NetOK(c, h)
    requires c.nodes[n].term <= s'.term && c.nodes[n].base <= s'.base
    requires s'.role == Candidate && s'.term == c.nodes[n].term ==>
      c.nodes[n].role == Candidate && s'.log == c.nodes[n].log
    ensures NetOK(With(c, n, s'), h)
  {
    var c' := With(c, n, s');
    forall m | m in c'.net ensures MsgOK(c', h, m) { KeepMsg(c, h, n, s', m); }
  }

  lemma QuietInv(cfg: Config, c: Cluster, h: History, n: NodeId, s': Node)
    requires Inv(cfg, c, h) && n in c.nodes && Quiet(cfg, h, n, c.nodes[n], s') && NodeOK(cfg, n, s')
    ensures Inv(cfg, With(c, n, s'), h)
  {
    KeepCluster(cfg, c, n, s');
    QuietNodes(cfg, c, h, n, s');
    QuietVotes(cfg, c, h, n, s');
    KeepBallots(cfg, c, h, n, s');
    KeepNet(c, h, n, s');
  }

  // ---------------------------------------------------- adopting a newer term

  ghost predicate Raised(s: Node, s': Node)
  {
    && s'.term > s.term && s'.votedFor == 0 && s'.log == s.log && s'.base >= s.base
    && s'.role == Follower && s'.campaign == 0
  }

  lemma RaisedNodes(cfg: Config, c: Cluster, h: History, n: NodeId, s': Node)
    requires NodesOK(cfg, c, h) && n in c.nodes && Raised(c.nodes[n], s')
    ensures NodesOK(cfg, With(c, n, s'), h)
  {
    var c' := With(c, n, s');
    forall x | x in c'.nodes
      ensures LogOK(h, c'.nodes[x]) && LeaderOK(h, x, c'.nodes[x]) && CandidateOK(cfg, h, x, c'.nodes[x]) {
      assert LogOK(h, c.nodes[x]);
      if x != n { assert c'.nodes[x] == c.nodes[x]; } else { assert c'.nodes[x] == s'; }
    }
  }

  lemma RaisedVotes(c: Cluster, h: History, n: NodeId, s': Node)
    requires VotesOK(c, h) && AcksOK(c, h) && n in c.nodes && Raised(c.nodes[n], s')
    ensures VotesOK(With(c, n, s'), h) && AcksOK(With(c, n, s'), h)
  {
    var c' := With(c, n, s');
    forall k | k in h.votes ensures VoteOK(c', h, k) { assert VoteOK(c, h, k); }
    forall k | k in h.acked ensures AckOK(c', h, k) {
      assert AckOK(c, h, k);
      if k.0 == n {
        forall m | 0 <= m <= h.acked[k] && Unbroken(h, k.1, m, s'.term)
          ensures Agree(h.ballots[k.1].log, s'.log, m)
        {
          assert Unbroken(h, k.1, m, c.nodes[n].term);
        }
      }
    }
  }

  lemma RaisedInv(cfg: Config, c: Cluster, h: History, n: NodeId, s': Node)
    requires Inv(cfg, c, h) && n in c.nodes && Raised(c.nodes[n], s') && NodeOK(cfg, n, s')
    ensures Inv(cfg, With(c, n, s'), h)
  {
    KeepCluster(cfg, c, n, s');
    RaisedNodes(cfg, c, h, n, s');
    RaisedVotes(c, h, n, s');
    KeepBallots(cfg, c, h, n, s');
    KeepNet(c, h, n, s');
  }

  // ------------------------------------------------------------ casting votes

  function RecordVote(h: History, n: NodeId, t: nat, candidate: NodeId, log: seq<Entry>): (h': History)
  {
    h.(votes := h.votes[(n, t) := Vote(candidate, log)])
  }

  /** Recording a vote by n for its current (new) term, before any leader of that term exists or not. */
  ghost predicate NewVote(cfg: Config, c: Cluster, h: History, n: NodeId, s': Node, candidate: NodeId)
  {
    && n in c.nodes && n != 0 && c.nodes[n].term <= s'.term && s'.votedFor == candidate && candidate != 0
    && s'.term >= 1
    && s'.log == c.nodes[n].log && s'.base == c.nodes[n].base
    && (n, s'.term) !in h.votes
    && candidate in With(c, n, s').nodes && s'.term <= With(c, n, s').nodes[candidate].term
    && (var q := With(c, n, s').nodes[candidate];
        q.term == s'.term && q.role == Candidate ==> UpToDate(|q.log|, LastTerm(q.log), s'.log))
    // either the vote is for oneself in a fresh term, or the role does not change
    && (|| (candidate == n && s'.term == c.nodes[n].term + 1 && s'.role == Candidate && s'.votes == {n} &&
            n in cfg.voters && s'.campaign == 0)
        || (s' == c.nodes[n].(votedFor := candidate) && c.nodes[n].votedFor == 0))
  }

  lemma MatchesSurvive(h: History, h': History, s: Node)
    requires MatchesOK(h, s)
    requires forall p, m :: p in s.progress && Acked(h, p, s.term, m) ==> Acked(h', p, s.term, m)
    ensures MatchesOK(h', s)
  {
    forall p, m | p in s.progress && 1 <= m <= s.progress[p].matched && m <= |s.log| && s.log[m - 1].term == s.term
      ensures Acked(h', p, s.term, m)
    {
      assert Acked(h, p, s.term, m);
    }
  }

  lemma VoteNodes(cfg: Config, c: Cluster, h: History, n: NodeId, s': Node, candidate: NodeId)
    requires NodesOK(cfg, c, h) && BallotsOK(cfg, c, h) && NewVote(cfg, c, h, n, s', candidate)
    ensures NodesOK(cfg, With(c, n, s'), RecordVote(h, n, s'.term, candidate, s'.log))
  {
    hide MatchesOK, LogOK, LeaderOK, CandidateOK, BallotsOK;
    var c' := With(c, n, s');
    var h' := RecordVote(h, n, s'.term, candidate, s'.log);
    forall x | x in c'.nodes
      ensures LogOK(h', c'.nodes[x]) && LeaderOK(h', x, c'.nodes[x]) && CandidateOK(cfg, h', x, c'.nodes[x]) {
      assert LogOK(h, c.nodes[x]) && LeaderOK(h, x, c.nodes[x]) && CandidateOK(cfg, h, x, c.nodes[x]);
      if x != n {
        assert c'.nodes[x] == c.nodes[x];
        OthersVote(cfg, h, x, c.nodes[x], n, s'.term, candidate, s'.log);
      } else {
        VoterNode(cfg, c, h, n, s', candidate);
      }
    }
  }

  /** Somebody else's vote changes nothing for a node. */
  lemma OthersVote(cfg: Config, h: History, x: NodeId, s: Node, n: NodeId, t: nat, candidate: NodeId, log: seq<Entry>)
    requires LogOK(h, s) && LeaderOK(h, x, s) && CandidateOK(cfg, h, x, s) && (n, t) !in h.votes
    ensures var h' := RecordVote(h, n, t, candidate, log);
      LogOK(h', s) && LeaderOK(h', x, s) && CandidateOK(cfg, h', x, s)
  {
    if s.role == Leader { MatchesSurvive(h, RecordVote(h, n, t, candidate, log), s); }
  }

  lemma VoterNode(cfg: Config, c: Cluster, h: History, n: NodeId, s': Node, candidate: NodeId)
    requires NodesOK(cfg, c, h) && BallotsOK(cfg, c, h) && NewVote(cfg, c, h, n, s', candidate)
    ensures var h' := RecordVote(h, n, s'.term, candidate, s'.log);
      LogOK(h', s') && LeaderOK(h', n, s') && CandidateOK(cfg, h', n, s')
  {
    assert LogOK(h, c.nodes[n]) && LeaderOK(h, n, c.nodes[n]) && CandidateOK(cfg, h, n, c.nodes[n]);
    if s'.term in h.ballots { assert BallotOK(cfg, c, h, s'.term); }
    if s'.role == Leader { MatchesSurvive(h, RecordVote(h, n, s'.term, candidate, s'.log), s'); }
  }

  lemma VoteBallots(cfg: Config, c: Cluster, h: History, n: NodeId, s': Node, candidate: NodeId)
    requires BallotsOK(cfg, c, h) && NewVote(cfg, c, h, n, s', candidate)
    ensures BallotsOK(cfg, With(c, n, s'), RecordVote(h, n, s'.term, candidate, s'.log))
  {
    var c' := With(c, n, s');
    var h' := RecordVote(h, n, s'.term, candidate, s'.log);
    forall t | t in h'.ballots ensures BallotOK(cfg, c', h', t) { assert BallotOK(cfg, c, h, t); }
  }

  lemma VoteVotes(cfg: Config, c: Cluster, h: History, n: NodeId, s': Node, candidate: NodeId)
    requires NodesOK(cfg, c, h) && VotesOK(c, h) && NewVote(cfg, c, h, n, s', candidate)
    ensures VotesOK(With(c, n, s'), RecordVote(h, n, s'.term, candidate, s'.log))
  {
    var c' := With(c, n, s');
    var h' := RecordVote(h, n, s'.term, candidate, s'.log);
    assert LogOK(h, c.nodes[n]);
    forall k | k in h'.votes ensures VoteOK(c', h', k) {
      if k != (n, s'.term) { assert VoteOK(c, h, k); } else { assert h'.votes[k] == Vote(candidate, s'.log); }
    }
  }

  lemma VoteAcks(cfg: Config, c: Cluster, h: History, n: NodeId, s': Node, candidate: NodeId)
    requires AcksOK(c, h) && VoteAcksOK(h) && NewVote(cfg, c, h, n, s', candidate)
    ensures AcksOK(With(c, n, s'), RecordVote(h, n, s'.term, candidate, s'.log))
    ensures VoteAcksOK(RecordVote(h, n, s'.term, candidate, s'.log))
  {
    var c' := With(c, n, s');
    var h' := RecordVote(h, n, s'.term, candidate, s'.log);
    forall k | k in h'.acked ensures AckOK(c', h', k) {
      assert AckOK(c, h, k);
      if k.0 == n {
        forall m | 0 <= m <= h.acked[k] && Unbroken(h', k.1, m, s'.term)
          ensures Agree(h.ballots[k.1].log, s'.log, m)
        {
          assert Unbroken(h, k.1, m, c.nodes[n].term);
        }
      }
    }
    forall v, t, u | (v, t) in h'.votes && t !in h'.ballots && (v, u) in h'.acked && u < t
      ensures u in h'.ballots && VoteHeldAcks(h', v, t, u)
    {
      assert AckOK(c, h, (v, u));
      if (v, t) != (n, s'.term) {
        assert (v, t) in h.votes;
        assert VoteHeldAcks(h, v, t, u);
        forall m | 0 <= m <= h.acked[(v, u)] && Unbroken(h', u, m, t - 1)
          ensures Agree(h.ballots[u].log, h.votes[(v, t)].log, m)
        {
          assert Unbroken(h, u, m, t - 1);
        }
      } else {
        assert h'.votes[(v, t)] == Vote(candidate, s'.log);
        forall m | 0 <= m <= h.acked[(v, u)] && Unbroken(h', u, m, t - 1)
          ensures Agree(h.ballots[u].log, s'.log, m)
        {
          assert Unbroken(h, u, m, c.nodes[n].term);
        }
      }
    }
  }

  lemma VoteElections(h: History, n: NodeId, t0: nat, candidate: NodeId, log: seq<Entry>)
    requires ElectionsOK(h)
    ensures ElectionsOK(RecordVote(h, n, t0, candidate, log))
  {
    var h' := RecordVote(h, n, t0, candidate, log);
    forall t, v, u | t in h'.ballots && v in h'.ballots[t].quorum && (v, u) in h'.acked && u < t
      ensures u in h'.ballots && ElectionHeldAcks(h', t, v, u)
    {
      assert t in h.ballots && v in h.ballots[t].quorum && (v, u) in h.acked;
      assert ElectionHeldAcks(h, t, v, u);
      forall m | 1 <= m <= h.acked[(v, u)] && m <= |h.ballots[u].log| && h.ballots[u].log[m - 1].term == u &&
                 Unbroken(h', u, m, t - 1)
        ensures Agree(h.ballots[u].log, h.ballots[t].log, m)
      {
        assert Unbroken(h, u, m, t - 1);
      }
    }
  }

  lemma VoteNet(cfg: Config, c: Cluster, h: History, n: NodeId, s': Node, candidate: NodeId)
    requires NetOK(c, h) && NewVote(cfg, c, h, n, s', candidate)
    ensures NetOK(With(c, n, s'), RecordVote(h, n, s'.term, candidate, s'.log))
  {
    var c' := With(c, n, s');
    var h' := RecordVote(h, n, s'.term, candidate, s'.log);
    forall m | m in c'.net ensures MsgOK(c', h', m) {
      assert MsgOK(c, h, m);
      KeepMsg(c, h, n, s', m);
    }
  }

  lemma VoteInv(cfg: Config, c: Cluster, h: History, n: NodeId, s': Node, candidate: NodeId)
    requires Inv(cfg, c, h) && NewVote(cfg, c, h, n, s', candidate) && NodeOK(cfg, n, s')
    ensures Inv(cfg, With(c, n, s'), RecordVote(h, n, s'.term, candidate, s'.log))
  {
    KeepCluster(cfg, c, n, s');
    VoteNodes(cfg, c, h, n, s', candidate);
    VoteBallots(cfg, c, h, n, s', candidate);
    VoteVotes(cfg, c, h, n, s', candidate);
    VoteAcks(cfg, c, h, n, s', candidate);
    VoteElections(h, n, s'.term, candidate, s'.log);
    VoteNet(cfg, c, h, n, s', candidate);
  }
}
