/** Log changes: a follower taking entries from a leader, and a leader's own append. */
module ClusterAppend {
  import opened RaftTypes
  import opened RaftNode
  import opened Cluster
  import opened ClusterInvariant
  import opened ClusterSteps
  import opened ClusterGrowth

  // -------------------------------------------------------- follower append

  function RecordAck(h: History, n: NodeId, t: nat, m: nat): (h': History)
  {
    h.(acked := h.acked[(n, t) := if (n, t) in h.acked then Max(h.acked[(n, t)], m) else m])
  }

  /** The log stays, or becomes exactly the leader's first m entries, shrinking only past a conflict. */
  ghost predicate TakesPrefix(log: seq<Entry>, log': seq<Entry>, g: seq<Entry>, m: nat)
  {
    && Agree(log', g, m)
    && (log' == log || (log' == g[..m] && (|log| <= m || exists i :: 0 <= i < m && i < |log| && log[i] != g[i])))
  }

  ghost predicate Takes(h: History, s: Node, s': Node, m: nat)
  {
    && s'.term == s.term && s'.votedFor == s.votedFor && s'.base >= s.base
    && s'.role == Follower && s'.campaign == 0
    && s.term in h.ballots && m <= |h.ballots[s.term].log|
    && TakesPrefix(s.log, s'.log, h.ballots[s.term].log, m)
  }

  /** Nothing both logs agreed on is lost. */
  lemma TakesKeeps(log: seq<Entry>, log': seq<Entry>, g: seq<Entry>, m: nat, x: seq<Entry>, k: nat)
    requires TakesPrefix(log, log', g, m) && Agree(x, log, k) && Agree(x, g, k)
    ensures Agree(x, log', k)
  {
  }

  lemma AckRecorded(h: History, n: NodeId, t: nat, m: nat)
    ensures Acked(RecordAck(h, n, t, m), n, t, m)
    ensures t in h.ballots ==> Extends(h, RecordAck(h, n, t, m))
  {
    var h' := RecordAck(h, n, t, m);
    forall u | u in h.ballots ensures GrownBallot(u, h.ballots[u], h'.ballots[u]) { }
  }

  lemma TakeLog(cfg: Config, c: Cluster, h: History, n: NodeId, s': Node, m: nat)
    requires BallotsOK(cfg, c, h) && n in c.nodes && LogOK(h, c.nodes[n]) && Takes(h, c.nodes[n], s', m)
    ensures LogOK(h, s')
  {
    var s := c.nodes[n];
    var g := h.ballots[s.term].log;
    assert BallotOK(cfg, c, h, s.term);
    if s'.log != s.log {
      assert s'.log == g[..m];
      forall i | 0 <= i < |s'.log|
        ensures s'.log[i].term in h.ballots && Agree(s'.log, h.ballots[s'.log[i].term].log, i + 1) {
        assert s'.log[i] == g[i];
        assert Agree(g, h.ballots[g[i].term].log, i + 1);
      }
    }
  }

  lemma TakeNodes(cfg: Config, c: Cluster, h: History, n: NodeId, s': Node, m: nat)
    requires BallotsOK(cfg, c, h) && NodesOK(cfg, c, h) && n in c.nodes && Takes(h, c.nodes[n], s', m)
    ensures NodesOK(cfg, With(c, n, s'), RecordAck(h, n, s'.term, m))
  {
    var c', h' := With(c, n, s'), RecordAck(h, n, s'.term, m);
    AckRecorded(h, n, s'.term, m);
    forall x | x in c'.nodes
      ensures LogOK(h', c'.nodes[x]) && LeaderOK(h', x, c'.nodes[x]) && CandidateOK(cfg, h', x, c'.nodes[x]) {
      assert LogOK(h, c.nodes[x]) && LeaderOK(h, x, c.nodes[x]) && CandidateOK(cfg, h, x, c.nodes[x]);
      if x != n {
        assert c'.nodes[x] == c.nodes[x];
        NodeExtends(cfg, h, h', x, c.nodes[x]);
      } else {
        TakeLog(cfg, c, h, n, s', m);
        SoundExtends(h, h', s'.log);
      }
    }
  }

  lemma TakeOldAck(cfg: Config, c: Cluster, h: History, n: NodeId, s': Node, m: nat, k: (NodeId, nat), j: nat)
    requires k in h.acked && AckOK(c, h, k) && k.0 == n && n in c.nodes && Takes(h, c.nodes[n], s', m)
    requires j <= h.acked[k] && Unbroken(h, k.1, j, s'.term)
    ensures Agree(h.ballots[k.1].log, s'.log, j)
  {
    var s := c.nodes[n];
    var x := h.ballots[k.1].log;
    assert Agree(x, s.log, j);
    assert Agree(x, h.ballots[s.term].log, j);
    TakesKeeps(s.log, s'.log, h.ballots[s.term].log, m, x, j);
  }

  lemma TakeAcks(cfg: Config, c: Cluster, h: History, n: NodeId, s': Node, m: nat)
    requires BallotsOK(cfg, c, h) && AcksOK(c, h) && n in c.nodes && Takes(h, c.nodes[n], s', m)
    ensures AcksOK(With(c, n, s'), RecordAck(h, n, s'.term, m))
  {
    var c', h' := With(c, n, s'), RecordAck(h, n, s'.term, m);
    AckRecorded(h, n, s'.term, m);
    forall k | k in h'.acked ensures AckOK(c', h', k) {
      if k.0 != n {
        assert AckOK(c, h, k);
        AckExtends(cfg, c, c', h, h', k);
      } else {
        if k in h.acked { assert AckOK(c, h, k); }
        forall j | 0 <= j <= h'.acked[k] && Unbroken(h', k.1, j, s'.term)
          ensures Agree(h'.ballots[k.1].log, s'.log, j)
        {
          if k in h.acked && j <= h.acked[k] {
            assert Unbroken(h, k.1, j, s'.term);
            TakeOldAck(cfg, c, h, n, s', m, k, j);
          }
        }
      }
    }
  }

  lemma TakeVotes(c: Cluster, h: History, n: NodeId, s': Node, m: nat)
    requires VotesOK(c, h) && n in c.nodes && Takes(h, c.nodes[n], s', m)
    ensures VotesOK(With(c, n, s'), RecordAck(h, n, s'.term, m))
  {
    var c', h' := With(c, n, s'), RecordAck(h, n, s'.term, m);
    AckRecorded(h, n, s'.term, m);
    forall k | k in h'.votes ensures VoteOK(c', h', k) {
      assert VoteOK(c, h, k);
      assert VoteOK(c', h, k);
      VoteExtends(c', h, h', k);
    }
  }

  lemma TakeVoteAcks(cfg: Config, c: Cluster, h: History, n: NodeId, s': Node, m: nat)
    requires BallotsOK(cfg, c, h) && VotesOK(c, h) && AcksOK(c, h) && VoteAcksOK(h)
    requires n in c.nodes && Takes(h, c.nodes[n], s', m)
    ensures VoteAcksOK(RecordAck(h, n, s'.term, m))
  {
    var h' := RecordAck(h, n, s'.term, m);
    AckRecorded(h, n, s'.term, m);
    forall v, t, u | (v, t) in h'.votes && t !in h'.ballots && (v, u) in h'.acked && u < t
      ensures u in h'.ballots && VoteHeldAcks(h', v, t, u)
    {
      assert VoteOK(c, h, (v, t));
      assert (v, u) != (n, s'.term);
      VoteHeldExtends(cfg, c, h, h', v, t, u);
    }
  }

  lemma TakeElections(cfg: Config, c: Cluster, h: History, n: NodeId, s': Node, m: nat)
    requires BallotsOK(cfg, c, h) && VotesOK(c, h) && AcksOK(c, h) && ElectionsOK(h)
    requires n in c.nodes && Takes(h, c.nodes[n], s', m)
    ensures ElectionsOK(RecordAck(h, n, s'.term, m))
  {
    var h' := RecordAck(h, n, s'.term, m);
    AckRecorded(h, n, s'.term, m);
    forall t, v, u | t in h'.ballots && v in h'.ballots[t].quorum && (v, u) in h'.acked && u < t
      ensures u in h'.ballots && ElectionHeldAcks(h', t, v, u)
    {
      assert BallotOK(cfg, c, h, t);
      assert VoteOK(c, h, (v, t));
      assert (v, u) != (n, s'.term);
      ElectionHeldExtends(cfg, c, h, h', t, v, u);
    }
  }

  lemma AckMsg(c: Cluster, h: History, n: NodeId, t: nat, m: nat, msg: Message)
    requires t in h.ballots && MsgOK(c, h, msg)
    ensures MsgOK(c, RecordAck(h, n, t, m), msg)
  {
    AckRecorded(h, n, t, m);
    var h' := RecordAck(h, n, t, m);
    if msg.SnapshotMsg? { BelowExtends(h, h', msg.from, msg.term, |msg.prefix|); }
    if msg.SnapshotAck? { BelowExtends(h, h', msg.to, msg.term, msg.index); }
    MsgExtends(c, h, h', msg);
  }

  lemma TakeNet(c: Cluster, h: History, n: NodeId, s': Node, m: nat)
    requires NetOK(c, h) && n in c.nodes && Takes(h, c.nodes[n], s', m)
    ensures NetOK(With(c, n, s'), RecordAck(h, n, s'.term, m))
  {
    var c', h' := With(c, n, s'), RecordAck(h, n, s'.term, m);
    forall msg | msg in c'.net ensures MsgOK(c', h', msg) {
      AckMsg(c, h, n, s'.term, m, msg);
      KeepMsg(c, h', n, s', msg);
    }
  }

  /** A follower taking entries of its leader keeps the invariant. */
  lemma TakeInv(cfg: Config, c: Cluster, h: History, n: NodeId, s': Node, m: nat)
    requires Inv(cfg, c, h) && n in c.nodes && Takes(h, c.nodes[n], s', m) && NodeOK(cfg, n, s')
    ensures Inv(cfg, With(c, n, s'), RecordAck(h, n, s'.term, m)) && Extends(h, RecordAck(h, n, s'.term, m))
  {
    AckRecorded(h, n, s'.term, m);
    KeepCluster(cfg, c, n, s');
    TakeNodes(cfg, c, h, n, s', m);
    TakeAcks(cfg, c, h, n, s', m);
    TakeVotes(c, h, n, s', m);
    TakeVoteAcks(cfg, c, h, n, s', m);
    TakeElections(cfg, c, h, n, s', m);
    TakeNet(c, h, n, s', m);
    TakeBallots(cfg, c, h, n, s', m);
  }

  lemma TakeBallots(cfg: Config, c: Cluster, h: History, n: NodeId, s': Node, m: nat)
    requires BallotsOK(cfg, c, h) && n in c.nodes && Takes(h, c.nodes[n], s', m)
    ensures BallotsOK(cfg, With(c, n, s'), RecordAck(h, n, s'.term, m))
  {
    var c', h' := With(c, n, s'), RecordAck(h, n, s'.term, m);
    AckRecorded(h, n, s'.term, m);
    KeepBallots(cfg, c, h, n, s');
    forall t | t in h'.ballots ensures BallotOK(cfg, c', h', t) {
      assert BallotOK(cfg, c', h, t);
      BallotExtends(cfg, c', h, h', t);
    }
  }

  // ---------------------------------------------------------- leader append

  function RecordAppend(h: History, n: NodeId, s: Node): (h': History)
    requires s.term in h.ballots
  {
    h.(ballots := h.ballots[s.term := h.ballots[s.term].(log := s.log)], acked := h.acked[(n, s.term) := |s.log|])
  }

  /** The leader's log gains entries of its own term, numbered consecutively. */
  ghost predicate Grows(s: Node, s': Node)
  {
    && s'.role == Leader && s.role == Leader && s'.term == s.term && s'.votedFor == s.votedFor
    && s'.base == s.base && s'.campaign == s.campaign
    && Agree(s.log, s'.log, |s.log|) && Contiguous(s'.log) && s.term >= 1
    && (forall i :: |s.log| <= i < |s'.log| ==> s'.log[i].term == s.term)
    && s'.progress.Keys == s.progress.Keys
  }

  /** Only the leader's own match index moves. */
  ghost predicate GrowsOwnMatch(n: NodeId, s: Node, s': Node)
  {
    && (forall p :: p in s.progress ==> s.progress[p].matched <= |s.log|)
    && (forall p :: p in s'.progress && p != n ==> p in s.progress && s'.progress[p].matched == s.progress[p].matched)
  }

  lemma GrowExtends(cfg: Config, c: Cluster, h: History, n: NodeId, s': Node)
    requires NodesOK(cfg, c, h) && AcksOK(c, h) && n in c.nodes && Grows(c.nodes[n], s')
    ensures s'.term in h.ballots && Extends(h, RecordAppend(h, n, s'))
  {
    var s := c.nodes[n];
    assert LeaderOK(h, n, s);
    var h' := RecordAppend(h, n, s');
    forall t | t in h.ballots ensures t in h'.ballots && GrownBallot(t, h.ballots[t], h'.ballots[t]) { }
    forall k | k in h.acked ensures k in h'.acked && h.acked[k] <= h'.acked[k] {
      if k == (n, s.term) { assert AckOK(c, h, k); }
    }
  }

  lemma GrowMatches(h: History, n: NodeId, s: Node, s': Node)
    requires s'.term in h.ballots && MatchesOK(h, s) && Grows(s, s') && GrowsOwnMatch(n, s, s')
    requires Extends(h, RecordAppend(h, n, s'))
    ensures MatchesOK(RecordAppend(h, n, s'), s')
  {
    var h' := RecordAppend(h, n, s');
    forall p, m | p in s'.progress && 1 <= m <= s'.progress[p].matched && m <= |s'.log| && s'.log[m - 1].term == s'.term
      ensures Acked(h', p, s'.term, m)
    {
      if p != n {
        assert s.log[m - 1] == s'.log[m - 1];
        assert Acked(h, p, s.term, m);
      }
    }
  }

  lemma GrownSound(h: History, n: NodeId, s: Node, s': Node)
    requires s'.term in h.ballots && Sound(h, s.log) && Grows(s, s') && Extends(h, RecordAppend(h, n, s'))
    ensures Sound(RecordAppend(h, n, s'), s'.log)
  {
    var h' := RecordAppend(h, n, s');
    SoundExtends(h, h', s.log);
    forall i | 0 <= i < |s'.log|
      ensures s'.log[i].term in h'.ballots && Agree(s'.log, h'.ballots[s'.log[i].term].log, i + 1) {
      if i < |s.log| {
        assert s'.log[i] == s.log[i];
        assert Agree(s.log, h'.ballots[s.log[i].term].log, i + 1);
      }
    }
  }

  lemma GrowNodes(cfg: Config, c: Cluster, h: History, n: NodeId, s': Node)
    requires NodesOK(cfg, c, h) && AcksOK(c, h) && n in c.nodes && Grows(c.nodes[n], s')
    requires GrowsOwnMatch(n, c.nodes[n], s')
    requires s'.term in h.ballots
    ensures NodesOK(cfg, With(c, n, s'), RecordAppend(h, n, s'))
  {
    var s := c.nodes[n];
    var c', h' := With(c, n, s'), RecordAppend(h, n, s');
    GrowExtends(cfg, c, h, n, s');
    assert LogOK(h, s) && LeaderOK(h, n, s) && CandidateOK(cfg, h, n, s);
    forall x | x in c'.nodes
      ensures LogOK(h', c'.nodes[x]) && LeaderOK(h', x, c'.nodes[x]) && CandidateOK(cfg, h', x, c'.nodes[x]) {
      if x != n {
        assert c'.nodes[x] == c.nodes[x];
        assert LogOK(h, c.nodes[x]) && LeaderOK(h, x, c.nodes[x]) && CandidateOK(cfg, h, x, c.nodes[x]);
        NodeExtends(cfg, h, h', x, c.nodes[x]);
      } else {
        GrownSound(h, n, s, s');
        GrowMatches(h, n, s, s');
      }
    }
  }

  lemma GrowBallots(cfg: Config, c: Cluster, h: History, n: NodeId, s': Node)
    requires BallotsOK(cfg, c, h) && NodesOK(cfg, c, h) && AcksOK(c, h) && n in c.nodes && Grows(c.nodes[n], s')
    requires s'.term in h.ballots
    ensures BallotsOK(cfg, With(c, n, s'), RecordAppend(h, n, s'))
  {
    var s := c.nodes[n];
    var c', h' := With(c, n, s'), RecordAppend(h, n, s');
    GrowExtends(cfg, c, h, n, s');
    KeepBallots(cfg, c, h, n, s');
    assert LogOK(h, s) && LeaderOK(h, n, s);
    GrownSound(h, n, s, s');
    forall t | t in h'.ballots ensures BallotOK(cfg, c', h', t) {
      assert BallotOK(cfg, c', h, t);
      if t != s.term { BallotExtends(cfg, c', h, h', t); }
    }
  }

  lemma GrowVotes(cfg: Config, c: Cluster, h: History, n: NodeId, s': Node)
    requires BallotsOK(cfg, c, h) && NodesOK(cfg, c, h) && VotesOK(c, h) && AcksOK(c, h) && n in c.nodes
    requires Grows(c.nodes[n], s')
    requires s'.term in h.ballots
    ensures VotesOK(With(c, n, s'), RecordAppend(h, n, s'))
  {
    var c', h' := With(c, n, s'), RecordAppend(h, n, s');
    GrowExtends(cfg, c, h, n, s');
    hide BallotsOK, NodesOK, AcksOK, Extends;
    forall k | k in h'.votes ensures VoteOK(c', h', k) {
      GrowVoteSeen(c, h, n, s', k);
      VoteExtends(c', h, h', k);
    }
  }

  /** An appending leader is no candidate, so nobody's vote is affected. */
  lemma GrowVoteSeen(c: Cluster, h: History, n: NodeId, s': Node, k: (NodeId, nat))
    requires k in h.votes && VoteOK(c, h, k) && n in c.nodes && Grows(c.nodes[n], s')
    ensures VoteOK(With(c, n, s'), h, k)
  {
    hide Sound, UpToDate;
  }

  lemma GrowOwnAck(cfg: Config, c: Cluster, h: History, n: NodeId, s': Node, u: nat, m: nat)
    requires BallotsOK(cfg, c, h) && AcksOK(c, h) && n in c.nodes && Grows(c.nodes[n], s') && s'.term in h.ballots
    requires Extends(h, RecordAppend(h, n, s'))
    requires (n, u) in h.acked && u < s'.term && u in h.ballots && m <= h.acked[(n, u)]
    requires u in RecordAppend(h, n, s').ballots && Unbroken(RecordAppend(h, n, s'), u, m, s'.term)
    ensures Agree(h.ballots[u].log, s'.log, m)
  {
    assert AckOK(c, h, (n, u)) && BallotOK(cfg, c, h, u);
    UnbrokenBack(h, RecordAppend(h, n, s'), u, m, s'.term);
    assert Agree(h.ballots[u].log, c.nodes[n].log, m);
  }

  lemma GrowAcks(cfg: Config, c: Cluster, h: History, n: NodeId, s': Node)
    requires BallotsOK(cfg, c, h) && NodesOK(cfg, c, h) && AcksOK(c, h) && n in c.nodes && Grows(c.nodes[n], s')
    requires s'.term in h.ballots
    ensures AcksOK(With(c, n, s'), RecordAppend(h, n, s'))
  {
    var c', h' := With(c, n, s'), RecordAppend(h, n, s');
    GrowExtends(cfg, c, h, n, s');
    forall k | k in h'.acked ensures AckOK(c', h', k) {
      if k.0 != n {
        assert AckOK(c, h, k);
        AckExtends(cfg, c, c', h, h', k);
      } else if k.1 != s'.term {
        assert AckOK(c, h, k);
        assert h'.ballots[k.1] == h.ballots[k.1];
        forall m | 0 <= m <= h'.acked[k] && Unbroken(h', k.1, m, s'.term)
          ensures Agree(h'.ballots[k.1].log, s'.log, m)
        {
          GrowOwnAck(cfg, c, h, n, s', k.1, m);
        }
      } else {
        assert h'.ballots[k.1].log == s'.log;
      }
    }
  }

  lemma GrowFields(s: Node, s': Node)
    requires Grows(s, s')
    ensures s'.term == s.term && s.role == Leader
  {
  }

  lemma GrowVoteAcks(cfg: Config, c: Cluster, h: History, n: NodeId, s': Node)
    requires BallotsOK(cfg, c, h) && NodesOK(cfg, c, h) && VotesOK(c, h) && AcksOK(c, h) && VoteAcksOK(h)
    requires n in c.nodes && Grows(c.nodes[n], s') && s'.term in h.ballots
    ensures VoteAcksOK(RecordAppend(h, n, s'))
  {
    hide BallotsOK, NodesOK, AcksOK, Extends, VoteHeldAcks, Sound, Grows;
    GrowFields(c.nodes[n], s');
    var h' := RecordAppend(h, n, s');
    GrowExtends(cfg, c, h, n, s');
    forall v, t, u | (v, t) in h'.votes && t !in h'.ballots && (v, u) in h'.acked && u < t
      ensures u in h'.ballots && VoteHeldAcks(h', v, t, u)
    {
      assert VoteOK(c, h, (v, t));
      assert (v, u) != (n, s'.term);
      VoteHeldExtends(cfg, c, h, h', v, t, u);
    }
  }

  lemma GrowElections(cfg: Config, c: Cluster, h: History, n: NodeId, s': Node)
    requires BallotsOK(cfg, c, h) && NodesOK(cfg, c, h) && VotesOK(c, h) && AcksOK(c, h) && ElectionsOK(h)
    requires n in c.nodes && Grows(c.nodes[n], s') && s'.term in h.ballots
    ensures ElectionsOK(RecordAppend(h, n, s'))
  {
    hide NodesOK, AcksOK, Extends, ElectionHeldAcks, Sound, Grows, IsQuorum;
    GrowFields(c.nodes[n], s');
    var h' := RecordAppend(h, n, s');
    GrowExtends(cfg, c, h, n, s');
    forall t, v, u | t in h'.ballots && v in h'.ballots[t].quorum && (v, u) in h'.acked && u < t
      ensures u in h'.ballots && ElectionHeldAcks(h', t, v, u)
    {
      assert BallotOK(cfg, c, h, t);
      assert VoteOK(c, h, (v, t));
      assert (v, u) != (n, s'.term);
      ElectionHeldExtends(cfg, c, h, h', t, v, u);
    }
  }

  lemma GrowMsg(c: Cluster, h: History, n: NodeId, s': Node, m: Message)
    requires s'.term in h.ballots && MsgOK(c, h, m) && Extends(h, RecordAppend(h, n, s'))
    ensures MsgOK(c, RecordAppend(h, n, s'), m)
  {
    var h' := RecordAppend(h, n, s');
    if m.SnapshotMsg? { BelowExtends(h, h', m.from, m.term, |m.prefix|); }
    if m.SnapshotAck? { BelowExtends(h, h', m.to, m.term, m.index); }
    MsgExtends(c, h, h', m);
  }

  lemma GrowNet(cfg: Config, c: Cluster, h: History, n: NodeId, s': Node)
    requires NodesOK(cfg, c, h) && AcksOK(c, h) && NetOK(c, h) && n in c.nodes && Grows(c.nodes[n], s')
    requires s'.term in h.ballots
    ensures NetOK(With(c, n, s'), RecordAppend(h, n, s'))
  {
    var c', h' := With(c, n, s'), RecordAppend(h, n, s');
    GrowExtends(cfg, c, h, n, s');
    forall m | m in c'.net ensures MsgOK(c', h', m) {
      GrowMsg(c, h, n, s', m);
      KeepMsg(c, h', n, s', m);
    }
  }

  /** A leader appending entries of its own term keeps the invariant. */
  lemma GrowInv(cfg: Config, c: Cluster, h: History, n: NodeId, s': Node)
    requires Inv(cfg, c, h) && n in c.nodes && Grows(c.nodes[n], s') && GrowsOwnMatch(n, c.nodes[n], s')
    requires NodeOK(cfg, n, s')
    ensures s'.term in h.ballots
    ensures Inv(cfg, With(c, n, s'), RecordAppend(h, n, s')) && Extends(h, RecordAppend(h, n, s'))
  {
    GrowExtends(cfg, c, h, n, s');
    KeepCluster(cfg, c, n, s');
    GrowNodes(cfg, c, h, n, s');
    GrowBallots(cfg, c, h, n, s');
    GrowVotes(cfg, c, h, n, s');
    GrowAcks(cfg, c, h, n, s');
    GrowVoteAcks(cfg, c, h, n, s');
    GrowElections(cfg, c, h, n, s');
    GrowNet(cfg, c, h, n, s');
  }
}
