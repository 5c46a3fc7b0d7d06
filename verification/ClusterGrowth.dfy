/**
 The changes that extend a leader's log or a follower's acknowledgements:
 winning an election, a leader's own append, and a follower taking entries.
 */
module ClusterGrowth {
  import opened RaftTypes
  import opened RaftNode
  import opened Cluster
  import opened ClusterInvariant
  import opened ClusterSteps

  /** A later history: leader logs only grow by entries of their own term. */
  ghost predicate Extends(h: History, h': History)
  {
    && (forall t :: t in h.ballots ==> t in h'.ballots && GrownBallot(t, h.ballots[t], h'.ballots[t]))
    && (forall k :: k in h.votes ==> k in h'.votes && h'.votes[k] == h.votes[k])
    && (forall k :: k in h.acked ==> k in h'.acked && h.acked[k] <= h'.acked[k])
  }

  ghost predicate GrownBallot(t: nat, b: Ballot, b': Ballot)
  {
    && b'.leader == b.leader && b'.quorum == b.quorum && Agree(b.log, b'.log, |b.log|)
    && forall i :: |b.log| <= i < |b'.log| ==> b'.log[i].term == t
  }

  lemma SoundExtends(h: History, h': History, log: seq<Entry>)
    requires Extends(h, h') && Sound(h, log)
    ensures Sound(h', log)
  {
    forall i | 0 <= i < |log| ensures log[i].term in h'.ballots && Agree(log, h'.ballots[log[i].term].log, i + 1) {
      assert GrownBallot(log[i].term, h.ballots[log[i].term], h'.ballots[log[i].term]);
    }
  }

  /** A prefix kept by every later leader of h' was already kept by those of h. */
  lemma UnbrokenBack(h: History, h': History, t: nat, m: nat, hi: int)
    requires Extends(h, h') && t in h.ballots && m <= |h.ballots[t].log| && TermsAtMost(h.ballots[t].log, t)
    requires Unbroken(h', t, m, hi)
    ensures Unbroken(h, t, m, hi)
  {
    var g, g' := h.ballots[t].log, h'.ballots[t].log;
    assert GrownBallot(t, h.ballots[t], h'.ballots[t]);
    forall u | u in h.ballots && t < u <= hi ensures Agree(g, h.ballots[u].log, m) {
      var f, f' := h.ballots[u].log, h'.ballots[u].log;
      assert GrownBallot(u, h.ballots[u], h'.ballots[u]);
      assert Agree(g', f', m);
      if |f| < |f'| { assert f'[|f|].term == u; }
    }
  }

  lemma AckExtends(cfg: Config, c: Cluster, c': Cluster, h: History, h': History, k: (NodeId, nat))
    requires Extends(h, h') && BallotsOK(cfg, c, h) && k in h.acked && AckOK(c, h, k)
    requires h'.acked[k] == h.acked[k]
    requires k.0 in c'.nodes && c'.nodes[k.0].term == c.nodes[k.0].term && c'.nodes[k.0].log == c.nodes[k.0].log
    ensures AckOK(c', h', k)
  {
    var t := k.1;
    assert BallotOK(cfg, c, h, t) && GrownBallot(t, h.ballots[t], h'.ballots[t]);
    forall m | 0 <= m <= h'.acked[k] && Unbroken(h', t, m, c'.nodes[k.0].term)
      ensures Agree(h'.ballots[t].log, c'.nodes[k.0].log, m)
    {
      UnbrokenBack(h, h', t, m, c.nodes[k.0].term);
      assert Agree(h.ballots[t].log, c.nodes[k.0].log, m);
    }
  }

  lemma VoteHeldExtends(cfg: Config, c: Cluster, h: History, h': History, v: NodeId, t: nat, u: nat)
    requires Extends(h, h') && BallotsOK(cfg, c, h) && AcksOK(c, h)
    requires (v, t) in h.votes && (v, u) in h.acked && u in h.ballots && VoteHeldAcks(h, v, t, u)
    requires h'.acked[(v, u)] == h.acked[(v, u)]
    ensures VoteHeldAcks(h', v, t, u)
  {
    assert BallotOK(cfg, c, h, u) && GrownBallot(u, h.ballots[u], h'.ballots[u]) && AckOK(c, h, (v, u));
    forall m | 0 <= m <= h'.acked[(v, u)] && Unbroken(h', u, m, t - 1)
      ensures Agree(h'.ballots[u].log, h'.votes[(v, t)].log, m)
    {
      UnbrokenBack(h, h', u, m, t - 1);
      assert Agree(h.ballots[u].log, h.votes[(v, t)].log, m);
    }
  }

  lemma ElectionHeldExtends(cfg: Config, c: Cluster, h: History, h': History, t: nat, v: NodeId, u: nat)
    requires Extends(h, h') && BallotsOK(cfg, c, h) && AcksOK(c, h)
    requires t in h.ballots && (v, u) in h.acked && u in h.ballots && ElectionHeldAcks(h, t, v, u)
    requires h'.acked[(v, u)] == h.acked[(v, u)]
    ensures ElectionHeldAcks(h', t, v, u)
  {
    assert BallotOK(cfg, c, h, u) && AckOK(c, h, (v, u));
    assert GrownBallot(u, h.ballots[u], h'.ballots[u]) && GrownBallot(t, h.ballots[t], h'.ballots[t]);
    forall m | 1 <= m <= h'.acked[(v, u)] && m <= |h'.ballots[u].log| && h'.ballots[u].log[m - 1].term == u &&
               Unbroken(h', u, m, t - 1)
      ensures Agree(h'.ballots[u].log, h'.ballots[t].log, m)
    {
      UnbrokenBack(h, h', u, m, t - 1);
      assert h.ballots[u].log[m - 1] == h'.ballots[u].log[m - 1];
      assert Agree(h.ballots[u].log, h.ballots[t].log, m);
    }
  }

  /** Later ballots of the same leader are the only part of a message's truth that growth could break. */
  lemma MsgExtends(c: Cluster, h: History, h': History, m: Message)
    requires Extends(h, h') && MsgOK(c, h, m)
    requires m.SnapshotMsg? ==> BelowLaterBallots(h', m.from, m.term, |m.prefix|)
    requires m.SnapshotAck? ==> BelowLaterBallots(h', m.to, m.term, m.index)
    ensures MsgOK(c, h', m)
  {
    if m.AppendReq? || m.SnapshotMsg? {
      var g, g' := h.ballots[m.term].log, h'.ballots[m.term].log;
      assert GrownBallot(m.term, h.ballots[m.term], h'.ballots[m.term]);
      if m.AppendReq? {
        assert g'[m.prev..m.prev + |m.entries|] == g[m.prev..m.prev + |m.entries|];
      } else {
        assert g'[..|m.prefix|] == g[..|m.prefix|];
      }
    } else if m.SnapshotAck? {
      assert GrownBallot(m.term, h.ballots[m.term], h'.ballots[m.term]);
    }
  }

  lemma NodeExtends(cfg: Config, h: History, h': History, n: NodeId, s: Node)
    requires Extends(h, h') && LogOK(h, s) && LeaderOK(h, n, s) && CandidateOK(cfg, h, n, s)
    requires s.role == Leader ==> h'.ballots[s.term].log == s.log
    requires s.role == Candidate ==> !(s.term in h'.ballots && h'.ballots[s.term].leader == n)
    ensures LogOK(h', s) && LeaderOK(h', n, s) && CandidateOK(cfg, h', n, s)
  {
    SoundExtends(h, h', s.log);
    if s.role == Leader {
      assert GrownBallot(s.term, h.ballots[s.term], h'.ballots[s.term]);
      MatchesSurvive(h, h', s);
    }
  }

  lemma BallotExtends(cfg: Config, c: Cluster, h: History, h': History, t: nat)
    requires Extends(h, h') && t in h.ballots && BallotOK(cfg, c, h, t) && h'.ballots[t] == h.ballots[t]
    ensures BallotOK(cfg, c, h', t)
  {
    SoundExtends(h, h', h.ballots[t].log);
  }

  lemma VoteExtends(c: Cluster, h: History, h': History, k: (NodeId, nat))
    requires Extends(h, h') && k in h.votes && VoteOK(c, h, k)
    ensures VoteOK(c, h', k)
  {
    SoundExtends(h, h', h.votes[k].log);
  }

  lemma BelowExtends(h: History, h': History, n: NodeId, t: nat, i: nat)
    requires Extends(h, h') && BelowLaterBallots(h, n, t, i)
    requires forall u :: u in h'.ballots && u > t && h'.ballots[u].leader == n && u !in h.ballots ==>
               i <= |h'.ballots[u].log| && TermsAtMost(h'.ballots[u].log[..i], u - 1)
    ensures BelowLaterBallots(h', n, t, i)
  {
    forall u | u in h'.ballots && u > t && h'.ballots[u].leader == n
      ensures i <= |h'.ballots[u].log| && TermsAtMost(h'.ballots[u].log[..i], u - 1)
    {
      if u in h.ballots {
        assert GrownBallot(u, h.ballots[u], h'.ballots[u]);
        assert h'.ballots[u].log[..i] == h.ballots[u].log[..i];
      }
    }
  }

  /** Sound logs have non-decreasing terms. */
  lemma SoundMonotone(cfg: Config, c: Cluster, h: History, log: seq<Entry>)
    requires BallotsOK(cfg, c, h) && Sound(h, log)
    ensures Monotone(log)
  {
    forall i, j | 0 <= i <= j < |log| ensures log[i].term <= log[j].term {
      var g := h.ballots[log[j].term].log;
      assert BallotOK(cfg, c, h, log[j].term);
      assert Agree(log, g, j + 1);
      assert log[i] == g[i] && log[j] == g[j];
    }
  }

  // ------------------------------------------------------------- elections

  /** Two majorities of the same voters share a member. */
  lemma QuorumsMeet(cfg: Config, a: set<NodeId>, b: set<NodeId>) returns (v: NodeId)
    requires IsQuorum(cfg, a) && IsQuorum(cfg, b)
    ensures v in a && v in b && v in cfg.voters
  {
    var x, y := a * cfg.voters, b * cfg.voters;
    if x * y == {} {
      assert x + y <= cfg.voters;
      SubsetSize(x + y, cfg.voters);
      assert false;
    }
    v :| v in x * y;
  }

  lemma {:induction false} SubsetSize(a: set<NodeId>, b: set<NodeId>)
    requires a <= b
    ensures |a| <= |b|
  {
    if a != {} {
      var x :| x in a;
      SubsetSize(a - {x}, b - {x});
    }
  }

  function RecordElection(h: History, n: NodeId, s: Node): (h': History)
  {
    h.(ballots := h.ballots[s.term := Ballot(n, s.votes, s.log)],
       acked := h.acked[(n, s.term) := |s.log|])
  }

  ghost predicate Wins(cfg: Config, c: Cluster, n: NodeId)
  {
    n in c.nodes && c.nodes[n].role == Candidate && IsQuorum(cfg, c.nodes[n].votes)
  }

  /** No leader of the term exists yet. */
  lemma ElectionIsFresh(cfg: Config, c: Cluster, h: History, n: NodeId)
    requires BallotsOK(cfg, c, h) && NodesOK(cfg, c, h) && Wins(cfg, c, n)
    ensures c.nodes[n].term !in h.ballots
  {
    var s := c.nodes[n];
    var t := s.term;
    assert CandidateOK(cfg, h, n, s);
    if t in h.ballots {
      assert BallotOK(cfg, c, h, t);
      var v := QuorumsMeet(cfg, s.votes, h.ballots[t].quorum);
      assert false;
    }
  }

  lemma FreshElectionExtends(c: Cluster, h: History, n: NodeId)
    requires AcksOK(c, h) && n in c.nodes && c.nodes[n].term !in h.ballots
    ensures (n, c.nodes[n].term) !in h.acked
    ensures Extends(h, RecordElection(h, n, c.nodes[n]))
  {
    var k := (n, c.nodes[n].term);
    var h' := RecordElection(h, n, c.nodes[n]);
    forall t | t in h.ballots ensures t in h'.ballots && GrownBallot(t, h.ballots[t], h'.ballots[t]) {
      assert h'.ballots[t] == h.ballots[t];
    }
  }

  /** A log without a ballot for its own term has only earlier terms. */
  lemma EarlierTerms(h: History, log: seq<Entry>, t: nat)
    requires Sound(h, log) && TermsAtMost(log, t) && t !in h.ballots && t >= 1
    ensures TermsAtMost(log, t - 1)
  {
  }

  /**
   A log at least as recent as one that holds the first m entries of term u's
   leader holds them too, provided every leader after u kept them.
   */
  lemma RecentLogHolds(cfg: Config, c: Cluster, h: History, u: nat, m: nat, held: seq<Entry>, log: seq<Entry>, hi: int)
    requires BallotsOK(cfg, c, h) && u in h.ballots && Sound(h, held) && Sound(h, log)
    requires 1 <= m && Agree(h.ballots[u].log, held, m) && h.ballots[u].log[m - 1].term == u
    requires UpToDate(|log|, LastTerm(log), held)
    requires Unbroken(h, u, m, hi) && TermsAtMost(log, hi)
    ensures Agree(h.ballots[u].log, log, m)
  {
    SoundMonotone(cfg, c, h, held);
    var g := h.ballots[u].log;
    assert held[m - 1] == g[m - 1];
    assert LastTerm(held) >= u;
    assert BallotOK(cfg, c, h, u);
    var last := LastTerm(log);
    assert last >= LastTerm(held) && |log| > 0;
    var f := h.ballots[last].log;
    assert Agree(log, f, |log|) && log[|log| - 1] == f[|log| - 1];
    if last == u {
      assert |log| >= |held| >= m;
    } else {
      assert u < last <= hi;
      assert Agree(g, f, m);
      assert BallotOK(cfg, c, h, last);
      assert f[m - 1] == g[m - 1];
      assert f[Min(|log|, m) - 1].term <= f[m - 1].term;
    }
  }

  /** A counted vote was cast on a log no more recent than the candidate's. */
  lemma VoteForWinner(cfg: Config, c: Cluster, h: History, n: NodeId, v: NodeId)
    requires NodesOK(cfg, c, h) && VotesOK(c, h) && n in c.nodes && c.nodes[n].role == Candidate
    requires v in c.nodes[n].votes
    ensures var s := c.nodes[n];
      && s.term >= 1 && Sound(h, s.log) && TermsAtMost(s.log, s.term)
      && (v, s.term) in h.votes && Sound(h, h.votes[(v, s.term)].log)
      && UpToDate(|s.log|, LastTerm(s.log), h.votes[(v, s.term)].log)
  {
    hide Sound, UpToDate;
    var s := c.nodes[n];
    assert LogOK(h, s) && CandidateOK(cfg, h, n, s);
    assert VoteOK(c, h, (v, s.term));
  }

  /**
   The heart of leader completeness: a winner's log holds every entry of an
   earlier term that one of its voters acknowledged, provided no leader in
   between dropped it.
   */
  lemma WinnerHoldsAcks(cfg: Config, c: Cluster, h: History, n: NodeId, v: NodeId, u: nat, m: nat)
    requires BallotsOK(cfg, c, h) && NodesOK(cfg, c, h) && VotesOK(c, h) && VoteAcksOK(h)
    requires n in c.nodes && c.nodes[n].role == Candidate && c.nodes[n].term !in h.ballots
    requires v in c.nodes[n].votes && (v, u) in h.acked && u < c.nodes[n].term && u in h.ballots
    requires 1 <= m <= h.acked[(v, u)] && m <= |h.ballots[u].log| && h.ballots[u].log[m - 1].term == u
    requires Unbroken(h, u, m, c.nodes[n].term - 1)
    ensures Agree(h.ballots[u].log, c.nodes[n].log, m)
  {
    hide Sound, BallotsOK, UpToDate, NodesOK, VotesOK;
    var s := c.nodes[n];
    var t := s.term;
    VoteForWinner(cfg, c, h, n, v);
    assert VoteHeldAcks(h, v, t, u);
    EarlierTerms(h, s.log, t);
    RecentLogHolds(cfg, c, h, u, m, h.votes[(v, t)].log, s.log, t - 1);
  }

  lemma ElectNodes(cfg: Config, c: Cluster, h: History, n: NodeId)
    requires BallotsOK(cfg, c, h) && NodesOK(cfg, c, h) && AcksOK(c, h) && n in c.nodes
    requires c.nodes[n].role == Candidate && c.nodes[n].term !in h.ballots
    ensures NodesOK(cfg, With(c, n, TakeLeadership(cfg, n, c.nodes[n])), RecordElection(h, n, c.nodes[n]))
  {
    var s := c.nodes[n];
    var s', h' := TakeLeadership(cfg, n, s), RecordElection(h, n, s);
    var c' := With(c, n, s');
    FreshElectionExtends(c, h, n);
    forall x | x in c'.nodes
      ensures LogOK(h', c'.nodes[x]) && LeaderOK(h', x, c'.nodes[x]) && CandidateOK(cfg, h', x, c'.nodes[x]) {
      assert LogOK(h, c.nodes[x]) && LeaderOK(h, x, c.nodes[x]) && CandidateOK(cfg, h, x, c.nodes[x]);
      if x != n {
        assert c'.nodes[x] == c.nodes[x];
        NodeExtends(cfg, h, h', x, c.nodes[x]);
      } else {
        SoundExtends(h, h', s.log);
        EarlierTerms(h, s.log, s.term);
        assert MatchesOK(h', s');
      }
    }
  }

  lemma ElectBallots(cfg: Config, c: Cluster, h: History, n: NodeId)
    requires BallotsOK(cfg, c, h) && NodesOK(cfg, c, h) && AcksOK(c, h) && Wins(cfg, c, n)
    requires c.nodes[n].term !in h.ballots
    ensures BallotsOK(cfg, With(c, n, TakeLeadership(cfg, n, c.nodes[n])), RecordElection(h, n, c.nodes[n]))
  {
    var s := c.nodes[n];
    var s', h' := TakeLeadership(cfg, n, s), RecordElection(h, n, s);
    var c' := With(c, n, s');
    FreshElectionExtends(c, h, n);
    assert LogOK(h, s) && CandidateOK(cfg, h, n, s);
    SoundMonotone(cfg, c, h, s.log);
    SoundExtends(h, h', s.log);
    KeepBallots(cfg, c, h, n, s');
    forall t | t in h'.ballots ensures BallotOK(cfg, c', h', t) {
      if t != s.term {
        assert BallotOK(cfg, c', h, t);
        BallotExtends(cfg, c', h, h', t);
      } else {
        assert h'.ballots[t] == Ballot(n, s.votes, s.log);
      }
    }
  }

  lemma ElectVotes(cfg: Config, c: Cluster, h: History, n: NodeId)
    requires BallotsOK(cfg, c, h) && VotesOK(c, h) && AcksOK(c, h) && n in c.nodes && c.nodes[n].term !in h.ballots
    ensures VotesOK(With(c, n, TakeLeadership(cfg, n, c.nodes[n])), RecordElection(h, n, c.nodes[n]))
    ensures AcksOK(With(c, n, TakeLeadership(cfg, n, c.nodes[n])), RecordElection(h, n, c.nodes[n]))
  {
    var s := c.nodes[n];
    var s', h' := TakeLeadership(cfg, n, s), RecordElection(h, n, s);
    var c' := With(c, n, s');
    FreshElectionExtends(c, h, n);
    forall k | k in h'.votes ensures VoteOK(c', h', k) {
      assert VoteOK(c, h, k);
      assert VoteOK(c', h, k);
      VoteExtends(c', h, h', k);
    }
    forall k | k in h'.acked ensures AckOK(c', h', k) {
      if k != (n, s.term) {
        assert AckOK(c, h, k);
        AckExtends(cfg, c, c', h, h', k);
      } else {
        assert h'.ballots[k.1] == Ballot(n, s.votes, s.log);
      }
    }
  }

  lemma ElectVoteAcks(cfg: Config, c: Cluster, h: History, n: NodeId)
    requires BallotsOK(cfg, c, h) && VotesOK(c, h) && AcksOK(c, h) && VoteAcksOK(h)
    requires n in c.nodes && c.nodes[n].term !in h.ballots
    ensures VoteAcksOK(RecordElection(h, n, c.nodes[n]))
  {
    var h' := RecordElection(h, n, c.nodes[n]);
    FreshElectionExtends(c, h, n);
    forall v, t, u | (v, t) in h'.votes && t !in h'.ballots && (v, u) in h'.acked && u < t
      ensures u in h'.ballots && VoteHeldAcks(h', v, t, u)
    {
      assert VoteOK(c, h, (v, t));
      assert (v, u) in h.acked;
      VoteHeldExtends(cfg, c, h, h', v, t, u);
    }
  }

  lemma ElectElections(cfg: Config, c: Cluster, h: History, n: NodeId)
    requires BallotsOK(cfg, c, h) && NodesOK(cfg, c, h) && VotesOK(c, h) && AcksOK(c, h) && VoteAcksOK(h)
    requires ElectionsOK(h)
    requires n in c.nodes && c.nodes[n].role == Candidate && c.nodes[n].term !in h.ballots
    ensures ElectionsOK(RecordElection(h, n, c.nodes[n]))
  {
    hide ElectionHeldAcks, Extends, NodesOK, NodeOK;
    var s := c.nodes[n];
    var h' := RecordElection(h, n, s);
    FreshElectionExtends(c, h, n);
    forall t, v, u | t in h'.ballots && v in h'.ballots[t].quorum && (v, u) in h'.acked && u < t
      ensures u in h'.ballots && ElectionHeldAcks(h', t, v, u)
    {
      if t != s.term {
        assert BallotOK(cfg, c, h, t);
        assert VoteOK(c, h, (v, t));
        assert (v, u) in h.acked;
        ElectionHeldExtends(cfg, c, h, h', t, v, u);
      } else {
        assert AckOK(c, h, (v, u));
        NewLeaderHolds(cfg, c, h, n, v, u);
      }
    }
  }

  /** The log holds each own-term prefix of term u's leader, up to acks, that later leaders kept. */
  ghost predicate LogHolds(h: History, u: nat, acks: nat, log: seq<Entry>, hi: int)
    requires u in h.ballots
  {
    forall m :: 1 <= m <= acks && m <= |h.ballots[u].log| && h.ballots[u].log[m - 1].term == u &&
                Unbroken(h, u, m, hi) ==>
      Agree(h.ballots[u].log, log, m)
  }

  lemma WinnerLogHolds(cfg: Config, c: Cluster, h: History, n: NodeId, v: NodeId, u: nat)
    requires BallotsOK(cfg, c, h) && NodesOK(cfg, c, h) && VotesOK(c, h) && VoteAcksOK(h)
    requires n in c.nodes && c.nodes[n].role == Candidate && c.nodes[n].term !in h.ballots
    requires v in c.nodes[n].votes && (v, u) in h.acked && u < c.nodes[n].term && u in h.ballots
    ensures LogHolds(h, u, h.acked[(v, u)], c.nodes[n].log, c.nodes[n].term - 1)
  {
    var hi := c.nodes[n].term - 1;
    forall m | 1 <= m <= h.acked[(v, u)] && m <= |h.ballots[u].log| && h.ballots[u].log[m - 1].term == u &&
      Unbroken(h, u, m, hi)
      ensures Agree(h.ballots[u].log, c.nodes[n].log, m)
    {
      WinnerHoldsAcks(cfg, c, h, n, v, u, m);
    }
  }

  lemma LogHoldsExtends(h: History, h': History, u: nat, acks: nat, log: seq<Entry>, hi: int)
    requires Extends(h, h') && u in h.ballots && TermsAtMost(h.ballots[u].log, u) && acks <= |h.ballots[u].log|
    requires LogHolds(h, u, acks, log, hi)
    ensures LogHolds(h', u, acks, log, hi)
  {
    assert GrownBallot(u, h.ballots[u], h'.ballots[u]);
    forall m | 1 <= m <= acks && m <= |h'.ballots[u].log| && h'.ballots[u].log[m - 1].term == u &&
      Unbroken(h', u, m, hi)
      ensures Agree(h'.ballots[u].log, log, m)
    {
      UnbrokenBack(h, h', u, m, hi);
      assert h.ballots[u].log[m - 1] == h'.ballots[u].log[m - 1];
      assert Agree(h.ballots[u].log, log, m);
    }
  }

  lemma NewLeaderHolds(cfg: Config, c: Cluster, h: History, n: NodeId, v: NodeId, u: nat)
    requires BallotsOK(cfg, c, h) && NodesOK(cfg, c, h) && VotesOK(c, h) && AcksOK(c, h) && VoteAcksOK(h)
    requires n in c.nodes && c.nodes[n].role == Candidate && c.nodes[n].term !in h.ballots
    requires v in c.nodes[n].votes && (v, u) in h.acked && u < c.nodes[n].term && u in h.ballots
    requires (v, u) in RecordElection(h, n, c.nodes[n]).acked && u in RecordElection(h, n, c.nodes[n]).ballots
    ensures ElectionHeldAcks(RecordElection(h, n, c.nodes[n]), c.nodes[n].term, v, u)
  {
    WinnerLogHolds(cfg, c, h, n, v, u);
    FreshElectionExtends(c, h, n);
    assert BallotOK(cfg, c, h, u) && AckOK(c, h, (v, u));
    LogHoldsIsHeld(h, n, c.nodes[n], v, u);
  }

  lemma LogHoldsIsHeld(h: History, n: NodeId, s: Node, v: NodeId, u: nat)
    requires Extends(h, RecordElection(h, n, s)) && u in h.ballots && (v, u) in h.acked && u < s.term
    requires TermsAtMost(h.ballots[u].log, u) && h.acked[(v, u)] <= |h.ballots[u].log|
    requires LogHolds(h, u, h.acked[(v, u)], s.log, s.term - 1)
    ensures ElectionHeldAcks(RecordElection(h, n, s), s.term, v, u)
  {
    var h' := RecordElection(h, n, s);
    LogHoldsExtends(h, h', u, h.acked[(v, u)], s.log, s.term - 1);
    assert h'.acked[(v, u)] == h.acked[(v, u)] && h'.ballots[s.term].log == s.log;
  }

  lemma ElectMsg(c: Cluster, h: History, n: NodeId, m: Message)
    requires MsgOK(c, h, m) && n in c.nodes && Extends(h, RecordElection(h, n, c.nodes[n]))
    requires c.nodes[n].base <= |c.nodes[n].log| && TermsAtMost(c.nodes[n].log, c.nodes[n].term - 1)
    ensures MsgOK(c, RecordElection(h, n, c.nodes[n]), m)
  {
    var h' := RecordElection(h, n, c.nodes[n]);
    if m.SnapshotMsg? { BelowExtends(h, h', m.from, m.term, |m.prefix|); }
    if m.SnapshotAck? { BelowExtends(h, h', m.to, m.term, m.index); }
    MsgExtends(c, h, h', m);
  }

  lemma ElectNet(cfg: Config, c: Cluster, h: History, n: NodeId)
    requires ClusterOK(cfg, c) && NodesOK(cfg, c, h) && AcksOK(c, h) && NetOK(c, h)
    requires n in c.nodes && c.nodes[n].term !in h.ballots && c.nodes[n].term >= 1
    ensures NetOK(With(c, n, TakeLeadership(cfg, n, c.nodes[n])), RecordElection(h, n, c.nodes[n]))
  {
    var s := c.nodes[n];
    var s', h' := TakeLeadership(cfg, n, s), RecordElection(h, n, s);
    var c' := With(c, n, s');
    FreshElectionExtends(c, h, n);
    assert LogOK(h, s) && NodeOK(cfg, n, s);
    EarlierTerms(h, s.log, s.term);
    forall m | m in c'.net ensures MsgOK(c', h', m) {
      ElectMsg(c, h, n, m);
      KeepMsg(c, h', n, s', m);
    }
  }

  /** Winning an election keeps the invariant. */
  lemma ElectInv(cfg: Config, c: Cluster, h: History, n: NodeId)
    requires Inv(cfg, c, h) && Wins(cfg, c, n) && NodeOK(cfg, n, TakeLeadership(cfg, n, c.nodes[n]))
    ensures Inv(cfg, With(c, n, TakeLeadership(cfg, n, c.nodes[n])), RecordElection(h, n, c.nodes[n]))
    ensures Extends(h, RecordElection(h, n, c.nodes[n]))
  {
    assert CandidateOK(cfg, h, n, c.nodes[n]);
    ElectionIsFresh(cfg, c, h, n);
    FreshElectionExtends(c, h, n);
    KeepCluster(cfg, c, n, TakeLeadership(cfg, n, c.nodes[n]));
    ElectNodes(cfg, c, h, n);
    ElectBallots(cfg, c, h, n);
    ElectVotes(cfg, c, h, n);
    ElectVoteAcks(cfg, c, h, n);
    ElectElections(cfg, c, h, n);
    ElectNet(cfg, c, h, n);
  }
}
