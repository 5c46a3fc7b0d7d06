/**
 The inductive invariant of the cluster.

 `History` holds what a run has decided so far and is never read by the
 protocol: the growing log of each term's leader, every vote with the voter's
 log at that moment, and how far each follower has acknowledged each term's
 leader.
 */
module ClusterInvariant {
  import opened RaftTypes
  import opened RaftNode
  import opened Cluster

  /** The leader of one term, its log so far, and the votes that elected it. */
  datatype Ballot = Ballot(leader: NodeId, quorum: set<NodeId>, log: seq<Entry>)

  datatype Vote = Vote(candidate: NodeId, log: seq<Entry>)

  datatype History = History(
    ballots: map<nat, Ballot>,
    votes: map<(NodeId, nat), Vote>,
    acked: map<(NodeId, nat), nat>)

  /** Follower f has confirmed holding the first m entries of term t's leader. */
  predicate Acked(h: History, f: NodeId, t: nat, m: nat)
  {
    (f, t) in h.acked && m <= h.acked[(f, t)]
  }

  /** Every prefix of the log is a prefix of the leader log of its last entry's term. */
  ghost predicate Sound(h: History, log: seq<Entry>)
  {
    forall i :: 0 <= i < |log| ==> log[i].term in h.ballots && Agree(log, h.ballots[log[i].term].log, i + 1)
  }

  ghost predicate TermsAtMost(log: seq<Entry>, t: int)
  {
    forall i :: 0 <= i < |log| ==> 1 <= log[i].term <= t
  }

  ghost predicate Monotone(log: seq<Entry>)
  {
    forall i, j :: 0 <= i <= j < |log| ==> log[i].term <= log[j].term
  }

  /** No leader elected after t, up to term hi, dropped any of term t's first m entries. */
  ghost predicate Unbroken(h: History, t: nat, m: nat, hi: int)
    requires t in h.ballots
  {
    forall u :: u in h.ballots && t < u <= hi ==> Agree(h.ballots[t].log, h.ballots[u].log, m)
  }

  // ------------------------------------------------------------ the clauses

  ghost predicate BallotOK(cfg: Config, c: Cluster, h: History, t: nat)
    requires t in h.ballots
  {
    var b := h.ballots[t];
    && t >= 1
    && Sound(h, b.log) && TermsAtMost(b.log, t) && Monotone(b.log) && Contiguous(b.log)
    && b.leader in c.nodes && t <= c.nodes[b.leader].term
    && IsQuorum(cfg, b.quorum) && b.quorum <= cfg.voters
    && forall v :: v in b.quorum ==> (v, t) in h.votes && h.votes[(v, t)].candidate == b.leader
  }

  ghost predicate BallotsOK(cfg: Config, c: Cluster, h: History)
  {
    forall t :: t in h.ballots ==> BallotOK(cfg, c, h, t)
  }

  ghost predicate LogOK(h: History, s: Node)
  {
    Sound(h, s.log) && TermsAtMost(s.log, s.term) && Contiguous(s.log)
  }

  /** Match indices count only for entries of the leader's own term. */
  ghost predicate MatchesOK(h: History, s: Node)
  {
    forall p, m :: p in s.progress && 1 <= m <= s.progress[p].matched && m <= |s.log| && s.log[m - 1].term == s.term ==>
      Acked(h, p, s.term, m)
  }

  ghost predicate LeaderOK(h: History, n: NodeId, s: Node)
  {
    s.role == Leader ==>
      && s.term in h.ballots && h.ballots[s.term].leader == n && h.ballots[s.term].log == s.log
      && MatchesOK(h, s)
  }

  ghost predicate CandidateOK(cfg: Config, h: History, n: NodeId, s: Node)
  {
    && (s.role != Follower ==> n in cfg.voters)
    && (s.campaign == 0 || (s.role == PreCandidate && s.campaign == s.term + 1))
    && (s.votedFor != 0 ==> (n, s.term) in h.votes && h.votes[(n, s.term)].candidate == s.votedFor)
    && (s.role == Candidate ==>
          && s.term >= 1 && s.votedFor == n && s.votes <= cfg.voters
          && (forall v :: v in s.votes ==> (v, s.term) in h.votes && h.votes[(v, s.term)].candidate == n)
          && !(s.term in h.ballots && h.ballots[s.term].leader == n))
  }

  ghost predicate NodesOK(cfg: Config, c: Cluster, h: History)
  {
    forall n :: n in c.nodes ==>
      LogOK(h, c.nodes[n]) && LeaderOK(h, n, c.nodes[n]) && CandidateOK(cfg, h, n, c.nodes[n])
  }

  /** k = (voter, term). */
  ghost predicate VoteOK(c: Cluster, h: History, k: (NodeId, nat))
    requires k in h.votes
  {
    var v := h.votes[k];
    && k.0 in c.nodes && k.1 >= 1 && k.1 <= c.nodes[k.0].term
    && v.candidate in c.nodes && v.candidate != 0 && k.1 <= c.nodes[v.candidate].term
    && (k.1 == c.nodes[k.0].term ==> c.nodes[k.0].votedFor == v.candidate)
    && Sound(h, v.log) && TermsAtMost(v.log, k.1)
    && (c.nodes[v.candidate].term == k.1 && c.nodes[v.candidate].role == Candidate ==>
          UpToDate(|c.nodes[v.candidate].log|, LastTerm(c.nodes[v.candidate].log), v.log))
  }

  ghost predicate VotesOK(c: Cluster, h: History)
  {
    forall k :: k in h.votes ==> VoteOK(c, h, k)
  }

  /** k = (follower, term): what was acknowledged is still held, unless a later leader dropped it. */
  ghost predicate AckOK(c: Cluster, h: History, k: (NodeId, nat))
    requires k in h.acked
  {
    && k.0 in c.nodes && k.1 in h.ballots && k.1 <= c.nodes[k.0].term && h.acked[k] <= |h.ballots[k.1].log|
    && forall m :: 0 <= m <= h.acked[k] && Unbroken(h, k.1, m, c.nodes[k.0].term) ==>
         Agree(h.ballots[k.1].log, c.nodes[k.0].log, m)
  }

  ghost predicate AcksOK(c: Cluster, h: History)
  {
    forall k :: k in h.acked ==> AckOK(c, h, k)
  }

  /** A voter's log at its vote held everything it had acknowledged in earlier terms. */
  ghost predicate VoteHeldAcks(h: History, v: NodeId, t: nat, u: nat)
    requires (v, t) in h.votes && (v, u) in h.acked && u in h.ballots
  {
    forall m :: 0 <= m <= h.acked[(v, u)] && Unbroken(h, u, m, t - 1) ==>
      Agree(h.ballots[u].log, h.votes[(v, t)].log, m)
  }

  ghost predicate VoteAcksOK(h: History)
  {
    forall v, t, u :: (v, t) in h.votes && t !in h.ballots && (v, u) in h.acked && u < t ==>
      u in h.ballots && VoteHeldAcks(h, v, t, u)
  }

  /** A leader holds every entry of an earlier term that one of its voters had acknowledged. */
  ghost predicate ElectionHeldAcks(h: History, t: nat, v: NodeId, u: nat)
    requires t in h.ballots && (v, u) in h.acked && u in h.ballots
  {
    forall m :: 1 <= m <= h.acked[(v, u)] && m <= |h.ballots[u].log| && h.ballots[u].log[m - 1].term == u &&
                Unbroken(h, u, m, t - 1) ==>
      Agree(h.ballots[u].log, h.ballots[t].log, m)
  }

  ghost predicate ElectionsOK(h: History)
  {
    forall t, v, u :: t in h.ballots && v in h.ballots[t].quorum && (v, u) in h.acked && u < t ==>
      u in h.ballots && ElectionHeldAcks(h, t, v, u)
  }

  /** Entries below i belong to terms before t in every later ballot of the same leader. */
  ghost predicate BelowLaterBallots(h: History, n: NodeId, t: nat, i: nat)
  {
    forall u :: u in h.ballots && u > t && h.ballots[u].leader == n ==>
      i <= |h.ballots[u].log| && TermsAtMost(h.ballots[u].log[..i], u - 1)
  }

  ghost predicate MsgOK(c: Cluster, h: History, m: Message)
  {
    match m
    case PreVoteReq(_, _, _, campaign, _, _) => campaign >= 1
    case PreVoteResp(_, _, _, campaign, _) => campaign >= 1
    case VoteReq(from, _, term, lastIndex, lastTerm) =>
      && from in c.nodes && 1 <= term <= c.nodes[from].term && from != 0
      && (c.nodes[from].term == term && c.nodes[from].role == Candidate ==>
            lastIndex == |c.nodes[from].log| && lastTerm == LastTerm(c.nodes[from].log))
    case VoteResp(from, to, term, granted) =>
      granted ==> (from, term) in h.votes && h.votes[(from, term)].candidate == to
    case AppendReq(from, _, term, prev, prevTerm, entries, _) =>
      && term in h.ballots && prev + |entries| <= |h.ballots[term].log|
      && prevTerm == TermAt(h.ballots[term].log, prev)
      && entries == h.ballots[term].log[prev..prev + |entries|]
    case AppendResp(from, _, term, _, granted, matched, _, _) => granted ==> Acked(h, from, term, matched)
    case SnapshotMsg(from, _, term, prefix) =>
      && term in h.ballots && h.ballots[term].leader == from && from in c.nodes
      && |prefix| <= |h.ballots[term].log| && prefix == h.ballots[term].log[..|prefix|]
      && |prefix| <= c.nodes[from].base && BelowLaterBallots(h, from, term, |prefix|)
    case SnapshotAck(from, to, term, index) =>
      && term in h.ballots && h.ballots[term].leader == to && to in c.nodes
      && Acked(h, from, term, index) && index <= c.nodes[to].base && BelowLaterBallots(h, to, term, index)
    case _ => true
  }

  ghost predicate NetOK(c: Cluster, h: History)
  {
    forall m :: m in c.net ==> MsgOK(c, h, m)
  }

  ghost predicate Inv(cfg: Config, c: Cluster, h: History)
  {
    && ClusterOK(cfg, c)
    && BallotsOK(cfg, c, h) && NodesOK(cfg, c, h) && VotesOK(c, h) && NetOK(c, h)
    && AcksOK(c, h) && VoteAcksOK(h) && ElectionsOK(h)
  }

  const NOTHING := History(map[], map[], map[])

  lemma InitialInvariant(cfg: Config, c: Cluster)
    requires ValidConfig(cfg) && Init(cfg, c)
    ensures Inv(cfg, c, NOTHING)
  {
  }
}
