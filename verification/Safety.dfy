/**
 Safety over whole runs: every sequence of calls, losses, duplications,
 reorderings, compactions and restarts, for any number of members, terms and
 entries.  Statements compare nodes at two arbitrary points of a run.
 */
module Safety {
  import opened RaftTypes
  import opened RaftNode
  import opened Cluster
  import opened ClusterInvariant
  import opened ClusterGrowth
  import opened ClusterCalls
  import opened ClusterReceive
  import opened ClusterProgress

  predicate Step(cfg: Config, c: Cluster, e: Event, c': Cluster)
  {
    ClusterOK(cfg, c) && Enabled(cfg, c, e) && c' == Next(cfg, c, e)
  }

  /** A run: consecutive states joined by enabled events. */
  ghost predicate IsRun(cfg: Config, cs: seq<Cluster>, es: seq<Event>)
  {
    && ValidConfig(cfg) && |cs| == |es| + 1 && Init(cfg, cs[0])
    && forall i :: 0 <= i < |es| ==> Step(cfg, cs[i], es[i], cs[i + 1])
  }

  lemma StepAt(cfg: Config, cs: seq<Cluster>, es: seq<Event>, i: nat)
    requires IsRun(cfg, cs, es) && i + 1 < |cs|
    ensures ValidConfig(cfg) && i < |es| && Step(cfg, cs[i], es[i], cs[i + 1])
  {
  }

  /** Any enabled events extend a run: no call is ever undefined. */
  lemma RunsExtend(cfg: Config, cs: seq<Cluster>, es: seq<Event>, e: Event)
    requires IsRun(cfg, cs, es) && Enabled(cfg, cs[|es|], e)
    ensures ClusterOK(cfg, cs[|es|])
    ensures IsRun(cfg, cs + [Next(cfg, cs[|es|], e)], es + [e])
  {
    hide Inv, Extends, Next, Init, ValidConfig, ClusterOK;
    var hs := Histories(cfg, cs, es);
    InvCluster(cfg, cs[|es|], hs[|es|]);
    var cs' := cs + [Next(cfg, cs[|es|], e)];
    var es' := es + [e];
    forall i | 0 <= i < |es'| ensures Step(cfg, cs'[i], es'[i], cs'[i + 1]) {
      if i < |es| { assert Step(cfg, cs[i], es[i], cs[i + 1]); }
    }
  }

  ghost predicate Recorded(cfg: Config, cs: seq<Cluster>, hs: seq<History>)
  {
    && |hs| == |cs|
    && (forall i :: 0 <= i < |cs| ==> Inv(cfg, cs[i], hs[i]))
    && forall i, j :: 0 <= i <= j < |cs| ==> Extends(hs[i], hs[j])
  }

  /** Every run has histories that satisfy the invariant and only grow. */
  lemma {:induction false} Histories(cfg: Config, cs: seq<Cluster>, es: seq<Event>) returns (hs: seq<History>)
    requires IsRun(cfg, cs, es)
    ensures Recorded(cfg, cs, hs)
    decreases |es|
  {
    hide Inv, Extends, Next, Init, ValidConfig, ClusterOK;
    var k := |es|;
    if k == 0 {
      InitialInvariant(cfg, cs[0]);
      ExtendsItself(NOTHING);
      hs := [NOTHING];
    } else {
      var cs0, es0 := cs[..k], es[..k - 1];
      forall i | 0 <= i < |es0| ensures Step(cfg, cs0[i], es0[i], cs0[i + 1]) {
        assert Step(cfg, cs[i], es[i], cs[i + 1]);
      }
      var hs0 := Histories(cfg, cs0, es0);
      assert Step(cfg, cs[k - 1], es[k - 1], cs[k - 1 + 1]);
      var h' := NextInv(cfg, cs[k - 1], hs0[k - 1], es[k - 1]);
      hs := hs0 + [h'];
      forall i, j | 0 <= i <= j < |cs| ensures Extends(hs[i], hs[j]) {
        if j < k { assert Extends(hs0[i], hs0[j]); }
        else if i == k { ExtendsItself(h'); }
        else { ExtendsChain(hs0[i], hs0[k - 1], h'); }
      }
    }
  }

  /** Two points of a run seen from the later one. */
  lemma Meet(cfg: Config, cs: seq<Cluster>, es: seq<Event>, i: nat, j: nat)
    returns (hi: History, hj: History, h: History, k: nat)
    requires IsRun(cfg, cs, es) && i < |cs| && j < |cs|
    ensures k < |cs| && k == Max(i, j)
    ensures Inv(cfg, cs[i], hi) && Inv(cfg, cs[j], hj) && Inv(cfg, cs[k], h) && Extends(hi, h) && Extends(hj, h)
    ensures (i <= j ==> Extends(hi, hj)) && (j <= i ==> Extends(hj, hi))
  {
    hide Inv, Extends, IsRun;
    var hs := Histories(cfg, cs, es);
    k := Max(i, j);
    hi, hj, h := hs[i], hs[j], hs[k];
  }

  // ------------------------------------------------------------- elections

  lemma LeaderBallot(cfg: Config, c: Cluster, h: History, n: NodeId, h': History)
    requires Inv(cfg, c, h) && Extends(h, h') && n in c.nodes && c.nodes[n].role == Leader
    ensures var s := c.nodes[n];
      && s.term in h'.ballots && h'.ballots[s.term].leader == n && Agree(s.log, h'.ballots[s.term].log, |s.log|)
      && s.term in h.ballots && h.ballots[s.term].log == s.log
  {
    hide Inv;
    InvNode(cfg, c, h, n);
    var t := c.nodes[n].term;
    assert GrownBallot(t, h.ballots[t], h'.ballots[t]);
  }

  /** Election Safety: no term ever has two leaders. */
  lemma ElectionSafety(cfg: Config, cs: seq<Cluster>, es: seq<Event>, i: nat, j: nat, a: NodeId, b: NodeId)
    requires IsRun(cfg, cs, es) && i < |cs| && j < |cs| && a in cs[i].nodes && b in cs[j].nodes
    requires cs[i].nodes[a].role == Leader && cs[j].nodes[b].role == Leader
    requires cs[i].nodes[a].term == cs[j].nodes[b].term
    ensures a == b
  {
    hide Inv, Extends, IsRun;
    var hi, hj, h, k := Meet(cfg, cs, es, i, j);
    LeaderBallot(cfg, cs[i], hi, a, h);
    LeaderBallot(cfg, cs[j], hj, b, h);
  }

  /** A leader only ever appends to its log while it leads one term. */
  lemma LeaderAppendOnly(cfg: Config, cs: seq<Cluster>, es: seq<Event>, i: nat, j: nat, a: NodeId)
    requires IsRun(cfg, cs, es) && i <= j < |cs| && a in cs[i].nodes && a in cs[j].nodes
    requires cs[i].nodes[a].role == Leader && cs[j].nodes[a].role == Leader
    requires cs[i].nodes[a].term == cs[j].nodes[a].term
    ensures cs[i].nodes[a].log <= cs[j].nodes[a].log
  {
    hide Inv, Extends, IsRun;
    var hi, hj, h, k := Meet(cfg, cs, es, i, j);
    LeaderBallot(cfg, cs[i], hi, a, h);
    LeaderBallot(cfg, cs[j], hj, a, h);
    LeaderBallot(cfg, cs[i], hi, a, hj);
  }

  lemma VoteRecorded(cfg: Config, c: Cluster, h: History, n: NodeId)
    requires Inv(cfg, c, h) && n in c.nodes && c.nodes[n].votedFor != 0
    ensures var k := (n, c.nodes[n].term); k in h.votes && h.votes[k].candidate == c.nodes[n].votedFor
  {
    hide Inv;
    InvNode(cfg, c, h, n);
  }

  lemma VoteStands(cfg: Config, c: Cluster, h: History, n: NodeId, t: nat)
    requires Inv(cfg, c, h) && n in c.nodes && (n, t) in h.votes
    ensures t <= c.nodes[n].term && (t == c.nodes[n].term ==> c.nodes[n].votedFor == h.votes[(n, t)].candidate)
  {
    assert VoteOK(c, h, (n, t));
  }

  /** A node's vote within a term never changes once cast, across elections and restarts. */
  lemma VoteStability(cfg: Config, cs: seq<Cluster>, es: seq<Event>, i: nat, j: nat, a: NodeId)
    requires IsRun(cfg, cs, es) && i <= j < |cs| && a in cs[i].nodes && a in cs[j].nodes
    requires cs[i].nodes[a].votedFor != 0 && cs[i].nodes[a].term == cs[j].nodes[a].term
    ensures cs[j].nodes[a].votedFor == cs[i].nodes[a].votedFor
  {
    hide Inv, IsRun;
    var hi, hj, h, k := Meet(cfg, cs, es, i, j);
    VoteRecorded(cfg, cs[i], hi, a);
    VoteStands(cfg, cs[j], hj, a, cs[i].nodes[a].term);
  }

  // --------------------------------------------------------------- the log

  /**
   Log Matching: logs of two nodes, at any two points of the run, that hold an
   entry with the same index and term agree on everything up to it.
   */
  lemma LogMatching(cfg: Config, cs: seq<Cluster>, es: seq<Event>, i: nat, j: nat, a: NodeId, b: NodeId, k: nat)
    requires IsRun(cfg, cs, es) && i < |cs| && j < |cs| && a in cs[i].nodes && b in cs[j].nodes
    requires 1 <= k <= |cs[i].nodes[a].log| && k <= |cs[j].nodes[b].log|
    requires cs[i].nodes[a].log[k - 1].term == cs[j].nodes[b].log[k - 1].term
    ensures cs[i].nodes[a].log[..k] == cs[j].nodes[b].log[..k]
  {
    hide Inv, Extends, IsRun;
    var hi, hj, h, m := Meet(cfg, cs, es, i, j);
    InvNode(cfg, cs[i], hi, a);
    InvNode(cfg, cs[j], hj, b);
    SoundExtends(hi, h, cs[i].nodes[a].log);
    SoundExtends(hj, h, cs[j].nodes[b].log);
    SameTermAgrees(h, cs[i].nodes[a].log, cs[j].nodes[b].log, k);
  }

  /**
   An entry in flight and a log entry with the same index and term are the same
   entry, so the content check of a reconcile never fires between honest nodes.
   */
  lemma NoContentConflict(cfg: Config, cs: seq<Cluster>, es: seq<Event>, i: nat, n: NodeId, m: Message, k: nat)
    requires IsRun(cfg, cs, es) && i < |cs| && n in cs[i].nodes && m in cs[i].net && m.AppendReq?
    requires k < |m.entries| && m.prev + k < |cs[i].nodes[n].log|
    requires cs[i].nodes[n].log[m.prev + k].term == m.entries[k].term
    ensures cs[i].nodes[n].log[m.prev + k] == m.entries[k]
  {
    hide Inv, IsRun, Extends;
    var hs := Histories(cfg, cs, es);
    var c, h := cs[i], hs[i];
    InvNode(cfg, c, h, n);
    InvMsg(cfg, c, h, m);
    InvBallot(cfg, c, h, m.term);
    SameTermAgrees(h, c.nodes[n].log, h.ballots[m.term].log, m.prev + k + 1);
  }

  // ----------------------------------------------------- leader completeness

  /** Voters that have confirmed the first m entries of term t's leader. */
  ghost function AckSet(cfg: Config, h: History, t: nat, m: nat): (s: set<NodeId>)
  {
    set v | v in cfg.voters && Acked(h, v, t, m)
  }

  /** Entry m of term t's leader, itself of term t, is held by a majority. */
  ghost predicate Chosen(cfg: Config, h: History, t: nat, m: nat)
  {
    && t in h.ballots && 1 <= m <= |h.ballots[t].log| && h.ballots[t].log[m - 1].term == t
    && IsQuorum(cfg, AckSet(cfg, h, t, m))
  }

  /** Every later ballot holds a chosen prefix: strong induction on the later term. */
  lemma {:induction false} ChosenSurvives(cfg: Config, c: Cluster, h: History, t: nat, m: nat, u: nat)
    requires Inv(cfg, c, h) && Chosen(cfg, h, t, m) && u in h.ballots && u > t
    ensures Agree(h.ballots[t].log, h.ballots[u].log, m)
    decreases u
  {
    hide Inv, IsQuorum;
    forall w | w in h.ballots && t < w <= u - 1 ensures Agree(h.ballots[t].log, h.ballots[w].log, m) {
      ChosenSurvives(cfg, c, h, t, m, w);
    }
    InvBallot(cfg, c, h, u);
    var v := QuorumsMeet(cfg, AckSet(cfg, h, t, m), h.ballots[u].quorum);
    InvElection(cfg, c, h, u, v, t);
    assert Unbroken(h, t, m, u - 1);
  }

  lemma InvElection(cfg: Config, c: Cluster, h: History, t: nat, v: NodeId, u: nat)
    requires Inv(cfg, c, h) && t in h.ballots && v in h.ballots[t].quorum && (v, u) in h.acked && u < t
    ensures u in h.ballots && ElectionHeldAcks(h, t, v, u)
  {
  }

  lemma AckSetGrows(cfg: Config, h: History, h': History, t: nat, m: nat)
    requires Extends(h, h') && Chosen(cfg, h, t, m)
    ensures Chosen(cfg, h', t, m) && Agree(h.ballots[t].log, h'.ballots[t].log, |h.ballots[t].log|)
  {
    assert GrownBallot(t, h.ballots[t], h'.ballots[t]);
    var a, b := AckSet(cfg, h, t, m), AckSet(cfg, h', t, m);
    assert a <= b;
    SubsetSize(a * cfg.voters, b * cfg.voters);
  }

  /** What the leader's commit rule demands of an index. */
  predicate CommitRule(cfg: Config, s: Node, m: nat)
  {
    && s.role == Leader && 1 <= m <= |s.log| && s.log[m - 1].term == s.term
    && IsQuorum(cfg, MatchedVoters(cfg, s, m))
  }

  lemma CommitRuleChooses(cfg: Config, c: Cluster, h: History, n: NodeId, m: nat)
    requires Inv(cfg, c, h) && n in c.nodes && CommitRule(cfg, c.nodes[n], m)
    ensures Chosen(cfg, h, c.nodes[n].term, m) && h.ballots[c.nodes[n].term].log == c.nodes[n].log
  {
    hide Inv;
    var s := c.nodes[n];
    InvNode(cfg, c, h, n);
    var a, b := MatchedVoters(cfg, s, m), AckSet(cfg, h, s.term, m);
    assert a <= b;
    SubsetSize(a * cfg.voters, b * cfg.voters);
  }

  /**
   Leader Completeness: an index that satisfies the commit rule at some leader
   of term T is held, with all entries before it, by every node that leads a
   later term, at whatever point of the run.
   */
  lemma LeaderCompleteness(cfg: Config, cs: seq<Cluster>, es: seq<Event>, i: nat, j: nat, a: NodeId, b: NodeId, m: nat)
    requires IsRun(cfg, cs, es) && i < |cs| && j < |cs| && a in cs[i].nodes && b in cs[j].nodes
    requires CommitRule(cfg, cs[i].nodes[a], m)
    requires cs[j].nodes[b].role == Leader && cs[j].nodes[b].term > cs[i].nodes[a].term
    ensures m <= |cs[j].nodes[b].log| && cs[j].nodes[b].log[..m] == cs[i].nodes[a].log[..m]
  {
    hide Inv, Extends, IsRun, IsQuorum, MatchedVoters;
    var hi, hj, h, k := Meet(cfg, cs, es, i, j);
    var s, s' := cs[i].nodes[a], cs[j].nodes[b];
    CommitRuleChooses(cfg, cs[i], hi, a, m);
    AckSetGrows(cfg, hi, h, s.term, m);
    LeaderBallot(cfg, cs[j], hj, b, h);
    ChosenSurvives(cfg, cs[k], h, s.term, m, s'.term);
    LongEnough(cfg, cs[j], hj, b, h, s.log, m, s.term);
  }

  /** The later leader already held the entry when it was elected: its own additions are of its own term. */
  lemma LongEnough(cfg: Config, c: Cluster, h: History, n: NodeId, h': History, log: seq<Entry>, m: nat, t: nat)
    requires Inv(cfg, c, h) && Extends(h, h') && n in c.nodes && c.nodes[n].role == Leader && t < c.nodes[n].term
    requires c.nodes[n].term in h'.ballots && Agree(log, h'.ballots[c.nodes[n].term].log, m)
    requires 1 <= m && log[m - 1].term == t
    ensures Agree(log, c.nodes[n].log, m)
  {
    hide Inv;
    LeaderBallot(cfg, c, h, n, h');
    var u := c.nodes[n].term;
    assert GrownBallot(u, h.ballots[u], h'.ballots[u]);
  }
}
