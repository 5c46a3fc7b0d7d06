/** State Machine Safety, and exactly when a follower's commit step is the one the Raft paper prescribes. */
module Agreement {
  import opened RaftTypes
  import opened RaftNode
  import opened Cluster
  import opened ClusterInvariant
  import opened ClusterGrowth
  import opened ClusterCalls
  import opened ClusterReceive
  import opened ClusterAppend
  import opened ClusterProgress
  import opened Safety
  import opened ClusterCommit
  import opened LeaderCommit
  import L = RaftLog

  // --------------------------------------------------- one follower's step

  /** The request got through to the commit step. */
  predicate Accepts(cfg: Config, s: Node, m: Message)
    requires m.AppendReq? && s.base <= |s.log|
  {
    m.term >= s.term &&
    var r := L.Reconcile(s.log, s.base, cfg.maxLog, m.prev, m.prevTerm, m.entries, s.commit);
    r.Keep? || r.Replace?
  }

  /** The log already holds every entry of the request. */
  predicate Holds(log: seq<Entry>, m: Message)
    requires m.AppendReq?
  {
    m.prev + |m.entries| <= |log| && log[m.prev..m.prev + |m.entries|] == m.entries
  }

  /**
   The bound the source leaves out: a log that already holds the request and
   goes on past it must not let the leader's commit index reach past both the
   last entry the request covers and the current commit index.
   */
  predicate Vouched(s: Node, m: Message)
    requires m.AppendReq?
  {
    Holds(s.log, m) ==> Min(m.leaderCommit, |s.log|) <= Max(s.commit, m.prev + |m.entries|)
  }

  /** The commit step is the paper's exactly when the request vouches for what is committed. */
  lemma CommitStepExact(cfg: Config, n: NodeId, s: Node, m: Message)
    requires NodeOK(cfg, n, s) && m.AppendReq? && Accepts(cfg, s, m)
    ensures var s' := HandleAppendReq(cfg, n, s, m).node;
      s'.commit == PaperCommit(s.commit, m.leaderCommit, m.prev + |m.entries|) <==> Vouched(s, m)
  {
    hide L.Reconcile;
    L.ReconcileDropsOnlyConflicts(s.log, s.base, cfg.maxLog, m.prev, m.prevTerm, m.entries, s.commit);
    AcceptedLength(cfg, s, m);
  }

  /** Either the log held the request and stays, or it ends with the request. */
  lemma AcceptedLength(cfg: Config, s: Node, m: Message)
    requires m.AppendReq? && s.base <= |s.log| && Accepts(cfg, s, m)
    ensures var log' := L.LogAfter(s.log,
      L.Reconcile(s.log, s.base, cfg.maxLog, m.prev, m.prevTerm, m.entries, s.commit));
      if Holds(s.log, m) then log' == s.log else |log'| == m.prev + |m.entries|
  {
    var r := L.Reconcile(s.log, s.base, cfg.maxLog, m.prev, m.prevTerm, m.entries, s.commit);
    L.ScanMeaning(s.log, m.prev, m.entries, 0);
    if r.Replace? && m.prev + r.at < |s.log| && m.prev + |m.entries| <= |s.log| {
      assert s.log[m.prev..m.prev + |m.entries|][r.at] == s.log[m.prev + r.at];
    }
  }

  /** Calls other than the two follower ones. */
  lemma AdvanceCommitted(cfg: Config, c: Cluster, h: History, n: NodeId, o: Out, h': History)
    requires n in c.nodes && Committed(cfg, h, c.nodes[n].log, c.nodes[n].commit) && Extends(h, h')
    requires Inv(cfg, Apply(c, n, o), h') && Advances(cfg, c.nodes[n], o)
    ensures Committed(cfg, h', o.node.log, o.node.commit)
  {
    hide Inv, Extends, CommitRule;
    var s := c.nodes[n];
    var c' := Apply(c, n, o);
    assert c'.nodes[n] == o.node;
    if o.node.commit == s.commit {
      CommittedExtends(cfg, h, h', s.log, s.commit);
      CommittedCopy(cfg, h', s.log, s.commit, o.node.log, s.commit);
    } else {
      CommitRuleChooses(cfg, c', h', n, o.node.commit);
      assert Agree(h'.ballots[o.node.term].log, o.node.log, o.node.commit);
    }
  }

  // ---------------------------------------------------- the follower's calls

  lemma AcceptCommitted(cfg: Config, c: Cluster, h: History, n: NodeId, m: Message)
    requires Inv(cfg, c, h) && n in c.nodes && m.AppendReq? && m in c.net && Backed(cfg, h, m.leaderCommit, m.term)
    requires Committed(cfg, h, c.nodes[n].log, c.nodes[n].commit)
    requires c.nodes[n].base <= |c.nodes[n].log| && (Accepts(cfg, c.nodes[n], m) ==> Vouched(c.nodes[n], m))
    ensures var s' := HandleAppendReq(cfg, n, c.nodes[n], m).node; Committed(cfg, h, s'.log, s'.commit)
  {
    hide Inv, Committed, Backed, L.Reconcile, Vouched, TakesPrefix;
    var s := c.nodes[n];
    InvNode(cfg, c, h, n);
    InvMsg(cfg, c, h, m);
    BallotHolds(cfg, c, h, m.term, m.leaderCommit);
    L.ReconcileDropsOnlyConflicts(s.log, s.base, cfg.maxLog, m.prev, m.prevTerm, m.entries, s.commit);
    var s' := HandleAppendReq(cfg, n, s, m).node;
    assert Agree(s.log, s'.log, s.commit) by { KeptPrefix(s.log, s'.log, s.commit); }
    if Accepts(cfg, s, m) {
      CommitStepExact(cfg, n, s, m);
      InvTakes(cfg, c, h, n, m);
      var g, k := h.ballots[m.term].log, m.prev + |m.entries|;
      TakenAgrees(s.log, s'.log, g, k);
      if s'.commit == s.commit {
        CommittedCopy(cfg, h, s.log, s.commit, s'.log, s.commit);
      } else {
        CommittedCopy(cfg, h, g, m.leaderCommit, s'.log, Min(m.leaderCommit, k));
      }
    } else {
      CommittedCopy(cfg, h, s.log, s.commit, s'.log, s.commit);
    }
  }

  lemma TakenAgrees(log: seq<Entry>, log': seq<Entry>, g: seq<Entry>, m: nat)
    requires TakesPrefix(log, log', g, m)
    ensures Agree(log', g, m)
  {
  }

  lemma InstallCommitted(cfg: Config, c: Cluster, h: History, n: NodeId, m: Message)
    requires n in c.nodes && m.SnapshotMsg? && Committed(cfg, h, m.prefix, |m.prefix|)
    requires Committed(cfg, h, c.nodes[n].log, c.nodes[n].commit)
    ensures var s' := InstallSnapshot(cfg, n, c.nodes[n], m).node; Committed(cfg, h, s'.log, s'.commit)
  {
    hide Committed;
    var s := c.nodes[n];
    if m.term >= s.term && |m.prefix| > s.base && |m.prefix| >= s.commit {
      var s' := InstallSnapshot(cfg, n, s, m).node;
      assert Agree(m.prefix, s'.log, |m.prefix|);
      CommittedCopy(cfg, h, m.prefix, |m.prefix|, s'.log, |m.prefix|);
    }
  }

  // --------------------------------------------------------------- every event

  /** The event is not an accepted request that commits beyond what it vouches for. */
  predicate VouchedEvent(cfg: Config, c: Cluster, e: Event)
  {
    e.Deliver? && e.m.AppendReq? && e.n in c.nodes && c.nodes[e.n].base <= |c.nodes[e.n].log| &&
    Deliverable(cfg, e.n, e.m) && Accepts(cfg, c.nodes[e.n], e.m) ==>
      Vouched(c.nodes[e.n], e.m)
  }

  lemma FollowerCommitted(cfg: Config, c: Cluster, h: History, e: Event)
    requires Inv(cfg, c, h) && NetBacked(cfg, c, h) && Enabled(cfg, c, e) && FollowerCommits(e)
    requires VouchedEvent(cfg, c, e)
    requires Committed(cfg, h, c.nodes[e.n].log, c.nodes[e.n].commit)
    ensures NodeOK(cfg, e.n, c.nodes[e.n])
    ensures var s' := Fire(cfg, c.nodes[e.n], e).node; Committed(cfg, h, s'.log, s'.commit)
  {
    hide Inv, Committed, Backed, HandleAppendReq, InstallSnapshot, Accepts, Vouched, LogOK, LeaderOK, CandidateOK;
    InvNode(cfg, c, h, e.n);
    assert MsgBacked(cfg, c, h, e.m);
    if Deliverable(cfg, e.n, e.m) {
      if e.m.AppendReq? { AcceptCommitted(cfg, c, h, e.n, e.m); } else { InstallCommitted(cfg, c, h, e.n, e.m); }
    }
  }

  /** A node whose own call is vouched keeps its committed prefix right. */
  lemma StepCommitted(cfg: Config, c: Cluster, h: History, e: Event, h': History, n: NodeId)
    requires ValidConfig(cfg) && Inv(cfg, c, h) && NetBacked(cfg, c, h) && Enabled(cfg, c, e) && n in c.nodes
    requires ClusterOK(cfg, c) && Inv(cfg, Next(cfg, c, e), h') && Extends(h, h')
    requires Committed(cfg, h, c.nodes[n].log, c.nodes[n].commit) && (e.n == n ==> VouchedEvent(cfg, c, e))
    ensures n in Next(cfg, c, e).nodes
    ensures var s' := Next(cfg, c, e).nodes[n]; Committed(cfg, h', s'.log, s'.commit)
  {
    hide Inv, ValidConfig, Extends, Fire, Committed, FollowerCommits, NetBacked, VouchedEvent, Advances, NodeOK;
    if e.n != n {
      CommittedExtends(cfg, h, h', c.nodes[n].log, c.nodes[n].commit);
    } else {
      var o := Fire(cfg, c.nodes[n], e);
      if FollowerCommits(e) {
        FollowerCommitted(cfg, c, h, e);
        CommittedExtends(cfg, h, h', o.node.log, o.node.commit);
      } else {
        FireAdvances(cfg, c, h, e);
        AdvanceCommitted(cfg, c, h, n, o, h');
      }
    }
  }

  // ------------------------------------------------------------ over whole runs

  lemma FollowerGrows(cfg: Config, s: Node, e: Event)
    requires NodeOK(cfg, e.n, s) && FollowerCommits(e)
    ensures var s' := Fire(cfg, s, e).node; s.term <= s'.term && s.commit <= s'.commit
  {
    if e.m.AppendReq? {
      var m := e.m;
      hide L.Reconcile;
      L.ReconcileDropsOnlyConflicts(s.log, s.base, cfg.maxLog, m.prev, m.prevTerm, m.entries, s.commit);
    }
  }

  lemma FireGrows(cfg: Config, c: Cluster, h: History, e: Event)
    requires ValidConfig(cfg) && Inv(cfg, c, h) && Enabled(cfg, c, e)
    ensures NodeOK(cfg, e.n, c.nodes[e.n])
    ensures var s, s' := c.nodes[e.n], Fire(cfg, c.nodes[e.n], e).node; s.term <= s'.term && s.commit <= s'.commit
  {
    hide Inv, ValidConfig, Fire, FollowerCommits, NodeOK, FromLeader, CommitRule, LogOK, LeaderOK, CandidateOK;
    InvNode(cfg, c, h, e.n);
    if FollowerCommits(e) { FollowerGrows(cfg, c.nodes[e.n], e); } else { FireAdvances(cfg, c, h, e); }
  }

  lemma StepGrows(cfg: Config, c: Cluster, h: History, e: Event, n: NodeId)
    requires ValidConfig(cfg) && Inv(cfg, c, h) && Enabled(cfg, c, e) && n in c.nodes
    ensures ClusterOK(cfg, c) && n in Next(cfg, c, e).nodes
    ensures var s, s' := c.nodes[n], Next(cfg, c, e).nodes[n]; s.term <= s'.term && s.commit <= s'.commit
  {
    hide Inv, ValidConfig, Fire, NodeOK;
    InvCluster(cfg, c, h);
    FireGrows(cfg, c, h, e);
  }

  /** Terms and commit indices never decrease, through elections, snapshots and restarts. */
  lemma {:induction false} NeverBack(cfg: Config, cs: seq<Cluster>, es: seq<Event>, i: nat, j: nat, n: NodeId)
    requires IsRun(cfg, cs, es) && i <= j < |cs| && n in cs[i].nodes
    ensures n in cs[j].nodes && cs[i].nodes[n].term <= cs[j].nodes[n].term
    ensures cs[i].nodes[n].commit <= cs[j].nodes[n].commit
    decreases j
  {
    hide Inv, Extends, IsRun, Next, ValidConfig, ClusterOK, Enabled;
    if i < j {
      NeverBack(cfg, cs, es, i, j - 1, n);
      var hs := Histories(cfg, cs, es);
      StepAt(cfg, cs, es, j - 1);
      StepGrows(cfg, cs[j - 1], hs[j - 1], es[j - 1], n);
    }
  }

  /** Node n met the condition in every call before point i of the run. */
  ghost predicate VouchedFor(cfg: Config, cs: seq<Cluster>, es: seq<Event>, n: NodeId, i: nat)
    requires |cs| == |es| + 1 && i < |cs|
  {
    forall k :: 0 <= k < i && es[k].n == n ==> VouchedEvent(cfg, cs[k], es[k])
  }

  lemma {:induction false} VouchedCommits(cfg: Config, cs: seq<Cluster>, es: seq<Event>, hs: seq<History>, n: NodeId,
                                          i: nat)
    requires IsRun(cfg, cs, es) && RecordedBacking(cfg, cs, hs) && i < |cs| && n in cs[i].nodes
    requires VouchedFor(cfg, cs, es, n, i)
    ensures Committed(cfg, hs[i], cs[i].nodes[n].log, cs[i].nodes[n].commit)
    decreases i
  {
    hide Inv, Extends, Next, Init, ValidConfig, ClusterOK, NodesBacked, NetBacked, VouchedEvent, Committed;
    if i == 0 {
      InitialCommit(cfg, cs[0], hs[0], n);
    } else {
      StepAt(cfg, cs, es, i - 1);
      InvCluster(cfg, cs[i - 1], hs[i - 1]);
      StaysMember(cfg, cs[i - 1], es[i - 1], n);
      VouchedCommits(cfg, cs, es, hs, n, i - 1);
      StepCommitted(cfg, cs[i - 1], hs[i - 1], es[i - 1], hs[i], n);
    }
  }

  lemma InitialCommit(cfg: Config, c: Cluster, h: History, n: NodeId)
    requires Init(cfg, c) && n in c.nodes
    ensures Committed(cfg, h, c.nodes[n].log, c.nodes[n].commit)
  {
  }

  lemma StaysMember(cfg: Config, c: Cluster, e: Event, n: NodeId)
    requires ClusterOK(cfg, c) && Enabled(cfg, c, e) && n in Next(cfg, c, e).nodes
    ensures n in c.nodes
  {
    hide Fire;
  }

  /**
   State Machine Safety: whatever two nodes have committed at any two points,
   they committed the same entries at the same indices, provided each of the
   two met the condition in its own calls up to then.  What the other nodes
   did does not matter.
   */
  lemma StateMachineSafety(cfg: Config, cs: seq<Cluster>, es: seq<Event>, i: nat, j: nat, a: NodeId, b: NodeId, k: nat)
    requires IsRun(cfg, cs, es) && i < |cs| && j < |cs| && a in cs[i].nodes && b in cs[j].nodes
    requires VouchedFor(cfg, cs, es, a, i) && VouchedFor(cfg, cs, es, b, j)
    requires k <= cs[i].nodes[a].commit && k <= cs[j].nodes[b].commit
    ensures k <= |cs[i].nodes[a].log| && k <= |cs[j].nodes[b].log|
    ensures cs[i].nodes[a].log[..k] == cs[j].nodes[b].log[..k]
  {
    hide Inv, Extends, Committed, IsRun, VouchedFor, NodesBacked, NetBacked;
    var hs := BackedHistories(cfg, cs, es);
    VouchedCommits(cfg, cs, es, hs, a, i);
    VouchedCommits(cfg, cs, es, hs, b, j);
    SamePrefix(cfg, cs, hs, i, j, cs[i].nodes[a], cs[j].nodes[b], k);
  }
}
