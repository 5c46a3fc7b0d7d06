/**
 What stays true of commit indices in every run, vouched or not.  A follower
 may commit a wrong entry, but never past what some leader got chosen; a
 leader holds whatever was chosen before its term, so the committed prefix of
 a leader, and every snapshot in flight or installed, is always right.
 */
module LeaderCommit {
  import opened RaftTypes
  import opened RaftNode
  import opened Cluster
  import opened ClusterInvariant
  import opened ClusterGrowth
  import opened ClusterCalls
  import opened ClusterProgress
  import opened Safety
  import opened ClusterCommit
  import L = RaftLog

  // ------------------------------------------------------ committed prefixes

  /** The first k entries are a prefix of what some leader got chosen. */
  ghost predicate Committed(cfg: Config, h: History, log: seq<Entry>, k: nat)
  {
    k <= |log| && (k == 0 || exists t, m :: Chosen(cfg, h, t, m) && k <= m && Agree(h.ballots[t].log, log, k))
  }

  lemma CommittedExtends(cfg: Config, h: History, h': History, log: seq<Entry>, k: nat)
    requires Extends(h, h') && Committed(cfg, h, log, k)
    ensures Committed(cfg, h', log, k)
  {
    if k > 0 {
      var t, m :| Chosen(cfg, h, t, m) && k <= m && Agree(h.ballots[t].log, log, k);
      AckSetGrows(cfg, h, h', t, m);
      assert Agree(h'.ballots[t].log, log, k);
    }
  }

  lemma CommittedCopy(cfg: Config, h: History, log: seq<Entry>, k: nat, log': seq<Entry>, k': nat)
    requires Committed(cfg, h, log, k) && k' <= k && Agree(log, log', k')
    ensures Committed(cfg, h, log', k')
  {
    if k' > 0 {
      var t, m :| Chosen(cfg, h, t, m) && k <= m && Agree(h.ballots[t].log, log, k);
      assert Agree(h.ballots[t].log, log', k');
    }
  }

  /** Two committed prefixes never disagree. */
  lemma CommittedAgree(cfg: Config, c: Cluster, h: History, a: seq<Entry>, b: seq<Entry>, k: nat)
    requires Inv(cfg, c, h) && Committed(cfg, h, a, k) && Committed(cfg, h, b, k)
    ensures Agree(a, b, k)
  {
    hide Inv, IsQuorum, AckSet;
    if k > 0 {
      var t, m :| Chosen(cfg, h, t, m) && k <= m && Agree(h.ballots[t].log, a, k);
      var u, l :| Chosen(cfg, h, u, l) && k <= l && Agree(h.ballots[u].log, b, k);
      if t < u { ChosenSurvives(cfg, c, h, t, m, u); }
      else if u < t { ChosenSurvives(cfg, c, h, u, l, t); }
    }
  }

  lemma CommittedLength(cfg: Config, h: History, log: seq<Entry>, k: nat)
    requires Committed(cfg, h, log, k)
    ensures k <= |log|
  {
  }

  // ------------------------------------------------ how far anyone commits

  /** Some leader of a term up to t got k entries chosen. */
  ghost predicate Backed(cfg: Config, h: History, k: nat, t: nat)
  {
    k == 0 || exists u: nat, m: nat :: u <= t && k <= m && Chosen(cfg, h, u, m)
  }

  lemma BackedExtends(cfg: Config, h: History, h': History, k: nat, t: nat, k': nat, t': nat)
    requires Extends(h, h') && Backed(cfg, h, k, t) && k' <= k && t <= t'
    ensures Backed(cfg, h', k', t')
  {
    hide Extends, Chosen;
    if k > 0 {
      var u: nat, m: nat :| u <= t && k <= m && Chosen(cfg, h, u, m);
      AckSetGrows(cfg, h, h', u, m);
    }
  }

  /** The log of a term's leader holds everything chosen up to that term. */
  lemma BallotHolds(cfg: Config, c: Cluster, h: History, t: nat, k: nat)
    requires Inv(cfg, c, h) && t in h.ballots && Backed(cfg, h, k, t)
    ensures Committed(cfg, h, h.ballots[t].log, k)
  {
    hide Inv, IsQuorum, AckSet;
    if k > 0 {
      var u: nat, m: nat :| u <= t && k <= m && Chosen(cfg, h, u, m);
      if u < t { ChosenSurvives(cfg, c, h, u, m, t); }
      assert Agree(h.ballots[u].log, h.ballots[t].log, k);
    }
  }

  lemma LeaderHolds(cfg: Config, c: Cluster, h: History, n: NodeId, k: nat)
    requires Inv(cfg, c, h) && n in c.nodes && c.nodes[n].role == Leader && Backed(cfg, h, k, c.nodes[n].term)
    ensures Committed(cfg, h, c.nodes[n].log, k)
  {
    hide Inv, Backed, Committed, MatchesOK;
    InvNode(cfg, c, h, n);
    BallotHolds(cfg, c, h, c.nodes[n].term, k);
  }

  ghost predicate MsgBacked(cfg: Config, c: Cluster, h: History, m: Message)
  {
    && (m.AppendReq? ==> Backed(cfg, h, m.leaderCommit, m.term))
    && (m.SnapshotMsg? ==> Backed(cfg, h, |m.prefix|, m.term) && Committed(cfg, h, m.prefix, |m.prefix|))
    && (m.SnapshotAck? ==> m.from in c.nodes ==>
          m.index <= c.nodes[m.from].commit && Committed(cfg, h, c.nodes[m.from].log, m.index))
  }

  ghost predicate NodesBacked(cfg: Config, c: Cluster, h: History)
  {
    forall n :: n in c.nodes ==> Backed(cfg, h, c.nodes[n].commit, c.nodes[n].term)
  }

  ghost predicate NetBacked(cfg: Config, c: Cluster, h: History)
  {
    forall m :: m in c.net ==> MsgBacked(cfg, c, h, m)
  }

  // ----------------------------------------------------------- one call

  /** What a call may do to the node and to the prefixes it reported as installed. */
  ghost predicate KeepsBacked(cfg: Config, h': History, s: Node, s': Node)
  {
    && s.commit <= s'.commit && Backed(cfg, h', s'.commit, s'.term)
    && forall k: nat :: k <= s.commit && Committed(cfg, h', s.log, k) ==> Committed(cfg, h', s'.log, k)
  }

  lemma KeptPrefix(a: seq<Entry>, b: seq<Entry>, k: nat)
    requires k <= |a| && k <= |b| && a[..k] == b[..k]
    ensures Agree(a, b, k)
  {
    forall j | 0 <= j < k ensures a[j] == b[j] { assert a[..k][j] == b[..k][j]; }
  }

  lemma PrefixKept(cfg: Config, h: History, s: Node, s': Node)
    requires s.commit <= |s.log| && Agree(s.log, s'.log, s.commit)
    ensures forall k: nat :: k <= s.commit && Committed(cfg, h, s.log, k) ==> Committed(cfg, h, s'.log, k)
  {
    hide Committed;
    forall k: nat | k <= s.commit && Committed(cfg, h, s.log, k) ensures Committed(cfg, h, s'.log, k) {
      CommittedCopy(cfg, h, s.log, k, s'.log, k);
    }
  }

  /** Calls other than the two follower ones. */
  lemma AdvanceKeeps(cfg: Config, c: Cluster, h: History, n: NodeId, o: Out, h': History)
    requires n in c.nodes && Backed(cfg, h, c.nodes[n].commit, c.nodes[n].term) && Extends(h, h')
    requires Inv(cfg, Apply(c, n, o), h') && Advances(cfg, c.nodes[n], o)
    ensures KeepsBacked(cfg, h', c.nodes[n], o.node)
  {
    hide Inv, Extends, CommitRule, Committed, Backed;
    var s := c.nodes[n];
    PrefixKept(cfg, h', s, o.node);
    if o.node.commit == s.commit {
      BackedExtends(cfg, h, h', s.commit, s.term, s.commit, o.node.term);
    } else {
      assert Apply(c, n, o).nodes[n] == o.node;
      CommitRuleChooses(cfg, Apply(c, n, o), h', n, o.node.commit);
      BackedByChosen(cfg, h', o.node.term, o.node.commit);
    }
  }

  lemma BackedByChosen(cfg: Config, h: History, t: nat, m: nat)
    requires Chosen(cfg, h, t, m)
    ensures Backed(cfg, h, m, t)
  {
  }

  lemma AcceptKeeps(cfg: Config, c: Cluster, h: History, n: NodeId, m: Message)
    requires n in c.nodes && m.AppendReq? && MsgBacked(cfg, c, h, m)
    requires Backed(cfg, h, c.nodes[n].commit, c.nodes[n].term) && NodeOK(cfg, n, c.nodes[n])
    ensures KeepsBacked(cfg, h, c.nodes[n], HandleAppendReq(cfg, n, c.nodes[n], m).node)
  {
    hide Committed, L.Reconcile, Backed, NodeOK;
    var s := c.nodes[n];
    NodeBounds(cfg, n, s);
    L.ReconcileDropsOnlyConflicts(s.log, s.base, cfg.maxLog, m.prev, m.prevTerm, m.entries, s.commit);
    var s' := HandleAppendReq(cfg, n, s, m).node;
    KeptPrefix(s.log, s'.log, s.commit);
    PrefixKept(cfg, h, s, s');
    ExtendsItself(h);
    if s'.commit > s.commit {
      BackedExtends(cfg, h, h, m.leaderCommit, m.term, s'.commit, s'.term);
    } else {
      BackedExtends(cfg, h, h, s.commit, s.term, s.commit, s'.term);
    }
  }

  lemma NodeBounds(cfg: Config, n: NodeId, s: Node)
    requires NodeOK(cfg, n, s)
    ensures s.base <= s.commit <= |s.log|
  {
  }

  lemma InstallKeeps(cfg: Config, c: Cluster, h: History, n: NodeId, m: Message)
    requires n in c.nodes && m.SnapshotMsg? && MsgBacked(cfg, c, h, m)
    requires Backed(cfg, h, c.nodes[n].commit, c.nodes[n].term) && NodeOK(cfg, n, c.nodes[n])
    ensures KeepsBacked(cfg, h, c.nodes[n], InstallSnapshot(cfg, n, c.nodes[n], m).node)
    ensures forall a :: a in InstallSnapshot(cfg, n, c.nodes[n], m).msgs ==>
      a.SnapshotAck? && a.from == n && a.index <= InstallSnapshot(cfg, n, c.nodes[n], m).node.commit &&
      Committed(cfg, h, InstallSnapshot(cfg, n, c.nodes[n], m).node.log, a.index)
  {
    hide Committed, Backed, NodeOK;
    var s := c.nodes[n];
    NodeBounds(cfg, n, s);
    var s' := InstallSnapshot(cfg, n, s, m).node;
    if m.term >= s.term && |m.prefix| > s.base && |m.prefix| >= s.commit {
      assert Agree(m.prefix, s'.log, |m.prefix|);
      forall k: nat | k <= |m.prefix| ensures Committed(cfg, h, s'.log, k) {
        CommittedCopy(cfg, h, m.prefix, |m.prefix|, s'.log, k);
      }
    }
  }

  // ---------------------------------------------------------- every event

  lemma MsgBackedExtends(cfg: Config, c: Cluster, h: History, h': History, m: Message)
    requires MsgBacked(cfg, c, h, m) && Extends(h, h')
    ensures MsgBacked(cfg, c, h', m)
  {
    hide Backed, Committed, Extends;
    if m.AppendReq? { BackedExtends(cfg, h, h', m.leaderCommit, m.term, m.leaderCommit, m.term); }
    else if m.SnapshotMsg? {
      BackedExtends(cfg, h, h', |m.prefix|, m.term, |m.prefix|, m.term);
      CommittedExtends(cfg, h, h', m.prefix, |m.prefix|);
    } else if m.SnapshotAck? && m.from in c.nodes {
      CommittedExtends(cfg, h, h', c.nodes[m.from].log, m.index);
    }
  }

  lemma MoveBacked(cfg: Config, c: Cluster, h: History, n: NodeId, o: Out, h': History)
    requires NodesBacked(cfg, c, h) && NetBacked(cfg, c, h) && Extends(h, h') && n in c.nodes
    requires KeepsBacked(cfg, h', c.nodes[n], o.node)
    requires forall m :: m in o.msgs ==> MsgBacked(cfg, Apply(c, n, o), h', m)
    ensures NodesBacked(cfg, Apply(c, n, o), h') && NetBacked(cfg, Apply(c, n, o), h')
  {
    hide Backed, Committed, Extends;
    var c' := Apply(c, n, o);
    forall k | k in c'.nodes ensures Backed(cfg, h', c'.nodes[k].commit, c'.nodes[k].term) {
      if k != n { BackedExtends(cfg, h, h', c.nodes[k].commit, c.nodes[k].term, c.nodes[k].commit, c.nodes[k].term); }
    }
    forall m | m in c'.net ensures MsgBacked(cfg, c', h', m) {
      if m in c.net { MsgBackedExtends(cfg, c, h, h', m); }
    }
  }

  /** What a leader sends is covered by its own commit index. */
  lemma SentBacked(cfg: Config, c: Cluster, h: History, n: NodeId, m: Message)
    requires Inv(cfg, c, h) && n in c.nodes && NodeOK(cfg, n, c.nodes[n]) && !m.SnapshotAck?
    requires Backed(cfg, h, c.nodes[n].commit, c.nodes[n].term)
    requires m.AppendReq? || m.SnapshotMsg? ==> c.nodes[n].role == Leader && FromLeader(c.nodes[n], m)
    ensures MsgBacked(cfg, c, h, m)
  {
    hide Inv, Committed, Backed, NodeOK;
    var s := c.nodes[n];
    NodeBounds(cfg, n, s);
    if m.SnapshotMsg? {
      ExtendsItself(h);
      BackedExtends(cfg, h, h, s.commit, s.term, s.base, s.term);
      LeaderHolds(cfg, c, h, n, s.base);
      CommittedCopy(cfg, h, s.log, s.base, m.prefix, s.base);
    }
  }

  lemma FollowerReplies(cfg: Config, n: NodeId, s: Node, m: Message)
    requires s.base <= |s.log|
    ensures m.AppendReq? ==> forall r :: r in HandleAppendReq(cfg, n, s, m).msgs ==> r.AppendResp?
    ensures m.SnapshotMsg? ==> forall r :: r in InstallSnapshot(cfg, n, s, m).msgs ==> r.SnapshotAck?
  {
  }

  lemma FollowerKeeps(cfg: Config, c: Cluster, h: History, e: Event)
    requires ClusterOK(cfg, c) && NodesBacked(cfg, c, h) && NetBacked(cfg, c, h) && Enabled(cfg, c, e)
    requires FollowerCommits(e)
    ensures var o := Fire(cfg, c.nodes[e.n], e);
      && KeepsBacked(cfg, h, c.nodes[e.n], o.node)
      && forall m :: m in o.msgs ==> MsgBacked(cfg, Apply(c, e.n, o), h, m)
  {
    hide Committed, Backed, HandleAppendReq, InstallSnapshot, NodeOK;
    var n, s := e.n, c.nodes[e.n];
    assert MsgBacked(cfg, c, h, e.m) && Backed(cfg, h, s.commit, s.term);
    NodeBounds(cfg, n, s);
    FollowerReplies(cfg, n, s, e.m);
    if Deliverable(cfg, n, e.m) {
      if e.m.AppendReq? { AcceptKeeps(cfg, c, h, n, e.m); } else { InstallKeeps(cfg, c, h, n, e.m); }
    }
  }

  /** Every event of every run keeps commit indices backed and snapshots right. */
  lemma NextBacked(cfg: Config, c: Cluster, h: History, e: Event) returns (h': History)
    requires ValidConfig(cfg) && Inv(cfg, c, h) && Enabled(cfg, c, e) && NodesBacked(cfg, c, h) && NetBacked(cfg, c, h)
    ensures ClusterOK(cfg, c) && Inv(cfg, Next(cfg, c, e), h') && Extends(h, h')
    ensures NodesBacked(cfg, Next(cfg, c, e), h') && NetBacked(cfg, Next(cfg, c, e), h')
  {
    hide Inv, ValidConfig, Extends, Fire, FollowerCommits, Backed, NetBacked, Advances, KeepsBacked, MsgBacked, NodeOK;
    h' := NextInv(cfg, c, h, e);
    var c', o := Next(cfg, c, e), Fire(cfg, c.nodes[e.n], e);
    InvCluster(cfg, c, h);
    InvCluster(cfg, c', h');
    AllExtend(cfg, c, h, h');
    if FollowerCommits(e) {
      FollowerKeeps(cfg, c, h', e);
    } else {
      FireAdvances(cfg, c, h, e);
      AdvanceKeeps(cfg, c, h, e.n, o, h');
      AdvanceMessages(cfg, c.nodes[e.n], o);
      KeptIsBacked(cfg, h', c.nodes[e.n], o.node);
      assert c'.nodes[e.n] == o.node;
      forall m | m in o.msgs ensures MsgBacked(cfg, c', h', m) { SentBacked(cfg, c', h', e.n, m); }
    }
    MoveBacked(cfg, c, h, e.n, o, h');
  }

  lemma AdvanceMessages(cfg: Config, s: Node, o: Out)
    requires Advances(cfg, s, o)
    ensures forall m :: m in o.msgs && (m.AppendReq? || m.SnapshotMsg?) ==>
      o.node.role == Leader && FromLeader(o.node, m)
    ensures forall m :: m in o.msgs ==> !m.SnapshotAck?
  {
  }

  lemma KeptIsBacked(cfg: Config, h: History, s: Node, s': Node)
    requires KeepsBacked(cfg, h, s, s')
    ensures Backed(cfg, h, s'.commit, s'.term)
  {
  }

  lemma AllExtend(cfg: Config, c: Cluster, h: History, h': History)
    requires NodesBacked(cfg, c, h) && NetBacked(cfg, c, h) && Extends(h, h')
    ensures NodesBacked(cfg, c, h') && NetBacked(cfg, c, h')
  {
    hide Backed, MsgBacked, Extends;
    forall n | n in c.nodes ensures Backed(cfg, h', c.nodes[n].commit, c.nodes[n].term) {
      BackedExtends(cfg, h, h', c.nodes[n].commit, c.nodes[n].term, c.nodes[n].commit, c.nodes[n].term);
    }
    forall m | m in c.net ensures MsgBacked(cfg, c, h', m) { MsgBackedExtends(cfg, c, h, h', m); }
  }

  // ----------------------------------------------------------- whole runs

  ghost predicate RecordedBacking(cfg: Config, cs: seq<Cluster>, hs: seq<History>)
  {
    Recorded(cfg, cs, hs) && forall i :: 0 <= i < |cs| ==>
      NodesBacked(cfg, cs[i], hs[i]) && NetBacked(cfg, cs[i], hs[i])
  }

  lemma InitialBacked(cfg: Config, c: Cluster)
    requires Init(cfg, c)
    ensures NodesBacked(cfg, c, NOTHING) && NetBacked(cfg, c, NOTHING)
  {
  }

  lemma {:induction false} BackedHistories(cfg: Config, cs: seq<Cluster>, es: seq<Event>) returns (hs: seq<History>)
    requires IsRun(cfg, cs, es)
    ensures RecordedBacking(cfg, cs, hs)
    decreases |es|
  {
    hide Inv, Extends, Next, Init, ValidConfig, ClusterOK, NodesBacked, NetBacked;
    var k := |es|;
    if k == 0 {
      InitialInvariant(cfg, cs[0]);
      InitialBacked(cfg, cs[0]);
      ExtendsItself(NOTHING);
      hs := [NOTHING];
    } else {
      var cs0, es0 := cs[..k], es[..k - 1];
      forall i | 0 <= i < |es0| ensures Step(cfg, cs0[i], es0[i], cs0[i + 1]) {
        assert Step(cfg, cs[i], es[i], cs[i + 1]);
      }
      var hs0 := BackedHistories(cfg, cs0, es0);
      assert Step(cfg, cs[k - 1], es[k - 1], cs[k - 1 + 1]);
      var h' := NextBacked(cfg, cs[k - 1], hs0[k - 1], es[k - 1]);
      hs := hs0 + [h'];
      forall i, j | 0 <= i <= j < |cs| ensures Extends(hs[i], hs[j]) {
        if j < k { assert Extends(hs0[i], hs0[j]); }
        else if i == k { ExtendsItself(h'); }
        else { ExtendsChain(hs0[i], hs0[k - 1], h'); }
      }
    }
  }

  /** A leader's committed prefix is right at every point of every run. */
  lemma LeaderCommitted(cfg: Config, c: Cluster, h: History, n: NodeId)
    requires Inv(cfg, c, h) && NodesBacked(cfg, c, h) && n in c.nodes && c.nodes[n].role == Leader
    ensures Committed(cfg, h, c.nodes[n].log, c.nodes[n].commit)
  {
    hide Inv, Committed, Backed;
    assert Backed(cfg, h, c.nodes[n].commit, c.nodes[n].term);
    LeaderHolds(cfg, c, h, n, c.nodes[n].commit);
  }

  /**
   Leaders agree: in every run, whatever two nodes have committed while they
   lead, at any two points and in any two terms, is the same sequence.  No
   condition on the followers' commit steps is needed.
   */
  lemma LeadersAgree(cfg: Config, cs: seq<Cluster>, es: seq<Event>, i: nat, j: nat, a: NodeId, b: NodeId, k: nat)
    requires IsRun(cfg, cs, es) && i < |cs| && j < |cs| && a in cs[i].nodes && b in cs[j].nodes
    requires cs[i].nodes[a].role == Leader && cs[j].nodes[b].role == Leader
    requires k <= cs[i].nodes[a].commit && k <= cs[j].nodes[b].commit
    ensures k <= |cs[i].nodes[a].log| && k <= |cs[j].nodes[b].log|
    ensures cs[i].nodes[a].log[..k] == cs[j].nodes[b].log[..k]
  {
    hide Inv, Extends, Committed, NodesBacked, NetBacked;
    var hs := BackedHistories(cfg, cs, es);
    LeaderCommitted(cfg, cs[i], hs[i], a);
    LeaderCommitted(cfg, cs[j], hs[j], b);
    SamePrefix(cfg, cs, hs, i, j, cs[i].nodes[a], cs[j].nodes[b], k);
  }

  /** Right prefixes at two points of a run are compared at the later one. */
  lemma SamePrefix(cfg: Config, cs: seq<Cluster>, hs: seq<History>, i: nat, j: nat, s: Node, s': Node, k: nat)
    requires Recorded(cfg, cs, hs) && i < |cs| && j < |cs| && k <= s.commit && k <= s'.commit
    requires Committed(cfg, hs[i], s.log, s.commit) && Committed(cfg, hs[j], s'.log, s'.commit)
    ensures k <= |s.log| && k <= |s'.log| && s.log[..k] == s'.log[..k]
  {
    hide Inv, Extends, Committed;
    var l := Max(i, j);
    CommittedLength(cfg, hs[i], s.log, s.commit);
    CommittedLength(cfg, hs[j], s'.log, s'.commit);
    CommittedExtends(cfg, hs[i], hs[l], s.log, s.commit);
    CommittedExtends(cfg, hs[j], hs[l], s'.log, s'.commit);
    CommittedCopy(cfg, hs[l], s.log, s.commit, s.log, k);
    CommittedCopy(cfg, hs[l], s'.log, s'.commit, s'.log, k);
    CommittedAgree(cfg, cs[l], hs[l], s.log, s'.log, k);
  }
}
