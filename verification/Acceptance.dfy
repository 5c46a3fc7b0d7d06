/**
 When a follower takes what a leader sends.  Every entry of a run is well formed
 and stands at its own index, so a request of the current term whose predecessor
 the follower holds is granted unless it would change what is committed or what
 does not fit.
 */
module Acceptance {
  import opened RaftTypes
  import opened RaftNode
  import opened Cluster
  import opened ClusterInvariant
  import opened ClusterProgress
  import opened ClusterCalls
  import opened Safety
  import PausedPeers
  import L = RaftLog

  // --------------------------------------------------- well-formed entries

  /** Entries that stand at consecutive indices from first on. */
  ghost predicate CleanFrom(es: seq<Entry>, first: nat)
  {
    forall k :: 0 <= k < |es| ==> L.WellFormed(es[k], first + k)
  }

  ghost predicate CleanMsg(m: Message)
  {
    && (m.AppendReq? ==> CleanFrom(m.entries, m.prev + 1))
    && (m.SnapshotMsg? ==> CleanFrom(m.prefix, 1))
  }

  ghost predicate CleanCluster(c: Cluster)
  {
    && (forall n :: n in c.nodes ==> CleanFrom(c.nodes[n].log, 1))
    && (forall m :: m in c.net ==> CleanMsg(m))
  }

  lemma SliceClean(log: seq<Entry>, first: nat, a: nat, b: nat)
    requires CleanFrom(log, first) && a <= b <= |log|
    ensures CleanFrom(log[a..b], first + a)
  {
    hide L.WellFormed;
    forall k | 0 <= k < b - a ensures L.WellFormed(log[a..b][k], first + a + k) {
      assert L.WellFormed(log[a + k], first + (a + k));
    }
  }

  lemma JoinClean(a: seq<Entry>, b: seq<Entry>, first: nat)
    requires CleanFrom(a, first) && CleanFrom(b, first + |a|)
    ensures CleanFrom(a + b, first)
  {
    hide L.WellFormed;
    forall k | 0 <= k < |a + b| ensures L.WellFormed((a + b)[k], first + k) {
      if k >= |a| { assert L.WellFormed(b[k - |a|], first + |a| + (k - |a|)); }
    }
  }

  lemma ReconcileClean(log: seq<Entry>, base: nat, maxEntries: nat, prev: nat, prevTerm: nat, incoming: seq<Entry>,
                       protect: nat)
    requires base <= |log| && CleanFrom(log, 1) && CleanFrom(incoming, prev + 1)
    ensures CleanFrom(L.LogAfter(log, L.Reconcile(log, base, maxEntries, prev, prevTerm, incoming, protect)), 1)
  {
    hide CleanFrom, L.ScanFrom, L.RejectHint;
    var r := L.Reconcile(log, base, maxEntries, prev, prevTerm, incoming, protect);
    if r.Replace? {
      SliceClean(log, 1, 0, prev + r.at);
      SliceClean(incoming, prev + 1, r.at, |incoming|);
      assert log[0..prev + r.at] == log[..prev + r.at] && incoming[r.at..|incoming|] == incoming[r.at..];
      JoinClean(log[..prev + r.at], incoming[r.at..], 1);
    }
  }

  lemma InstallClean(cfg: Config, id: NodeId, s: Node, m: Message)
    requires m.SnapshotMsg? && CleanFrom(s.log, 1) && CleanMsg(m)
    ensures CleanFrom(InstallSnapshot(cfg, id, s, m).node.log, 1)
  {
    hide CleanFrom;
    var index := |m.prefix|;
    if index <= |s.log| {
      SliceClean(s.log, 1, index, |s.log|);
      assert s.log[index..|s.log|] == s.log[index..];
      JoinClean(m.prefix, s.log[index..], 1);
    }
  }

  lemma ProposeClean(s: Node, commands: seq<(nat, seq<Byte>)>)
    requires ValidProposals(commands) && s.term >= 1 && CleanFrom(s.log, 1)
    ensures CleanFrom(s.log + Proposed(s, commands), 1)
  {
    JoinClean(s.log, Proposed(s, commands), 1);
  }

  /** The calls that change a log. */
  predicate Writes(e: Event)
  {
    e.Submit? || (e.Deliver? && (e.m.AppendReq? || e.m.SnapshotMsg?))
  }

  lemma OtherCallsKeepLog(cfg: Config, s: Node, e: Event)
    requires NodeOK(cfg, e.n, s) && !Writes(e)
    ensures Fire(cfg, s, e).node.log == s.log
  {
    hide Broadcast, EmitReplication, FillPeer, UpdateCommit, IsQuorum, UpToDate;
    var n := e.n;
    match e {
      case ElectionTimeout(_) => KeptByElection(cfg, n, s);
      case TickLeader(_, expired, _) =>
        if s.role == Leader { PausedPeers.BroadcastGated(cfg, n, ExpireWindows(s, expired), cfg.peers); }
      case Deliver(_, m, room) => if Deliverable(cfg, n, m) { KeptByReceive(cfg, n, s, m, room); }
      case TransferTo(_, target) =>
        if s.role == Leader && target in s.progress {
          PausedPeers.EmitGated(cfg, n, s.(transferTarget := target, transferSent := false), target, false);
        }
      case PollPeer(_, p) => if s.role == Leader && p in s.progress { PausedPeers.EmitGated(cfg, n, s, p, false); }
      case _ =>
    }
  }

  lemma KeptByElection(cfg: Config, n: NodeId, s: Node)
    requires s.base <= |s.log|
    ensures BecomeLeader(cfg, n, s).node.log == s.log && StartElection(cfg, n, s).node.log == s.log
    ensures StartPreVote(cfg, n, s).node.log == s.log
  {
    hide Broadcast, IsQuorum;
    var s1 := s.(role := PreCandidate, leaderId := 0, campaign := s.term + 1, preVotes := {n}, votes := {});
    PausedPeers.BroadcastGated(cfg, n, TakeLeadership(cfg, n, s), cfg.peers);
    PausedPeers.BroadcastGated(cfg, n, TakeLeadership(cfg, n, Stand(n, s)), cfg.peers);
    PausedPeers.BroadcastGated(cfg, n, TakeLeadership(cfg, n, Stand(n, s1)), cfg.peers);
  }

  lemma KeptByReceive(cfg: Config, n: NodeId, s: Node, m: Message, room: nat)
    requires NodeOK(cfg, n, s) && m.from in cfg.peers && !m.AppendReq? && !m.SnapshotMsg?
    ensures Receive(cfg, n, s, m, room).node.log == s.log
  {
    hide BecomeLeader, StartElection, StartPreVote, FillPeer, Acknowledge, IgnoresResp, IsQuorum, UpToDate;
    if m.PreVoteResp? { KeptByElection(cfg, n, s.(preVotes := s.preVotes + {m.from})); }
    else if m.VoteResp? { KeptByElection(cfg, n, s.(votes := s.votes + {m.from})); }
    else if m.TimeoutNow? { KeptByElection(cfg, n, s.(campaign := s.term + 1)); }
    else if m.AppendResp? {
      if s.role == Leader && m.term == s.term && !IgnoresResp(s, m) {
        AcknowledgeKeepsRange(cfg, s, m);
        KeptByAcknowledge(cfg, s, m);
        PausedPeers.FillGated(cfg, n, Acknowledge(cfg, s, m), m.from, room);
      }
    } else if m.SnapshotAck? {
      if s.role == Leader && m.index <= s.base {
        var pr := Progress(m.index + 1, Max(s.progress[m.from].matched, m.index), [], true);
        PausedPeers.FillGated(cfg, n, s.(progress := s.progress[m.from := pr]), m.from, room);
      }
    }
  }

  lemma KeptByAcknowledge(cfg: Config, s: Node, m: Message)
    requires m.AppendResp? && m.from in s.progress
    ensures Acknowledge(cfg, s, m).log == s.log
  {
    hide UpdateCommit;
    UpdateCommitFields(cfg, s.(progress := s.progress[m.from := Advanced(s.progress[m.from], m.matched)]));
  }

  lemma LogClean(cfg: Config, s: Node, e: Event)
    requires NodeOK(cfg, e.n, s) && CleanFrom(s.log, 1) && (e.Deliver? ==> CleanMsg(e.m))
    requires s.role == Leader ==> s.term >= 1
    ensures CleanFrom(Fire(cfg, s, e).node.log, 1)
  {
    hide CleanFrom, L.Reconcile, Broadcast, UpdateCommit, ValidProposals;
    if !Writes(e) {
      OtherCallsKeepLog(cfg, s, e);
    } else if e.Submit? {
      if s.role == Leader && ValidProposals(e.commands) {
        var s1 := AppendLocal(e.n, s, Proposed(s, e.commands));
        ProposeClean(s, e.commands);
        UpdateCommitFields(cfg, s1);
        PausedPeers.BroadcastGated(cfg, e.n, UpdateCommit(cfg, s1), cfg.peers);
      }
    } else if e.m.AppendReq? {
      ReconcileClean(s.log, s.base, cfg.maxLog, e.m.prev, e.m.prevTerm, e.m.entries, s.commit);
    } else {
      InstallClean(cfg, e.n, s, e.m);
    }
  }

  lemma NextClean(cfg: Config, c: Cluster, h: History, e: Event)
    requires ValidConfig(cfg) && Inv(cfg, c, h) && Enabled(cfg, c, e) && CleanCluster(c)
    ensures ClusterOK(cfg, c) && CleanCluster(Next(cfg, c, e))
  {
    hide Inv, CleanFrom, Fire, ValidConfig, NodeOK;
    InvCluster(cfg, c, h);
    InvNode(cfg, c, h, e.n);
    var s := c.nodes[e.n];
    if s.role == Leader { InvBallot(cfg, c, h, s.term); }
    LogClean(cfg, s, e);
    PausedPeers.FireGated(cfg, s, e);
    var o := Fire(cfg, s, e);
    forall m | m in o.msgs ensures CleanMsg(m) {
      if m.AppendReq? { SliceClean(o.node.log, 1, m.prev, m.prev + |m.entries|); }
      if m.SnapshotMsg? {
        var b := Min(o.node.base, |o.node.log|);
        SliceClean(o.node.log, 1, 0, b);
        assert o.node.log[0..b] == o.node.log[..b];
      }
    }
  }

  lemma {:induction false} RunClean(cfg: Config, cs: seq<Cluster>, es: seq<Event>, i: nat)
    requires IsRun(cfg, cs, es) && i < |cs|
    ensures CleanCluster(cs[i])
    decreases i
  {
    hide Inv, ClusterOK, CleanFrom, Next;
    if i == 0 {
      NothingClean(cfg, cs[0]);
    } else {
      StepAt(cfg, cs, es, i - 1);
      var hs := Histories(cfg, cs, es);
      RunClean(cfg, cs, es, i - 1);
      NextClean(cfg, cs[i - 1], hs[i - 1], es[i - 1]);
    }
  }

  lemma NothingClean(cfg: Config, c: Cluster)
    requires Init(cfg, c)
    ensures CleanCluster(c)
  {
  }

  // ----------------------------------------------------- answering requests

  /** The predecessor is held, and nothing in the request is faulty, committed otherwise or too much. */
  ghost predicate CanTake(cfg: Config, s: Node, m: Message, n: nat)
    requires m.AppendReq?
  {
    && m.prev + |m.entries| <= U64_MAX && s.base <= m.prev <= |s.log| && TermAt(s.log, m.prev) == m.prevTerm
    && L.AllConsistent(s.log, m.prev, m.entries, n)
    && (n < |m.entries| && m.prev + n < |s.log| ==> s.commit <= m.prev + n)
    && (n < |m.entries| ==> m.prev + |m.entries| <= s.base + cfg.maxLog)
  }

  /**
   What a follower does with a request that is not stale: it takes and grants
   exactly what it can take, answers a missing predecessor with a hint, and drops
   anything else.
   */
  lemma AppendAnswer(cfg: Config, id: NodeId, s: Node, m: Message, n: nat)
    requires m.AppendReq? && s.base <= |s.log| && m.term >= s.term && L.HeldFrom(s.log, m.prev, m.entries, n)
    ensures var o := HandleAppendReq(cfg, id, s, m);
      var known := s.base <= m.prev <= |s.log| && TermAt(s.log, m.prev) == m.prevTerm;
      var adopts := o.node.term == m.term && o.node.leaderId == m.from && o.node.role == Follower &&
                    o.node.base == s.base && o.node.paused == s.paused;
      && (CanTake(cfg, s, m, n) ==>
            && adopts && o.node.log == (if n == |m.entries| then s.log else s.log[..m.prev] + m.entries)
            && o.node.commit == FollowerCommit(s.commit, m.leaderCommit, |o.node.log|)
            && (s.commit <= |s.log| ==> o.node.commit == Max(s.commit, Min(m.leaderCommit, |o.node.log|)))
            && o.msgs == Emit(s, AppendResp(id, m.from, m.term, m.entries == [], true, m.prev + |m.entries|, 0,
                                            m.prev)))
      && (m.prev + |m.entries| <= U64_MAX && !known ==>
            && adopts && o.node.log == s.log && o.node.commit == s.commit
            && o.msgs == Emit(s, AppendResp(id, m.from, m.term, m.entries == [], false, 0,
                                            L.RejectHint(s.log, s.base, m.prev), m.prev)))
      && (!CanTake(cfg, s, m, n) && !(m.prev + |m.entries| <= U64_MAX && !known) ==> o == Out(s, {}))
  {
    hide L.Reconcile, L.RejectHint, L.AllConsistent, L.HeldFrom, L.FirstFault;
    L.ReconcileExact(s.log, s.base, cfg.maxLog, m.prev, m.prevTerm, m.entries, s.commit, n);
    MismatchHint(cfg, s, m);
    HeldMeans(s.log, m.prev, m.entries, n);
  }

  lemma MismatchHint(cfg: Config, s: Node, m: Message)
    requires m.AppendReq? && s.base <= |s.log|
    ensures var r := L.Reconcile(s.log, s.base, cfg.maxLog, m.prev, m.prevTerm, m.entries, s.commit);
      && (r.Mismatch? <==>
          m.prev + |m.entries| <= U64_MAX &&
          !(s.base <= m.prev <= |s.log| && TermAt(s.log, m.prev) == m.prevTerm))
      && (r.Mismatch? ==> r.hint == L.RejectHint(s.log, s.base, m.prev))
  {
    hide L.ScanFrom, L.RejectHint;
  }

  /** A request of a former term is refused and changes nothing. */
  lemma StaleAnswer(cfg: Config, id: NodeId, s: Node, m: Message)
    requires m.AppendReq? && s.base <= |s.log| && m.term < s.term
    ensures HandleAppendReq(cfg, id, s, m) ==
      Out(s, Emit(s, AppendResp(id, m.from, s.term, m.entries == [], false, 0, |s.log| + 1, 0)))
  {
  }

  /**
   At every point of every run: a request of a current or newer term, whose
   predecessor the follower holds, which changes nothing committed and fits, is
   taken whole and granted.
   */
  lemma RequestGranted(cfg: Config, cs: seq<Cluster>, es: seq<Event>, i: nat, f: NodeId, m: Message)
    requires IsRun(cfg, cs, es) && i < |cs| && f in cs[i].nodes && m in cs[i].net && m.AppendReq?
    requires var s := cs[i].nodes[f];
      && m.term >= s.term && s.base <= m.prev <= |s.log| && TermAt(s.log, m.prev) == m.prevTerm
      && (forall k :: 0 <= k < |m.entries| && m.prev + k < s.commit && m.prev + k < |s.log| ==>
           s.log[m.prev + k].term == m.entries[k].term)
      && m.prev + |m.entries| <= s.base + cfg.maxLog && m.prev + |m.entries| <= U64_MAX
    ensures cs[i].nodes[f].base <= cs[i].nodes[f].commit <= |cs[i].nodes[f].log|
    ensures var s := cs[i].nodes[f];
      var o := HandleAppendReq(cfg, f, s, m);
      && o.node.term == m.term && o.node.leaderId == m.from && o.node.role == Follower && o.node.base == s.base
      && m.prev + |m.entries| <= |o.node.log| && o.node.log[..m.prev] == s.log[..m.prev]
      && o.node.log[m.prev..m.prev + |m.entries|] == m.entries
      && (m.from !in s.paused ==>
            AppendResp(f, m.from, m.term, m.entries == [], true, m.prev + |m.entries|, 0, m.prev) in o.msgs)
  {
    hide IsRun, HandleAppendReq, L.WellFormed, L.HeldFrom;
    var s := cs[i].nodes[f];
    Bounds(cfg, cs, es, i, f);
    var n := L.HeldCount(s.log, m.prev, m.entries, 0);
    RequestConsistent(cfg, cs, es, i, f, m, n);
    HeldMeans(s.log, m.prev, m.entries, n);
    AppendAnswer(cfg, f, s, m, n);
    if n == |m.entries| { HeldWhole(s.log, m.prev, m.entries, n); }
  }

  lemma Bounds(cfg: Config, cs: seq<Cluster>, es: seq<Event>, i: nat, f: NodeId)
    requires IsRun(cfg, cs, es) && i < |cs| && f in cs[i].nodes
    ensures NodeOK(cfg, f, cs[i].nodes[f])
  {
    hide Inv, NodeOK;
    var hs := Histories(cfg, cs, es);
    InvCluster(cfg, cs[i], hs[i]);
  }

  lemma HeldMeans(log: seq<Entry>, prev: nat, incoming: seq<Entry>, n: nat)
    requires L.HeldFrom(log, prev, incoming, n)
    ensures n <= |incoming| && (n < |incoming| && prev + n < |log| ==> log[prev + n].term != incoming[n].term)
  {
  }

  lemma HeldWhole(log: seq<Entry>, prev: nat, incoming: seq<Entry>, n: nat)
    requires L.HeldFrom(log, prev, incoming, n) && L.AllConsistent(log, prev, incoming, n) && n == |incoming|
    requires prev <= |log|
    ensures prev + |incoming| <= |log| && log[prev..prev + |incoming|] == incoming
  {
    hide L.WellFormed;
    if n > 0 { assert incoming[n - 1].term == log[prev + (n - 1)].term; }
    forall k | 0 <= k < n ensures log[prev + k] == incoming[k] { assert L.Consistent(log, prev, incoming, n, k); }
  }

  /** Between honest nodes the checks on a batch pass. */
  lemma RequestConsistent(cfg: Config, cs: seq<Cluster>, es: seq<Event>, i: nat, f: NodeId, m: Message, n: nat)
    requires IsRun(cfg, cs, es) && i < |cs| && f in cs[i].nodes && m in cs[i].net && m.AppendReq?
    requires L.HeldFrom(cs[i].nodes[f].log, m.prev, m.entries, n)
    ensures L.AllConsistent(cs[i].nodes[f].log, m.prev, m.entries, n)
  {
    hide IsRun, L.WellFormed;
    RunClean(cfg, cs, es, i);
    var log := cs[i].nodes[f].log;
    assert CleanMsg(m);
    forall k | 0 <= k <= n && k < |m.entries| ensures L.Consistent(log, m.prev, m.entries, n, k) {
      assert L.WellFormed(m.entries[k], m.prev + 1 + k);
      if k < n && m.prev + k < |log| { NoContentConflict(cfg, cs, es, i, f, m, k); }
    }
  }
}
