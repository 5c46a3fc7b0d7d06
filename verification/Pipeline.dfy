/**
 The pipelined AppendEntries windows over whole runs: what is in flight to a
 peer tiles the range just below its next index, all of it above the match
 index, and the match index never claims more than the follower holds.
 */
module Pipeline {
  import opened RaftTypes
  import opened RaftNode
  import opened Cluster
  import opened ClusterInvariant
  import opened ClusterGrowth
  import opened ClusterCalls
  import opened ClusterProgress
  import opened ClusterCommit
  import opened Safety
  import opened LeaderCommit
  import opened Agreement

  /** Consecutive, non-empty requests. */
  predicate Tiles(w: seq<Inflight>)
  {
    && (forall k :: 0 <= k < |w| ==> w[k].prev < w[k].last)
    && (forall k :: 0 < k < |w| ==> w[k].prev == w[k - 1].last)
  }

  predicate PeerOK(cfg: Config, pr: Progress)
  {
    && Tiles(pr.window) && (pr.window != [] ==> pr.window[|pr.window| - 1].last + 1 == pr.next)
    && |pr.window| <= cfg.maxInflight && (pr.probe ==> |pr.window| <= 1)
    && pr.matched < pr.next && (pr.window != [] ==> pr.window[0].last > pr.matched)
  }

  /** Every window of a leader, the leader's own being empty and fully matched. */
  predicate Piped(cfg: Config, n: NodeId, s: Node)
  {
    s.role == Leader ==>
      && (forall p :: p in s.progress ==> PeerOK(cfg, s.progress[p]))
      && n in s.progress && s.progress[n].window == [] && s.progress[n].matched == |s.log|
  }

  /** In a tiled window every request ends above the first one's end. */
  lemma {:induction false} TilesRise(w: seq<Inflight>, i: nat, j: nat)
    requires Tiles(w) && i <= j < |w|
    ensures w[i].last <= w[j].last && (i < j ==> w[i].last < w[j].last)
    decreases j
  {
    if i < j { TilesRise(w, i, j - 1); }
  }

  /** What a tiled window covers: exactly the indices after its first request's start, below next. */
  lemma Covered(cfg: Config, pr: Progress, i: nat)
    requires PeerOK(cfg, pr) && pr.window != []
    ensures pr.window[0].prev < i < pr.next <==>
      exists k :: 0 <= k < |pr.window| && pr.window[k].prev < i <= pr.window[k].last
    ensures forall k :: 0 <= k < |pr.window| ==> pr.window[k].last > pr.matched
  {
    var w := pr.window;
    forall k | 0 <= k < |w| ensures w[0].last <= w[k].last <= w[|w| - 1].last && w[0].prev <= w[k].prev {
      TilesRise(w, 0, k);
      TilesRise(w, k, |w| - 1);
      if k > 0 { TilesRise(w, 0, k - 1); }
    }
    if w[0].prev < i < pr.next { var k := Cover(w, i, |w| - 1); }
  }

  lemma {:induction false} Cover(w: seq<Inflight>, i: nat, j: nat) returns (k: nat)
    requires Tiles(w) && j < |w| && w[0].prev < i <= w[j].last
    ensures k <= j && w[k].prev < i <= w[k].last
    decreases j
  {
    if w[j].prev < i { k := j; } else { k := Cover(w, i, j - 1); }
  }

  // ------------------------------------------------------------ every change

  lemma EmitPiped(cfg: Config, n: NodeId, s: Node, p: NodeId, heartbeat: bool)
    requires ValidConfig(cfg) && ProgressInRange(cfg, s) && p in s.progress && p != n && Piped(cfg, n, s)
    ensures Piped(cfg, n, EmitReplication(cfg, n, s, p, heartbeat).node)
  {
    hide PeerOK, ValidConfig;
    var s' := EmitReplication(cfg, n, s, p, heartbeat).node;
    if s.role == Leader {
      EmitPeer(cfg, n, s, p, heartbeat);
      forall q | q in s'.progress ensures PeerOK(cfg, s'.progress[q]) {
        if q != p { assert s'.progress[q] == s.progress[q]; }
      }
    }
  }

  lemma EmitPeer(cfg: Config, n: NodeId, s: Node, p: NodeId, heartbeat: bool)
    requires ValidConfig(cfg) && ProgressInRange(cfg, s) && p in s.progress && PeerOK(cfg, s.progress[p])
    ensures p in EmitReplication(cfg, n, s, p, heartbeat).node.progress
    ensures PeerOK(cfg, EmitReplication(cfg, n, s, p, heartbeat).node.progress[p])
  {
    var w, w' := s.progress[p].window, EmitReplication(cfg, n, s, p, heartbeat).node.progress[p].window;
    if w' != [] {
      forall k | 0 < k < |w'| ensures w'[k].prev == w'[k - 1].last { if k < |w| { assert w[k].prev == w[k - 1].last; } }
    }
  }

  lemma {:induction false} BroadcastPiped(cfg: Config, n: NodeId, s: Node, ps: seq<NodeId>)
    requires ValidConfig(cfg) && ProgressInRange(cfg, s) && (forall p :: p in ps ==> p in s.progress)
    requires Piped(cfg, n, s)
    ensures Piped(cfg, n, Broadcast(cfg, n, s, ps).node)
    decreases ps
  {
    hide EmitReplication, Piped, ValidConfig;
    if ps != [] {
      if ps[0] != n {
        EmitPiped(cfg, n, s, ps[0], true);
        EmitKeepsRange(cfg, n, s, ps[0], true);
      }
      BroadcastPiped(cfg, n, if ps[0] == n then s else EmitReplication(cfg, n, s, ps[0], true).node, ps[1..]);
    }
  }

  lemma {:induction false} FillPiped(cfg: Config, n: NodeId, s: Node, p: NodeId, room: nat)
    requires ValidConfig(cfg) && ProgressInRange(cfg, s) && p in s.progress && p != n && Piped(cfg, n, s)
    ensures Piped(cfg, n, FillPeer(cfg, n, s, p, room).node)
    decreases room
  {
    hide EmitReplication, Piped, ValidConfig;
    EmitPiped(cfg, n, s, p, false);
    EmitKeepsRange(cfg, n, s, p, false);
    if room > 0 { FillPiped(cfg, n, EmitReplication(cfg, n, s, p, false).node, p, room - 1); }
  }

  lemma SuffixTiles(w: seq<Inflight>, d: nat)
    requires Tiles(w) && d < |w|
    ensures Tiles(w[d..]) && w[d..][|w| - d - 1] == w[|w| - 1] && w[d].last <= w[|w| - 1].last && w[0].last <= w[d].last
  {
    var v := w[d..];
    forall k | 0 < k < |v| ensures v[k].prev == v[k - 1].last { assert w[d + k].prev == w[d + k - 1].last; }
    TilesRise(w, d, |w| - 1);
    TilesRise(w, 0, d);
  }

  lemma AdvancedOK(cfg: Config, pr: Progress, matched: nat)
    requires PeerOK(cfg, pr)
    ensures PeerOK(cfg, Advanced(pr, matched))
    ensures forall q :: q in Advanced(pr, matched).window <==> q in pr.window && q.last > matched
  {
    hide Tiles, ReleaseThrough;
    var w, w' := pr.window, ReleaseThrough(pr.window, matched);
    if w' == [] { NothingTiles(); } else { SuffixTiles(w, |w| - |w'|); }
    ReleasedExactly(w, matched);
  }

  /** In a tiled window the requests above an index are a suffix. */
  lemma ReleasedExactly(w: seq<Inflight>, matched: nat)
    requires Tiles(w)
    ensures forall q :: q in ReleaseThrough(w, matched) <==> q in w && q.last > matched
  {
    hide Tiles, ReleaseThrough;
    var w' := ReleaseThrough(w, matched);
    var d := |w| - |w'|;
    forall k | 0 <= k < |w| ensures w[k].last > matched <==> k >= d {
      if k >= d { TilesRise(w, d, k); }
    }
    forall k | 0 <= k < |w'| ensures w'[k] == w[d + k] {
    }
    forall q | q in w && q.last > matched ensures q in w' {
      var k :| 0 <= k < |w| && w[k] == q;
      assert w'[k - d] == q;
    }
  }

  lemma NothingTiles()
    ensures Tiles([])
  {
  }

  lemma BackedOffOK(cfg: Config, base: nat, pr: Progress, m: Message)
    requires m.AppendResp?
    ensures PeerOK(cfg, BackedOff(base, pr, m))
  {
  }

  lemma AcknowledgePiped(cfg: Config, n: NodeId, s: Node, m: Message)
    requires m.AppendResp? && m.from in s.progress && m.from != n && Piped(cfg, n, s)
    ensures Piped(cfg, n, Acknowledge(cfg, s, m))
  {
    hide PeerOK, UpdateCommit, BackedOff, Advanced;
    var pr := s.progress[m.from];
    if s.role == Leader { AdvancedOK(cfg, pr, m.matched); }
    BackedOffOK(cfg, s.base, pr, m);
    UpdateCommitFields(cfg, s.(progress := s.progress[m.from := Advanced(pr, m.matched)]));
  }

  lemma AppendRespPiped(cfg: Config, n: NodeId, s: Node, m: Message, room: nat)
    requires ValidConfig(cfg) && NodeOK(cfg, n, s) && m.AppendResp? && m.from in s.progress && m.from != n
    requires Piped(cfg, n, s)
    ensures Piped(cfg, n, HandleAppendResp(cfg, n, s, m, room).node)
  {
    hide Acknowledge, FillPeer, IgnoresResp, ValidConfig, PeerOK;
    if m.term == s.term && s.role == Leader && !IgnoresResp(s, m) {
      AcknowledgePiped(cfg, n, s, m);
      AcknowledgeKeepsRange(cfg, s, m);
      FillPiped(cfg, n, Acknowledge(cfg, s, m), m.from, room);
    }
  }

  /** The peer's record after a completed snapshot, before more is sent. */
  function Completed(pr: Progress, index: nat): (pr': Progress)
  {
    Progress(index + 1, Max(pr.matched, index), [], true)
  }

  /** A snapshot completion keeps the record sound exactly when it is at or above the match index. */
  lemma CompletionExact(cfg: Config, pr: Progress, index: nat)
    requires PeerOK(cfg, pr)
    ensures PeerOK(cfg, Completed(pr, index)) <==> index >= pr.matched
  {
  }

  lemma SnapshotAckPiped(cfg: Config, n: NodeId, s: Node, p: NodeId, index: nat, room: nat)
    requires ValidConfig(cfg) && NodeOK(cfg, n, s) && Piped(cfg, n, s)
    requires s.role == Leader && p in s.progress ==> index >= s.progress[p].matched
    ensures Piped(cfg, n, SnapshotCompleted(cfg, n, s, p, index, room).node)
  {
    hide FillPeer, ValidConfig;
    if s.role == Leader && p in s.progress && p != n && index <= s.base {
      CompletionExact(cfg, s.progress[p], index);
      var s1 := s.(progress := s.progress[p := Completed(s.progress[p], index)]);
      assert s1.progress.Keys == s.progress.Keys;
      forall q | q in s1.progress ensures PeerOK(cfg, s1.progress[q]) {
        if q != p { assert s1.progress[q] == s.progress[q]; }
      }
      FillPiped(cfg, n, s1, p, room);
    }
  }

  lemma LeadPiped(cfg: Config, n: NodeId, s: Node)
    requires ValidConfig(cfg) && NodeOK(cfg, n, s)
    ensures Piped(cfg, n, BecomeLeader(cfg, n, s).node)
  {
    hide Broadcast;
    var s1 := TakeLeadership(cfg, n, s);
    assert ProgressInRange(cfg, s1);
    BroadcastPiped(cfg, n, s1, cfg.peers);
  }

  lemma ElectionPiped(cfg: Config, n: NodeId, s: Node)
    requires ValidConfig(cfg) && NodeOK(cfg, n, s)
    ensures Piped(cfg, n, StartElection(cfg, n, s).node)
  {
    hide BecomeLeader, ValidConfig;
    LeadPiped(cfg, n, Stand(n, s));
  }

  lemma PreVotePiped(cfg: Config, n: NodeId, s: Node)
    requires ValidConfig(cfg) && NodeOK(cfg, n, s) && s.role != Leader
    ensures Piped(cfg, n, StartPreVote(cfg, n, s).node)
  {
    hide StartElection, ValidConfig;
    ElectionPiped(cfg, n,
      s.(role := PreCandidate, leaderId := 0, campaign := s.term + 1, preVotes := {n}, votes := {}));
  }

  lemma ProposePiped(cfg: Config, n: NodeId, s: Node, commands: seq<(nat, seq<Byte>)>)
    requires ValidConfig(cfg) && NodeOK(cfg, n, s) && Piped(cfg, n, s)
    ensures Piped(cfg, n, Propose(cfg, n, s, commands).node)
  {
    hide Broadcast, UpdateCommit, ValidProposals, ValidConfig, PeerOK;
    if s.role == Leader {
      var s1 := AppendLocal(n, s, Proposed(s, commands));
      AppendLocalRange(cfg, n, s, commands);
      OwnPeer(cfg, n, s, commands);
      UpdateCommitFields(cfg, s1);
      BroadcastPiped(cfg, n, UpdateCommit(cfg, s1), cfg.peers);
    }
  }

  lemma OwnPeer(cfg: Config, n: NodeId, s: Node, commands: seq<(nat, seq<Byte>)>)
    requires n in s.progress && Piped(cfg, n, s) && s.role == Leader
    ensures Piped(cfg, n, AppendLocal(n, s, Proposed(s, commands)))
  {
    var s1 := AppendLocal(n, s, Proposed(s, commands));
    forall q | q in s1.progress ensures PeerOK(cfg, s1.progress[q]) {
      if q != n { assert s1.progress[q] == s.progress[q]; } else { assert PeerOK(cfg, s.progress[n]); }
    }
  }

  lemma TickPiped(cfg: Config, n: NodeId, s: Node, expired: set<NodeId>, heartbeat: bool)
    requires ValidConfig(cfg) && NodeOK(cfg, n, s) && s.role == Leader && Piped(cfg, n, s)
    ensures Piped(cfg, n, LeaderTick(cfg, n, s, expired, heartbeat).node)
  {
    hide Broadcast;
    var s1 := ExpireWindows(s, expired);
    assert s1.progress.Keys == s.progress.Keys;
    BroadcastPiped(cfg, n, s1, cfg.peers);
  }

  lemma TransferPiped(cfg: Config, n: NodeId, s: Node, target: NodeId)
    requires ValidConfig(cfg) && NodeOK(cfg, n, s) && Piped(cfg, n, s)
    ensures Piped(cfg, n, Transfer(cfg, n, s, target).node)
  {
    hide EmitReplication, ValidConfig, PeerOK;
    if s.role == Leader && target in s.progress && target != n {
      EmitPiped(cfg, n, s.(transferTarget := target, transferSent := false), target, false);
    }
  }

  // ---------------------------------------------------------------- runs

  /** A snapshot completion that the leader takes is at or above the match index. */
  predicate Timely(s: Node, e: Event)
  {
    e.Deliver? && e.m.SnapshotAck? && s.role == Leader && e.m.from in s.progress && 0 < e.m.index <= s.base ==>
      e.m.index >= s.progress[e.m.from].matched
  }

  lemma ReceivePiped(cfg: Config, n: NodeId, s: Node, m: Message, room: nat)
    requires ValidConfig(cfg) && NodeOK(cfg, n, s) && Piped(cfg, n, s) && Deliverable(cfg, n, m)
    requires Timely(s, Deliver(n, m, room))
    ensures Piped(cfg, n, Receive(cfg, n, s, m, room).node)
  {
    hide StartElection, BecomeLeader, HandleAppendResp, SnapshotCompleted, ValidConfig, PeerOK;
    if m.PreVoteResp? { ElectionPiped(cfg, n, s.(preVotes := s.preVotes + {m.from})); }
    else if m.VoteResp? { LeadPiped(cfg, n, s.(votes := s.votes + {m.from})); }
    else if m.AppendResp? { AppendRespPiped(cfg, n, s, m, room); }
    else if m.TimeoutNow? { ElectionPiped(cfg, n, s.(campaign := s.term + 1)); }
    else if m.SnapshotAck? {
      if s.role == Leader && m.from in s.progress && !(0 < m.index <= s.base) {
        CompletedRefused(cfg, n, s, m.from, m.index, room);
      } else {
        SnapshotAckPiped(cfg, n, s, m.from, m.index, room);
      }
    }
  }

  lemma CompletedRefused(cfg: Config, n: NodeId, s: Node, p: NodeId, index: nat, room: nat)
    requires NodeOK(cfg, n, s) && !(0 < index <= s.base)
    ensures SnapshotCompleted(cfg, n, s, p, index, room).node == s
  {
  }

  /** Every timely call keeps every window of the core tiled. */
  lemma FirePiped(cfg: Config, s: Node, e: Event)
    requires ValidConfig(cfg) && NodeOK(cfg, e.n, s) && Piped(cfg, e.n, s) && Timely(s, e)
    ensures Piped(cfg, e.n, Fire(cfg, s, e).node)
  {
    hide StartPreVote, LeaderTick, Receive, Propose, Transfer, EmitReplication, ValidConfig, PeerOK;
    var n := e.n;
    if e.Deliver? { if Deliverable(cfg, n, e.m) { ReceivePiped(cfg, n, s, e.m, e.room); } }
    else if e.ElectionTimeout? { if s.role != Leader { PreVotePiped(cfg, n, s); } }
    else if e.TickLeader? { if s.role == Leader { TickPiped(cfg, n, s, e.expired, e.heartbeat); } }
    else if e.Submit? { ProposePiped(cfg, n, s, e.commands); }
    else if e.TransferTo? { TransferPiped(cfg, n, s, e.target); }
    else if e.PollPeer? { if s.role == Leader && e.p in s.progress && e.p != n { EmitPiped(cfg, n, s, e.p, false); } }
  }

  /** Peer p has reported a snapshot of m entries as installed, to any leader of any term. */
  predicate Installed(net: set<Message>, p: NodeId, m: nat)
  {
    exists a :: a in net && a.SnapshotAck? && a.from == p && a.index == m
  }

  /** A match index is something the peer acknowledged in this term, or a snapshot it installed at some time. */
  ghost predicate Confirmed(net: set<Message>, h: History, n: NodeId, s: Node)
  {
    s.role == Leader ==>
      forall p :: p in s.progress && p != n ==>
        var m := s.progress[p].matched;
        m == 0 || Acked(h, p, s.term, m) || (m <= s.commit && Installed(net, p, m))
  }

  /** Where a call takes a peer's match index from. */
  ghost predicate MatchSource(n: NodeId, s: Node, e: Event, s': Node)
  {
    s'.role == Leader ==>
      forall p :: p in s'.progress ==>
        || s'.progress[p].matched == 0
        || (p == n && s'.progress[p].matched == |s'.log|)
        || (s.role == Leader && s.term == s'.term && p in s.progress && s'.progress[p].matched == s.progress[p].matched)
        || (e.Deliver? && e.m.AppendResp? && e.m.granted && e.m.term == s'.term && p == e.m.from &&
             s'.progress[p].matched == e.m.matched)
        || (e.Deliver? && e.m.SnapshotAck? && p == e.m.from && s'.progress[p].matched == e.m.index <= s.base)
  }

  lemma SendsSource(n: NodeId, s: Node, e: Event, s1: Node, o: Out)
    requires MatchSource(n, s, e, s1) && Sends(s1, o)
    ensures MatchSource(n, s, e, o.node)
  {
  }

  lemma LeadSource(cfg: Config, n: NodeId, s0: Node, s: Node, e: Event)
    requires NodeOK(cfg, n, s)
    ensures MatchSource(n, s0, e, BecomeLeader(cfg, n, s).node)
  {
    hide Broadcast;
    var s1 := TakeLeadership(cfg, n, s);
    assert ProgressInRange(cfg, s1);
    BroadcastSends(cfg, n, s1, cfg.peers);
    SendsSource(n, s0, e, s1, Broadcast(cfg, n, s1, cfg.peers));
  }

  lemma ElectionSource(cfg: Config, n: NodeId, s0: Node, s: Node, e: Event)
    requires NodeOK(cfg, n, s)
    ensures MatchSource(n, s0, e, StartElection(cfg, n, s).node)
  {
    hide BecomeLeader;
    LeadSource(cfg, n, s0, Stand(n, s), e);
  }

  lemma SameProgressSource(n: NodeId, s: Node, e: Event, s1: Node, s2: Node)
    requires MatchSource(n, s, e, s1) && s2.role == s1.role && s2.progress == s1.progress && s2.term == s1.term
    requires s2.log == s1.log
    ensures MatchSource(n, s, e, s2)
  {
  }

  lemma UntouchedSource(n: NodeId, s: Node, e: Event, s': Node)
    requires s'.role == Leader ==> s' == s
    ensures MatchSource(n, s, e, s')
  {
  }

  lemma AcknowledgeSource(cfg: Config, n: NodeId, s: Node, e: Event)
    requires NodeOK(cfg, n, s) && e.Deliver? && e.m.AppendResp? && e.m.from in s.progress
    requires s.role == Leader && e.m.term == s.term && !IgnoresResp(s, e.m)
    ensures MatchSource(n, s, e, Acknowledge(cfg, s, e.m))
  {
    hide IgnoresResp, UpdateCommit, ReleaseThrough, WindowInRange;
    var m := e.m;
    UpdateCommitFields(cfg, s.(progress := s.progress[m.from := Advanced(s.progress[m.from], m.matched)]));
  }

  lemma AppendRespSource(cfg: Config, n: NodeId, s: Node, e: Event)
    requires NodeOK(cfg, n, s) && e.Deliver? && e.m.AppendResp? && e.m.from in s.progress
    ensures MatchSource(n, s, e, HandleAppendResp(cfg, n, s, e.m, e.room).node)
  {
    hide FillPeer, IgnoresResp, Sends, Acknowledge, WindowInRange, MatchSource;
    var m := e.m;
    if m.term == s.term && s.role == Leader && !IgnoresResp(s, m) {
      var s1 := Acknowledge(cfg, s, m);
      AcknowledgeKeepsRange(cfg, s, m);
      AcknowledgeSource(cfg, n, s, e);
      FillSends(cfg, n, s1, m.from, e.room);
      SendsSource(n, s, e, s1, FillPeer(cfg, n, s1, m.from, e.room));
      SameProgressSource(n, s, e, s1, s1.(transferSent := m.from !in s1.paused));
    } else {
      UntouchedSource(n, s, e, HandleAppendResp(cfg, n, s, m, e.room).node);
    }
  }

  lemma SnapshotAckSource(cfg: Config, n: NodeId, s: Node, e: Event)
    requires NodeOK(cfg, n, s) && e.Deliver? && e.m.SnapshotAck?
    ensures MatchSource(n, s, e, SnapshotCompleted(cfg, n, s, e.m.from, e.m.index, e.room).node)
  {
    hide FillPeer, Sends;
    var p, index := e.m.from, e.m.index;
    if s.role == Leader && p in s.progress && p != n && 0 < index <= s.base {
      CompletedOK(cfg, n, s, p, index);
      var s1 := s.(progress := s.progress[p := Completed(s.progress[p], index)]);
      FillSends(cfg, n, s1, p, e.room);
      SendsSource(n, s, e, s1, FillPeer(cfg, n, s1, p, e.room));
    }
  }

  lemma ProposeSource(cfg: Config, n: NodeId, s: Node, e: Event)
    requires ValidConfig(cfg) && NodeOK(cfg, n, s) && e.Submit?
    ensures MatchSource(n, s, e, Propose(cfg, n, s, e.commands).node)
  {
    hide Broadcast, UpdateCommit, ValidProposals, ValidConfig, Sends;
    if s.role == Leader {
      var s1 := AppendLocal(n, s, Proposed(s, e.commands));
      AppendLocalRange(cfg, n, s, e.commands);
      UpdateCommitFields(cfg, s1);
      BroadcastSends(cfg, n, UpdateCommit(cfg, s1), cfg.peers);
      SendsSource(n, s, e, UpdateCommit(cfg, s1), Broadcast(cfg, n, UpdateCommit(cfg, s1), cfg.peers));
    }
  }

  lemma TickSource(cfg: Config, n: NodeId, s: Node, e: Event)
    requires NodeOK(cfg, n, s) && s.role == Leader && e.TickLeader?
    ensures MatchSource(n, s, e, LeaderTick(cfg, n, s, e.expired, e.heartbeat).node)
  {
    hide Broadcast, Sends;
    var s1 := ExpireWindows(s, e.expired);
    assert s1.progress.Keys == s.progress.Keys;
    BroadcastSends(cfg, n, s1, cfg.peers);
    SendsSource(n, s, e, s1, Broadcast(cfg, n, s1, cfg.peers));
  }

  lemma EmitSource(cfg: Config, n: NodeId, s0: Node, s: Node, e: Event, p: NodeId)
    requires ProgressInRange(cfg, s) && p in s.progress && MatchSource(n, s0, e, s)
    ensures MatchSource(n, s0, e, EmitReplication(cfg, n, s, p, false).node)
  {
    hide EmitReplication, Sends;
    EmitSends(cfg, n, s, p, false);
    SendsSource(n, s0, e, s, EmitReplication(cfg, n, s, p, false));
  }

  lemma ReceiveSource(cfg: Config, n: NodeId, s: Node, e: Event)
    requires NodeOK(cfg, n, s) && e.Deliver? && Deliverable(cfg, n, e.m)
    ensures MatchSource(n, s, e, Receive(cfg, n, s, e.m, e.room).node)
  {
    hide StartElection, BecomeLeader, HandleAppendResp, SnapshotCompleted;
    var m := e.m;
    if m.PreVoteResp? { ElectionSource(cfg, n, s, s.(preVotes := s.preVotes + {m.from}), e); }
    else if m.VoteResp? { LeadSource(cfg, n, s, s.(votes := s.votes + {m.from}), e); }
    else if m.AppendResp? { AppendRespSource(cfg, n, s, e); }
    else if m.TimeoutNow? { ElectionSource(cfg, n, s, s.(campaign := s.term + 1), e); }
    else if m.SnapshotAck? { SnapshotAckSource(cfg, n, s, e); }
  }

  /** Every call takes each match index from an acknowledgement of this term or from a snapshot completion. */
  lemma FireSource(cfg: Config, s: Node, e: Event)
    requires ValidConfig(cfg) && NodeOK(cfg, e.n, s)
    ensures MatchSource(e.n, s, e, Fire(cfg, s, e).node)
  {
    hide StartPreVote, LeaderTick, Receive, Propose, Transfer, EmitReplication, ValidConfig;
    var n := e.n;
    if e.Deliver? { if Deliverable(cfg, n, e.m) { ReceiveSource(cfg, n, s, e); } }
    else if e.ElectionTimeout? { if s.role != Leader { PreVoteSource(cfg, n, s, e); } }
    else if e.TickLeader? { if s.role == Leader { TickSource(cfg, n, s, e); } }
    else if e.Submit? { ProposeSource(cfg, n, s, e); }
    else if e.TransferTo? { TransferSource(cfg, n, s, e); }
    else if e.PollPeer? { if s.role == Leader && e.p in s.progress { EmitSource(cfg, n, s, s, e, e.p); } }
  }

  lemma PreVoteSource(cfg: Config, n: NodeId, s: Node, e: Event)
    requires NodeOK(cfg, n, s) && s.role != Leader
    ensures MatchSource(n, s, e, StartPreVote(cfg, n, s).node)
  {
    hide StartElection;
    ElectionSource(cfg, n, s,
      s.(role := PreCandidate, leaderId := 0, campaign := s.term + 1, preVotes := {n}, votes := {}), e);
  }

  lemma TransferSource(cfg: Config, n: NodeId, s: Node, e: Event)
    requires NodeOK(cfg, n, s) && e.TransferTo?
    ensures MatchSource(n, s, e, Transfer(cfg, n, s, e.target).node)
  {
    hide EmitReplication;
    if s.role == Leader && e.target in s.progress {
      EmitSource(cfg, n, s, s.(transferTarget := e.target, transferSent := false), e, e.target);
    }
  }

  lemma SourceConfirmed(c: Cluster, h: History, e: Event, s: Node, o: Out, h': History)
    requires Confirmed(c.net, h, e.n, s) && MatchSource(e.n, s, e, o.node) && Extends(h, h')
    requires s.base <= s.commit <= o.node.commit && (e.Deliver? ==> e.m in c.net && MsgOK(c, h, e.m))
    ensures Confirmed(c.net + o.msgs, h', e.n, o.node)
  {
    var s' := o.node;
    if s'.role == Leader {
      forall p | p in s'.progress && p != e.n
        ensures var m := s'.progress[p].matched;
          m == 0 || Acked(h', p, s'.term, m) || (m <= s'.commit && Installed(c.net + o.msgs, p, m))
      {
        var m := s'.progress[p].matched;
        assert Acked(h, p, s'.term, m) ==> Acked(h', p, s'.term, m);
        assert Installed(c.net, p, m) ==> Installed(c.net + o.msgs, p, m);
      }
    }
  }

  lemma ConfirmedExtends(net: set<Message>, net': set<Message>, h: History, h': History, n: NodeId, s: Node)
    requires Confirmed(net, h, n, s) && Extends(h, h') && net <= net'
    ensures Confirmed(net', h', n, s)
  {
    if s.role == Leader {
      forall p | p in s.progress && p != n
        ensures var m := s.progress[p].matched;
          m == 0 || Acked(h', p, s.term, m) || (m <= s.commit && Installed(net', p, m))
      {
        assert Installed(net, p, s.progress[p].matched) ==> Installed(net', p, s.progress[p].matched);
      }
    }
  }

  lemma StepConfirmed(cfg: Config, c: Cluster, h: History, e: Event, h': History, n: NodeId)
    requires ValidConfig(cfg) && Inv(cfg, c, h) && Enabled(cfg, c, e) && ClusterOK(cfg, c) && Extends(h, h')
    requires n in c.nodes
    requires Confirmed(c.net, h, n, c.nodes[n])
    ensures n in Next(cfg, c, e).nodes && Confirmed(Next(cfg, c, e).net, h', n, Next(cfg, c, e).nodes[n])
  {
    hide Inv, ValidConfig, Extends, Fire, NodeOK, Confirmed, MsgOK, MatchSource;
    if n != e.n {
      ConfirmedExtends(c.net, Next(cfg, c, e).net, h, h', n, c.nodes[n]);
    } else {
      if e.Deliver? { InvMsg(cfg, c, h, e.m); }
      NodeBounds(cfg, n, c.nodes[n]);
      FireSource(cfg, c.nodes[n], e);
      FireGrows(cfg, c, h, e);
      SourceConfirmed(c, h, e, c.nodes[n], Fire(cfg, c.nodes[n], e), h');
    }
  }

  lemma {:induction false} MatchesConfirmed(cfg: Config, cs: seq<Cluster>, es: seq<Event>, hs: seq<History>, n: NodeId,
                                            i: nat)
    requires IsRun(cfg, cs, es) && Recorded(cfg, cs, hs) && i < |cs| && n in cs[i].nodes
    ensures Confirmed(cs[i].net, hs[i], n, cs[i].nodes[n])
    decreases i
  {
    hide Inv, Extends, Next, ValidConfig, ClusterOK, Confirmed;
    if i == 0 {
      StartsFollowing(cfg, cs[0], n);
      FollowersConfirm(cs[0].net, hs[0], n, cs[0].nodes[n]);
    } else {
      StepAt(cfg, cs, es, i - 1);
      InvCluster(cfg, cs[i - 1], hs[i - 1]);
      StaysMember(cfg, cs[i - 1], es[i - 1], n);
      MatchesConfirmed(cfg, cs, es, hs, n, i - 1);
      StepConfirmed(cfg, cs[i - 1], hs[i - 1], es[i - 1], hs[i], n);
    }
  }

  lemma StartsFollowing(cfg: Config, c: Cluster, n: NodeId)
    requires Init(cfg, c) && n in c.nodes
    ensures c.nodes[n].role == Follower
  {
  }

  lemma FollowersConfirm(net: set<Message>, h: History, n: NodeId, s: Node)
    requires s.role != Leader
    ensures Confirmed(net, h, n, s)
  {
  }

  /** Node n took only timely snapshot completions before point i of the run. */
  predicate TimelyFor(cs: seq<Cluster>, es: seq<Event>, n: NodeId, i: nat)
    requires |cs| == |es| + 1 && i < |cs|
  {
    forall k :: 0 <= k < i && es[k].n == n && n in cs[k].nodes ==> Timely(cs[k].nodes[n], es[k])
  }

  lemma {:induction false} WindowsTile(cfg: Config, cs: seq<Cluster>, es: seq<Event>, n: NodeId, i: nat)
    requires IsRun(cfg, cs, es) && i < |cs| && n in cs[i].nodes && TimelyFor(cs, es, n, i)
    ensures Piped(cfg, n, cs[i].nodes[n])
    decreases i
  {
    hide Fire, ValidConfig, Piped, NodeOK, Timely;
    if i == 0 {
      StartsFollowing(cfg, cs[0], n);
      FollowersTile(cfg, n, cs[0].nodes[n]);
    } else {
      StepAt(cfg, cs, es, i - 1);
      StaysMember(cfg, cs[i - 1], es[i - 1], n);
      WindowsTile(cfg, cs, es, n, i - 1);
      if es[i - 1].n == n { FirePiped(cfg, cs[i - 1].nodes[n], es[i - 1]); }
    }
  }

  lemma FollowersTile(cfg: Config, n: NodeId, s: Node)
    requires s.role != Leader
    ensures Piped(cfg, n, s)
  {
  }

  /**
   Pipelining soundness.  At every point of every run, the match index of a
   peer in the leader's term names a prefix the peer really holds.  As long as
   the leader has taken only completions at or above the match index, its
   windows are tiled.
   */
  lemma PipeliningSound(cfg: Config, cs: seq<Cluster>, es: seq<Event>, i: nat, a: NodeId, p: NodeId)
    requires IsRun(cfg, cs, es) && i < |cs| && a in cs[i].nodes && p in cs[i].nodes
    requires cs[i].nodes[a].role == Leader && p in cs[i].nodes[a].progress
    ensures var s := cs[i].nodes[a];
      && s.progress[p].matched <= |s.log|
      && (cs[i].nodes[p].term == s.term ==> Agree(s.log, cs[i].nodes[p].log, s.progress[p].matched))
    ensures TimelyFor(cs, es, a, i) ==> PeerOK(cfg, cs[i].nodes[a].progress[p])
  {
    hide Step, Inv, PeerOK, LogOK, MatchesOK, TimelyFor, NodesBacked, NetBacked, Extends;
    var hs := BackedHistories(cfg, cs, es);
    var c, h, s := cs[i], hs[i], cs[i].nodes[a];
    InvNode(cfg, c, h, a);
    MatchesConfirmed(cfg, cs, es, hs, a, i);
    var m := s.progress[p].matched;
    if p != a && m > 0 && c.nodes[p].term == s.term {
      if Acked(h, p, s.term, m) { AckedPrefix(cfg, c, h, p, s.term, m); }
      else { InstalledPrefix(cfg, c, h, a, p, m); }
    }
    if TimelyFor(cs, es, a, i) { WindowsTile(cfg, cs, es, a, i); }
  }

  /** An installed snapshot is right, and so is what a leader has committed. */
  lemma InstalledPrefix(cfg: Config, c: Cluster, h: History, a: NodeId, p: NodeId, m: nat)
    requires Inv(cfg, c, h) && NodesBacked(cfg, c, h) && NetBacked(cfg, c, h) && a in c.nodes && p in c.nodes
    requires c.nodes[a].role == Leader && m <= c.nodes[a].commit && Installed(c.net, p, m)
    ensures Agree(c.nodes[a].log, c.nodes[p].log, m)
  {
    hide Inv, Committed, Backed;
    var ack :| ack in c.net && ack.SnapshotAck? && ack.from == p && ack.index == m;
    assert MsgBacked(cfg, c, h, ack);
    LeaderCommitted(cfg, c, h, a);
    CommittedLength(cfg, h, c.nodes[a].log, c.nodes[a].commit);
    CommittedCopy(cfg, h, c.nodes[a].log, c.nodes[a].commit, c.nodes[a].log, m);
    CommittedAgree(cfg, c, h, c.nodes[a].log, c.nodes[p].log, m);
  }

  lemma AckedPrefix(cfg: Config, c: Cluster, h: History, p: NodeId, t: nat, m: nat)
    requires Inv(cfg, c, h) && p in c.nodes && Acked(h, p, t, m) && c.nodes[p].term == t
    ensures t in h.ballots && Agree(h.ballots[t].log, c.nodes[p].log, m)
  {
    assert AckOK(c, h, (p, t));
    assert Unbroken(h, t, m, c.nodes[p].term);
  }
}
