/**
 A cluster of cores joined by a network that may lose, duplicate and reorder:
 sent messages are never removed, and any sent message may be delivered to its
 addressee at any time.  Each event below is one call into one core; the
 resulting state is durable before its messages become visible, which is the
 order the runtime enforces.
 */
module Cluster {
  import opened RaftTypes
  import opened RaftNode
  import L = RaftLog

  datatype Cluster = Cluster(nodes: map<NodeId, Node>, net: set<Message>)

  datatype Event =
    | ElectionTimeout(n: NodeId)
    | CheckQuorumFailed(n: NodeId)
    | TickLeader(n: NodeId, expired: set<NodeId>, heartbeat: bool)
    | TransferExpired(n: NodeId)
    | Deliver(n: NodeId, m: Message, room: nat)
    | Submit(n: NodeId, commands: seq<(nat, seq<Byte>)>)
    | TransferTo(n: NodeId, target: NodeId)
    | PollPeer(n: NodeId, p: NodeId)
    | SetPaused(n: NodeId, p: NodeId, on: bool)
    | StartRead(n: NodeId, p: NodeId, context: nat)
    | Compact(n: NodeId)
    | Reboot(n: NodeId)

  /** What each core call relies on; kept by every call. */
  predicate NodeOK(cfg: Config, n: NodeId, s: Node)
  {
    && s.base <= s.commit <= |s.log|
    && s.progress.Keys == Peers(cfg) && n in s.progress
    && (s.role == Leader ==> ProgressInRange(cfg, s) && WindowInRange(s))
  }

  predicate Deliverable(cfg: Config, n: NodeId, m: Message)
  {
    && m.to == n && m.from != n && m.from in cfg.peers
    && (m.from in cfg.voters || m.AppendResp? || m.SnapshotAck?)
    && (m.AppendReq? ==> |m.entries| <= MAX_APPEND_ENTRIES)
  }

  /** tr_raft_core_step: dispatch on the message type. */
  function Receive(cfg: Config, n: NodeId, s: Node, m: Message, room: nat): (o: Out)
    requires NodeOK(cfg, n, s) && m.from in cfg.peers
  {
    match m
    case PreVoteReq(_, _, _, _, _, _) => HandlePreVoteReq(cfg, n, s, m)
    case PreVoteResp(_, _, _, _, _) => HandlePreVoteResp(cfg, n, s, m)
    case VoteReq(_, _, _, _, _) => HandleVoteReq(cfg, n, s, m)
    case VoteResp(_, _, _, _) => HandleVoteResp(cfg, n, s, m)
    case AppendReq(_, _, _, _, _, _, _) => HandleAppendReq(cfg, n, s, m)
    case AppendResp(_, _, _, _, _, _, _, _) => HandleAppendResp(cfg, n, s, m, room)
    case TimeoutNow(_, _, _) => HandleTimeoutNow(cfg, n, s, m)
    case ReadReq(_, _, _, _) =>
      if n in cfg.voters && m.context != 0 && s.role == Follower && m.term == s.term && s.leaderId == m.from
      then Out(s, Emit(s, ReadResp(n, m.from, s.term, m.context))) else Out(s, {})
    case ReadResp(_, _, _, _) => if m.term > s.term then Out(BecomeFollower(s, m.term), {}) else Out(s, {})
    case SnapshotMsg(_, _, _, _) => InstallSnapshot(cfg, n, s, m)
    case SnapshotAck(_, _, _, _) => SnapshotCompleted(cfg, n, s, m.from, m.index, room)
  }

  /** One call into core n; a call its guards refuse changes nothing. */
  function Fire(cfg: Config, s: Node, e: Event): (o: Out)
    requires NodeOK(cfg, e.n, s)
  {
    var n := e.n;
    match e
    case ElectionTimeout(_) =>
      if s.role != Leader && n in cfg.voters && s.term != U64_MAX then StartPreVote(cfg, n, s) else Out(s, {})
    case CheckQuorumFailed(_) => if s.role == Leader then Out(BecomeFollower(s, s.term), {}) else Out(s, {})
    case TickLeader(_, expired, heartbeat) =>
      if s.role == Leader then LeaderTick(cfg, n, s, expired, heartbeat) else Out(s, {})
    case TransferExpired(_) => Out(s.(transferTarget := 0, transferSent := false), {})
    case Deliver(_, m, room) => if Deliverable(cfg, n, m) then Receive(cfg, n, s, m, room) else Out(s, {})
    case Submit(_, commands) => Propose(cfg, n, s, commands)
    case TransferTo(_, target) => Transfer(cfg, n, s, target)
    case PollPeer(_, p) =>
      if s.role == Leader && p in s.progress && p != n then EmitReplication(cfg, n, s, p, false) else Out(s, {})
    case SetPaused(_, p, on) =>
      if p in cfg.peers && p != n then Out(s.(paused := if on then s.paused + {p} else s.paused - {p}), {})
      else Out(s, {})
    case StartRead(_, p, context) =>
      if s.role == Leader && p in cfg.voters && p != n then Out(s, Emit(s, ReadReq(n, p, s.term, context)))
      else Out(s, {})
    case Compact(_) => Out(s.(base := s.commit), {})
    case Reboot(_) => Out(Restart(cfg, s), {})
  }

  predicate ClusterOK(cfg: Config, c: Cluster)
  {
    && c.nodes.Keys == Peers(cfg)
    && forall n :: n in c.nodes ==> NodeOK(cfg, n, c.nodes[n])
  }

  /** The event addresses a member and delivers only what was sent. */
  predicate Enabled(cfg: Config, c: Cluster, e: Event)
  {
    e.n in c.nodes && (e.Deliver? ==> e.m in c.net)
  }

  function Next(cfg: Config, c: Cluster, e: Event): (c': Cluster)
    requires ClusterOK(cfg, c) && Enabled(cfg, c, e)
  {
    Apply(c, e.n, Fire(cfg, c.nodes[e.n], e))
  }

  /** Core n moves to its new state and its messages join the network. */
  function Apply(c: Cluster, n: NodeId, o: Out): (c': Cluster)
  {
    Cluster(c.nodes[n := o.node], c.net + o.msgs)
  }

  function InitialNode(cfg: Config): (s: Node)
  {
    Node(Follower, 0, 0, 0, [], 0, 0, 0, {}, {}, FreshProgress(cfg), 0, false, {})
  }

  predicate Init(cfg: Config, c: Cluster)
  {
    && c.net == {}
    && c.nodes == map p | p in cfg.peers :: InitialNode(cfg)
  }

  // -------------------------------------------- node invariants are local

  lemma EmitKeepsWindow(cfg: Config, id: NodeId, s: Node, p: NodeId, heartbeat: bool)
    requires ProgressInRange(cfg, s) && WindowInRange(s) && p in s.progress
    ensures var s' := EmitReplication(cfg, id, s, p, heartbeat).node;
      ProgressInRange(cfg, s') && WindowInRange(s') && s' == s.(progress := s'.progress)
  {
    var s' := EmitReplication(cfg, id, s, p, heartbeat).node;
    EmitKeepsRange(cfg, id, s, p, heartbeat);
    forall q | q in s'.progress ensures StartsWithin(s'.progress[q].window, |s'.log|) {
      assert StartsWithin(s.progress[q].window, |s.log|);
    }
  }

  lemma {:induction false} BroadcastKeepsWindow(cfg: Config, id: NodeId, s: Node, ps: seq<NodeId>)
    requires ProgressInRange(cfg, s) && WindowInRange(s) && forall p :: p in ps ==> p in s.progress
    ensures var s' := Broadcast(cfg, id, s, ps).node; WindowInRange(s') && s' == s.(progress := s'.progress)
    decreases ps
  {
    if ps != [] {
      if ps[0] != id { EmitKeepsWindow(cfg, id, s, ps[0], true); }
      BroadcastKeepsWindow(cfg, id, if ps[0] == id then s else EmitReplication(cfg, id, s, ps[0], true).node, ps[1..]);
    }
  }

  lemma {:induction false} FillKeepsWindow(cfg: Config, id: NodeId, s: Node, p: NodeId, room: nat)
    requires ProgressInRange(cfg, s) && WindowInRange(s) && p in s.progress
    ensures var s' := FillPeer(cfg, id, s, p, room).node; WindowInRange(s') && s' == s.(progress := s'.progress)
    decreases room
  {
    hide EmitReplication, WindowInRange;
    EmitKeepsWindow(cfg, id, s, p, false);
    if room > 0 { FillKeepsWindow(cfg, id, EmitReplication(cfg, id, s, p, false).node, p, room - 1); }
  }

  lemma AcknowledgeKeepsWindow(cfg: Config, s: Node, m: Message)
    requires m.AppendResp? && m.from in s.progress && ProgressInRange(cfg, s) && !IgnoresResp(s, m) && WindowInRange(s)
    ensures var s' := Acknowledge(cfg, s, m);
      && ProgressInRange(cfg, s') && WindowInRange(s')
      && s' == s.(progress := s'.progress, commit := s'.commit) && s.commit <= s'.commit
      && (s.commit <= |s.log| ==> s'.commit <= |s'.log|)
  {
    hide UpdateCommit, IgnoresResp, Advanced, BackedOff, ProgressInRange;
    AcknowledgeKeepsRange(cfg, s, m);
    UpdateCommitFields(cfg, s.(progress := s.progress[m.from := Advanced(s.progress[m.from], m.matched)]));
    RespondedWindow(s, m);
    var s' := Acknowledge(cfg, s, m);
    assert s'.progress[m.from] == if m.granted then Advanced(s.progress[m.from], m.matched)
      else BackedOff(s.base, s.progress[m.from], m);
  }

  /** A response only takes requests out of the window. */
  lemma RespondedWindow(s: Node, m: Message)
    requires m.AppendResp? && m.from in s.progress && WindowInRange(s)
    ensures StartsWithin(Advanced(s.progress[m.from], m.matched).window, |s.log|)
    ensures StartsWithin(BackedOff(s.base, s.progress[m.from], m).window, |s.log|)
  {
    assert StartsWithin(s.progress[m.from].window, |s.log|);
  }

  lemma LeadKeepsOK(cfg: Config, n: NodeId, s: Node)
    requires ValidConfig(cfg) && NodeOK(cfg, n, s)
    ensures NodeOK(cfg, n, BecomeLeader(cfg, n, s).node)
  {
    var s1 := TakeLeadership(cfg, n, s);
    assert ProgressInRange(cfg, s1);
    BroadcastKeepsWindow(cfg, n, s1, cfg.peers);
  }

  lemma ElectionKeepsOK(cfg: Config, n: NodeId, s: Node)
    requires ValidConfig(cfg) && NodeOK(cfg, n, s)
    ensures NodeOK(cfg, n, StartElection(cfg, n, s).node)
  {
    LeadKeepsOK(cfg, n, Stand(n, s));
  }

  lemma AppendReqKeepsOK(cfg: Config, n: NodeId, s: Node, m: Message)
    requires ValidConfig(cfg) && NodeOK(cfg, n, s) && m.AppendReq?
    ensures NodeOK(cfg, n, HandleAppendReq(cfg, n, s, m).node)
  {
    L.ReconcileDropsOnlyConflicts(s.log, s.base, cfg.maxLog, m.prev, m.prevTerm, m.entries, s.commit);
  }

  lemma AppendRespKeepsOK(cfg: Config, n: NodeId, s: Node, m: Message, room: nat)
    requires ValidConfig(cfg) && NodeOK(cfg, n, s) && m.AppendResp? && m.from in cfg.peers
    ensures NodeOK(cfg, n, HandleAppendResp(cfg, n, s, m, room).node)
  {
    hide Respond, Acknowledge, IgnoresResp, ProgressInRange, WindowInRange;
    if s.role == Leader && m.term == s.term && !IgnoresResp(s, m) {
      AcknowledgeKeepsWindow(cfg, s, m);
      AcknowledgeRange(cfg, s, m);
      RespondKeepsOK(cfg, n, Acknowledge(cfg, s, m), m.from, m.granted, room);
    }
  }

  lemma AcknowledgeRange(cfg: Config, s: Node, m: Message)
    requires m.AppendResp? && m.from in s.progress
    ensures Acknowledge(cfg, s, m).progress.Keys == s.progress.Keys
  {
    hide UpdateCommit;
    UpdateCommitFields(cfg, s.(progress := s.progress[m.from := Advanced(s.progress[m.from], m.matched)]));
  }

  lemma RespondKeepsOK(cfg: Config, n: NodeId, s: Node, p: NodeId, granted: bool, room: nat)
    requires NodeOK(cfg, n, s) && s.role == Leader && p in s.progress
    ensures NodeOK(cfg, n, Respond(cfg, n, s, p, granted, room).node)
  {
    hide FillPeer;
    FillKeepsWindow(cfg, n, s, p, room);
  }

  lemma PreVoteRespKeepsOK(cfg: Config, n: NodeId, s: Node, m: Message)
    requires ValidConfig(cfg) && NodeOK(cfg, n, s) && m.PreVoteResp?
    ensures NodeOK(cfg, n, HandlePreVoteResp(cfg, n, s, m).node)
  {
    ElectionKeepsOK(cfg, n, s.(preVotes := s.preVotes + {m.from}));
  }

  lemma VoteRespKeepsOK(cfg: Config, n: NodeId, s: Node, m: Message)
    requires ValidConfig(cfg) && NodeOK(cfg, n, s) && m.VoteResp?
    ensures NodeOK(cfg, n, HandleVoteResp(cfg, n, s, m).node)
  {
    LeadKeepsOK(cfg, n, s.(votes := s.votes + {m.from}));
  }

  lemma TimeoutNowKeepsOK(cfg: Config, n: NodeId, s: Node, m: Message)
    requires ValidConfig(cfg) && NodeOK(cfg, n, s) && m.TimeoutNow?
    ensures NodeOK(cfg, n, HandleTimeoutNow(cfg, n, s, m).node)
  {
    ElectionKeepsOK(cfg, n, s.(campaign := s.term + 1));
  }

  lemma SnapshotCompletedKeepsOK(cfg: Config, n: NodeId, s: Node, p: NodeId, index: nat, room: nat)
    requires ValidConfig(cfg) && NodeOK(cfg, n, s)
    ensures NodeOK(cfg, n, SnapshotCompleted(cfg, n, s, p, index, room).node)
  {
    if s.role == Leader && index <= s.base && p in s.progress {
      var pr := Progress(index + 1, Max(s.progress[p].matched, index), [], true);
      var s1 := s.(progress := s.progress[p := pr]);
      assert ProgressInRange(cfg, s1) && WindowInRange(s1);
      FillKeepsWindow(cfg, n, s1, p, room);
    }
  }

  lemma ReceiveKeepsOK(cfg: Config, n: NodeId, s: Node, m: Message, room: nat)
    requires ValidConfig(cfg) && NodeOK(cfg, n, s) && m.from in cfg.peers
    ensures NodeOK(cfg, n, Receive(cfg, n, s, m, room).node)
  {
    if m.PreVoteResp? { PreVoteRespKeepsOK(cfg, n, s, m); }
    else if m.VoteResp? { VoteRespKeepsOK(cfg, n, s, m); }
    else if m.AppendReq? { AppendReqKeepsOK(cfg, n, s, m); }
    else if m.AppendResp? { AppendRespKeepsOK(cfg, n, s, m, room); }
    else if m.TimeoutNow? { TimeoutNowKeepsOK(cfg, n, s, m); }
    else if m.SnapshotAck? { SnapshotCompletedKeepsOK(cfg, n, s, m.from, m.index, room); }
  }

  lemma ProposeKeepsOK(cfg: Config, n: NodeId, s: Node, commands: seq<(nat, seq<Byte>)>)
    requires ValidConfig(cfg) && NodeOK(cfg, n, s)
    ensures NodeOK(cfg, n, Propose(cfg, n, s, commands).node)
  {
    if s.role == Leader {
      var s1 := AppendLocal(n, s, Proposed(s, commands));
      forall q | q in s1.progress ensures StartsWithin(s1.progress[q].window, |s1.log|) {
        assert StartsWithin(s.progress[q].window, |s.log|);
      }
      assert ProgressInRange(cfg, s1) && WindowInRange(s1);
      BroadcastKeepsWindow(cfg, n, UpdateCommit(cfg, s1), cfg.peers);
    }
  }

  lemma PreVoteKeepsOK(cfg: Config, n: NodeId, s: Node)
    requires ValidConfig(cfg) && NodeOK(cfg, n, s) && s.role != Leader
    ensures NodeOK(cfg, n, StartPreVote(cfg, n, s).node)
  {
    hide StartElection, IsQuorum, ProgressInRange, WindowInRange;
    ElectionKeepsOK(cfg, n,
      s.(role := PreCandidate, leaderId := 0, campaign := s.term + 1, preVotes := {n}, votes := {}));
  }

  lemma TickKeepsOK(cfg: Config, n: NodeId, s: Node, expired: set<NodeId>, heartbeat: bool)
    requires ValidConfig(cfg) && NodeOK(cfg, n, s) && s.role == Leader
    ensures NodeOK(cfg, n, LeaderTick(cfg, n, s, expired, heartbeat).node)
  {
    var s1 := ExpireWindows(s, expired);
    assert ProgressInRange(cfg, s1) && WindowInRange(s1);
    BroadcastKeepsWindow(cfg, n, s1, cfg.peers);
  }

  lemma TransferKeepsOK(cfg: Config, n: NodeId, s: Node, target: NodeId)
    requires ValidConfig(cfg) && NodeOK(cfg, n, s)
    ensures NodeOK(cfg, n, Transfer(cfg, n, s, target).node)
  {
    if s.role == Leader && target in s.progress {
      EmitKeepsWindow(cfg, n, s.(transferTarget := target, transferSent := false), target, false);
    }
  }

  /** Every call keeps the core's own invariant, whatever it is given. */
  lemma FireKeepsOK(cfg: Config, s: Node, e: Event)
    requires ValidConfig(cfg) && NodeOK(cfg, e.n, s)
    ensures NodeOK(cfg, e.n, Fire(cfg, s, e).node)
  {
    if e.ElectionTimeout? { if s.role != Leader { PreVoteKeepsOK(cfg, e.n, s); } }
    else if e.TickLeader? { if s.role == Leader { TickKeepsOK(cfg, e.n, s, e.expired, e.heartbeat); } }
    else if e.Deliver? { if Deliverable(cfg, e.n, e.m) { ReceiveKeepsOK(cfg, e.n, s, e.m, e.room); } }
    else if e.Submit? { ProposeKeepsOK(cfg, e.n, s, e.commands); }
    else if e.TransferTo? { TransferKeepsOK(cfg, e.n, s, e.target); }
    else if e.PollPeer? { if s.role == Leader && e.p in s.progress { EmitKeepsWindow(cfg, e.n, s, e.p, false); } }
  }

  lemma ApplyKeepsOK(cfg: Config, c: Cluster, n: NodeId, o: Out)
    requires ClusterOK(cfg, c) && n in c.nodes && NodeOK(cfg, n, o.node)
    ensures ClusterOK(cfg, Apply(c, n, o))
  {
    var c' := Apply(c, n, o);
    assert c'.nodes.Keys == c.nodes.Keys;
    forall k | k in c'.nodes ensures NodeOK(cfg, k, c'.nodes[k]) {
      if k == n {
        assert c'.nodes[k] == o.node;
      } else {
        assert c'.nodes[k] == c.nodes[k];
        assert NodeOK(cfg, k, c.nodes[k]);
      }
    }
  }

  lemma NextKeepsOK(cfg: Config, c: Cluster, e: Event)
    requires ValidConfig(cfg) && ClusterOK(cfg, c) && Enabled(cfg, c, e)
    ensures ClusterOK(cfg, Next(cfg, c, e))
  {
    FireKeepsOK(cfg, c.nodes[e.n], e);
    ApplyKeepsOK(cfg, c, e.n, Fire(cfg, c.nodes[e.n], e));
  }
}
