/** Responses, snapshots and local calls keep the cluster invariant, and so does every event. */
module ClusterProgress {
  import opened RaftTypes
  import opened RaftNode
  import opened Cluster
  import opened ClusterInvariant
  import opened ClusterSteps
  import opened ClusterGrowth
  import opened ClusterAppend
  import opened ClusterCalls
  import opened ClusterReceive

  // ------------------------------------------------------- append responses

  lemma AcknowledgeMatches(cfg: Config, h: History, s: Node, m: Message)
    requires MatchesOK(h, s) && m.AppendResp? && m.from in s.progress && m.term == s.term
    requires m.granted ==> Acked(h, m.from, m.term, m.matched)
    ensures MatchesOK(h, Acknowledge(cfg, s, m))
  {
    var s' := Acknowledge(cfg, s, m);
    forall p, i | p in s'.progress && 1 <= i <= s'.progress[p].matched && i <= |s'.log| && s'.log[i - 1].term == s'.term
      ensures Acked(h, p, s'.term, i)
    {
      if p == m.from && i > s.progress[p].matched { assert i <= m.matched; }
    }
  }

  lemma AcknowledgeQuiet(cfg: Config, h: History, n: NodeId, s: Node, m: Message)
    requires NodeOK(cfg, n, s) && LeaderOK(h, n, s) && CandidateOK(cfg, h, n, s) && s.role == Leader
    requires m.AppendResp? && m.from in s.progress && m.term == s.term && !IgnoresResp(s, m)
    requires m.granted ==> Acked(h, m.from, m.term, m.matched)
    ensures var s' := Acknowledge(cfg, s, m);
      Quiet(cfg, h, n, s, s') && NodeOK(cfg, n, s') && s'.role == Leader && m.from in s'.progress
  {
    AcknowledgeMatches(cfg, h, s, m);
    AcknowledgeKeepsWindow(cfg, s, m);
  }

  lemma AppendRespInv(cfg: Config, c: Cluster, h: History, n: NodeId, m: Message, room: nat)
    requires ValidConfig(cfg) && Inv(cfg, c, h) && n in c.nodes && m.AppendResp? && m in c.net && m.from in cfg.peers
    ensures NodeOK(cfg, n, c.nodes[n]) && m.from in c.nodes[n].progress
    ensures Inv(cfg, Apply(c, n, HandleAppendResp(cfg, n, c.nodes[n], m, room)), h)
  {
    hide Inv, ValidConfig, BecomeFollower, LogOK, IgnoresResp, Acknowledge, Respond, Quiet;
    var s := c.nodes[n];
    InvNode(cfg, c, h, n);
    InvMsg(cfg, c, h, m);
    FollowApply(cfg, c, h, n, m.term);
    IdleApply(cfg, c, h, n);
    if s.role == Leader && m.term == s.term && !IgnoresResp(s, m) {
      var s1 := Acknowledge(cfg, s, m);
      AcknowledgeQuiet(cfg, h, n, s, m);
      QuietInv(cfg, c, h, n, s1);
      RespondInv(cfg, With(c, n, s1), h, n, m.from, m.granted, room);
      ApplyAfter(c, n, s1, Respond(cfg, n, s1, m.from, m.granted, room));
    }
  }

  lemma RespondInv(cfg: Config, c: Cluster, h: History, n: NodeId, p: NodeId, granted: bool, room: nat)
    requires Inv(cfg, c, h) && n in c.nodes && c.nodes[n].role == Leader && p in c.nodes[n].progress
    ensures ProgressInRange(cfg, c.nodes[n])
    ensures Inv(cfg, Apply(c, n, Respond(cfg, n, c.nodes[n], p, granted, room)), h)
  {
    hide Inv, LogOK, FillPeer;
    var s := c.nodes[n];
    InvNode(cfg, c, h, n);
    FillInv(cfg, c, h, n, p, room);
    IdleApply(cfg, c, h, n);
    var s' := s.(transferSent := p !in s.paused);
    MatchesKept(h, s, s');
    QuietInv(cfg, c, h, n, s');
    HandOverInv(cfg, With(c, n, s'), h, Emit(s, TimeoutNow(n, p, s.term)));
  }

  lemma HandOverInv(cfg: Config, c: Cluster, h: History, ms: set<Message>)
    requires Inv(cfg, c, h) && forall m :: m in ms ==> m.TimeoutNow?
    ensures Inv(cfg, c.(net := c.net + ms), h)
  {
    hide Inv;
    AddMessages(cfg, c, h, ms);
  }

  // --------------------------------------------------------------- snapshots

  /** A snapshot the leader sent is its own log's prefix; installing it takes that prefix. */
  lemma InstallTakes(h: History, log: seq<Entry>, g: seq<Entry>, index: nat)
    requires Sound(h, log) && Sound(h, g) && 1 <= index <= |g|
    ensures var log' := if index <= |log| && TermAt(log, index) == LastTerm(g[..index])
                        then g[..index] + log[index..] else g[..index];
      TakesPrefix(log, log', g, index)
  {
    if index <= |log| && TermAt(log, index) == LastTerm(g[..index]) {
      SameTermAgrees(h, log, g, index);
      assert g[..index] + log[index..] == log;
    } else if index <= |log| {
      assert log[index - 1] != g[index - 1];
    }
  }

  /** The restarted core before the snapshot replaces its log. */
  function Resumed(cfg: Config, s: Node, term: nat): (s': Node)
  {
    Restart(cfg, s.(term := term, votedFor := if term > s.term then 0 else s.votedFor))
  }

  lemma ResumedInv(cfg: Config, c: Cluster, h: History, n: NodeId, t: nat)
    requires Inv(cfg, c, h) && n in c.nodes && t >= c.nodes[n].term
    ensures Inv(cfg, With(c, n, Resumed(cfg, c.nodes[n], t)), h)
    ensures NodeOK(cfg, n, Resumed(cfg, c.nodes[n], t))
  {
    hide Inv, LogOK, LeaderOK;
    var s := c.nodes[n];
    InvNode(cfg, c, h, n);
    assert FreshProgress(cfg).Keys == Peers(cfg);
    if t > s.term { RaisedInv(cfg, c, h, n, Resumed(cfg, s, t)); }
    else { QuietInv(cfg, c, h, n, Resumed(cfg, s, t)); }
  }

  lemma InvBallots(cfg: Config, c: Cluster, h: History)
    requires Inv(cfg, c, h)
    ensures BallotsOK(cfg, c, h)
  {
  }

  lemma InvBallot(cfg: Config, c: Cluster, h: History, t: nat)
    requires Inv(cfg, c, h) && t in h.ballots
    ensures BallotOK(cfg, c, h, t)
  {
  }

  lemma SnapshotTakes(cfg: Config, c: Cluster, h: History, n: NodeId, m: Message)
    requires Inv(cfg, c, h) && n in c.nodes && m.SnapshotMsg? && m in c.net
    requires m.term >= c.nodes[n].term && |m.prefix| > c.nodes[n].base && |m.prefix| >= c.nodes[n].commit
    ensures Takes(h, Resumed(cfg, c.nodes[n], m.term), InstallSnapshot(cfg, n, c.nodes[n], m).node, |m.prefix|)
  {
    hide Inv, Sound, BelowLaterBallots;
    var s := c.nodes[n];
    InvMsg(cfg, c, h, m);
    InvNode(cfg, c, h, n);
    InvBallot(cfg, c, h, m.term);
    InstallTakes(h, s.log, h.ballots[m.term].log, |m.prefix|);
  }

  lemma InstalledOK(cfg: Config, n: NodeId, s: Node, m: Message)
    requires m.SnapshotMsg? && NodeOK(cfg, n, s)
    ensures NodeOK(cfg, n, InstallSnapshot(cfg, n, s, m).node)
  {
    assert FreshProgress(cfg).Keys == Peers(cfg);
  }

  lemma AckedSnapshotOK(c: Cluster, h: History, n: NodeId, s': Node, m: Message)
    requires m.SnapshotMsg? && MsgOK(c, h, m) && n in c.nodes && s'.base >= c.nodes[n].base
    ensures MsgOK(With(c, n, s'), RecordAck(h, n, m.term, |m.prefix|), SnapshotAck(n, m.from, m.term, |m.prefix|))
  {
    AckRecorded(h, n, m.term, |m.prefix|);
    assert RecordAck(h, n, m.term, |m.prefix|).ballots == h.ballots;
  }

  lemma SnapshotInv(cfg: Config, c: Cluster, h: History, n: NodeId, m: Message) returns (h': History)
    requires Inv(cfg, c, h) && n in c.nodes && m.SnapshotMsg? && m in c.net
    ensures Inv(cfg, Apply(c, n, InstallSnapshot(cfg, n, c.nodes[n], m)), h') && Extends(h, h')
  {
    hide Inv, Takes, Extends, MsgOK, LogOK, LeaderOK, CandidateOK, Restart, NodeOK;
    var s := c.nodes[n];
    h' := h;
    ExtendsItself(h);
    IdleApply(cfg, c, h, n);
    if m.term >= s.term && |m.prefix| > s.base && |m.prefix| >= s.commit {
      InvNode(cfg, c, h, n);
      InvMsg(cfg, c, h, m);
      var o := InstallSnapshot(cfg, n, s, m);
      var s0 := Resumed(cfg, s, m.term);
      ResumedInv(cfg, c, h, n, m.term);
      SnapshotTakes(cfg, c, h, n, m);
      InstalledOK(cfg, n, s, m);
      InstalledFields(cfg, n, s, m);
      var c0 := With(c, n, s0);
      TakeInv(cfg, c0, h, n, o.node, |m.prefix|);
      h' := RecordAck(h, n, m.term, |m.prefix|);
      AckedSnapshotOK(c, h, n, o.node, m);
      ApplyAfter(c, n, s0, Out(o.node, {}));
      ApplyNothing(c0, n, o.node);
      ApplyNothing(c, n, o.node);
      AddMessages(cfg, With(c, n, o.node), h', o.msgs);
    }
  }

  lemma InstalledFields(cfg: Config, n: NodeId, s: Node, m: Message)
    requires m.SnapshotMsg? && m.term >= s.term && |m.prefix| > s.base && |m.prefix| >= s.commit
    ensures var o := InstallSnapshot(cfg, n, s, m);
      o.node.term == m.term && o.node.base == |m.prefix| && o.msgs == {SnapshotAck(n, m.from, m.term, |m.prefix|)}
  {
  }

  lemma BelowTerm(h: History, n: NodeId, t: nat, i: nat, u: nat)
    requires BelowLaterBallots(h, n, t, i) && u in h.ballots && u > t && h.ballots[u].leader == n
    ensures i <= |h.ballots[u].log| && forall j :: 0 <= j < i ==> h.ballots[u].log[j].term < u
  {
    var below := h.ballots[u].log[..i];
    forall j | 0 <= j < i ensures h.ballots[u].log[j].term < u { assert below[j].term <= u - 1; }
  }

  /** A late acknowledgement of an earlier term's snapshot covers no entry of the current term. */
  lemma CompletedMatches(cfg: Config, c: Cluster, h: History, n: NodeId, m: Message, pr: Progress)
    requires BallotsOK(cfg, c, h) && n in c.nodes && c.nodes[n].role == Leader && LeaderOK(h, n, c.nodes[n])
    requires m.SnapshotAck? && MsgOK(c, h, m) && m.to == n && m.from in c.nodes[n].progress
    requires pr.matched == Max(c.nodes[n].progress[m.from].matched, m.index)
    ensures MatchesOK(h, c.nodes[n].(progress := c.nodes[n].progress[m.from := pr]))
  {
    var s := c.nodes[n];
    var s' := s.(progress := s.progress[m.from := pr]);
    NoLaterBallots(cfg, c, h, n);
    if m.term < s.term { BelowTerm(h, n, m.term, m.index, s.term); }
    forall p, i | p in s'.progress && 1 <= i <= s'.progress[p].matched && i <= |s'.log| && s'.log[i - 1].term == s'.term
      ensures Acked(h, p, s'.term, i)
    {
      if p == m.from { assert m.index < i || m.term == s.term; }
    }
  }

  lemma CompletedQuiet(cfg: Config, c: Cluster, h: History, n: NodeId, m: Message)
    requires Inv(cfg, c, h) && n in c.nodes && m.SnapshotAck? && m in c.net && m.to == n
    requires c.nodes[n].role == Leader && m.from in c.nodes[n].progress && m.index <= c.nodes[n].base
    ensures var s := c.nodes[n];
      var pr := Progress(m.index + 1, Max(s.progress[m.from].matched, m.index), [], true);
      var s' := s.(progress := s.progress[m.from := pr]);
      Quiet(cfg, h, n, s, s') && NodeOK(cfg, n, s')
  {
    hide Inv, NodeOK, BallotsOK, MsgOK, LogOK, MatchesOK;
    var s := c.nodes[n];
    var pr := Progress(m.index + 1, Max(s.progress[m.from].matched, m.index), [], true);
    InvNode(cfg, c, h, n);
    InvMsg(cfg, c, h, m);
    InvBallots(cfg, c, h);
    CompletedMatches(cfg, c, h, n, m, pr);
    CompletedOK(cfg, n, s, m.from, m.index);
  }

  lemma CompletedOK(cfg: Config, n: NodeId, s: Node, p: NodeId, index: nat)
    requires NodeOK(cfg, n, s) && s.role == Leader && p in s.progress && index <= s.base
    ensures NodeOK(cfg, n,
      s.(progress := s.progress[p := Progress(index + 1, Max(s.progress[p].matched, index), [], true)]))
  {
    var s' := s.(progress := s.progress[p := Progress(index + 1, Max(s.progress[p].matched, index), [], true)]);
    assert s'.progress.Keys == s.progress.Keys;
  }

  lemma SnapshotAckInv(cfg: Config, c: Cluster, h: History, n: NodeId, m: Message, room: nat)
    requires Inv(cfg, c, h) && n in c.nodes && m.SnapshotAck? && m in c.net && m.to == n
    ensures NodeOK(cfg, n, c.nodes[n])
    ensures Inv(cfg, Apply(c, n, SnapshotCompleted(cfg, n, c.nodes[n], m.from, m.index, room)), h)
  {
    hide Inv, LogOK, LeaderOK, CandidateOK, FillPeer, Quiet;
    var s := c.nodes[n];
    InvNode(cfg, c, h, n);
    IdleApply(cfg, c, h, n);
    if s.role == Leader && m.from in s.progress && m.index <= s.base {
      var pr := Progress(m.index + 1, Max(s.progress[m.from].matched, m.index), [], true);
      var s1 := s.(progress := s.progress[m.from := pr]);
      CompletedQuiet(cfg, c, h, n, m);
      QuietInv(cfg, c, h, n, s1);
      FillInv(cfg, With(c, n, s1), h, n, m.from, room);
      ApplyAfter(c, n, s1, FillPeer(cfg, n, s1, m.from, room));
    }
  }

  // -------------------------------------------------------------- local calls

  lemma AppendLocalGrows(cfg: Config, h: History, n: NodeId, s: Node, commands: seq<(nat, seq<Byte>)>)
    requires NodeOK(cfg, n, s) && s.role == Leader && LogOK(h, s) && s.term >= 1
    ensures var s' := AppendLocal(n, s, Proposed(s, commands));
      Grows(s, s') && GrowsOwnMatch(n, s, s') && NodeOK(cfg, n, s')
  {
    var s' := AppendLocal(n, s, Proposed(s, commands));
    forall q | q in s'.progress ensures StartsWithin(s'.progress[q].window, |s'.log|) {
      assert StartsWithin(s.progress[q].window, |s.log|);
    }
    assert s'.progress.Keys == s.progress.Keys;
  }

  lemma CommitQuiet(cfg: Config, h: History, n: NodeId, s: Node)
    requires NodeOK(cfg, n, s) && LeaderOK(h, n, s) && CandidateOK(cfg, h, n, s)
    ensures Quiet(cfg, h, n, s, UpdateCommit(cfg, s)) && NodeOK(cfg, n, UpdateCommit(cfg, s))
  {
    if s.role == Leader { MatchesKept(h, s, UpdateCommit(cfg, s)); }
  }

  lemma LeaderTerm(cfg: Config, c: Cluster, h: History, n: NodeId)
    requires Inv(cfg, c, h) && n in c.nodes && c.nodes[n].role == Leader
    ensures c.nodes[n].term >= 1
  {
    assert LeaderOK(h, n, c.nodes[n]);
    assert BallotOK(cfg, c, h, c.nodes[n].term);
  }

  lemma ProposeInv(cfg: Config, c: Cluster, h: History, n: NodeId, commands: seq<(nat, seq<Byte>)>)
    returns (h': History)
    requires ValidConfig(cfg) && Inv(cfg, c, h) && n in c.nodes
    ensures NodeOK(cfg, n, c.nodes[n])
    ensures Inv(cfg, Apply(c, n, Propose(cfg, n, c.nodes[n], commands)), h') && Extends(h, h')
  {
    hide Inv, Extends, LogOK, LeaderOK, CandidateOK, Broadcast, Quiet, Grows, GrowsOwnMatch, UpdateCommit, AppendLocal,
      ValidProposals;
    var s := c.nodes[n];
    InvNode(cfg, c, h, n);
    h' := h;
    ExtendsItself(h);
    IdleApply(cfg, c, h, n);
    if ValidProposals(commands) && s.role == Leader && s.transferTarget == 0 &&
       |s.log| - s.base + |commands| <= cfg.maxLog
    {
      var s1 := AppendLocal(n, s, Proposed(s, commands));
      LeaderTerm(cfg, c, h, n);
      AppendLocalGrows(cfg, h, n, s, commands);
      GrowInv(cfg, c, h, n, s1);
      h' := RecordAppend(h, n, s1);
      var c1 := With(c, n, s1);
      InvNode(cfg, c1, h', n);
      var s2 := UpdateCommit(cfg, s1);
      CommitQuiet(cfg, h', n, s1);
      QuietInv(cfg, c1, h', n, s2);
      var c2 := With(c1, n, s2);
      GrownFields(cfg, n, s, commands);
      BroadcastInv(cfg, c2, h', n, cfg.peers);
      ApplyAfter(c, n, s1, Broadcast(cfg, n, s2, cfg.peers));
      ApplyAfter(c1, n, s2, Broadcast(cfg, n, s2, cfg.peers));
    }
  }

  lemma GrownFields(cfg: Config, n: NodeId, s: Node, commands: seq<(nat, seq<Byte>)>)
    requires n in s.progress
    ensures var s2 := UpdateCommit(cfg, AppendLocal(n, s, Proposed(s, commands)));
      s2.role == s.role && s2.progress.Keys == s.progress.Keys
  {
  }

  lemma ExpireQuiet(cfg: Config, h: History, n: NodeId, s: Node, expired: set<NodeId>)
    requires NodeOK(cfg, n, s) && LeaderOK(h, n, s) && CandidateOK(cfg, h, n, s) && s.role == Leader
    ensures Quiet(cfg, h, n, s, ExpireWindows(s, expired)) && NodeOK(cfg, n, ExpireWindows(s, expired))
  {
    MatchesKept(h, s, ExpireWindows(s, expired));
    assert ExpireWindows(s, expired).progress.Keys == s.progress.Keys;
  }

  lemma TickInv(cfg: Config, c: Cluster, h: History, n: NodeId, expired: set<NodeId>, heartbeat: bool)
    requires ValidConfig(cfg) && Inv(cfg, c, h) && n in c.nodes && c.nodes[n].role == Leader
    ensures NodeOK(cfg, n, c.nodes[n])
    ensures Inv(cfg, Apply(c, n, LeaderTick(cfg, n, c.nodes[n], expired, heartbeat)), h)
  {
    hide Inv, LogOK, LeaderOK, CandidateOK, Broadcast, Quiet;
    var s := c.nodes[n];
    InvNode(cfg, c, h, n);
    var s1 := ExpireWindows(s, expired);
    ExpireQuiet(cfg, h, n, s, expired);
    QuietInv(cfg, c, h, n, s1);
    ApplyNothing(c, n, s1);
    BroadcastInv(cfg, With(c, n, s1), h, n, cfg.peers);
    ApplyAfter(c, n, s1, Broadcast(cfg, n, s1, cfg.peers));
  }

  lemma TransferInv(cfg: Config, c: Cluster, h: History, n: NodeId, target: NodeId)
    requires Inv(cfg, c, h) && n in c.nodes
    ensures NodeOK(cfg, n, c.nodes[n])
    ensures Inv(cfg, Apply(c, n, Transfer(cfg, n, c.nodes[n], target)), h)
  {
    hide Inv, LogOK, EmitReplication;
    var s := c.nodes[n];
    InvNode(cfg, c, h, n);
    IdleApply(cfg, c, h, n);
    if s.role == Leader && target in s.progress {
      var s1 := s.(transferTarget := target, transferSent := false);
      MatchesKept(h, s, s1);
      QuietInv(cfg, c, h, n, s1);
      EmitInv(cfg, With(c, n, s1), h, n, target, false);
      ApplyAfter(c, n, s1, EmitReplication(cfg, n, s1, target, false));
      var s2 := s1.(transferSent := true);
      MatchesKept(h, s, s2);
      QuietApply(cfg, c, h, n, Out(s2, {TimeoutNow(n, target, s.term)}));
    }
  }

  /** Calls that change no log, term or vote and send only read traffic. */
  lemma PlainInv(cfg: Config, c: Cluster, h: History, n: NodeId, o: Out)
    requires Inv(cfg, c, h) && n in c.nodes && NodeOK(cfg, n, o.node)
    requires var s := c.nodes[n]; var s' := o.node;
      && s'.term == s.term && s'.votedFor == s.votedFor && s'.log == s.log && s'.base >= s.base
      && (|| (s'.role == s.role && s'.progress == s.progress && s'.votes == s.votes && s'.campaign == s.campaign)
          || (s'.role == Follower && s'.campaign == 0))
    requires forall m :: m in o.msgs ==> m.ReadReq? || m.ReadResp?
    ensures Inv(cfg, Apply(c, n, o), h)
  {
    hide Inv;
    InvNode(cfg, c, h, n);
    if o.node.role == Leader { MatchesKept(h, c.nodes[n], o.node); }
    QuietApply(cfg, c, h, n, o);
  }

  // --------------------------------------------------------------- all events

  lemma ReceiveInv(cfg: Config, c: Cluster, h: History, n: NodeId, m: Message, room: nat) returns (h': History)
    requires ValidConfig(cfg) && Inv(cfg, c, h) && n in c.nodes && m in c.net && Deliverable(cfg, n, m)
    ensures NodeOK(cfg, n, c.nodes[n])
    ensures Inv(cfg, Apply(c, n, Receive(cfg, n, c.nodes[n], m, room)), h') && Extends(h, h')
  {
    hide Inv, ValidConfig, Extends, LogOK, LeaderOK, CandidateOK, HandlePreVoteReq, HandlePreVoteResp, HandleVoteReq,
         HandleVoteResp, HandleAppendReq, HandleAppendResp, HandleTimeoutNow, InstallSnapshot, SnapshotCompleted,
         NodeOK, BecomeFollower;
    InvNode(cfg, c, h, n);
    h' := h;
    ExtendsItself(h);
    match m
    case PreVoteReq(_, _, _, _, _, _) => PreVoteReqInv(cfg, c, h, n, m);
    case PreVoteResp(_, _, _, _, _) => h' := PreVoteRespInv(cfg, c, h, n, m);
    case VoteReq(_, _, _, _, _) => h' := VoteReqInv(cfg, c, h, n, m);
    case VoteResp(_, _, _, _) => h' := VoteRespInv(cfg, c, h, n, m);
    case AppendReq(_, _, _, _, _, _, _) => h' := AppendReqInv(cfg, c, h, n, m);
    case AppendResp(_, _, _, _, _, _, _, _) => AppendRespInv(cfg, c, h, n, m, room);
    case TimeoutNow(_, _, _) => h' := TimeoutNowInv(cfg, c, h, n, m);
    case ReadReq(_, _, _, _) => PlainInv(cfg, c, h, n, Receive(cfg, n, c.nodes[n], m, room));
    case ReadResp(_, _, _, _) => FollowApply(cfg, c, h, n, m.term); IdleApply(cfg, c, h, n);
    case SnapshotMsg(_, _, _, _) => h' := SnapshotInv(cfg, c, h, n, m);
    case SnapshotAck(_, _, _, _) => SnapshotAckInv(cfg, c, h, n, m, room);
  }

  lemma RestartOK(cfg: Config, n: NodeId, s: Node)
    requires NodeOK(cfg, n, s)
    ensures NodeOK(cfg, n, Restart(cfg, s))
  {
    assert FreshProgress(cfg).Keys == Peers(cfg);
  }

  lemma PlainEvent(cfg: Config, c: Cluster, h: History, e: Event)
    requires Inv(cfg, c, h) && e.n in c.nodes
    requires e.TransferExpired? || e.SetPaused? || e.StartRead? || e.Compact? || e.Reboot?
    ensures NodeOK(cfg, e.n, c.nodes[e.n])
    ensures Inv(cfg, Apply(c, e.n, Fire(cfg, c.nodes[e.n], e)), h)
  {
    hide Inv, LogOK, LeaderOK, CandidateOK;
    InvNode(cfg, c, h, e.n);
    PlainFire(cfg, c.nodes[e.n], e);
    hide Fire, NodeOK;
    PlainInv(cfg, c, h, e.n, Fire(cfg, c.nodes[e.n], e));
  }

  lemma PlainFire(cfg: Config, s: Node, e: Event)
    requires NodeOK(cfg, e.n, s) && (e.TransferExpired? || e.SetPaused? || e.StartRead? || e.Compact? || e.Reboot?)
    ensures var o := Fire(cfg, s, e);
      && NodeOK(cfg, e.n, o.node) && (forall m :: m in o.msgs ==> m.ReadReq? || m.ReadResp?)
      && o.node.term == s.term && o.node.votedFor == s.votedFor && o.node.log == s.log && o.node.base >= s.base
      && (|| (o.node.role == s.role && o.node.progress == s.progress && o.node.votes == s.votes &&
           o.node.campaign == s.campaign)
          || (o.node.role == Follower && o.node.campaign == 0))
  {
    RestartOK(cfg, e.n, s);
  }

  lemma LeaderEvent(cfg: Config, c: Cluster, h: History, e: Event)
    requires ValidConfig(cfg) && Inv(cfg, c, h) && e.n in c.nodes
    requires e.TickLeader? || e.TransferTo? || e.PollPeer? || e.CheckQuorumFailed?
    ensures NodeOK(cfg, e.n, c.nodes[e.n])
    ensures Inv(cfg, Apply(c, e.n, Fire(cfg, c.nodes[e.n], e)), h)
  {
    hide Inv, ValidConfig, LogOK, LeaderOK, CandidateOK, NodeOK, LeaderTick, Transfer, EmitReplication, BecomeFollower;
    var n := e.n;
    InvNode(cfg, c, h, n);
    InvLeader(cfg, c, h, n);
    IdleApply(cfg, c, h, n);
    if e.CheckQuorumFailed? { FollowApply(cfg, c, h, n, c.nodes[n].term); }
    else if e.TransferTo? { TransferInv(cfg, c, h, n, e.target); }
    else if c.nodes[n].role == Leader {
      if e.TickLeader? { TickInv(cfg, c, h, n, e.expired, e.heartbeat); }
      else if e.p in c.nodes[n].progress { EmitInv(cfg, c, h, n, e.p, false); }
    }
  }

  lemma FireInv(cfg: Config, c: Cluster, h: History, e: Event) returns (h': History)
    requires ValidConfig(cfg) && Inv(cfg, c, h) && Enabled(cfg, c, e)
    ensures NodeOK(cfg, e.n, c.nodes[e.n])
    ensures Inv(cfg, Apply(c, e.n, Fire(cfg, c.nodes[e.n], e)), h') && Extends(h, h')
  {
    hide Inv, ValidConfig, Extends, LogOK, LeaderOK, CandidateOK, NodeOK, StartPreVote, Receive, Propose, Deliverable;
    var n := e.n;
    InvNode(cfg, c, h, n);
    InvLeader(cfg, c, h, n);
    h' := h;
    ExtendsItself(h);
    IdleApply(cfg, c, h, n);
    if e.ElectionTimeout? {
      if c.nodes[n].role != Leader && n in cfg.voters && c.nodes[n].term != U64_MAX { h' := PreVoteInv(cfg, c, h, n); }
    } else if e.Deliver? {
      if Deliverable(cfg, n, e.m) { h' := ReceiveInv(cfg, c, h, n, e.m, e.room); }
    } else if e.Submit? {
      h' := ProposeInv(cfg, c, h, n, e.commands);
    } else if e.TickLeader? || e.TransferTo? || e.PollPeer? || e.CheckQuorumFailed? {
      LeaderEvent(cfg, c, h, e);
    } else {
      PlainEvent(cfg, c, h, e);
    }
  }

  /** Every event keeps the invariant, for a history that only grows. */
  lemma NextInv(cfg: Config, c: Cluster, h: History, e: Event) returns (h': History)
    requires ValidConfig(cfg) && Inv(cfg, c, h) && Enabled(cfg, c, e)
    ensures ClusterOK(cfg, c) && Inv(cfg, Next(cfg, c, e), h') && Extends(h, h')
  {
    hide Inv, ValidConfig, Extends, NodeOK, Fire;
    InvCluster(cfg, c, h);
    h' := FireInv(cfg, c, h, e);
  }

  lemma InvCluster(cfg: Config, c: Cluster, h: History)
    requires Inv(cfg, c, h)
    ensures ClusterOK(cfg, c)
  {
  }

  lemma InvLeader(cfg: Config, c: Cluster, h: History, n: NodeId)
    requires Inv(cfg, c, h) && n in c.nodes
    ensures c.nodes[n].base <= |c.nodes[n].log|
    ensures c.nodes[n].role == Leader ==> ProgressInRange(cfg, c.nodes[n])
  {
  }
}
