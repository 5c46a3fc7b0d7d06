/**
 The gate of tr_emit and tr_emit_snapshot_request (src/core/raft_core.c): no call
 into a core addresses a paused peer, and none asks for two different snapshots
 for one peer.
 */
module PausedPeers {
  import opened RaftTypes
  import opened RaftNode
  import opened Cluster
  import L = RaftLog

  /** A replication request carries a slice of the sender's log behind its predecessor. */
  ghost predicate IsSlice(id: NodeId, s: Node, m: Message)
    requires m.AppendReq?
  {
    && m.from == id && m.term == s.term && m.leaderCommit == s.commit && m.prev + |m.entries| <= |s.log|
    && m.prevTerm == TermAt(s.log, m.prev) && m.entries == s.log[m.prev..m.prev + |m.entries|]
  }

  /** The confirmation of an installed snapshot comes from its installer, not from the core. */
  ghost predicate Gated(id: NodeId, s: Node, o: Out)
  {
    && (forall m :: m in o.msgs && !m.SnapshotAck? ==> m.to !in s.paused)
    && (forall m :: m in o.msgs && m.SnapshotMsg? ==>
         m == SnapshotMsg(id, m.to, o.node.term, o.node.log[..Min(o.node.base, |o.node.log|)]))
    && (forall m :: m in o.msgs && m.AppendReq? ==> IsSlice(id, o.node, m))
  }

  /** The call changed no more than the peers' progress. */
  ghost predicate Alike(s: Node, s': Node)
  {
    s' == s.(progress := s'.progress)
  }

  lemma EmitGated(cfg: Config, id: NodeId, s: Node, p: NodeId, heartbeat: bool)
    requires ProgressInRange(cfg, s) && p in s.progress
    ensures var o := EmitReplication(cfg, id, s, p, heartbeat); Gated(id, s, o) && Alike(s, o.node)
  {
  }

  lemma {:induction false} BroadcastGated(cfg: Config, id: NodeId, s: Node, ps: seq<NodeId>)
    requires ProgressInRange(cfg, s) && forall p :: p in ps ==> p in s.progress
    ensures var o := Broadcast(cfg, id, s, ps); Gated(id, s, o) && Alike(s, o.node)
    decreases ps
  {
    hide EmitReplication;
    if ps != [] {
      if ps[0] == id {
        BroadcastGated(cfg, id, s, ps[1..]);
      } else {
        EmitGated(cfg, id, s, ps[0], true);
        EmitKeepsRange(cfg, id, s, ps[0], true);
        BroadcastGated(cfg, id, EmitReplication(cfg, id, s, ps[0], true).node, ps[1..]);
      }
    }
  }

  lemma {:induction false} FillGated(cfg: Config, id: NodeId, s: Node, p: NodeId, room: nat)
    requires ProgressInRange(cfg, s) && p in s.progress
    ensures var o := FillPeer(cfg, id, s, p, room); Gated(id, s, o) && Alike(s, o.node)
    decreases room
  {
    hide EmitReplication;
    EmitGated(cfg, id, s, p, false);
    EmitKeepsRange(cfg, id, s, p, false);
    if room > 0 { FillGated(cfg, id, EmitReplication(cfg, id, s, p, false).node, p, room - 1); }
  }

  lemma LeaderGated(cfg: Config, id: NodeId, s: Node)
    requires s.base <= |s.log|
    ensures Gated(id, s, BecomeLeader(cfg, id, s))
  {
    hide Broadcast;
    BroadcastGated(cfg, id, TakeLeadership(cfg, id, s), cfg.peers);
  }

  lemma ElectionGated(cfg: Config, id: NodeId, s: Node)
    requires s.base <= |s.log|
    ensures Gated(id, s, StartElection(cfg, id, s))
  {
    hide BecomeLeader, IsQuorum;
    LeaderGated(cfg, id, Stand(id, s));
  }

  lemma PreVoteGated(cfg: Config, id: NodeId, s: Node)
    requires s.base <= |s.log|
    ensures Gated(id, s, StartPreVote(cfg, id, s))
  {
    hide StartElection, IsQuorum;
    ElectionGated(cfg, id,
                  s.(role := PreCandidate, leaderId := 0, campaign := s.term + 1, preVotes := {id}, votes := {}));
  }

  lemma AppendGated(cfg: Config, id: NodeId, s: Node, m: Message)
    requires NodeOK(cfg, id, s) && m.AppendReq?
    ensures Gated(id, s, HandleAppendReq(cfg, id, s, m))
  {
    hide L.Reconcile, L.LogAfter, NodeOK;
  }

  lemma VoteGated(cfg: Config, id: NodeId, s: Node, m: Message)
    ensures m.PreVoteReq? ==> Gated(id, s, HandlePreVoteReq(cfg, id, s, m))
    ensures m.VoteReq? ==> Gated(id, s, HandleVoteReq(cfg, id, s, m))
  {
    hide UpToDate;
  }

  lemma ElectedGated(cfg: Config, id: NodeId, s: Node, m: Message)
    requires NodeOK(cfg, id, s)
    ensures m.PreVoteResp? ==> Gated(id, s, HandlePreVoteResp(cfg, id, s, m))
    ensures m.VoteResp? ==> Gated(id, s, HandleVoteResp(cfg, id, s, m))
    ensures m.TimeoutNow? ==> Gated(id, s, HandleTimeoutNow(cfg, id, s, m))
  {
    hide BecomeLeader, StartElection, StartPreVote, IsQuorum;
    if m.PreVoteResp? { ElectionGated(cfg, id, s.(preVotes := s.preVotes + {m.from})); }
    if m.VoteResp? { LeaderGated(cfg, id, s.(votes := s.votes + {m.from})); }
    if m.TimeoutNow? { ElectionGated(cfg, id, s.(campaign := s.term + 1)); }
  }

  lemma CompletedGated(cfg: Config, id: NodeId, s: Node, p: NodeId, index: nat, room: nat)
    requires NodeOK(cfg, id, s)
    ensures Gated(id, s, SnapshotCompleted(cfg, id, s, p, index, room))
  {
    hide FillPeer;
    if s.role == Leader && index <= s.base && p in s.progress {
      var pr := Progress(index + 1, Max(s.progress[p].matched, index), [], true);
      FillGated(cfg, id, s.(progress := s.progress[p := pr]), p, room);
    }
  }

  lemma ReceiveGated(cfg: Config, id: NodeId, s: Node, m: Message, room: nat)
    requires NodeOK(cfg, id, s) && m.from in cfg.peers
    ensures Gated(id, s, Receive(cfg, id, s, m, room))
  {
    hide HandleAppendReq, HandleAppendResp, HandleVoteReq, HandleVoteResp, HandlePreVoteReq, HandlePreVoteResp;
    hide HandleTimeoutNow, SnapshotCompleted;
    VoteGated(cfg, id, s, m);
    ElectedGated(cfg, id, s, m);
    match m {
      case AppendReq(_, _, _, _, _, _, _) => AppendGated(cfg, id, s, m);
      case AppendResp(_, _, _, _, _, _, _, _) => RespondGated(cfg, id, s, m, room);
      case SnapshotAck(_, _, _, _) => CompletedGated(cfg, id, s, m.from, m.index, room);
      case _ =>
    }
  }

  lemma RespondGated(cfg: Config, id: NodeId, s: Node, m: Message, room: nat)
    requires NodeOK(cfg, id, s) && m.AppendResp? && m.from in s.progress
    ensures Gated(id, s, HandleAppendResp(cfg, id, s, m, room))
  {
    hide FillPeer, UpdateCommit, Advanced, BackedOff, WindowInRange;
    if s.role == Leader && m.term == s.term && !IgnoresResp(s, m) {
      AcknowledgeKeepsRange(cfg, s, m);
      UpdateCommitFields(cfg, s.(progress := s.progress[m.from := Advanced(s.progress[m.from], m.matched)]));
      FillGated(cfg, id, Acknowledge(cfg, s, m), m.from, room);
    }
  }

  lemma ProposeGated(cfg: Config, id: NodeId, s: Node, commands: seq<(nat, seq<Byte>)>)
    requires NodeOK(cfg, id, s)
    ensures Gated(id, s, Propose(cfg, id, s, commands))
  {
    hide Broadcast, UpdateCommit;
    if s.role == Leader {
      var s1 := AppendLocal(id, s, Proposed(s, commands));
      UpdateCommitFields(cfg, s1);
      BroadcastGated(cfg, id, UpdateCommit(cfg, s1), cfg.peers);
    }
  }

  /** No call addresses a paused peer, and all its snapshot requests for a peer are one. */
  lemma FireGated(cfg: Config, s: Node, e: Event)
    requires NodeOK(cfg, e.n, s)
    ensures Gated(e.n, s, Fire(cfg, s, e))
    ensures forall a, b ::
      && a in Fire(cfg, s, e).msgs && b in Fire(cfg, s, e).msgs && a.SnapshotMsg? && b.SnapshotMsg? && a.to == b.to
      ==> a == b
  {
    hide Broadcast, EmitReplication, Receive, StartPreVote, Propose;
    match e {
      case ElectionTimeout(_) => PreVoteGated(cfg, e.n, s);
      case TickLeader(_, expired, _) =>
        if s.role == Leader { BroadcastGated(cfg, e.n, ExpireWindows(s, expired), cfg.peers); }
      case Deliver(_, m, room) => if Deliverable(cfg, e.n, m) { ReceiveGated(cfg, e.n, s, m, room); }
      case Submit(_, commands) => ProposeGated(cfg, e.n, s, commands);
      case TransferTo(_, target) =>
        if s.role == Leader && target in s.progress {
          EmitGated(cfg, e.n, s.(transferTarget := target, transferSent := false), target, false);
        }
      case PollPeer(_, p) => if s.role == Leader && p in s.progress { EmitGated(cfg, e.n, s, p, false); }
      case _ =>
    }
  }
}
