/**
 The consensus core as the mutable object it is in src/core/raft_core.c.  Every
 call is shown to take the object from one abstract node state to the next one
 of the transition functions, so the cluster theorems speak about these methods.
 Membership is fixed and timers are the caller's, as in the cluster model.
 */
module RaftCore {
  import opened RaftTypes
  import opened RaftNode
  import opened Cluster
  import L = RaftLog

  /** tr_raft_snapshot_request_t: ask the snapshot layer to serve this peer. */
  datatype SnapshotRequest = SnapshotRequest(peer: NodeId, term: nat, index: nat)

  class Core {
    const cfg: Config
    const id: NodeId
    const log: L.EntryLog
    var role: Role
    var leaderId: NodeId
    var term: nat
    var votedFor: NodeId
    var commit: nat
    var campaign: nat
    var preVotes: set<NodeId>
    var votes: set<NodeId>
    var progress: map<NodeId, Progress>
    var transferTarget: NodeId
    var transferSent: bool
    var paused: set<NodeId>
    var messages: seq<Message>
    var snapshots: seq<SnapshotRequest>

    ghost function Now(): (s: Node)
      reads this, log
    {
      Node(role, leaderId, term, votedFor, log.Full(), log.baseIndex, commit, campaign, preVotes, votes, progress,
           transferTarget, transferSent, paused)
    }

    /** What the Ready of this call asks to be sent. */
    ghost function Sent(): (ms: set<Message>)
      reads this, log
    {
      Requested(id, log.Full(), messages, snapshots)
    }

    ghost predicate Valid()
      reads this, log
    {
      log.Valid() && log.maxEntries == cfg.maxLog && ValidConfig(cfg) && NodeOK(cfg, id, Now())
    }

    /** A core starts as a follower with whatever the storage recovered. */
    constructor (cfg: Config, id: NodeId, log: L.EntryLog, term: nat, votedFor: NodeId, commit: nat)
      requires ValidConfig(cfg) && id in cfg.peers && log.Valid() && log.maxEntries == cfg.maxLog
      requires log.baseIndex <= commit <= |log.Full()|
      ensures Valid() && this.cfg == cfg && this.id == id && this.log == log && messages == [] && snapshots == []
      ensures Now() ==
        Node(Follower, 0, term, votedFor, log.Full(), log.baseIndex, commit, 0, {}, {}, FreshProgress(cfg), 0, false,
          {})
    {
      this.cfg, this.id, this.log := cfg, id, log;
      this.term, this.votedFor, this.commit := term, votedFor, commit;
      role, leaderId, campaign := Follower, 0, 0;
      preVotes, votes, transferTarget, transferSent, paused := {}, {}, 0, false, {};
      progress := map p | p in cfg.peers :: IDLE_WINDOW;
      messages, snapshots := [], [];
      new;
      assert progress == FreshProgress(cfg);
    }

    /** tr_begin: every call starts with an empty Ready. */
    method Begin()
      modifies this`messages, this`snapshots
      ensures Now() == old(Now()) && Sent() == {} && messages == [] && snapshots == []
    {
      messages, snapshots := [], [];
    }

    /** tr_emit */
    method Put(m: Message) returns (sent: bool)
      modifies this`messages
      ensures Now() == old(Now()) && Sent() == old(Sent()) + Emit(Now(), m) && sent == (m.to !in paused)
    {
      if m.to in paused { return false; }
      messages := messages + [m];
      RequestedMessage(id, log.Full(), old(messages), snapshots, m);
      return true;
    }

    /** tr_emit_snapshot_request: at most one request per peer. */
    method RequestSnapshot(p: NodeId)
      requires log.Valid()
      modifies this`snapshots
      ensures Now() == old(Now()) && log.baseIndex <= |log.Full()|
      ensures Sent() == old(Sent()) + {SnapshotMsg(id, p, term, log.Full()[..log.baseIndex])}
    {
      var r := SnapshotRequest(p, term, log.baseIndex);
      var i := 0;
      while i < |snapshots|
        invariant i <= |snapshots| && snapshots == old(snapshots) && forall k :: 0 <= k < i ==> snapshots[k] != r
      {
        if snapshots[i] == r {
          RequestedAgain(id, log.Full(), messages, snapshots, r);
          return;
        }
        i := i + 1;
      }
      snapshots := snapshots + [r];
      RequestedSnapshot(id, log.Full(), messages, old(snapshots), r);
    }

    // -------------------------------------------------------- replication

    /** The entries of one request, copied out of the log. */
    method Slice(first: nat, count: nat) returns (es: seq<Entry>)
      requires log.Valid() && log.baseIndex < first && first + count <= |log.Full()| + 1
      ensures es == log.Full()[first - 1..first + count - 1]
    {
      es := [];
      var i := 0;
      while i < count
        invariant i <= count && es == log.Full()[first - 1..first + i - 1]
      {
        es := es + [log.Get(first + i).value];
        i := i + 1;
      }
    }

    method TermBefore(next: nat) returns (t: nat)
      requires log.Valid() && log.baseIndex < next <= |log.Full()| + 1
      ensures t == TermAt(log.Full(), next - 1)
    {
      if next - 1 == log.baseIndex { return log.baseTerm; }
      t := log.Get(next - 1).value.term;
    }

    /** One request or heartbeat, recorded in the window when it carries entries. */
    method SendEntries(p: NodeId, count: nat)
      requires log.Valid() && p in progress && p !in paused && log.baseIndex < progress[p].next
      requires progress[p].next + count <= |log.Full()| + 1
      modifies this`progress, this`messages
      ensures var pr := old(progress)[p];
        var full := log.Full();
        && progress == (if count == 0 then old(progress)
                        else old(progress)[p :=
                          pr.(next := pr.next + count,
                          window := pr.window + [Inflight(pr.next - 1, pr.next + count - 1)])])
        && Sent() == old(Sent()) + {AppendReq(id, p, term, pr.next - 1, TermAt(full, pr.next - 1),
             full[pr.next - 1..pr.next + count - 1], commit)}
    {
      hide Requested;
      var pr := progress[p];
      var prevTerm := TermBefore(pr.next);
      var entries := Slice(pr.next, count);
      var _ := Put(AppendReq(id, p, term, pr.next - 1, prevTerm, entries, commit));
      if count != 0 {
        progress := progress[p := pr.(next := pr.next + count,
                                      window := pr.window + [Inflight(pr.next - 1, pr.next + count - 1)])];
      }
    }

    /** tr_emit_replication */
    method EmitReplicationTo(p: NodeId, heartbeat: bool) returns (sent: bool)
      requires log.Valid() && p in progress && 1 <= progress[p].next <= |log.Full()| + 1
      modifies this`progress, this`messages, this`snapshots
      ensures var o := EmitReplication(cfg, id, old(Now()), p, heartbeat);
        Now() == o.node && Sent() == old(Sent()) + o.msgs && sent == (o.msgs != {})
    {
      hide Requested;
      var pr := progress[p];
      var limit := if pr.probe then 1 else cfg.maxInflight;
      if p in paused { return false; }
      if pr.next <= log.baseIndex {
        progress := progress[p := pr.(window := [], probe := true)];
        RequestSnapshot(p);
        return true;
      }
      var count := 0;
      if pr.next <= log.LastIndex() {
        if |pr.window| >= limit { return false; }
        count := Min(log.LastIndex() - pr.next + 1, MAX_APPEND_ENTRIES);
      } else if !heartbeat {
        return false;
      }
      SendEntries(p, count);
      return true;
    }

    /** tr_broadcast_replication */
    method BroadcastReplication()
      requires log.Valid() && ProgressInRange(cfg, Now())
      modifies this`progress, this`messages, this`snapshots
      ensures var o := Broadcast(cfg, id, old(Now()), cfg.peers); Now() == o.node && Sent() == old(Sent()) + o.msgs
    {
      hide Requested, EmitReplication;
      ghost var goal := AfterSending(Sent(), Broadcast(cfg, id, Now(), cfg.peers));
      var i := 0;
      while i < |cfg.peers|
        invariant i <= |cfg.peers| && log.Valid() && ProgressInRange(cfg, Now())
        invariant AfterSending(Sent(), Broadcast(cfg, id, Now(), cfg.peers[i..])) == goal
      {
        var p := cfg.peers[i];
        BroadcastStep(cfg, id, Now(), cfg.peers, i, Sent());
        if p != id { var _ := EmitReplicationTo(p, true); }
        i := i + 1;
      }
    }

    /** tr_fill_peer_replication_window */
    method FillWindow(p: NodeId, room: nat)
      requires log.Valid() && ProgressInRange(cfg, Now()) && p in progress
      modifies this`progress, this`messages, this`snapshots
      ensures var o := FillPeer(cfg, id, old(Now()), p, room); Now() == o.node && Sent() == old(Sent()) + o.msgs
    {
      hide Requested, EmitReplication;
      if progress[p].next <= log.baseIndex {
        var _ := EmitReplicationTo(p, false);
        return;
      }
      ghost var goal := AfterSending(Sent(), FillPeer(cfg, id, Now(), p, room));
      var left := room;
      while left > 0 && progress[p].next <= log.LastIndex()
        invariant log.Valid() && ProgressInRange(cfg, Now()) && p in progress && progress[p].next > log.baseIndex
        invariant AfterSending(Sent(), FillPeer(cfg, id, Now(), p, left)) == goal
        decreases left
      {
        FillStep(cfg, id, Now(), p, left, Sent());
        var sent := EmitReplicationTo(p, false);
        if !sent { break; }
        left := left - 1;
      }
    }

    // -------------------------------------------------------------- commit

    /** tr_core_match_quorum: count the voters whose match index reaches `index`. */
    method MatchQuorum(index: nat) returns (enough: bool)
      requires ValidConfig(cfg) && progress.Keys == Peers(cfg)
      ensures enough == IsQuorum(cfg, MatchedVoters(cfg, Now(), index))
    {
      hide MatchedVoters, Counted, ValidConfig;
      CountedAll(cfg, Now(), index);
      var count := 0;
      var i := 0;
      while i < |cfg.peers|
        invariant i <= |cfg.peers| && count == |Counted(cfg, Now(), index, i)|
      {
        var p := cfg.peers[i];
        CountedStep(cfg, Now(), index, i);
        if p in cfg.voters && progress[p].matched >= index { count := count + 1; }
        i := i + 1;
      }
      enough := count >= |cfg.voters| / 2 + 1;
    }

    /** tr_update_commit: the highest current-term index a majority holds. */
    method AdvanceCommit()
      requires log.Valid() && ValidConfig(cfg) && progress.Keys == Peers(cfg) && log.baseIndex <= commit
      modifies this`commit
      ensures Now() == UpdateCommit(cfg, old(Now()))
    {
      hide IsQuorum, MatchedVoters, ValidConfig, CommitCandidate, Requested;
      ghost var goal := CommitCandidate(cfg, Now(), |log.Full()|);
      var candidate: nat := log.LastIndex();
      while candidate > commit
        invariant commit == old(commit) && candidate <= |log.Full()| && CommitCandidate(cfg, Now(), candidate) == goal
      {
        CommitCandidateStep(cfg, Now(), candidate);
        if log.Get(candidate).value.term == term {
          var enough := MatchQuorum(candidate);
          if enough {
            commit := candidate;
            return;
          }
        }
        candidate := candidate - 1;
      }
      CommitCandidateStep(cfg, Now(), candidate);
    }

    // ----------------------------------------------------------- elections

    /** Every append window emptied and set to probe. */
    method ResetAll()
      requires progress.Keys == Peers(cfg)
      modifies this`progress
      ensures progress == ResetWindows(old(progress)) && progress.Keys == Peers(cfg)
    {
      var i := 0;
      while i < |cfg.peers|
        invariant i <= |cfg.peers| && progress.Keys == old(progress.Keys)
        invariant forall p :: p in progress ==>
          progress[p] == if p in cfg.peers[..i] then old(progress)[p].(window := [], probe := true)
            else old(progress)[p]
      {
        var p := cfg.peers[i];
        progress := progress[p := progress[p].(window := [], probe := true)];
        assert cfg.peers[..i + 1] == cfg.peers[..i] + [p];
        i := i + 1;
      }
      assert cfg.peers[..i] == cfg.peers;
    }

    /** tr_become_follower */
    method FallBack(t: nat)
      requires progress.Keys == Peers(cfg)
      modifies this`term, this`votedFor, this`role, this`leaderId, this`campaign, this`preVotes, this`votes,
        this`transferTarget, this`transferSent, this`progress
      ensures Now() == BecomeFollower(old(Now()), t)
    {
      hide Requested, ResetWindows;
      if t > term { term, votedFor := t, 0; }
      SetRole(Follower, 0);
      ResetAll();
    }

    /** A role change drops campaign, votes and any leadership transfer. */
    method SetRole(r: Role, l: NodeId)
      modifies this`role, this`leaderId, this`campaign, this`preVotes, this`votes, this`transferTarget,
        this`transferSent
      ensures role == r && leaderId == l && campaign == 0 && preVotes == {} && votes == {} && transferTarget == 0
      ensures !transferSent
    {
      role, leaderId, campaign, preVotes, votes := r, l, 0, {}, {};
      transferTarget, transferSent := 0, false;
    }

    /** Every peer probed from just past the local log. */
    method StartAll(next: nat)
      requires next >= 1 && id in cfg.peers && progress.Keys == Peers(cfg)
      modifies this`progress
      ensures progress == map p | p in cfg.peers :: Progress(next, if p == id then next - 1 else 0, [], p != id)
    {
      var i := 0;
      while i < |cfg.peers|
        invariant i <= |cfg.peers| && progress.Keys == Peers(cfg)
        invariant forall p :: p in cfg.peers[..i] ==> p in progress && progress[p] == Progress(next, 0, [], true)
      {
        var p := cfg.peers[i];
        progress := progress[p := Progress(next, 0, [], true)];
        assert cfg.peers[..i + 1] == cfg.peers[..i] + [p];
        i := i + 1;
      }
      assert cfg.peers[..i] == cfg.peers;
      progress := progress[id := Progress(next, next - 1, [], false)];
    }

    /** tr_become_leader */
    method Lead()
      requires Valid()
      modifies this
      ensures Valid()
      ensures var o := BecomeLeader(cfg, id, old(Now())); Now() == o.node && Sent() == old(Sent()) + o.msgs
    {
      hide Requested, Broadcast, ValidConfig, NodeOK, ProgressInRange, TakeLeadership;
      ghost var s0 := Now();
      ReadyToLead(cfg, id, s0);
      TakeSeat();
      BroadcastReplication();
      LeadKeepsOK(cfg, id, s0);
    }

    /** The state changes of tr_become_leader. */
    method TakeSeat()
      requires log.Valid() && id in cfg.peers && progress.Keys == Peers(cfg)
      modifies this`role, this`leaderId, this`campaign, this`preVotes, this`votes, this`transferTarget,
        this`transferSent, this`progress
      ensures Now() == TakeLeadership(cfg, id, old(Now()))
    {
      SetRole(Leader, id);
      StartAll(log.LastIndex() + 1);
    }

    /** tr_broadcast: a vote or pre-vote request to every other voter. */
    method Canvass(pre: bool)
      requires ValidConfig(cfg) && log.Valid()
      modifies this`messages
      ensures Sent() == old(Sent()) + if pre then PreVoteRequests(cfg, id, Now()) else VoteRequests(cfg, id, Now())
      ensures Now() == old(Now())
    {
      hide Requested, ValidConfig, PreVoteRequests, VoteRequests, Canvassed;
      CanvassAll(cfg, id, Now(), pre);
      var i := 0;
      while i < |cfg.peers|
        invariant i <= |cfg.peers| && Now() == old(Now()) && Sent() == old(Sent()) + Canvassed(cfg, id, Now(), pre, i)
      {
        var p := cfg.peers[i];
        CanvassStep(cfg, id, Now(), pre, i);
        if p != id && p in cfg.voters {
          var _ := Put(if pre then PreVoteReq(id, p, term, campaign, log.LastIndex(), log.LastTermHeld())
                       else VoteReq(id, p, term, log.LastIndex(), log.LastTermHeld()));
        }
        i := i + 1;
      }
    }

    /** tr_core_has_quorum over the voters marked in `marked`. */
    method HasQuorum(marked: set<NodeId>) returns (enough: bool)
      requires ValidConfig(cfg)
      ensures enough == IsQuorum(cfg, marked)
    {
      hide ValidConfig, Marked;
      MarkedAll(cfg, marked);
      var count := 0;
      var i := 0;
      while i < |cfg.peers|
        invariant i <= |cfg.peers| && count == |Marked(cfg, marked, i)|
      {
        MarkedStep(cfg, marked, i);
        if cfg.peers[i] in cfg.voters && cfg.peers[i] in marked { count := count + 1; }
        i := i + 1;
      }
      enough := count >= |cfg.voters| / 2 + 1;
    }

    /** The state changes of tr_start_election. */
    method StandUp()
      modifies this`term, this`campaign, this`role, this`leaderId, this`votedFor, this`preVotes, this`votes
      ensures Now() == Stand(id, old(Now()))
    {
      term, campaign, role, leaderId, votedFor := campaign, 0, Candidate, 0, id;
      preVotes, votes := {}, {id};
    }

    /** tr_start_election */
    method Elect()
      requires Valid()
      modifies this
      ensures Valid()
      ensures var o := StartElection(cfg, id, old(Now())); Now() == o.node && Sent() == old(Sent()) + o.msgs
    {
      hide Requested, BecomeLeader, ValidConfig, IsQuorum, VoteRequests, NodeOK, Stand;
      ReadyToStand(cfg, id, Now());
      StandUp();
      var won := HasQuorum(votes);
      if won { Lead(); } else { Canvass(false); }
    }

    /** The state changes of tr_start_pre_vote. */
    method Declare()
      modifies this`role, this`leaderId, this`campaign, this`preVotes, this`votes
      ensures Now() == old(Now()).(role := PreCandidate, leaderId := 0, campaign := old(term) + 1, preVotes := {id},
        votes := {})
    {
      role, leaderId, campaign, preVotes, votes := PreCandidate, 0, term + 1, {id}, {};
    }

    /** tr_start_pre_vote */
    method PreVote()
      requires Valid() && role != Leader
      modifies this
      ensures Valid()
      ensures var o := StartPreVote(cfg, id, old(Now())); Now() == o.node && Sent() == old(Sent()) + o.msgs
    {
      hide Requested, StartElection, ValidConfig, IsQuorum, PreVoteRequests, NodeOK;
      ReadyToDeclare(cfg, id, Now());
      Declare();
      var won := HasQuorum(preVotes);
      if won { Elect(); } else { Canvass(true); }
    }

    // ------------------------------------------------------------ messages

    /** tr_log_is_up_to_date */
    predicate CandidateUpToDate(lastIndex: nat, lastTerm: nat)
      reads this, log
      requires log.Valid()
      ensures CandidateUpToDate(lastIndex, lastTerm) == UpToDate(lastIndex, lastTerm, log.Full())
    {
      if lastTerm != log.LastTermHeld() then lastTerm > log.LastTermHeld() else lastIndex >= log.LastIndex()
    }

    method OnPreVoteReq(m: Message)
      requires Valid() && m.PreVoteReq?
      modifies this
      ensures Valid()
      ensures var o := HandlePreVoteReq(cfg, id, old(Now()), m); Now() == o.node && Sent() == o.msgs
    {
      hide Requested, ValidConfig;
      Begin();
      var granted := id in cfg.voters && term != U64_MAX && m.campaign >= term + 1 &&
        CandidateUpToDate(m.lastIndex, m.lastTerm);
      campaign := m.campaign;
      var _ := Put(PreVoteResp(id, m.from, term, campaign, granted));
      campaign := 0;
    }

    method OnPreVoteResp(m: Message)
      requires Valid() && m.PreVoteResp?
      modifies this
      ensures Valid()
      ensures var o := HandlePreVoteResp(cfg, id, old(Now()), m); Now() == o.node && Sent() == o.msgs
    {
      hide Requested, ValidConfig, StartElection, IsQuorum;
      Begin();
      if m.term > term { FallBack(m.term); return; }
      if role != PreCandidate || m.campaign != campaign || !m.granted || m.from in preVotes { return; }
      preVotes := preVotes + {m.from};
      var won := HasQuorum(preVotes);
      if won { Elect(); }
    }

    /** The vote itself, once the term is settled. */
    method CastVote(m: Message) returns (granted: bool)
      requires log.Valid() && m.VoteReq?
      modifies this`votedFor
      ensures granted == GrantsVote(cfg, id, old(Now()), m)
      ensures votedFor == if granted then m.from else old(votedFor)
    {
      granted := id in cfg.voters && m.term == term && (votedFor == 0 || votedFor == m.from) &&
        CandidateUpToDate(m.lastIndex, m.lastTerm);
      if granted { votedFor := m.from; }
    }

    method OnVoteReq(m: Message)
      requires Valid() && m.VoteReq?
      modifies this
      ensures Valid()
      ensures var o := HandleVoteReq(cfg, id, old(Now()), m); Now() == o.node && Sent() == o.msgs
    {
      hide Requested, ValidConfig, UpToDate, BecomeFollower, NodeOK, GrantsVote;
      ghost var s0 := Now();
      NodeBounds(cfg, id, s0);
      VoteReqKeepsOK(cfg, id, s0, m);
      Begin();
      if m.term > term { FallBack(m.term); }
      var granted := CastVote(m);
      var _ := Put(VoteResp(id, m.from, term, granted));
    }

    method OnVoteResp(m: Message)
      requires Valid() && m.VoteResp?
      modifies this
      ensures Valid()
      ensures var o := HandleVoteResp(cfg, id, old(Now()), m); Now() == o.node && Sent() == o.msgs
    {
      hide Requested, ValidConfig, BecomeLeader, IsQuorum;
      Begin();
      if m.term > term { FallBack(m.term); return; }
      if role != Candidate || m.term != term || !m.granted || m.from in votes { return; }
      votes := votes + {m.from};
      var won := HasQuorum(votes);
      if won { Lead(); }
    }

    method OnTimeoutNow(m: Message)
      requires Valid() && m.TimeoutNow?
      modifies this
      ensures Valid()
      ensures var o := HandleTimeoutNow(cfg, id, old(Now()), m); Now() == o.node && Sent() == o.msgs
    {
      hide Requested, ValidConfig, StartElection;
      Begin();
      if id !in cfg.voters || role != Follower || m.term != term || leaderId != m.from || term == U64_MAX { return; }
      campaign := term + 1;
      Elect();
    }

    /** The request is accepted as coming from the current leader. */
    method Follow(m: Message, matched: bool)
      requires log.Valid() && m.AppendReq? && progress.Keys == Peers(cfg)
      modifies this`term, this`votedFor, this`role, this`leaderId, this`campaign, this`preVotes, this`votes,
        this`transferTarget, this`transferSent, this`progress, this`commit
      ensures var s := BecomeFollower(old(Now()), m.term).(leaderId := m.from);
        Now() == if matched then s.(commit := FollowerCommit(s.commit, m.leaderCommit, |s.log|)) else s
    {
      hide Requested, BecomeFollower;
      FallBack(m.term);
      FollowerLog(old(Now()), m.term, log.Full());
      leaderId := m.from;
      if matched && m.leaderCommit > commit { commit := Min(m.leaderCommit, log.LastIndex()); }
    }

    /** tr_step_heartbeat_request; the leader numbered the entries consecutively. */
    method OnAppendReq(m: Message)
      requires Valid() && m.AppendReq? && L.FollowsOn(m.prev, m.entries)
      modifies this, log
      ensures Valid()
      ensures var o := HandleAppendReq(cfg, id, old(Now()), m); Now() == o.node && Sent() == o.msgs
    {
      hide Requested, ValidConfig, L.Reconcile, NodeOK, BecomeFollower, WindowInRange, ProgressInRange;
      ghost var s0 := Now();
      NodeBounds(cfg, id, s0);
      AppendReqKeepsOK(cfg, id, s0, m);
      Begin();
      if m.term < term {
        var _ := Put(AppendResp(id, m.from, term, m.entries == [], false, 0, log.LastIndex() + 1, 0));
      } else {
        TakeAppend(m);
      }
    }

    /** A request of the current or a newer term. */
    method TakeAppend(m: Message)
      requires log.Valid() && m.AppendReq? && L.FollowsOn(m.prev, m.entries) && m.term >= term
      requires log.maxEntries == cfg.maxLog
      requires progress.Keys == Peers(cfg) && messages == [] && snapshots == []
      modifies this, log`entries
      ensures log.Valid()
      ensures var o := HandleAppendReq(cfg, id, old(Now()), m); Now() == o.node && Sent() == o.msgs
    {
      hide Requested, L.Reconcile, BecomeFollower;
      ghost var s0 := Now();
      ReplacesWithin(s0, cfg.maxLog, m);
      var o := log.Reconciles(m.prev, m.prevTerm, m.entries, commit);
      RequestedNothing(id, log.Full());
      if o.status != OK { return; }
      FollowerLog(s0, m.term, log.Full());
      Follow(m, o.matched);
      Reply(m, o.matched, o.hint);
    }

    method Reply(m: Message, matched: bool, hint: nat)
      requires m.AppendReq?
      modifies this`messages
      ensures Sent() == old(Sent()) + Emit(Now(), AppendResp(id, m.from, term, m.entries == [], matched,
                                                             if matched then m.prev + |m.entries| else 0, hint, m.prev))
    {
      hide Requested;
      var upTo := if matched then m.prev + |m.entries| else 0;
      var _ := Put(AppendResp(id, m.from, term, m.entries == [], matched, upTo, hint, m.prev));
    }

    /** tr_append_window_find */
    method FindRequest(w: seq<Inflight>, prev: nat) returns (i: nat)
      ensures i == FindInflight(w, prev)
    {
      i := 0;
      while i < |w|
        invariant i <= |w| && FindInflight(w, prev) == i + FindInflight(w[i..], prev)
      {
        if w[i].prev == prev { return; }
        i := i + 1;
      }
    }

    /** tr_append_window_release_through */
    method ReleaseFront(w: seq<Inflight>, matched: nat) returns (w': seq<Inflight>)
      ensures w' == ReleaseThrough(w, matched)
    {
      w' := w;
      while w' != []
        invariant ReleaseThrough(w', matched) == ReleaseThrough(w, matched)
        decreases |w'|
      {
        if w'[0].last > matched { break; }
        w' := w'[1..];
      }
    }

    /** The granted half of tr_step_heartbeat_response. */
    method Accepted(p: NodeId, matched: nat)
      requires log.Valid() && ValidConfig(cfg) && progress.Keys == Peers(cfg) && p in progress
      requires log.baseIndex <= commit
      modifies this`progress, this`commit
      ensures var s := old(Now());
        var pr := old(progress)[p];
        var s1 := s.(progress := s.progress[p := Advanced(pr, matched)]);
        Now() == if matched > pr.matched then UpdateCommit(cfg, s1) else s1
    {
      hide ValidConfig, UpdateCommit, Requested, ReleaseThrough, Advanced;
      var pr := progress[p];
      var window := ReleaseFront(pr.window, matched);
      AdvancedFields(pr, matched);
      if matched > pr.matched {
        progress := progress[p := Progress(Max(pr.next, matched + 1), matched, window, false)];
        AdvanceCommit();
      } else {
        progress := progress[p := pr.(window := window, probe := false)];
      }
    }

    /** The rejected half: back off to the hint, never below what is matched. */
    method Rejected(p: NodeId, m: Message, at: nat)
      requires m.AppendResp? && p in progress && at <= |progress[p].window|
      requires at == if m.heartbeat then |progress[p].window| else FindInflight(progress[p].window, m.prev)
      modifies this`progress
      ensures progress == old(progress)[p := BackedOff(log.baseIndex, old(progress)[p], m)]
    {
      var pr := progress[p];
      var next := pr.next;
      if at < |pr.window| { next := pr.window[at].prev; }
      else if next > log.baseIndex + 1 { next := next - 1; }
      if m.hint != 0 && m.hint < next { next := m.hint; }
      if next < pr.matched + 1 { next := pr.matched + 1; }
      progress := progress[p := Progress(next, pr.matched, [], true)];
    }

    /** Whether a response of the current term is dropped, and which request it answers. */
    method Locate(m: Message) returns (ignored: bool, at: nat)
      requires log.Valid() && m.AppendResp? && m.from in progress
      ensures ignored == IgnoresResp(Now(), m)
      ensures at <= |progress[m.from].window|
      ensures !ignored ==> at == if m.heartbeat then |progress[m.from].window|
        else FindInflight(progress[m.from].window, m.prev)
    {
      var window := progress[m.from].window;
      at := |window|;
      if m.granted && m.matched > log.LastIndex() { return true, at; }
      if !m.heartbeat {
        at := FindRequest(window, m.prev);
        if at == |window| { return true, at; }
        if m.granted && m.matched != window[at].last { return true, at; }
      }
      return false, at;
    }

    /** Hands leadership over when the target has caught up, otherwise sends what fits. */
    method Continue(p: NodeId, granted: bool, room: nat)
      requires log.Valid() && ProgressInRange(cfg, Now()) && p in progress
      modifies this`progress, this`messages, this`snapshots, this`transferSent
      ensures var o := Respond(cfg, id, old(Now()), p, granted, room); Now() == o.node && Sent() == old(Sent()) + o.msgs
    {
      hide Requested, FillPeer;
      if granted && !transferSent && transferTarget == p && progress[p].matched >= log.LastIndex() {
        var sent := Put(TimeoutNow(id, p, term));
        transferSent := sent;
      } else if progress[p].next <= log.LastIndex() || !granted {
        FillWindow(p, room);
      }
    }

    /** A response that is not ignored. */
    method Responded(m: Message, at: nat, room: nat)
      requires log.Valid() && ValidConfig(cfg) && m.AppendResp? && m.from in progress && log.baseIndex <= commit
      requires ProgressInRange(cfg, Now()) && WindowInRange(Now()) && !IgnoresResp(Now(), m)
      requires at <= |progress[m.from].window|
      requires at == if m.heartbeat then |progress[m.from].window| else FindInflight(progress[m.from].window, m.prev)
      modifies this`progress, this`commit, this`messages, this`snapshots, this`transferSent
      ensures ProgressInRange(cfg, Acknowledge(cfg, old(Now()), m))
      ensures m.from in Acknowledge(cfg, old(Now()), m).progress
      ensures var o := Respond(cfg, id, Acknowledge(cfg, old(Now()), m), m.from, m.granted, room);
        Now() == o.node && Sent() == old(Sent()) + o.msgs
    {
      hide Requested, ValidConfig, FillPeer, ProgressInRange, WindowInRange, UpdateCommit, BackedOff, IgnoresResp,
        Advanced, Respond;
      ghost var s0 := Now();
      RangeFields(cfg, s0);
      AcknowledgeKeepsRange(cfg, s0, m);
      RangeFields(cfg, Acknowledge(cfg, s0, m));
      if m.granted { Accepted(m.from, m.matched); } else { Rejected(m.from, m, at); }
      assert Now() == Acknowledge(cfg, s0, m);
      Continue(m.from, m.granted, room);
    }

    /** tr_step_heartbeat_response */
    method OnAppendResp(m: Message, room: nat)
      requires Valid() && m.AppendResp? && m.from in cfg.peers
      modifies this
      ensures Valid()
      ensures m.from in old(Now()).progress
      ensures var o := HandleAppendResp(cfg, id, old(Now()), m, room); Now() == o.node && Sent() == o.msgs
    {
      hide Requested, ValidConfig, NodeOK, BecomeFollower, ProgressInRange, WindowInRange, Acknowledge, IgnoresResp,
        Respond;
      ghost var s0 := Now();
      NodeBounds(cfg, id, s0);
      AppendRespKeepsOK(cfg, id, s0, m, room);
      Begin();
      if m.term > term { FallBack(m.term); return; }
      if role != Leader || m.term != term { return; }
      var ignored, at := Locate(m);
      if ignored { return; }
      Responded(m, at, room);
    }

    // --------------------------------------------------------- local calls

    /** tr_raft_core_propose_batch */
    method Submit(commands: seq<(nat, seq<Byte>)>)
      requires Valid() && (role == Leader ==> term != 0)
      modifies this, log
      ensures Valid()
      ensures id in old(Now()).progress
      ensures var o := Propose(cfg, id, old(Now()), commands); Now() == o.node && Sent() == o.msgs
    {
      hide Requested, ValidConfig, NodeOK, Broadcast, UpdateCommit, ProgressInRange, AppendLocal, Proposed;
      ghost var s0 := Now();
      NodeBounds(cfg, id, s0);
      ProposeKeepsOK(cfg, id, s0, commands);
      Begin();
      if role != Leader || transferTarget != 0 { return; }
      var status := AppendCommands(commands);
      RequestedNothing(id, log.Full());
      if status != OK { return; }
      AppendedRange(cfg, id, s0, Proposed(s0, commands));
      AdvanceCommit();
      BroadcastReplication();
    }

    /** The local append of a proposal, with the leader's own progress. */
    method AppendCommands(commands: seq<(nat, seq<Byte>)>) returns (status: Status)
      requires log.Valid() && term != 0 && id in progress && log.maxEntries == cfg.maxLog
      modifies this`progress, log
      ensures log.Valid() && log.maxEntries == cfg.maxLog && log.baseIndex == old(log.baseIndex)
      ensures status == OK <==> ValidProposals(commands) && |old(log.Full())| - log.baseIndex + |commands| <= cfg.maxLog
      ensures Now() == if status == OK then AppendLocal(id, old(Now()), Proposed(old(Now()), commands)) else old(Now())
    {
      ghost var s0 := Now();
      status := log.AppendBatch(term, commands);
      if status != OK { return; }
      assert L.Numbered(|s0.log|, term, commands) == Proposed(s0, commands);
      var last := log.LastIndex();
      progress := progress[id := progress[id].(matched := last, next := last + 1)];
    }

    /** tr_raft_core_transfer_leadership; reads in progress are counted elsewhere and refuse the transfer. */
    method TransferLeadership(target: NodeId, reading: nat)
      requires Valid()
      modifies this
      ensures Valid()
      ensures var o := if reading == 0 then Transfer(cfg, id, old(Now()), target) else Out(old(Now()), {});
        Now() == o.node && Sent() == o.msgs
    {
      hide Requested, ValidConfig, NodeOK, EmitReplication, WindowInRange;
      ghost var s0 := Now();
      NodeBounds(cfg, id, s0);
      TransferKeepsOK(cfg, id, s0, target);
      Begin();
      if target == id || target !in cfg.voters || role != Leader || transferTarget != 0 || target in paused ||
         target !in progress || reading != 0
      {
        return;
      }
      StartTransfer(target);
    }

    /** The transfer towards a voter that can take it. */
    method StartTransfer(target: NodeId)
      requires log.Valid() && ProgressInRange(cfg, Now()) && target in progress && target !in paused
      modifies this`transferTarget, this`transferSent, this`progress, this`messages, this`snapshots
      ensures var s1 := old(Now()).(transferTarget := target, transferSent := false);
        var o := if s1.progress[target].matched >= |s1.log|
          then Out(s1.(transferSent := true), {TimeoutNow(id, target, s1.term)})
                 else EmitReplication(cfg, id, s1, target, false);
        Now() == o.node && Sent() == old(Sent()) + o.msgs
    {
      hide Requested, EmitReplication;
      transferTarget, transferSent := target, false;
      if progress[target].matched >= log.LastIndex() {
        var sent := Put(TimeoutNow(id, target, term));
        transferSent := sent;
      } else {
        var _ := EmitReplicationTo(target, false);
      }
    }

    /** The append-timeout loop of tr_raft_core_tick. */
    method ExpireAll(expired: set<NodeId>)
      requires progress.Keys == Peers(cfg)
      modifies this`progress
      ensures Now() == ExpireWindows(old(Now()), expired)
    {
      ghost var was := progress;
      var i := 0;
      while i < |cfg.peers|
        invariant i <= |cfg.peers| && progress.Keys == was.Keys
        invariant forall p :: p in progress ==>
          progress[p] == if p in cfg.peers[..i] then Restarted(was[p], p, expired, paused) else was[p]
      {
        var p := cfg.peers[i];
        if p in expired && p !in paused && progress[p].window != [] {
          progress := progress[p := Progress(progress[p].matched + 1, progress[p].matched, [], true)];
        }
        assert cfg.peers[..i + 1] == cfg.peers[..i] + [p];
        i := i + 1;
      }
      assert cfg.peers[..i] == cfg.peers;
    }

    method Tick(expired: set<NodeId>, heartbeat: bool)
      requires Valid() && role == Leader
      modifies this
      ensures Valid()
      ensures ProgressInRange(cfg, old(Now()))
      ensures var o := LeaderTick(cfg, id, old(Now()), expired, heartbeat); Now() == o.node && Sent() == o.msgs
    {
      hide Requested, ValidConfig, NodeOK, Broadcast;
      ghost var s0 := Now();
      NodeBounds(cfg, id, s0);
      TickKeepsOK(cfg, id, s0, expired, heartbeat);
      Begin();
      ExpireAll(expired);
      if heartbeat { BroadcastReplication(); }
    }

    /** tr_raft_core_snapshot_completed */
    method SnapshotDone(p: NodeId, index: nat, room: nat)
      requires Valid()
      modifies this
      ensures Valid()
      ensures var o := SnapshotCompleted(cfg, id, old(Now()), p, index, room); Now() == o.node && Sent() == o.msgs
    {
      hide Requested, ValidConfig, NodeOK, FillPeer;
      ghost var s0 := Now();
      NodeBounds(cfg, id, s0);
      SnapshotCompletedKeepsOK(cfg, id, s0, p, index, room);
      Begin();
      if p == id || index == 0 || p !in progress || index > log.baseIndex || role != Leader { return; }
      progress := progress[p := Progress(index + 1, Max(progress[p].matched, index), [], true)];
      FillWindow(p, room);
    }

    /** tr_raft_core_compact: the snapshot covers what is committed here. */
    method CompactTo(index: nat, entryTerm: nat) returns (status: Status)
      requires Valid() && index <= commit
      modifies log
      ensures Valid()
      ensures status == OK <==> old(Now()).base < index && entryTerm != 0 && old(Now()).log[index - 1].term == entryTerm
      ensures Now() == old(Now()).(base := if status == OK then index else old(log.baseIndex))
    {
      status := log.Compact(index, entryTerm);
    }
  }

  lemma ReadyToLead(cfg: Config, id: NodeId, s: Node)
    requires NodeOK(cfg, id, s)
    ensures ProgressInRange(cfg, TakeLeadership(cfg, id, s)) && id in cfg.peers && s.progress.Keys == Peers(cfg)
    ensures s.base <= |s.log|
  {
    assert TakeLeadership(cfg, id, s).progress.Keys == Peers(cfg);
  }

  lemma VoteReqKeepsOK(cfg: Config, id: NodeId, s: Node, m: Message)
    requires NodeOK(cfg, id, s) && m.VoteReq?
    ensures NodeOK(cfg, id, HandleVoteReq(cfg, id, s, m).node)
  {
    hide UpToDate;
    assert ResetWindows(s.progress).Keys == s.progress.Keys;
  }

  lemma ReadyToDeclare(cfg: Config, id: NodeId, s: Node)
    requires NodeOK(cfg, id, s) && s.role != Leader
    ensures s.base <= |s.log|
    ensures NodeOK(cfg, id,
                   s.(role := PreCandidate, leaderId := 0, campaign := s.term + 1, preVotes := {id}, votes := {}))
  {
  }

  lemma ReadyToStand(cfg: Config, id: NodeId, s: Node)
    requires NodeOK(cfg, id, s)
    ensures NodeOK(cfg, id, Stand(id, s)) && s.base <= |s.log|
  {
  }

  lemma NodeBounds(cfg: Config, id: NodeId, s: Node)
    requires NodeOK(cfg, id, s)
    ensures s.base <= s.commit <= |s.log| && s.progress.Keys == Peers(cfg) && id in s.progress && id in cfg.peers
    ensures s.role == Leader ==> ProgressInRange(cfg, s) && WindowInRange(s)
  {
  }

  lemma RangeFields(cfg: Config, s: Node)
    requires ProgressInRange(cfg, s)
    ensures s.base <= |s.log| && s.progress.Keys == Peers(cfg)
  {
  }

  lemma ReplacesWithin(s: Node, maxLog: nat, m: Message)
    requires s.base <= |s.log| && m.AppendReq? && L.FollowsOn(m.prev, m.entries)
    ensures var r := L.Reconcile(s.log, s.base, maxLog, m.prev, m.prevTerm, m.entries, s.commit);
      (r.Failed? ==> r.status != OK) && (r.Replace? ==> r.at < |m.entries|) &&
      (r.Replace? ==> forall k :: r.at <= k < |m.entries| ==> m.entries[k].index == m.prev + k + 1)
  {
    ScanStatus(s.log, m.prev, m.entries, 0);
  }

  lemma {:induction false} ScanStatus(log: seq<Entry>, prev: nat, incoming: seq<Entry>, i: nat)
    requires i <= |incoming|
    ensures prev + i <= |log| && L.ScanFrom(log, prev, incoming, i).Bad? ==>
      L.ScanFrom(log, prev, incoming, i).status != OK
    decreases |incoming| - i
  {
    if i < |incoming| { ScanStatus(log, prev, incoming, i + 1); }
  }

  lemma RequestedNothing(id: NodeId, full: seq<Entry>)
    ensures Requested(id, full, [], []) == {}
  {
  }

  lemma FollowerLog(s: Node, t: nat, log': seq<Entry>)
    ensures BecomeFollower(s.(log := log'), t) == BecomeFollower(s, t).(log := log')
    ensures BecomeFollower(s, t).commit == s.commit && BecomeFollower(s, t).log == s.log
    ensures BecomeFollower(s, t).base == s.base
  {
  }

  lemma AdvancedFields(pr: Progress, matched: nat)
    ensures Advanced(pr, matched) ==
      if matched > pr.matched
        then Progress(Max(pr.next, matched + 1), matched, ReleaseThrough(pr.window, matched), false)
      else pr.(window := ReleaseThrough(pr.window, matched), probe := false)
  {
  }

  /** One peer's record after the append timeout was checked. */
  function Restarted(pr: Progress, p: NodeId, expired: set<NodeId>, paused: set<NodeId>): (pr': Progress)
  {
    if p in expired && p !in paused && pr.window != [] then Progress(pr.matched + 1, pr.matched, [], true) else pr
  }

  lemma AppendedRange(cfg: Config, id: NodeId, s: Node, es: seq<Entry>)
    requires ProgressInRange(cfg, s) && id in s.progress
    ensures var s1 := AppendLocal(id, s, es);
      s1.progress.Keys == Peers(cfg) && ProgressInRange(cfg, s1) && ProgressInRange(cfg, UpdateCommit(cfg, s1))
  {
    assert AppendLocal(id, s, es).progress.Keys == s.progress.Keys;
  }

  lemma CommitCandidateStep(cfg: Config, s: Node, i: nat)
    requires i <= |s.log|
    ensures CommitCandidate(cfg, s, i) ==
      if i <= s.commit then s.commit
      else if TermAt(s.log, i) == s.term && IsQuorum(cfg, MatchedVoters(cfg, s, i)) then i
      else CommitCandidate(cfg, s, i - 1)
  {
  }

  // ------------------------------------------------------- specifications

  /** The messages of a Ready; a snapshot request stands for the prefix it names. */
  ghost function Requested(id: NodeId, full: seq<Entry>, messages: seq<Message>,
                           snapshots: seq<SnapshotRequest>): (ms: set<Message>)
  {
    (set m | m in messages) +
    (set r | r in snapshots && r.index <= |full| :: SnapshotMsg(id, r.peer, r.term, full[..r.index]))
  }

  lemma RequestedMessage(id: NodeId, full: seq<Entry>, messages: seq<Message>, snapshots: seq<SnapshotRequest>,
                         m: Message)
    ensures Requested(id, full, messages + [m], snapshots) == Requested(id, full, messages, snapshots) + {m}
  {
  }

  lemma RequestedSnapshot(id: NodeId, full: seq<Entry>, messages: seq<Message>, snapshots: seq<SnapshotRequest>,
                          r: SnapshotRequest)
    requires r.index <= |full|
    ensures Requested(id, full, messages, snapshots + [r]) ==
            Requested(id, full, messages, snapshots) + {SnapshotMsg(id, r.peer, r.term, full[..r.index])}
  {
  }

  lemma RequestedAgain(id: NodeId, full: seq<Entry>, messages: seq<Message>, snapshots: seq<SnapshotRequest>,
                       r: SnapshotRequest)
    requires r.index <= |full| && r in snapshots
    ensures Requested(id, full, messages, snapshots) ==
            Requested(id, full, messages, snapshots) + {SnapshotMsg(id, r.peer, r.term, full[..r.index])}
  {
  }

  /** The final state once `rest` has been carried out on top of what was sent. */
  function AfterSending(sent: set<Message>, rest: Out): (o: Out)
  {
    Out(rest.node, sent + rest.msgs)
  }

  lemma BroadcastStep(cfg: Config, id: NodeId, s: Node, ps: seq<NodeId>, i: nat, sent: set<Message>)
    requires ProgressInRange(cfg, s) && i < |ps| && forall p :: p in ps ==> p in s.progress
    ensures var o := if ps[i] == id then Out(s, {}) else EmitReplication(cfg, id, s, ps[i], true);
      && ProgressInRange(cfg, o.node) && (forall p :: p in ps ==> p in o.node.progress)
      && AfterSending(sent, Broadcast(cfg, id, s, ps[i..])) ==
         AfterSending(sent + o.msgs, Broadcast(cfg, id, o.node, ps[i + 1..]))
  {
    hide EmitReplication;
    EmitKeepsRange(cfg, id, s, ps[i], true);
    assert ps[i..][1..] == ps[i + 1..];
  }

  lemma FillStep(cfg: Config, id: NodeId, s: Node, p: NodeId, left: nat, sent: set<Message>)
    requires ProgressInRange(cfg, s) && p in s.progress && s.progress[p].next > s.base && left > 0
    requires s.progress[p].next <= |s.log|
    ensures var o := EmitReplication(cfg, id, s, p, false);
      && ProgressInRange(cfg, o.node) && p in o.node.progress && o.node.progress[p].next > s.base
      && AfterSending(sent, FillPeer(cfg, id, s, p, left)) ==
         if o.msgs == {} then Out(o.node, sent + o.msgs)
         else AfterSending(sent + o.msgs, FillPeer(cfg, id, o.node, p, left - 1))
  {
    EmitKeepsRange(cfg, id, s, p, false);
  }

  /** The voters among the first i peers whose match index reaches `index`. */
  ghost function Counted(cfg: Config, s: Node, index: nat, i: nat): (vs: set<NodeId>)
    requires i <= |cfg.peers| && s.progress.Keys == Peers(cfg)
  {
    set v | v in cfg.peers[..i] && v in cfg.voters && s.progress[v].matched >= index
  }

  lemma NotBefore(cfg: Config, i: nat)
    requires ValidConfig(cfg) && i < |cfg.peers|
    ensures cfg.peers[i] !in cfg.peers[..i]
  {
  }

  lemma CountedStep(cfg: Config, s: Node, index: nat, i: nat)
    requires ValidConfig(cfg) && i < |cfg.peers| && s.progress.Keys == Peers(cfg)
    ensures Counted(cfg, s, index, 0) == {} && cfg.peers[i] in s.progress
    ensures var p := cfg.peers[i];
      |Counted(cfg, s, index, i + 1)| ==
      |Counted(cfg, s, index, i)| + if p in cfg.voters && s.progress[p].matched >= index then 1 else 0
  {
    var p, a, b := cfg.peers[i], Counted(cfg, s, index, i), Counted(cfg, s, index, i + 1);
    assert cfg.peers[..i + 1] == cfg.peers[..i] + [p];
    NotBefore(cfg, i);
    if p in cfg.voters && s.progress[p].matched >= index { assert b == a + {p}; } else { assert b == a; }
  }

  lemma CountedAll(cfg: Config, s: Node, index: nat)
    requires ValidConfig(cfg) && s.progress.Keys == Peers(cfg)
    ensures Counted(cfg, s, index, |cfg.peers|) == MatchedVoters(cfg, s, index) * cfg.voters
    ensures Counted(cfg, s, index, 0) == {}
  {
    assert cfg.peers[..|cfg.peers|] == cfg.peers;
  }

  /** The requests to the first i peers. */
  ghost function Canvassed(cfg: Config, id: NodeId, s: Node, pre: bool, i: nat): (ms: set<Message>)
    requires i <= |cfg.peers|
  {
    set p | p in cfg.peers[..i] && p in cfg.voters && p != id && p !in s.paused :: Ballot(id, s, p, pre)
  }

  function Ballot(id: NodeId, s: Node, p: NodeId, pre: bool): (m: Message)
  {
    if pre then PreVoteReq(id, p, s.term, s.campaign, |s.log|, LastTerm(s.log))
    else VoteReq(id, p, s.term, |s.log|, LastTerm(s.log))
  }

  lemma CanvassStep(cfg: Config, id: NodeId, s: Node, pre: bool, i: nat)
    requires i < |cfg.peers|
    ensures var p := cfg.peers[i];
      Canvassed(cfg, id, s, pre, i + 1) ==
      Canvassed(cfg, id, s, pre, i) + if p in cfg.voters && p != id then Emit(s, Ballot(id, s, p, pre)) else {}
  {
    assert cfg.peers[..i + 1] == cfg.peers[..i] + [cfg.peers[i]];
  }

  lemma CanvassAll(cfg: Config, id: NodeId, s: Node, pre: bool)
    requires ValidConfig(cfg)
    ensures Canvassed(cfg, id, s, pre, 0) == {}
    ensures Canvassed(cfg, id, s, pre, |cfg.peers|) == if pre then PreVoteRequests(cfg, id, s)
      else VoteRequests(cfg, id, s)
  {
    assert cfg.peers[..|cfg.peers|] == cfg.peers;
    var all := Canvassed(cfg, id, s, pre, |cfg.peers|);
    if pre { assert all == PreVoteRequests(cfg, id, s); } else { assert all == VoteRequests(cfg, id, s); }
  }

  ghost function Marked(cfg: Config, marked: set<NodeId>, i: nat): (vs: set<NodeId>)
    requires i <= |cfg.peers|
  {
    set v | v in cfg.peers[..i] && v in cfg.voters && v in marked
  }

  lemma MarkedStep(cfg: Config, marked: set<NodeId>, i: nat)
    requires ValidConfig(cfg) && i < |cfg.peers|
    ensures var p := cfg.peers[i];
      |Marked(cfg, marked, i + 1)| == |Marked(cfg, marked, i)| + if p in cfg.voters && p in marked then 1 else 0
  {
    var p, a, b := cfg.peers[i], Marked(cfg, marked, i), Marked(cfg, marked, i + 1);
    assert cfg.peers[..i + 1] == cfg.peers[..i] + [p];
    NotBefore(cfg, i);
    if p in cfg.voters && p in marked { assert b == a + {p}; } else { assert b == a; }
  }

  lemma MarkedAll(cfg: Config, marked: set<NodeId>)
    requires ValidConfig(cfg)
    ensures Marked(cfg, marked, 0) == {} && Marked(cfg, marked, |cfg.peers|) == marked * cfg.voters
  {
    assert cfg.peers[..|cfg.peers|] == cfg.peers;
  }
}
