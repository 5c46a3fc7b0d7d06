/**
 One consensus core as a value, and each of its transitions as a function
 (src/core/raft_core.c).  Broadcast order does not matter to the protocol, so
 the messages of one call form a set.  Timers are left to the caller: an
 election timeout, an expired append window or a failed check-quorum round is
 an explicit input.
 */
module RaftNode {
  import opened RaftTypes
  import L = RaftLog

  datatype Role = Follower | PreCandidate | Candidate | Leader

  /** One unacknowledged AppendEntries request: indices prev + 1 through last. */
  datatype Inflight = Inflight(prev: nat, last: nat)

  /** Replication progress of one peer; a probing peer gets one request at a time. */
  datatype Progress = Progress(next: nat, matched: nat, window: seq<Inflight>, probe: bool)

  datatype Node = Node(
    role: Role,
    leaderId: NodeId,
    term: nat,
    votedFor: NodeId,
    log: seq<Entry>,     // every entry, including the compacted prefix
    base: nat,           // last index covered by the local snapshot
    commit: nat,
    campaign: nat,       // term being campaigned for, 0 when none
    preVotes: set<NodeId>,
    votes: set<NodeId>,
    progress: map<NodeId, Progress>,
    transferTarget: NodeId,
    transferSent: bool,
    paused: set<NodeId>)

  /** The fixed membership and limits of one run. */
  datatype Config = Config(peers: seq<NodeId>, voters: set<NodeId>, maxInflight: nat, maxLog: nat)

  predicate ValidConfig(cfg: Config)
  {
    && cfg.voters != {} && |cfg.peers| <= MAX_MEMBERS
    && (forall v :: v in cfg.voters ==> v in cfg.peers)
    && 0 !in cfg.peers
    && (forall i, j :: 0 <= i < j < |cfg.peers| ==> cfg.peers[i] < cfg.peers[j])
    && 1 <= cfg.maxInflight <= MAX_INFLIGHT
  }

  function Peers(cfg: Config): (ps: set<NodeId>)
  {
    set p | p in cfg.peers
  }

  /** A majority of the voters. */
  predicate IsQuorum(cfg: Config, s: set<NodeId>)
  {
    |s * cfg.voters| >= |cfg.voters| / 2 + 1
  }

  datatype Message =
    | PreVoteReq(from: NodeId, to: NodeId, term: nat, campaign: nat, lastIndex: nat, lastTerm: nat)
    | PreVoteResp(from: NodeId, to: NodeId, term: nat, campaign: nat, granted: bool)
    | VoteReq(from: NodeId, to: NodeId, term: nat, lastIndex: nat, lastTerm: nat)
    | VoteResp(from: NodeId, to: NodeId, term: nat, granted: bool)
    | AppendReq(from: NodeId, to: NodeId, term: nat, prev: nat, prevTerm: nat, entries: seq<Entry>, leaderCommit: nat)
    | AppendResp(from: NodeId, to: NodeId, term: nat, heartbeat: bool, granted: bool, matched: nat, hint: nat,
      prev: nat)
    | TimeoutNow(from: NodeId, to: NodeId, term: nat)
    | ReadReq(from: NodeId, to: NodeId, term: nat, context: nat)
    | ReadResp(from: NodeId, to: NodeId, term: nat, context: nat)
    | SnapshotMsg(from: NodeId, to: NodeId, term: nat, prefix: seq<Entry>)
    | SnapshotAck(from: NodeId, to: NodeId, term: nat, index: nat)

  /** The node after a call and the messages it produced. */
  datatype Out = Out(node: Node, msgs: set<Message>)

  /** tr_emit drops messages to a paused peer. */
  function Emit(s: Node, m: Message): (ms: set<Message>)
  {
    if m.to in s.paused then {} else {m}
  }

  const IDLE_WINDOW := Progress(0, 0, [], true)

  function FreshProgress(cfg: Config): (m: map<NodeId, Progress>)
  {
    map p | p in cfg.peers :: IDLE_WINDOW
  }

  /** Every append window emptied and set to probe. */
  function ResetWindows(m: map<NodeId, Progress>): (m': map<NodeId, Progress>)
  {
    map p | p in m :: m[p].(window := [], probe := true)
  }

  /** tr_become_follower */
  function BecomeFollower(s: Node, term: nat): (s': Node)
  {
    s.(term := Max(s.term, term),
       votedFor := if term > s.term then 0 else s.votedFor,
       role := Follower, leaderId := 0, campaign := 0, preVotes := {}, votes := {},
       progress := ResetWindows(s.progress),
       transferTarget := 0, transferSent := false)
  }

  /** tr_log_is_up_to_date: the candidate's log is at least as recent. */
  predicate UpToDate(lastIndex: nat, lastTerm: nat, log: seq<Entry>)
  {
    if lastTerm != LastTerm(log) then lastTerm > LastTerm(log) else lastIndex >= |log|
  }

  // ------------------------------------------------------------ replication

  function WindowLimit(cfg: Config, p: Progress): nat
  {
    if p.probe then 1 else cfg.maxInflight
  }

  /** tr_emit_replication: one request, heartbeat or snapshot for one peer. */
  function EmitReplication(cfg: Config, id: NodeId, s: Node, p: NodeId, heartbeat: bool): (o: Out)
    requires p in s.progress && s.base <= |s.log|
    requires 1 <= s.progress[p].next <= |s.log| + 1
  {
    var pr := s.progress[p];
    if p in s.paused then Out(s, {})
    else if pr.next <= s.base then
      Out(s.(progress := s.progress[p := pr.(window := [], probe := true)]),
          {SnapshotMsg(id, p, s.term, s.log[..s.base])})
    else if pr.next <= |s.log| then
      if |pr.window| >= WindowLimit(cfg, pr) then Out(s, {})
      else
        var count := Min(|s.log| - pr.next + 1, MAX_APPEND_ENTRIES);
        var sent := Inflight(pr.next - 1, pr.next + count - 1);
        Out(s.(progress := s.progress[p := pr.(next := pr.next + count, window := pr.window + [sent])]),
            {AppendReq(id, p, s.term, pr.next - 1, TermAt(s.log, pr.next - 1),
                       s.log[pr.next - 1..pr.next + count - 1], s.commit)})
    else if heartbeat then
      Out(s, {AppendReq(id, p, s.term, pr.next - 1, TermAt(s.log, pr.next - 1), [], s.commit)})
    else Out(s, {})
  }

  /** Every peer's next index points at or just past the local log. */
  predicate ProgressInRange(cfg: Config, s: Node)
  {
    && s.base <= |s.log|
    && s.progress.Keys == Peers(cfg)
    && forall p :: p in s.progress ==> 1 <= s.progress[p].next <= |s.log| + 1 && s.progress[p].matched <= |s.log|
  }

  lemma EmitKeepsRange(cfg: Config, id: NodeId, s: Node, p: NodeId, heartbeat: bool)
    requires ProgressInRange(cfg, s) && p in s.progress
    ensures ProgressInRange(cfg, EmitReplication(cfg, id, s, p, heartbeat).node)
  {
  }

  /** tr_broadcast_replication over a list of peers. */
  function Broadcast(cfg: Config, id: NodeId, s: Node, ps: seq<NodeId>): (o: Out)
    requires ProgressInRange(cfg, s) && forall p :: p in ps ==> p in s.progress
    ensures ProgressInRange(cfg, o.node)
    decreases ps
  {
    if ps == [] then Out(s, {})
    else if ps[0] == id then Broadcast(cfg, id, s, ps[1..])
    else
      var first := EmitReplication(cfg, id, s, ps[0], true);
      var rest := Broadcast(cfg, id, first.node, ps[1..]);
      Out(rest.node, first.msgs + rest.msgs)
  }

  /** tr_fill_peer_replication_window, with room for `room` more messages. */
  function FillPeer(cfg: Config, id: NodeId, s: Node, p: NodeId, room: nat): (o: Out)
    requires ProgressInRange(cfg, s) && p in s.progress
    ensures ProgressInRange(cfg, o.node)
    decreases room
  {
    if s.progress[p].next <= s.base then EmitReplication(cfg, id, s, p, false)
    else if room == 0 || s.progress[p].next > |s.log| then Out(s, {})
    else
      var first := EmitReplication(cfg, id, s, p, false);
      if first.msgs == {} then Out(s, {})
      else
        var rest := FillPeer(cfg, id, first.node, p, room - 1);
        Out(rest.node, first.msgs + rest.msgs)
  }

  /** Voters known to hold the leader's log through index i. */
  function MatchedVoters(cfg: Config, s: Node, i: nat): (v: set<NodeId>)
  {
    set v | v in cfg.voters && v in s.progress && s.progress[v].matched >= i
  }

  /** Largest index in (commit, i] of the current term held by a majority; commit if none. */
  function CommitCandidate(cfg: Config, s: Node, i: nat): (c: nat)
    requires i <= |s.log|
    ensures c == s.commit || s.commit < c <= i
    ensures c > s.commit ==> TermAt(s.log, c) == s.term && IsQuorum(cfg, MatchedVoters(cfg, s, c))
    ensures forall k :: Max(c, s.commit) < k <= i ==>
              TermAt(s.log, k) != s.term || !IsQuorum(cfg, MatchedVoters(cfg, s, k))
    decreases i
  {
    if i <= s.commit then s.commit
    else if TermAt(s.log, i) == s.term && IsQuorum(cfg, MatchedVoters(cfg, s, i)) then i
    else CommitCandidate(cfg, s, i - 1)
  }

  /** tr_update_commit */
  function UpdateCommit(cfg: Config, s: Node): (s': Node)
  {
    s.(commit := CommitCandidate(cfg, s, |s.log|))
  }

  lemma UpdateCommitFields(cfg: Config, s: Node)
    ensures UpdateCommit(cfg, s) == s.(commit := UpdateCommit(cfg, s).commit)
    ensures s.commit <= UpdateCommit(cfg, s).commit <= Max(s.commit, |s.log|)
  {
  }

  // --------------------------------------------------------------- election

  /** tr_become_leader, before the first broadcast. */
  function TakeLeadership(cfg: Config, id: NodeId, s: Node): (s': Node)
  {
    s.(role := Leader, leaderId := id, campaign := 0, preVotes := {}, votes := {},
       transferTarget := 0, transferSent := false,
       progress := map p | p in cfg.peers ::
         Progress(|s.log| + 1, if p == id then |s.log| else 0, [], p != id))
  }

  function BecomeLeader(cfg: Config, id: NodeId, s: Node): (o: Out)
    requires s.base <= |s.log|
  {
    Broadcast(cfg, id, TakeLeadership(cfg, id, s), cfg.peers)
  }

  /** tr_start_election, up to the vote for oneself. */
  function Stand(id: NodeId, s: Node): (s': Node)
  {
    s.(term := s.campaign, campaign := 0, role := Candidate, leaderId := 0, votedFor := id,
       preVotes := {}, votes := {id})
  }

  function VoteRequests(cfg: Config, id: NodeId, s: Node): (ms: set<Message>)
  {
    set v | v in cfg.voters && v != id && v !in s.paused :: VoteReq(id, v, s.term, |s.log|, LastTerm(s.log))
  }

  function StartElection(cfg: Config, id: NodeId, s: Node): (o: Out)
    requires s.base <= |s.log|
  {
    var s1 := Stand(id, s);
    if IsQuorum(cfg, s1.votes) then BecomeLeader(cfg, id, s1) else Out(s1, VoteRequests(cfg, id, s1))
  }

  function PreVoteRequests(cfg: Config, id: NodeId, s: Node): (ms: set<Message>)
  {
    set v | v in cfg.voters && v != id && v !in s.paused ::
      PreVoteReq(id, v, s.term, s.campaign, |s.log|, LastTerm(s.log))
  }

  /** tr_start_pre_vote */
  function StartPreVote(cfg: Config, id: NodeId, s: Node): (o: Out)
    requires s.base <= |s.log|
  {
    var s1 := s.(role := PreCandidate, leaderId := 0, campaign := s.term + 1, preVotes := {id}, votes := {});
    if IsQuorum(cfg, s1.preVotes) then StartElection(cfg, id, s1) else Out(s1, PreVoteRequests(cfg, id, s1))
  }

  /** tr_step_pre_vote_request; note that it clears the receiver's own campaign. */
  function HandlePreVoteReq(cfg: Config, id: NodeId, s: Node, m: Message): (o: Out)
    requires m.PreVoteReq?
  {
    var granted := id in cfg.voters && s.term != U64_MAX && m.campaign >= s.term + 1 &&
                   UpToDate(m.lastIndex, m.lastTerm, s.log);
    Out(s.(campaign := 0), Emit(s, PreVoteResp(id, m.from, s.term, m.campaign, granted)))
  }

  /** tr_step_pre_vote_response */
  function HandlePreVoteResp(cfg: Config, id: NodeId, s: Node, m: Message): (o: Out)
    requires m.PreVoteResp? && s.base <= |s.log|
  {
    if m.term > s.term then Out(BecomeFollower(s, m.term), {})
    else if s.role != PreCandidate || m.campaign != s.campaign || !m.granted || m.from in s.preVotes then Out(s, {})
    else
      var s1 := s.(preVotes := s.preVotes + {m.from});
      if IsQuorum(cfg, s1.preVotes) then StartElection(cfg, id, s1) else Out(s1, {})
  }

  /** The receiver's state once it has adopted a newer term from a vote request. */
  function AdoptTerm(s: Node, term: nat): (s': Node)
  {
    if term > s.term then BecomeFollower(s, term) else s
  }

  predicate GrantsVote(cfg: Config, id: NodeId, s: Node, m: Message)
    requires m.VoteReq?
  {
    && id in cfg.voters && m.term == s.term && (s.votedFor == 0 || s.votedFor == m.from)
    && UpToDate(m.lastIndex, m.lastTerm, s.log)
  }

  /** tr_step_vote_request */
  function HandleVoteReq(cfg: Config, id: NodeId, s: Node, m: Message): (o: Out)
    requires m.VoteReq?
  {
    var s1 := AdoptTerm(s, m.term);
    var granted := GrantsVote(cfg, id, s1, m);
    var s2 := if granted then s1.(votedFor := m.from) else s1;
    Out(s2, Emit(s2, VoteResp(id, m.from, s2.term, granted)))
  }

  /** tr_step_vote_response */
  function HandleVoteResp(cfg: Config, id: NodeId, s: Node, m: Message): (o: Out)
    requires m.VoteResp? && s.base <= |s.log|
  {
    if m.term > s.term then Out(BecomeFollower(s, m.term), {})
    else if s.role != Candidate || m.term != s.term || !m.granted || m.from in s.votes then Out(s, {})
    else
      var s1 := s.(votes := s.votes + {m.from});
      if IsQuorum(cfg, s1.votes) then BecomeLeader(cfg, id, s1) else Out(s1, {})
  }

  /** tr_step_timeout_now: campaign at once, without a pre-vote round. */
  function HandleTimeoutNow(cfg: Config, id: NodeId, s: Node, m: Message): (o: Out)
    requires m.TimeoutNow? && s.base <= |s.log|
  {
    if id !in cfg.voters || s.role != Follower || m.term != s.term || s.leaderId != m.from || s.term == U64_MAX
    then Out(s, {})
    else StartElection(cfg, id, s.(campaign := s.term + 1))
  }

  // ------------------------------------------------------- append requests

  /** Commit index a follower moves to after a matching request. */
  function FollowerCommit(commit: nat, leaderCommit: nat, lastIndex: nat): nat
  {
    if leaderCommit > commit then Min(leaderCommit, lastIndex) else commit
  }

  /** The rule of the Raft paper: never beyond the last entry the request vouches for. */
  function PaperCommit(commit: nat, leaderCommit: nat, lastNew: nat): nat
  {
    Max(commit, Min(leaderCommit, lastNew))
  }

  /** tr_step_heartbeat_request, for both heartbeats and appends. */
  function HandleAppendReq(cfg: Config, id: NodeId, s: Node, m: Message): (o: Out)
    requires m.AppendReq? && s.base <= |s.log|
  {
    var heartbeat := m.entries == [];
    if m.term < s.term then
      Out(s, Emit(s, AppendResp(id, m.from, s.term, heartbeat, false, 0, |s.log| + 1, 0)))
    else
      var r := L.Reconcile(s.log, s.base, cfg.maxLog, m.prev, m.prevTerm, m.entries, s.commit);
      if r.Failed? then Out(s, {})
      else
        var s1 := BecomeFollower(s, m.term).(log := L.LogAfter(s.log, r), leaderId := m.from);
        if r.Mismatch? then
          Out(s1, Emit(s1, AppendResp(id, m.from, s1.term, heartbeat, false, 0, r.hint, m.prev)))
        else
          var s2 := s1.(commit := FollowerCommit(s1.commit, m.leaderCommit, |s1.log|));
          Out(s2, Emit(s2, AppendResp(id, m.from, s2.term, heartbeat, true, m.prev + |m.entries|, 0, m.prev)))
  }

  // ------------------------------------------------------ append responses

  /** Position of the in-flight request sent after prev, or the window's length. */
  function FindInflight(w: seq<Inflight>, prev: nat): (i: nat)
    ensures i <= |w|
    ensures i < |w| ==> w[i].prev == prev
    ensures forall k :: 0 <= k < i ==> w[k].prev != prev
  {
    if w == [] then 0 else if w[0].prev == prev then 0 else 1 + FindInflight(w[1..], prev)
  }

  /** tr_append_window_release_through: drop the confirmed prefix. */
  function ReleaseThrough(w: seq<Inflight>, matched: nat): (w': seq<Inflight>)
    ensures |w'| <= |w| && w' == w[|w| - |w'|..]
    ensures w' != [] ==> w'[0].last > matched
    ensures forall k :: 0 <= k < |w| - |w'| ==> w[k].last <= matched
  {
    if w == [] || w[0].last > matched then w else ReleaseThrough(w[1..], matched)
  }

  /** The early exits of tr_step_heartbeat_response for a leader of the right term. */
  predicate IgnoresResp(s: Node, m: Message)
    requires m.AppendResp? && m.from in s.progress
  {
    var w := s.progress[m.from].window;
    || (m.granted && m.matched > |s.log|)
    || (!m.heartbeat &&
        (FindInflight(w, m.prev) == |w| || (m.granted && m.matched != w[FindInflight(w, m.prev)].last)))
  }

  /** Peer progress after a granted response. */
  function Advanced(pr: Progress, matched: nat): (pr': Progress)
  {
    pr.(window := ReleaseThrough(pr.window, matched), probe := false,
        matched := Max(pr.matched, matched),
        next := if matched > pr.matched then Max(pr.next, matched + 1) else pr.next)
  }

  /** Peer progress after a rejection: back off to the hint, never below what is matched. */
  function BackedOff(base: nat, pr: Progress, m: Message): (pr': Progress)
    requires m.AppendResp?
  {
    var i := FindInflight(pr.window, m.prev);
    var n0 := if !m.heartbeat && i < |pr.window| then pr.window[i].prev
              else if pr.next > base + 1 then pr.next - 1 else pr.next;
    var n1 := if m.hint != 0 && m.hint < n0 then m.hint else n0;
    Progress(Max(n1, pr.matched + 1), pr.matched, [], true)
  }

  /** The part of tr_step_heartbeat_response that changes progress and commit. */
  function Acknowledge(cfg: Config, s: Node, m: Message): (s': Node)
    requires m.AppendResp? && m.from in s.progress
  {
    var pr := s.progress[m.from];
    if m.granted then
      var s1 := s.(progress := s.progress[m.from := Advanced(pr, m.matched)]);
      if m.matched > pr.matched then UpdateCommit(cfg, s1) else s1
    else
      s.(progress := s.progress[m.from := BackedOff(s.base, pr, m)])
  }

  /** Window requests never start past the end of the leader's log. */
  predicate WindowInRange(s: Node)
  {
    forall p :: p in s.progress ==> StartsWithin(s.progress[p].window, |s.log|)
  }

  predicate StartsWithin(w: seq<Inflight>, last: nat)
  {
    forall k :: 0 <= k < |w| ==> w[k].prev <= last
  }

  lemma BackedOffRange(base: nat, pr: Progress, m: Message, last: nat)
    requires m.AppendResp? && pr.next <= last + 1 && pr.matched <= last && StartsWithin(pr.window, last)
    ensures 1 <= BackedOff(base, pr, m).next <= last + 1
  {
  }

  lemma AcknowledgeKeepsRange(cfg: Config, s: Node, m: Message)
    requires m.AppendResp? && m.from in s.progress && ProgressInRange(cfg, s) && !IgnoresResp(s, m) && WindowInRange(s)
    ensures ProgressInRange(cfg, Acknowledge(cfg, s, m))
  {
    hide UpdateCommit;
    var pr := s.progress[m.from];
    UpdateCommitFields(cfg, s.(progress := s.progress[m.from := Advanced(pr, m.matched)]));
    var s' := Acknowledge(cfg, s, m);
    assert pr.next <= |s.log| + 1 && pr.matched <= |s.log|;
    if m.granted {
      assert s'.progress == s.progress[m.from := Advanced(pr, m.matched)];
    } else {
      BackedOffRange(s.base, pr, m, |s.log|);
      assert s'.progress == s.progress[m.from := BackedOff(s.base, pr, m)];
    }
  }

  /** What follows an accepted response: hand leadership over, or send what fits. */
  function Respond(cfg: Config, id: NodeId, s: Node, p: NodeId, granted: bool, room: nat): (o: Out)
    requires ProgressInRange(cfg, s) && p in s.progress
  {
    if granted && !s.transferSent && s.transferTarget == p && s.progress[p].matched >= |s.log| then
      Out(s.(transferSent := p !in s.paused), Emit(s, TimeoutNow(id, p, s.term)))
    else if s.progress[p].next <= |s.log| || !granted then FillPeer(cfg, id, s, p, room)
    else Out(s, {})
  }

  /** tr_step_heartbeat_response */
  function HandleAppendResp(cfg: Config, id: NodeId, s: Node, m: Message, room: nat): (o: Out)
    requires m.AppendResp? && m.from in s.progress
    requires s.role == Leader ==> ProgressInRange(cfg, s) && WindowInRange(s)
  {
    if m.term > s.term then Out(BecomeFollower(s, m.term), {})
    else if s.role != Leader || m.term != s.term || IgnoresResp(s, m) then Out(s, {})
    else
      AcknowledgeKeepsRange(cfg, s, m);
      Respond(cfg, id, Acknowledge(cfg, s, m), m.from, m.granted, room)
  }

  // ------------------------------------------------------------ local calls

  /** The entries a proposal batch turns into. */
  function Proposed(s: Node, commands: seq<(nat, seq<Byte>)>): (es: seq<Entry>)
    ensures |es| == |commands|
    ensures forall i :: 0 <= i < |es| ==> es[i].index == |s.log| + i + 1 && es[i].term == s.term
  {
    seq(|commands|, i requires 0 <= i < |commands| => Entry(|s.log| + i + 1, s.term, commands[i].0, commands[i].1))
  }

  predicate ValidProposals(commands: seq<(nat, seq<Byte>)>)
  {
    && 0 < |commands| <= MAX_PROPOSAL_BATCH
    && forall i :: 0 <= i < |commands| ==> commands[i].0 != 0 && |commands[i].1| <= MAX_ENTRY_BYTES
  }

  /** Leader log and own progress after the local append. */
  function AppendLocal(id: NodeId, s: Node, es: seq<Entry>): (s': Node)
    requires id in s.progress
  {
    var log' := s.log + es;
    s.(log := log', progress := s.progress[id := s.progress[id].(matched := |log'|, next := |log'| + 1)])
  }

  /** tr_raft_core_propose_batch; every refusal leaves the node alone. */
  function Propose(cfg: Config, id: NodeId, s: Node, commands: seq<(nat, seq<Byte>)>): (o: Out)
    requires s.role == Leader ==> ProgressInRange(cfg, s) && id in s.progress
  {
    if !ValidProposals(commands) || s.role != Leader || s.transferTarget != 0 ||
       |s.log| - s.base + |commands| > cfg.maxLog
    then Out(s, {})
    else Broadcast(cfg, id, UpdateCommit(cfg, AppendLocal(id, s, Proposed(s, commands))), cfg.peers)
  }

  /** tr_raft_core_transfer_leadership */
  function Transfer(cfg: Config, id: NodeId, s: Node, target: NodeId): (o: Out)
    requires s.role == Leader ==> ProgressInRange(cfg, s)
  {
    if target == id || target !in cfg.voters || s.role != Leader || s.transferTarget != 0 || target in s.paused ||
       target !in s.progress
    then Out(s, {})
    else
      var s1 := s.(transferTarget := target, transferSent := false);
      if s.progress[target].matched >= |s.log| then
        Out(s1.(transferSent := true), {TimeoutNow(id, target, s.term)})
      else EmitReplication(cfg, id, s1, target, false)
  }

  /** Expired windows restart from the first unmatched index (tr_raft_core_tick). */
  function ExpireWindows(s: Node, expired: set<NodeId>): (s': Node)
  {
    s.(progress := map p | p in s.progress ::
         if p in expired && p !in s.paused && s.progress[p].window != []
         then Progress(s.progress[p].matched + 1, s.progress[p].matched, [], true)
         else s.progress[p])
  }

  /** A leader tick: expire windows, then broadcast when the heartbeat is due. */
  function LeaderTick(cfg: Config, id: NodeId, s: Node, expired: set<NodeId>, heartbeat: bool): (o: Out)
    requires s.role == Leader && ProgressInRange(cfg, s)
  {
    var s1 := ExpireWindows(s, expired);
    if heartbeat then Broadcast(cfg, id, s1, cfg.peers) else Out(s1, {})
  }

  /** tr_raft_core_snapshot_completed */
  function SnapshotCompleted(cfg: Config, id: NodeId, s: Node, p: NodeId, index: nat, room: nat): (o: Out)
    requires s.role == Leader ==> ProgressInRange(cfg, s)
  {
    if p == id || index == 0 || p !in s.progress || index > s.base || s.role != Leader then Out(s, {})
    else
      var pr := Progress(index + 1, Max(s.progress[p].matched, index), [], true);
      FillPeer(cfg, id, s.(progress := s.progress[p := pr]), p, room)
  }

  /** A restart recovers term, vote, log, snapshot base and commit index. */
  function Restart(cfg: Config, s: Node): (s': Node)
  {
    Node(Follower, 0, s.term, s.votedFor, s.log, s.base, s.commit, 0, {}, {}, FreshProgress(cfg), 0, false, {})
  }

  /**
   Installing a received snapshot: the durable store keeps the local suffix only
   when the entry at the snapshot index has the snapshot's term, and the core is
   rebuilt from what was stored (tr_wal_persist_snapshot_source, remote install).
   */
  function InstallSnapshot(cfg: Config, id: NodeId, s: Node, m: Message): (o: Out)
    requires m.SnapshotMsg?
  {
    var index := |m.prefix|;
    if m.term < s.term || index <= s.base || index < s.commit then Out(s, {})
    else
      var log' := if index <= |s.log| && TermAt(s.log, index) == LastTerm(m.prefix)
                  then m.prefix + s.log[index..] else m.prefix;
      var s1 := s.(term := m.term, votedFor := if m.term > s.term then 0 else s.votedFor,
                   log := log', base := index, commit := index);
      Out(Restart(cfg, s1), {SnapshotAck(id, m.from, m.term, index)})
  }
}
