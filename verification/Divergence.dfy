/**
 A run of three cores in which two of them commit different entries at the same
 index.  It uses only elections, proposals, deliveries and one append timeout:
 node 1 leads term 1 and keeps a ninth entry to itself, node 3 leads term 2 and
 commits its own ninth entry with node 2, and then resends entries 1 to 8 to
 node 1 with commit index 9.
 */
module Divergence {
  import opened RaftTypes
  import opened RaftNode
  import opened Cluster
  import opened ClusterInvariant
  import opened ClusterGrowth
  import opened ClusterCommit
  import opened Safety
  import L = RaftLog

  const TRIO := Config([1, 2, 3], {1, 2, 3}, 1, 100)

  function Last(cs: seq<Cluster>): (c: Cluster)
    requires cs != []
  {
    cs[|cs| - 1]
  }

  lemma Extend(cs: seq<Cluster>, es: seq<Event>, e: Event) returns (cs': seq<Cluster>, es': seq<Event>)
    requires cs != [] && IsRun(TRIO, cs, es) && Enabled(TRIO, Last(cs), e)
    ensures cs' != [] && IsRun(TRIO, cs', es') && ClusterOK(TRIO, Last(cs)) && ClusterOK(TRIO, Last(cs'))
    ensures Last(cs') == Next(TRIO, Last(cs), e) && es' == es + [e]
    ensures forall m :: m in Last(cs).net ==> m in Last(cs').net
    ensures forall n :: n in Last(cs).nodes && n != e.n ==>
      n in Last(cs').nodes && Last(cs').nodes[n] == Last(cs).nodes[n]
    ensures e.n in Last(cs').nodes && Last(cs').nodes[e.n] == Fire(TRIO, Last(cs).nodes[e.n], e).node
    ensures forall m :: m in Fire(TRIO, Last(cs).nodes[e.n], e).msgs ==> m in Last(cs').net
    ensures Last(cs').nodes.Keys == {1, 2, 3}
  {
    hide Fire, NodeOK, Init;
    assert es + [e] != [];
    RunsExtend(TRIO, cs, es, e);
    cs', es' := cs + [Next(TRIO, Last(cs), e)], es + [e];
    NextKeepsOK(TRIO, Last(cs), e);
    assert Peers(TRIO) == {1, 2, 3};
  }

  lemma TwoOfThree(a: NodeId, b: NodeId)
    requires a in {1, 2, 3} && b in {1, 2, 3} && a != b
    ensures IsQuorum(TRIO, {a} + {b}) && !IsQuorum(TRIO, {a})
  {
    assert ({a} + {b}) * TRIO.voters == {a, b};
    assert {a} * TRIO.voters == {a};
    assert |TRIO.voters| == 3;
  }

  // ------------------------------------------------------------ elections

  /** What an idle member looks like. */
  predicate Idle(s: Node, term: nat, log: seq<Entry>)
  {
    && s.role != Leader && s.term == term && s.log == log && s.base == 0 && s.commit <= |log| && s.paused == {}
    && s.progress.Keys == Peers(TRIO)
  }

  predicate Leads(s: Node, n: NodeId, term: nat, log: seq<Entry>)
  {
    && s.role == Leader && s.term == term && s.log == log && s.base == 0 && s.commit <= |log| && s.paused == {}
    && s.transferTarget == 0 && s.progress.Keys == Peers(TRIO) && n in s.progress
    && s.progress[n] == Progress(|log| + 1, |log|, [], false)
    && forall p :: p in s.progress && p != n ==> s.progress[p] == Progress(|log| + 1, 0, [], true)
  }

  lemma {:induction false} HeartbeatsOnly(n: NodeId, s: Node, ps: seq<NodeId>)
    requires ProgressInRange(TRIO, s) && forall p :: p in ps ==> p in s.progress
    requires forall p :: p in s.progress ==> s.progress[p].next == |s.log| + 1
    ensures Broadcast(TRIO, n, s, ps).node == s
    decreases ps
  {
    if ps != [] { HeartbeatsOnly(n, s, ps[1..]); }
  }

  lemma Crowned(n: NodeId, s: Node, term: nat, log: seq<Entry>)
    requires n in {1, 2, 3} && s.term == term && s.log == log && s.base == 0 && s.commit <= |log| && s.paused == {}
    ensures Leads(BecomeLeader(TRIO, n, s).node, n, term, log)
  {
    var s1 := TakeLeadership(TRIO, n, s);
    assert s1.progress.Keys == Peers(TRIO);
    HeartbeatsOnly(n, s1, TRIO.peers);
  }

  lemma IdleOK(n: NodeId, s: Node, term: nat, log: seq<Entry>)
    requires n in {1, 2, 3} && Idle(s, term, log)
    ensures NodeOK(TRIO, n, s)
  {
    assert Peers(TRIO) == {1, 2, 3};
  }

  /** A delivery between members is handled by its message type. */
  lemma Delivered(n: NodeId, s: Node, m: Message)
    requires NodeOK(TRIO, n, s) && m.to == n && m.from != n && m.from in {1, 2, 3}
    requires (m.AppendReq? ==> |m.entries| <= 8)
    ensures m.from in TRIO.peers && m.from in TRIO.voters
    ensures Fire(TRIO, s, Deliver(n, m, 0)) == Receive(TRIO, n, s, m, 0)
  {
    hide NodeOK, Receive;
  }

  lemma Asks(n: NodeId, s: Node, v: NodeId, term: nat, log: seq<Entry>)
    requires n in {1, 2, 3} && v in {1, 2, 3} && n != v && Idle(s, term, log) && term < U64_MAX
    ensures NodeOK(TRIO, n, s)
    ensures var o := Fire(TRIO, s, ElectionTimeout(n));
      && Idle(o.node, term, log) && o.node.role == PreCandidate && o.node.campaign == term + 1 && o.node.preVotes == {n}
      && PreVoteReq(n, v, term, term + 1, |log|, LastTerm(log)) in o.msgs
  {
    hide NodeOK, IsQuorum, StartElection;
    IdleOK(n, s, term, log);
    TwoOfThree(n, v);
  }

  lemma PreGrants(n: NodeId, v: NodeId, s: Node, term: nat, vterm: nat, log: seq<Entry>, vlog: seq<Entry>)
    requires n in {1, 2, 3} && v in {1, 2, 3} && n != v && Idle(s, vterm, vlog) && vterm <= term < U64_MAX
    requires UpToDate(|log|, LastTerm(log), vlog)
    ensures NodeOK(TRIO, v, s)
    ensures var o := Fire(TRIO, s, Deliver(v, PreVoteReq(n, v, term, term + 1, |log|, LastTerm(log)), 0));
      Idle(o.node, vterm, vlog) && PreVoteResp(v, n, vterm, term + 1, true) in o.msgs
  {
    hide NodeOK, Fire, UpToDate;
    IdleOK(v, s, vterm, vlog);
    Delivered(v, s, PreVoteReq(n, v, term, term + 1, |log|, LastTerm(log)));
  }

  lemma Stands(n: NodeId, s: Node, v: NodeId, term: nat, vterm: nat, log: seq<Entry>)
    requires n in {1, 2, 3} && v in {1, 2, 3} && n != v && Idle(s, term, log) && vterm <= term < U64_MAX
    requires s.role == PreCandidate && s.campaign == term + 1 && s.preVotes == {n}
    ensures NodeOK(TRIO, n, s)
    ensures var o := Fire(TRIO, s, Deliver(n, PreVoteResp(v, n, vterm, term + 1, true), 0));
      && Idle(o.node, term + 1, log) && o.node.role == Candidate && o.node.votes == {n}
      && VoteReq(n, v, term + 1, |log|, LastTerm(log)) in o.msgs
  {
    hide NodeOK, Fire, IsQuorum, BecomeLeader;
    IdleOK(n, s, term, log);
    Delivered(n, s, PreVoteResp(v, n, vterm, term + 1, true));
    TwoOfThree(n, v);
  }

  lemma Grants(n: NodeId, v: NodeId, s: Node, term: nat, vterm: nat, log: seq<Entry>, vlog: seq<Entry>)
    requires n in {1, 2, 3} && v in {1, 2, 3} && n != v && Idle(s, vterm, vlog) && vterm <= term < U64_MAX
    requires UpToDate(|log|, LastTerm(log), vlog)
    ensures NodeOK(TRIO, v, s)
    ensures var o := Fire(TRIO, s, Deliver(v, VoteReq(n, v, term + 1, |log|, LastTerm(log)), 0));
      Idle(o.node, term + 1, vlog) && VoteResp(v, n, term + 1, true) in o.msgs
  {
    hide NodeOK, Fire, UpToDate;
    IdleOK(v, s, vterm, vlog);
    Delivered(v, s, VoteReq(n, v, term + 1, |log|, LastTerm(log)));
  }

  lemma WinsSeat(n: NodeId, s: Node, v: NodeId, term: nat, log: seq<Entry>)
    requires n in {1, 2, 3} && v in {1, 2, 3} && n != v && Idle(s, term + 1, log)
    requires s.role == Candidate && s.votes == {n}
    ensures NodeOK(TRIO, n, s)
    ensures Leads(Fire(TRIO, s, Deliver(n, VoteResp(v, n, term + 1, true), 0)).node, n, term + 1, log)
  {
    hide NodeOK, Fire, BecomeLeader, IsQuorum, Leads;
    IdleOK(n, s, term + 1, log);
    Delivered(n, s, VoteResp(v, n, term + 1, true));
    TwoOfThree(n, v);
    Crowned(n, s.(votes := s.votes + {v}), term + 1, log);
  }

  /** Node n is elected with the vote of v; the third node hears nothing. */
  lemma Elected(cs: seq<Cluster>, es: seq<Event>, n: NodeId, v: NodeId, x: NodeId, term: nat, vterm: nat,
                log: seq<Entry>, vlog: seq<Entry>) returns (cs': seq<Cluster>, es': seq<Event>)
    requires cs != [] && IsRun(TRIO, cs, es) && {n, v, x} == {1, 2, 3} && n != v && v != x && n != x
    requires Last(cs).nodes.Keys == {1, 2, 3}
    requires Idle(Last(cs).nodes[n], term, log) && Idle(Last(cs).nodes[v], vterm, vlog) && vterm <= term < U64_MAX
    requires UpToDate(|log|, LastTerm(log), vlog)
    ensures cs' != [] && IsRun(TRIO, cs', es') && Last(cs').nodes.Keys == {1, 2, 3}
    ensures Leads(Last(cs').nodes[n], n, term + 1, log) && Idle(Last(cs').nodes[v], term + 1, vlog)
    ensures Last(cs').nodes[x] == Last(cs).nodes[x]
  {
    hide Fire, Idle, Leads, UpToDate, NodeOK, Next;
    Asks(n, Last(cs).nodes[n], v, term, log);
    cs', es' := Extend(cs, es, ElectionTimeout(n));
    var q := PreVoteReq(n, v, term, term + 1, |log|, LastTerm(log));
    PreGrants(n, v, Last(cs').nodes[v], term, vterm, log, vlog);
    cs', es' := Extend(cs', es', Deliver(v, q, 0));
    Stands(n, Last(cs').nodes[n], v, term, vterm, log);
    cs', es' := Extend(cs', es', Deliver(n, PreVoteResp(v, n, vterm, term + 1, true), 0));
    Grants(n, v, Last(cs').nodes[v], term, vterm, log, vlog);
    cs', es' := Extend(cs', es', Deliver(v, VoteReq(n, v, term + 1, |log|, LastTerm(log)), 0));
    WinsSeat(n, Last(cs').nodes[n], v, term, log);
    cs', es' := Extend(cs', es', Deliver(n, VoteResp(v, n, term + 1, true), 0));
  }

  // ---------------------------------------------------------- replication

  lemma EmitSame(n: NodeId, s: Node, s': Node, p: NodeId)
    requires ProgressInRange(TRIO, s) && ProgressInRange(TRIO, s') && p in s.progress
    requires s' == s.(progress := s'.progress) && s'.progress[p] == s.progress[p]
    ensures EmitReplication(TRIO, n, s', p, true).msgs == EmitReplication(TRIO, n, s, p, true).msgs
    ensures EmitReplication(TRIO, n, s', p, true).node.progress[p] ==
      EmitReplication(TRIO, n, s, p, true).node.progress[p]
  {
  }

  /** Sending to one peer does not change what another peer is sent. */
  lemma EmitElsewhere(n: NodeId, s: Node, q: NodeId, p: NodeId)
    requires ProgressInRange(TRIO, s) && p in s.progress && q in s.progress && p != q
    ensures var s' := EmitReplication(TRIO, n, s, q, true).node;
      ProgressInRange(TRIO, s') && s' == s.(progress := s'.progress) && s'.progress[p] == s.progress[p]
  {
    EmitKeepsRange(TRIO, n, s, q, true);
  }

  /** A broadcast sends each peer what a single emission would. */
  lemma {:induction false} BroadcastReaches(n: NodeId, s: Node, ps: seq<NodeId>, p: NodeId)
    requires ProgressInRange(TRIO, s) && (forall q :: q in ps ==> q in s.progress)
    requires p in ps && p != n && forall i, j :: 0 <= i < j < |ps| ==> ps[i] < ps[j]
    ensures EmitReplication(TRIO, n, s, p, true).msgs <= Broadcast(TRIO, n, s, ps).msgs
    ensures p in Broadcast(TRIO, n, s, ps).node.progress && p in EmitReplication(TRIO, n, s, p, true).node.progress
    ensures Broadcast(TRIO, n, s, ps).node.progress[p] == EmitReplication(TRIO, n, s, p, true).node.progress[p]
    decreases ps
  {
    hide EmitReplication;
    EmitKeepsRange(TRIO, n, s, ps[0], true);
    EmitKeepsRange(TRIO, n, s, p, true);
    EmitSends(TRIO, n, s, ps[0], true);
    if ps[0] == p {
      BroadcastMisses(n, EmitReplication(TRIO, n, s, p, true).node, ps[1..], p);
    } else {
      if ps[0] != n {
        EmitElsewhere(n, s, ps[0], p);
        EmitSame(n, s, EmitReplication(TRIO, n, s, ps[0], true).node, p);
      }
      BroadcastReaches(n, if ps[0] == n then s else EmitReplication(TRIO, n, s, ps[0], true).node, ps[1..], p);
    }
  }

  lemma {:induction false} BroadcastMisses(n: NodeId, s: Node, ps: seq<NodeId>, p: NodeId)
    requires ProgressInRange(TRIO, s) && (forall q :: q in ps ==> q in s.progress)
    requires p !in ps && p in s.progress
    ensures Broadcast(TRIO, n, s, ps).node.progress[p] == s.progress[p]
    decreases ps
  {
    if ps != [] {
      EmitKeepsRange(TRIO, n, s, ps[0], true);
      EmitSends(TRIO, n, s, ps[0], true);
      BroadcastMisses(n, if ps[0] == n then s else EmitReplication(TRIO, n, s, ps[0], true).node, ps[1..], p);
    }
  }

  /** Commands 1, 2, … with no payload. */
  function Commands(count: nat): (cmds: seq<(nat, seq<Byte>)>)
    ensures |cmds| == count && forall i :: 0 <= i < count ==> cmds[i] == (i + 1, [])
  {
    seq(count, i requires 0 <= i < count => (i + 1, []))
  }

  function Batch(first: nat, count: nat, term: nat): (es: seq<Entry>)
    ensures |es| == count && forall i :: 0 <= i < count ==> es[i] == Entry(first + i, term, i + 1, [])
  {
    seq(count, i requires 0 <= i < count => Entry(first + i, term, i + 1, []))
  }

  /** The proposing leader after the local append. */
  lemma AppendedBatch(n: NodeId, s: Node, p: NodeId, term: nat, log: seq<Entry>, count: nat)
    requires n in {1, 2, 3} && p in {1, 2, 3} && p != n && Leads(s, n, term, log)
    ensures n in s.progress
    ensures var s1 := AppendLocal(n, s, Proposed(s, Commands(count)));
      var log' := log + Batch(|log| + 1, count, term);
      && s1 == s.(log := log', progress := s1.progress) && s1.progress.Keys == Peers(TRIO)
      && s1.progress[p] == Progress(|log| + 1, 0, [], true) && s1.progress[n] == Progress(|log'| + 1, |log'|, [], false)
  {
    assert Peers(TRIO) == {1, 2, 3};
    var s1 := AppendLocal(n, s, Proposed(s, Commands(count)));
    assert s1.log == log + Batch(|log| + 1, count, term);
    assert s1.progress.Keys == s.progress.Keys;
  }

  /** The proposing leader before it broadcasts. */
  lemma Appends(n: NodeId, s: Node, p: NodeId, term: nat, log: seq<Entry>, count: nat)
    requires n in {1, 2, 3} && p in {1, 2, 3} && p != n && Leads(s, n, term, log) && 1 <= count <= 8 && |log| <= 8
    ensures n in s.progress
    ensures var s2 := UpdateCommit(TRIO, AppendLocal(n, s, Proposed(s, Commands(count))));
      var log' := log + Batch(|log| + 1, count, term);
      && s2.role == Leader && s2.term == term && s2.log == log' && s2.base == 0 && s2.paused == {}
      && s2.commit <= |log'|
      && s2.transferTarget == 0 && s2.progress.Keys == Peers(TRIO) && ProgressInRange(TRIO, s2)
      && s2.progress[p] == Progress(|log| + 1, 0, [], true) && s2.progress[n].matched == |log'|
  {
    hide CommitCandidate, AppendLocal, UpdateCommit;
    AppendedBatch(n, s, p, term, log, count);
    LeadsOK(n, s, term, log);
    var s1 := AppendLocal(n, s, Proposed(s, Commands(count)));
    AppendLocalRange(TRIO, n, s, Commands(count));
    UpdateCommitFields(TRIO, s1);
    UpdateCommitRule(TRIO, s1);
  }

  /** One emission to a peer whose window is empty. */
  lemma Emits(n: NodeId, s: Node, p: NodeId, log: seq<Entry>, batch: seq<Entry>)
    requires ProgressInRange(TRIO, s) && p in s.progress && s.log == log + batch && 1 <= |batch| <= 8 && s.base == 0
    requires s.paused == {}
    requires s.progress[p] == Progress(|log| + 1, 0, [], true)
    ensures var o := EmitReplication(TRIO, n, s, p, true);
      && o.node.progress[p] == Progress(|s.log| + 1, 0, [Inflight(|log|, |s.log|)], true)
      && AppendReq(n, p, s.term, |log|, LastTerm(log), batch, s.commit) in o.msgs
  {
    assert s.log[|log|..|s.log|] == batch;
    assert TermAt(s.log, |log|) == LastTerm(log);
  }

  /** A leader with fresh windows sends a whole proposal of at most eight entries to both peers. */
  lemma Proposes(n: NodeId, s: Node, p: NodeId, term: nat, log: seq<Entry>, count: nat)
    requires n in {1, 2, 3} && p in {1, 2, 3} && p != n && Leads(s, n, term, log) && 1 <= count <= 8 && |log| <= 8
    ensures NodeOK(TRIO, n, s)
    ensures var o := Fire(TRIO, s, Submit(n, Commands(count)));
      var log' := log + Batch(|log| + 1, count, term);
      && o.node.role == Leader && o.node.term == term && o.node.log == log' && o.node.base == 0 && o.node.paused == {}
      && o.node.commit <= |log'| && o.node.transferTarget == 0 && o.node.progress.Keys == Peers(TRIO)
      && o.node.progress[p] == Progress(|log'| + 1, 0, [Inflight(|log|, |log'|)], true)
      && o.node.progress[n].matched == |log'|
      && AppendReq(n, p, term, |log|, LastTerm(log), Batch(|log| + 1, count, term), o.node.commit) in o.msgs
  {
    hide EmitReplication, Broadcast, UpdateCommit, AppendLocal, NodeOK, Fire, Leads;
    assert Peers(TRIO) == {1, 2, 3};
    ProposalIs(n, s, term, log, count);
    Appends(n, s, p, term, log, count);
    var s2 := UpdateCommit(TRIO, AppendLocal(n, s, Proposed(s, Commands(count))));
    BroadcastReaches(n, s2, TRIO.peers, p);
    BroadcastSends(TRIO, n, s2, TRIO.peers);
    Emits(n, s2, p, log, Batch(|log| + 1, count, term));
  }

  lemma ProposalIs(n: NodeId, s: Node, term: nat, log: seq<Entry>, count: nat)
    requires n in {1, 2, 3} && Leads(s, n, term, log) && 1 <= count <= 8 && |log| <= 8
    ensures NodeOK(TRIO, n, s)
    ensures var s2 := UpdateCommit(TRIO, AppendLocal(n, s, Proposed(s, Commands(count))));
      ProgressInRange(TRIO, s2) && Fire(TRIO, s, Submit(n, Commands(count))) == Broadcast(TRIO, n, s2, TRIO.peers)
  {
    hide Broadcast, UpdateCommit, AppendLocal, NodeOK, ProgressInRange, Proposed;
    LeadsOK(n, s, term, log);
    Appends(n, s, if n == 1 then 2 else 1, term, log, count);
    assert ValidProposals(Commands(count));
  }

  lemma LeadsOK(n: NodeId, s: Node, term: nat, log: seq<Entry>)
    requires n in {1, 2, 3} && Leads(s, n, term, log)
    ensures NodeOK(TRIO, n, s)
  {
    assert Peers(TRIO) == {1, 2, 3};
  }

  // ------------------------------------------------------------ followers

  lemma AppendsBatch(log: seq<Entry>, term: nat, count: nat, commit: nat)
    requires 1 <= term && 1 <= count <= 8 && |log| <= 8
    ensures var batch := Batch(|log| + 1, count, term);
      L.Reconcile(log, 0, 100, |log|, LastTerm(log), batch, commit) == L.Replace(log + batch, 0, false)
  {
    var batch := Batch(|log| + 1, count, term);
    assert L.EntryStatus(batch[0], |log| + 1) == OK;
    assert log[..|log|] + batch[0..] == log + batch;
  }

  /** An idle member takes a batch that starts right after its log. */
  lemma TakesBatch(n: NodeId, p: NodeId, s: Node, vterm: nat, vlog: seq<Entry>, term: nat, count: nat, commit: nat)
    requires n in {1, 2, 3} && p in {1, 2, 3} && p != n && Idle(s, vterm, vlog) && vterm <= term && 1 <= term
    requires 1 <= count <= 8 && |vlog| <= 8
    ensures NodeOK(TRIO, p, s)
    ensures var batch := Batch(|vlog| + 1, count, term);
      var o := Fire(TRIO, s, Deliver(p, AppendReq(n, p, term, |vlog|, LastTerm(vlog), batch, commit), 0));
      && Idle(o.node, term, vlog + batch)
      && AppendResp(p, n, term, false, true, |vlog| + count, 0, |vlog|) in o.msgs
  {
    hide NodeOK, Fire, L.Reconcile;
    IdleOK(p, s, vterm, vlog);
    Delivered(p, s, AppendReq(n, p, term, |vlog|, LastTerm(vlog), Batch(|vlog| + 1, count, term), commit));
    AppendsBatch(vlog, term, count, s.commit);
    assert ResetWindows(s.progress).Keys == s.progress.Keys;
  }

  lemma {:induction false} ScanPresent(log: seq<Entry>, prev: nat, incoming: seq<Entry>, i: nat)
    requires i <= |incoming| && prev + |incoming| <= |log|
    requires forall k :: 0 <= k < |incoming| ==>
      L.EntryStatus(incoming[k], prev + k + 1) == OK && log[prev + k] == incoming[k]
    ensures L.ScanFrom(log, prev, incoming, i) == L.AllPresent
    decreases |incoming| - i
  {
    if i < |incoming| { ScanPresent(log, prev, incoming, i + 1); }
  }

  /** The old leader accepts a batch it already holds and commits past it. */
  lemma Overcommits(s: Node, tail: Entry)
    requires Leads1(s, tail)
    ensures NodeOK(TRIO, 1, s)
    ensures var m := AppendReq(3, 1, 2, 0, 0, Batch(1, 8, 1), 9);
      && Fire(TRIO, s, Deliver(1, m, 0)).node.commit == 9
      && Fire(TRIO, s, Deliver(1, m, 0)).node.log == Batch(1, 8, 1) + [tail]
  {
    hide NodeOK, Fire;
    assert s.base <= s.commit <= |s.log| by { MemberBounds(s); }
    Delivered(1, s, AppendReq(3, 1, 2, 0, 0, Batch(1, 8, 1), 9));
    ScanPresent(s.log, 0, Batch(1, 8, 1), 0);
  }

  lemma MemberBounds(s: Node)
    requires NodeOK(TRIO, 1, s)
    ensures s.base <= s.commit <= |s.log|
  {
  }

  /** The deposed leader with nine entries. */
  predicate Leads1(s: Node, tail: Entry)
  {
    && NodeOK(TRIO, 1, s) && s.term == 1 && s.log == Batch(1, 8, 1) + [tail] && s.base == 0 && s.paused == {}
  }

  // -------------------------------------------------- the second leader

  predicate Waiting(s: Node, log: seq<Entry>)
  {
    && s.role == Leader && s.term == 2 && s.log == log && |log| == 9 && log[8].term == 2 && s.base == 0
    && s.paused == {}
    && s.commit <= 9 && s.transferTarget == 0 && s.progress.Keys == Peers(TRIO) && NodeOK(TRIO, 3, s)
    && {1, 2, 3} <= s.progress.Keys && s.progress[3].matched == 9
    && s.progress[1] == Progress(10, 0, [Inflight(8, 9)], true)
  }

  lemma CommitsNine(s: Node)
    requires s.role == Leader && s.term == 2 && |s.log| == 9 && s.log[8].term == 2 && s.commit <= 9
    requires {2, 3} <= s.progress.Keys && s.progress[2].matched == 9 && s.progress[3].matched == 9
    ensures UpdateCommit(TRIO, s).commit == 9
  {
    TwoOfThree(2, 3);
    var both := ({2} + {3}) * TRIO.voters;
    SubsetSize(both, MatchedVoters(TRIO, s, 9) * TRIO.voters);
  }

  /** Node 2's acknowledgement moves the commit index to 9 and sends nothing. */
  lemma Acknowledged(s: Node, m: Message)
    requires s.role == Leader && s.term == 2 && |s.log| == 9 && s.log[8].term == 2 && s.commit <= 9
    requires s.transferTarget == 0
    requires {2, 3} <= s.progress.Keys && s.progress[3].matched == 9
    requires s.progress[2] == Progress(10, 0, [Inflight(8, 9)], true) && m == AppendResp(2, 3, 2, false, true, 9, 0, 8)
    requires ProgressInRange(TRIO, s) && WindowInRange(s)
    ensures !IgnoresResp(s, m)
    ensures var s' := s.(commit := 9, progress := s.progress[2 := Progress(10, 9, [], false)]);
      Acknowledge(TRIO, s, m) == s' && HandleAppendResp(TRIO, 3, s, m, 0) == Out(s', {})
  {
    assert FindInflight(s.progress[2].window, 8) == 0;
    assert ReleaseThrough(s.progress[2].window, 9) == [];
    var s1 := s.(progress := s.progress[2 := Progress(10, 9, [], false)]);
    assert Advanced(s.progress[2], 9) == Progress(10, 9, [], false);
    CommitsNine(s1);
  }

  lemma Confirms(s: Node, log: seq<Entry>)
    requires Waiting(s, log) && s.progress[2] == Progress(10, 0, [Inflight(8, 9)], true)
    ensures Waiting(Fire(TRIO, s, Deliver(3, AppendResp(2, 3, 2, false, true, 9, 0, 8), 0)).node, log)
    ensures Fire(TRIO, s, Deliver(3, AppendResp(2, 3, 2, false, true, 9, 0, 8), 0)).node.commit == 9
  {
    hide HandleAppendResp, Fire, NodeOK;
    var m := AppendResp(2, 3, 2, false, true, 9, 0, 8);
    FireKeepsOK(TRIO, s, Deliver(3, m, 0));
    ResponseIs(s, m);
    Acknowledged(s, m);
    assert s.progress[2 := Progress(10, 9, [], false)].Keys == s.progress.Keys;
  }

  lemma ResponseIs(s: Node, m: Message)
    requires NodeOK(TRIO, 3, s) && s.role == Leader && m.AppendResp? && m.from == 2 && m.to == 3
    ensures m.from in s.progress && ProgressInRange(TRIO, s) && WindowInRange(s)
    ensures Fire(TRIO, s, Deliver(3, m, 0)) == HandleAppendResp(TRIO, 3, s, m, 0)
  {
    hide HandleAppendResp;
    assert 2 in TRIO.peers && 3 in TRIO.peers;
  }

  /** After the append timeout node 1 is sent entries 1 to 8 again, with commit index 9. */
  lemma Resends(s: Node, log: seq<Entry>)
    requires Waiting(s, log) && s.commit == 9 && log[..8] == Batch(1, 8, 1)
    ensures var o := Fire(TRIO, s, TickLeader(3, {1}, true));
      o.node.commit == 9 && o.node.log == log && AppendReq(3, 1, 2, 0, 0, Batch(1, 8, 1), 9) in o.msgs
  {
    hide Broadcast, Fire, EmitReplication;
    var s1 := ExpireWindows(s, {1});
    Expired(s, log);
    BroadcastReaches(3, s1, TRIO.peers, 1);
    BroadcastSends(TRIO, 3, s1, TRIO.peers);
    EmitsEight(s1, log);
  }

  lemma Expired(s: Node, log: seq<Entry>)
    requires Waiting(s, log)
    ensures var s1 := ExpireWindows(s, {1});
      && ProgressInRange(TRIO, s1) && 1 in s1.progress && s1.progress[1] == Progress(1, 0, [], true)
      && s1 == s.(progress := s1.progress) && (forall p :: p in TRIO.peers ==> p in s1.progress)
      && Fire(TRIO, s, TickLeader(3, {1}, true)) == Broadcast(TRIO, 3, s1, TRIO.peers)
  {
    hide Broadcast;
    assert ExpireWindows(s, {1}).progress.Keys == s.progress.Keys;
  }

  lemma EmitsEight(s: Node, log: seq<Entry>)
    requires ProgressInRange(TRIO, s) && 1 in s.progress && s.progress[1] == Progress(1, 0, [], true) && s.log == log
    requires |log| == 9
    requires s.base == 0 && s.paused == {} && s.commit == 9 && s.term == 2 && log[..8] == Batch(1, 8, 1)
    ensures AppendReq(3, 1, 2, 0, 0, Batch(1, 8, 1), 9) in EmitReplication(TRIO, 3, s, 1, true).msgs
  {
    assert s.log[0..8] == Batch(1, 8, 1);
  }

  // ------------------------------------------------------------- the run

  lemma Start() returns (cs: seq<Cluster>, es: seq<Event>)
    ensures IsRun(TRIO, cs, es) && cs != [] && Last(cs).nodes.Keys == {1, 2, 3}
    ensures forall n :: n in {1, 2, 3} ==> Idle(Last(cs).nodes[n], 0, [])
  {
    var c := Cluster(map p | p in TRIO.peers :: InitialNode(TRIO), {});
    cs, es := [c], [];
    assert c.nodes.Keys == {1, 2, 3};
    assert FreshProgress(TRIO).Keys == Peers(TRIO);
  }

  /** A further entry while the windows are full stays with the leader. */
  lemma KeepsNinth(s: Node)
    requires NodeOK(TRIO, 1, s) && s.role == Leader && s.term == 1 && s.log == Batch(1, 8, 1) && s.base == 0
    requires s.paused == {}
    requires s.transferTarget == 0
    ensures Leads1(Fire(TRIO, s, Submit(1, Commands(1))).node, Entry(9, 1, 1, []))
  {
    hide Broadcast, UpdateCommit, AppendLocal, Fire, NodeOK, ProgressInRange;
    FireKeepsOK(TRIO, s, Submit(1, Commands(1)));
    SubmitIs(s);
    var s1 := AppendLocal(1, s, Proposed(s, Commands(1)));
    UpdateCommitFields(TRIO, s1);
    AppendedLog(s);
    BroadcastSends(TRIO, 1, UpdateCommit(TRIO, s1), TRIO.peers);
  }

  lemma SubmitIs(s: Node)
    requires NodeOK(TRIO, 1, s) && s.role == Leader && s.transferTarget == 0 && |s.log| == 8 && s.base == 0
    ensures 1 in s.progress
    ensures var s2 := UpdateCommit(TRIO, AppendLocal(1, s, Proposed(s, Commands(1))));
      && ProgressInRange(TRIO, s2) && (forall p :: p in TRIO.peers ==> p in s2.progress)
      && Fire(TRIO, s, Submit(1, Commands(1))) == Broadcast(TRIO, 1, s2, TRIO.peers)
  {
    hide Broadcast, UpdateCommit, AppendLocal;
    UpdateCommitFields(TRIO, AppendLocal(1, s, Proposed(s, Commands(1))));
    AppendLocalRange(TRIO, 1, s, Commands(1));
    assert ValidProposals(Commands(1));
  }

  lemma AppendedLog(s: Node)
    requires 1 in s.progress && s.log == Batch(1, 8, 1) && s.term == 1
    ensures var s1 := AppendLocal(1, s, Proposed(s, Commands(1)));
      s1.log == Batch(1, 8, 1) + [Entry(9, 1, 1, [])] && s1 == s.(log := s1.log, progress := s1.progress)
  {
  }

  lemma MemberOK(cs: seq<Cluster>, n: NodeId)
    requires cs != [] && ClusterOK(TRIO, Last(cs)) && n in {1, 2, 3}
    ensures n in Last(cs).nodes && NodeOK(TRIO, n, Last(cs).nodes[n])
  {
    assert Peers(TRIO) == {1, 2, 3};
  }

  /** The leader of term 1 right after proposing eight entries. */
  predicate Proposed8(s: Node)
  {
    && s.role == Leader && s.term == 1 && s.log == Batch(1, 8, 1) && s.base == 0 && s.paused == {}
    && s.transferTarget == 0
  }

  lemma FirstProposal() returns (cs: seq<Cluster>, es: seq<Event>)
    ensures cs != [] && IsRun(TRIO, cs, es) && Last(cs).nodes.Keys == {1, 2, 3}
    ensures Proposed8(Last(cs).nodes[1]) && Idle(Last(cs).nodes[2], 1, []) && Idle(Last(cs).nodes[3], 0, [])
    ensures forall p :: p in {2, 3} ==>
      AppendReq(1, p, 1, 0, 0, Batch(1, 8, 1), Last(cs).nodes[1].commit) in Last(cs).net
  {
    hide Fire, Idle, Leads, NodeOK, Next, IsRun, Leads1;
    cs, es := Start();
    cs, es := Elected(cs, es, 1, 2, 3, 0, 0, [], []);
    var before := Last(cs).nodes[1];
    assert [] + Batch(1, 8, 1) == Batch(1, 8, 1);
    Proposes(1, before, 2, 1, [], 8);
    Proposes(1, before, 3, 1, [], 8);
    cs, es := Extend(cs, es, Submit(1, Commands(8)));
  }

  /** Node 1 leads term 1, replicates eight entries to both peers and appends a ninth locally. */
  lemma FirstTerm() returns (cs: seq<Cluster>, es: seq<Event>)
    ensures cs != [] && IsRun(TRIO, cs, es) && Last(cs).nodes.Keys == {1, 2, 3}
    ensures Idle(Last(cs).nodes[2], 1, Batch(1, 8, 1)) && Idle(Last(cs).nodes[3], 1, Batch(1, 8, 1))
    ensures Leads1(Last(cs).nodes[1], Entry(9, 1, 1, []))
  {
    hide Fire, Idle, NodeOK, Next, IsRun, Leads1, ClusterOK, Batch;
    cs, es := FirstProposal();
    var commit := Last(cs).nodes[1].commit;
    assert [] + Batch(1, 8, 1) == Batch(1, 8, 1);
    TakesBatch(1, 2, Last(cs).nodes[2], 1, [], 1, 8, commit);
    cs, es := Extend(cs, es, Deliver(2, AppendReq(1, 2, 1, 0, 0, Batch(1, 8, 1), commit), 0));
    TakesBatch(1, 3, Last(cs).nodes[3], 0, [], 1, 8, commit);
    cs, es := Extend(cs, es, Deliver(3, AppendReq(1, 3, 1, 0, 0, Batch(1, 8, 1), commit), 0));
    MemberOK(cs, 1);
    KeepsNinth(Last(cs).nodes[1]);
    cs, es := Extend(cs, es, Submit(1, Commands(1)));
  }

  /** Node 3 leads term 2 and commits its own ninth entry with node 2; node 1 hears nothing. */
  lemma SecondTerm() returns (cs: seq<Cluster>, es: seq<Event>)
    ensures IsRun(TRIO, cs, es) && cs != [] && Last(cs).nodes.Keys == {1, 2, 3}
    ensures Leads1(Last(cs).nodes[1], Entry(9, 1, 1, []))
    ensures Waiting(Last(cs).nodes[3], Batch(1, 8, 1) + Batch(9, 1, 2)) && Last(cs).nodes[3].commit == 9
  {
    hide Fire, Idle, Leads, NodeOK, Next, IsRun, Leads1;
    var log := Batch(1, 8, 1);
    cs, es := FirstTerm();
    cs, es := Elected(cs, es, 3, 2, 1, 1, 1, log, log);
    var before := Last(cs).nodes[3];
    Proposes(3, before, 2, 2, log, 1);
    Proposes(3, before, 1, 2, log, 1);
    cs, es := Extend(cs, es, Submit(3, Commands(1)));
    var commit := Last(cs).nodes[3].commit;
    TakesBatch(3, 2, Last(cs).nodes[2], 2, log, 2, 1, commit);
    cs, es := Extend(cs, es, Deliver(2, AppendReq(3, 2, 2, 8, 1, Batch(9, 1, 2), commit), 0));
    MemberOK(cs, 3);
    assert Peers(TRIO) == {1, 2, 3};
    Confirms(Last(cs).nodes[3], log + Batch(9, 1, 2));
    cs, es := Extend(cs, es, Deliver(3, AppendResp(2, 3, 2, false, true, 9, 0, 8), 0));
  }

  /**
   The code's follower commit step is unsafe: nodes 1 and 3 both report index 9
   committed and hold different entries there.
   */
  lemma CommitDivergence() returns (cs: seq<Cluster>, es: seq<Event>)
    ensures IsRun(TRIO, cs, es) && cs != [] && Last(cs).nodes.Keys == {1, 2, 3}
    ensures var a, b := Last(cs).nodes[1], Last(cs).nodes[3];
      a.commit == 9 && b.commit == 9 && |a.log| == 9 && |b.log| == 9 && a.log[8] != b.log[8]
  {
    hide Fire, NodeOK, Next, IsRun, Leads1;
    cs, es := SecondTerm();
    var log := Batch(1, 8, 1) + Batch(9, 1, 2);
    assert log[..8] == Batch(1, 8, 1);
    Resends(Last(cs).nodes[3], log);
    cs, es := Extend(cs, es, TickLeader(3, {1}, true));
    Overcommits(Last(cs).nodes[1], Entry(9, 1, 1, []));
    cs, es := Extend(cs, es, Deliver(1, AppendReq(3, 1, 2, 0, 0, Batch(1, 8, 1), 9), 0));
  }
}
