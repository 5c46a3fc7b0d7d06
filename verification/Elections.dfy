/**
 What an election grants, not only what it refuses: the up-to-date check is a
 total preorder on logs, a vote and a pre-vote are granted exactly when they
 should be, and from every reachable state a node that is not behind a majority
 can be elected.
 */
module Elections {
  import opened RaftTypes
  import opened RaftNode
  import opened Cluster
  import opened ClusterInvariant
  import opened Safety
  import opened ClusterGrowth
  import ClusterProgress
  import PausedPeers

  // ------------------------------------------------------- comparing logs

  /** Last term first, then length. */
  predicate NotBehind(term: nat, length: nat, log: seq<Entry>)
  {
    term > LastTerm(log) || (term == LastTerm(log) && length >= |log|)
  }

  lemma UpToDateExact(length: nat, term: nat, log: seq<Entry>)
    ensures UpToDate(length, term, log) <==> NotBehind(term, length, log)
  {
  }

  /** A candidate with log a passes the check of a voter with log b. */
  predicate Passes(a: seq<Entry>, b: seq<Entry>)
  {
    UpToDate(|a|, LastTerm(a), b)
  }

  /**
   The check is a total preorder: of any two logs one passes against the other,
   it is transitive, and both pass exactly when last term and length agree.
   */
  lemma UpToDatePreorder(a: seq<Entry>, b: seq<Entry>, c: seq<Entry>)
    ensures Passes(a, b) || Passes(b, a)
    ensures Passes(a, b) && Passes(b, c) ==> Passes(a, c)
    ensures Passes(a, b) && Passes(b, a) <==> LastTerm(a) == LastTerm(b) && |a| == |b|
  {
  }

  /** A log passes against everything it extends, and never the other way round. */
  lemma ExtensionPasses(a: seq<Entry>, b: seq<Entry>)
    requires a <= b && Monotone(b)
    ensures Passes(b, a) && (a != b ==> !Passes(a, b))
  {
    if a != [] { assert b[|a| - 1].term <= b[|b| - 1].term; }
  }

  /** A quorum is a strict majority of the voters. */
  lemma QuorumExact(cfg: Config, s: set<NodeId>)
    ensures IsQuorum(cfg, s) <==> 2 * |s * cfg.voters| > |cfg.voters|
  {
  }

  // ------------------------------------------------------------- answers

  /** The voter has no other vote in the term of the request. */
  predicate Unbound(s: Node, m: Message)
  {
    m.term > s.term || (m.term == s.term && (s.votedFor == 0 || s.votedFor == m.from))
  }

  /** A vote is granted, and kept, exactly when the voter is free and the candidate not behind. */
  lemma VoteAnswer(cfg: Config, id: NodeId, s: Node, m: Message)
    requires m.VoteReq?
    ensures var o := HandleVoteReq(cfg, id, s, m);
      var granted := id in cfg.voters && Unbound(s, m) && NotBehind(m.lastTerm, m.lastIndex, s.log);
      && o.msgs == (if m.from in s.paused then {} else {VoteResp(id, m.from, Max(s.term, m.term), granted)})
      && o.node.term == Max(s.term, m.term) && o.node.log == s.log && o.node.commit == s.commit
      && o.node.votedFor == (if granted then m.from else if m.term > s.term then 0 else s.votedFor)
  {
  }

  /** A pre-vote is granted exactly to a candidate that this voter, in the campaign's term, would vote for. */
  lemma PreVoteAnswer(cfg: Config, id: NodeId, s: Node, m: Message)
    requires m.PreVoteReq?
    ensures var o := HandlePreVoteReq(cfg, id, s, m);
      var ballot := VoteReq(m.from, m.to, m.campaign, m.lastIndex, m.lastTerm);
      var votes := VoteResp(id, m.from, m.campaign, true) in HandleVoteReq(cfg, id, s, ballot).msgs;
      && (PreVoteResp(id, m.from, s.term, m.campaign, true) in o.msgs <==>
          s.term != U64_MAX && m.campaign > s.term && votes)
      && (PreVoteResp(id, m.from, s.term, m.campaign, false) in o.msgs <==>
          m.from !in s.paused && !(s.term != U64_MAX && m.campaign > s.term && votes))
      && o.node == s.(campaign := 0)
  {
  }

  // ---------------------------------------------------- winning elections

  /**
   A read barrier is confirmed by exactly the voters that follow its sender in its
   term, with the sender's own context, and never at the cost of their state.
   */
  lemma ReadAnswer(cfg: Config, id: NodeId, s: Node, m: Message, room: nat)
    requires NodeOK(cfg, id, s) && m.ReadReq? && m.from in cfg.peers
    ensures var o := Receive(cfg, id, s, m, room);
      && o.node == s
      && (o.msgs != {} <==>
          && id in cfg.voters && m.context != 0 && s.role == Follower && m.term == s.term && s.leaderId == m.from
          && m.from !in s.paused)
      && forall r :: r in o.msgs ==> r == ReadResp(id, m.from, m.term, m.context)
  {
    assert Emit(s, ReadResp(id, m.from, s.term, m.context)) ==
      if m.from in s.paused then {} else {ReadResp(id, m.from, s.term, m.context)};
    assert ReadResp(id, m.from, s.term, m.context) in {ReadResp(id, m.from, s.term, m.context)};
  }

  /** The run goes on. */
  ghost predicate Continues(cfg: Config, cs: seq<Cluster>, es: seq<Event>, cs': seq<Cluster>, es': seq<Event>)
  {
    IsRun(cfg, cs', es') && cs <= cs' && es <= es'
  }

  function Now(cs: seq<Cluster>): (c: Cluster)
    requires cs != []
  {
    cs[|cs| - 1]
  }

  /** One more event. */
  lemma Proceed(cfg: Config, cs: seq<Cluster>, es: seq<Event>, e: Event) returns (cs': seq<Cluster>, es': seq<Event>)
    requires IsRun(cfg, cs, es) && Enabled(cfg, Now(cs), e)
    ensures cs' != [] && Continues(cfg, cs, es, cs', es') && ClusterOK(cfg, Now(cs))
    ensures Now(cs') == Next(cfg, Now(cs), e)
  {
    hide Next, ClusterOK;
    RunsExtend(cfg, cs, es, e);
    cs', es' := cs + [Next(cfg, cs[|es|], e)], es + [e];
  }

  /** Voter v has not reached term t, is not ahead of n, and the two can talk. */
  predicate Willing(cfg: Config, c: Cluster, n: NodeId, v: NodeId, t: nat)
    requires n in c.nodes
  {
    && v in c.nodes && v in cfg.voters && v != n && c.nodes[v].term < t
    && n !in c.nodes[v].paused && v !in c.nodes[n].paused && Passes(c.nodes[n].log, c.nodes[v].log)
  }

  ghost predicate AllWilling(cfg: Config, c: Cluster, n: NodeId, vs: set<NodeId>, t: nat)
    requires n in c.nodes
  {
    forall v :: v in vs ==> Willing(cfg, c, n, v, t)
  }

  /** n asks for pre-votes for term t, and has sent its requests. */
  ghost predicate Canvassing(cfg: Config, c: Cluster, n: NodeId, t: nat)
  {
    && n in c.nodes && n in cfg.voters && n in cfg.peers
    && (var s := c.nodes[n];
        && s.role == PreCandidate && s.campaign == t == s.term + 1
        && forall v :: v in cfg.voters && v != n && v !in s.paused ==>
             PreVoteReq(n, v, s.term, t, |s.log|, LastTerm(s.log)) in c.net)
  }

  /** n asks for votes in term t, and has sent its requests. */
  ghost predicate Standing(cfg: Config, c: Cluster, n: NodeId, t: nat)
  {
    && n in c.nodes && n in cfg.voters && n in cfg.peers
    && (var s := c.nodes[n];
        && s.role == Candidate && s.term == t
        && forall v :: v in cfg.voters && v != n && v !in s.paused ==>
             VoteReq(n, v, s.term, |s.log|, LastTerm(s.log)) in c.net)
  }

  /** Two deliveries: a request reaches v, and its answer comes back to n. */
  lemma Exchange(cfg: Config, cs: seq<Cluster>, es: seq<Event>, n: NodeId, v: NodeId, ask: Message, answer: Message)
    returns (cs': seq<Cluster>, es': seq<Event>)
    requires IsRun(cfg, cs, es) && n in Now(cs).nodes && v in Now(cs).nodes && n != v
    requires ask in Now(cs).net && Deliverable(cfg, v, ask) && Deliverable(cfg, n, answer)
    requires NodeOK(cfg, v, Now(cs).nodes[v]) && NodeOK(cfg, n, Now(cs).nodes[n])
    requires answer in Receive(cfg, v, Now(cs).nodes[v], ask, 0).msgs
    ensures cs' != [] && Continues(cfg, cs, es, cs', es')
    ensures var c := Now(cs);
      var o := Receive(cfg, n, c.nodes[n], answer, 0);
      && Now(cs').nodes == c.nodes[v := Receive(cfg, v, c.nodes[v], ask, 0).node][n := o.node]
      && c.net <= Now(cs').net && o.msgs <= Now(cs').net
  {
    hide Receive, Deliverable, ClusterOK, IsRun, NodeOK;
    var c1, e1 := Proceed(cfg, cs, es, Deliver(v, ask, 0));
    assert answer in Now(c1).net;
    var c2, e2 := Proceed(cfg, c1, e1, Deliver(n, answer, 0));
    cs', es' := c2, e2;
  }

  /** In a run every call is defined, and a voter is a peer. */
  lemma Defined(cfg: Config, cs: seq<Cluster>, es: seq<Event>, n: NodeId)
    requires IsRun(cfg, cs, es) && n in Now(cs).nodes
    ensures cs != [] && NodeOK(cfg, n, Now(cs).nodes[n]) && n in cfg.peers && ClusterOK(cfg, Now(cs))
    ensures forall v :: v in cfg.voters ==> v in cfg.peers && v in Now(cs).nodes
  {
    hide Inv, Extends, NodeOK;
    var hs := Histories(cfg, cs, es);
    ClusterProgress.InvCluster(cfg, Now(cs), hs[|cs| - 1]);
  }

  /** One willing voter's pre-vote. */
  lemma PreVoteRound(cfg: Config, cs: seq<Cluster>, es: seq<Event>, n: NodeId, v: NodeId, t: nat)
    returns (cs': seq<Cluster>, es': seq<Event>)
    requires IsRun(cfg, cs, es) && Canvassing(cfg, Now(cs), n, t) && Willing(cfg, Now(cs), n, v, t)
    requires v !in Now(cs).nodes[n].preVotes && t <= U64_MAX
    ensures cs' != [] && Continues(cfg, cs, es, cs', es') && Now(cs).nodes[n].base <= |Now(cs).nodes[n].log|
    ensures var c := Now(cs);
      var s := c.nodes[n].(preVotes := c.nodes[n].preVotes + {v});
      var o := if IsQuorum(cfg, s.preVotes) then StartElection(cfg, n, s) else Out(s, {});
      && Now(cs').nodes == c.nodes[v := c.nodes[v].(campaign := 0)][n := o.node]
      && c.net <= Now(cs').net && o.msgs <= Now(cs').net
  {
    hide IsRun, NodeOK, ClusterOK, IsQuorum, StartElection;
    Defined(cfg, cs, es, n);
    Defined(cfg, cs, es, v);
    ElectionDefined(cfg, n, Now(cs).nodes[n]);
    var s := Now(cs).nodes[n];
    var ask := PreVoteReq(n, v, s.term, t, |s.log|, LastTerm(s.log));
    var answer := PreVoteResp(v, n, Now(cs).nodes[v].term, t, true);
    assert answer in Receive(cfg, v, Now(cs).nodes[v], ask, 0).msgs;
    cs', es' := Exchange(cfg, cs, es, n, v, ask, answer);
  }

  lemma ElectionDefined(cfg: Config, n: NodeId, s: Node)
    requires NodeOK(cfg, n, s)
    ensures s.base <= |s.log|
  {
  }

  /** One willing voter's vote. */
  lemma VoteRound(cfg: Config, cs: seq<Cluster>, es: seq<Event>, n: NodeId, v: NodeId, t: nat)
    returns (cs': seq<Cluster>, es': seq<Event>)
    requires IsRun(cfg, cs, es) && Standing(cfg, Now(cs), n, t) && Willing(cfg, Now(cs), n, v, t)
    requires v !in Now(cs).nodes[n].votes
    ensures cs' != [] && Continues(cfg, cs, es, cs', es') && Now(cs).nodes[n].base <= |Now(cs).nodes[n].log|
    ensures var c := Now(cs);
      var s := c.nodes[n].(votes := c.nodes[n].votes + {v});
      var o := if IsQuorum(cfg, s.votes) then BecomeLeader(cfg, n, s) else Out(s, {});
      && Now(cs').nodes.Keys == c.nodes.Keys && Now(cs').nodes[n] == o.node
      && (forall p :: p in c.nodes && p != v && p != n ==> Now(cs').nodes[p] == c.nodes[p])
      && c.net <= Now(cs').net
  {
    hide IsRun, NodeOK, ClusterOK, IsQuorum, BecomeLeader;
    Defined(cfg, cs, es, n);
    Defined(cfg, cs, es, v);
    ElectionDefined(cfg, n, Now(cs).nodes[n]);
    var s := Now(cs).nodes[n];
    var ask := VoteReq(n, v, s.term, |s.log|, LastTerm(s.log));
    var answer := VoteResp(v, n, t, true);
    VoteAnswer(cfg, v, Now(cs).nodes[v], ask);
    assert answer in Receive(cfg, v, Now(cs).nodes[v], ask, 0).msgs;
    cs', es' := Exchange(cfg, cs, es, n, v, ask, answer);
  }

  /** What an election leaves of the candidate: leader of the term, with its log as it was. */
  predicate Leads(c: Cluster, n: NodeId, t: nat, log: seq<Entry>)
  {
    n in c.nodes && c.nodes[n].role == Leader && c.nodes[n].term == t && c.nodes[n].log == log
  }

  lemma LeadsAtOnce(cfg: Config, n: NodeId, s: Node)
    requires s.base <= |s.log|
    ensures var s' := BecomeLeader(cfg, n, s).node; s'.role == Leader && s'.term == s.term && s'.log == s.log
  {
    hide Broadcast;
    PausedPeers.BroadcastGated(cfg, n, TakeLeadership(cfg, n, s), cfg.peers);
  }

  lemma Chain(cfg: Config, a: seq<Cluster>, ea: seq<Event>, b: seq<Cluster>, eb: seq<Event>, c: seq<Cluster>,
              ec: seq<Event>)
    requires Continues(cfg, a, ea, b, eb) && Continues(cfg, b, eb, c, ec)
    ensures Continues(cfg, a, ea, c, ec)
  {
    hide IsRun;
  }

  lemma Onward(cfg: Config, a: seq<Cluster>, ea: seq<Event>, b: seq<Cluster>, eb: seq<Event>)
    requires Continues(cfg, a, ea, b, eb)
    ensures IsRun(cfg, b, eb)
  {
    hide IsRun;
  }

  lemma FirstWilling(cfg: Config, c: Cluster, n: NodeId, vs: set<NodeId>, t: nat)
    requires n in c.nodes && AllWilling(cfg, c, n, vs, t)
    ensures forall v :: v in vs ==> Willing(cfg, c, n, v, t) && v != n && v in c.nodes
  {
  }

  lemma SomeLeft(cfg: Config, have: set<NodeId>, todo: set<NodeId>)
    requires !IsQuorum(cfg, have) && IsQuorum(cfg, have + todo)
    ensures todo != {}
  {
    hide IsQuorum;
    assert have + {} == have;
  }

  lemma StandingFacts(cfg: Config, c: Cluster, n: NodeId, t: nat)
    requires Standing(cfg, c, n, t)
    ensures n in c.nodes && c.nodes[n].term == t
  {
  }

  lemma CanvassFacts(cfg: Config, c: Cluster, n: NodeId, t: nat)
    requires Canvassing(cfg, c, n, t)
    ensures n in c.nodes && n in cfg.voters && n in cfg.peers && c.nodes[n].campaign == t
  {
  }

  lemma StillStanding(cfg: Config, c: Cluster, c': Cluster, n: NodeId, v: NodeId, todo: set<NodeId>, t: nat)
    requires Standing(cfg, c, n, t) && AllWilling(cfg, c, n, todo, t) && c'.nodes.Keys == c.nodes.Keys
    requires c'.nodes[n] == c.nodes[n].(votes := c.nodes[n].votes + {v}) && c.net <= c'.net
    requires forall p :: p in c.nodes && p != v && p != n ==> c'.nodes[p] == c.nodes[p]
    ensures Standing(cfg, c', n, t) && AllWilling(cfg, c', n, todo - {v}, t)
  {
    hide Passes;
  }

  lemma StillCanvassing(cfg: Config, c: Cluster, c': Cluster, n: NodeId, v: NodeId, vs: set<NodeId>, t: nat, s: Node)
    requires Canvassing(cfg, c, n, t) && AllWilling(cfg, c, n, vs, t) && v in vs
    requires c'.nodes == c.nodes[v := c.nodes[v].(campaign := 0)][n := s] && c.net <= c'.net
    requires s.log == c.nodes[n].log && s.paused == c.nodes[n].paused
    ensures AllWilling(cfg, c', n, vs, t)
    ensures s == c.nodes[n].(preVotes := s.preVotes) ==> Canvassing(cfg, c', n, t)
  {
    hide Passes;
  }

  /** The willing voters vote one after the other until there is a majority. */
  lemma {:induction false} Collect(cfg: Config, cs: seq<Cluster>, es: seq<Event>, n: NodeId, todo: set<NodeId>, t: nat)
    returns (cs': seq<Cluster>, es': seq<Event>)
    requires IsRun(cfg, cs, es) && cs != [] && n in Now(cs).nodes
    requires Standing(cfg, Now(cs), n, t) && AllWilling(cfg, Now(cs), n, todo, t)
    requires todo !! Now(cs).nodes[n].votes && IsQuorum(cfg, Now(cs).nodes[n].votes + todo)
    requires !IsQuorum(cfg, Now(cs).nodes[n].votes)
    ensures cs' != [] && Continues(cfg, cs, es, cs', es') && Leads(Now(cs'), n, t, Now(cs).nodes[n].log)
    decreases |todo|
  {
    hide IsRun, IsQuorum, BecomeLeader, Willing, Standing, AllWilling, Continues;
    FirstWilling(cfg, Now(cs), n, todo, t);
    StandingFacts(cfg, Now(cs), n, t);
    var s := Now(cs).nodes[n];
    SomeLeft(cfg, s.votes, todo);
    var v :| v in todo;
    cs', es' := VoteRound(cfg, cs, es, n, v, t);
    var s' := s.(votes := s.votes + {v});
    if IsQuorum(cfg, s'.votes) {
      LeadsAtOnce(cfg, n, s');
    } else {
      assert s'.votes + (todo - {v}) == s.votes + todo;
      StillStanding(cfg, Now(cs), Now(cs'), n, v, todo, t);
      Onward(cfg, cs, es, cs', es');
      var c2, e2 := Collect(cfg, cs', es', n, todo - {v}, t);
      Chain(cfg, cs, es, cs', es', c2, e2);
      cs', es' := c2, e2;
    }
  }

  /** The election proper, from the moment n stands. */
  lemma Stands(cfg: Config, cs: seq<Cluster>, es: seq<Event>, n: NodeId, s: Node, vs: set<NodeId>)
    returns (cs': seq<Cluster>, es': seq<Event>)
    requires IsRun(cfg, cs, es) && cs != [] && n in Now(cs).nodes && s.base <= |s.log|
    requires n in cfg.voters && n in cfg.peers
    requires var o := StartElection(cfg, n, s); Now(cs).nodes[n] == o.node && o.msgs <= Now(cs).net
    requires AllWilling(cfg, Now(cs), n, vs, s.campaign) && IsQuorum(cfg, vs + {n})
    ensures cs' != [] && Continues(cfg, cs, es, cs', es') && Leads(Now(cs'), n, s.campaign, s.log)
  {
    hide IsRun, BecomeLeader, Passes;
    var s1 := Stand(n, s);
    if IsQuorum(cfg, s1.votes) {
      LeadsAtOnce(cfg, n, s1);
      cs', es' := cs, es;
    } else {
      assert s1.votes + vs == vs + {n};
      assert forall v :: v in cfg.voters && v != n && v !in s1.paused ==>
          VoteReq(n, v, s1.term, |s1.log|, LastTerm(s1.log)) in VoteRequests(cfg, n, s1);
      cs', es' := Collect(cfg, cs, es, n, vs, s.campaign);
    }
  }

  /** The willing voters pre-vote one after the other until n may stand. */
  lemma {:induction false} Canvass(cfg: Config, cs: seq<Cluster>, es: seq<Event>, n: NodeId, todo: set<NodeId>,
                                   vs: set<NodeId>, t: nat) returns (cs': seq<Cluster>, es': seq<Event>)
    requires IsRun(cfg, cs, es) && cs != [] && n in Now(cs).nodes && todo <= vs
    requires Canvassing(cfg, Now(cs), n, t) && AllWilling(cfg, Now(cs), n, vs, t)
    requires todo !! Now(cs).nodes[n].preVotes && IsQuorum(cfg, Now(cs).nodes[n].preVotes + todo)
    requires !IsQuorum(cfg, Now(cs).nodes[n].preVotes) && IsQuorum(cfg, vs + {n}) && t <= U64_MAX
    ensures cs' != [] && Continues(cfg, cs, es, cs', es') && Leads(Now(cs'), n, t, Now(cs).nodes[n].log)
    decreases |todo|
  {
    hide IsRun, IsQuorum, StartElection, Willing, Canvassing, AllWilling, Continues;
    FirstWilling(cfg, Now(cs), n, vs, t);
    CanvassFacts(cfg, Now(cs), n, t);
    var s := Now(cs).nodes[n];
    SomeLeft(cfg, s.preVotes, todo);
    var v :| v in todo;
    cs', es' := PreVoteRound(cfg, cs, es, n, v, t);
    var s' := s.(preVotes := s.preVotes + {v});
    if IsQuorum(cfg, s'.preVotes) {
      ElectionKeeps(cfg, n, s');
      StillCanvassing(cfg, Now(cs), Now(cs'), n, v, vs, t, StartElection(cfg, n, s').node);
      Onward(cfg, cs, es, cs', es');
      var c2, e2 := Stands(cfg, cs', es', n, s', vs);
      Chain(cfg, cs, es, cs', es', c2, e2);
      cs', es' := c2, e2;
    } else {
      assert s'.preVotes + (todo - {v}) == s.preVotes + todo;
      StillCanvassing(cfg, Now(cs), Now(cs'), n, v, vs, t, s');
      Onward(cfg, cs, es, cs', es');
      var c2, e2 := Canvass(cfg, cs', es', n, todo - {v}, vs, t);
      Chain(cfg, cs, es, cs', es', c2, e2);
      cs', es' := c2, e2;
    }
  }

  lemma ElectionKeeps(cfg: Config, n: NodeId, s: Node)
    requires s.base <= |s.log|
    ensures var s' := StartElection(cfg, n, s).node; s'.log == s.log && s'.paused == s.paused
  {
    hide Broadcast, IsQuorum;
    PausedPeers.BroadcastGated(cfg, n, TakeLeadership(cfg, n, Stand(n, s)), cfg.peers);
  }

  /**
   From every reachable state a voter that is not behind a majority, whose terms
   have not passed it and with which it can talk, can be elected with its log as
   it is: some continuation of the run ends with it leading the next term.
   */
  lemma ElectionPossible(cfg: Config, cs: seq<Cluster>, es: seq<Event>, n: NodeId, vs: set<NodeId>)
    returns (cs': seq<Cluster>, es': seq<Event>)
    requires IsRun(cfg, cs, es) && n in Now(cs).nodes && n in cfg.voters
    requires Now(cs).nodes[n].role != Leader && Now(cs).nodes[n].term < U64_MAX
    requires AllWilling(cfg, Now(cs), n, vs, Now(cs).nodes[n].term + 1) && 2 * (|vs| + 1) > |cfg.voters|
    ensures cs' != [] && Continues(cfg, cs, es, cs', es')
    ensures Leads(Now(cs'), n, Now(cs).nodes[n].term + 1, Now(cs).nodes[n].log)
  {
    hide IsRun, NodeOK, ClusterOK, StartElection, Passes;
    Defined(cfg, cs, es, n);
    var c := Now(cs);
    var s, t := c.nodes[n], c.nodes[n].term + 1;
    assert (vs + {n}) * cfg.voters == vs + {n};
    var c1, e1 := Proceed(cfg, cs, es, ElectionTimeout(n));
    var s1 := s.(role := PreCandidate, leaderId := 0, campaign := t, preVotes := {n}, votes := {});
    ElectionDefined(cfg, n, s);
    if IsQuorum(cfg, s1.preVotes) {
      ElectionKeeps(cfg, n, s1);
      cs', es' := Stands(cfg, c1, e1, n, s1, vs);
    } else {
      assert forall v :: v in cfg.voters && v != n && v !in s1.paused ==>
          PreVoteReq(n, v, s1.term, t, |s1.log|, LastTerm(s1.log)) in PreVoteRequests(cfg, n, s1);
      assert s1.preVotes + vs == vs + {n};
      cs', es' := Canvass(cfg, c1, e1, n, vs, vs, t);
    }
  }

  /**
   A leader can hand over to a follower that has its whole log: some continuation
   of the run, without a pre-vote round, ends with the follower leading the next
   term.
   */
  lemma TransferPossible(cfg: Config, cs: seq<Cluster>, es: seq<Event>, l: NodeId, n: NodeId, vs: set<NodeId>)
    returns (cs': seq<Cluster>, es': seq<Event>)
    requires IsRun(cfg, cs, es) && l in Now(cs).nodes && n in Now(cs).nodes && n in cfg.voters && l != n
    requires var s, f := Now(cs).nodes[l], Now(cs).nodes[n];
      && s.role == Leader && s.transferTarget == 0 && n !in s.paused && l in cfg.voters
      && n in s.progress && s.progress[n].matched >= |s.log|
      && f.role == Follower && f.term == s.term < U64_MAX && f.leaderId == l
    requires AllWilling(cfg, Now(cs), n, vs, Now(cs).nodes[n].term + 1) && 2 * (|vs| + 1) > |cfg.voters|
    ensures cs' != [] && Continues(cfg, cs, es, cs', es')
    ensures Leads(Now(cs'), n, Now(cs).nodes[n].term + 1, Now(cs).nodes[n].log)
  {
    hide IsRun, NodeOK, ClusterOK, StartElection, Passes, IsQuorum;
    Defined(cfg, cs, es, n);
    Defined(cfg, cs, es, l);
    ElectionDefined(cfg, n, Now(cs).nodes[n]);
    var t := Now(cs).nodes[n].term + 1;
    var s := Now(cs).nodes[n].(campaign := t);
    var c1, e1 := Proceed(cfg, cs, es, TransferTo(l, n));
    var c2, e2 := Proceed(cfg, c1, e1, Deliver(n, TimeoutNow(l, n, s.term), 0));
    ElectionKeeps(cfg, n, s);
    QuorumExact(cfg, vs + {n});
    assert (vs + {n}) * cfg.voters == vs + {n};
    var c3, e3 := Stands(cfg, c2, e2, n, s, vs);
    cs', es' := c3, e3;
  }
}
