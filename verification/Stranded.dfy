/**
 The condition under which replication gets there is needed: a request that
 starts below the follower's snapshot is refused, and the refusal leaves the probe
 below it.  A leader that has not compacted as far as its follower then repeats
 one request for ever.
 */
module Stranded {
  import opened RaftTypes
  import opened RaftNode
  import opened Cluster
  import opened Safety
  import opened Acceptance
  import opened CatchUp
  import opened Untimely
  import L = RaftLog

  /**
   A request that starts below the follower's snapshot: refused with a hint above
   its start, which the leader does not follow, so the next one starts below the
   snapshot too.
   */
  lemma BelowSnapshot(cfg: Config, l: NodeId, p: NodeId, s: Node, f: Node, m: Message, prev: nat, last: nat)
    requires NodeOK(cfg, l, s) && NodeOK(cfg, p, f) && s.role == Leader && p in s.progress && f.term <= s.term
    requires IsRequest(m, l, p, s, prev, last) && prev < last <= U64_MAX && prev < f.base
    requires Fits(s, s.progress[p], prev, last) && s.progress[p].matched <= prev
    requires l !in f.paused && p !in s.paused && s.base <= prev
    ensures var o := HandleAppendReq(cfg, p, f, m);
      var r := AppendResp(p, l, s.term, false, false, 0, f.base + 1, prev);
      var s' := HandleAppendResp(cfg, l, s, r, 0).node;
      && o.node.log == f.log && o.node.base == f.base && o.msgs == {r}
      && p in s'.progress && s'.progress[p].matched == s.progress[p].matched && s'.progress[p].window == []
      && CatchUp.Start(s'.progress[p]) < f.base
  {
    hide L.HeldFrom, L.AllConsistent, L.RejectHint, HandleAppendReq;
    var n := L.HeldCount(f.log, prev, m.entries, 0);
    AppendAnswer(cfg, p, f, m, n);
    L.RejectHintSkipsRun(f.log, f.base, prev);
    var r := AppendResp(p, l, s.term, false, false, 0, f.base + 1, prev);
    var pr := s.progress[p];
    assert BackedOff(s.base, pr, r) == Progress(Max(prev, pr.matched + 1), pr.matched, [], true);
    AcknowledgeKeepsRange(cfg, s, r);
  }

  // ------------------------------------------------------------- a run of it

  const AGAIN := AppendReq(1, 2, 1, 0, 0, [FIRST], 1)
  const REFUSAL := AppendResp(2, 1, 1, false, false, 0, 2, 0)

  /** The leader has its one entry out and knows of no match. */
  function Waiting(): (s: Node)
  {
    Lead([FIRST], 0, Progress(2, 0, [Inflight(0, 1)], true))
  }

  /** The learner holds the entry, and has compacted up to the base. */
  function Ahead(base: nat): (s: Node)
  {
    Node(Follower, 1, 1, 0, [FIRST], base, 1, 0, {}, {}, FreshProgress(PAIR), 0, false, {})
  }

  lemma SendsFirst()
    ensures NodeOK(PAIR, 1, Lead([], 0, Progress(1, 0, [], true)))
    ensures AGAIN in Fire(PAIR, Lead([], 0, Progress(1, 0, [], true)), Submit(1, [(1, [])])).msgs
  {
    hide Broadcast, UpdateCommit, AppendLocal, EmitReplication;
    var pr := Progress(1, 0, [], true);
    LeadOK([], 0, pr);
    CommitsOwn([], 0, pr);
    assert [] + [FIRST] == [FIRST];
    assert ValidProposals([(1, [])]);
    EmitsFirst();
    BroadcastIs(Lead([FIRST], 0, pr));
  }

  lemma EmitsFirst()
    ensures var s := Lead([FIRST], 0, Progress(1, 0, [], true));
      ProgressInRange(PAIR, s) && 2 in s.progress && EmitReplication(PAIR, 1, s, 2, true).msgs == {AGAIN}
  {
    hide EmitReplication;
    var s := Lead([FIRST], 0, Progress(1, 0, [], true));
    LeadOK([FIRST], 0, Progress(1, 0, [], true));
    EmitRecord(PAIR, 1, s, 2, true);
    assert [FIRST][0..1] == [FIRST];
  }

  lemma AheadOK(base: nat)
    requires base <= 1
    ensures NodeOK(PAIR, 2, Ahead(base)) && NodeOK(PAIR, 2, InitialNode(PAIR))
  {
    Alone();
  }

  lemma TakesFirst()
    ensures NodeOK(PAIR, 2, InitialNode(PAIR))
    ensures Fire(PAIR, InitialNode(PAIR), Deliver(2, AGAIN, 0)).node == Ahead(0)
  {
    hide L.Reconcile, NodeOK;
    AheadOK(0);
    AppendsFirst();
    assert ResetWindows(FreshProgress(PAIR)) == FreshProgress(PAIR);
  }

  lemma AppendsFirst()
    ensures L.LogAfter([], L.Reconcile([], 0, PAIR.maxLog, 0, 0, [FIRST], 0)) == [FIRST]
    ensures L.Reconcile([], 0, PAIR.maxLog, 0, 0, [FIRST], 0).Replace?
  {
    assert L.EntryStatus(FIRST, 1) == OK;
    assert [] + [FIRST] == [FIRST];
  }

  lemma CompactsFirst()
    ensures NodeOK(PAIR, 2, Ahead(0)) && Fire(PAIR, Ahead(0), Compact(2)).node == Ahead(1)
  {
    AheadOK(0);
  }

  lemma Refuses()
    ensures NodeOK(PAIR, 2, Ahead(1))
    ensures Fire(PAIR, Ahead(1), Deliver(2, AGAIN, 0)) == Out(Ahead(1), {REFUSAL})
  {
    AheadOK(1);
    assert ResetWindows(FreshProgress(PAIR)) == FreshProgress(PAIR);
  }

  /** The refusal makes the leader send the same request once more. */
  lemma Repeats()
    ensures NodeOK(PAIR, 1, Waiting()) && Fire(PAIR, Waiting(), Deliver(1, REFUSAL, 1)).node == Waiting()
    ensures AGAIN in Fire(PAIR, Waiting(), Deliver(1, REFUSAL, 1)).msgs
  {
    hide FillPeer;
    var s := Waiting();
    LeadOK([FIRST], 0, s.progress[2]);
    LeadOK([FIRST], 0, Progress(1, 0, [], true));
    assert FindInflight([Inflight(0, 1)], 0) == 0;
    assert s.progress[2 := Progress(1, 0, [], true)] == Lead([FIRST], 0, Progress(1, 0, [], true)).progress;
    assert Acknowledge(PAIR, s, REFUSAL) == Lead([FIRST], 0, Progress(1, 0, [], true));
    Resends();
  }

  lemma Resends()
    ensures ProgressInRange(PAIR, Lead([FIRST], 0, Progress(1, 0, [], true)))
    ensures FillPeer(PAIR, 1, Lead([FIRST], 0, Progress(1, 0, [], true)), 2, 1) == Out(Waiting(), {AGAIN} + {})
  {
    var s, s' := Lead([FIRST], 0, Progress(1, 0, [], true)), Waiting();
    LeadOK([FIRST], 0, s.progress[2]);
    LeadOK([FIRST], 0, s'.progress[2]);
    assert [FIRST][0..1] == [FIRST] && [] + [Inflight(0, 1)] == [Inflight(0, 1)];
    assert s.progress[2 := Progress(2, 0, [Inflight(0, 1)], true)] == s'.progress;
    assert EmitReplication(PAIR, 1, s, 2, false) == Out(s', {AGAIN});
    assert FillPeer(PAIR, 1, s', 2, 0) == Out(s', {});
  }

  /** The learner has the entry and compacts before the leader hears of it. */
  lemma Strands() returns (cs: seq<Cluster>, es: seq<Event>)
    ensures Reaches(cs, es, Waiting(), Ahead(1)) && AGAIN in cs[|es|].net
  {
    hide Fire, Reaches, NodeOK;
    var initial := InitialNode(PAIR);
    cs, es := Untimely.Start();
    Elects();
    cs, es := Takes(cs, es, initial, initial, ElectionTimeout(1));
    SubmitsFirst();
    SendsFirst();
    cs, es := Takes(cs, es, Lead([], 0, Progress(1, 0, [], true)), initial, Submit(1, [(1, [])]));
    TakesFirst();
    cs, es := Takes(cs, es, Waiting(), initial, Deliver(2, AGAIN, 0));
    CompactsFirst();
    cs, es := Takes(cs, es, Waiting(), Ahead(0), Compact(2));
  }

  /**
   However many times the leader's request is answered, leader and learner are
   where they were: the entry is held, and never matched.
   */
  lemma {:induction false} StrandedForever(n: nat) returns (cs: seq<Cluster>, es: seq<Event>)
    ensures Reaches(cs, es, Waiting(), Ahead(1)) && AGAIN in cs[|es|].net && |es| >= 2 * n
    ensures 2 in Waiting().progress && Waiting().progress[2].matched == 0 && Ahead(1).log == Waiting().log
  {
    hide Fire, Reaches, NodeOK;
    if n == 0 {
      cs, es := Strands();
    } else {
      cs, es := StrandedForever(n - 1);
      Refuses();
      cs, es := Takes(cs, es, Waiting(), Ahead(1), Deliver(2, AGAIN, 0));
      Repeats();
      cs, es := Takes(cs, es, Waiting(), Ahead(1), Deliver(1, REFUSAL, 1));
    }
  }
}
