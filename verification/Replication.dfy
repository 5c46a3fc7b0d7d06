/**
 What a leader can achieve from every reachable state: bring a follower up to its
 whole log, and with a majority of followers commit it, down to a proposal that
 has just been made.
 */
module Replication {
  import opened RaftTypes
  import opened RaftNode
  import opened Cluster
  import opened Safety
  import opened Acceptance
  import opened Elections
  import opened CatchUp
  import CommitProgress
  import ClusterCommit
  import ClusterGrowth
  import Pipeline
  import PausedPeers

  /** The leader knows the follower to hold its whole log. */
  ghost predicate Complete(cfg: Config, c: Cluster, l: NodeId, p: NodeId)
  {
    Ready(cfg, c, l, p) && c.nodes[l].progress[p].matched == |c.nodes[l].log|
  }

  lemma OthersChain(cfg: Config, c: Cluster, c1: Cluster, c2: Cluster, l: NodeId, p: NodeId)
    requires l in c.nodes && l in c1.nodes && l in c2.nodes
    requires OthersReady(cfg, c, c1, l, p) && OthersReady(cfg, c1, c2, l, p) && c1.nodes[l].log == c.nodes[l].log
    ensures OthersReady(cfg, c, c2, l, p)
  {
    hide Pair;
    forall q | q != p && Ready(cfg, c, l, q) && c.nodes[q].log <= c.nodes[l].log
      ensures q in c2.nodes && q in c2.nodes[l].progress && q in c.nodes[l].progress
      ensures Ready(cfg, c2, l, q) && c2.nodes[q] == c.nodes[q]
      ensures c2.nodes[l].progress[q].matched == c.nodes[l].progress[q].matched
    {
      PairFacts(cfg, c.net, l, q, c.nodes[l], c.nodes[q]);
      assert Ready(cfg, c1, l, q);
      PairFacts(cfg, c1.net, l, q, c1.nodes[l], c1.nodes[q]);
      PairFacts(cfg, c2.net, l, q, c2.nodes[l], c2.nodes[q]);
    }
  }

  /** What a sequence of rounds with one follower leaves. */
  ghost predicate Reached(cfg: Config, c: Cluster, c': Cluster, l: NodeId, p: NodeId)
  {
    && l in c.nodes && p in c.nodes && l in c'.nodes && p in c'.nodes
    && SameLeader(c.nodes[l], c'.nodes[l]) && OthersReady(cfg, c, c', l, p) && Complete(cfg, c', l, p)
    && c'.nodes[p].term == c'.nodes[l].term
    && (c.nodes[p].log <= c.nodes[l].log ==> c'.nodes[p].log <= c'.nodes[l].log)
  }

  lemma PairBounds(cfg: Config, net: set<Message>, l: NodeId, p: NodeId, s: Node, f: Node)
    requires Pair(cfg, net, l, p, s, f)
    ensures p in s.progress && s.progress[p].matched <= Start(s.progress[p]) <= |s.log|
  {
    ChainFacts(net, l, p, s, s.progress[p]);
  }

  lemma {:induction false} Rounds(cfg: Config, cs: seq<Cluster>, es: seq<Event>, l: NodeId, p: NodeId)
    returns (cs': seq<Cluster>, es': seq<Event>)
    requires IsRun(cfg, cs, es) && cs != [] && Ready(cfg, Now(cs), l, p)
    ensures cs' != [] && Continues(cfg, cs, es, cs', es') && Reached(cfg, Now(cs), Now(cs'), l, p)
    decreases |Now(cs).nodes[l].log| - Now(cs).nodes[l].progress[p].matched, Start(Now(cs).nodes[l].progress[p]) + 1
  {
    hide IsRun, Pair, OthersReady, Continues;
    var c := Now(cs);
    PairFacts(cfg, c.net, l, p, c.nodes[l], c.nodes[p]);
    PairBounds(cfg, c.net, l, p, c.nodes[l], c.nodes[p]);
    var c1, e1 := Round(cfg, cs, es, l, p);
    Onward(cfg, cs, es, c1, e1);
    PairFacts(cfg, Now(c1).net, l, p, Now(c1).nodes[l], Now(c1).nodes[p]);
    PairBounds(cfg, Now(c1).net, l, p, Now(c1).nodes[l], Now(c1).nodes[p]);
    if Now(c1).nodes[l].progress[p].matched == |Now(c1).nodes[l].log| {
      cs', es' := c1, e1;
    } else {
      var c2, e2 := Rounds(cfg, c1, e1, l, p);
      Chain(cfg, cs, es, c1, e1, c2, e2);
      OthersChain(cfg, c, Now(c1), Now(c2), l, p);
      cs', es' := c2, e2;
    }
  }

  /**
   From every reachable state a leader can bring a follower up to its whole log:
   if the probe starts at or above the follower's snapshot, some continuation of
   the run ends with the follower holding the log and the leader knowing it.
   */
  lemma CatchUpPossible(cfg: Config, cs: seq<Cluster>, es: seq<Event>, l: NodeId, p: NodeId)
    returns (cs': seq<Cluster>, es': seq<Event>)
    requires IsRun(cfg, cs, es) && cs != [] && Ready(cfg, Now(cs), l, p)
    ensures cs' != [] && Continues(cfg, cs, es, cs', es') && Complete(cfg, Now(cs'), l, p)
    ensures var s, f := Now(cs').nodes[l], Now(cs').nodes[p];
      && SameLeader(Now(cs).nodes[l], s) && f.term == s.term && Agree(s.log, f.log, |s.log|)
  {
    hide IsRun, Pair, OthersReady, Continues;
    cs', es' := Rounds(cfg, cs, es, l, p);
    Onward(cfg, cs, es, cs', es');
    PairFacts(cfg, Now(cs').net, l, p, Now(cs').nodes[l], Now(cs').nodes[p]);
    Pipeline.PipeliningSound(cfg, cs', es', |cs'| - 1, l, p);
  }

  /**
   Whatever was lost on the way, an expired window starts over right behind what
   is matched: unless leader or follower has compacted past that, the follower can
   then be brought up.
   */
  lemma ExpiryRestarts(cfg: Config, cs: seq<Cluster>, es: seq<Event>, l: NodeId, p: NodeId)
    returns (cs': seq<Cluster>, es': seq<Event>)
    requires IsRun(cfg, cs, es) && cs != [] && l in Now(cs).nodes && p in Now(cs).nodes && l != p && l in cfg.voters
    requires var s, f := Now(cs).nodes[l], Now(cs).nodes[p];
      && s.role == Leader && f.term <= s.term && p !in s.paused && l !in f.paused && Compatible(s, f)
      && |s.log| <= f.base + cfg.maxLog && |s.log| <= U64_MAX
      && p in s.progress && s.progress[p].window != [] && Max(s.base, f.base) <= s.progress[p].matched
    ensures cs' != [] && Continues(cfg, cs, es, cs', es') && Ready(cfg, Now(cs'), l, p)
    ensures var s, s' := Now(cs).nodes[l], Now(cs').nodes[l];
      && SameLeader(s, s') && Now(cs').nodes[p] == Now(cs).nodes[p]
      && s'.progress[p] == Progress(s.progress[p].matched + 1, s.progress[p].matched, [], true)
  {
    hide IsRun, NodeOK, ClusterOK, Compatible;
    var c := Now(cs);
    var s, f := c.nodes[l], c.nodes[p];
    Defined(cfg, cs, es, l);
    Defined(cfg, cs, es, p);
    Ranged(cfg, l, s);
    cs', es' := Proceed(cfg, cs, es, TickLeader(l, {p}, false));
    var s' := ExpireWindows(s, {p});
    assert Now(cs') == Cluster(c.nodes[l := s'], c.net + {});
    CompatibleStays(s, s', f);
  }

  lemma CompatibleStays(s: Node, s': Node, f: Node)
    requires Compatible(s, f) && s'.log == s.log && s'.commit == s.commit
    ensures Compatible(s', f)
  {
  }

  // --------------------------------------------------------------- committing

  /** The followers lag behind the leader and can be brought up. */
  ghost predicate Lagging(cfg: Config, c: Cluster, l: NodeId, vs: set<NodeId>)
  {
    forall v :: v in vs ==> v in cfg.voters && Ready(cfg, c, l, v) && c.nodes[v].log <= c.nodes[l].log
  }

  ghost predicate AllComplete(cfg: Config, c: Cluster, l: NodeId, vs: set<NodeId>)
  {
    forall v :: v in vs ==> Complete(cfg, c, l, v)
  }

  lemma LaggingAfter(cfg: Config, c: Cluster, c': Cluster, l: NodeId, p: NodeId, vs: set<NodeId>, done: set<NodeId>)
    requires Lagging(cfg, c, l, vs) && p in vs && Reached(cfg, c, c', l, p)
    requires AllComplete(cfg, c, l, done) && done <= vs
    ensures Lagging(cfg, c', l, vs) && AllComplete(cfg, c', l, done + {p})
  {
    hide Pair;
    ReadyHere(cfg, c, l, vs);
    forall v | v in vs ensures Ready(cfg, c', l, v) && v in c'.nodes && c'.nodes[v].log <= c'.nodes[l].log {
      if v != p { assert Ready(cfg, c, l, v); }
    }
    forall v | v in done + {p} ensures Complete(cfg, c', l, v) {
      if v != p { assert Complete(cfg, c, l, v); }
    }
  }

  lemma ReadyHere(cfg: Config, c: Cluster, l: NodeId, vs: set<NodeId>)
    requires Lagging(cfg, c, l, vs)
    ensures forall v :: v in vs ==> l in c.nodes && v in c.nodes && v in c.nodes[l].progress && v != l
  {
    hide Compatible, Chained, InReach;
  }

  lemma {:induction false} AllCatchUp(cfg: Config, cs: seq<Cluster>, es: seq<Event>, l: NodeId, vs: set<NodeId>,
                                      todo: set<NodeId>) returns (cs': seq<Cluster>, es': seq<Event>)
    requires IsRun(cfg, cs, es) && cs != [] && l in Now(cs).nodes && Lagging(cfg, Now(cs), l, vs) && todo <= vs
    requires AllComplete(cfg, Now(cs), l, vs - todo) && Now(cs).nodes[l].commit <= |Now(cs).nodes[l].log|
    ensures cs' != [] && Continues(cfg, cs, es, cs', es') && l in Now(cs').nodes
    ensures SameLeader(Now(cs).nodes[l], Now(cs').nodes[l]) && AllComplete(cfg, Now(cs'), l, vs)
    decreases |todo|
  {
    hide IsRun, Ready, OthersReady, Continues, Lagging, AllComplete;
    if todo == {} {
      assert vs - todo == vs;
      cs', es' := cs, es;
      Stays(cfg, cs, es);
    } else {
      var p :| p in todo;
      LaggingOne(cfg, Now(cs), l, vs, p);
      var c1, e1 := Rounds(cfg, cs, es, l, p);
      Onward(cfg, cs, es, c1, e1);
      LaggingAfter(cfg, Now(cs), Now(c1), l, p, vs, vs - todo);
      assert vs - (todo - {p}) == (vs - todo) + {p};
      var c2, e2 := AllCatchUp(cfg, c1, e1, l, vs, todo - {p});
      Chain(cfg, cs, es, c1, e1, c2, e2);
      cs', es' := c2, e2;
    }
  }

  lemma Stays(cfg: Config, cs: seq<Cluster>, es: seq<Event>)
    requires IsRun(cfg, cs, es)
    ensures Continues(cfg, cs, es, cs, es)
  {
    hide IsRun;
  }

  lemma LaggingOne(cfg: Config, c: Cluster, l: NodeId, vs: set<NodeId>, p: NodeId)
    requires Lagging(cfg, c, l, vs) && p in vs
    ensures Ready(cfg, c, l, p)
  {
  }

  /**
   With a majority of followers that only lag behind, a leader whose last entry
   is of its own term can commit its whole log.
   */
  lemma CommitPossible(cfg: Config, cs: seq<Cluster>, es: seq<Event>, l: NodeId, vs: set<NodeId>)
    returns (cs': seq<Cluster>, es': seq<Event>)
    requires IsRun(cfg, cs, es) && cs != [] && l in Now(cs).nodes && Now(cs).nodes[l].role == Leader && l in cfg.voters
    requires var s := Now(cs).nodes[l]; s.log != [] && s.log[|s.log| - 1].term == s.term
    requires Lagging(cfg, Now(cs), l, vs) && 2 * (|vs| + 1) > |cfg.voters|
    ensures cs' != [] && Continues(cfg, cs, es, cs', es') && l in Now(cs').nodes
    ensures SameLeader(Now(cs).nodes[l], Now(cs').nodes[l]) && Now(cs').nodes[l].commit == |Now(cs).nodes[l].log|
  {
    hide IsRun, Ready, Continues, NodeOK;
    Bounds(cfg, cs, es, |cs| - 1, l);
    Ranged(cfg, l, Now(cs).nodes[l]);
    assert vs - vs == {};
    cs', es' := AllCatchUp(cfg, cs, es, l, vs, vs);
    Onward(cfg, cs, es, cs', es');
    var s := Now(cs').nodes[l];
    CommitProgress.RunOwn(cfg, cs', es', |cs'| - 1, l);
    var k := |s.log|;
    var held := CommitProgress.Holders(cfg, s, k);
    ReadyHere(cfg, Now(cs), l, vs);
    CompleteHeld(cfg, Now(cs'), l, vs);
    assert vs + {l} <= held && |vs + {l}| == |vs| + 1;
    ClusterGrowth.SubsetSize(vs + {l}, held);
    CommitProgress.LeaderCommitsAll(cfg, cs', es', |cs'| - 1, l, k);
  }

  lemma CompleteHeld(cfg: Config, c: Cluster, l: NodeId, vs: set<NodeId>)
    requires AllComplete(cfg, c, l, vs)
    ensures forall v :: v in vs ==>
      l in c.nodes && v in c.nodes[l].progress && c.nodes[l].progress[v].matched == |c.nodes[l].log|
  {
    hide Compatible, Chained, InReach;
    forall v | v in vs ensures l in c.nodes && v in c.nodes[l].progress {
      assert Complete(cfg, c, l, v);
    }
  }

  // ---------------------------------------------------------------- proposing

  /** A follower that lags behind still does after the leader has appended and sent. */
  lemma SubmitPair(cfg: Config, net: set<Message>, net': set<Message>, l: NodeId, v: NodeId, s: Node, s1: Node, f: Node,
                   o: Out)
    requires Pair(cfg, net, l, v, s, f) && f.log <= s.log && net + o.msgs <= net' && ProgressInRange(cfg, s1)
    requires s.log <= s1.log && s1.commit <= |s1.log| && |s1.log| <= f.base + cfg.maxLog && |s1.log| <= U64_MAX
    requires s1 == s.(log := s1.log, commit := s1.commit, progress := s1.progress) && s.commit <= s1.commit
    requires v in s1.progress && s1.progress[v] == s.progress[v] && o == Broadcast(cfg, l, s1, cfg.peers)
    requires forall i, j :: 0 <= i < j < |cfg.peers| ==> cfg.peers[i] != cfg.peers[j]
    ensures Pair(cfg, net', l, v, o.node, f) && f.log <= o.node.log
  {
    hide Broadcast, EmitReplication, Chained;
    ChainStays(net, net, l, v, s, s1, s.progress[v], s.progress[v].probe);
    assert s.progress[v].(probe := s.progress[v].probe) == s.progress[v];
    assert Pair(cfg, net, l, v, s1, f);
    BroadcastReaches(cfg, l, s1, cfg.peers, v);
    SentPair(cfg, net, net', l, v, s1, f, o.node, true);
  }

  /** The leader takes the proposal, and followers and leader have room for it. */
  ghost predicate Submittable(cfg: Config, c: Cluster, l: NodeId, vs: set<NodeId>, commands: seq<(nat, seq<Byte>)>)
    requires l in c.nodes
  {
    var s := c.nodes[l];
    && 0 < |commands| <= MAX_PROPOSAL_BATCH && s.transferTarget == 0
    && (forall i :: 0 <= i < |commands| ==> commands[i].0 != 0 && |commands[i].1| <= MAX_ENTRY_BYTES)
    && |s.log| + |commands| <= s.base + cfg.maxLog && |s.log| + |commands| <= U64_MAX
    && forall v :: v in vs && v in c.nodes ==> |s.log| + |commands| <= c.nodes[v].base + cfg.maxLog
  }

  /** The log with the proposed entries behind it. */
  ghost predicate Extended(s: Node, s': Node, commands: seq<(nat, seq<Byte>)>)
  {
    && s'.role == Leader && s'.term == s.term && |s'.log| == |s.log| + |commands| && s.log <= s'.log
    && forall i :: 0 <= i < |commands| ==>
         s'.log[|s.log| + i] == Entry(|s.log| + i + 1, s.term, commands[i].0, commands[i].1)
  }

  /** The state of the leader when the proposal is appended and the commit index brought up to date. */
  lemma SubmitLeader(cfg: Config, l: NodeId, s: Node, commands: seq<(nat, seq<Byte>)>) returns (s2: Node)
    requires NodeOK(cfg, l, s) && s.role == Leader && s.transferTarget == 0 && 0 < |commands| <= MAX_PROPOSAL_BATCH
    requires forall i :: 0 <= i < |commands| ==> commands[i].0 != 0 && |commands[i].1| <= MAX_ENTRY_BYTES
    requires |s.log| + |commands| <= s.base + cfg.maxLog
    ensures ProgressInRange(cfg, s2) && Propose(cfg, l, s, commands) == Broadcast(cfg, l, s2, cfg.peers)
    ensures s2 == s.(log := s2.log, commit := s2.commit, progress := s2.progress) && Extended(s, s2, commands)
    ensures s.commit <= s2.commit <= |s2.log|
    ensures forall v :: v in s.progress && v != l ==> v in s2.progress && s2.progress[v] == s.progress[v]
  {
    hide Broadcast, UpdateCommit;
    var s1 := AppendLocal(l, s, Proposed(s, commands));
    UpdateCommitFields(cfg, s1);
    ClusterCommit.AppendLocalRange(cfg, l, s, commands);
    s2 := UpdateCommit(cfg, s1);
    assert s.log <= s2.log;
  }

  lemma SubmitRound(cfg: Config, cs: seq<Cluster>, es: seq<Event>, l: NodeId, vs: set<NodeId>,
                    commands: seq<(nat, seq<Byte>)>) returns (cs': seq<Cluster>, es': seq<Event>)
    requires IsRun(cfg, cs, es) && cs != [] && l in Now(cs).nodes && Now(cs).nodes[l].role == Leader
    requires Lagging(cfg, Now(cs), l, vs) && Submittable(cfg, Now(cs), l, vs, commands)
    ensures cs' != [] && Continues(cfg, cs, es, cs', es') && l in Now(cs').nodes && Lagging(cfg, Now(cs'), l, vs)
    ensures Extended(Now(cs).nodes[l], Now(cs').nodes[l], commands)
  {
    hide IsRun, Pair, Continues, NodeOK, ClusterOK, Broadcast, Propose;
    var c := Now(cs);
    var s := c.nodes[l];
    Bounds(cfg, cs, es, |cs| - 1, l);
    Configured(cfg, cs, es);
    cs', es' := Proceed(cfg, cs, es, Submit(l, commands));
    var s2 := SubmitLeader(cfg, l, s, commands);
    var o := Broadcast(cfg, l, s2, cfg.peers);
    PausedPeers.BroadcastGated(cfg, l, s2, cfg.peers);
    assert Now(cs') == Cluster(c.nodes[l := o.node], c.net + o.msgs);
    forall v | v in vs
      ensures v in cfg.voters && Ready(cfg, Now(cs'), l, v) && v in Now(cs').nodes
      ensures Now(cs').nodes[v].log <= Now(cs').nodes[l].log
    {
      assert Ready(cfg, c, l, v);
      PairFacts(cfg, c.net, l, v, s, c.nodes[v]);
      SubmitPair(cfg, c.net, c.net + o.msgs, l, v, s, s2, c.nodes[v], o);
    }
  }

  /**
   A proposal can be committed: from every reachable state in which a leader is
   not handing over and a majority of followers only lag behind, some continuation
   of the run ends with the proposed entries at the end of the leader's log and
   everything committed.
   */
  lemma ProposalPossible(cfg: Config, cs: seq<Cluster>, es: seq<Event>, l: NodeId, vs: set<NodeId>,
                         commands: seq<(nat, seq<Byte>)>) returns (cs': seq<Cluster>, es': seq<Event>)
    requires IsRun(cfg, cs, es) && cs != [] && l in Now(cs).nodes && Now(cs).nodes[l].role == Leader && l in cfg.voters
    requires Lagging(cfg, Now(cs), l, vs) && 2 * (|vs| + 1) > |cfg.voters|
    requires Submittable(cfg, Now(cs), l, vs, commands)
    ensures cs' != [] && Continues(cfg, cs, es, cs', es') && l in Now(cs').nodes
    ensures Extended(Now(cs).nodes[l], Now(cs').nodes[l], commands)
    ensures Now(cs').nodes[l].commit == |Now(cs').nodes[l].log|
  {
    hide IsRun, Lagging, Continues;
    var c1, e1 := SubmitRound(cfg, cs, es, l, vs, commands);
    Onward(cfg, cs, es, c1, e1);
    var s, s1 := Now(cs).nodes[l], Now(c1).nodes[l];
    var i := |commands| - 1;
    assert s1.log[|s.log| + i] == Entry(|s.log| + i + 1, s.term, commands[i].0, commands[i].1);
    var c2, e2 := CommitPossible(cfg, c1, e1, l, vs);
    Chain(cfg, cs, es, c1, e1, c2, e2);
    cs', es' := c2, e2;
  }
}
