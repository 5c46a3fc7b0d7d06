/**
 A run in which a repeated snapshot completion breaks the window of a peer: one
 voter leads a learner, the learner installs a snapshot of one entry and then
 acknowledges a second entry, and the completion of the snapshot arrives once
 more, below the match index by now.
 */
module Untimely {
  import opened RaftTypes
  import opened RaftNode
  import opened Cluster
  import opened ClusterInvariant
  import opened Safety
  import opened Pipeline
  import L = RaftLog

  const PAIR := Config([1, 2], {1}, 1, 100)
  const FIRST := Entry(1, 1, 1, [])
  const SECOND := Entry(2, 1, 1, [])

  /** The leader of term 1, with its record of the learner. */
  function Lead(log: seq<Entry>, base: nat, learner: Progress): (s: Node)
  {
    Node(Leader, 1, 1, 1, log, base, |log|, 0, {}, {}, map[1 := Progress(|log| + 1, |log|, [], false), 2 := learner], 0,
      false, {})
  }

  function Learn(log: seq<Entry>, base: nat): (s: Node)
  {
    Node(Follower, 0, 1, 0, log, base, |log|, 0, {}, {}, FreshProgress(PAIR), 0, false, {})
  }

  lemma Alone()
    ensures IsQuorum(PAIR, {1}) && Peers(PAIR) == {1, 2}
  {
    assert {1} * PAIR.voters == {1};
  }

  lemma LeadOK(log: seq<Entry>, base: nat, pr: Progress)
    requires base <= |log| && 1 <= pr.next <= |log| + 1 && pr.matched <= |log| && StartsWithin(pr.window, |log|)
    ensures NodeOK(PAIR, 1, Lead(log, base, pr))
  {
    Alone();
  }

  /** A broadcast reaches the learner alone. */
  lemma BroadcastIs(s: Node)
    requires ProgressInRange(PAIR, s)
    ensures 2 in s.progress
    ensures var o := EmitReplication(PAIR, 1, s, 2, true);
      Broadcast(PAIR, 1, s, PAIR.peers) == Out(o.node, o.msgs)
  {
    Alone();
    EmitKeepsRange(PAIR, 1, s, 2, true);
    var o := EmitReplication(PAIR, 1, s, 2, true);
    assert PAIR.peers[1..] == [2];
    assert Broadcast(PAIR, 1, o.node, []) == Out(o.node, {});
    assert Broadcast(PAIR, 1, s, [2]) == Out(o.node, o.msgs + {});
  }

  // ------------------------------------------------------------ the calls

  /** A lone voter wins at once. */
  lemma Elects()
    ensures NodeOK(PAIR, 1, InitialNode(PAIR))
    ensures Fire(PAIR, InitialNode(PAIR), ElectionTimeout(1)).node == Lead([], 0, Progress(1, 0, [], true))
  {
    hide Broadcast, IsQuorum;
    Alone();
    var s := TakeLeadership(PAIR, 1,
      Stand(1, InitialNode(PAIR).(role := PreCandidate, leaderId := 0, campaign := 1, preVotes := {1}, votes := {})));
    assert s.progress == map[1 := Progress(1, 0, [], false), 2 := Progress(1, 0, [], true)];
    BroadcastIs(s);
  }

  /** A proposal commits at once; the learner is sent it when its window is empty. */
  lemma Submits(log: seq<Entry>, base: nat, pr: Progress)
    requires base <= |log| <= 1 && 1 <= pr.next <= |log| + 1 && pr.matched <= |log| && StartsWithin(pr.window, |log|)
    ensures NodeOK(PAIR, 1, Lead(log, base, pr))
    ensures var s := Lead(log + [Entry(|log| + 1, 1, 1, [])], base, pr);
      && ProgressInRange(PAIR, s) && 2 in s.progress
      && Fire(PAIR, Lead(log, base, pr), Submit(1, [(1, [])])).node == EmitReplication(PAIR, 1, s, 2, true).node
  {
    hide Broadcast, UpdateCommit, AppendLocal, EmitReplication;
    var log' := log + [Entry(|log| + 1, 1, 1, [])];
    LeadOK(log, base, pr);
    LeadOK(log', base, pr);
    CommitsOwn(log, base, pr);
    assert ValidProposals([(1, [])]);
    BroadcastIs(Lead(log', base, pr));
  }

  lemma CommitsOwn(log: seq<Entry>, base: nat, pr: Progress)
    ensures 1 in Lead(log, base, pr).progress
    ensures var s := Lead(log, base, pr);
      UpdateCommit(PAIR, AppendLocal(1, s, Proposed(s, [(1, [])]))) ==
        Lead(log + [Entry(|log| + 1, 1, 1, [])], base, pr)
  {
    hide IsQuorum;
    Alone();
    var s, log' := Lead(log, base, pr), log + [Entry(|log| + 1, 1, 1, [])];
    var s1 := AppendLocal(1, s, Proposed(s, [(1, [])]));
    assert s1.log == log';
    assert s1.progress == map[1 := Progress(|log'| + 1, |log'|, [], false), 2 := pr];
    assert MatchedVoters(PAIR, s1, |log'|) == {1};
  }

  /** After the timeout the learner is behind the compacted log and is sent the snapshot. */
  lemma Expires()
    ensures NodeOK(PAIR, 1, Lead([FIRST, SECOND], 1, Progress(2, 0, [Inflight(0, 1)], true)))
    ensures var o := Fire(PAIR, Lead([FIRST, SECOND], 1, Progress(2, 0, [Inflight(0, 1)], true)),
      TickLeader(1, {2}, true));
      o.node == Lead([FIRST, SECOND], 1, Progress(1, 0, [], true)) && SnapshotMsg(1, 2, 1, [FIRST]) in o.msgs
  {
    hide Broadcast;
    var s := Lead([FIRST, SECOND], 1, Progress(2, 0, [Inflight(0, 1)], true));
    LeadOK(s.log, 1, s.progress[2]);
    var s1 := Lead([FIRST, SECOND], 1, Progress(1, 0, [], true));
    assert ExpireWindows(s, {2}).progress == s1.progress;
    LeadOK(s1.log, 1, s1.progress[2]);
    BroadcastIs(s1);
    assert s1.log[..1] == [FIRST];
    assert EmitReplication(PAIR, 1, s1, 2, true).node.progress == s1.progress;
  }

  lemma LearnerOK(s: Node)
    requires s == InitialNode(PAIR) || s == Learn([FIRST], 1)
    ensures NodeOK(PAIR, 2, s)
  {
    Alone();
  }

  lemma Installs()
    ensures NodeOK(PAIR, 2, InitialNode(PAIR))
    ensures Fire(PAIR, InitialNode(PAIR), Deliver(2, SnapshotMsg(1, 2, 1, [FIRST]), 0)) ==
            Out(Learn([FIRST], 1), {SnapshotAck(2, 1, 1, 1)})
  {
    LearnerOK(InitialNode(PAIR));
  }

  /** The completion lets the second entry go out. */
  lemma Completes()
    ensures NodeOK(PAIR, 1, Lead([FIRST, SECOND], 1, Progress(1, 0, [], true)))
    ensures var o := Fire(PAIR, Lead([FIRST, SECOND], 1, Progress(1, 0, [], true)),
      Deliver(1, SnapshotAck(2, 1, 1, 1), 1));
      && o.node == Lead([FIRST, SECOND], 1, Progress(3, 1, [Inflight(1, 2)], true))
      && AppendReq(1, 2, 1, 1, 1, [SECOND], 2) in o.msgs
  {
    hide FillPeer;
    var s, s1 := Lead([FIRST, SECOND], 1, Progress(1, 0, [], true)), Lead([FIRST, SECOND], 1, Progress(2, 1, [], true));
    LeadOK(s.log, 1, Progress(1, 0, [], true));
    assert s.progress[2 := Progress(2, 1, [], true)] == s1.progress;
    Refills();
  }

  lemma Refills()
    ensures var s, s' := Lead([FIRST, SECOND], 1, Progress(2, 1, [], true)),
      Lead([FIRST, SECOND], 1, Progress(3, 1, [Inflight(1, 2)], true));
      && ProgressInRange(PAIR, s)
      && FillPeer(PAIR, 1, s, 2, 1) == Out(s', {AppendReq(1, 2, 1, 1, 1, [SECOND], 2)} + {})
  {
    hide EmitReplication;
    SendsSecond();
    var s' := Lead([FIRST, SECOND], 1, Progress(3, 1, [Inflight(1, 2)], true));
    assert FillPeer(PAIR, 1, s', 2, 0) == Out(s', {});
  }

  lemma SendsSecond()
    ensures var s, s' := Lead([FIRST, SECOND], 1, Progress(2, 1, [], true)),
      Lead([FIRST, SECOND], 1, Progress(3, 1, [Inflight(1, 2)], true));
      && ProgressInRange(PAIR, s) && ProgressInRange(PAIR, s')
      && EmitReplication(PAIR, 1, s, 2, false) == Out(s', {AppendReq(1, 2, 1, 1, 1, [SECOND], 2)})
  {
    var s, s' := Lead([FIRST, SECOND], 1, Progress(2, 1, [], true)),
      Lead([FIRST, SECOND], 1, Progress(3, 1, [Inflight(1, 2)], true));
    LeadOK(s.log, 1, Progress(2, 1, [], true));
    LeadOK(s.log, 1, Progress(3, 1, [Inflight(1, 2)], true));
    assert s.log[1..2] == [SECOND] && TermAt(s.log, 1) == 1 && [] + [Inflight(1, 2)] == [Inflight(1, 2)];
    assert s.progress[2 := Progress(3, 1, [Inflight(1, 2)], true)] == s'.progress;
  }

  lemma Learns()
    ensures NodeOK(PAIR, 2, Learn([FIRST], 1))
    ensures var m := AppendReq(1, 2, 1, 1, 1, [SECOND], 2);
      AppendResp(2, 1, 1, false, true, 2, 0, 1) in Fire(PAIR, Learn([FIRST], 1), Deliver(2, m, 0)).msgs
  {
    LearnerOK(Learn([FIRST], 1));
    assert L.EntryStatus(SECOND, 2) == OK;
  }

  lemma Acknowledges()
    ensures NodeOK(PAIR, 1, Lead([FIRST, SECOND], 1, Progress(3, 1, [Inflight(1, 2)], true)))
    ensures var s := Lead([FIRST, SECOND], 1, Progress(3, 1, [Inflight(1, 2)], true));
      Fire(PAIR, s, Deliver(1, AppendResp(2, 1, 1, false, true, 2, 0, 1), 0)).node ==
        Lead([FIRST, SECOND], 1, Progress(3, 2, [], false))
  {
    hide Acknowledge, IgnoresResp, FillPeer;
    LeadOK([FIRST, SECOND], 1, Progress(3, 1, [Inflight(1, 2)], true));
    Matches();
  }

  lemma Matches()
    ensures var s, m := Lead([FIRST, SECOND], 1, Progress(3, 1, [Inflight(1, 2)], true)),
      AppendResp(2, 1, 1, false, true, 2, 0, 1);
      !IgnoresResp(s, m) && Acknowledge(PAIR, s, m) == Lead([FIRST, SECOND], 1, Progress(3, 2, [], false))
  {
    hide UpdateCommit, FindInflight, ReleaseThrough;
    var s, s1 := Lead([FIRST, SECOND], 1, Progress(3, 1, [Inflight(1, 2)], true)),
      Lead([FIRST, SECOND], 1, Progress(3, 2, [], false));
    OneRequest();
    assert s.progress[2 := Progress(3, 2, [], false)] == s1.progress;
    UpdateCommitFields(PAIR, s1);
  }

  lemma OneRequest()
    ensures FindInflight([Inflight(1, 2)], 1) == 0 && ReleaseThrough([Inflight(1, 2)], 2) == []
  {
  }

  /** The same completion once more: next falls back to the match index. */
  lemma Repeats()
    ensures NodeOK(PAIR, 1, Lead([FIRST, SECOND], 1, Progress(3, 2, [], false)))
    ensures Fire(PAIR, Lead([FIRST, SECOND], 1, Progress(3, 2, [], false)),
      Deliver(1, SnapshotAck(2, 1, 1, 1), 0)).node ==
            Lead([FIRST, SECOND], 1, Progress(2, 2, [], true))
  {
    var s := Lead([FIRST, SECOND], 1, Progress(3, 2, [], false));
    var s1 := Lead([FIRST, SECOND], 1, Progress(2, 2, [], true));
    LeadOK(s.log, 1, s.progress[2]);
    LeadOK(s1.log, 1, s1.progress[2]);
    assert s.progress[2 := Progress(2, 2, [], true)] == s1.progress;
  }

  // -------------------------------------------------------------- the run

  /** A run whose last state holds these two nodes and every message named. */
  ghost predicate Reaches(cs: seq<Cluster>, es: seq<Event>, leader: Node, learner: Node)
  {
    IsRun(PAIR, cs, es) && cs[|es|].nodes == map[1 := leader, 2 := learner]
  }

  lemma Takes(cs: seq<Cluster>, es: seq<Event>, leader: Node, learner: Node, e: Event)
    returns (cs': seq<Cluster>, es': seq<Event>)
    requires Reaches(cs, es, leader, learner) && e.n in {1, 2} && (e.Deliver? ==> e.m in cs[|es|].net)
    requires NodeOK(PAIR, e.n, if e.n == 1 then leader else learner)
    ensures var o := Fire(PAIR, if e.n == 1 then leader else learner, e);
      && Reaches(cs', es', if e.n == 1 then o.node else leader, if e.n == 2 then o.node else learner)
      && cs'[|es'|].net == cs[|es|].net + o.msgs && |es'| == |es| + 1
  {
    hide Fire, NodeOK, Step, Init, ValidConfig;
    RunsExtend(PAIR, cs, es, e);
    var c' := Next(PAIR, cs[|es|], e);
    cs', es' := cs + [c'], es + [e];
    assert cs'[|es'|] == c';
  }

  lemma Start() returns (cs: seq<Cluster>, es: seq<Event>)
    ensures Reaches(cs, es, InitialNode(PAIR), InitialNode(PAIR))
  {
    Alone();
    cs, es := [Cluster(map p | p in PAIR.peers :: InitialNode(PAIR), {})], [];
    assert cs[0].nodes == map[1 := InitialNode(PAIR), 2 := InitialNode(PAIR)];
  }

  /** The leader holds two entries, the first one compacted, and owes the learner a snapshot. */
  lemma Behind() returns (cs: seq<Cluster>, es: seq<Event>)
    ensures Reaches(cs, es, Lead([FIRST, SECOND], 1, Progress(1, 0, [], true)), InitialNode(PAIR))
    ensures SnapshotMsg(1, 2, 1, [FIRST]) in cs[|es|].net
  {
    hide Fire, Reaches, NodeOK;
    var initial := InitialNode(PAIR);
    cs, es := Start();
    Elects();
    cs, es := Takes(cs, es, initial, initial, ElectionTimeout(1));
    SubmitsFirst();
    cs, es := Takes(cs, es, Lead([], 0, Progress(1, 0, [], true)), initial, Submit(1, [(1, [])]));
    Compacts();
    cs, es := Takes(cs, es, Lead([FIRST], 0, Progress(2, 0, [Inflight(0, 1)], true)), initial, Compact(1));
    SubmitsSecond();
    cs, es := Takes(cs, es, Lead([FIRST], 1, Progress(2, 0, [Inflight(0, 1)], true)), initial, Submit(1, [(1, [])]));
    Expires();
    cs, es := Takes(cs, es, Lead([FIRST, SECOND], 1, Progress(2, 0, [Inflight(0, 1)], true)), initial,
      TickLeader(1, {2}, true));
  }

  lemma SubmitsFirst()
    ensures NodeOK(PAIR, 1, Lead([], 0, Progress(1, 0, [], true)))
    ensures Fire(PAIR, Lead([], 0, Progress(1, 0, [], true)), Submit(1, [(1, [])])).node ==
            Lead([FIRST], 0, Progress(2, 0, [Inflight(0, 1)], true))
  {
    hide Fire;
    Submits([], 0, Progress(1, 0, [], true));
    assert [] + [FIRST] == [FIRST] && [] + [Inflight(0, 1)] == [Inflight(0, 1)];
    var s, s' := Lead([FIRST], 0, Progress(1, 0, [], true)), Lead([FIRST], 0, Progress(2, 0, [Inflight(0, 1)], true));
    assert s.progress[2 := Progress(2, 0, [Inflight(0, 1)], true)] == s'.progress;
  }

  lemma SubmitsSecond()
    ensures NodeOK(PAIR, 1, Lead([FIRST], 1, Progress(2, 0, [Inflight(0, 1)], true)))
    ensures Fire(PAIR, Lead([FIRST], 1, Progress(2, 0, [Inflight(0, 1)], true)), Submit(1, [(1, [])])).node ==
            Lead([FIRST, SECOND], 1, Progress(2, 0, [Inflight(0, 1)], true))
  {
    hide Fire;
    Submits([FIRST], 1, Progress(2, 0, [Inflight(0, 1)], true));
    assert [FIRST] + [SECOND] == [FIRST, SECOND];
  }

  lemma Compacts()
    ensures NodeOK(PAIR, 1, Lead([FIRST], 0, Progress(2, 0, [Inflight(0, 1)], true)))
    ensures Fire(PAIR, Lead([FIRST], 0, Progress(2, 0, [Inflight(0, 1)], true)), Compact(1)).node ==
            Lead([FIRST], 1, Progress(2, 0, [Inflight(0, 1)], true))
  {
    LeadOK([FIRST], 0, Progress(2, 0, [Inflight(0, 1)], true));
  }

  /** Without the condition on completions the record of a peer does become unsound. */
  lemma UntimelyCompletion() returns (cs: seq<Cluster>, es: seq<Event>)
    ensures IsRun(PAIR, cs, es) && 1 in cs[|es|].nodes
    ensures var s := cs[|es|].nodes[1]; s.role == Leader && 2 in s.progress && !PeerOK(PAIR, s.progress[2])
  {
    hide Fire, NodeOK, IsRun;
    var initial, log := InitialNode(PAIR), [FIRST, SECOND];
    cs, es := Behind();
    Installs();
    cs, es := Takes(cs, es, Lead(log, 1, Progress(1, 0, [], true)), initial,
      Deliver(2, SnapshotMsg(1, 2, 1, [FIRST]), 0));
    Completes();
    cs, es := Takes(cs, es, Lead(log, 1, Progress(1, 0, [], true)), Learn([FIRST], 1),
      Deliver(1, SnapshotAck(2, 1, 1, 1), 1));
    Learns();
    ghost var learner := Fire(PAIR, Learn([FIRST], 1), Deliver(2, AppendReq(1, 2, 1, 1, 1, [SECOND], 2), 0)).node;
    cs, es := Takes(cs, es, Lead(log, 1, Progress(3, 1, [Inflight(1, 2)], true)), Learn([FIRST], 1),
                    Deliver(2, AppendReq(1, 2, 1, 1, 1, [SECOND], 2), 0));
    Acknowledges();
    cs, es := Takes(cs, es, Lead(log, 1, Progress(3, 1, [Inflight(1, 2)], true)), learner,
                    Deliver(1, AppendResp(2, 1, 1, false, true, 2, 0, 1), 0));
    Repeats();
    cs, es := Takes(cs, es, Lead(log, 1, Progress(3, 2, [], false)), learner, Deliver(1, SnapshotAck(2, 1, 1, 1), 0));
  }
}
