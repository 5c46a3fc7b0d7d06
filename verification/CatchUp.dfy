/**
 Replication gets there.  A rejection always moves the leader's probe back, never
 below what is matched, and a grant moves the match index up, so from every
 reachable state in which the probe starts at or above the follower's snapshot a
 leader can bring a follower up to its whole log.
 */
module CatchUp {
  import opened RaftTypes
  import opened RaftNode
  import opened Cluster
  import opened Safety
  import opened Acceptance
  import opened Elections
  import CommitProgress
  import ClusterCommit
  import Pipeline
  import PausedPeers
  import L = RaftLog

  // ---------------------------------------------------------- one rejection

  /** The rejection answers a request of the window. */
  predicate Answers(pr: Progress, m: Message)
    requires m.AppendResp?
  {
    !m.heartbeat && exists k :: 0 <= k < |pr.window| && pr.window[k].prev == m.prev
  }

  /**
   Where a rejection leaves the probe: at the start of the rejected request, or
   one back when it answered none, unless the hint is lower still, and never at
   or below what is matched.
   */
  lemma RejectionMoves(base: nat, pr: Progress, m: Message)
    requires m.AppendResp?
    ensures var pr' := BackedOff(base, pr, m);
      && pr'.matched == pr.matched && pr'.window == [] && pr'.probe && pr'.next > pr.matched
      && (Answers(pr, m) && m.prev > pr.matched ==> pr'.next <= m.prev)
      && (Answers(pr, m) && m.prev <= pr.matched ==> pr'.next == pr.matched + 1)
      && (m.hint > pr.matched ==> pr'.next <= Max(m.hint, pr.matched + 1))
      && (!Answers(pr, m) && pr.next > base + 1 && pr.next > pr.matched + 1 ==> pr'.next < pr.next)
      && (pr'.next == pr.matched + 1 || (m.hint != 0 && pr'.next == m.hint) ||
          (if Answers(pr, m) then pr'.next == m.prev else pr.next - 1 <= pr'.next <= pr.next))
  {
  }

  /** The record while a probe from its next index is out. */
  function Probing(pr: Progress): (pr': Progress)
    requires pr.next > 0
  {
    pr.(window := [Inflight(pr.next - 1, pr.next)])
  }

  /** Each record follows the one before it by a rejection of its probe. */
  ghost predicate RejectedInTurn(base: nat, prs: seq<Progress>, ms: seq<Message>)
  {
    && |prs| == |ms| + 1
    && forall i :: 0 <= i < |ms| ==>
         && ms[i].AppendResp? && !ms[i].heartbeat && prs[i].next > 0 && ms[i].prev == prs[i].next - 1
         && prs[i + 1] == BackedOff(base, Probing(prs[i]), ms[i])
  }

  /** Rejections come to an end: after as many as there are unmatched indices the probe is right behind the match. */
  lemma {:induction false} RejectionsEnd(base: nat, prs: seq<Progress>, ms: seq<Message>, k: nat)
    requires RejectedInTurn(base, prs, ms) && k < |prs| && prs[0].next > prs[0].matched
    ensures prs[k].matched == prs[0].matched < prs[k].next
    ensures prs[k].next <= Max(prs[0].matched + 1, if k <= prs[0].next then prs[0].next - k else 0)
    decreases k
  {
    hide BackedOff;
    if k > 0 {
      RejectionsEnd(base, prs, ms, k - 1);
      var pr, m := prs[k - 1], ms[k - 1];
      assert prs[k - 1 + 1] == BackedOff(base, Probing(pr), m);
      assert Probing(pr).window[0].prev == m.prev;
      RejectionMoves(base, Probing(pr), m);
    }
  }

  // ------------------------------------------------- a leader and a follower

  /** Wherever one of the two has committed, their logs agree. */
  ghost predicate Compatible(s: Node, f: Node)
  {
    && f.commit <= |s.log| && s.commit <= |s.log|
    && forall k :: 0 <= k < |f.log| && k < |s.log| && (k < s.commit || k < f.commit) ==> f.log[k] == s.log[k]
  }

  /** A request of the leader's present log. */
  ghost predicate IsRequest(m: Message, l: NodeId, p: NodeId, s: Node, prev: nat, last: nat)
  {
    && m.AppendReq? && m.from == l && m.to == p && m.term == s.term && m.prev == prev && prev <= last <= |s.log|
    && m.prevTerm == TermAt(s.log, prev) && m.entries == s.log[prev..last] && |m.entries| <= MAX_APPEND_ENTRIES
    && m.leaderCommit <= s.commit
  }

  ghost predicate Carried(net: set<Message>, l: NodeId, p: NodeId, s: Node, prev: nat, last: nat)
  {
    exists m :: m in net && IsRequest(m, l, p, s, prev, last)
  }

  /** The window is a chain of requests up to the next index, each of which is in the network. */
  ghost predicate Chained(net: set<Message>, l: NodeId, p: NodeId, s: Node, pr: Progress)
  {
    var w := pr.window;
    && 1 <= pr.next <= |s.log| + 1
    && (forall k :: 0 <= k < |w| ==> w[k].prev < w[k].last && Carried(net, l, p, s, w[k].prev, w[k].last))
    && (forall k :: 0 <= k < |w| - 1 ==> w[k + 1].prev == w[k].last)
    && (w != [] ==> w[|w| - 1].last == pr.next - 1)
  }

  /** Where the next answer will be about. */
  function Start(pr: Progress): (i: int)
  {
    if pr.window == [] then pr.next - 1 else pr.window[0].prev
  }

  /** Only a snapshot can help. */
  predicate NeedsSnapshot(s: Node, pr: Progress)
  {
    pr.window == [] && pr.next <= s.base
  }

  /**
   The probe starts where the follower can compare, and a snapshot the leader may
   fall back to is one the follower would install.
   */
  predicate InReach(s: Node, f: Node, pr: Progress)
  {
    && pr.matched <= Start(pr)
    && (s.base <= f.base || f.commit <= s.base || s.base <= pr.matched)
    && (if NeedsSnapshot(s, pr) then f.base < s.base else f.base <= Start(pr) && s.base <= Start(pr))
  }

  /** The follower can hear the leader, can hold its log, and can be brought up to it. */
  ghost predicate Pair(cfg: Config, net: set<Message>, l: NodeId, p: NodeId, s: Node, f: Node)
  {
    && l != p && l in cfg.voters && l in cfg.peers && p in cfg.peers
    && s.role == Leader && p in s.progress && f.term <= s.term && p !in s.paused && l !in f.paused
    && Compatible(s, f) && |s.log| <= f.base + cfg.maxLog && |s.log| <= U64_MAX
    && InReach(s, f, s.progress[p]) && Chained(net, l, p, s, s.progress[p])
  }

  ghost predicate Ready(cfg: Config, c: Cluster, l: NodeId, p: NodeId)
  {
    l in c.nodes && p in c.nodes && Pair(cfg, c.net, l, p, c.nodes[l], c.nodes[p])
  }

  // ----------------------------------------------------- the follower's turn

  /** What the follower makes of a request that starts at or above its snapshot. */
  ghost predicate Taken(s: Node, f: Node, f': Node, prev: nat, last: nat)
  {
    && f'.term == s.term && f'.base == f.base && f'.paused == f.paused
    && Agree(s.log, f'.log, last) && (f'.log == f.log || |f'.log| == last)
    && f'.commit <= Max(f.commit, s.commit) && f'.commit <= |f'.log|
  }

  ghost predicate Refused(s: Node, f: Node, f': Node, prev: nat, hint: nat)
  {
    && f'.term == s.term && f'.base == f.base && f'.paused == f.paused && f'.log == f.log && f'.commit == f.commit
    && f.base < hint <= prev <= |s.log| && !(prev <= |f.log| && TermAt(f.log, prev) == TermAt(s.log, prev))
  }

  /** A request of the leader is taken and granted, or its predecessor is missing and the hint says where to go on. */
  lemma FollowerTurn(cfg: Config, cs: seq<Cluster>, es: seq<Event>, l: NodeId, p: NodeId, m: Message, prev: nat,
                     last: nat)
    requires IsRun(cfg, cs, es) && cs != [] && Ready(cfg, Now(cs), l, p) && m in Now(cs).net
    requires IsRequest(m, l, p, Now(cs).nodes[l], prev, last) && Now(cs).nodes[p].base <= prev
    ensures Now(cs).nodes[p].base <= Now(cs).nodes[p].commit <= |Now(cs).nodes[p].log|
    ensures var s, f := Now(cs).nodes[l], Now(cs).nodes[p];
      var o := HandleAppendReq(cfg, p, f, m);
      || (Taken(s, f, o.node, prev, last) && o.msgs == {AppendResp(p, l, s.term, prev == last, true, last, 0, prev)})
      || exists hint ::
           && Refused(s, f, o.node, prev, hint)
           && o.msgs == {AppendResp(p, l, s.term, prev == last, false, 0, hint, prev)}
  {
    hide IsRun, HandleAppendReq, L.HeldFrom, L.RejectHint, L.AllConsistent, Chained, InReach;
    var i := |cs| - 1;
    var s, f := Now(cs).nodes[l], Now(cs).nodes[p];
    Bounds(cfg, cs, es, i, p);
    var n := L.HeldCount(f.log, prev, m.entries, 0);
    RequestConsistent(cfg, cs, es, i, p, m, n);
    HeldMeans(f.log, prev, m.entries, n);
    AppendAnswer(cfg, p, f, m, n);
    BaseAgrees(s, f);
    if prev <= |f.log| && TermAt(f.log, prev) == m.prevTerm {
      if prev > 0 { LogMatching(cfg, cs, es, i, i, p, l, prev); }
      if n < |m.entries| && prev + n < |f.log| { Uncommitted(s, f, prev, m.entries, n); }
      HeldAgrees(s, f, m, prev, last, n);
    } else {
      L.RejectHintSkipsRun(f.log, f.base, prev);
      assert Refused(s, f, HandleAppendReq(cfg, p, f, m).node, prev, L.RejectHint(f.log, f.base, prev));
    }
  }

  lemma BaseAgrees(s: Node, f: Node)
    requires Compatible(s, f) && f.base <= f.commit <= |f.log|
    ensures f.base <= |s.log| && TermAt(f.log, f.base) == TermAt(s.log, f.base)
  {
    if f.base > 0 { assert f.log[f.base - 1] == s.log[f.base - 1]; }
  }

  lemma Uncommitted(s: Node, f: Node, prev: nat, entries: seq<Entry>, n: nat)
    requires Compatible(s, f) && n < |entries| && prev + n < |f.log| && prev + |entries| <= |s.log|
    requires entries == s.log[prev..prev + |entries|] && f.log[prev + n].term != entries[n].term
    ensures f.commit <= prev + n
  {
    assert entries[n] == s.log[prev + n];
  }

  lemma HeldAgrees(s: Node, f: Node, m: Message, prev: nat, last: nat, n: nat)
    requires m.AppendReq? && prev <= last <= |s.log| && m.entries == s.log[prev..last] && prev <= |f.log|
    requires L.HeldFrom(f.log, prev, m.entries, n) && L.AllConsistent(f.log, prev, m.entries, n)
    requires f.log[..prev] == s.log[..prev]
    ensures var log' := if n == |m.entries| then f.log else f.log[..prev] + m.entries;
      Agree(s.log, log', last) && (log' == f.log || |log'| == last)
  {
    if n == |m.entries| {
      HeldWhole(f.log, prev, m.entries, n);
      assert s.log[..last] == s.log[..prev] + m.entries;
      assert f.log[..last] == f.log[..prev] + m.entries;
      forall j | 0 <= j < last ensures f.log[j] == s.log[j] { assert f.log[..last][j] == s.log[..last][j]; }
    } else {
      assert s.log[..last] == s.log[..prev] + m.entries;
      var log' := f.log[..prev] + m.entries;
      forall j | 0 <= j < last ensures log'[j] == s.log[j] { assert log'[j] == s.log[..last][j]; }
    }
  }

  // ------------------------------------------------------- the leader's turn

  /** Only the record of one peer and the commit index changed. */
  ghost predicate Moved(s: Node, s': Node, p: NodeId, pr': Progress)
    requires p in s.progress
  {
    && s'.role == s.role && s'.term == s.term && s'.log == s.log && s'.base == s.base && s'.paused == s.paused
    && s'.progress == s.progress[p := pr'] && s.commit <= s'.commit <= |s.log|
  }

  /** The response answers the first request of the window, or a heartbeat behind the whole log. */
  predicate Fits(s: Node, pr: Progress, prev: nat, last: nat)
  {
    if prev == last then pr.window == [] && prev == |s.log| && pr.next == |s.log| + 1
    else pr.window != [] && pr.window[0] == Inflight(prev, last) && last <= |s.log| && last < pr.next &&
         (|pr.window| > 1 ==> pr.window[1].last > last)
  }

  /** The record once its first request, up to last, was granted. */
  function Released(pr: Progress, last: nat): (pr': Progress)
  {
    Progress(pr.next, last, if pr.window == [] then [] else pr.window[1..], false)
  }

  lemma GrantTurn(cfg: Config, l: NodeId, p: NodeId, s: Node, prev: nat, last: nat)
    requires NodeOK(cfg, l, s) && s.role == Leader && p in s.progress && CommitProgress.Kept(cfg, s)
    requires Fits(s, s.progress[p], prev, last) && prev <= last && s.progress[p].matched <= prev
    requires s.base < s.progress[p].next
    ensures var r := AppendResp(p, l, s.term, prev == last, true, last, 0, prev);
      var pr := s.progress[p];
      var s' := HandleAppendResp(cfg, l, s, r, 0).node;
      && Moved(s, s', p, Released(pr, last))
      && s'.commit <= Max(s.commit, last)
  {
    hide UpdateCommit, CommitProgress.Kept, IgnoresResp, Advanced, Fits, NodeOK;
    var r := AppendResp(p, l, s.term, prev == last, true, last, 0, prev);
    var pr := s.progress[p];
    Answered(cfg, l, p, s, prev, last, r);
    AdvancedRecord(s, pr, prev, last);
    var s1 := s.(progress := s.progress[p := Advanced(pr, last)]);
    AcknowledgeKeepsRange(cfg, s, r);
    if last > pr.matched {
      UpdateCommitFields(cfg, s1);
      CommitStays(cfg, s, p, last);
    }
  }

  lemma Answered(cfg: Config, l: NodeId, p: NodeId, s: Node, prev: nat, last: nat, r: Message)
    requires NodeOK(cfg, l, s) && s.role == Leader && p in s.progress && Fits(s, s.progress[p], prev, last)
    requires r.AppendResp? && r.from == p && r.heartbeat == (prev == last) && r.prev == prev
    requires r.granted ==> r.matched == last
    ensures !IgnoresResp(s, r) && ProgressInRange(cfg, s) && WindowInRange(s) && s.commit <= |s.log|
  {
  }

  lemma AdvancedRecord(s: Node, pr: Progress, prev: nat, last: nat)
    requires Fits(s, pr, prev, last) && pr.matched <= prev <= last
    ensures Advanced(pr, last) == Released(pr, last)
  {
    var w := pr.window;
    assert ReleaseThrough(w, last) == if w == [] then [] else w[1..];
  }

  /** One peer's acknowledgement commits nothing beyond itself. */
  lemma CommitStays(cfg: Config, s: Node, p: NodeId, last: nat)
    requires p in s.progress && s.role == Leader && CommitProgress.Kept(cfg, s) && s.progress[p].matched <= last
    requires s.commit <= |s.log|
    ensures var s1 := s.(progress := s.progress[p := Advanced(s.progress[p], last)]);
      s.commit <= UpdateCommit(cfg, s1).commit <= Max(s.commit, last) && UpdateCommit(cfg, s1).commit <= |s.log|
  {
    hide IsQuorum;
    var s1 := s.(progress := s.progress[p := Advanced(s.progress[p], last)]);
    forall c: nat | c > last ensures MatchedVoters(cfg, s1, c) == MatchedVoters(cfg, s, c) {
    }
  }

  lemma RefusalTurn(cfg: Config, l: NodeId, p: NodeId, s: Node, prev: nat, last: nat, hint: nat)
    requires NodeOK(cfg, l, s) && s.role == Leader && p in s.progress && Fits(s, s.progress[p], prev, last)
    requires s.progress[p].matched < prev && 0 < hint <= prev && p !in s.paused
    ensures var r := AppendResp(p, l, s.term, prev == last, false, 0, hint, prev);
      var pr := s.progress[p];
      var s' := HandleAppendResp(cfg, l, s, r, 0).node;
      Moved(s, s', p, Progress(Max(hint, pr.matched + 1), pr.matched, [], true)) && s'.commit == s.commit
  {
    var r := AppendResp(p, l, s.term, prev == last, false, 0, hint, prev);
    var pr := s.progress[p];
    assert BackedOff(s.base, pr, r) == Progress(Max(hint, pr.matched + 1), pr.matched, [], true);
    AcknowledgeKeepsRange(cfg, s, r);
    var s1 := Acknowledge(cfg, s, r);
    assert s1.progress[p := s1.progress[p]] == s1.progress;
  }

  // ----------------------------------------------------------- one exchange

  /** Nothing but the two nodes changed, and the leader is still the same leader. */
  ghost predicate Between(c: Cluster, c': Cluster, l: NodeId, p: NodeId)
  {
    && l in c.nodes && p in c.nodes && c'.nodes.Keys == c.nodes.Keys && c.net <= c'.net
    && (forall q :: q in c.nodes && q != l && q != p ==> c'.nodes[q] == c.nodes[q])
  }

  /** The peer's match index went up, or its probe went back. */
  ghost predicate Closer(pr: Progress, pr': Progress)
  {
    pr'.matched > pr.matched || (pr'.matched == pr.matched && Start(pr') < Start(pr))
  }

  lemma CompatibleAfter(s: Node, s': Node, f: Node, f': Node, p: NodeId, pr': Progress, prev: nat, last: nat)
    requires p in s.progress && Moved(s, s', p, pr') && Compatible(s, f) && Taken(s, f, f', prev, last)
    requires s'.commit <= Max(s.commit, last)
    ensures Compatible(s', f')
  {
    forall k | 0 <= k < |f'.log| && k < |s'.log| && (k < s'.commit || k < f'.commit) ensures f'.log[k] == s'.log[k] {
      if k >= last { assert f'.log == f.log; }
    }
  }

  lemma ChainDrops(net: set<Message>, net': set<Message>, l: NodeId, p: NodeId, s: Node, s': Node, pr: Progress)
    requires Chained(net, l, p, s, pr) && net <= net' && pr.window != []
    requires s'.term == s.term && s'.log == s.log && s.commit <= s'.commit
    ensures Chained(net', l, p, s', pr.(window := pr.window[1..], matched := pr.window[0].last, probe := false))
  {
    var w := pr.window[1..];
    forall k | 0 <= k < |w| ensures w[k].prev < w[k].last && Carried(net', l, p, s', w[k].prev, w[k].last) {
      assert w[k] == pr.window[k + 1];
      var m :| m in net && IsRequest(m, l, p, s, w[k].prev, w[k].last);
      assert IsRequest(m, l, p, s', w[k].prev, w[k].last);
    }
    forall k | 0 <= k < |w| - 1 ensures w[k + 1].prev == w[k].last {
      assert pr.window[k + 1 + 1].prev == pr.window[k + 1].last;
    }
  }

  /** A granted request leaves the pair ready, with a higher match index. */
  lemma GrantedPair(cfg: Config, net: set<Message>, net': set<Message>, l: NodeId, p: NodeId, s: Node, f: Node,
                    s': Node, f': Node, prev: nat, last: nat)
    requires Pair(cfg, net, l, p, s, f) && net <= net' && prev <= last && Fits(s, s.progress[p], prev, last)
    requires Taken(s, f, f', prev, last) && s.progress[p].matched <= prev && s.base <= prev && f.base <= prev
    requires Moved(s, s', p, Released(s.progress[p], last))
    requires s'.commit <= Max(s.commit, last)
    ensures Pair(cfg, net', l, p, s', f') && s'.progress[p].matched == last && s'.log == s.log && f'.term == s'.term
  {
    hide Compatible, Chained, IsRequest;
    var pr, pr' := s.progress[p], s'.progress[p];
    CompatibleAfter(s, s', f, f', p, pr', prev, last);
    ChainFacts(net, l, p, s, pr);
    if prev == last {
      NoChain(net', l, p, s', pr');
    } else {
      ChainDrops(net, net', l, p, s, s', pr);
    }
  }

  lemma ChainFacts(net: set<Message>, l: NodeId, p: NodeId, s: Node, pr: Progress)
    requires Chained(net, l, p, s, pr)
    ensures 1 <= pr.next <= |s.log| + 1
    ensures pr.window != [] ==>
      && pr.window[0].prev < pr.window[0].last < pr.next
      && (|pr.window| > 1 ==> pr.window[1].prev == pr.window[0].last < pr.window[1].last)
      && (|pr.window| == 1 ==> pr.window[0].last == pr.next - 1)
      && Carried(net, l, p, s, pr.window[0].prev, pr.window[0].last)
  {
    if |pr.window| > 1 { ChainRises(net, l, p, s, pr, |pr.window| - 1); }
  }

  lemma {:induction false} ChainRises(net: set<Message>, l: NodeId, p: NodeId, s: Node, pr: Progress, k: nat)
    requires Chained(net, l, p, s, pr) && k < |pr.window|
    ensures pr.window[0].last <= pr.window[k].last
    decreases k
  {
    hide Carried;
    if k > 0 {
      ChainRises(net, l, p, s, pr, k - 1);
      assert pr.window[k - 1 + 1].prev == pr.window[k - 1].last;
    }
  }

  lemma NoChain(net: set<Message>, l: NodeId, p: NodeId, s: Node, pr: Progress)
    requires pr.window == [] && 1 <= pr.next <= |s.log| + 1
    ensures Chained(net, l, p, s, pr)
  {
  }

  /** A refused request leaves the pair ready, with the probe further back. */
  lemma RefusedPair(cfg: Config, net: set<Message>, net': set<Message>, l: NodeId, p: NodeId, s: Node, f: Node,
                    s': Node, f': Node, prev: nat, hint: nat)
    requires Pair(cfg, net, l, p, s, f) && net <= net' && s.progress[p].matched < prev == Start(s.progress[p])
    requires Refused(s, f, f', prev, hint) && s'.commit == s.commit
    requires Moved(s, s', p, Progress(Max(hint, s.progress[p].matched + 1), s.progress[p].matched, [], true))
    ensures Pair(cfg, net', l, p, s', f') && Closer(s.progress[p], s'.progress[p]) && s'.log == s.log
    ensures f'.term == s'.term
  {
    hide Chained;
    ChainFacts(net, l, p, s, s.progress[p]);
    NoChain(net', l, p, s', s'.progress[p]);
  }

  /** What an exchange leaves of the leader and the follower. */
  ghost predicate Exchanged(cfg: Config, c: Cluster, c': Cluster, l: NodeId, p: NodeId)
  {
    && Between(c, c', l, p) && Ready(cfg, c', l, p) && p in c.nodes[l].progress
    && c'.nodes[p].term == c'.nodes[l].term
    && (var s, s' := c.nodes[l], c'.nodes[l];
        && Moved(s, s', p, s'.progress[p])
        && (s'.progress[p].matched == |s.log| || Closer(s.progress[p], s'.progress[p]))
        && s'.commit <= Max(s.commit, s'.progress[p].matched))
    && (c.nodes[p].log <= c.nodes[l].log ==> c'.nodes[p].log <= c'.nodes[l].log)
  }

  lemma TakenPrefix(s: Node, f: Node, f': Node, prev: nat, last: nat)
    requires Taken(s, f, f', prev, last) && f.log <= s.log
    ensures f'.log <= s.log
  {
    if f'.log != f.log { assert f'.log == s.log[..last]; }
  }

  lemma MatchBelow(cfg: Config, cs: seq<Cluster>, es: seq<Event>, l: NodeId, p: NodeId, s: Node, f: Node, prev: nat,
                   hint: nat)
    requires IsRun(cfg, cs, es) && cs != [] && l in Now(cs).nodes && p in Now(cs).nodes && Now(cs).nodes[l] == s
    requires s.role == Leader && p in s.progress && Refused(s, f, Now(cs).nodes[p], prev, hint)
    ensures s.progress[p].matched < prev
  {
    hide IsRun;
    Pipeline.PipeliningSound(cfg, cs, es, |cs| - 1, l, p);
  }

  /** One request and its answer. */
  lemma AnswerRound(cfg: Config, cs: seq<Cluster>, es: seq<Event>, l: NodeId, p: NodeId, m: Message, prev: nat,
                    last: nat) returns (cs': seq<Cluster>, es': seq<Event>)
    requires IsRun(cfg, cs, es) && cs != [] && Ready(cfg, Now(cs), l, p) && m in Now(cs).net
    requires IsRequest(m, l, p, Now(cs).nodes[l], prev, last)
    requires var s := Now(cs).nodes[l];
      !NeedsSnapshot(s, s.progress[p]) && Fits(s, s.progress[p], prev, last) && prev == Start(s.progress[p])
    ensures cs' != [] && Continues(cfg, cs, es, cs', es') && Exchanged(cfg, Now(cs), Now(cs'), l, p)
  {
    hide IsRun, HandleAppendReq, NodeOK, ClusterOK, Pair, Fits, Taken, Refused, Exchanged, IsRequest;
    var s, f := Now(cs).nodes[l], Now(cs).nodes[p];
    PairFacts(cfg, Now(cs).net, l, p, s, f);
    RequestFacts(m, l, p, s, prev, last);
    Bounds(cfg, cs, es, |cs| - 1, p);
    FollowerTurn(cfg, cs, es, l, p, m, prev, last);
    var c1, e1 := Proceed(cfg, cs, es, Deliver(p, m, 0));
    var o := HandleAppendReq(cfg, p, f, m);
    assert Now(c1) == Cluster(Now(cs).nodes[p := o.node], Now(cs).net + o.msgs);
    if Taken(s, f, o.node, prev, last) && o.msgs == {AppendResp(p, l, s.term, prev == last, true, last, 0, prev)} {
      cs', es' := GrantedRound(cfg, Now(cs), c1, e1, l, p, prev, last);
    } else {
      var hint :| Refused(s, f, o.node, prev, hint) &&
        o.msgs == {AppendResp(p, l, s.term, prev == last, false, 0, hint, prev)};
      cs', es' := RefusedRound(cfg, Now(cs), c1, e1, l, p, prev, last, hint);
    }
    Chain(cfg, cs, es, c1, e1, cs', es');
  }

  lemma RequestFacts(m: Message, l: NodeId, p: NodeId, s: Node, prev: nat, last: nat)
    requires IsRequest(m, l, p, s, prev, last)
    ensures m.AppendReq? && m.from == l && m.to == p && |m.entries| <= MAX_APPEND_ENTRIES && prev <= last
  {
  }

  lemma PairFacts(cfg: Config, net: set<Message>, l: NodeId, p: NodeId, s: Node, f: Node)
    requires Pair(cfg, net, l, p, s, f)
    ensures l != p && l in cfg.voters && l in cfg.peers && p in cfg.peers && p in s.progress && s.role == Leader
    ensures InReach(s, f, s.progress[p]) && p !in s.paused && 1 <= s.progress[p].next <= |s.log| + 1
  {
  }

  /** The follower has taken the request, and its grant reaches the leader. */
  lemma GrantedRound(cfg: Config, c: Cluster, cs: seq<Cluster>, es: seq<Event>, l: NodeId, p: NodeId, prev: nat,
                     last: nat) returns (cs': seq<Cluster>, es': seq<Event>)
    requires IsRun(cfg, cs, es) && cs != [] && Ready(cfg, c, l, p) && prev <= last
    requires p in Now(cs).nodes && Now(cs).nodes == c.nodes[p := Now(cs).nodes[p]] && c.net <= Now(cs).net
    requires AppendResp(p, l, c.nodes[l].term, prev == last, true, last, 0, prev) in Now(cs).net
    requires Taken(c.nodes[l], c.nodes[p], Now(cs).nodes[p], prev, last)
    requires var s := c.nodes[l];
      !NeedsSnapshot(s, s.progress[p]) && Fits(s, s.progress[p], prev, last) && prev == Start(s.progress[p])
    ensures cs' != [] && Continues(cfg, cs, es, cs', es') && Exchanged(cfg, c, Now(cs'), l, p)
  {
    hide IsRun, HandleAppendResp, NodeOK, ClusterOK, Pair, Fits, Taken, CommitProgress.Kept, Moved, Closer;
    var s, f, f' := c.nodes[l], c.nodes[p], Now(cs).nodes[p];
    var r := AppendResp(p, l, s.term, prev == last, true, last, 0, prev);
    PairFacts(cfg, c.net, l, p, s, f);
    Bounds(cfg, cs, es, |cs| - 1, l);
    CommitProgress.RunKept(cfg, cs, es, |cs| - 1, l);
    FitsNext(s, s.progress[p], prev, last);
    GrantTurn(cfg, l, p, s, prev, last);
    cs', es' := Proceed(cfg, cs, es, Deliver(l, r, 0));
    var s' := Now(cs').nodes[l];
    MovedFacts(s, s', p, Released(s.progress[p], last));
    GrantedPair(cfg, c.net, Now(cs').net, l, p, s, f, s', f', prev, last);
    if f.log <= s.log { TakenPrefix(s, f, f', prev, last); }
    GrantedCloser(s, s.progress[p], s'.progress[p], prev, last);
  }

  lemma FitsNext(s: Node, pr: Progress, prev: nat, last: nat)
    requires Fits(s, pr, prev, last) && s.base <= prev <= last
    ensures s.base < pr.next
  {
  }

  /** The follower lacks the predecessor, and its rejection reaches the leader. */
  lemma RefusedRound(cfg: Config, c: Cluster, cs: seq<Cluster>, es: seq<Event>, l: NodeId, p: NodeId, prev: nat,
                     last: nat, hint: nat) returns (cs': seq<Cluster>, es': seq<Event>)
    requires IsRun(cfg, cs, es) && cs != [] && Ready(cfg, c, l, p) && prev <= last
    requires p in Now(cs).nodes && Now(cs).nodes == c.nodes[p := Now(cs).nodes[p]] && c.net <= Now(cs).net
    requires AppendResp(p, l, c.nodes[l].term, prev == last, false, 0, hint, prev) in Now(cs).net
    requires Refused(c.nodes[l], c.nodes[p], Now(cs).nodes[p], prev, hint)
    requires var s := c.nodes[l]; Fits(s, s.progress[p], prev, last) && prev == Start(s.progress[p])
    ensures cs' != [] && Continues(cfg, cs, es, cs', es') && Exchanged(cfg, c, Now(cs'), l, p)
  {
    hide IsRun, HandleAppendResp, NodeOK, ClusterOK, Pair, Fits, Refused, Moved, Closer;
    var s, f, f' := c.nodes[l], c.nodes[p], Now(cs).nodes[p];
    var r := AppendResp(p, l, s.term, prev == last, false, 0, hint, prev);
    PairFacts(cfg, c.net, l, p, s, f);
    Bounds(cfg, cs, es, |cs| - 1, l);
    MatchBelow(cfg, cs, es, l, p, s, f, prev, hint);
    RefusedHint(s, f, f', prev, hint);
    RefusalTurn(cfg, l, p, s, prev, last, hint);
    cs', es' := Proceed(cfg, cs, es, Deliver(l, r, 0));
    var s' := Now(cs').nodes[l];
    MovedFacts(s, s', p, Progress(Max(hint, s.progress[p].matched + 1), s.progress[p].matched, [], true));
    RefusedPair(cfg, c.net, Now(cs').net, l, p, s, f, s', f', prev, hint);
  }

  lemma MovedFacts(s: Node, s': Node, p: NodeId, pr': Progress)
    requires p in s.progress && Moved(s, s', p, pr')
    ensures p in s'.progress && s'.progress[p] == pr' && Moved(s, s', p, s'.progress[p]) && s'.log == s.log
  {
  }

  lemma GrantedCloser(s: Node, pr: Progress, pr': Progress, prev: nat, last: nat)
    requires Fits(s, pr, prev, last) && pr'.matched == last && pr.matched <= prev <= last
    ensures last == |s.log| || Closer(pr, pr')
  {
  }

  lemma RefusedHint(s: Node, f: Node, f': Node, prev: nat, hint: nat)
    requires Refused(s, f, f', prev, hint)
    ensures 0 < hint <= prev && f'.log == f.log
  {
  }

  // ----------------------------------------------------------------- sending

  /** What is sent to a peer depends on its own record alone. */
  lemma EmitLocal(cfg: Config, id: NodeId, s: Node, s': Node, p: NodeId, heartbeat: bool)
    requires ProgressInRange(cfg, s) && ProgressInRange(cfg, s') && p in s.progress && p in s'.progress
    requires s' == s.(progress := s'.progress) && s'.progress[p] == s.progress[p]
    ensures EmitReplication(cfg, id, s', p, heartbeat).msgs == EmitReplication(cfg, id, s, p, heartbeat).msgs
    ensures EmitReplication(cfg, id, s', p, heartbeat).node.progress[p] ==
      EmitReplication(cfg, id, s, p, heartbeat).node.progress[p]
  {
    hide EmitReplication;
    EmitRecord(cfg, id, s, p, heartbeat);
    EmitRecord(cfg, id, s', p, heartbeat);
  }

  /** What sending to a peer does to its record and puts into the network. */
  lemma EmitRecord(cfg: Config, id: NodeId, s: Node, p: NodeId, heartbeat: bool)
    requires ProgressInRange(cfg, s) && p in s.progress
    ensures var o := EmitReplication(cfg, id, s, p, heartbeat);
      var pr := s.progress[p];
      var n := Min(|s.log| - pr.next + 1, MAX_APPEND_ENTRIES);
      var silent := p in s.paused || (s.base < pr.next <= |s.log| && |pr.window| >= WindowLimit(cfg, pr)) ||
                    (pr.next > |s.log| && !heartbeat);
      && p in o.node.progress
      && o.node.progress[p] == (if silent || pr.next > |s.log| then pr
                                else if pr.next <= s.base then pr.(window := [], probe := true)
                                else pr.(next := pr.next + n,
                                         window := pr.window + [Inflight(pr.next - 1, pr.next + n - 1)]))
      && o.msgs == (if silent then {}
                    else if pr.next <= s.base then {SnapshotMsg(id, p, s.term, s.log[..s.base])}
                    else {AppendReq(id, p, s.term, pr.next - 1, TermAt(s.log, pr.next - 1),
                                    s.log[pr.next - 1..pr.next - 1 + n], s.commit)})
  {
    assert s.log[|s.log|..|s.log|] == [];
  }

  /**
   Filling a peer's window sends request after request until the window is full,
   the log is sent or the room is used up, and never past any of the three.
   */
  lemma {:induction false} FillStops(cfg: Config, id: NodeId, s: Node, p: NodeId, room: nat)
    requires ProgressInRange(cfg, s) && p in s.progress && p !in s.paused && s.base < s.progress[p].next
    ensures p in FillPeer(cfg, id, s, p, room).node.progress
    ensures var pr, pr' := s.progress[p], FillPeer(cfg, id, s, p, room).node.progress[p];
      && pr.window <= pr'.window && pr'.matched == pr.matched && pr'.probe == pr.probe
      && |pr'.window| <= |pr.window| + room && |pr'.window| <= Max(|pr.window|, WindowLimit(cfg, pr))
      && (|pr'.window| == |pr.window| + room || |pr'.window| >= WindowLimit(cfg, pr) || pr'.next == |s.log| + 1)
    decreases room
  {
    hide EmitReplication;
    EmitRecord(cfg, id, s, p, false);
    if room > 0 && s.progress[p].next <= |s.log| && |s.progress[p].window| < WindowLimit(cfg, s.progress[p]) {
      var s1 := EmitReplication(cfg, id, s, p, false).node;
      EmitKeepsRange(cfg, id, s, p, false);
      EmitFrame(cfg, id, s, p);
      FillStops(cfg, id, s1, p, room - 1);
    }
  }

  lemma EmitFrame(cfg: Config, id: NodeId, s: Node, p: NodeId)
    requires ProgressInRange(cfg, s) && p in s.progress
    ensures var s1 := EmitReplication(cfg, id, s, p, false).node;
      s1.log == s.log && s1.base == s.base && s1.paused == s.paused
  {
  }

  /**
   Every answer is followed up: the one that completes a hand-over makes the leader
   ask the target to stand, a probe below the leader's snapshot makes it send that,
   and any other answer refills the window.
   */
  lemma AnswerFollowed(cfg: Config, id: NodeId, s: Node, m: Message, room: nat)
    requires NodeOK(cfg, id, s) && s.role == Leader && m.AppendResp? && m.from in s.progress && m.term == s.term
    requires !IgnoresResp(s, m) && m.from !in s.paused
    ensures m.from in Acknowledge(cfg, s, m).progress
    ensures m.from in HandleAppendResp(cfg, id, s, m, room).node.progress
    ensures var o, p, pr := HandleAppendResp(cfg, id, s, m, room), m.from, Acknowledge(cfg, s, m).progress[m.from];
      var w := o.node.progress[p].window;
      if m.granted && s.transferTarget == p && !s.transferSent && pr.matched == |s.log|
      then TimeoutNow(id, p, s.term) in o.msgs && o.node.transferSent
      else if pr.next <= s.base then SnapshotMsg(id, p, s.term, s.log[..s.base]) in o.msgs
      else
        && pr.window <= w && |w| <= |pr.window| + room
        && (|w| == |pr.window| + room || |w| >= WindowLimit(cfg, pr) || o.node.progress[p].next == |s.log| + 1)
  {
    hide UpdateCommit, IgnoresResp, Advanced, BackedOff, EmitReplication, WindowInRange, FillPeer;
    var p := m.from;
    AcknowledgeKeepsRange(cfg, s, m);
    var s1 := Acknowledge(cfg, s, m);
    AcknowledgedFields(cfg, s, m);
    if s1.progress[p].next <= s.base {
      FillSnapshot(cfg, id, s1, p, room);
    } else {
      FillStops(cfg, id, s1, p, room);
    }
  }

  lemma AcknowledgedFields(cfg: Config, s: Node, m: Message)
    requires m.AppendResp? && m.from in s.progress
    ensures var s1 := Acknowledge(cfg, s, m);
      s1 == s.(progress := s1.progress, commit := s1.commit) && m.from in s1.progress
  {
    hide UpdateCommit, Advanced, BackedOff;
    UpdateCommitFields(cfg, s.(progress := s.progress[m.from := Advanced(s.progress[m.from], m.matched)]));
  }

  lemma FillSnapshot(cfg: Config, id: NodeId, s: Node, p: NodeId, room: nat)
    requires ProgressInRange(cfg, s) && p in s.progress && p !in s.paused && s.progress[p].next <= s.base
    ensures SnapshotMsg(id, p, s.term, s.log[..s.base]) in FillPeer(cfg, id, s, p, room).msgs
    ensures p in FillPeer(cfg, id, s, p, room).node.progress
  {
  }

  /** A broadcast does for every other peer exactly what sending to it alone does. */
  lemma {:induction false} BroadcastReaches(cfg: Config, id: NodeId, s: Node, ps: seq<NodeId>, p: NodeId)
    requires ProgressInRange(cfg, s) && (forall q :: q in ps ==> q in s.progress) && p in s.progress
    requires forall i, j :: 0 <= i < j < |ps| ==> ps[i] != ps[j]
    ensures var o := Broadcast(cfg, id, s, ps);
      var alone := EmitReplication(cfg, id, s, p, true);
      && p in o.node.progress && PausedPeers.Alike(s, o.node)
      && (p in ps && p != id ==> o.node.progress[p] == alone.node.progress[p] && alone.msgs <= o.msgs)
      && (p !in ps || p == id ==> o.node.progress[p] == s.progress[p])
    decreases ps
  {
    hide EmitReplication;
    if ps != [] {
      var q, rest := ps[0], ps[1..];
      assert p in ps <==> p == q || p in rest;
      if q == id {
        BroadcastReaches(cfg, id, s, rest, p);
      } else {
        var first := EmitReplication(cfg, id, s, q, true);
        PausedPeers.EmitGated(cfg, id, s, q, true);
        EmitKeepsRange(cfg, id, s, q, true);
        BroadcastReaches(cfg, id, first.node, rest, p);
        if p != q {
          EmitOthers(cfg, id, s, q, p);
          EmitLocal(cfg, id, s, first.node, p, true);
        }
      }
    }
  }

  lemma EmitOthers(cfg: Config, id: NodeId, s: Node, q: NodeId, p: NodeId)
    requires ProgressInRange(cfg, s) && p in s.progress && q in s.progress && p != q
    ensures var s' := EmitReplication(cfg, id, s, q, true).node; p in s'.progress && s'.progress[p] == s.progress[p]
  {
  }

  /** The chain with one more request at its end. */
  lemma ChainGrows(net: set<Message>, net': set<Message>, l: NodeId, p: NodeId, s: Node, s': Node, pr: Progress,
                   m: Message, count: nat)
    requires Chained(net, l, p, s, pr) && net <= net' && m in net' && PausedPeers.Alike(s, s')
    requires 0 < count && IsRequest(m, l, p, s, pr.next - 1, pr.next + count - 1)
    ensures Chained(net', l, p, s',
      pr.(next := pr.next + count, window := pr.window + [Inflight(pr.next - 1, pr.next + count - 1)]))
  {
    var w := pr.window + [Inflight(pr.next - 1, pr.next + count - 1)];
    forall k | 0 <= k < |w| ensures w[k].prev < w[k].last && Carried(net', l, p, s', w[k].prev, w[k].last) {
      if k < |pr.window| {
        assert w[k] == pr.window[k];
        var m0 :| m0 in net && IsRequest(m0, l, p, s, w[k].prev, w[k].last);
        assert IsRequest(m0, l, p, s', w[k].prev, w[k].last);
      } else {
        assert IsRequest(m, l, p, s', w[k].prev, w[k].last);
      }
    }
    forall k | 0 <= k < |w| - 1 ensures w[k + 1].prev == w[k].last {
      if k + 1 < |pr.window| { assert pr.window[k + 1].prev == pr.window[k].last; }
    }
  }

  lemma CarriedStays(net: set<Message>, net': set<Message>, l: NodeId, p: NodeId, s: Node, s': Node, prev: nat,
                     last: nat)
    requires Carried(net, l, p, s, prev, last) && net <= net'
    requires s'.term == s.term && s.log <= s'.log && s.commit <= s'.commit
    ensures Carried(net', l, p, s', prev, last)
  {
    var m :| m in net && IsRequest(m, l, p, s, prev, last);
    assert s'.log[..|s.log|] == s.log;
    assert s'.log[prev..last] == s.log[prev..last];
    assert IsRequest(m, l, p, s', prev, last);
  }

  lemma ChainStays(net: set<Message>, net': set<Message>, l: NodeId, p: NodeId, s: Node, s': Node, pr: Progress,
                   probe: bool)
    requires Chained(net, l, p, s, pr) && net <= net' && s'.term == s.term && s.log <= s'.log && s.commit <= s'.commit
    ensures Chained(net', l, p, s', pr.(probe := probe))
  {
    hide Carried;
    var w := pr.window;
    forall k | 0 <= k < |w| ensures Carried(net', l, p, s', w[k].prev, w[k].last) {
      CarriedStays(net, net', l, p, s, s', w[k].prev, w[k].last);
    }
  }

  /** Sending to a peer keeps the pair ready, and leaves its probe where it was. */
  lemma SentPair(cfg: Config, net: set<Message>, net': set<Message>, l: NodeId, p: NodeId, s: Node, f: Node, s': Node,
                 heartbeat: bool)
    requires Pair(cfg, net, l, p, s, f) && ProgressInRange(cfg, s) && net <= net' && PausedPeers.Alike(s, s')
    requires var o := EmitReplication(cfg, l, s, p, heartbeat);
      p in s'.progress && s'.progress[p] == o.node.progress[p] && o.msgs <= net'
    ensures Pair(cfg, net', l, p, s', f)
    ensures s'.progress[p].matched == s.progress[p].matched && Start(s'.progress[p]) == Start(s.progress[p])
  {
    hide Chained, Compatible, IsRequest, EmitReplication, ProgressInRange;
    var pr := s.progress[p];
    EmitRecord(cfg, l, s, p, heartbeat);
    CompatibleAlike(s, s', f);
    ChainFacts(net, l, p, s, pr);
    ChainStays(net, net', l, p, s, s', pr, pr.probe);
    ChainStays(net, net', l, p, s, s', pr, true);
    if s.base < pr.next <= |s.log| && |pr.window| < WindowLimit(cfg, pr) {
      var count := Min(|s.log| - pr.next + 1, MAX_APPEND_ENTRIES);
      var m := AppendReq(l, p, s.term, pr.next - 1, TermAt(s.log, pr.next - 1),
                         s.log[pr.next - 1..pr.next + count - 1], s.commit);
      assert m in EmitReplication(cfg, l, s, p, heartbeat).msgs;
      RequestOf(m, l, p, s, pr.next - 1, pr.next + count - 1);
      ChainGrows(net, net', l, p, s, s', pr, m, count);
    }
  }

  lemma CompatibleAlike(s: Node, s': Node, f: Node)
    requires Compatible(s, f) && PausedPeers.Alike(s, s')
    ensures Compatible(s', f)
  {
  }

  lemma RequestOf(m: Message, l: NodeId, p: NodeId, s: Node, prev: nat, last: nat)
    requires prev <= last <= |s.log| && last - prev <= MAX_APPEND_ENTRIES
    requires m == AppendReq(l, p, s.term, prev, TermAt(s.log, prev), s.log[prev..last], s.commit)
    ensures IsRequest(m, l, p, s, prev, last)
  {
  }

  // ------------------------------------------------------------------ rounds

  /** The same leader, with the same log, a commit index that did not fall and the same match index for a peer. */
  ghost predicate SameLeader(s: Node, s': Node)
  {
    && s'.role == s.role && s'.term == s.term && s'.log == s.log && s'.base == s.base && s'.paused == s.paused
    && s.commit <= s'.commit <= |s.log|
  }

  lemma PairStays(cfg: Config, net: set<Message>, net': set<Message>, l: NodeId, q: NodeId, s: Node, s': Node, f: Node)
    requires Pair(cfg, net, l, q, s, f) && net <= net' && SameLeader(s, s') && f.log <= s.log
    requires q in s'.progress && s'.progress[q] == s.progress[q]
    ensures Pair(cfg, net', l, q, s', f)
  {
    hide Chained;
    ChainStays(net, net', l, q, s, s', s.progress[q], s.progress[q].probe);
    assert s.progress[q].(probe := s.progress[q].probe) == s.progress[q];
  }

  /** The peers that only lag behind stay ready, with their match indices. */
  ghost predicate OthersReady(cfg: Config, c: Cluster, c': Cluster, l: NodeId, p: NodeId)
    requires l in c.nodes && l in c'.nodes
  {
    forall q :: q != p && Ready(cfg, c, l, q) && c.nodes[q].log <= c.nodes[l].log ==>
      && Ready(cfg, c', l, q) && c'.nodes[q] == c.nodes[q]
      && c'.nodes[l].progress[q].matched == c.nodes[l].progress[q].matched
  }

  /** The leader has sent, and nobody else did anything. */
  ghost predicate Sent(cfg: Config, c: Cluster, c': Cluster, l: NodeId, p: NodeId)
  {
    && l in c.nodes && p in c.nodes && l in c'.nodes && c'.nodes == c.nodes[l := c'.nodes[l]] && c.net <= c'.net
    && p in c.nodes[l].progress && p in c'.nodes[l].progress
    && PausedPeers.Alike(c.nodes[l], c'.nodes[l]) && Ready(cfg, c', l, p) && OthersReady(cfg, c, c', l, p)
    && c'.nodes[l].progress[p].matched == c.nodes[l].progress[p].matched
    && Start(c'.nodes[l].progress[p]) == Start(c.nodes[l].progress[p])
  }

  /** A poll sends the next entries. */
  lemma PollRound(cfg: Config, cs: seq<Cluster>, es: seq<Event>, l: NodeId, p: NodeId)
    returns (cs': seq<Cluster>, es': seq<Event>)
    requires IsRun(cfg, cs, es) && cs != [] && Ready(cfg, Now(cs), l, p)
    requires var s := Now(cs).nodes[l];
      s.progress[p].window == [] && s.base < s.progress[p].next <= |s.log|
    ensures cs' != [] && Continues(cfg, cs, es, cs', es') && Sent(cfg, Now(cs), Now(cs'), l, p)
    ensures Now(cs').nodes[l].progress[p].window != []
  {
    hide IsRun, NodeOK, ClusterOK, Pair, OthersReady;
    var c := Now(cs);
    var s := c.nodes[l];
    PairFacts(cfg, c.net, l, p, s, c.nodes[p]);
    Bounds(cfg, cs, es, |cs| - 1, l);
    Ranged(cfg, l, s);
    Configured(cfg, cs, es);
    cs', es' := Proceed(cfg, cs, es, PollPeer(l, p));
    var o := EmitReplication(cfg, l, s, p, false);
    assert Now(cs') == Cluster(c.nodes[l := o.node], c.net + o.msgs);
    SentPair(cfg, c.net, c.net + o.msgs, l, p, s, c.nodes[p], o.node, false);
    PollOthers(cfg, c, l, p, o);
  }

  lemma PollOthers(cfg: Config, c: Cluster, l: NodeId, p: NodeId, o: Out)
    requires l in c.nodes && ProgressInRange(cfg, c.nodes[l]) && p in c.nodes[l].progress
    requires o == EmitReplication(cfg, l, c.nodes[l], p, false) && c.nodes[l].commit <= |c.nodes[l].log|
    ensures OthersReady(cfg, c, Cluster(c.nodes[l := o.node], c.net + o.msgs), l, p)
  {
    hide Pair;
    var c' := Cluster(c.nodes[l := o.node], c.net + o.msgs);
    var s := c.nodes[l];
    forall q | q != p && Ready(cfg, c, l, q) && c.nodes[q].log <= s.log
      ensures q in s.progress && q in o.node.progress && q in c'.nodes && c'.nodes[q] == c.nodes[q]
      ensures Ready(cfg, c', l, q) && o.node.progress[q].matched == s.progress[q].matched
    {
      PairFacts(cfg, c.net, l, q, s, c.nodes[q]);
      PairStays(cfg, c.net, c.net + o.msgs, l, q, s, o.node, c.nodes[q]);
    }
  }

  lemma Ranged(cfg: Config, l: NodeId, s: Node)
    requires NodeOK(cfg, l, s) && s.role == Leader
    ensures ProgressInRange(cfg, s) && s.commit <= |s.log| && s.progress.Keys == Peers(cfg)
  {
  }

  lemma Configured(cfg: Config, cs: seq<Cluster>, es: seq<Event>)
    requires IsRun(cfg, cs, es)
    ensures 1 <= cfg.maxInflight && forall i, j :: 0 <= i < j < |cfg.peers| ==> cfg.peers[i] != cfg.peers[j]
  {
  }

  /** A heartbeat behind the whole log. */
  lemma BeatRound(cfg: Config, cs: seq<Cluster>, es: seq<Event>, l: NodeId, p: NodeId)
    returns (cs': seq<Cluster>, es': seq<Event>)
    requires IsRun(cfg, cs, es) && cs != [] && Ready(cfg, Now(cs), l, p)
    requires var s := Now(cs).nodes[l];
      s.progress[p].window == [] && s.base < s.progress[p].next == |s.log| + 1
    ensures cs' != [] && Continues(cfg, cs, es, cs', es') && Sent(cfg, Now(cs), Now(cs'), l, p)
    ensures var s := Now(cs').nodes[l];
      && s.progress[p].window == [] && s.progress[p].next == |s.log| + 1
      && Carried(Now(cs').net, l, p, s, |s.log|, |s.log|)
  {
    hide IsRun, NodeOK, ClusterOK, Pair, EmitReplication, Broadcast, OthersReady, Carried;
    var c := Now(cs);
    var s := c.nodes[l];
    PairFacts(cfg, c.net, l, p, s, c.nodes[p]);
    Bounds(cfg, cs, es, |cs| - 1, l);
    Ranged(cfg, l, s);
    Configured(cfg, cs, es);
    cs', es' := Proceed(cfg, cs, es, TickLeader(l, {}, true));
    assert ExpireWindows(s, {}).progress == s.progress;
    assert ExpireWindows(s, {}) == s;
    var o := Broadcast(cfg, l, s, cfg.peers);
    assert Now(cs') == Cluster(c.nodes[l := o.node], c.net + o.msgs);
    BroadcastReaches(cfg, l, s, cfg.peers, p);
    SentPair(cfg, c.net, c.net + o.msgs, l, p, s, c.nodes[p], o.node, true);
    Beat(cfg, l, s, p, o.node, c.net + o.msgs);
    BeatOthers(cfg, c, l, p, o);
  }

  lemma BeatOthers(cfg: Config, c: Cluster, l: NodeId, p: NodeId, o: Out)
    requires l in c.nodes && ProgressInRange(cfg, c.nodes[l]) && o == Broadcast(cfg, l, c.nodes[l], cfg.peers)
    requires forall i, j :: 0 <= i < j < |cfg.peers| ==> cfg.peers[i] != cfg.peers[j]
    ensures OthersReady(cfg, c, Cluster(c.nodes[l := o.node], c.net + o.msgs), l, p)
  {
    hide Pair, Broadcast, EmitReplication;
    var c' := Cluster(c.nodes[l := o.node], c.net + o.msgs);
    var s := c.nodes[l];
    forall q | q != p && Ready(cfg, c, l, q) && c.nodes[q].log <= s.log
      ensures q in s.progress && q in o.node.progress && q in c'.nodes && c'.nodes[q] == c.nodes[q]
      ensures Ready(cfg, c', l, q) && o.node.progress[q].matched == s.progress[q].matched
    {
      PairFacts(cfg, c.net, l, q, s, c.nodes[q]);
      BroadcastReaches(cfg, l, s, cfg.peers, q);
      SentPair(cfg, c.net, c.net + o.msgs, l, q, s, c.nodes[q], o.node, true);
    }
  }

  lemma Beat(cfg: Config, l: NodeId, s: Node, p: NodeId, s': Node, net: set<Message>)
    requires ProgressInRange(cfg, s) && p in s.progress && s.progress[p].window == [] && p !in s.paused
    requires s.base < s.progress[p].next == |s.log| + 1 && PausedPeers.Alike(s, s') && p in s'.progress
    requires var o := EmitReplication(cfg, l, s, p, true); s'.progress[p] == o.node.progress[p] && o.msgs <= net
    ensures s'.progress[p] == s.progress[p] && Carried(net, l, p, s', |s'.log|, |s'.log|)
  {
    var m := AppendReq(l, p, s.term, |s.log|, TermAt(s.log, |s.log|), [], s.commit);
    assert m in net;
    assert s.log[|s.log|..|s.log|] == [];
    assert IsRequest(m, l, p, s', |s'.log|, |s'.log|);
  }

  /** A round brought the follower closer and disturbed nobody else. */
  ghost predicate Rounded(cfg: Config, c: Cluster, c': Cluster, l: NodeId, p: NodeId)
  {
    && l in c.nodes && p in c.nodes && l in c'.nodes && p in c'.nodes && p in c.nodes[l].progress
    && SameLeader(c.nodes[l], c'.nodes[l]) && Ready(cfg, c', l, p) && OthersReady(cfg, c, c', l, p)
    && c'.nodes[p].term == c'.nodes[l].term
    && (c'.nodes[l].progress[p].matched == |c.nodes[l].log| || Closer(c.nodes[l].progress[p], c'.nodes[l].progress[p]))
    && (c.nodes[p].log <= c.nodes[l].log ==> c'.nodes[p].log <= c'.nodes[l].log)
  }

  lemma ExchangedRounded(cfg: Config, c: Cluster, c1: Cluster, c2: Cluster, l: NodeId, p: NodeId)
    requires l in c.nodes && p in c.nodes && p in c.nodes[l].progress && Ready(cfg, c, l, p)
    requires c1 == c || Sent(cfg, c, c1, l, p)
    requires Exchanged(cfg, c1, c2, l, p) && c.nodes[l].commit <= |c.nodes[l].log|
    ensures Rounded(cfg, c, c2, l, p)
  {
    hide Pair;
    forall q | q != p && Ready(cfg, c, l, q) && c.nodes[q].log <= c.nodes[l].log
      ensures q in c.nodes[l].progress && q in c2.nodes[l].progress && q in c2.nodes
      ensures Ready(cfg, c2, l, q) && c2.nodes[q] == c.nodes[q]
      ensures c2.nodes[l].progress[q].matched == c.nodes[l].progress[q].matched
    {
      PairFacts(cfg, c.net, l, q, c.nodes[l], c.nodes[q]);
      assert Ready(cfg, c1, l, q) && c1.nodes[q] == c.nodes[q];
      PairFacts(cfg, c1.net, l, q, c1.nodes[l], c1.nodes[q]);
      PairStays(cfg, c1.net, c2.net, l, q, c1.nodes[l], c2.nodes[l], c1.nodes[q]);
    }
  }

  /** The follower installs the leader's snapshot, and the leader learns of it. */
  lemma InstalledPair(cfg: Config, net: set<Message>, net': set<Message>, l: NodeId, p: NodeId, s: Node, f: Node)
    requires Pair(cfg, net, l, p, s, f) && net <= net' && NeedsSnapshot(s, s.progress[p]) && ProgressInRange(cfg, s)
    requires s.base <= |s.log| && f.commit <= |f.log|
    ensures var m := SnapshotMsg(l, p, s.term, s.log[..s.base]);
      var o := InstallSnapshot(cfg, p, f, m);
      var s' := SnapshotCompleted(cfg, l, s, p, s.base, 0).node;
      && o.msgs == {SnapshotAck(p, l, s.term, s.base)}
      && Moved(s, s', p, Progress(s.base + 1, s.base, [], true)) && s'.commit == s.commit
      && Pair(cfg, net', l, p, s', o.node)
      && (f.log <= s.log ==> o.node.log <= s.log) && o.node.term == s'.term
  {
    hide Chained, Compatible;
    var m := SnapshotMsg(l, p, s.term, s.log[..s.base]);
    var f' := InstallSnapshot(cfg, p, f, m).node;
    var s' := SnapshotCompleted(cfg, l, s, p, s.base, 0).node;
    assert s' == s.(progress := s.progress[p := Progress(s.base + 1, s.base, [], true)]);
    NoChain(net', l, p, s', s'.progress[p]);
    InstalledLog(s, f, f'.log);
    CompatibleInstalled(s, s', f, f');
  }

  lemma InstalledLog(s: Node, f: Node, log': seq<Entry>)
    requires s.base <= |s.log|
    requires log' == if s.base <= |f.log| && TermAt(f.log, s.base) == LastTerm(s.log[..s.base])
                     then s.log[..s.base] + f.log[s.base..] else s.log[..s.base]
    ensures f.log <= s.log ==> log' <= s.log
    ensures |log'| >= s.base && log'[..s.base] == s.log[..s.base]
    ensures forall k :: s.base <= k < |log'| ==> k < |f.log| && log'[k] == f.log[k]
  {
    if f.log <= s.log && s.base <= |f.log| { assert s.log[..s.base] + f.log[s.base..] == f.log; }
  }

  lemma CompatibleInstalled(s: Node, s': Node, f: Node, f': Node)
    requires Compatible(s, f) && s'.log == s.log && s'.commit == s.commit && f'.commit == s.base <= |s.log|
    requires |f'.log| >= s.base && f'.log[..s.base] == s.log[..s.base]
    requires forall k :: s.base <= k < |f'.log| ==> k < |f.log| && f'.log[k] == f.log[k]
    ensures Compatible(s', f')
  {
    forall k | 0 <= k < |f'.log| && k < |s.log| && (k < s.commit || k < f'.commit) ensures f'.log[k] == s.log[k] {
      if k < s.base { assert f'.log[..s.base][k] == s.log[..s.base][k]; }
    }
  }

  lemma SnapshotRound(cfg: Config, cs: seq<Cluster>, es: seq<Event>, l: NodeId, p: NodeId)
    returns (cs': seq<Cluster>, es': seq<Event>)
    requires IsRun(cfg, cs, es) && cs != [] && Ready(cfg, Now(cs), l, p)
    requires NeedsSnapshot(Now(cs).nodes[l], Now(cs).nodes[l].progress[p])
    ensures cs' != [] && Continues(cfg, cs, es, cs', es') && Rounded(cfg, Now(cs), Now(cs'), l, p)
  {
    hide IsRun, NodeOK, ClusterOK, Pair, OthersReady, Moved, Closer, InstallSnapshot, SnapshotCompleted;
    var c := Now(cs);
    var s := c.nodes[l];
    PairFacts(cfg, c.net, l, p, s, c.nodes[p]);
    Bounds(cfg, cs, es, |cs| - 1, l);
    Ranged(cfg, l, s);
    var c1, e1 := Proceed(cfg, cs, es, PollPeer(l, p));
    var o := EmitReplication(cfg, l, s, p, false);
    var m := SnapshotMsg(l, p, s.term, s.log[..s.base]);
    assert Now(c1) == Cluster(c.nodes[l := o.node], c.net + o.msgs);
    SentPair(cfg, c.net, c.net + o.msgs, l, p, s, c.nodes[p], o.node, false);
    PollOthers(cfg, c, l, p, o);
    assert m in Now(c1).net;
    var c2, e2 := InstallRound(cfg, c1, e1, l, p, m);
    Chain(cfg, cs, es, c1, e1, c2, e2);
    ExchangedRounded(cfg, c, Now(c1), Now(c2), l, p);
    cs', es' := c2, e2;
  }

  lemma InstallRound(cfg: Config, cs: seq<Cluster>, es: seq<Event>, l: NodeId, p: NodeId, m: Message)
    returns (cs': seq<Cluster>, es': seq<Event>)
    requires IsRun(cfg, cs, es) && cs != [] && Ready(cfg, Now(cs), l, p) && m in Now(cs).net
    requires NeedsSnapshot(Now(cs).nodes[l], Now(cs).nodes[l].progress[p])
    requires Now(cs).nodes[l].base <= |Now(cs).nodes[l].log|
    requires m == SnapshotMsg(l, p, Now(cs).nodes[l].term, Now(cs).nodes[l].log[..Now(cs).nodes[l].base])
    ensures cs' != [] && Continues(cfg, cs, es, cs', es') && Exchanged(cfg, Now(cs), Now(cs'), l, p)
  {
    hide IsRun, NodeOK, ClusterOK, Pair, Moved, InstallSnapshot, SnapshotCompleted;
    var c := Now(cs);
    var s, f := c.nodes[l], c.nodes[p];
    PairFacts(cfg, c.net, l, p, s, f);
    Bounds(cfg, cs, es, |cs| - 1, l);
    Bounds(cfg, cs, es, |cs| - 1, p);
    Ranged(cfg, l, s);
    Committed(cfg, p, f);
    var c1, e1 := Proceed(cfg, cs, es, Deliver(p, m, 0));
    InstalledPair(cfg, c.net, c.net, l, p, s, f);
    var ack := SnapshotAck(p, l, s.term, s.base);
    var c2, e2 := Proceed(cfg, c1, e1, Deliver(l, ack, 0));
    InstalledPair(cfg, c.net, Now(c2).net, l, p, s, f);
    MovedFacts(s, Now(c2).nodes[l], p, Progress(s.base + 1, s.base, [], true));
    MovedCommit(s, Now(c2).nodes[l], p, Progress(s.base + 1, s.base, [], true));
    Chain(cfg, cs, es, c1, e1, c2, e2);
    cs', es' := c2, e2;
  }

  lemma Committed(cfg: Config, p: NodeId, f: Node)
    requires NodeOK(cfg, p, f)
    ensures f.base <= f.commit <= |f.log|
  {
  }

  lemma MovedCommit(s: Node, s': Node, p: NodeId, pr': Progress)
    requires p in s.progress && Moved(s, s', p, pr')
    ensures s.commit <= s'.commit
  {
  }

  lemma FirstRequest(net: set<Message>, l: NodeId, p: NodeId, s: Node, pr: Progress) returns (m: Message)
    requires Chained(net, l, p, s, pr) && pr.window != []
    ensures m in net && IsRequest(m, l, p, s, pr.window[0].prev, pr.window[0].last)
    ensures Fits(s, pr, pr.window[0].prev, pr.window[0].last)
  {
    ChainFacts(net, l, p, s, pr);
    m :| m in net && IsRequest(m, l, p, s, pr.window[0].prev, pr.window[0].last);
  }

  lemma PairChain(cfg: Config, net: set<Message>, l: NodeId, p: NodeId, s: Node, f: Node)
    requires Pair(cfg, net, l, p, s, f)
    ensures p in s.progress && Chained(net, l, p, s, s.progress[p])
  {
  }

  /** The window is not empty: its first request is answered. */
  lemma WindowRound(cfg: Config, cs: seq<Cluster>, es: seq<Event>, l: NodeId, p: NodeId)
    returns (cs': seq<Cluster>, es': seq<Event>)
    requires IsRun(cfg, cs, es) && cs != [] && Ready(cfg, Now(cs), l, p) && Now(cs).nodes[l].progress[p].window != []
    ensures cs' != [] && Continues(cfg, cs, es, cs', es') && Exchanged(cfg, Now(cs), Now(cs'), l, p)
  {
    hide IsRun, Pair, IsRequest, Fits, Exchanged, Chained;
    var s := Now(cs).nodes[l];
    PairChain(cfg, Now(cs).net, l, p, s, Now(cs).nodes[p]);
    var w := s.progress[p].window;
    ChainFacts(Now(cs).net, l, p, s, s.progress[p]);
    var m := FirstRequest(Now(cs).net, l, p, s, s.progress[p]);
    cs', es' := AnswerRound(cfg, cs, es, l, p, m, w[0].prev, w[0].last);
  }

  /** One whole round: send if nothing is out, and get an answer. */
  lemma Round(cfg: Config, cs: seq<Cluster>, es: seq<Event>, l: NodeId, p: NodeId)
    returns (cs': seq<Cluster>, es': seq<Event>)
    requires IsRun(cfg, cs, es) && cs != [] && Ready(cfg, Now(cs), l, p)
    ensures cs' != [] && Continues(cfg, cs, es, cs', es') && Rounded(cfg, Now(cs), Now(cs'), l, p)
  {
    hide IsRun, Pair, IsRequest, Fits, Exchanged, Chained, Rounded, Sent, Carried, Continues, NodeOK;
    var c := Now(cs);
    var s := c.nodes[l];
    PairFacts(cfg, c.net, l, p, s, c.nodes[p]);
    Bounds(cfg, cs, es, |cs| - 1, l);
    Ranged(cfg, l, s);
    var pr := s.progress[p];
    if NeedsSnapshot(s, pr) {
      cs', es' := SnapshotRound(cfg, cs, es, l, p);
    } else if pr.window != [] {
      cs', es' := WindowRound(cfg, cs, es, l, p);
      ExchangedRounded(cfg, c, c, Now(cs'), l, p);
    } else {
      var c1, e1: seq<Event>;
      if pr.next <= |s.log| {
        c1, e1 := PollRound(cfg, cs, es, l, p);
        Onward(cfg, cs, es, c1, e1);
        SentFacts(cfg, c, Now(c1), l, p);
        cs', es' := WindowRound(cfg, c1, e1, l, p);
      } else {
        c1, e1 := BeatRound(cfg, cs, es, l, p);
        Onward(cfg, cs, es, c1, e1);
        SentFacts(cfg, c, Now(c1), l, p);
        var s1 := Now(c1).nodes[l];
        var m := CarriedRequest(Now(c1).net, l, p, s1, |s1.log|, |s1.log|);
        BeatFits(s1, s1.progress[p]);
        cs', es' := AnswerRound(cfg, c1, e1, l, p, m, |s1.log|, |s1.log|);
      }
      Chain(cfg, cs, es, c1, e1, cs', es');
      ExchangedRounded(cfg, c, Now(c1), Now(cs'), l, p);
    }
  }

  lemma SentFacts(cfg: Config, c: Cluster, c': Cluster, l: NodeId, p: NodeId)
    requires Sent(cfg, c, c', l, p)
    ensures l in c.nodes && l in c'.nodes && p in c'.nodes[l].progress && Ready(cfg, c', l, p)
    ensures c'.nodes[l].base == c.nodes[l].base && c'.nodes[l].log == c.nodes[l].log
  {
  }

  lemma CarriedRequest(net: set<Message>, l: NodeId, p: NodeId, s: Node, prev: nat, last: nat) returns (m: Message)
    requires Carried(net, l, p, s, prev, last)
    ensures m in net && IsRequest(m, l, p, s, prev, last)
  {
    m :| m in net && IsRequest(m, l, p, s, prev, last);
  }

  lemma BeatFits(s: Node, pr: Progress)
    requires pr.window == [] && pr.next == |s.log| + 1
    ensures Fits(s, pr, |s.log|, |s.log|)
  {
  }
}
