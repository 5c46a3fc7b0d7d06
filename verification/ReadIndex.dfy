/**
 ReadIndex barriers of a leader (src/core/raft_core.c) and the completed-read
 queue of the service (src/service/raft_service.c), with a fixed peer set.
 */
module ReadIndex {
  import opened RaftTypes
  import opened RaftNode

  datatype ReadState = ReadState(context: nat, index: nat)

  function ContextsOf(rs: seq<ReadState>): (cs: seq<nat>)
    ensures |cs| == |rs| && forall i :: 0 <= i < |rs| ==> cs[i] == rs[i].context
  {
    seq(|rs|, i requires 0 <= i < |rs| => rs[i].context)
  }

  /** Every context of a batch released at one read index. */
  function At(cs: seq<nat>, index: nat): (rs: seq<ReadState>)
    ensures |rs| == |cs| && forall i :: 0 <= i < |cs| ==> rs[i] == ReadState(cs[i], index)
  {
    seq(|cs|, i requires 0 <= i < |cs| => ReadState(cs[i], index))
  }

  predicate Distinct(cs: seq<nat>)
  {
    forall i, j :: 0 <= i < j < |cs| ==> cs[i] != cs[j]
  }

  class Reads {
    const cfg: Config
    const id: NodeId
    const maxPending: nat
    const maxCompleted: nat
    var commit: nat
    var applied: nat
    var active: seq<nat>
    var waiting: seq<nat>
    var index: nat
    var barrier: nat
    var acks: set<NodeId>
    var completed: seq<ReadState>
    ghost var admitted: map<nat, nat>

    /** Contexts between admission and release, in the order active, waiting, completed. */
    ghost function Held(): (cs: seq<nat>)
      reads this`active, this`waiting, this`completed
    {
      active + waiting + ContextsOf(completed)
    }

    ghost predicate Bounded()
      reads this
    {
      && |active| + |waiting| <= maxPending && |active| + |waiting| + |completed| <= maxCompleted && applied <= commit
      && (active != [] ==> index <= commit && barrier == active[0] && !IsQuorum(cfg, {id}))
    }

    /** A context's read index is never below the commit index it was admitted at. */
    ghost predicate Fresh()
      reads this`admitted, this`active, this`waiting, this`completed, this`index, this`commit
    {
      && (forall i :: 0 <= i < |active| ==> active[i] in admitted && admitted[active[i]] <= index)
      && (forall i :: 0 <= i < |waiting| ==> waiting[i] in admitted && admitted[waiting[i]] <= commit)
      && (forall i :: 0 <= i < |completed| ==>
           completed[i].context in admitted && admitted[completed[i].context] <= completed[i].index)
    }

    ghost predicate Valid()
      reads this
    {
      Bounded() && Fresh() && Distinct(Held()) && 0 !in Held()
    }

    constructor (cfg: Config, id: NodeId, maxPending: nat, maxCompleted: nat)
      ensures Valid() && Held() == [] && this.cfg == cfg && this.id == id
      ensures this.maxPending == maxPending && this.maxCompleted == maxCompleted
    {
      this.cfg, this.id, this.maxPending, this.maxCompleted := cfg, id, maxPending, maxCompleted;
      commit, applied, active, waiting, index, barrier, acks, completed := 0, 0, [], [], 0, 0, {}, [];
      admitted := map[];
    }

    /** The core commits or applies more; neither index goes back. */
    method Progress(commit': nat, applied': nat)
      requires Valid() && commit <= commit' && applied <= applied' <= commit'
      modifies this`commit, this`applied
      ensures Valid() && Held() == old(Held()) && commit == commit' && applied == applied'
    {
      commit, applied := commit', applied';
    }

    /** tr_read_emit_active: the whole batch completes at the barrier's index. */
    method Complete()
      requires Valid()
      modifies this`active, this`completed, this`acks, this`barrier
      ensures Valid() && active == [] && waiting == old(waiting)
      ensures completed == old(completed) + At(old(active), index)
      ensures multiset(Held()) == old(multiset(Held()))
    {
      Moves(active, waiting, completed, index);
      completed := completed + At(active, index);
      active, acks, barrier := [], {}, 0;
    }

    /** tr_read_move_waiting_to_active and tr_read_start_active_barrier */
    method StartBarrier()
      requires Valid() && active == [] && waiting != []
      modifies this`active, this`waiting, this`index, this`barrier, this`acks, this`completed
      ensures Valid() && multiset(Held()) == old(multiset(Held())) && waiting == []
      ensures IsQuorum(cfg, {id}) ==> active == [] && completed == old(completed) + At(old(waiting), commit)
      ensures !IsQuorum(cfg, {id}) ==>
        active == old(waiting) && completed == old(completed) && index == commit && acks == {id}
    {
      assert active + waiting == waiting + [];
      if IsQuorum(cfg, {id}) {
        Moves(waiting, [], completed, commit);
        completed := completed + At(waiting, commit);
        active, waiting, index, barrier, acks := [], [], commit, 0, {};
      } else {
        active, waiting, index, barrier, acks := waiting, [], commit, waiting[0], {id};
      }
    }

    method Contains(cs: seq<nat>, context: nat) returns (found: bool)
      ensures found <==> context in cs
    {
      for i := 0 to |cs|
        invariant context !in cs[..i]
      {
        if cs[i] == context { return true; }
        assert cs[..i + 1] == cs[..i] + [cs[i]];
      }
      assert cs[..|cs|] == cs;
      return false;
    }

    /** The checks of tr_raft_service_read_index and tr_raft_core_read_index, in their order. */
    method Admissible(context: nat, leader: bool, eligible: bool, room: bool) returns (status: Status)
      requires Valid()
      ensures status == OK <==>
        && context != 0 && leader && eligible && context !in Held() && |Held()| < maxCompleted
        && |active| + |waiting| < maxPending && (active != [] || room)
    {
      hide Distinct, Fresh, IsQuorum;
      if context == 0 { return EINVAL; }
      var done := Contains(ContextsOf(completed), context);
      if done { return EALREADY; }
      if |completed| + |active| + |waiting| >= maxCompleted { return ENOSPC; }
      if !leader { return EPROTO; }
      if !eligible { return EBUSY; }
      var inActive := Contains(active, context);
      var inWaiting := Contains(waiting, context);
      if inActive || inWaiting { return EALREADY; }
      if |active| + |waiting| >= maxPending { return ENOSPC; }
      if active == [] && !room { return ENOSPC; }
      return OK;
    }

    /** An admitted read; `room` is space for the barrier's messages. */
    method Read(context: nat, leader: bool, eligible: bool, room: bool) returns (status: Status)
      requires Valid()
      modifies this
      ensures Valid() && commit == old(commit) && applied == old(applied)
      ensures status == OK ==> multiset(Held()) == old(multiset(Held())) + multiset{context}
      ensures admitted == if status == OK then old(admitted)[context := commit] else old(admitted)
      ensures status != OK ==> Idle()
      ensures status == OK && old(active) != [] ==>
        && completed == old(completed) && index == old(index) && barrier == old(barrier) && acks == old(acks)
        && if commit == index then active == old(active) + [context] && waiting == old(waiting)
           else active == old(active) && waiting == old(waiting) + [context]
      ensures status == OK && old(active) == [] ==>
        if IsQuorum(cfg, {id}) then active == [] && completed == old(completed) + At(old(waiting) + [context], commit)
        else completed == old(completed) && Running(old(waiting) + [context])
      ensures status == OK <==>
        && context != 0 && leader && eligible && context !in old(Held()) && |old(Held())| < maxCompleted
        && |old(active)| + |old(waiting)| < maxPending && (old(active) != [] || room)
    {
      hide Distinct, Fresh, IsQuorum, Bounded, ContextsOf, At;
      status := Admissible(context, leader, eligible, room);
      if status != OK { return; }
      Admit(context);
    }

    /** The context joins or waits, or starts a barrier when none is running. */
    method Admit(context: nat)
      requires Valid() && context != 0 && context !in Held() && |Held()| < maxCompleted
      requires |active| + |waiting| < maxPending
      modifies this`active, this`waiting, this`admitted, this`index, this`barrier, this`acks, this`completed
      ensures Valid() && multiset(Held()) == old(multiset(Held())) + multiset{context}
      ensures admitted == old(admitted)[context := commit]
      ensures old(active) != [] ==>
        && completed == old(completed) && index == old(index) && barrier == old(barrier) && acks == old(acks)
        && if commit == index then active == old(active) + [context] && waiting == old(waiting)
           else active == old(active) && waiting == old(waiting) + [context]
      ensures old(active) == [] ==>
        if IsQuorum(cfg, {id}) then active == [] && completed == old(completed) + At(old(waiting) + [context], commit)
        else completed == old(completed) && Running(old(waiting) + [context])
    {
      hide Distinct, Fresh, IsQuorum, Bounded, ContextsOf, At;
      Enter(context);
      if active == [] { StartBarrier(); }
    }

    /** The response is a first acknowledgement of the running barrier. */
    ghost predicate Counts(from: NodeId, context: nat)
      reads this`active, this`barrier, this`acks
    {
      context != 0 && active != [] && context == barrier && from !in acks
    }

    /** The waiting contexts wait for their barrier: nothing is active, and there is room for its messages. */
    ghost predicate Starts(room: bool)
      reads this`active, this`waiting
    {
      active == [] && waiting != [] && room
    }

    /** No context moved and no acknowledgement was counted. */
    twostate predicate Idle()
      reads this
    {
      && active == old(active) && waiting == old(waiting) && completed == old(completed) && acks == old(acks)
      && index == old(index) && barrier == old(barrier)
    }

    /** The contexts run a barrier of their own from now on, at the present commit index. */
    ghost predicate Running(contexts: seq<nat>)
      reads this
    {
      active == contexts && waiting == [] && index == commit && acks == {id}
    }

    /**
     tr_step_read_index_response of the current term: an acknowledgement is counted
     once; the one that makes a quorum releases the batch, and the next barrier
     starts when there is room for it.
     */
    method Response(from: NodeId, context: nat, room: bool)
      requires Valid()
      modifies this
      ensures Valid() && multiset(Held()) == old(multiset(Held())) && admitted == old(admitted)
      ensures commit == old(commit) && applied == old(applied)
      ensures !old(Counts(from, context)) ==> Idle()
      ensures old(Counts(from, context)) && !IsQuorum(cfg, old(acks) + {from}) ==>
        && acks == old(acks) + {from} && active == old(active) && waiting == old(waiting)
        && completed == old(completed) && index == old(index) && barrier == old(barrier)
      ensures old(Counts(from, context)) && IsQuorum(cfg, old(acks) + {from}) ==>
        && completed == old(completed) + At(old(active), old(index))
        && if old(waiting) != [] && room then Running(old(waiting)) else active == [] && waiting == old(waiting)
    {
      hide Distinct, IsQuorum, Fresh;
      if context == 0 || active == [] || context != barrier || from in acks { return; }
      acks := acks + {from};
      if !IsQuorum(cfg, acks) { return; }
      Complete();
      if waiting != [] && room { StartBarrier(); }
    }

    /** tr_raft_core_poll: reads that were left waiting get their barrier, and complete at once on a single voter. */
    method Poll(leader: bool, room: bool) returns (status: Status)
      requires Valid()
      modifies this
      ensures Valid() && multiset(Held()) == old(multiset(Held())) && admitted == old(admitted)
      ensures commit == old(commit) && applied == old(applied)
      ensures status == if leader && old(Starts(true)) && !room then ENOSPC else OK
      ensures !(leader && old(Starts(room))) ==> Idle()
      ensures leader && old(Starts(room)) ==>
        if IsQuorum(cfg, {id}) then active == [] && completed == old(completed) + At(old(waiting), commit)
        else completed == old(completed) && Running(old(waiting))
    {
      hide Distinct, Fresh, IsQuorum, Bounded;
      if leader && active == [] && waiting != [] {
        if !room { return ENOSPC; }
        StartBarrier();
      }
      return OK;
    }

    /** tr_read_reset_all: losing leadership drops what has not completed. */
    method LoseLeadership()
      requires Valid()
      modifies this
      ensures Valid() && Held() == ContextsOf(old(completed)) && completed == old(completed)
    {
      ghost var kept := ContextsOf(completed);
      assert Held()[|active| + |waiting|..] == kept;
      active, waiting, index, barrier, acks := [], [], 0, 0, {};
      assert Held() == kept;
    }

    /** tr_raft_service_take_read_state: the oldest read, once everything up to its index is applied. */
    method Take() returns (status: Status, r: ReadState)
      requires Valid()
      modifies this`completed
      ensures Valid()
      ensures status == OK <==> old(completed) != [] && applied >= old(completed)[0].index
      ensures status == OK ==>
        && r == old(completed)[0] && completed == old(completed)[1..] && r.context in admitted
        && admitted[r.context] <= r.index <= applied
        && multiset(Held()) + multiset{r.context} == old(multiset(Held()))
      ensures status != OK ==> completed == old(completed)
    {
      r := ReadState(0, 0);
      if completed == [] { return ENOENT, r; }
      r := completed[0];
      if applied < r.index { return EBUSY, r; }
      Takes(active, waiting, completed);
      completed := completed[1..];
      return OK, r;
    }

    /** The context joins the running barrier when the commit index has not moved, and waits otherwise. */
    method Enter(context: nat)
      requires Valid() && context != 0 && context !in Held() && |Held()| < maxCompleted
      requires |active| + |waiting| < maxPending
      modifies this`active, this`waiting, this`admitted
      ensures Valid() && multiset(Held()) == old(multiset(Held())) + multiset{context}
      ensures admitted == old(admitted)[context := commit]
      ensures if old(active) != [] && commit == index then active == old(active) + [context] && waiting == old(waiting)
        else active == old(active) && waiting == old(waiting) + [context]
    {
      Inserts(active, waiting, ContextsOf(completed), context);
      admitted := admitted[context := commit];
      if active != [] && commit == index {
        active := active + [context];
      } else {
        waiting := waiting + [context];
      }
    }
  }

  /** Completing a batch moves its contexts to the end without losing or repeating any. */
  lemma Moves(active: seq<nat>, waiting: seq<nat>, completed: seq<ReadState>, index: nat)
    ensures var before := active + waiting + ContextsOf(completed);
      var after := [] + waiting + ContextsOf(completed + At(active, index));
      && |after| == |before| && multiset(after) == multiset(before)
      && (Distinct(before) ==> Distinct(after)) && (0 !in before ==> 0 !in after)
  {
    var c := ContextsOf(completed);
    var after := [] + waiting + ContextsOf(completed + At(active, index));
    assert ContextsOf(completed + At(active, index)) == c + active;
    assert after == waiting + (c + active);
    assert multiset(active + waiting + c) == multiset(active) + multiset(waiting) + multiset(c);
    DistinctByCount(active + waiting + c, after);
  }

  lemma Inserts(active: seq<nat>, waiting: seq<nat>, done: seq<nat>, x: nat)
    ensures multiset((active + [x]) + waiting + done) == multiset(active + waiting + done) + multiset{x}
    ensures multiset(active + (waiting + [x]) + done) == multiset(active + waiting + done) + multiset{x}
    ensures x !in active + waiting + done && Distinct(active + waiting + done) ==>
      Distinct((active + [x]) + waiting + done) && Distinct(active + (waiting + [x]) + done)
  {
    var base := active + waiting + done + [x];
    DistinctByCount(base, (active + [x]) + waiting + done);
    DistinctByCount(base, active + (waiting + [x]) + done);
  }

  lemma Takes(active: seq<nat>, waiting: seq<nat>, completed: seq<ReadState>)
    requires completed != []
    ensures var before := active + waiting + ContextsOf(completed);
      var after := active + waiting + ContextsOf(completed[1..]);
      && multiset(after) + multiset{completed[0].context} == multiset(before)
      && (Distinct(before) ==> Distinct(after)) && (0 !in before ==> 0 !in after)
  {
    var c := ContextsOf(completed);
    assert ContextsOf(completed[1..]) == c[1..];
    assert active + waiting + c == (active + waiting) + [c[0]] + c[1..];
    DropOne(active + waiting, c[0], c[1..]);
  }

  lemma DropOne(p: seq<nat>, x: nat, q: seq<nat>)
    ensures multiset(p + q) + multiset{x} == multiset(p + [x] + q)
    ensures (Distinct(p + [x] + q) ==> Distinct(p + q)) && (0 !in p + [x] + q ==> 0 !in p + q)
  {
    var before, after := p + [x] + q, p + q;
    forall i | 0 <= i < |after| ensures after[i] == before[if i < |p| then i else i + 1] {
    }
  }

  /** Rearranging distinct elements keeps them distinct. */
  lemma DistinctByCount(a: seq<nat>, b: seq<nat>)
    requires multiset(a) == multiset(b)
    ensures Distinct(a) ==> Distinct(b)
    ensures forall x :: x in a <==> x in b
  {
    forall x ensures x in a <==> x in b { assert x in multiset(a) <==> x in multiset(b); }
    if Distinct(a) {
      forall i, j | 0 <= i < j < |b| ensures b[i] != b[j] {
        if b[i] == b[j] {
          TwiceCounted(b, i, j);
          OnceCounted(a, b[i]);
          assert false;
        }
      }
    }
  }

  lemma TwiceCounted(b: seq<nat>, i: nat, j: nat)
    requires i < j < |b| && b[i] == b[j]
    ensures multiset(b)[b[i]] >= 2
  {
    assert b == b[..j] + b[j..];
    assert b[..j][i] == b[i] && b[j..][0] == b[j];
    assert b[i] in multiset(b[..j]) && b[i] in multiset(b[j..]);
    assert multiset(b) == multiset(b[..j]) + multiset(b[j..]);
  }

  lemma {:induction false} OnceCounted(a: seq<nat>, x: nat)
    requires Distinct(a)
    ensures multiset(a)[x] <= 1
    decreases |a|
  {
    if a != [] {
      var front := a[..|a| - 1];
      assert a == front + [a[|a| - 1]];
      OnceCounted(front, x);
      if a[|a| - 1] == x { assert x !in front; }
    }
  }
}
