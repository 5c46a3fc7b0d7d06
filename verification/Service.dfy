/**
 Back-pressure staging of the service (src/service/raft_service.c): a peer whose
 transport is full is paused in the core and its messages wait in a ring until
 the transport takes them.  Transport answers are parameters.
 */
module Service {
  import opened RaftTypes
  import opened RaftNode
  import Cluster
  import PausedPeers

  /** The size of one Ready's message array, and of one peer's ring. */
  const CAPACITY: nat := 31

  /** The slot some places after the head. */
  function Slot(head: nat, i: nat): (k: nat)
    ensures k < CAPACITY
  {
    (head + i) % CAPACITY
  }

  /** One peer's staging ring. */
  class PeerRing {
    const slots: array<Message>
    var head: nat
    var count: nat

    ghost predicate Valid()
      reads this
    {
      slots.Length == CAPACITY && head < CAPACITY && count <= CAPACITY
    }

    ghost function Contents(): (ms: seq<Message>)
      reads this, slots
      requires Valid()
      ensures |ms| == count
    {
      seq(count, i requires 0 <= i < count reads this, slots requires Valid() => slots[Slot(head, i)])
    }

    constructor (blank: Message)
      ensures Valid() && Contents() == [] && fresh(slots)
    {
      slots := new Message[CAPACITY](_ => blank);
      head, count := 0, 0;
    }

    /** tr_service_stage_message */
    method Stage(m: Message) returns (status: Status)
      requires Valid()
      modifies this`count, slots
      ensures Valid() && (status == OK <==> |old(Contents())| < CAPACITY)
      ensures Contents() == if status == OK then old(Contents()) + [m] else old(Contents())
    {
      if count == CAPACITY { return EPROTO; }
      ghost var was := Contents();
      slots[Slot(head, count)] := m;
      count := count + 1;
      ghost var now := Contents();
      assert forall i :: 0 <= i < |was| ==> now[i] == was[i];
      return OK;
    }

    /** The oldest message, which leaves the ring once the transport took it. */
    method Pop() returns (m: Message)
      requires Valid() && count > 0
      modifies this`head, this`count
      ensures Valid() && m == old(Contents())[0] && Contents() == old(Contents())[1..]
    {
      hide Slot;
      m := slots[head];
      RingStart(head);
      ghost var was := Contents();
      head := Slot(head, 1);
      count := count - 1;
      ghost var now := Contents();
      forall i | 0 <= i < |now| ensures now[i] == was[i + 1] { RingTurn(old(head), i); }
    }
  }

  /** Moving the head by one shifts every position by one. */
  lemma RingTurn(head: nat, i: nat)
    requires head < CAPACITY && i < CAPACITY
    ensures Slot(Slot(head, 1), i) == Slot(head, i + 1)
  {
    if head + 1 == CAPACITY { assert (head + (i + 1)) % CAPACITY == i; }
  }

  lemma RingStart(head: nat)
    requires head < CAPACITY
    ensures Slot(head, 0) == head
  {
  }

  function Of(m: map<NodeId, seq<Message>>, p: NodeId): (s: seq<Message>)
  {
    if p in m then m[p] else []
  }

  function Push(m: map<NodeId, seq<Message>>, p: NodeId, x: Message): (m': map<NodeId, seq<Message>>)
    ensures Of(m', p) == Of(m, p) + [x] && forall q :: q != p ==> Of(m', q) == Of(m, q)
  {
    m[p := Of(m, p) + [x]]
  }

  /** The messages for one peer, in order. */
  function MessagesFor(ms: seq<Message>, p: NodeId): (r: seq<Message>)
  {
    if ms == [] then [] else MessagesFor(ms[..|ms| - 1], p) + if ms[|ms| - 1].to == p then [ms[|ms| - 1]] else []
  }

  lemma MessagesForStep(ms: seq<Message>, m: Message, p: NodeId)
    ensures MessagesFor(ms + [m], p) == MessagesFor(ms, p) + if m.to == p then [m] else []
  {
    assert (ms + [m])[..|ms|] == ms;
  }

  /** The peers whose transport answered that it is full. */
  function Full(ready: seq<Message>, answers: seq<Status>): (ps: set<NodeId>)
    requires |answers| == |ready|
  {
    set i | 0 <= i < |ready| && answers[i] == ENOSPC :: ready[i].to
  }

  lemma FullStep(ready: seq<Message>, answers: seq<Status>, m: Message, x: Status)
    requires |answers| == |ready|
    ensures Full(ready + [m], answers + [x]) == Full(ready, answers) + if x == ENOSPC then {m.to} else {}
  {
    var r, a, n := ready + [m], answers + [x], |ready|;
    forall p ensures p in Full(r, a) <==> p in Full(ready, answers) || (x == ENOSPC && p == m.to) {
      if p in Full(r, a) {
        var k :| 0 <= k < |r| && a[k] == ENOSPC && r[k].to == p;
        if k < n { assert answers[k] == ENOSPC && ready[k].to == p; }
      }
      if p in Full(ready, answers) {
        var k :| 0 <= k < n && answers[k] == ENOSPC && ready[k].to == p;
        assert a[k] == ENOSPC && r[k].to == p;
      }
      if x == ENOSPC && p == m.to { assert a[n] == ENOSPC && r[n].to == p; }
    }
  }

  /** The messages kept for one peer: those from its first full answer on. */
  function HeldFor(ready: seq<Message>, answers: seq<Status>, p: NodeId): (r: seq<Message>)
    requires |answers| == |ready|
    ensures |r| <= |ready|
  {
    if ready == [] then []
    else
      var n := |ready| - 1;
      HeldFor(ready[..n], answers[..n], p) + if ready[n].to == p && p in Full(ready, answers) then [ready[n]] else []
  }

  lemma HeldForStep(ready: seq<Message>, answers: seq<Status>, m: Message, x: Status, p: NodeId)
    requires |answers| == |ready|
    ensures HeldFor(ready + [m], answers + [x], p) ==
      HeldFor(ready, answers, p) + if m.to == p && (p in Full(ready, answers) || x == ENOSPC) then [m] else []
  {
    hide Full;
    FullStep(ready, answers, m, x);
    assert (ready + [m])[..|ready|] == ready && (answers + [x])[..|ready|] == answers;
  }

  /** The first error the transport gives a peer it has not called full, or OK. */
  function Failure(ready: seq<Message>, answers: seq<Status>): (s: Status)
    requires |answers| == |ready|
  {
    if ready == [] then OK
    else
      var n := |ready| - 1;
      var s := Failure(ready[..n], answers[..n]);
      if s != OK || ready[n].to in Full(ready, answers) then s else answers[n]
  }

  lemma FailureStep(ready: seq<Message>, answers: seq<Status>, m: Message, x: Status)
    requires |answers| == |ready|
    ensures var s := Failure(ready, answers);
      Failure(ready + [m], answers + [x]) ==
      if s != OK || m.to in Full(ready, answers) || x == ENOSPC then s else x
  {
    hide Full;
    FullStep(ready, answers, m, x);
    assert (ready + [m])[..|ready|] == ready && (answers + [x])[..|ready|] == answers;
  }

  lemma {:induction false} FailureStays(ready: seq<Message>, answers: seq<Status>, i: nat)
    requires i <= |ready| == |answers| && Failure(ready[..i], answers[..i]) != OK
    ensures Failure(ready, answers) == Failure(ready[..i], answers[..i])
    decreases |ready|
  {
    hide Failure, Full;
    var n := |ready| - 1;
    if i <= n {
      assert ready[..n][..i] == ready[..i] && answers[..n][..i] == answers[..i];
      FailureStays(ready[..n], answers[..n], i);
      FailureStep(ready[..n], answers[..n], ready[n], answers[n]);
      assert ready[..n] + [ready[n]] == ready && answers[..n] + [answers[n]] == answers;
    } else {
      assert ready[..i] == ready && answers[..i] == answers;
    }
  }

  /** The first error the transport gives a snapshot request for a peer that is not paused, or OK. */
  function Refused(peers: seq<NodeId>, answers: seq<Status>, paused: set<NodeId>): (s: Status)
    requires |answers| == |peers|
  {
    if peers == [] then OK
    else if peers[0] in paused || answers[0] == OK || answers[0] == ENOSPC
    then Refused(peers[1..], answers[1..], paused)
    else answers[0]
  }

  class Staging {
    var paused: set<NodeId>
    var staged: map<NodeId, seq<Message>>
    var snapshots: set<NodeId>
    var faulted: bool
    ghost var emitted: map<NodeId, seq<Message>>
    ghost var accepted: map<NodeId, seq<Message>>
    ghost var requested: multiset<NodeId>
    ghost var handed: multiset<NodeId>

    /** For every peer, what the transport took followed by what is staged is what the core emitted. */
    ghost predicate Fifo()
      reads this`emitted, this`accepted, this`staged
    {
      forall p :: Of(emitted, p) == Of(accepted, p) + Of(staged, p)
    }

    /** A snapshot asked for is either with the transport or staged. */
    ghost predicate Accounted()
      reads this`requested, this`handed, this`snapshots
    {
      forall p :: requested[p] == handed[p] + if p in snapshots then 1 else 0
    }

    ghost predicate Within()
      reads this`staged
    {
      forall p :: |Of(staged, p)| <= CAPACITY
    }

    /** Whatever is staged, its peer is paused in the core. */
    ghost predicate Halted()
      reads this`staged, this`snapshots, this`paused
    {
      forall p :: Of(staged, p) != [] || p in snapshots ==> p in paused
    }

    ghost predicate Valid()
      reads this
    {
      (!faulted ==> Fifo() && Accounted()) && Within() && Halted()
    }

    constructor ()
      ensures Valid() && !faulted && paused == {} && snapshots == {} && staged == map[] && emitted == map[]
      ensures accepted == map[]
    {
      paused, staged, snapshots, faulted, emitted, accepted := {}, map[], {}, false, map[], map[];
      requested, handed := multiset{}, multiset{};
    }

    /** tr_service_enqueue_message, for a message the core has just emitted. */
    method Enqueue(m: Message, answer: Status) returns (status: Status)
      requires Valid() && !faulted
      modifies this`paused, this`staged, this`faulted, this`emitted, this`accepted
      ensures Valid() && Of(emitted, m.to) == Of(old(emitted), m.to) + [m]
      ensures status ==
        if old(m.to in paused) then if |Of(old(staged), m.to)| < CAPACITY then OK else EPROTO
        else if answer == ENOSPC then OK else answer
      ensures faulted == (status != OK)
      ensures forall p :: p != m.to ==>
        && Of(staged, p) == Of(old(staged), p) && Of(accepted, p) == Of(old(accepted), p)
        && Of(emitted, p) == Of(old(emitted), p)
      ensures paused == if answer == ENOSPC then old(paused) + {m.to} else old(paused)
      ensures Of(staged, m.to) ==
        if status == OK && m.to in paused then Of(old(staged), m.to) + [m] else Of(old(staged), m.to)
    {
      hide Of, Push, Accounted, Fifo, Within, Halted;
      if m.to in paused {
        status := Hold(m);
        return;
      }
      if answer == ENOSPC {
        EmptyUnlessPaused(m.to);
        paused := paused + {m.to};
        PauseKeeps(m.to);
        status := Hold(m);
        return;
      }
      Pass(m, answer);
      return answer;
    }

    /** The message of an unpaused peer goes to the transport. */
    method Pass(m: Message, answer: Status)
      requires Valid() && !faulted && m.to !in paused
      modifies this`faulted, this`emitted, this`accepted
      ensures Valid() && Of(emitted, m.to) == Of(old(emitted), m.to) + [m] && faulted == (answer != OK)
      ensures forall p :: p != m.to ==>
        Of(accepted, p) == Of(old(accepted), p) && Of(emitted, p) == Of(old(emitted), p)
    {
      hide Of, Push, Accounted, Within;
      EmptyUnlessPaused(m.to);
      emitted := Push(emitted, m.to, m);
      if answer == OK { accepted := Push(accepted, m.to, m); } else { faulted := true; }
    }

    /** tr_service_stage_message, for a paused peer. */
    method Hold(m: Message) returns (status: Status)
      requires Valid() && !faulted && m.to in paused
      modifies this`staged, this`faulted, this`emitted
      ensures Valid() && Of(emitted, m.to) == Of(old(emitted), m.to) + [m]
      ensures status == (if |Of(old(staged), m.to)| < CAPACITY then OK else EPROTO) && faulted == (status != OK)
      ensures Of(staged, m.to) == if status == OK then Of(old(staged), m.to) + [m] else Of(old(staged), m.to)
      ensures forall p :: p != m.to ==> Of(staged, p) == Of(old(staged), p) && Of(emitted, p) == Of(old(emitted), p)
    {
      hide Of, Push, Accounted;
      emitted := Push(emitted, m.to, m);
      if |Of(staged, m.to)| == CAPACITY {
        faulted := true;
        return EPROTO;
      }
      staged := Push(staged, m.to, m);
      return OK;
    }

    lemma EmptyUnlessPaused(p: NodeId)
      requires Valid() && p !in paused
      ensures Of(staged, p) == []
    {
    }

    twostate lemma PauseKeeps(p: NodeId)
      requires old(Valid()) && paused == old(paused) + {p} && staged == old(staged) && snapshots == old(snapshots)
      ensures Halted()
    {
    }

    /**
     The messages of one Ready.  The core sends nothing to a paused peer and a
     Ready holds at most CAPACITY messages, so no ring can overflow.
     */
    method EnqueueAll(ready: seq<Message>, answers: seq<Status>) returns (status: Status)
      requires Valid() && !faulted && |ready| <= CAPACITY && |answers| == |ready|
      requires forall i :: 0 <= i < |ready| ==> ready[i].to !in paused
      modifies this`paused, this`staged, this`faulted, this`emitted, this`accepted
      ensures Valid() && faulted == (status != OK)
      ensures status == Failure(ready, answers)
      ensures status == OK ==> paused == old(paused) + Full(ready, answers)
      ensures status == OK ==> forall p :: p !in old(paused) ==> Of(staged, p) == HeldFor(ready, answers, p)
      ensures status == OK ==> forall p :: Of(emitted, p) == Of(old(emitted), p) + MessagesFor(ready, p)
      ensures forall p :: p in old(paused) ==> Of(staged, p) == Of(old(staged), p)
      ensures status != OK ==>
        exists i :: 0 <= i < |answers| && answers[i] != OK && answers[i] != ENOSPC && status == answers[i]
    {
      hide Of, MessagesFor, Fifo, Accounted, Within, Full, HeldFor, Failure, Halted;
      NoneFull();
      NoMessages();
      forall p | p !in paused ensures Of(staged, p) == [] { EmptyUnlessPaused(p); }
      var i := 0;
      assert ready[..0] == [] && answers[..0] == [];
      while i < |ready|
        invariant i <= |ready| && Valid() && !faulted
        invariant Upto(ready[..i], answers[..i], old(paused), old(staged), old(emitted))
      {
        ghost var r, a := ready[..i], answers[..i];
        assert ready[..i + 1] == r + [ready[i]] && answers[..i + 1] == a + [answers[i]];
        status := EnqueueNext(r, a, ready[i], answers[i], old(paused), old(staged), old(emitted));
        if status != OK {
          FailureStays(ready, answers, i + 1);
          return;
        }
        i := i + 1;
      }
      assert ready[..i] == ready && answers[..i] == answers;
      return OK;
    }

    /** How far into a Ready the service has come, from what was paused, staged and emitted before it. */
    ghost predicate Upto(ready: seq<Message>, answers: seq<Status>, halted: set<NodeId>,
        was: map<NodeId, seq<Message>>, sent: map<NodeId, seq<Message>>)
      requires |answers| == |ready|
      reads this`paused, this`staged, this`emitted
    {
      && paused == halted + Full(ready, answers) && Failure(ready, answers) == OK
      && AllHeld(ready, answers, halted, was, staged) && AllSent(ready, sent, emitted)
    }

    /** One message of a Ready. */
    method EnqueueNext(ghost ready: seq<Message>, ghost answers: seq<Status>, m: Message, answer: Status,
        ghost halted: set<NodeId>, ghost was: map<NodeId, seq<Message>>, ghost sent: map<NodeId, seq<Message>>)
      returns (status: Status)
      requires Valid() && !faulted && |answers| == |ready| < CAPACITY && m.to !in halted
      requires Upto(ready, answers, halted, was, sent)
      modifies this`paused, this`staged, this`faulted, this`emitted, this`accepted
      ensures Valid() && faulted == (status != OK) && status == Failure(ready + [m], answers + [answer])
      ensures status == OK ==> Upto(ready + [m], answers + [answer], halted, was, sent)
      ensures status != OK ==> answer != OK && answer != ENOSPC && status == answer
      ensures forall p :: p in halted ==> Of(staged, p) == Of(was, p)
    {
      hide Of, Valid, Full, Failure, AllHeld, AllSent;
      FullStep(ready, answers, m, answer);
      FailureStep(ready, answers, m, answer);
      HeldBound(ready, answers, halted, was, staged, m.to);
      ghost var before, earlier := staged, emitted;
      status := Enqueue(m, answer);
      HeldAlso(ready, answers, m, answer, halted, was, before, staged);
      SentAlso(ready, m, sent, earlier, emitted);
    }

    /** tr_service_stage_snapshot, with the pause that comes before it. */
    method StageSnapshot(p: NodeId) returns (status: Status)
      requires Valid() && !faulted
      modifies this`paused, this`snapshots, this`faulted, this`requested
      ensures Valid() && requested == old(requested) + multiset{p} && paused == old(paused) + {p}
      ensures status == (if old(p in snapshots) then EPROTO else OK) && faulted == (status != OK)
      ensures snapshots == if status == OK then old(snapshots) + {p} else old(snapshots)
    {
      hide Fifo, Within, Of;
      requested := requested + multiset{p};
      paused := paused + {p};
      if p in snapshots {
        faulted := true;
        return EPROTO;
      }
      snapshots := snapshots + {p};
      return OK;
    }

    /** tr_service_enqueue_snapshot; a second request for one peer would be refused. */
    method EnqueueSnapshot(p: NodeId, answer: Status) returns (status: Status)
      requires Valid() && !faulted
      modifies this`paused, this`snapshots, this`faulted, this`requested, this`handed
      ensures Valid() && requested == old(requested) + multiset{p} && faulted == (status != OK)
      ensures old(p in paused) ==>
        status == (if old(p in snapshots) then EPROTO else OK) && handed == old(handed) && paused == old(paused)
      ensures !old(p in paused) ==> status == (if answer == ENOSPC then OK else answer)
      ensures !old(p in paused) && answer == OK ==>
        handed == old(handed) + multiset{p} && snapshots == old(snapshots) && paused == old(paused)
      ensures !old(p in paused) && answer != OK ==> handed == old(handed)
      ensures status == OK && (old(p in paused) || answer == ENOSPC) ==>
        snapshots == old(snapshots) + {p} && paused == old(paused) + {p}
      ensures status != OK ==> snapshots == old(snapshots) && paused == old(paused)
    {
      hide Fifo, Within, Of, Halted;
      Unstaged([p]);
      assert [p][0] == p;
      if p in paused {
        status := StageSnapshot(p);
        assert paused == old(paused);
        return;
      }
      if answer != ENOSPC {
        requested := requested + multiset{p};
        if answer == OK { handed := handed + multiset{p}; } else { faulted := true; }
        return answer;
      }
      status := StageSnapshot(p);
    }

    /**
     The snapshot requests of one Ready.  The core asks at most once per peer and
     never for a paused one, so a request never meets one already staged: only
     the transport can fail the service.
     */
    method EnqueueSnapshots(peers: seq<NodeId>, answers: seq<Status>) returns (status: Status)
      requires Valid() && !faulted && |answers| == |peers|
      requires forall i :: 0 <= i < |peers| ==> peers[i] !in snapshots
      requires forall i, j :: 0 <= i < j < |peers| ==> peers[i] != peers[j]
      modifies this`paused, this`snapshots, this`faulted, this`requested, this`handed
      ensures Valid() && faulted == (status != OK) && old(paused) <= paused
      ensures status == Refused(peers, answers, old(paused))
      ensures status == OK ==> requested == old(requested) + multiset(peers)
      ensures status == OK ==> forall i :: 0 <= i < |peers| ==>
        (peers[i] in snapshots <==> old(peers[i] in paused) || answers[i] == ENOSPC)
      ensures status == OK ==> forall p :: p !in peers ==> (p in snapshots <==> p in old(snapshots))
      ensures status == OK ==> paused == old(paused) + snapshots
      ensures status != OK ==>
        exists i :: 0 <= i < |answers| && answers[i] != OK && answers[i] != ENOSPC && status == answers[i]
    {
      hide Fifo, Of, Accounted, Within, Halted;
      var i := 0;
      assert peers[..0] == [];
      AllHalted();
      while i < |peers|
        invariant i <= |peers| && Valid() && !faulted && paused == old(paused) + snapshots
        invariant forall k :: 0 <= k < i ==>
          (peers[k] in snapshots <==> old(peers[k] in paused) || answers[k] == ENOSPC)
        invariant forall p :: p !in peers[..i] ==> (p in snapshots <==> p in old(snapshots))
        invariant forall k :: i <= k < |peers| ==> peers[k] !in snapshots
        invariant requested == old(requested) + multiset(peers[..i])
        invariant Refused(peers, answers, old(paused)) == Refused(peers[i..], answers[i..], old(paused))
      {
        assert peers[..i + 1] == peers[..i] + [peers[i]];
        assert peers[i..][1..] == peers[i + 1..] && answers[i..][1..] == answers[i + 1..];
        assert peers[i] in paused <==> peers[i] in old(paused);
        status := EnqueueSnapshot(peers[i], answers[i]);
        if status != OK { return; }
        i := i + 1;
      }
      assert peers[..i] == peers;
      return OK;
    }

    /** A whole Ready: its messages, then its snapshot requests.  ReadySpares gives what it asks of the core. */
    method EnqueueReady(ready: seq<Message>, answers: seq<Status>, peers: seq<NodeId>, snapshotAnswers: seq<Status>)
      returns (status: Status)
      requires Valid() && !faulted && |ready| <= CAPACITY && |answers| == |ready| && |snapshotAnswers| == |peers|
      requires forall i :: 0 <= i < |ready| ==> ready[i].to !in paused
      requires forall i :: 0 <= i < |peers| ==> peers[i] !in paused
      requires forall i, j :: 0 <= i < j < |peers| ==> peers[i] != peers[j]
      modifies this
      ensures Valid() && faulted == (status != OK)
      ensures status == OK ==>
        && (forall p :: Of(emitted, p) == Of(old(emitted), p) + MessagesFor(ready, p))
        && requested == old(requested) + multiset(peers)
      ensures status ==
        if Failure(ready, answers) != OK then Failure(ready, answers)
        else Refused(peers, snapshotAnswers, old(paused) + Full(ready, answers))
      ensures status != OK ==> status in answers || status in snapshotAnswers
    {
      hide Fifo, Of, MessagesFor, Accounted, Within, Halted;
      Unstaged(peers);
      status := EnqueueAll(ready, answers);
      if status != OK { return; }
      status := EnqueueSnapshots(peers, snapshotAnswers);
    }

    lemma AllHalted()
      requires Valid()
      ensures paused == paused + snapshots
    {
    }

    lemma Unstaged(peers: seq<NodeId>)
      requires Valid()
      ensures forall i :: 0 <= i < |peers| && peers[i] !in paused ==> peers[i] !in snapshots
    {
    }

    /** One staged message goes out. */
    method SendFront(p: NodeId)
      requires Valid() && !faulted && Of(staged, p) != []
      modifies this`staged, this`accepted
      ensures Valid() && Of(staged, p) == Of(old(staged), p)[1..]
      ensures Of(accepted, p) == Of(old(accepted), p) + [Of(old(staged), p)[0]]
      ensures forall q :: q != p ==> Of(staged, q) == Of(old(staged), q) && Of(accepted, q) == Of(old(accepted), q)
    {
      var queue := staged[p];
      assert Of(accepted, p) + queue == (Of(accepted, p) + [queue[0]]) + queue[1..];
      accepted := Push(accepted, p, queue[0]);
      staged := staged[p := queue[1..]];
    }

    /**
     tr_service_drain_delivery: the staged messages go out in order up to the
     first refusal, then the staged snapshot, and only when all of it was taken is
     the peer unpaused.  There is one answer for each staged message.
     */
    method Drain(p: NodeId, answers: seq<Status>, snapshotAnswer: Status) returns (status: Status)
      requires Valid() && !faulted && |answers| == |Of(staged, p)|
      modifies this
      ensures Valid() && emitted == old(emitted) && requested == old(requested)
      ensures Of(accepted, p) == Of(old(accepted), p) + Of(old(staged), p)[..Taken(answers)]
      ensures Of(staged, p) == Of(old(staged), p)[Taken(answers)..]
      ensures var stop := Refusal(answers, old(p in snapshots), snapshotAnswer);
        && status == (if stop == ENOSPC then OK else stop) && faulted == (status != OK)
        && paused == (if stop == OK then old(paused) - {p} else old(paused))
        && snapshots == (if stop == OK then old(snapshots) - {p} else old(snapshots))
        && handed == if stop == OK && old(p in snapshots) then old(handed) + multiset{p} else old(handed)
      ensures forall q :: q != p ==> Of(staged, q) == Of(old(staged), q) && Of(accepted, q) == Of(old(accepted), q)
    {
      hide Of, Fifo, Within, Accounted;
      status := DrainRing(p, answers);
      if status != OK || Of(staged, p) != [] { return; }
      status := HandSnapshot(p, snapshotAnswer);
    }

    /** The loop over the ring. */
    method DrainRing(p: NodeId, answers: seq<Status>) returns (status: Status)
      requires Valid() && !faulted && |answers| == |Of(staged, p)|
      modifies this`staged, this`accepted, this`faulted
      ensures Valid()
      ensures Of(accepted, p) == Of(old(accepted), p) + Of(old(staged), p)[..Taken(answers)]
      ensures Of(staged, p) == Of(old(staged), p)[Taken(answers)..]
      ensures status == (if Taken(answers) == |answers| || answers[Taken(answers)] == ENOSPC then OK
                         else answers[Taken(answers)])
      ensures faulted == (status != OK)
      ensures forall q :: q != p ==> Of(staged, q) == Of(old(staged), q) && Of(accepted, q) == Of(old(accepted), q)
    {
      hide Of, Fifo, Within, Accounted, Halted;
      ghost var was := Of(staged, p);
      var i := 0;
      assert Of(accepted, p) + [] == Of(accepted, p);
      while Of(staged, p) != []
        invariant i <= |was| && Valid() && !faulted && Of(staged, p) == was[i..]
        invariant Of(accepted, p) == Of(old(accepted), p) + was[..i]
        invariant forall j :: 0 <= j < i ==> answers[j] == OK
        invariant forall q :: q != p ==> Of(staged, q) == Of(old(staged), q) && Of(accepted, q) == Of(old(accepted), q)
        decreases |was| - i
      {
        if answers[i] != OK {
          TakenIs(answers, i);
          if answers[i] == ENOSPC { return OK; }
          faulted := true;
          return answers[i];
        }
        assert was[..i + 1] == was[..i] + [was[i]];
        SendFront(p);
        i := i + 1;
      }
      TakenIs(answers, i);
      return OK;
    }

    /** The ring is empty: the staged snapshot, and the end of the pause. */
    method HandSnapshot(p: NodeId, answer: Status) returns (status: Status)
      requires Valid() && !faulted && Of(staged, p) == []
      modifies this`snapshots, this`handed, this`paused, this`faulted
      ensures Valid()
      ensures var stop := if old(p in snapshots) then answer else OK;
        && status == (if stop == ENOSPC then OK else stop) && faulted == (status != OK)
        && paused == (if stop == OK then old(paused) - {p} else old(paused))
        && snapshots == (if stop == OK then old(snapshots) - {p} else old(snapshots))
        && handed == if stop == OK && old(p in snapshots) then old(handed) + multiset{p} else old(handed)
    {
      hide Of, Fifo, Within;
      if p in snapshots {
        if answer == ENOSPC { return OK; }
        if answer != OK {
          faulted := true;
          return answer;
        }
        snapshots := snapshots - {p};
        handed := handed + multiset{p};
      }
      paused := paused - {p};
      return OK;
    }
  }

  /** How many messages the transport takes before it first refuses. */
  function Taken(answers: seq<Status>): (n: nat)
    ensures n <= |answers| && (forall i :: 0 <= i < n ==> answers[i] == OK) && (n < |answers| ==> answers[n] != OK)
  {
    if answers == [] || answers[0] != OK then 0 else 1 + Taken(answers[1..])
  }

  lemma TakenIs(answers: seq<Status>, n: nat)
    requires n <= |answers| && (forall i :: 0 <= i < n ==> answers[i] == OK) && (n < |answers| ==> answers[n] != OK)
    ensures Taken(answers) == n
  {
    hide Taken;
  }

  /** The first answer that is not OK: to a message, then to the staged snapshot. */
  function Refusal(answers: seq<Status>, pending: bool, snapshotAnswer: Status): (s: Status)
  {
    if Taken(answers) < |answers| then answers[Taken(answers)] else if pending then snapshotAnswer else OK
  }

  /** A drain lets the peer go on exactly when the transport took everything that was staged for it. */
  lemma RefusalMeans(answers: seq<Status>, pending: bool, snapshotAnswer: Status)
    ensures Refusal(answers, pending, snapshotAnswer) == OK <==>
      (forall i :: 0 <= i < |answers| ==> answers[i] == OK) && (pending ==> snapshotAnswer == OK)
    ensures forall i :: 0 <= i < |answers| && answers[i] != OK && (forall k :: 0 <= k < i ==> answers[k] == OK) ==>
      Refusal(answers, pending, snapshotAnswer) == answers[i]
  {
    forall i | 0 <= i < |answers| && answers[i] != OK && forall k :: 0 <= k < i ==> answers[k] == OK
      ensures Taken(answers) == i
    {
      TakenIs(answers, i);
    }
  }

  /** What a call into the core leaves in its Ready addresses no peer that was paused during the call. */
  lemma ReadySpares(cfg: Config, s: Node, e: Cluster.Event, ready: seq<Message>, peers: seq<NodeId>)
    requires Cluster.NodeOK(cfg, e.n, s)
    requires forall i :: 0 <= i < |ready| ==> ready[i] in Cluster.Fire(cfg, s, e).msgs && !ready[i].SnapshotAck?
    requires forall i :: 0 <= i < |peers| ==> Requested(Cluster.Fire(cfg, s, e).msgs, peers[i])
    ensures forall i :: 0 <= i < |ready| ==> ready[i].to !in s.paused
    ensures forall i :: 0 <= i < |peers| ==> peers[i] !in s.paused
  {
    hide Cluster.Fire, Cluster.NodeOK;
    PausedPeers.FireGated(cfg, s, e);
  }

  ghost predicate Requested(msgs: set<Message>, p: NodeId)
  {
    exists m :: m in msgs && m.SnapshotMsg? && m.to == p
  }

  /** What is staged: as before for the peers that were paused, what was kept of the Ready for the others. */
  ghost predicate AllHeld(ready: seq<Message>, answers: seq<Status>, halted: set<NodeId>,
      was: map<NodeId, seq<Message>>, staged: map<NodeId, seq<Message>>)
    requires |answers| == |ready|
  {
    forall p :: Of(staged, p) == if p in halted then Of(was, p) else HeldFor(ready, answers, p)
  }

  ghost predicate AllSent(ready: seq<Message>, sent: map<NodeId, seq<Message>>, emitted: map<NodeId, seq<Message>>)
  {
    forall p :: Of(emitted, p) == Of(sent, p) + MessagesFor(ready, p)
  }

  lemma HeldBound(ready: seq<Message>, answers: seq<Status>, halted: set<NodeId>,
      was: map<NodeId, seq<Message>>, staged: map<NodeId, seq<Message>>, p: NodeId)
    requires |answers| == |ready| && AllHeld(ready, answers, halted, was, staged) && p !in halted
    ensures |Of(staged, p)| <= |ready|
  {
  }

  lemma HeldAlso(ready: seq<Message>, answers: seq<Status>, m: Message, x: Status, halted: set<NodeId>,
      was: map<NodeId, seq<Message>>, staged: map<NodeId, seq<Message>>, staged': map<NodeId, seq<Message>>)
    requires |answers| == |ready| && AllHeld(ready, answers, halted, was, staged) && m.to !in halted
    requires forall p :: p != m.to ==> Of(staged', p) == Of(staged, p)
    ensures forall p :: p in halted ==> Of(staged', p) == Of(was, p)
    ensures var more := if m.to in Full(ready, answers) || x == ENOSPC then [m] else [];
      Of(staged', m.to) == Of(staged, m.to) + more ==> AllHeld(ready + [m], answers + [x], halted, was, staged')
  {
    hide Of, Full, HeldFor;
    forall p { HeldForStep(ready, answers, m, x, p); }
  }

  lemma SentAlso(ready: seq<Message>, m: Message, sent: map<NodeId, seq<Message>>,
      emitted: map<NodeId, seq<Message>>, emitted': map<NodeId, seq<Message>>)
    requires AllSent(ready, sent, emitted) && Of(emitted', m.to) == Of(emitted, m.to) + [m]
    requires forall p :: p != m.to ==> Of(emitted', p) == Of(emitted, p)
    ensures AllSent(ready + [m], sent, emitted')
  {
    hide Of, MessagesFor;
    forall p ensures Of(emitted', p) == Of(sent, p) + MessagesFor(ready + [m], p) { MessagesForStep(ready, m, p); }
  }

  lemma NoneFull()
    ensures Full([], []) == {} && Failure([], []) == OK && forall p :: HeldFor([], [], p) == []
  {
  }

  lemma NoMessages()
    ensures forall p :: MessagesFor([], p) == []
  {
  }
}
