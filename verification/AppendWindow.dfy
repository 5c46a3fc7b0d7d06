/** The ring buffer behind one peer's in-flight requests (tr_append_window_* in src/core/raft_core.c). */
module AppendWindow {
  import opened RaftTypes
  import opened RaftNode

  const NO_REQUEST := Inflight(0, 0)

  class Window {
    const items: array<Inflight>
    var head: nat
    var count: nat
    var probe: bool

    ghost predicate Valid()
      reads this
    {
      items.Length == MAX_INFLIGHT && head < MAX_INFLIGHT && count <= MAX_INFLIGHT
    }

    function Slot(i: nat): (k: nat)
      reads this
      ensures k < MAX_INFLIGHT
    {
      (head + i) % MAX_INFLIGHT
    }

    /** The requests in order, oldest first. */
    ghost function Contents(): (w: seq<Inflight>)
      reads this, items
      requires Valid()
      ensures |w| == count
    {
      seq(count, i requires 0 <= i < count reads this, items requires Valid() => items[Slot(i)])
    }

    constructor ()
      ensures Valid() && fresh(items) && Contents() == [] && probe
    {
      items := new Inflight[MAX_INFLIGHT](_ => NO_REQUEST);
      head, count, probe := 0, 0, true;
    }

    method Reset(probe: bool)
      requires Valid()
      modifies this, items
      ensures Valid() && Contents() == [] && this.probe == probe
    {
      for i := 0 to items.Length { items[i] := NO_REQUEST; }
      head, count := 0, 0;
      this.probe := probe;
    }

    /** Refused exactly when all slots are taken. */
    method Push(prev: nat, last: nat) returns (ok: bool)
      requires Valid()
      modifies this`count, items
      ensures Valid() && ok == (|old(Contents())| < MAX_INFLIGHT)
      ensures Contents() == if ok then old(Contents()) + [Inflight(prev, last)] else old(Contents())
    {
      if count >= MAX_INFLIGHT { return false; }
      ghost var was := Contents();
      items[Slot(count)] := Inflight(prev, last);
      count := count + 1;
      ghost var w := Contents();
      assert forall i :: 0 <= i < |was| ==> w[i] == was[i];
      return true;
    }

    method Find(prev: nat) returns (i: int)
      requires Valid()
      ensures i == -1 <==> FindInflight(Contents(), prev) == count
      ensures i != -1 ==> i == FindInflight(Contents(), prev) && i < count
    {
      ghost var w := Contents();
      for k := 0 to count
        invariant forall j :: 0 <= j < k ==> w[j].prev != prev
      {
        if items[Slot(k)].prev == prev {
          assert w[k].prev == prev;
          FoundAt(w, prev, k);
          return k;
        }
        assert w[k].prev != prev;
      }
      return -1;
    }

    method PopFront()
      requires Valid() && count > 0
      modifies this`head, this`count, items
      ensures Valid() && Contents() == old(Contents())[1..]
    {
      ghost var was := Contents();
      ghost var h0 := head;
      items[head] := NO_REQUEST;
      head := (head + 1) % MAX_INFLIGHT;
      count := count - 1;
      ghost var w := Contents();
      forall i | 0 <= i < |w| ensures w[i] == was[i + 1] {
        RingStep(h0, i);
      }
    }

    /** Only a confirmed prefix is released. */
    method Release(matched: nat)
      requires Valid()
      modifies this`head, this`count, items
      ensures Valid() && Contents() == ReleaseThrough(old(Contents()), matched)
      ensures count == 0 ==> head == 0
    {
      while count != 0
        invariant Valid()
        invariant ReleaseThrough(Contents(), matched) == ReleaseThrough(old(Contents()), matched)
      {
        assert Contents()[0] == items[Slot(0)];
        if items[Slot(0)].last > matched { break; }
        PopFront();
      }
      if count == 0 { head := 0; }
    }
  }

  /** Moving the head by one shifts every position by one, and no live position is the freed slot. */
  lemma RingStep(head: nat, i: nat)
    requires head < MAX_INFLIGHT && i < MAX_INFLIGHT - 1
    ensures ((head + 1) % MAX_INFLIGHT + i) % MAX_INFLIGHT == (head + (i + 1)) % MAX_INFLIGHT
    ensures (head + (i + 1)) % MAX_INFLIGHT != head
  {
  }

  lemma {:induction false} FoundAt(w: seq<Inflight>, prev: nat, k: nat)
    requires k < |w| && w[k].prev == prev && forall j :: 0 <= j < k ==> w[j].prev != prev
    ensures FindInflight(w, prev) == k
  {
    if k > 0 {
      var rest := w[1..];
      forall j | 0 <= j < k - 1 ensures rest[j].prev != prev { assert w[j + 1].prev != prev; }
      assert w[0].prev != prev;
      FoundAt(rest, prev, k - 1);
    }
  }
}
