/**
 The asynchronous runtime gets there: with a state machine that accepts and
 settles, polling it applies everything admitted, in order and once.
 */
module ApplyProgress {
  import opened RaftTypes
  import opened ApplyCore
  import opened SyncRuntime
  import opened ApplyRuntime
  import C = Configuration

  /** One poll with a willing state machine: an offer, or the settlement of the entry that is out. */
  method PollOnce(rt: AsyncRuntime)
    requires rt.Valid() && (rt.mode == Admitting || rt.mode == Settling)
    modifies rt`cursor, rt`count, rt`settled, rt`inFlight, rt`mode, rt.core`applied
    ensures rt.Valid() && (rt.mode == Resting || rt.mode == Settling)
    ensures rt.mode == Resting <==> rt.core.applied == rt.core.admitted
    ensures old(rt.mode) == Settling ==> rt.core.applied > old(rt.core.applied)
    ensures old(rt.core.applied) <= rt.core.applied
  {
    hide Commands, StoresFirst, Driven;
    if rt.mode == Admitting {
      DrivenMeans(rt.core.log, rt.core.applied, rt.core.admitted, Accepted);
      var _ := rt.Poll(NotYet, Accepted);
    } else {
      assert rt.entries[rt.cursor] == rt.Waiting()[0];
      var token := rt.entries[rt.cursor].index;
      DrivenMeans(rt.core.log, rt.core.applied + 1, rt.core.admitted, Accepted);
      var _ := rt.Poll(Settled(token, AppliedOnce, true), Accepted);
    }
  }

  /** Polling until nothing waits: every admitted command has settled, in order and once. */
  method Finish(rt: AsyncRuntime)
    requires rt.Valid() && (rt.mode == Admitting || rt.mode == Settling)
    modifies rt`cursor, rt`count, rt`settled, rt`inFlight, rt`mode, rt.core`applied
    ensures rt.Valid() && rt.mode == Resting && rt.core.applied == rt.core.admitted
    ensures rt.settled == old(rt.settled) + Commands(rt.core.log[old(rt.core.applied)..rt.core.admitted])
  {
    hide Commands, StoresFirst;
    ghost var from := rt.core.applied;
    while rt.mode != Resting
      invariant rt.Valid() && (rt.mode == Resting || rt.mode == Admitting || rt.mode == Settling)
      invariant from <= rt.core.applied && (rt.mode == Resting ==> rt.core.applied == rt.core.admitted)
      decreases rt.core.admitted - rt.core.applied, if rt.mode == Admitting then 1 else 0
    {
      PollOnce(rt);
    }
    CommandsSplit(rt.core.log, rt.start, from, rt.core.admitted);
  }
}
