/** The core's apply bookkeeping (src/core/raft_core.c): what is committed, admitted and applied. */
module ApplyCore {
  import opened RaftTypes

  class Core {
    var log: seq<Entry>
    var base: nat
    var commit: nat
    var applied: nat
    var admitted: nat
    var pendingApply: nat
    var outstanding: bool

    ghost predicate Valid()
      reads this
    {
      && base <= applied <= admitted <= commit <= |log| && Contiguous(log)
      && (pendingApply != 0 ==> outstanding && admitted <= pendingApply <= commit)
    }

    /** A core restored with everything through `applied` already in the state machine. */
    constructor (log: seq<Entry>, base: nat, commit: nat, applied: nat)
      requires base <= applied <= commit <= |log| && Contiguous(log)
      ensures Valid() && !outstanding && this.log == log && this.base == base && this.commit == commit
      ensures this.applied == admitted == applied
    {
      this.base := base;
      this.log, this.commit, this.applied, admitted, pendingApply := log, commit, applied, applied, 0;
      outstanding := false;
    }

    /** Any core call: it keeps what is committed and leaves a Ready behind (tr_finish). */
    method TakeReady(log': seq<Entry>, commit': nat)
      requires Valid() && !outstanding && commit <= commit' <= |log'| && log'[..commit] == log[..commit]
      requires Contiguous(log')
      modifies this`log, this`commit, this`pendingApply, this`outstanding
      ensures Valid() && outstanding && log == log' && commit == commit'
      ensures pendingApply == if commit > admitted then commit else 0
    {
      log, commit := log', commit';
      outstanding := true;
      if commit > admitted { pendingApply := commit; }
    }

    /** tr_raft_core_compact: only at the applied index, once everything committed is applied. */
    method Compact(index: nat) returns (status: Status)
      requires Valid()
      modifies this`base
      ensures Valid() && (status == OK <==> !outstanding && old(base) < applied && applied == commit == index)
      ensures base == if status == OK then index else old(base)
    {
      if outstanding || applied != commit { return EBUSY; }
      if applied <= base { return ENOENT; }
      if index != applied { return EPROTO; }
      base := index;
      return OK;
    }

    /** tr_raft_core_ack_ready */
    method AckReady(count: nat) returns (status: Status)
      requires Valid()
      modifies this`admitted, this`pendingApply, this`outstanding
      ensures Valid()
      ensures status == OK <==>
        old(outstanding) && count <= (if old(pendingApply) == 0 then 0 else old(pendingApply) - old(admitted))
      ensures status == OK ==> admitted == old(admitted) + count && pendingApply == 0 && !outstanding
      ensures status != OK ==>
        admitted == old(admitted) && pendingApply == old(pendingApply) && outstanding == old(outstanding)
    {
      if !outstanding { return EPROTO; }
      var pending := 0;
      if pendingApply != 0 {
        if pendingApply < admitted { return EPROTO; }
        pending := pendingApply - admitted;
      }
      if count > pending { return EINVAL; }
      admitted := admitted + count;
      pendingApply, outstanding := 0, false;
      return OK;
    }

    /** tr_raft_core_ack_applied: exactly the next index, once it was admitted. */
    method AckApplied(index: nat) returns (status: Status)
      requires Valid()
      modifies this`applied
      ensures Valid()
      ensures status == OK <==> index == old(applied) + 1 && index <= admitted
      ensures applied == if status == OK then index else old(applied)
    {
      if index == 0 { return EINVAL; }
      if index <= applied { return EALREADY; }
      if index != applied + 1 { return EPROTO; }
      if index > admitted { return EBUSY; }
      applied := index;
      return OK;
    }

    /** tr_raft_core_advance: the whole Ready at once. */
    method Advance() returns (status: Status)
      requires Valid()
      modifies this`applied, this`admitted, this`pendingApply, this`outstanding
      ensures Valid()
      ensures status == OK <==> old(outstanding) && (old(pendingApply) != 0 ==> old(admitted) == old(applied))
      ensures status == OK ==> pendingApply == 0 && !outstanding
      ensures status == OK && old(pendingApply) != 0 ==> applied == admitted == old(pendingApply)
      ensures status == OK && old(pendingApply) == 0 ==> applied == old(applied) && admitted == old(admitted)
      ensures status != OK ==>
        applied == old(applied) && admitted == old(admitted) && pendingApply == old(pendingApply) &&
        outstanding == old(outstanding)
    {
      if !outstanding { return EPROTO; }
      if pendingApply != 0 {
        if admitted != applied || pendingApply < admitted { return EBUSY; }
        admitted, applied, pendingApply := pendingApply, pendingApply, 0;
      }
      outstanding := false;
      return OK;
    }
  }
}
