/**
 The asynchronous apply runtime (src/runtime/raft_apply_runtime.c): committed
 entries wait in a bounded buffer and are handed to the state machine one at a
 time; each must settle, or be reconciled, before the next.  Callback results
 are parameters.
 */
module ApplyRuntime {
  import opened RaftTypes
  import opened ApplyCore
  import opened SyncRuntime
  import C = Configuration

  /**
   The runtime's state and fault flags: Resting covers idle and complete,
   Reconciling a fault that an explicit reconciliation can clear, Dead any other.
   */
  datatype Mode = Resting | Admitting | Settling | Reconciling | Dead

  /** What try_apply answers. */
  datatype Admission = Accepted | Full | Closed | Broken

  datatype Outcome = AppliedOnce | NotApplied | Gap | Conflict | Unknown | Garbage

  /** What poll_settlement answers. */
  datatype Settlement = Failure | NotYet | Settled(token: nat, outcome: Outcome, clean: bool)

  /** The next index at or after i, up to end, that holds a command. */
  function NextCommandAt(log: seq<Entry>, i: nat, end: nat): (j: nat)
    requires i <= end <= |log|
    ensures i <= j <= end && (j < end ==> !C.IsConfigurationEntry(log[j]))
    ensures forall k :: i <= k < j ==> C.IsConfigurationEntry(log[k])
    decreases end - i
  {
    if i < end && C.IsConfigurationEntry(log[i]) then NextCommandAt(log, i + 1, end) else i
  }

  lemma CommandStep(log: seq<Entry>, i: nat, end: nat)
    requires i <= end <= |log|
    ensures NextCommandAt(log, i, end) ==
      if i < end && C.IsConfigurationEntry(log[i]) then NextCommandAt(log, i + 1, end) else i
  {
  }

  /** Where a call leaves the applied index and the runtime, and what it returns. */
  datatype After = After(applied: nat, mode: Mode, status: Status)

  /** Configurations from i on are passed, and the first command among the admitted entries is offered. */
  function Driven(log: seq<Entry>, i: nat, admitted: nat, answer: Admission): (a: After)
    requires i <= admitted <= |log|
    ensures i <= a.applied <= admitted && (a.mode == Resting <==> a.applied == admitted)
    ensures a.mode == Settling <==> a.applied < admitted && answer == Accepted
  {
    var at := NextCommandAt(log, i, admitted);
    if at == admitted then After(at, Resting, OK)
    else
      match answer
      case Accepted => After(at, Settling, OK)
      case Full => After(at, Admitting, OK)
      case Closed => After(at, Dead, ESHUTDOWN)
      case Broken => After(at, Dead, EPROTO)
  }

  /**
   Exactly the configurations before the first command are passed; an accepted
   command is out, a full queue leaves it to be offered again, and any other
   answer ends the runtime.
   */
  lemma DrivenMeans(log: seq<Entry>, i: nat, admitted: nat, answer: Admission)
    requires i <= admitted <= |log|
    ensures var a := Driven(log, i, admitted, answer);
      && (forall k :: i <= k < a.applied ==> C.IsConfigurationEntry(log[k]))
      && (a.applied < admitted ==> !C.IsConfigurationEntry(log[a.applied]))
      && (a.mode == Resting <==> a.applied == admitted)
      && (a.mode == Settling <==> a.applied < admitted && answer == Accepted)
      && (a.mode == Admitting <==> a.applied < admitted && answer == Full)
      && (a.mode == Dead <==> a.applied < admitted && (answer == Closed || answer == Broken))
      && a.status == (if a.mode != Dead then OK else if answer == Closed then ESHUTDOWN else EPROTO)
  {
  }

  class AsyncRuntime {
    const core: Core
    const entries: array<Entry>
    var count: nat
    var cursor: nat
    var admittedThrough: nat
    var mode: Mode
    var readyNumber: nat
    ghost var trace: seq<Effect>
    ghost var start: nat
    ghost var settled: seq<Entry>
    ghost var inFlight: Option<nat>

    ghost predicate Shape()
      reads this
    {
      cursor <= count <= entries.Length
    }

    /** Entries admitted but not yet applied. */
    ghost function Waiting(): (es: seq<Entry>)
      reads this, entries
      requires Shape()
    {
      entries[cursor..count]
    }

    /** At most one token is out, and it is the entry at the cursor. */
    ghost predicate TokenOK()
      reads this, entries
      requires Shape()
    {
      if mode == Settling || mode == Reconciling
      then cursor < count && !C.IsConfigurationEntry(entries[cursor]) && inFlight == Some(entries[cursor].index)
      else inFlight == None
    }

    ghost predicate Valid()
      reads this, core, entries
    {
      && Shape() && core.Valid() && start <= core.applied
      && settled == Commands(core.log[start..core.applied]) && StoresFirst(trace)
      && (mode != Dead ==>
            && admittedThrough == core.admitted && Waiting() == core.log[core.applied..core.admitted]
            && (mode == Resting ==> cursor == 0 && count == 0) && TokenOK())
    }

    constructor (core: Core, capacity: nat)
      requires core.Valid() && core.applied == core.admitted && capacity > 0
      ensures Valid() && mode == Resting && settled == [] && trace == [] && start == core.applied && this.core == core
      ensures fresh(entries)
    {
      this.core := core;
      entries := new Entry[capacity](_ => Entry(0, 0, 0, []));
      count, cursor, admittedThrough, mode := 0, 0, core.applied, Resting;
      readyNumber, trace := 0, [];
      start, settled, inFlight := core.applied, [], None;
      new;
      assert core.log[core.applied..core.admitted] == [];
    }

    /** Where a call ended up. */
    ghost predicate Reached(a: After, status: Status)
      reads this, core
    {
      core.applied == a.applied && mode == a.mode && status == a.status
    }

    /** Any core call in between: it keeps what is committed and leaves a Ready behind. */
    method TakeReady(log': seq<Entry>, commit': nat)
      requires Valid() && !core.outstanding && core.commit <= commit' <= |log'|
      requires log'[..core.commit] == core.log[..core.commit]
      requires Contiguous(log')
      modifies core`log, core`commit, core`pendingApply, core`outstanding, this`readyNumber
      ensures Valid() && core.outstanding && core.log == log' && core.commit == commit'
      ensures readyNumber == old(readyNumber) + 1
      ensures core.pendingApply == if core.commit == core.admitted then 0 else core.commit
    {
      hide Commands, StoresFirst;
      Prefixes(core.log, log', core.commit, start, core.applied);
      Prefixes(core.log, log', core.commit, core.applied, core.admitted);
      core.TakeReady(log', commit');
      readyNumber := readyNumber + 1;
    }

    /** tr_apply_compact_entries: the waiting entries move to the front. */
    method CompactEntries()
      requires Shape()
      modifies this`count, this`cursor, entries
      ensures Shape() && cursor == 0 && Waiting() == old(Waiting()) && count == old(count - cursor)
    {
      if cursor == 0 { return; }
      var remaining := count - cursor;
      ghost var was := entries[cursor..count];
      var i := 0;
      while i < remaining
        invariant i <= remaining && cursor == old(cursor) && count == old(count)
        invariant entries[..i] == was[..i] && entries[cursor + i..count] == was[i..]
      {
        ghost var tail := entries[cursor + i + 1..count];
        entries[i] := entries[cursor + i];
        assert entries[cursor + i + 1..count] == tail;
        i := i + 1;
      }
      count, cursor := remaining, 0;
    }

    /** The entry at the cursor is applied: the core moves by exactly one. */
    method Advance()
      requires Valid() && mode != Dead && mode != Resting && cursor < count
      modifies this`cursor, this`settled, this`inFlight, this`mode, core`applied
      ensures Valid() && mode == Admitting && core.applied == old(core.applied) + 1 && cursor == old(cursor) + 1
      ensures core.applied <= |core.log|
      ensures settled == old(settled) + if C.IsConfigurationEntry(core.log[core.applied - 1]) then []
        else [core.log[core.applied - 1]]
    {
      hide Commands, StoresFirst;
      ghost var at := core.applied;
      assert entries[cursor] == Waiting()[0];
      NextCommand(core.log, start, at);
      var status := core.AckApplied(entries[cursor].index);
      if !C.IsConfigurationEntry(entries[cursor]) { settled := settled + [entries[cursor]]; }
      cursor := cursor + 1;
      inFlight, mode := None, Admitting;
      assert Waiting() == core.log[at..core.admitted][1..];
    }

    /** tr_apply_drive_admission: passes configurations, offers the next command once. */
    method Drive(answer: Admission) returns (status: Status)
      requires Valid() && mode == Admitting
      modifies this`cursor, this`count, this`settled, this`inFlight, this`mode, core`applied
      ensures Valid() && settled == old(settled)
      ensures Reached(Driven(core.log, old(core.applied), core.admitted, answer), status)
    {
      hide Commands, StoresFirst, NextCommandAt;
      while cursor < count
        invariant Valid() && mode == Admitting && settled == old(settled)
        invariant old(core.applied) <= core.applied
        invariant NextCommandAt(core.log, core.applied, core.admitted) ==
          NextCommandAt(core.log, old(core.applied), core.admitted)
        decreases count - cursor
      {
        assert entries[cursor] == Waiting()[0];
        CommandStep(core.log, core.applied, core.admitted);
        if !C.IsConfigurationEntry(entries[cursor]) {
          if answer == Accepted {
            mode, inFlight := Settling, Some(entries[cursor].index);
            return OK;
          }
          if answer == Full { return OK; }
          mode := Dead;
          return if answer == Closed then ESHUTDOWN else EPROTO;
        }
        Advance();
      }
      CommandStep(core.log, core.applied, core.admitted);
      count, cursor, mode := 0, 0, Resting;
      return OK;
    }

    /** tr_raft_apply_runtime_poll */
    method Poll(s: Settlement, answer: Admission) returns (status: Status)
      requires Valid()
      modifies this`cursor, this`count, this`settled, this`inFlight, this`mode, core`applied
      ensures Valid()
      ensures old(mode) == Dead || old(mode) == Reconciling || old(mode) == Resting ==>
        Reached(After(old(core.applied), old(mode), EPROTO), status)
      ensures old(mode) == Admitting ==> Reached(Driven(core.log, old(core.applied), core.admitted, answer), status)
      ensures old(mode) == Settling ==>
        old(core.applied) < core.admitted && old(inFlight) == Some(core.log[old(core.applied)].index)
      ensures old(mode) == Settling && s.Failure? ==> Reached(After(old(core.applied), Dead, EIO), status)
      ensures old(mode) == Settling && s.NotYet? ==> Reached(After(old(core.applied), Settling, OK), status)
      ensures old(mode) == Settling && s.Settled? ==>
        if Some(s.token) != old(inFlight) then Reached(After(old(core.applied), Dead, EPROTO), status)
        else
          match s.outcome
          case AppliedOnce =>
            if s.clean then Reached(Driven(core.log, old(core.applied) + 1, core.admitted, answer), status)
            else Reached(After(old(core.applied), Dead, EPROTO), status)
          case NotApplied => Reached(Driven(core.log, old(core.applied), core.admitted, answer), status)
          case Garbage => Reached(After(old(core.applied), Dead, EPROTO), status)
          case _ => Reached(After(old(core.applied), Reconciling, EPROTO), status)
      ensures settled == old(settled) +
        if old(mode) == Settling && s.Settled? && Some(s.token) == old(inFlight) && s.outcome == AppliedOnce && s.clean
        then [core.log[old(core.applied)]] else []
    {
      hide Commands, StoresFirst, Driven;
      if mode == Dead || mode == Reconciling || mode == Resting { return EPROTO; }
      if mode == Admitting {
        status := Drive(answer);
        return;
      }
      status := Settle(s, answer);
    }

    /** What is known of the token that is out. */
    method Settle(s: Settlement, answer: Admission) returns (status: Status)
      requires Valid() && mode == Settling
      modifies this`cursor, this`count, this`settled, this`inFlight, this`mode, core`applied
      ensures Valid()
      ensures old(core.applied) < core.admitted && old(inFlight) == Some(core.log[old(core.applied)].index)
      ensures s.Failure? ==> Reached(After(old(core.applied), Dead, EIO), status)
      ensures s.NotYet? ==> Reached(After(old(core.applied), Settling, OK), status)
      ensures s.Settled? ==>
        if Some(s.token) != old(inFlight) then Reached(After(old(core.applied), Dead, EPROTO), status)
        else
          match s.outcome
          case AppliedOnce =>
            if s.clean then Reached(Driven(core.log, old(core.applied) + 1, core.admitted, answer), status)
            else Reached(After(old(core.applied), Dead, EPROTO), status)
          case NotApplied => Reached(Driven(core.log, old(core.applied), core.admitted, answer), status)
          case Garbage => Reached(After(old(core.applied), Dead, EPROTO), status)
          case _ => Reached(After(old(core.applied), Reconciling, EPROTO), status)
      ensures settled == old(settled) +
        if s.Settled? && Some(s.token) == old(inFlight) && s.outcome == AppliedOnce && s.clean
        then [core.log[old(core.applied)]] else []
    {
      hide Commands, StoresFirst, Driven;
      assert entries[cursor] == Waiting()[0];
      if s.Failure? { mode := Dead; return EIO; }
      if s.NotYet? { return OK; }
      if s.token != entries[cursor].index { mode := Dead; return EPROTO; }
      if s.outcome == NotApplied {
        mode, inFlight := Admitting, None;
        status := Drive(answer);
        return;
      }
      if s.outcome != AppliedOnce {
        mode := if s.outcome == Garbage then Dead else Reconciling;
        return EPROTO;
      }
      if !s.clean { mode := Dead; return EPROTO; }
      Advance();
      status := Drive(answer);
    }

    /** tr_raft_apply_runtime_reconcile: an operator decides what became of the token. */
    method Reconcile(entry: Entry, outcome: Outcome, answer: Admission) returns (status: Status)
      requires Valid()
      modifies this`cursor, this`count, this`settled, this`inFlight, this`mode, core`applied
      ensures Valid()
      ensures old(mode) == Reconciling ==>
        old(core.applied) < core.admitted && old(inFlight) == Some(core.log[old(core.applied)].index)
      ensures
        if outcome != AppliedOnce && outcome != NotApplied
          then Reached(After(old(core.applied), old(mode), EINVAL), status)
        else if old(mode) != Reconciling || core.log[old(core.applied)] != entry
        then Reached(After(old(core.applied), old(mode), EPROTO), status)
        else Reached(Driven(core.log, old(core.applied) + (if outcome == AppliedOnce then 1 else 0), core.admitted,
          answer), status)
      ensures settled == old(settled) +
        if old(mode) == Reconciling && outcome == AppliedOnce && core.log[old(core.applied)] == entry then [entry]
          else []
    {
      hide Commands, StoresFirst, Driven;
      if mode == Reconciling { assert entries[cursor] == Waiting()[0]; }
      if outcome != AppliedOnce && outcome != NotApplied { return EINVAL; }
      if mode != Reconciling { return EPROTO; }
      if entries[cursor] != entry { return EPROTO; }
      if outcome == NotApplied {
        mode, inFlight := Admitting, None;
      } else {
        Advance();
      }
      status := Drive(answer);
    }

    /** The copy loop behind memcpy. */
    method CopyIn(es: seq<Entry>)
      requires Shape() && count + |es| <= entries.Length
      modifies this`count, entries
      ensures Shape() && Waiting() == old(Waiting()) + es && count == old(count) + |es|
    {
      ghost var was := entries[cursor..count];
      var i := 0;
      while i < |es|
        invariant i <= |es| && count == old(count) && entries[cursor..count + i] == was + es[..i]
      {
        entries[count + i] := es[i];
        assert entries[cursor..count + i + 1] == entries[cursor..count + i] + [es[i]];
        i := i + 1;
      }
      count := count + |es|;
      assert es[..i] == es;
    }

    /** The Ready is stored and its messages go out, up to the first failure. */
    method Publish(needsStorage: bool, stored: bool, sends: seq<Status>) returns (status: Status)
      requires StoresFirst(trace)
      modifies this`trace
      ensures StoresFirst(trace) && trace == old(trace) + EffectsOf(readyNumber, needsStorage, stored, sends)
      ensures status == if needsStorage && !stored then EIO else Verdict(sends, 0, |sends|)
    {
      hide StoresFirst;
      if needsStorage {
        if !stored { return EIO; }
        StoresFirstExtends(trace, Stored(readyNumber));
        trace := trace + [Stored(readyNumber)];
      }
      ghost var before := trace;
      var i := 0;
      while i < |sends|
        invariant i <= |sends| && StoresFirst(trace) && (needsStorage ==> Stored(readyNumber) in trace)
        invariant Verdict(sends, i, |sends| - i) == Verdict(sends, 0, |sends|)
        invariant trace + SentBefore(readyNumber, needsStorage, sends[i..]) ==
          before + SentBefore(readyNumber, needsStorage, sends)
      {
        assert sends[i..][1..] == sends[i + 1..];
        if sends[i] != OK {
          assert trace + [] == trace;
          return sends[i];
        }
        StoresFirstExtends(trace, Sent(readyNumber, needsStorage));
        trace := trace + [Sent(readyNumber, needsStorage)];
        i := i + 1;
      }
      assert trace + [] == trace;
      return OK;
    }

    /** The Ready is published: its entries are admitted, and a resting runtime gets going. */
    method Accept(ready: seq<Entry>, answer: Admission) returns (status: Status)
      requires Valid() && (mode == Resting || mode == Admitting || mode == Settling)
      requires count + |ready| <= entries.Length
      requires core.outstanding && ready == core.log[core.admitted..core.commit]
      requires core.pendingApply == if core.commit == core.admitted then 0 else core.commit
      modifies this`count, this`cursor, this`settled, this`inFlight, this`admittedThrough, this`mode, entries
      modifies core`applied, core`admitted, core`pendingApply, core`outstanding
      ensures Valid() && settled == old(settled)
      ensures core.admitted == core.commit && !core.outstanding && admittedThrough == core.commit
      ensures Reached(if old(mode) == Resting then Driven(core.log, old(core.applied), core.admitted, answer)
                      else After(old(core.applied), old(mode), OK), status)
    {
      hide Commands, StoresFirst, Driven;
      var resting := mode == Resting;
      Admit(ready);
      if !resting { return OK; }
      status := Drive(answer);
    }

    /**
     tr_raft_apply_runtime_start: the committed entries of a Ready join the buffer,
     the Ready is stored and sent, and only then acknowledged to the core.
     */
    method Start(ready: seq<Entry>, needsStorage: bool, stored: bool, sends: seq<Status>, answer: Admission)
      returns (status: Status)
      requires Valid() && (core.outstanding ==> ready == core.log[core.admitted..core.commit])
      requires core.outstanding ==> core.pendingApply == if core.commit == core.admitted then 0 else core.commit
      modifies this, core`applied, core`admitted, core`pendingApply, core`outstanding, entries
      ensures Valid() && settled == old(settled)
      ensures old(mode) == Dead || old(mode) == Reconciling || !old(core.outstanding) ==>
        && Reached(After(old(core.applied), old(mode), EPROTO), status) && trace == old(trace)
        && core.admitted == old(core.admitted) && core.outstanding == old(core.outstanding)
      ensures old(mode) != Dead && old(mode) != Reconciling && old(core.outstanding) ==>
        var published := if needsStorage && !stored then EIO else Verdict(sends, 0, |sends|);
        if old(|Waiting()|) + |ready| > entries.Length then
          && Reached(After(old(core.applied), old(mode), ENOBUFS), status) && Waiting() == old(Waiting())
          && trace == old(trace) && core.outstanding && core.admitted == old(core.admitted)
        else
          && trace == old(trace) + EffectsOf(readyNumber, needsStorage, stored, sends)
          && (if published != OK then
                && Reached(After(old(core.applied), Dead, published), status)
                && core.outstanding && core.admitted == old(core.admitted)
              else
                && core.admitted == core.commit && !core.outstanding && admittedThrough == core.commit
                && Reached(if old(mode) == Resting then Driven(core.log, old(core.applied), core.admitted, answer)
                           else After(old(core.applied), old(mode), OK), status))
    {
      hide Commands, StoresFirst, EffectsOf, Verdict, Driven;
      if mode == Dead || mode == Reconciling || !core.outstanding { return EPROTO; }
      Compact();
      if |ready| > entries.Length - count { return ENOBUFS; }
      status := Handle(ready, needsStorage, stored, sends, answer);
    }

    /** A Ready that fits is stored and sent, and then admitted; a failure ends the runtime. */
    method Handle(ready: seq<Entry>, needsStorage: bool, stored: bool, sends: seq<Status>, answer: Admission)
      returns (status: Status)
      requires Valid() && (mode == Resting || mode == Admitting || mode == Settling)
      requires count + |ready| <= entries.Length
      requires core.outstanding && ready == core.log[core.admitted..core.commit]
      requires core.pendingApply == if core.commit == core.admitted then 0 else core.commit
      modifies this, core`applied, core`admitted, core`pendingApply, core`outstanding, entries
      ensures Valid() && settled == old(settled)
      ensures trace == old(trace) + EffectsOf(old(readyNumber), needsStorage, stored, sends)
      ensures readyNumber == old(readyNumber)
      ensures
        var published := if needsStorage && !stored then EIO else Verdict(sends, 0, |sends|);
        if published != OK then
          && Reached(After(old(core.applied), Dead, published), status)
          && core.outstanding && core.admitted == old(core.admitted)
        else
          && core.admitted == core.commit && !core.outstanding && admittedThrough == core.commit
          && Reached(if old(mode) == Resting then Driven(core.log, old(core.applied), core.admitted, answer)
                     else After(old(core.applied), old(mode), OK), status)
    {
      hide Commands, StoresFirst, EffectsOf, Verdict, Driven;
      status := Publish(needsStorage, stored, sends);
      if status != OK {
        CopyIn(ready);
        mode := Dead;
        return;
      }
      status := Accept(ready, answer);
    }

    method Compact()
      requires Valid() && mode != Dead
      modifies this`count, this`cursor, entries
      ensures Valid() && Waiting() == old(Waiting()) && cursor == 0
    {
      hide Commands, StoresFirst;
      ghost var was := Waiting();
      ghost var token := if cursor < count then entries[cursor] else Entry(0, 0, 0, []);
      CompactEntries();
      assert cursor < count ==> was[0] == token && Waiting()[0] == token;
    }

    /** The Ready is stored and sent: its entries wait, and the core may forget it. */
    method Admit(ready: seq<Entry>)
      requires Valid() && (mode == Resting || mode == Admitting || mode == Settling)
      requires count + |ready| <= entries.Length && core.outstanding
      requires ready == core.log[core.admitted..core.commit]
      requires core.pendingApply == if core.commit == core.admitted then 0 else core.commit
      modifies this`count, this`admittedThrough, this`mode, entries, core`admitted, core`pendingApply, core`outstanding
      ensures Valid() && mode == (if old(mode) == Resting then Admitting else old(mode)) && settled == old(settled)
      ensures core.admitted == core.commit && !core.outstanding && admittedThrough == core.commit
      ensures core.applied == old(core.applied)
    {
      hide Commands, StoresFirst;
      SplitAt(core.log, core.applied, core.admitted, core.commit);
      Join(ready);
      Acknowledge(|ready|);
    }

    /** The core may forget the Ready whose entries have joined. */
    method Acknowledge(admitting: nat)
      requires Shape() && TokenOK() && core.Valid() && start <= core.applied && core.outstanding
      requires admittedThrough == core.admitted
      requires settled == Commands(core.log[start..core.applied]) && StoresFirst(trace)
      requires core.admitted + admitting == core.commit && Waiting() == core.log[core.applied..core.commit]
      requires core.pendingApply == if core.commit == core.admitted then 0 else core.commit
      requires mode == Resting || mode == Admitting || mode == Settling
      modifies this`admittedThrough, this`mode, core`admitted, core`pendingApply, core`outstanding
      ensures Valid() && mode == (if old(mode) == Resting then Admitting else old(mode))
      ensures core.admitted == core.commit && !core.outstanding && admittedThrough == core.commit
    {
      hide Commands, StoresFirst;
      var status := core.AckReady(admitting);
      admittedThrough := admittedThrough + admitting;
      if mode == Resting { mode := Admitting; }
    }

    /** The copied entries wait behind the others; the one at the cursor stays there. */
    method Join(ready: seq<Entry>)
      requires Shape() && TokenOK() && count + |ready| <= entries.Length
      modifies this`count, entries
      ensures Shape() && TokenOK() && Waiting() == old(Waiting()) + ready
    {
      ghost var was := Waiting();
      assert cursor < count ==> was[0] == entries[cursor];
      CopyIn(ready);
      assert was != [] ==> Waiting()[0] == was[0] && Waiting()[0] == entries[cursor];
    }
  }

  lemma SplitAt(log: seq<Entry>, a: nat, b: nat, c: nat)
    requires a <= b <= c <= |log|
    ensures log[a..c] == log[a..b] + log[b..c]
  {
  }

  lemma NextCommand(log: seq<Entry>, start: nat, at: nat)
    requires start <= at < |log|
    ensures Commands(log[start..at + 1]) == Commands(log[start..at]) + if C.IsConfigurationEntry(log[at]) then []
      else [log[at]]
  {
    CommandsSplit(log, start, at, at + 1);
    SingleCommand(log, at);
  }
}
