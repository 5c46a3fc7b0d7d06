/**
 The synchronous runtime (src/runtime/raft_runtime.c) on top of the core's
 apply bookkeeping (src/core/raft_core.c): persist, send, apply, advance, with a
 state machine that may refuse a batch for now or for good.  Callback results
 are parameters.
 */
module SyncRuntime {
  import opened RaftTypes
  import opened ApplyCore
  import C = Configuration

  /** The entries a state machine sees: configurations are the core's own. */
  function Commands(es: seq<Entry>): (cs: seq<Entry>)
  {
    if es == [] then [] else (if C.IsConfigurationEntry(es[0]) then [] else [es[0]]) + Commands(es[1..])
  }

  lemma {:induction false} CommandsConcat(a: seq<Entry>, b: seq<Entry>)
    ensures Commands(a + b) == Commands(a) + Commands(b)
    decreases |a|
  {
    if a == [] {
      assert a + b == b;
    } else {
      assert (a + b)[1..] == a[1..] + b;
      CommandsConcat(a[1..], b);
    }
  }

  lemma {:induction false} CommandsAll(es: seq<Entry>)
    requires forall i :: 0 <= i < |es| ==> !C.IsConfigurationEntry(es[i])
    ensures Commands(es) == es
  {
    if es != [] { CommandsAll(es[1..]); }
  }

  lemma CommandsSplit(log: seq<Entry>, a: nat, b: nat, c: nat)
    requires a <= b <= c <= |log|
    ensures Commands(log[a..c]) == Commands(log[a..b]) + Commands(log[b..c])
  {
    assert log[a..c] == log[a..b] + log[b..c];
    CommandsConcat(log[a..b], log[b..c]);
  }

  /** Where the run of commands that starts at i ends. */
  function RunStop(es: seq<Entry>, i: nat): (j: nat)
    requires i <= |es|
    ensures i <= j <= |es| && (j < |es| ==> C.IsConfigurationEntry(es[j]))
    ensures forall k :: i <= k < j ==> !C.IsConfigurationEntry(es[k])
    ensures i < |es| && !C.IsConfigurationEntry(es[i]) ==> i < j
    decreases |es| - i
  {
    if i == |es| || C.IsConfigurationEntry(es[i]) then i else RunStop(es, i + 1)
  }

  /** How many batches the entries from i on are offered in. */
  function Runs(es: seq<Entry>, i: nat): (n: nat)
    requires i <= |es|
    decreases |es| - i
  {
    if i == |es| then 0
    else if C.IsConfigurationEntry(es[i]) then Runs(es, i + 1)
    else 1 + Runs(es, RunStop(es, i))
  }

  /** The first refusal among the next n answers; a missing answer is OK. */
  function Verdict(answers: seq<Status>, from: nat, n: nat): (s: Status)
    decreases n
  {
    if n == 0 || from >= |answers| then OK
    else if answers[from] != OK then answers[from]
    else Verdict(answers, from + 1, n - 1)
  }

  /** A refusal is one of the answers, and without one all of them are OK. */
  lemma {:induction false} VerdictMeans(answers: seq<Status>, from: nat, n: nat)
    ensures var s := Verdict(answers, from, n);
      if s == OK then forall k :: from <= k < from + n && k < |answers| ==> answers[k] == OK
      else exists k :: from <= k < from + n && k < |answers| && answers[k] == s && forall j :: from <= j < k ==>
        answers[j] == OK
    decreases n
  {
    if n > 0 && from < |answers| && answers[from] == OK { VerdictMeans(answers, from + 1, n - 1); }
  }

  lemma VerdictStep(answers: seq<Status>, from: nat, n: nat)
    requires n > 0
    ensures Verdict(answers, from, n) ==
      if from < |answers| && answers[from] != OK then answers[from] else Verdict(answers, from + 1, n - 1)
  {
  }

  lemma NoRuns(es: seq<Entry>, answers: seq<Status>)
    ensures Runs(es, |es|) == 0 && forall k: nat :: Verdict(answers, k, 0) == OK
  {
  }

  lemma RunsStep(es: seq<Entry>, i: nat)
    requires i < |es|
    ensures Runs(es, i) == if C.IsConfigurationEntry(es[i]) then Runs(es, i + 1) else 1 + Runs(es, RunStop(es, i))
  {
  }

  /** What the runtime did to the outside, in order. */
  datatype Effect = Stored(ready: nat) | Sent(ready: nat, durable: bool) | Applied(batch: seq<Entry>)

  /** No message of a Ready that must be stored leaves before that Ready is stored. */
  ghost predicate StoresFirst(t: seq<Effect>)
  {
    forall i :: 0 <= i < |t| && t[i].Sent? && t[i].durable ==> Stored(t[i].ready) in t[..i]
  }

  lemma StoresFirstExtends(t: seq<Effect>, e: Effect)
    requires StoresFirst(t) && (e.Sent? && e.durable ==> Stored(e.ready) in t)
    ensures StoresFirst(t + [e])
  {
    var u := t + [e];
    forall i | 0 <= i < |u| && u[i].Sent? && u[i].durable ensures Stored(u[i].ready) in u[..i] {
      if i < |t| { assert u[..i] == t[..i]; } else { assert u[..i] == t; }
    }
  }

  /** One message out for every leading OK. */
  function SentBefore(ready: nat, durable: bool, sends: seq<Status>): (t: seq<Effect>)
  {
    if sends == [] || sends[0] != OK then [] else [Sent(ready, durable)] + SentBefore(ready, durable, sends[1..])
  }

  /** What handling a Ready does to the outside. */
  function EffectsOf(ready: nat, needsStorage: bool, stored: bool, sends: seq<Status>): (t: seq<Effect>)
  {
    if needsStorage && !stored then []
    else (if needsStorage then [Stored(ready)] else []) + SentBefore(ready, needsStorage, sends)
  }

  lemma {:induction false} SentQuiet(ready: nat, durable: bool, sends: seq<Status>)
    ensures forall i :: 0 <= i < |SentBefore(ready, durable, sends)| ==> SentBefore(ready, durable, sends)[i].Sent?
    decreases |sends|
  {
    if sends != [] && sends[0] == OK { SentQuiet(ready, durable, sends[1..]); }
  }

  /** The entries of all batches, in order. */
  function Flat(t: seq<Effect>): (es: seq<Entry>)
  {
    if t == [] then [] else Flat(t[..|t| - 1]) + if t[|t| - 1].Applied? then t[|t| - 1].batch else []
  }

  lemma FlatSnoc(t: seq<Effect>, e: Effect)
    ensures Flat(t + [e]) == Flat(t) + if e.Applied? then e.batch else []
  {
    assert (t + [e])[..|t|] == t;
  }

  lemma {:induction false} FlatQuiet(t: seq<Effect>, u: seq<Effect>)
    requires forall i :: 0 <= i < |u| ==> !u[i].Applied?
    ensures Flat(t + u) == Flat(t)
    decreases |u|
  {
    if u == [] {
      assert t + u == t;
    } else {
      var v := u[..|u| - 1];
      FlatQuiet(t, v);
      assert t + u == (t + v) + [u[|u| - 1]];
      FlatSnoc(t + v, u[|u| - 1]);
    }
  }

  class Runtime {
    const core: Core
    var readyNumber: nat
    var blockedEntries: seq<Entry>
    var blockedBegin: nat
    var blocked: bool
    var faulted: bool
    ghost var start: nat
    ghost var delivered: seq<Entry>
    ghost var trace: seq<Effect>

    /** What was delivered is what is applied; a blocked pass knows where it stopped. */
    ghost predicate Valid()
      reads this, core
    {
      && core.Valid() && start <= core.applied && StoresFirst(trace)
      && delivered == Commands(core.log[start..core.applied]) && delivered == Flat(trace)
      && (!faulted && !blocked ==> core.applied == core.admitted)
      && (blocked ==> !faulted && blockedBegin < |blockedEntries| && start + |blockedEntries| <= core.admitted
                      && core.applied == core.admitted - |blockedEntries| + blockedBegin
                      && blockedEntries == core.log[core.admitted - |blockedEntries|..core.admitted])
    }

    constructor (core: Core)
      requires core.Valid() && core.applied == core.admitted
      ensures Valid() && !faulted && !blocked && delivered == [] && trace == [] && start == core.applied
      ensures this.core == core
    {
      this.core := core;
      readyNumber, blocked, faulted := 0, false, false;
      blockedEntries, blockedBegin := [], 0;
      start, delivered, trace := core.applied, [], [];
    }

    /** Any core call in between: it keeps what is committed and leaves a Ready behind. */
    method TakeReady(log': seq<Entry>, commit': nat)
      requires Valid() && !core.outstanding && core.commit <= commit' <= |log'|
      requires log'[..core.commit] == core.log[..core.commit] && Contiguous(log')
      modifies core`log, core`commit, core`pendingApply, core`outstanding, this`readyNumber
      ensures Valid() && core.outstanding && core.log == log' && core.commit == commit' && delivered == old(delivered)
    {
      Prefixes(core.log, log', core.commit, start, core.applied);
      if blocked { Prefixes(core.log, log', core.commit, core.admitted - |blockedEntries|, core.admitted); }
      core.TakeReady(log', commit');
      readyNumber := readyNumber + 1;
    }

    /** tr_runtime_ack_applied_range */
    method AckRange(entries: seq<Entry>, begin: nat, end: nat)
      requires core.Valid() && begin <= end <= |entries| && core.applied + (end - begin) <= core.admitted
      requires forall i :: begin <= i < end ==> entries[i].index == core.applied + (i - begin) + 1
      modifies core`applied
      ensures core.Valid() && core.applied == old(core.applied) + (end - begin)
    {
      var i := begin;
      while i < end
        invariant begin <= i <= end && core.Valid() && core.applied == old(core.applied) + (i - begin)
      {
        var status := core.AckApplied(entries[i].index);
        i := i + 1;
      }
    }

    method ClearBlock()
      modifies this`blocked, this`blockedEntries, this`blockedBegin
      ensures !blocked
    {
      blocked, blockedEntries, blockedBegin := false, [], 0;
    }

    /** End of the run of commands that starts at begin. */
    method RunEnd(entries: seq<Entry>, begin: nat) returns (end: nat)
      requires begin < |entries| && !C.IsConfigurationEntry(entries[begin])
      ensures end == RunStop(entries, begin)
    {
      end := begin;
      while end < |entries| && !C.IsConfigurationEntry(entries[end])
        invariant begin <= end <= |entries| && RunStop(entries, end) == RunStop(entries, begin)
      {
        end := end + 1;
      }
    }

    /** Where an apply pass stands: `first` is the index before its entries. */
    ghost predicate Applying(first: nat, entries: seq<Entry>, begin: nat, acked: bool)
      reads this`start, this`trace, this`delivered, core
    {
      && core.Valid() && begin <= |entries| && start <= first && first + |entries| <= core.commit
      && entries == core.log[first..first + |entries|] && entries != [] && StoresFirst(trace)
      && delivered == Commands(core.log[start..first + begin]) && delivered == Flat(trace)
      && (if acked then core.applied == first + begin && core.admitted == first + |entries|
          else core.applied == core.admitted == first && core.outstanding && core.pendingApply == first + |entries|)
    }

    /** tr_runtime_ack_ready_prefix, when the Ready has not been acknowledged yet. */
    method Settle(ghost first: nat, entries: seq<Entry>, begin: nat, acked: bool)
      requires Applying(first, entries, begin, acked)
      modifies core`applied, core`admitted, core`pendingApply, core`outstanding
      ensures Applying(first, entries, begin, true)
      ensures acked ==> core.outstanding == old(core.outstanding) && core.pendingApply == old(core.pendingApply)
      ensures !acked ==> !core.outstanding && core.pendingApply == 0
    {
      if !acked {
        var status := core.AckReady(|entries|);
        AckRange(entries, 0, begin);
      }
    }

    /** A configuration entry is the core's own; it only moves the applied index. */
    method PassConfiguration(ghost first: nat, entries: seq<Entry>, begin: nat, acked: bool)
      requires Applying(first, entries, begin, acked) && begin < |entries| && C.IsConfigurationEntry(entries[begin])
      modifies core`applied
      ensures Applying(first, entries, begin + 1, acked)
    {
      hide Commands, StoresFirst;
      SkipsConfiguration(core.log, start, first + begin);
      if acked { AckRange(entries, begin, begin + 1); }
    }

    /** The state machine takes the whole batch. */
    method Deliver(ghost first: nat, entries: seq<Entry>, begin: nat, end: nat, acked: bool)
      requires Applying(first, entries, begin, acked) && begin < end <= |entries|
      requires forall i :: begin <= i < end ==> !C.IsConfigurationEntry(entries[i])
      modifies core`applied, this`delivered, this`trace
      ensures Applying(first, entries, end, acked) && trace == old(trace) + [Applied(entries[begin..end])]
    {
      FlatSnoc(trace, Applied(entries[begin..end]));
      TakesRun(core.log, start, first, entries, begin, end);
      StoresFirstExtends(trace, Applied(entries[begin..end]));
      delivered := delivered + entries[begin..end];
      trace := trace + [Applied(entries[begin..end])];
      if acked { AckRange(entries, begin, end); }
    }

    /** tr_runtime_apply_from; answers are what the state machine returns for each batch. */
    method ApplyFrom(ghost first: nat, entries: seq<Entry>, begin0: nat, acked: bool, answers: seq<Status>)
      returns (status: Status, ghost upTo: nat)
      requires Applying(first, entries, begin0, acked) && !faulted
      modifies core`applied, core`admitted, core`pendingApply, core`outstanding, this`blocked, this`blockedEntries,
        this`blockedBegin,
        this`faulted, this`delivered, this`trace
      ensures begin0 <= upTo && Applying(first, entries, upTo, acked || status != OK)
      ensures status == OK ==> upTo == |entries| && !blocked && !faulted
      ensures status == EBUSY ==> upTo == blockedBegin < |entries| && blocked && !faulted && blockedEntries == entries
      ensures status != OK && status != EBUSY ==> faulted && !blocked
      ensures status != OK && !acked ==> !core.outstanding && core.pendingApply == 0
      ensures acked || status == OK ==>
        core.outstanding == old(core.outstanding) && core.pendingApply == old(core.pendingApply)
      ensures status == Verdict(answers, 0, Runs(entries, begin0))
      ensures status != OK ==> StopsAt(entries, begin0, answers, upTo, status)
      ensures OnlyApplied(old(trace), trace)
    {
      hide Commands, StoresFirst, Verdict, Runs, RunStop, Flat, Applying;
      ApplyingFacts(first, entries, begin0, acked);
      NoRuns(entries, answers);
      var begin, call := begin0, 0;
      while begin < |entries|
        invariant begin <= |entries|
        invariant Verdict(answers, call, Runs(entries, begin)) == Verdict(answers, 0, Runs(entries, begin0))
        invariant begin0 <= begin <= |entries| && Applying(first, entries, begin, acked) && !faulted
        invariant core.outstanding == old(core.outstanding) && core.pendingApply == old(core.pendingApply)
        invariant Runs(entries, begin0) == call + Runs(entries, begin) && OnlyApplied(old(trace), trace)
        invariant forall k :: 0 <= k < call && k < |answers| ==> answers[k] == OK
      {
        RunsStep(entries, begin);
        if C.IsConfigurationEntry(entries[begin]) {
          PassConfiguration(first, entries, begin, acked);
          begin := begin + 1;
        } else {
          VerdictStep(answers, call, Runs(entries, begin));
          status := if call < |answers| then answers[call] else OK;
          var end := Offer(first, entries, begin, acked, status);
          upTo := begin;
          if status != OK { return; }
          call, begin := call + 1, end;
        }
      }
      ClearBlock();
      return OK, begin;
    }

    lemma ApplyingFacts(first: nat, entries: seq<Entry>, begin: nat, acked: bool)
      requires Applying(first, entries, begin, acked)
      ensures begin <= |entries|
    {
    }

    /** One batch is offered: taken whole, or refused. */
    method Offer(ghost first: nat, entries: seq<Entry>, begin: nat, acked: bool, status: Status) returns (end: nat)
      requires Applying(first, entries, begin, acked) && !faulted && begin < |entries|
      requires !C.IsConfigurationEntry(entries[begin])
      modifies core`applied, core`admitted, core`pendingApply, core`outstanding, this`blocked, this`blockedEntries,
        this`blockedBegin, this`faulted, this`delivered, this`trace
      ensures end == RunStop(entries, begin) && OnlyApplied(old(trace), trace)
      ensures status == OK ==> Applying(first, entries, end, acked) && !faulted
      ensures status != OK ==> Applying(first, entries, begin, true)
      ensures status == EBUSY ==> begin == blockedBegin && blocked && !faulted && blockedEntries == entries
      ensures status != OK && status != EBUSY ==> faulted && !blocked
      ensures status != OK && !acked ==> !core.outstanding && core.pendingApply == 0
      ensures acked || status == OK ==>
        core.outstanding == old(core.outstanding) && core.pendingApply == old(core.pendingApply)
    {
      hide Commands, StoresFirst, RunStop, Flat;
      end := RunEnd(entries, begin);
      if status != OK {
        Refused(first, entries, begin, acked, status);
      } else {
        Deliver(first, entries, begin, end, acked);
      }
    }

    /** A busy state machine blocks the pass; any other refusal faults the runtime. */
    method Refused(ghost first: nat, entries: seq<Entry>, begin: nat, acked: bool, status: Status)
      requires Applying(first, entries, begin, acked) && !faulted && begin < |entries| && status != OK
      modifies core`applied, core`admitted, core`pendingApply, core`outstanding, this`blocked, this`blockedEntries,
        this`blockedBegin, this`faulted
      ensures Applying(first, entries, begin, true)
      ensures status == EBUSY ==> begin == blockedBegin && blocked && !faulted && blockedEntries == entries
      ensures status != EBUSY ==> faulted && !blocked
      ensures !acked ==> !core.outstanding && core.pendingApply == 0
      ensures acked ==> core.outstanding == old(core.outstanding) && core.pendingApply == old(core.pendingApply)
    {
      hide Commands, StoresFirst;
      Settle(first, entries, begin, acked);
      if status == EBUSY {
        blockedEntries, blockedBegin, blocked := entries, begin, true;
      } else {
        ClearBlock();
        faulted := true;
      }
    }

    /** The messages of a Ready, once it is stored. */
    method SendAll(sends: seq<Status>, durable: bool) returns (status: Status)
      requires StoresFirst(trace) && (durable ==> Stored(readyNumber) in trace)
      modifies this`trace
      ensures StoresFirst(trace) && status == Verdict(sends, 0, |sends|)
      ensures trace == old(trace) + SentBefore(readyNumber, durable, sends) && Flat(trace) == Flat(old(trace))
    {
      hide StoresFirst, Flat;
      var i := 0;
      SentQuiet(readyNumber, durable, sends);
      FlatQuiet(trace, SentBefore(readyNumber, durable, sends));
      while i < |sends|
        invariant i <= |sends| && Verdict(sends, i, |sends| - i) == Verdict(sends, 0, |sends|)
        invariant i <= |sends| && StoresFirst(trace) && (durable ==> Stored(readyNumber) in trace)
        invariant trace + SentBefore(readyNumber, durable, sends[i..]) ==
          old(trace) + SentBefore(readyNumber, durable, sends)
      {
        assert sends[i..][1..] == sends[i + 1..];
        if sends[i] != OK {
          assert trace + [] == trace;
          return sends[i];
        }
        StoresFirstExtends(trace, Sent(readyNumber, durable));
        trace := trace + [Sent(readyNumber, durable)];
        i := i + 1;
      }
      assert trace + [] == trace;
      return OK;
    }

    /** The committed entries of the outstanding Ready. */
    ghost function Ready(): (es: seq<Entry>)
      reads core
      requires core.Valid()
    {
      if core.pendingApply > core.admitted then core.log[core.admitted..core.pendingApply] else []
    }

    /** tr_raft_runtime_process; send results stand for the transport callbacks. */
    method Process(needsStorage: bool, stored: bool, sends: seq<Status>, answers: seq<Status>) returns (status: Status)
      requires Valid() && core.outstanding
      modifies core`applied, core`admitted, core`pendingApply, core`outstanding, this`blocked, this`blockedEntries,
        this`blockedBegin,
        this`faulted, this`delivered, this`trace
      ensures Valid()
      ensures old(faulted) ==> faulted && delivered == old(delivered) && trace == old(trace)
      ensures old(blocked) ==> status == EBUSY && delivered == old(delivered) && trace == old(trace)
      ensures status == OK ==> !blocked && !core.outstanding
      ensures status == OK ==>
        core.applied == core.admitted == if old(core.pendingApply) != 0 then old(core.pendingApply)
          else old(core.applied)
      ensures needsStorage && !stored && !old(blocked) ==> faulted && trace == old(trace)
      ensures !old(faulted) && !old(blocked) ==>
        var sent, taken := Verdict(sends, 0, |sends|), Verdict(answers, 0, Runs(old(Ready()), 0));
        && status == (if needsStorage && !stored then EIO else if sent != OK then sent else taken)
        && (blocked <==> (needsStorage ==> stored) && sent == OK && taken == EBUSY)
        && (faulted <==> status != OK && !blocked)
        && OnlyApplied(old(trace) + EffectsOf(readyNumber, needsStorage, stored, sends), trace)
        && core.applied >= old(core.admitted)
        && ((needsStorage ==> stored) && sent == OK && taken != OK ==>
              StopsAt(old(Ready()), 0, answers, core.applied - old(core.admitted), taken))
    {
      hide Commands, StoresFirst, Flat, EffectsOf, Verdict, Runs, StopsAt;
      if faulted { return EPROTO; }
      if blocked { return EBUSY; }
      status := Publish(needsStorage, stored, sends);
      if status != OK {
        faulted := true;
        return;
      }
      status := ApplyAndAdvance(answers);
    }

    /** The Ready is stored, and then its messages go out. */
    method Publish(needsStorage: bool, stored: bool, sends: seq<Status>) returns (status: Status)
      requires StoresFirst(trace)
      modifies this`trace
      ensures StoresFirst(trace) && Flat(trace) == Flat(old(trace))
      ensures trace == old(trace) + EffectsOf(readyNumber, needsStorage, stored, sends)
      ensures status == if needsStorage && !stored then EIO else Verdict(sends, 0, |sends|)
      ensures needsStorage && !stored ==> trace == old(trace)
    {
      hide StoresFirst, Flat;
      if needsStorage {
        if !stored { return EIO; }
        StoresFirstExtends(trace, Stored(readyNumber));
        FlatSnoc(trace, Stored(readyNumber));
        trace := trace + [Stored(readyNumber)];
      }
      status := SendAll(sends, needsStorage);
    }

    /** The apply half of processing. */
    method ApplyAndAdvance(answers: seq<Status>) returns (status: Status)
      requires Valid() && core.outstanding && !faulted && !blocked
      modifies core`applied, core`admitted, core`pendingApply, core`outstanding, this`blocked, this`blockedEntries,
        this`blockedBegin,
        this`faulted, this`delivered, this`trace
      ensures Valid()
      ensures status == OK ==> !blocked && !core.outstanding
      ensures status == OK ==>
        core.applied == core.admitted == if old(core.pendingApply) != 0 then old(core.pendingApply)
          else old(core.applied)
      ensures status == Verdict(answers, 0, Runs(old(Ready()), 0)) && (blocked <==> status == EBUSY)
      ensures faulted <==> status != OK && !blocked
      ensures OnlyApplied(old(trace), trace)
      ensures status != OK ==>
        core.applied >= old(core.admitted) &&
        StopsAt(old(Ready()), 0, answers, core.applied - old(core.admitted), status)
    {
      hide Commands, StoresFirst, Flat;
      if core.pendingApply > core.admitted {
        ghost var upTo;
        assert core.log[start..core.admitted + 0] == core.log[start..core.applied];
        status, upTo := ApplyFrom(core.admitted, core.log[core.admitted..core.pendingApply], 0, false, answers);
        if status != OK { return; }
      }
      status := core.Advance();
    }

    /** tr_raft_runtime_retry_apply */
    method RetryApply(answers: seq<Status>) returns (status: Status)
      requires Valid()
      modifies core`applied, core`admitted, core`pendingApply, core`outstanding, this`blocked, this`blockedEntries,
        this`blockedBegin,
        this`faulted, this`delivered, this`trace
      ensures Valid()
      ensures !old(blocked) ==> status != OK && delivered == old(delivered)
      ensures status == OK ==> !blocked && core.applied == core.admitted
      ensures core.outstanding == old(core.outstanding) && core.pendingApply == old(core.pendingApply)
      ensures old(blocked) ==> old(blockedBegin) <= |old(blockedEntries)|
      ensures old(blocked) ==>
        status == Verdict(answers, 0, Runs(old(blockedEntries), old(blockedBegin))) && (blocked <==> status == EBUSY)
      ensures !old(blocked) ==> status == if old(faulted) then EPROTO else ENOENT
      ensures OnlyApplied(old(trace), trace) && core.applied >= old(core.applied)
      ensures old(blocked) && status != OK ==>
        StopsAt(old(blockedEntries), old(blockedBegin), answers,
                old(blockedBegin) + (core.applied - old(core.applied)), status)
    {
      hide Commands, StoresFirst, Flat, Verdict, Runs, StopsAt;
      if faulted { return EPROTO; }
      if !blocked { return ENOENT; }
      ghost var upTo;
      status, upTo := ApplyFrom(core.admitted - |blockedEntries|, blockedEntries, blockedBegin, true, answers);
    }
  }

  /** The pass stops before the batch that draws the first refusal. */
  ghost predicate StopsAt(entries: seq<Entry>, begin: nat, answers: seq<Status>, upTo: nat, status: Status)
    requires begin <= |entries|
  {
    && upTo < |entries| && !C.IsConfigurationEntry(entries[upTo])
    && exists k ::
         && 0 <= k < |answers| && answers[k] == status != OK && (forall j :: 0 <= j < k ==> answers[j] == OK)
         && Runs(entries, begin) == k + Runs(entries, upTo)
  }

  /** Nothing but batches was added. */
  ghost predicate OnlyApplied(t: seq<Effect>, t': seq<Effect>)
  {
    t <= t' && forall i :: |t| <= i < |t'| ==> t'[i].Applied?
  }

  lemma SkipsConfiguration(log: seq<Entry>, start: nat, at: nat)
    requires start <= at < |log| && C.IsConfigurationEntry(log[at])
    ensures Commands(log[start..at + 1]) == Commands(log[start..at])
  {
    CommandsSplit(log, start, at, at + 1);
    SingleCommand(log, at);
  }

  lemma SingleCommand(log: seq<Entry>, at: nat)
    requires at < |log|
    ensures Commands(log[at..at + 1]) == if C.IsConfigurationEntry(log[at]) then [] else [log[at]]
  {
    var one := log[at..at + 1];
    assert one[1..] == [] && one[0] == log[at];
    assert Commands(one[1..]) == [];
  }

  lemma TakesRun(log: seq<Entry>, start: nat, first: nat, entries: seq<Entry>, begin: nat, end: nat)
    requires start <= first && first + |entries| <= |log| && entries == log[first..first + |entries|]
    requires begin <= end <= |entries|
    requires forall i :: begin <= i < end ==> !C.IsConfigurationEntry(entries[i])
    ensures Commands(log[start..first + end]) == Commands(log[start..first + begin]) + entries[begin..end]
  {
    hide Commands;
    CommandsSplit(log, start, first + begin, first + end);
    SliceOfSlice(log, first, |entries|, begin, end);
    CommandsAll(entries[begin..end]);
  }

  lemma SliceOfSlice(log: seq<Entry>, first: nat, n: nat, begin: nat, end: nat)
    requires begin <= end <= n && first + n <= |log|
    ensures log[first..first + n][begin..end] == log[first + begin..first + end]
  {
    var a, b := log[first..first + n][begin..end], log[first + begin..first + end];
    assert forall i :: 0 <= i < |a| ==> a[i] == b[i];
  }

  lemma Prefixes(a: seq<Entry>, b: seq<Entry>, n: nat, i: nat, j: nat)
    requires i <= j <= n <= |a| && n <= |b| && b[..n] == a[..n]
    ensures b[i..j] == a[i..j]
  {
    assert b[i..j] == b[..n][i..j] && a[i..j] == a[..n][i..j];
  }
}
