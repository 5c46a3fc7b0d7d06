/**
 The replicated log (src/core/raft_log.c).

 The specification functions work on the full history of a log: `log` holds
 every entry ever kept, one-based index i at position i - 1, and `base` is the
 last index folded into a snapshot.  The class keeps only the suffix after
 `base`, as the source does, with the compacted prefix as a ghost field.
 */
module RaftLog {
  import opened RaftTypes
  import C = Configuration

  /** tr_raft_log_matches: only indices from base on can be compared. */
  predicate Matches(log: seq<Entry>, base: nat, index: nat, term: nat)
  {
    base <= index <= |log| && TermAt(log, index) == term
  }

  /** First index, above base + 1, of the run of equal terms ending at i. */
  function RunStart(log: seq<Entry>, base: nat, i: nat): (r: nat)
    requires base < i <= |log|
    ensures base < r <= i
    ensures forall k :: r <= k <= i ==> TermAt(log, k) == TermAt(log, i)
    ensures r > base + 1 ==> TermAt(log, r - 1) != TermAt(log, i)
  {
    if i > base + 1 && TermAt(log, i - 1) == TermAt(log, i) then RunStart(log, base, i - 1) else i
  }

  /** tr_raft_log_reject_hint */
  function RejectHint(log: seq<Entry>, base: nat, prev: nat): (r: nat)
    requires base <= |log|
    ensures base < r <= |log| + 1
  {
    if prev > |log| then |log| + 1
    else if prev <= base then base + 1
    else RunStart(log, base, prev)
  }

  /** Where the incoming batch first differs from the local log. */
  datatype Scan = AllPresent | Bad(status: Status) | ChangeAt(at: nat, truncates: bool)

  /** The checks made on one incoming entry before it is compared. */
  function EntryStatus(e: Entry, expected: nat): (s: Status)
  {
    if e.index != expected || e.term == 0 || |e.data| > MAX_ENTRY_BYTES then EINVAL
    else if C.IsConfigurationEntry(e) && C.EntryConf(e).None? then EPROTO
    else OK
  }

  function ScanFrom(log: seq<Entry>, prev: nat, incoming: seq<Entry>, i: nat): (r: Scan)
    requires i <= |incoming| && prev + i <= |log|
    ensures r.ChangeAt? ==> i <= r.at < |incoming| && prev + r.at <= |log|
    decreases |incoming| - i
  {
    if i == |incoming| then AllPresent
    else if EntryStatus(incoming[i], prev + i + 1) != OK then Bad(EntryStatus(incoming[i], prev + i + 1))
    else if prev + i >= |log| then ChangeAt(i, false)
    else if log[prev + i].term != incoming[i].term then ChangeAt(i, true)
    else if log[prev + i] != incoming[i] then Bad(EPROTO)
    else ScanFrom(log, prev, incoming, i + 1)
  }

  /** Outcome of tr_raft_log_reconcile. */
  datatype Reconciled =
    | Mismatch(hint: nat)
    | Failed(status: Status)
    | Keep
    | Replace(log: seq<Entry>, at: nat, truncates: bool)

  function Reconcile(log: seq<Entry>, base: nat, maxEntries: nat, prev: nat, prevTerm: nat,
                     incoming: seq<Entry>, protect: nat): (r: Reconciled)
    requires base <= |log|
  {
    if prev + |incoming| > U64_MAX then Failed(EINVAL)
    else if !Matches(log, base, prev, prevTerm) then Mismatch(RejectHint(log, base, prev))
    else
      match ScanFrom(log, prev, incoming, 0)
      case AllPresent => Keep
      case Bad(status) => Failed(status)
      case ChangeAt(at, truncates) =>
        if truncates && incoming[at].index <= protect then Failed(EPROTO)
        else if prev - base + |incoming| > maxEntries then Failed(ENOSPC)
        else Replace(log[..prev + at] + incoming[at..], at, truncates)
  }

  /** The log after the call; errors and mismatches leave it unchanged. */
  function LogAfter(log: seq<Entry>, r: Reconciled): (log': seq<Entry>)
  {
    if r.Replace? then r.log else log
  }

  /** The batch is numbered consecutively after prev. */
  predicate FollowsOn(prev: nat, incoming: seq<Entry>)
  {
    forall i :: 0 <= i < |incoming| ==> incoming[i].index == prev + i + 1
  }

  // ------------------------------------------------ what a reconcile does

  lemma {:induction false} ScanMeaning(log: seq<Entry>, prev: nat, incoming: seq<Entry>, i: nat)
    requires i <= |incoming| && prev + i <= |log|
    ensures var r := ScanFrom(log, prev, incoming, i);
      && (r.AllPresent? ==> prev + |incoming| <= |log|)
      && (r.AllPresent? ==> forall k :: i <= k < |incoming| ==> log[prev + k] == incoming[k])
      && (r.ChangeAt? ==>
            && (forall k :: i <= k < r.at ==> log[prev + k] == incoming[k])
            && (r.truncates <==> prev + r.at < |log|)
            && (r.truncates ==> log[prev + r.at].term != incoming[r.at].term)
            && incoming[r.at].index == prev + r.at + 1 && incoming[r.at].term != 0)
    decreases |incoming| - i
  {
    if i < |incoming| && prev + i < |log| { ScanMeaning(log, prev, incoming, i + 1); }
  }

  lemma ReplaceShape(log: seq<Entry>, prev: nat, incoming: seq<Entry>, at: nat)
    requires at < |incoming| && prev + at <= |log|
    requires forall k :: 0 <= k < at ==> log[prev + k] == incoming[k]
    ensures var log' := log[..prev + at] + incoming[at..];
      && |log'| == prev + |incoming|
      && log'[..prev] == log[..prev] && log'[prev..] == incoming
      && (Contiguous(log) && FollowsOn(prev, incoming) ==> Contiguous(log'))
  {
    var log' := log[..prev + at] + incoming[at..];
    assert log'[..prev] == log[..prev];
    assert log'[prev..] == incoming;
    if Contiguous(log) && FollowsOn(prev, incoming) {
      forall k | 0 <= k < |log'| ensures log'[k].index == k + 1 {
        if k >= prev + at { assert log'[k] == incoming[k - prev]; }
      }
    }
  }

  /**
   For a batch numbered consecutively after prev: an error or a mismatch leaves
   the log alone; otherwise the prefix through prev is kept, every incoming
   entry ends up in place and indices stay consecutive.
   */
  lemma ReconcileCorrect(log: seq<Entry>, base: nat, maxEntries: nat, prev: nat, prevTerm: nat,
                         incoming: seq<Entry>, protect: nat)
    requires base <= |log| && Contiguous(log) && FollowsOn(prev, incoming) && |log| - base <= maxEntries
    ensures var r := Reconcile(log, base, maxEntries, prev, prevTerm, incoming, protect);
      var log' := LogAfter(log, r);
      && (r.Mismatch? <==> prev + |incoming| <= U64_MAX && !Matches(log, base, prev, prevTerm))
      && (r.Mismatch? || r.Failed? || r.Keep? ==> log' == log)
      && (r.Keep? || r.Replace? ==>
            && prev + |incoming| <= |log'|
            && log'[..prev] == log[..prev]
            && log'[prev..prev + |incoming|] == incoming)
      && Contiguous(log') && base <= |log'| && |log'| - base <= maxEntries
  {
    hide ScanFrom, RejectHint;
    var r := Reconcile(log, base, maxEntries, prev, prevTerm, incoming, protect);
    if r.Keep? {
      ScanMeaning(log, prev, incoming, 0);
      assert log[prev..prev + |incoming|] == incoming;
    } else if r.Replace? {
      ScanMeaning(log, prev, incoming, 0);
      ReplaceShape(log, prev, incoming, r.at);
      assert r.log[prev..prev + |incoming|] == r.log[prev..];
    }
  }

  /**
   Existing entries are dropped only from the first one whose term conflicts
   with the incoming entry at the same index, and never at or below the
   protected index.
   */
  lemma ReconcileDropsOnlyConflicts(log: seq<Entry>, base: nat, maxEntries: nat, prev: nat, prevTerm: nat,
                                    incoming: seq<Entry>, protect: nat)
    requires base <= |log|
    ensures var r := Reconcile(log, base, maxEntries, prev, prevTerm, incoming, protect);
      var log' := LogAfter(log, r);
      && (r.Replace? ==>
            && prev + r.at <= |log| && r.at < |incoming|
            && log'[..prev + r.at] == log[..prev + r.at]
            && (r.truncates <==> prev + r.at < |log|)
            && (r.truncates ==> log[prev + r.at].term != incoming[r.at].term && protect <= prev + r.at))
      && (protect <= |log| ==> |log'| >= protect && log'[..protect] == log[..protect])
  {
    var r := Reconcile(log, base, maxEntries, prev, prevTerm, incoming, protect);
    if r.Replace? {
      ScanMeaning(log, prev, incoming, 0);
      assert r.log[..prev + r.at] == log[..prev + r.at];
      if protect <= |log| { assert r.log[..protect] == log[..protect]; }
    }
  }

  /**
   Receiver rules 3 and 4 of the AppendEntries RPC (figure 2 of the Raft
   paper), one entry at a time: a conflicting entry removes itself and
   everything after it, a missing entry is appended.
   */
  function AppendOne(log: seq<Entry>, e: Entry, at: nat): (r: seq<Entry>)
    requires at <= |log|
    ensures at < |r|
  {
    if at < |log| && log[at].term == e.term then log else log[..at] + [e]
  }

  function AppendAll(log: seq<Entry>, prev: nat, incoming: seq<Entry>): (r: seq<Entry>)
    requires prev <= |log|
    ensures prev + |incoming| <= |r|
    decreases |incoming|
  {
    if incoming == [] then log else AppendAll(AppendOne(log, incoming[0], prev), prev + 1, incoming[1..])
  }

  lemma {:induction false} AppendAllPresent(log: seq<Entry>, prev: nat, incoming: seq<Entry>)
    requires prev + |incoming| <= |log|
    requires forall k :: 0 <= k < |incoming| ==> log[prev + k].term == incoming[k].term
    ensures AppendAll(log, prev, incoming) == log
    decreases |incoming|
  {
    if incoming != [] {
      assert log[prev + 0].term == incoming[0].term;
      forall k | 0 <= k < |incoming[1..]| ensures log[prev + 1 + k].term == incoming[1..][k].term {
        assert log[prev + (k + 1)].term == incoming[k + 1].term;
      }
      AppendAllPresent(log, prev + 1, incoming[1..]);
    }
  }

  lemma {:induction false} AppendAllAtEnd(log: seq<Entry>, incoming: seq<Entry>)
    ensures AppendAll(log, |log|, incoming) == log + incoming
    decreases |incoming|
  {
    if incoming != [] {
      AppendAllAtEnd(log + [incoming[0]], incoming[1..]);
      assert AppendOne(log, incoming[0], |log|) == log + [incoming[0]];
      assert log + [incoming[0]] + incoming[1..] == log + incoming;
    } else {
      assert log + incoming == log;
    }
  }

  lemma {:induction false} AppendAllFromChange(log: seq<Entry>, prev: nat, incoming: seq<Entry>, at: nat)
    requires at < |incoming| && prev + at <= |log|
    requires forall k :: 0 <= k < at ==> prev + k < |log| && log[prev + k].term == incoming[k].term
    requires prev + at < |log| ==> log[prev + at].term != incoming[at].term
    ensures AppendAll(log, prev, incoming) == log[..prev + at] + incoming[at..]
    decreases at
  {
    if at == 0 {
      var next := log[..prev] + [incoming[0]];
      assert AppendOne(log, incoming[0], prev) == next;
      AppendAllAtEnd(next, incoming[1..]);
      assert next + incoming[1..] == log[..prev] + incoming;
    } else {
      assert log[prev + 0].term == incoming[0].term;
      var rest := incoming[1..];
      forall k | 0 <= k < at - 1
        ensures prev + 1 + k < |log| && log[prev + 1 + k].term == rest[k].term
      {
        assert prev + (k + 1) < |log| && log[prev + (k + 1)].term == incoming[k + 1].term;
      }
      AppendAllFromChange(log, prev + 1, rest, at - 1);
      assert rest[at - 1..] == incoming[at..];
    }
  }

  /** An accepted batch has the effect of the paper's one-entry-at-a-time rule. */
  lemma ReconcileRefinesAppend(log: seq<Entry>, base: nat, maxEntries: nat, prev: nat, prevTerm: nat,
                               incoming: seq<Entry>, protect: nat)
    requires base <= |log|
    ensures var r := Reconcile(log, base, maxEntries, prev, prevTerm, incoming, protect);
      r.Keep? || r.Replace? ==> prev <= |log| && LogAfter(log, r) == AppendAll(log, prev, incoming)
  {
    var r := Reconcile(log, base, maxEntries, prev, prevTerm, incoming, protect);
    if r.Keep? || r.Replace? {
      ScanMeaning(log, prev, incoming, 0);
      if r.Keep? {
        AppendAllPresent(log, prev, incoming);
      } else {
        AppendAllFromChange(log, prev, incoming, r.at);
      }
    }
  }

  /**
   The hint skips the whole conflicting run, and never below what is retained;
   behind the end it names the end, and below what is retained the first index
   that is.
   */
  lemma RejectHintSkipsRun(log: seq<Entry>, base: nat, prev: nat)
    requires base <= |log|
    ensures var h := RejectHint(log, base, prev);
      && base < h <= |log| + 1
      && (prev > |log| ==> h > |log|) && (prev <= base ==> h == base + 1)
      && (base < prev <= |log| ==>
            && h <= prev && (forall k :: h <= k <= prev ==> TermAt(log, k) == TermAt(log, prev))
            && (h == base + 1 || TermAt(log, h - 1) != TermAt(log, prev)))
  {
    if base < prev <= |log| { assert RejectHint(log, base, prev) == RunStart(log, base, prev); }
  }

  // --------------------------------------------- when a batch is accepted

  /** The log holds the first n entries of the batch already, judged by index and term. */
  ghost predicate HeldTo(log: seq<Entry>, prev: nat, incoming: seq<Entry>, n: nat)
  {
    n <= |incoming| && forall k :: 0 <= k < n ==> prev + k < |log| && log[prev + k].term == incoming[k].term
  }

  /** It holds exactly the first n. */
  ghost predicate HeldFrom(log: seq<Entry>, prev: nat, incoming: seq<Entry>, n: nat)
  {
    && HeldTo(log, prev, incoming, n)
    && (n < |incoming| && prev + n < |log| ==> log[prev + n].term != incoming[n].term)
  }

  ghost function HeldCount(log: seq<Entry>, prev: nat, incoming: seq<Entry>, i: nat): (n: nat)
    requires HeldTo(log, prev, incoming, i)
    ensures HeldFrom(log, prev, incoming, n)
    decreases |incoming| - i
  {
    if i < |incoming| && prev + i < |log| && log[prev + i].term == incoming[i].term
    then HeldCount(log, prev, incoming, i + 1) else i
  }

  /** The number, term and size of an entry are those a leader may send for an index. */
  ghost predicate Shaped(e: Entry, index: nat)
  {
    e.index == index && e.term > 0 && |e.data| <= MAX_ENTRY_BYTES
  }

  /** A configuration entry carries a configuration. */
  ghost predicate WellFormed(e: Entry, index: nat)
  {
    Shaped(e, index) && (e.command == 0 ==> exists c :: C.Valid(c) && C.EncodedForm(c) == e.data)
  }

  /** Entry k is well formed, and is the one in the log where the log holds one of its term. */
  ghost predicate Consistent(log: seq<Entry>, prev: nat, incoming: seq<Entry>, n: nat, k: nat)
    requires k < |incoming|
  {
    WellFormed(incoming[k], prev + k + 1) && (k < n && prev + k < |log| ==> log[prev + k] == incoming[k])
  }

  /** The entries the log holds already, and the first one it does not, are consistent with it. */
  ghost predicate AllConsistent(log: seq<Entry>, prev: nat, incoming: seq<Entry>, n: nat)
  {
    forall k :: 0 <= k <= n && k < |incoming| ==> Consistent(log, prev, incoming, n, k)
  }

  ghost predicate FirstFault(log: seq<Entry>, prev: nat, incoming: seq<Entry>, n: nat, k: nat)
  {
    && k <= n && k < |incoming| && !Consistent(log, prev, incoming, n, k)
    && forall j :: 0 <= j < k ==> Consistent(log, prev, incoming, n, j)
  }

  lemma EntryStatusExact(e: Entry, index: nat)
    requires index > 0
    ensures EntryStatus(e, index) == if !Shaped(e, index) then EINVAL else if WellFormed(e, index) then OK else EPROTO
  {
    hide C.Decoded, C.EncodedForm;
    if e.command == 0 && Shaped(e, index) {
      if C.Decoded(e.data).Some? { C.EncodeDecode(e.data); }
      if c :| C.Valid(c) && C.EncodedForm(c) == e.data { C.DecodeEncode(c); }
    }
  }

  lemma {:induction false} ScanExact(log: seq<Entry>, prev: nat, incoming: seq<Entry>, n: nat, i: nat)
    requires HeldFrom(log, prev, incoming, n) && i <= n && prev + i <= |log|
    requires forall j :: 0 <= j < i ==> Consistent(log, prev, incoming, n, j)
    ensures var r := ScanFrom(log, prev, incoming, i);
      if AllConsistent(log, prev, incoming, n)
      then r == if n == |incoming| then AllPresent else ChangeAt(n, prev + n < |log|)
      else
        exists k: nat ::
          && FirstFault(log, prev, incoming, n, k)
          && r == Bad(if Shaped(incoming[k], prev + k + 1) then EPROTO else EINVAL)
    decreases n - i
  {
    hide WellFormed, Shaped, EntryStatus;
    if i < |incoming| {
      EntryStatusExact(incoming[i], prev + i + 1);
      ShapedFirst(incoming[i], prev + i + 1);
      if !Consistent(log, prev, incoming, n, i) {
        assert FirstFault(log, prev, incoming, n, i);
      } else if i < n {
        ScanExact(log, prev, incoming, n, i + 1);
      }
    }
  }

  lemma ShapedFirst(e: Entry, index: nat)
    ensures WellFormed(e, index) ==> Shaped(e, index)
  {
  }

  lemma HeldEqual(log: seq<Entry>, prev: nat, incoming: seq<Entry>, n: nat)
    requires HeldFrom(log, prev, incoming, n) && AllConsistent(log, prev, incoming, n) && n < |incoming|
    requires prev <= |log|
    ensures prev + n <= |log| && log[..prev + n] + incoming[n..] == log[..prev] + incoming
    ensures incoming[n].index == prev + n + 1
  {
    if n > 0 { assert incoming[n - 1].term == log[prev + (n - 1)].term; }
    assert Consistent(log, prev, incoming, n, n);
    forall k | 0 <= k < n ensures log[prev + k] == incoming[k] { assert Consistent(log, prev, incoming, n, k); }
    assert log[..prev + n] == log[..prev] + incoming[..n];
    assert incoming == incoming[..n] + incoming[n..];
  }

  /**
   Exactly when a batch is accepted, and with which result it is refused, for any
   batch: n counts the entries the log holds already.
   */
  lemma ReconcileExact(log: seq<Entry>, base: nat, maxEntries: nat, prev: nat, prevTerm: nat, incoming: seq<Entry>,
                       protect: nat, n: nat)
    requires base <= |log| && HeldFrom(log, prev, incoming, n)
    ensures var r := Reconcile(log, base, maxEntries, prev, prevTerm, incoming, protect);
      var known := prev + |incoming| <= U64_MAX && base <= prev <= |log| && TermAt(log, prev) == prevTerm;
      var consistent := AllConsistent(log, prev, incoming, n);
      var drops := n < |incoming| && prev + n < |log| && prev + n < protect;
      var fits := n == |incoming| || prev + |incoming| <= base + maxEntries;
      && (r.Keep? || r.Replace? <==> known && consistent && !drops && fits)
      && (r.Keep? || r.Replace? ==>
            LogAfter(log, r) == if n == |incoming| then log else log[..prev] + incoming)
      && (r == Failed(ENOSPC) <==> known && consistent && !drops && !fits)
      && (known && consistent && drops ==> r == Failed(EPROTO))
      && (known && !consistent ==>
            exists k: nat ::
              && FirstFault(log, prev, incoming, n, k)
              && r == Failed(if Shaped(incoming[k], prev + k + 1) then EPROTO else EINVAL))
      && (prev + |incoming| > U64_MAX ==> r == Failed(EINVAL))
  {
    hide ScanFrom, RejectHint, AllConsistent, FirstFault, Shaped;
    if base <= prev <= |log| && TermAt(log, prev) == prevTerm {
      ScanExact(log, prev, incoming, n, 0);
      if AllConsistent(log, prev, incoming, n) && n < |incoming| { HeldEqual(log, prev, incoming, n); }
    }
  }

  // ------------------------------------------------------- the stored log

  /** tr_raft_log_reconcile_result_t with the call's result code. */
  datatype Outcome = Outcome(status: Status, matched: bool, hint: nat, changed: bool,
                             truncateFrom: nat, appendFrom: nat, appendCount: nat)

  function OutcomeOf(r: Reconciled, prev: nat, count: nat): (o: Outcome)
    requires !r.Failed? && (r.Replace? ==> r.at < count)
  {
    match r
    case Mismatch(hint) => Outcome(OK, false, hint, false, 0, 0, 0)
    case Keep => Outcome(OK, true, 0, false, 0, 0, 0)
    case Replace(_, at, truncates) =>
      Outcome(OK, true, 0, true, if truncates then prev + at + 1 else 0, prev + at + 1, count - at)
  }

  /** The vector of entries after the snapshot base. */
  class EntryLog {
    var entries: seq<Entry>
    var maxEntries: nat
    var baseIndex: nat
    var baseTerm: nat
    ghost var compacted: seq<Entry>

    ghost predicate Valid()
      reads this
    {
      |compacted| == baseIndex && LastTerm(compacted) == baseTerm && |entries| <= maxEntries
    }

    /** Every entry, including the compacted ones. */
    ghost function Full(): (log: seq<Entry>)
      reads this
    {
      compacted + entries
    }

    constructor (maxEntries: nat, baseIndex: nat, baseTerm: nat, ghost prefix: seq<Entry>)
      requires maxEntries != 0 && |prefix| == baseIndex && LastTerm(prefix) == baseTerm
      ensures Valid() && Full() == prefix && this.baseIndex == baseIndex && this.maxEntries == maxEntries
    {
      this.entries, this.maxEntries, this.baseIndex, this.baseTerm := [], maxEntries, baseIndex, baseTerm;
      this.compacted := prefix;
    }

    function LastIndex(): (i: nat)
      reads this
      requires Valid()
      ensures i == |Full()|
    {
      baseIndex + |entries|
    }

    function LastTermHeld(): (t: nat)
      reads this
      requires Valid()
      ensures t == LastTerm(Full())
    {
      if entries == [] then baseTerm else entries[|entries| - 1].term
    }

    /** Only retained entries can be read. */
    function Get(index: nat): (e: Option<Entry>)
      reads this
      requires Valid()
      ensures e.Some? <==> baseIndex < index <= |Full()|
      ensures e.Some? ==> e.value == Full()[index - 1]
    {
      if index <= baseIndex || index > LastIndex() then None else Some(entries[index - baseIndex - 1])
    }

    predicate MatchesAt(index: nat, term: nat)
      reads this
      requires Valid()
      ensures MatchesAt(index, term) == Matches(Full(), baseIndex, index, term)
    {
      if index == baseIndex then term == baseTerm
      else Get(index).Some? && Get(index).value.term == term
    }

    method Hint(prev: nat) returns (hint: nat)
      requires Valid()
      ensures hint == RejectHint(Full(), baseIndex, prev)
    {
      if prev > LastIndex() { return LastIndex() + 1; }
      if prev <= baseIndex { return baseIndex + 1; }
      hint := prev;
      var conflict := Get(prev).value.term;
      while hint > baseIndex + 1
        invariant baseIndex < hint <= prev <= |Full()| && Full()[hint - 1].term == conflict
        invariant RunStart(Full(), baseIndex, hint) == RunStart(Full(), baseIndex, prev)
      {
        if Get(hint - 1).value.term != conflict { break; }
        hint := hint - 1;
      }
    }

    /** Drops what a snapshot covers; the retained entries keep their indices. */
    method Compact(index: nat, term: nat) returns (status: Status)
      requires Valid()
      modifies this
      ensures Valid() && Full() == old(Full()) && maxEntries == old(maxEntries)
      ensures status == OK <==> old(baseIndex) < index <= |Full()| && term != 0 && Full()[index - 1].term == term
      ensures baseIndex == if status == OK then index else old(baseIndex)
    {
      if index <= baseIndex || term == 0 || index > LastIndex() { return EINVAL; }
      if !MatchesAt(index, term) { return EPROTO; }
      var removed := index - baseIndex;
      compacted := compacted + entries[..removed];
      entries := entries[removed..];
      baseIndex, baseTerm := index, term;
      return OK;
    }

    /** All of the batch or none of it. */
    method AppendBatch(term: nat, proposals: seq<(nat, seq<Byte>)>) returns (status: Status)
      requires Valid()
      modifies this
      ensures Valid() && baseIndex == old(baseIndex) && maxEntries == old(maxEntries)
      ensures status == OK <==>
        && term != 0 && 0 < |proposals| <= MAX_PROPOSAL_BATCH && |old(entries)| + |proposals| <= maxEntries
        && forall i :: 0 <= i < |proposals| ==> proposals[i].0 != 0 && |proposals[i].1| <= MAX_ENTRY_BYTES
      ensures status != OK ==> Full() == old(Full())
      ensures status == OK ==> Full() == old(Full()) + Numbered(|old(Full())|, term, proposals)
    {
      if term == 0 || |proposals| == 0 || |proposals| > MAX_PROPOSAL_BATCH { return EINVAL; }
      if |entries| + |proposals| > maxEntries { return ENOSPC; }
      var i := 0;
      while i < |proposals|
        invariant i <= |proposals|
        invariant forall k :: 0 <= k < i ==> proposals[k].0 != 0 && |proposals[k].1| <= MAX_ENTRY_BYTES
      {
        if proposals[i].0 == 0 || |proposals[i].1| > MAX_ENTRY_BYTES { return EINVAL; }
        i := i + 1;
      }
      var first := LastIndex() + 1;
      ghost var all := Numbered(|Full()|, term, proposals);
      i := 0;
      while i < |proposals|
        invariant i <= |proposals| && baseIndex == old(baseIndex) && baseTerm == old(baseTerm)
        invariant maxEntries == old(maxEntries) && compacted == old(compacted)
        invariant entries == old(entries) + all[..i]
      {
        entries := entries + [Entry(first + i, term, proposals[i].0, proposals[i].1)];
        i := i + 1;
      }
      assert all[..i] == all;
      return OK;
    }

    /** The scan of tr_raft_log_reconcile: where the batch first differs. */
    method FirstChange(prev: nat, incoming: seq<Entry>) returns (r: Scan)
      requires Valid() && baseIndex <= prev <= |Full()|
      ensures r == ScanFrom(Full(), prev, incoming, 0)
    {
      var i := 0;
      while i < |incoming|
        invariant i <= |incoming| && prev + i <= |Full()|
        invariant ScanFrom(Full(), prev, incoming, i) == ScanFrom(Full(), prev, incoming, 0)
      {
        var expected := prev + i + 1;
        var checked := EntryStatus(incoming[i], expected);
        if checked != OK { return Bad(checked); }
        var local := Get(expected);
        if local.None? { return ChangeAt(i, false); }
        if local.value.term != incoming[i].term { return ChangeAt(i, true); }
        if local.value != incoming[i] { return Bad(EPROTO); }
        i := i + 1;
      }
      return AllPresent;
    }

    /** Resizes to keep `retained` entries and writes the rest of the batch at the entries' own indices. */
    method Overwrite(prev: nat, incoming: seq<Entry>, at: nat)
      requires Valid() && baseIndex <= prev && at < |incoming| && prev + at <= |Full()|
      requires prev - baseIndex + |incoming| <= maxEntries
      requires forall k :: at <= k < |incoming| ==> incoming[k].index == prev + k + 1
      modifies this`entries
      ensures Valid() && Full() == old(Full())[..prev + at] + incoming[at..]
    {
      var retained := prev - baseIndex + at;
      ghost var was := entries;
      var room := |incoming| - at;
      entries := entries[..retained] + seq(room, _ => Entry(0, 0, 0, []));
      var k := at;
      while k < |incoming|
        invariant at <= k <= |incoming| && |entries| == retained + room
        invariant entries[..retained + (k - at)] == was[..retained] + incoming[at..k]
      {
        ghost var p, before := retained + (k - at), entries;
        entries := entries[incoming[k].index - baseIndex - 1 := incoming[k]];
        assert entries[..p + 1] == before[..p] + [incoming[k]];
        assert incoming[at..k + 1] == incoming[at..k] + [incoming[k]];
        k := k + 1;
      }
      assert entries[..retained + room] == entries && incoming[at..|incoming|] == incoming[at..];
      assert (compacted + was)[..prev + at] == compacted + was[..retained];
    }

    /**
     tr_raft_log_reconcile.  Entries past the first change are written at their
     own index without being checked again, so the caller must have numbered
     them consecutively.
     */
    method Reconciles(prev: nat, prevTerm: nat, incoming: seq<Entry>, protect: nat) returns (o: Outcome)
      requires Valid()
      requires var r := Reconcile(Full(), baseIndex, maxEntries, prev, prevTerm, incoming, protect);
        r.Replace? ==> forall k :: r.at <= k < |incoming| ==> incoming[k].index == prev + k + 1
      modifies this`entries
      ensures Valid()
      ensures var r := Reconcile(old(Full()), baseIndex, maxEntries, prev, prevTerm, incoming, protect);
        && Full() == LogAfter(old(Full()), r)
        && (if r.Failed? then o.status == r.status && !o.changed else o == OutcomeOf(r, prev, |incoming|))
    {
      if prev + |incoming| > U64_MAX { return Outcome(EINVAL, false, 0, false, 0, 0, 0); }
      if !MatchesAt(prev, prevTerm) {
        var hint := Hint(prev);
        return Outcome(OK, false, hint, false, 0, 0, 0);
      }
      var scan := FirstChange(prev, incoming);
      match scan
      case AllPresent => o := Outcome(OK, true, 0, false, 0, 0, 0);
      case Bad(status) => o := Outcome(status, true, 0, false, 0, 0, 0);
      case ChangeAt(at, truncates) =>
        ScanMeaning(Full(), prev, incoming, 0);
        if truncates && incoming[at].index <= protect { return Outcome(EPROTO, true, 0, false, 0, 0, 0); }
        if prev - baseIndex + |incoming| > maxEntries { return Outcome(ENOSPC, true, 0, false, 0, 0, 0); }
        Overwrite(prev, incoming, at);
        var cut := if truncates then incoming[at].index else 0;
        o := Outcome(OK, true, 0, true, cut, incoming[at].index, |incoming| - at);
    }
  }

  /** The entries a proposal batch becomes after a log of `last` entries. */
  function Numbered(last: nat, term: nat, proposals: seq<(nat, seq<Byte>)>): (es: seq<Entry>)
    ensures |es| == |proposals|
    ensures forall i :: 0 <= i < |es| ==> es[i] == Entry(last + i + 1, term, proposals[i].0, proposals[i].1)
  {
    seq(|proposals|, i requires 0 <= i < |proposals| => Entry(last + i + 1, term, proposals[i].0, proposals[i].1))
  }
}
