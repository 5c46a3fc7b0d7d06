/**
 From a runtime's transaction to the state a reopened log recovers: what was
 written is what comes back.
 */
module WalRoundTrip {
  import opened RaftTypes
  import opened WalFormat
  import opened Wal
  import opened WalFiles
  import opened WalMeaning
  import opened WalStorage

  /** A transaction with a hard state, a truncation, entries and a commit index. */
  datatype Change = Change(term: U64, vote: U64, from: U64, entries: seq<Entry>, commit: U64)

  /** What a change makes of the durable state. */
  function Changed(r: Recovery, c: Change): (r': Recovery)
  {
    r.(term := c.term, votedFor := c.vote, commit := c.commit, entries := Below(r.entries, c.from) + c.entries)
  }

  /** The change takes nothing back and leaves a log without gaps that fits. */
  ghost predicate Applies(lim: Limits, r: Recovery, c: Change)
  {
    && r.term <= c.term && r.commit < c.from && r.snapIndex < c.from <= LastIndex(r) + 1
    && (forall k :: 0 <= k < |c.entries| ==>
         c.entries[k].index == c.from + k && c.entries[k].term != 0 && |c.entries[k].data| <= MAX_ENTRY_BYTES)
    && (c.entries != [] ==> c.from - 1 - r.snapIndex + |c.entries| <= lim.maxLog)
    && r.commit <= c.commit <= c.from - 1 + |c.entries|
  }

  /** Bytes of the change's frame. */
  function ChangeSize(c: Change): (n: nat)
  {
    FRAME_HEADER + 3 * OP_HEADER + 32 + AppendSize(c.entries)
  }

  lemma SimpleSizes(c: Change)
    ensures |Encode(HardState(c.term, c.vote))| == OP_HEADER + 16 && |Encode(Truncate(c.from))| == OP_HEADER + 8
    ensures |Encode(CommitIndex(c.commit))| == OP_HEADER + 8
  {
  }

  lemma CutLength(r: Recovery, from: nat)
    requires Numbered(r) && r.snapIndex < from <= LastIndex(r) + 1
    ensures |Below(r.entries, from)| == from - 1 - r.snapIndex
  {
    BelowIs(r.entries, r.snapIndex + 1, from);
  }

  /** The four operations of the change, in the order a runtime writes them. */
  method Write(s: Storage, c: Change) returns (status: Status)
    requires s.Valid() && !s.active && !s.faulted && forall i :: 0 <= i < |c.entries| ==> Word64(c.entries[i])
    modifies s
    ensures s.Valid() && s.image == old(s.image) && s.OnDisk() == old(s.OnDisk()) && s.lastTx == old(s.lastTx)
    ensures s.active && !s.Stuck() && !s.faulted
    ensures status == OK <==> Applies(s.lim, old(s.image), c) && ChangeSize(c) <= s.lim.capacity
    ensures status == OK ==>
      s.Pending() == Some(Changed(old(s.image), c)) && FRAME_HEADER + |s.transaction| == ChangeSize(c)
  {
    hide Backed, Encode, EncodeAll, ApplyAll, Apply, Below, AppendSize;
    s.ImageFacts();
    ghost var r := s.image;
    SimpleSizes(c);
    if r.snapIndex < c.from <= LastIndex(r) + 1 { CutLength(r, c.from); }
    status := s.Begin();
    status := s.WriteHardState(c.term, c.vote);
    if status != OK { return; }
    status := s.TruncateLog(c.from);
    if status != OK { return; }
    status := s.AppendLog(c.entries);
    if status != OK { return; }
    status := s.WriteCommitIndex(c.commit);
  }

  /**
   A whole transaction: it is durable exactly when it takes nothing back, leaves
   no gap and fits, and otherwise nothing has changed.
   */
  method Persist(s: Storage, c: Change) returns (status: Status)
    requires s.Valid() && !s.active && !s.faulted && forall i :: 0 <= i < |c.entries| ==> Word64(c.entries[i])
    modifies s
    ensures s.Valid() && !s.active && !s.faulted && s.files == old(s.files)
    ensures status == OK <==>
      Applies(s.lim, old(s.image), c) && ChangeSize(c) <= s.lim.capacity && old(s.Room(ChangeSize(c)))
    ensures status == OK ==> s.image == Changed(old(s.image), c)
    ensures status != OK ==> s.image == old(s.image) && s.OnDisk() == old(s.OnDisk())
    ensures s.Recoverable() <==> old(s.Recoverable())
  {
    hide Backed, Replay, Applies, Changed, ChangeSize, Grown;
    status := Write(s, c);
    if status == OK {
      status := s.Commit();
      if status == OK { return; }
    }
    var _ := s.Rollback();
  }

  /** Closing and opening again: the same durable state, read back from the disk. */
  method Reload(s: Storage) returns (s': Storage)
    requires s.Valid() && s.Recoverable() && !s.active
    ensures fresh(s') && s'.Valid() && s'.Recoverable() && !s'.active && !s'.faulted
    ensures s'.image == s.image && s'.durable == Summarize(s.image) && s'.lastTx == s.lastTx
    ensures s'.lim == s.lim && s'.h == s.h && s'.files == s.files
  {
    hide Backed, Replay;
    s.Recovers();
    s.ImageFacts();
    SettledReopens(s.lim, s.h, s.OnDisk(), Scan(s.image, s.lastTx, |s.segments[s.current]|));
    var d := Disk(s.segments, s.files, s.firstLive, s.current);
    var loaded := Load(s.lim, s.h, d);
    s' := new Storage.Reopen(s.lim, s.h, d, loaded.value);
  }

  /**
   Term, vote, entries and commit index of a transaction are exactly what a
   reopened log stands at, and a later transaction that repeats term and vote
   keeps them: a node cannot vote twice in a term across a restart.
   */
  method Survives(s: Storage, c: Change, later: Change) returns (first: Status, second: Status, s': Storage)
    requires s.Valid() && s.Recoverable() && !s.active && !s.faulted
    requires forall i :: 0 <= i < |c.entries| ==> Word64(c.entries[i])
    requires forall i :: 0 <= i < |later.entries| ==> Word64(later.entries[i])
    requires later.term == c.term && later.vote == c.vote
    modifies s
    ensures fresh(s') && s'.Valid() && s'.Recoverable()
    ensures first == OK ==> s'.durable.term == c.term && s'.durable.votedFor == c.vote
    ensures first == OK && second != OK ==> s'.image == Changed(old(s.image), c) && s'.durable.commit == c.commit
    ensures first == OK && second == OK ==> s'.image == Changed(Changed(old(s.image), c), later)
    ensures first != OK && second != OK ==> s'.image == old(s.image)
  {
    hide Backed, Replay, Applies, ChangeSize, Below;
    first := Persist(s, c);
    second := Persist(s, later);
    s' := Reload(s);
  }
}
