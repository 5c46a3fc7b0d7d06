/**
 The writer's own calls on a short input that loses the log: three entries,
 of which two are committed, and a snapshot at the first and then at the second.
 Both are stored, and after that nothing can be loaded any more.
 */
module SnapshotLoss {
  import opened RaftTypes
  import opened WalFormat
  import opened Wal
  import opened WalFiles
  import opened WalMeaning
  import opened WalStorage
  import C = Configuration

  const LIMITS := Limits(16, 1024, 4096, 65536, 8)
  const ALONE := C.Conf(C.PHASE_FINAL, 0, [C.Member(1, C.ROLE_VOTER)])
  const ENTRIES := [Entry(1, 1, 7, []), Entry(2, 1, 7, []), Entry(3, 1, 7, [])]
  const VOTED := EMPTY.(term := 1)
  const APPENDED := VOTED.(entries := ENTRIES)
  const LOGGED := APPENDED.(commit := 2)

  /** A request of the node itself, for a payload that is what it was declared to be. */
  function Ask(index: U64, p: Payload): (q: Request)
  {
    Request(1, index, 1, ALONE, p, p.digest, false)
  }

  lemma AloneValid()
    ensures C.Valid(ALONE)
  {
    assert ALONE.members[..0] == [];
  }

  lemma SmallOp(op: Op)
    requires Fits(op) && !op.Snapshot?
    ensures |Encode(op)| <= OP_HEADER + 32 + MAX_ENTRY_BYTES
  {
  }

  lemma {:induction false} SmallOps(ops: seq<Op>)
    requires forall op :: op in ops ==> Fits(op) && !op.Snapshot?
    ensures |EncodeAll(ops)| <= |ops| * (OP_HEADER + 32 + MAX_ENTRY_BYTES)
  {
    hide Encode, Fits;
    if ops != [] {
      SmallOps(ops[..|ops| - 1]);
      SmallOp(ops[|ops| - 1]);
    }
  }

  lemma EntriesSize()
    ensures AppendSize(ENTRIES) == 3 * (OP_HEADER + 32)
  {
    assert ENTRIES[1..][1..] == [ENTRIES[2]];
  }

  lemma SmallTransaction(s: Storage)
    requires s.Valid() && s.active && !s.Stuck() && |s.ops| <= 5
    ensures |s.transaction| <= 5 * (OP_HEADER + 32 + MAX_ENTRY_BYTES) && s.Pending().Some?
  {
    hide Backed, ApplyAll, EncodeAll, Fits;
    SmallOps(s.ops);
  }

  method WriteTerm(s: Storage)
    requires s.Valid() && !s.active && !s.faulted && s.lim == LIMITS && s.image == EMPTY && s.files == map[]
    modifies s
    ensures s.Valid() && s.active && s.ops == [HardState(1, 0)] && s.Pending() == Some(VOTED) && s.image == EMPTY
    ensures s.OnDisk() == old(s.OnDisk()) && s.lastTx == old(s.lastTx)
  {
    hide Encode, EncodeAll, ApplyAll, Apply, Replay, Backed;
    var status := s.Begin();
    SmallOp(HardState(1, 0));
    status := s.WriteHardState(1, 0);
  }

  method WriteEntries(s: Storage)
    requires s.Valid() && s.active && s.ops == [HardState(1, 0)] && s.Pending() == Some(VOTED) && s.lim == LIMITS
    modifies s
    ensures s.Valid() && s.active && !s.Stuck() && |s.ops| == 4 && s.Pending() == Some(APPENDED)
    ensures s.OnDisk() == old(s.OnDisk()) && s.lastTx == old(s.lastTx) && s.image == old(s.image)
  {
    hide Encode, EncodeAll, ApplyAll, Apply, Replay, Backed, AppendSize;
    SmallTransaction(s);
    EntriesSize();
    var status := s.AppendLog(ENTRIES);
    assert [] + ENTRIES == ENTRIES;
  }

  method CommitEntries(s: Storage)
    requires s.Valid() && s.active && !s.Stuck() && |s.ops| == 4 && s.Pending() == Some(APPENDED)
    requires s.image == EMPTY && s.files == map[] && s.lim == LIMITS && s.firstLive == s.current == 1 && s.lastTx == 0
    modifies s
    ensures s.Valid() && !s.active && !s.faulted && s.image == LOGGED && s.files == map[] && s.lastTx == 1
    ensures s.firstLive == old(s.firstLive) && s.current <= s.firstLive + 1
    ensures s.Recoverable() <==> old(s.Recoverable())
  {
    hide Encode, EncodeAll, ApplyAll, Apply, Replay, Backed;
    SmallTransaction(s);
    SmallOp(CommitIndex(2));
    var status := s.WriteCommitIndex(2);
    SmallTransaction(s);
    status := s.Commit();
  }

  /** The three entries and their commit index as one transaction. */
  method WriteLog(h: Hashes) returns (s: Storage)
    ensures fresh(s) && s.Valid() && s.Recoverable() && !s.active && !s.faulted && s.lim == LIMITS && s.h == h
    ensures s.image == LOGGED && s.files == map[] && s.lastTx == 1 && s.firstLive == 1 && s.current <= 2
  {
    hide Replay, Backed;
    s := new Storage.Create(LIMITS, h);
    WriteTerm(s);
    WriteEntries(s);
    CommitEntries(s);
  }

  /** The state after a snapshot at the index. */
  function Snapped(index: nat): (r: Recovery)
    requires 0 < index <= 2
  {
    LOGGED.(entries := ENTRIES[index..], snapIndex := index, snapTerm := 1, snapConf := Some(ALONE))
  }

  /** Each snapshot is one the log takes, and leaves entries behind it. */
  lemma Snaps(r: Recovery, index: U64, p: Payload, files: Files)
    requires 1 <= index <= 2 && r == (if index == 1 then LOGGED else Snapped(1))
    requires p.size <= LIMITS.maxSnapshot && Name(Ask(index, p)) in files && files[Name(Ask(index, p))] == p
    ensures Storable(r, Ask(index, p)) && Survivors(r, index, 1) == ENTRIES[index..]
    ensures Apply(LIMITS, files, r, Recorded(files, Summarize(r), Ask(index, p))) == Some(Snapped(index))
  {
    assert index == 2 ==> r.entries[1..] == ENTRIES[2..];
  }

  /** One of the two snapshots is stored. */
  method Snap(s: Storage, index: U64, p: Payload) returns (status: Status)
    requires s.Valid() && s.Recoverable() && !s.active && !s.faulted && s.lim == LIMITS && 1 <= index <= 2
    requires s.image == (if index == 1 then LOGGED else Snapped(1)) && (index as nat, 1) !in s.files
    requires s.lastTx == index && s.firstLive == 1 && s.current <= index + 1
    requires p.size <= LIMITS.maxSnapshot && |p.digest| == DIGEST_SIZE
    modifies s
    ensures s.Valid() && status == OK && !s.active && !s.faulted && s.image == Snapped(index)
    ensures s.lastTx == index + 1 && s.firstLive == 1 && s.current <= index + 2
    ensures index == 1 ==> s.files == old(s.files)[(1, 1) := p]
    ensures s.Recoverable() <==> index == 1
  {
    hide Replay, Backed, C.Valid, Apply, Survivors, Storable;
    AloneValid();
    Snaps(s.image, index, p, Staged(s.files, Ask(index, p)));
    status := s.StoreSnapshot(Ask(index, p));
  }

  /** Both snapshots are stored; the log does not replay after the second, so no further one is taken. */
  method LostLog(h: Hashes, p: Payload, next: Request) returns (s: Storage, stored: seq<Status>)
    requires p.size <= LIMITS.maxSnapshot && |p.digest| == DIGEST_SIZE && |next.declared| == DIGEST_SIZE
    ensures |stored| == 3 && stored[0] == stored[1] == OK && stored[2] != OK
    ensures s.Valid() && s.image == Snapped(2) && Replay(s.lim, s.h, s.OnDisk()).None?
  {
    hide Replay, Backed;
    s := WriteLog(h);
    var first := Snap(s, 1, p);
    var second := Snap(s, 2, p);
    var third := s.StoreSnapshot(next);
    stored := [first, second, third];
  }
}
