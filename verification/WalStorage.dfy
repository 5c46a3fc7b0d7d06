/**
 The transactional writer of the write-ahead log as the object it is in
 src/storage/raft_wal_storage.c.  The ghost field `image` is the durable state;
 every call keeps the writer's own fields equal to it, and whenever the disk
 replays at all it replays to it.  Whether it does is `Recoverable`: only a
 snapshot can end it, and StoreSnapshot says exactly when.
 */
module WalStorage {
  import opened RaftTypes
  import opened WalFormat
  import opened Wal
  import opened WalFiles
  import opened WalMeaning
  import C = Configuration

  const MIN_SEGMENT_BYTES: nat := 65536
  const MAX_LIVE_SEGMENTS: nat := 65535
  const INT_MAX: nat := 0x7FFF_FFFF

  /** The limits tr_raft_wal_storage_open accepts. */
  predicate Opens(lim: Limits)
  {
    && MIN_SEGMENT_BYTES <= lim.segmentBytes <= INT_MAX && 0 < lim.maxLive <= MAX_LIVE_SEGMENTS && lim.maxLog > 0
    && FRAME_HEADER <= lim.capacity && SEGMENT_HEADER + lim.capacity <= lim.segmentBytes
  }

  /** The fields the writer keeps of the durable state and of an open transaction. */
  datatype Summary = Summary(term: nat, votedFor: nat, commit: nat, last: nat)

  function Summarize(r: Recovery): (s: Summary)
  {
    Summary(r.term, r.votedFor, r.commit, LastIndex(r))
  }

  /** What opening relies on: the disk replays, and not to a transaction number whose own frame is torn. */
  predicate Reopenable(lim: Limits, h: Hashes, d: Disk, s: Scan)
  {
    && Opens(lim) && Replay(lim, h, d) == Some(s) && d.last <= U64_MAX
    && s.lastTx <= U64_MAX
    && s.rec.commit <= LastIndex(s.rec)
    && (s.used > SEGMENT_HEADER || d.first != d.last || s.lastTx == 0)
  }

  // ------------------------------------------------------ snapshot requests

  /** The arguments of tr_wal_persist_snapshot_source; `declared` is the digest the source claims for its data. */
  datatype Request = Request(
    leaderTerm: U64, index: U64, term: U64, conf: C.Conf, source: Payload, declared: seq<Byte>, remote: bool)

  predicate WellFormed(q: Request)
  {
    q.leaderTerm != 0 && q.index != 0 && q.term != 0 && q.term <= q.leaderTerm
  }

  /** When the log takes a snapshot: newer than the last, of the log's own history unless a leader sent it. */
  predicate Storable(r: Recovery, q: Request)
  {
    && q.index > r.snapIndex && q.leaderTerm >= r.term
    && if q.remote then q.index >= r.commit
       else q.index <= r.commit && q.index - r.snapIndex <= |r.entries| &&
            r.entries[q.index - r.snapIndex - 1].term == q.term
  }

  function Name(q: Request): (name: (nat, nat))
  {
    (q.index, q.term)
  }

  /** A file of that name must hold the declared data already; without one, the data must be what was declared. */
  predicate Writable(files: Files, q: Request)
  {
    if Name(q) in files then files[Name(q)].size == q.source.size && files[Name(q)].digest == q.declared
    else q.source.digest == q.declared
  }

  /** The payload files once the request's own is there. */
  function Staged(files: Files, q: Request): (files': Files)
    ensures Name(q) in files'
  {
    if Name(q) in files then files else files[Name(q) := q.source]
  }

  /** The payload files without the one of the previous snapshot. */
  function Unlink(files: Files, index: nat, term: nat): (rest: Files)
  {
    if index == 0 then files else files - {(index, term)}
  }

  /** The segments once those from first up to the target are removed. */
  function Without(segments: map<nat, seq<Byte>>, first: nat, target: nat): (left: map<nat, seq<Byte>>)
  {
    map n | n in segments && !(first <= n < target) :: segments[n]
  }

  /** The operation that records the request. */
  function Recorded(files: Files, durable: Summary, q: Request): (op: Op)
    requires Name(q) in files
  {
    Snapshot(q.leaderTerm, q.index, q.term, q.source.size, files[Name(q)].checksum,
             if q.remote then q.index else durable.commit,
             if q.leaderTerm > durable.term then 0 else durable.votedFor, q.conf, q.declared)
  }

  /** What a stored snapshot makes of the durable state. */
  ghost function Snapped(r: Recovery, q: Request): (r': Recovery)
  {
    Recovery(q.leaderTerm, if q.leaderTerm > r.term then 0 else r.votedFor, if q.remote then q.index else r.commit,
             if Holds(r, q.index, q.term) then Above(r.entries, q.index) else [], q.index, q.term, Some(q.conf))
  }

  /** A node's own snapshot ends at a committed entry of the log; one a leader sent may go beyond the log. */
  lemma StorableExact(r: Recovery, q: Request)
    requires Numbered(r)
    ensures Storable(r, q) <==>
      && q.index > r.snapIndex && q.leaderTerm >= r.term
      && (if q.remote then r.commit <= q.index else q.index <= r.commit && Holds(r, q.index, q.term))
  {
    if q.index > r.snapIndex && q.index - r.snapIndex <= |r.entries| {
      assert r.entries[q.index - r.snapIndex - 1].index == q.index;
    }
  }

  /** Bytes of the frame that records a snapshot. */
  function SnapshotSize(conf: C.Conf): (n: nat)
  {
    FRAME_HEADER + OP_HEADER + 64 + C.HEADER_SIZE + C.MEMBER_SIZE * |conf.members| + DIGEST_SIZE
  }

  class Storage {
    const lim: Limits
    const h: Hashes
    var segments: map<nat, seq<Byte>>
    var files: Files
    var firstLive: nat
    var current: nat
    var lastTx: nat
    var durable: Summary
    var pending: Summary
    var snapIndex: nat
    var snapTerm: nat
    var transaction: seq<Byte>
    var active: bool
    var faulted: bool
    ghost var image: Recovery
    ghost var ops: seq<Op>
    /** Every payload file the live log was written with. */
    ghost var written: Files

    ghost function OnDisk(): (d: Disk)
      reads this`segments, this`files, this`firstLive, this`current
    {
      Disk(segments, files, firstLive, current)
    }

    /** The disk as it is can be opened and loaded. */
    ghost predicate Recoverable()
      reads this`segments, this`files, this`firstLive, this`current
    {
      Replay(lim, h, OnDisk()).Some?
    }

    /** What the open transaction will leave when it commits. */
    ghost function Pending(): (r: Option<Recovery>)
      reads this`files, this`image, this`ops
    {
      ApplyAll(lim, files, image, ops)
    }

    ghost predicate MatchesImage()
      reads this`durable, this`image, this`snapIndex, this`snapTerm
    {
      durable == Summarize(image) && durable.commit <= durable.last && snapIndex == image.snapIndex &&
        snapTerm == image.snapTerm
    }

    /** The files that are gone belonged to older snapshots. */
    ghost predicate OlderGone()
      reads this`files, this`written, this`snapIndex
    {
      forall name :: name in written && name !in files ==> name.0 < snapIndex
    }

    ghost predicate Valid()
      reads this
    {
      && Opens(lim) && current in segments && lastTx <= U64_MAX && current <= U64_MAX
      && Backed(lim, h, OnDisk(), written, Scan(image, lastTx, |segments[current]|)) && OlderGone()
      && MatchesImage()
      && (active ==> !faulted && (Open() || Stuck()))
    }

    /**
     The open transaction is the encoding of operations that replay accepts, and
     the pending fields are its outcome.
     */
    ghost predicate Open()
      reads this`files, this`image, this`ops, this`transaction, this`pending
    {
      && (forall op :: op in ops ==> Fits(op) && !op.Snapshot?) && transaction == EncodeAll(ops)
      && FRAME_HEADER + |transaction| <= lim.capacity
      && Pending().Some? && Numbered(Pending().value)
      && Pending().value.snapIndex == image.snapIndex && Pending().value.snapTerm == image.snapTerm
      && pending == Summarize(Pending().value) && pending.commit <= pending.last
    }

    /** A snapshot that found no room was left in the transaction, which only a rollback ends. */
    ghost predicate Stuck()
      reads this`active, this`segments, this`firstLive, this`current, this`ops, this`transaction
    {
      && active && current in segments && ops != [] && ops[0].Snapshot?
      && FRAME_HEADER + |transaction| <= lim.capacity && !Room(FRAME_HEADER + |transaction|)
    }

    /** The operations buffered so far, and nothing on disk, change when a call is refused or accepted. */
    twostate predicate Buffered(op: Op)
      reads this
    {
      && ops == old(ops) + [op] && active && image == old(image) && OnDisk() == old(OnDisk()) && lastTx == old(lastTx)
      && faulted == old(faulted) && Fits(op) && transaction == old(transaction) + Encode(op)
    }

    /** The open transaction has room for the operation. */
    ghost predicate Takes(op: Op)
      reads this`transaction
      requires Fits(op)
    {
      FRAME_HEADER + |transaction| + |Encode(op)| <= lim.capacity
    }

    /** A frame of this size fits behind the current segment or into a next one. */
    predicate Room(size: nat)
      reads this`segments, this`firstLive, this`current
      requires current in segments
    {
      && SEGMENT_HEADER + size <= lim.segmentBytes
      && (|segments[current]| + size <= lim.segmentBytes ||
           (current < U64_MAX && current - firstLive + 1 < lim.maxLive))
    }

    /** There is a segment for a frame of its own. */
    predicate Alone()
      reads this`segments, this`current
      requires current in segments
    {
      |segments[current]| == SEGMENT_HEADER || current < U64_MAX
    }

    twostate predicate Untouched()
      reads this
    {
      && ops == old(ops) && transaction == old(transaction) && active == old(active) && image == old(image)
      && OnDisk() == old(OnDisk()) && lastTx == old(lastTx) && faulted == old(faulted)
    }

    /** Of the segments that were live only the current one is left, which is the live range by itself. */
    twostate predicate Compacted()
      reads this`segments, this`firstLive, this`current
    {
      && firstLive == current && current in segments && old(current) <= current <= old(current) + 1
      && segments == Without(old(segments), old(firstLive), current)[current := segments[current]]
    }

    /** A fresh log: one empty segment. */
    constructor Create(lim: Limits, h: Hashes)
      requires Opens(lim)
      ensures Valid() && Recoverable() && !active && !faulted && image == EMPTY && this.lim == lim && this.h == h
      ensures lastTx == 0 && files == map[] && firstLive == current == 1
    {
      this.lim, this.h := lim, h;
      segments, firstLive, current, lastTx := map[1 := SegmentStart(h, 1)], 1, 1, 0;
      durable, pending, snapIndex, snapTerm := Summary(0, 0, 0, 0), Summary(0, 0, 0, 0), 0, 0;
      transaction, active, faulted, files := [], false, false, map[];
      image, ops, written := EMPTY, [], map[];
      new;
      FreshLog(lim, h);
    }

    /**
     Reopening after any crash that replay accepts: the torn tail is cut off and
     the writer continues from what was recovered.
     */
    constructor Reopen(lim: Limits, h: Hashes, d: Disk, s: Scan)
      requires Reopenable(lim, h, d, s)
      ensures Valid() && Recoverable() && !active && !faulted && image == s.rec && lastTx == s.lastTx
      ensures this.lim == lim && this.h == h && files == d.files
    {
      TornTailCut(lim, h, d, s);
      this.lim, this.h := lim, h;
      segments := d.segments[d.last := d.segments[d.last][..s.used]];
      firstLive, current, lastTx := d.first, d.last, s.lastTx;
      durable, snapIndex, snapTerm := Summarize(s.rec), s.rec.snapIndex, s.rec.snapTerm;
      pending := Summary(0, 0, 0, 0);
      transaction, active, faulted, files := [], false, false, d.files;
      image, ops, written := s.rec, [], d.files;
    }

    /** A disk that replays at all replays to the durable state. */
    lemma Recovers()
      requires Valid() && Recoverable()
      ensures Replay(lim, h, OnDisk()) == Some(Scan(image, lastTx, |segments[current]|))
      ensures Settled(lim, h, OnDisk(), Scan(image, lastTx, |segments[current]|))
    {
      hide Replay, Backed, Open, Stuck, OlderGone;
      BackedSettles(lim, h, OnDisk(), written, Scan(image, lastTx, |segments[current]|));
    }

    /** tr_wal_begin */
    method Begin() returns (status: Status)
      requires Valid()
      modifies this`transaction, this`ops, this`pending, this`active
      ensures Valid() && image == old(image) && OnDisk() == old(OnDisk()) && lastTx == old(lastTx)
      ensures status == OK <==> !old(active) && !old(faulted)
      ensures status == OK ==> active && ops == [] && transaction == [] && Pending() == Some(image)
      ensures status != OK ==> Untouched()
    {
      hide Backed, OlderGone;
      ImageFacts();
      if faulted { return EIO; }
      if active { return EBUSY; }
      transaction, ops := [], [];
      pending := durable;
      active := true;
      return OK;
    }

    /** tr_wal_append_operation */
    method Buffer(op: Op) returns (status: Status)
      requires Valid() && Fits(op)
      modifies this`transaction, this`ops
      ensures status == if !active then EPROTO else if old(Takes(op)) then OK else ENOSPC
      ensures status == OK ==> Buffered(op)
      ensures status != OK ==> Untouched()
    {
      if !active || faulted { return EPROTO; }
      if FRAME_HEADER + |transaction| + |Encode(op)| > lim.capacity { return ENOSPC; }
      transaction := transaction + Encode(op);
      ops := ops + [op];
      return OK;
    }

    /** tr_wal_write_hard_state */
    method WriteHardState(t: U64, v: U64) returns (status: Status)
      requires Valid()
      modifies this
      ensures Valid()
      ensures !old(Stuck()) ==>
        (status == OK <==> old(active) && old(Pending()).value.term <= t && old(Takes(HardState(t, v))))
      ensures status == OK ==> old(active) && Buffered(HardState(t, v))
      ensures status == OK && !old(Stuck()) ==> Pending() == Some(old(Pending()).value.(term := t, votedFor := v))
      ensures status != OK ==> Untouched()
      ensures t < old(pending.term) ==> status == EINVAL
    {
      hide Backed, Open, EncodeAll, Encode, ApplyAll, OlderGone, Opens;
      OpenFacts();
      if t < pending.term { return EINVAL; }
      status := Buffer(HardState(t, v));
      if status == OK {
        pending := pending.(term := t, votedFor := v);
        if !old(Stuck()) { OpenGrows(HardState(t, v)); }
      }
    }

    /** tr_wal_truncate_log */
    method TruncateLog(from: U64) returns (status: Status)
      requires Valid()
      modifies this
      ensures Valid()
      ensures !old(Stuck()) ==>
        (status == OK <==>
         && old(active) && old(Takes(Truncate(from)))
         && (var r := old(Pending()).value; r.commit < from && r.snapIndex < from <= LastIndex(r) + 1))
      ensures status == OK ==> old(active) && Buffered(Truncate(from))
      ensures status == OK && !old(Stuck()) ==>
        Pending() == Some(old(Pending()).value.(entries := Below(old(Pending()).value.entries, from)))
      ensures status != OK ==> Untouched()
    {
      hide Backed, Open, EncodeAll, Encode, ApplyAll, OlderGone, Opens;
      OpenFacts();
      if active && !Stuck() { TruncateMeans(lim, files, Pending().value, from); }
      if from == 0 || from > pending.last + 1 || from <= pending.commit || from <= snapIndex { return EPROTO; }
      status := Buffer(Truncate(from));
      if status == OK {
        pending := pending.(last := from - 1);
        if !old(Stuck()) { OpenGrows(Truncate(from)); }
      }
    }

    /** One entry of tr_wal_append_log. */
    method AppendEntry(e: Entry) returns (status: Status)
      requires Valid() && Word64(e)
      modifies this
      ensures Valid()
      ensures !old(Stuck()) ==>
        (status == OK <==>
         && old(active) && |e.data| <= MAX_ENTRY_BYTES && Follows(lim, old(Pending()).value, [e])
         && FRAME_HEADER + |old(transaction)| + AppendSize([e]) <= lim.capacity)
      ensures status == OK ==>
        && old(active) && Buffered(Append(e)) && |transaction| == |old(transaction)| + AppendSize([e])
        && |e.data| <= MAX_ENTRY_BYTES
      ensures status == OK && !old(Stuck()) ==>
        Pending() == Some(old(Pending()).value.(entries := old(Pending()).value.entries + [e]))
      ensures status != OK ==> Untouched()
      ensures old(active) ==> Stuck() == old(Stuck())
    {
      hide Backed, Open, EncodeAll, Encode, ApplyAll, OlderGone, Opens;
      OpenFacts();
      if e.index != pending.last + 1 || e.term == 0 || |e.data| > MAX_ENTRY_BYTES ||
        pending.last - snapIndex >= lim.maxLog {
        return EPROTO;
      }
      EntrySize(e);
      status := Buffer(Append(e));
      if status == OK {
        pending := pending.(last := e.index);
        if !old(Stuck()) { OpenGrows(Append(e)); }
      }
    }

    /** tr_wal_append_log: stops at the first entry that does not follow on. */
    method AppendLog(entries: seq<Entry>) returns (status: Status)
      requires Valid()
      requires forall i :: 0 <= i < |entries| ==> Word64(entries[i])
      modifies this
      ensures Valid() && active == old(active) && image == old(image) && OnDisk() == old(OnDisk())
      ensures lastTx == old(lastTx)
      ensures exists k ::
        0 <= k <= |entries| && ops == old(ops) + Batch(entries[..k]) && (status == OK ==> k == |entries|)
      ensures !old(Stuck()) ==>
        (status == OK <==>
         || entries == []
         || (&& old(active) && (forall i :: 0 <= i < |entries| ==> |entries[i].data| <= MAX_ENTRY_BYTES)
             && Follows(lim, old(Pending()).value, entries)
             && FRAME_HEADER + |old(transaction)| + AppendSize(entries) <= lim.capacity))
      ensures status == OK && old(active) && !old(Stuck()) ==>
        Pending() == Some(old(Pending()).value.(entries := old(Pending()).value.entries + entries))
      ensures status == OK && old(active) ==> |transaction| == |old(transaction)| + AppendSize(entries)
      ensures old(active) ==> Stuck() == old(Stuck())
      ensures faulted == old(faulted)
    {
      hide Backed, Open, Stuck, EncodeAll, ApplyAll, Apply, AppendSize, MatchesImage, Batch;
      var i := 0;
      assert entries[..0] == [] && entries[0..] == entries;
      NoBatch(old(ops));
      if !active {
        if entries == [] { return OK; }
        NotStuck();
        status := AppendEntry(entries[0]);
        return;
      }
      ghost var free := !Stuck();
      OpenFacts();
      ghost var was := if free then Pending().value.entries else [];
      assert was + [] == was;
      while i < |entries|
        invariant i <= |entries| && forall j :: 0 <= j < i ==> |entries[j].data| <= MAX_ENTRY_BYTES
        invariant free ==> FRAME_HEADER + |transaction| <= lim.capacity && old(Pending()).Some?
        invariant free ==> Pending() == Some(old(Pending()).value.(entries := was + entries[..i]))
        invariant free && i > 0 ==> Follows(lim, old(Pending()).value, entries[..i])
        invariant |transaction| + AppendSize(entries[i..]) == |old(transaction)| + AppendSize(entries)
        invariant Valid() && active && image == old(image) && OnDisk() == old(OnDisk()) && free == !Stuck()
        invariant faulted == old(faulted)
        invariant lastTx == old(lastTx)
        invariant ops == old(ops) + Batch(entries[..i])
      {
        SizeHead(entries, i);
        if free { FollowsSnoc(lim, old(Pending()).value, entries, i); }
        status := AppendEntry(entries[i]);
        if status != OK { return; }
        OpenFacts();
        BatchSnoc(entries, i);
        assert was + entries[..i] + [entries[i]] == was + entries[..i + 1];
        i := i + 1;
      }
      assert entries[..i] == entries && entries[i..] == [];
      NoSize();
      return OK;
    }

    lemma OpenFacts()
      requires Valid()
      ensures active && !Stuck() ==>
        && Pending().Some? && pending == Summarize(Pending().value) && pending.commit <= pending.last
        && FRAME_HEADER + |transaction| <= lim.capacity && Open()
        && snapIndex == Pending().value.snapIndex && snapIndex <= pending.last && Numbered(Pending().value)
    {
      hide Backed, EncodeAll, ApplyAll;
    }

    /** One more operation that replay accepts keeps the transaction open. */
    twostate lemma OpenGrows(op: Op)
      requires old(Open()) && Fits(op) && !op.Snapshot? && image == old(image) && files == old(files)
      requires ops == old(ops) + [op] && transaction == old(transaction) + Encode(op)
      requires FRAME_HEADER + |transaction| <= lim.capacity
      requires var r := Apply(lim, files, old(Pending()).value, op);
        r.Some? && pending == Summarize(r.value) && pending.commit <= pending.last
      ensures Open() && Pending() == Apply(lim, files, old(Pending()).value, op) && !Stuck()
    {
      hide EncodeAll, Encode, ApplyAll;
      ExtendPending(lim, files, image, old(ops), op);
    }

    lemma NotStuck()
      requires !active
      ensures !Stuck()
    {
    }

    /** tr_wal_write_commit_index */
    method WriteCommitIndex(i: U64) returns (status: Status)
      requires Valid()
      modifies this
      ensures Valid()
      ensures !old(Stuck()) ==>
        (status == OK <==>
         && old(active) && old(Takes(CommitIndex(i)))
         && old(Pending()).value.commit <= i <= LastIndex(old(Pending()).value))
      ensures status == OK ==> old(active) && Buffered(CommitIndex(i))
      ensures status == OK && !old(Stuck()) ==> Pending() == Some(old(Pending()).value.(commit := i))
      ensures status != OK ==> Untouched()
    {
      hide Backed, Open, EncodeAll, Encode, ApplyAll, OlderGone, Opens;
      OpenFacts();
      if i < pending.commit || i > pending.last { return EPROTO; }
      status := Buffer(CommitIndex(i));
      if status == OK {
        pending := pending.(commit := i);
        if !old(Stuck()) { OpenGrows(CommitIndex(i)); }
      }
    }

    /** tr_wal_rollback: nothing of the transaction remains. */
    method Rollback() returns (status: Status)
      requires Valid()
      modifies this`active, this`transaction, this`ops
      ensures Valid() && !active && ops == [] && image == old(image) && OnDisk() == old(OnDisk())
      ensures lastTx == old(lastTx) && status == if faulted then EIO else OK
    {
      active := false;
      transaction, ops := [], [];
      return if faulted then EIO else OK;
    }

    /** Writes the frame of the open transaction, rotating when it does not fit. */
    method Publish(ghost r: Recovery) returns (status: Status)
      requires FRAME_HEADER + |transaction| <= lim.capacity <= U64_MAX && current in segments && lastTx <= U64_MAX
      requires Backed(lim, h, OnDisk(), written, Scan(image, lastTx, |segments[current]|))
      requires Room(FRAME_HEADER + |transaction|) ==> ApplyPayload(lim, files, image, transaction) == Some(r)
      modifies this`segments, this`current
      ensures status == if old(Room(FRAME_HEADER + |transaction|)) then OK else ENOSPC
      ensures status != OK ==> OnDisk() == old(OnDisk())
      ensures status == OK ==> current in segments && current <= old(current) + 1 && Grown(old(OnDisk()), OnDisk())
      ensures status == OK ==> Backed(lim, h, OnDisk(), written, Scan(r, Succ(lastTx), |segments[current]|))
      ensures Recoverable() <==> old(Recoverable())
    {
      hide Backed, Frame, ApplyPayload, SegmentStart, Replay, Grown;
      ghost var before := Scan(image, lastTx, |segments[current]|);
      BackedRange(lim, h, OnDisk(), written, before);
      var frame := Frame(h, Succ(lastTx), lastTx, transaction);
      if |frame| > lim.segmentBytes - SEGMENT_HEADER { return ENOSPC; }
      if |frame| > lim.segmentBytes - |segments[current]| {
        if current == U64_MAX || current - firstLive + 1 >= lim.maxLive { return ENOSPC; }
        CommitRotated(lim, h, OnDisk(), written, before, transaction, r);
        segments := segments[current + 1 := SegmentStart(h, current + 1) + frame];
        current := current + 1;
      } else {
        CommitInPlace(lim, h, OnDisk(), written, before, transaction, r);
        segments := segments[current := segments[current] + frame];
      }
      return OK;
    }

    /** The pending fields become the durable ones. */
    method Settle(ghost r: Recovery)
      requires Opens(lim) && lastTx <= U64_MAX && current in segments && current <= U64_MAX
      requires Backed(lim, h, OnDisk(), written, Scan(r, Succ(lastTx), |segments[current]|)) && OlderGone()
      requires pending == Summarize(r) && pending.commit <= pending.last && snapIndex == r.snapIndex
      requires snapTerm == r.snapTerm
      modifies this`lastTx, this`image, this`ops, this`durable, this`active, this`transaction
      ensures Valid() && !active && image == r && lastTx == Succ(old(lastTx))
    {
      hide Backed, Open, Stuck, OlderGone;
      lastTx := Succ(lastTx);
      image, ops := r, [];
      durable, active, transaction := pending, false, [];
    }

    /** tr_wal_commit: the outcome becomes durable, and the disk replays afterwards exactly when it did before. */
    method Commit() returns (status: Status)
      requires Valid()
      modifies this
      ensures Valid() && files == old(files) && faulted == old(faulted) && (Recoverable() <==> old(Recoverable()))
      ensures status ==
        if !old(active) then EINVAL else if old(Room(FRAME_HEADER + |transaction|)) then OK
          else ENOSPC
      ensures status == OK ==> !active && old(Pending()) == Some(image) && lastTx == Succ(old(lastTx))
      ensures status == OK ==> Grown(old(OnDisk()), OnDisk())
      ensures status != OK ==> Untouched()
    {
      hide Backed, EncodeAll, ApplyAll, Fits, ApplyPayload, Replay, Grown, OlderGone;
      if !active { return EINVAL; }
      ghost var r := image;
      if Room(FRAME_HEADER + |transaction|) {
        PendingPayload(lim, files, image, ops);
        r := Pending().value;
      }
      status := Publish(r);
      if status != OK { return; }
      BackedRange(lim, h, OnDisk(), written, Scan(r, Succ(lastTx), |segments[current]|));
      Settle(r);
    }

    /** The snapshot passes every test up to the writing of its payload file. */
    ghost predicate Accepts(q: Request)
      reads this`segments, this`files, this`firstLive, this`current, this`faulted, this`active, this`image
    {
      && WellFormed(q) && !faulted && !active && q.source.size <= lim.maxSnapshot && Recoverable()
      && Storable(image, q) && C.Valid(q.conf) && Writable(files, q)
    }

    /** No entry of the log stays behind the snapshot. */
    ghost predicate Covers(q: Request)
      reads this`image
      requires q.index > image.snapIndex
    {
      Survivors(image, q.index, q.term) == []
    }

    /** There is room to record the snapshot. */
    ghost predicate Recordable(q: Request)
      reads this`image, this`segments, this`firstLive, this`current
      requires q.index > image.snapIndex && current in segments
    {
      && SnapshotSize(q.conf) <= lim.capacity
      && if Covers(q) then Alone() else Room(SnapshotSize(q.conf))
    }

    /** The snapshot is larger than the transaction buffer, which is found out after a segment was begun for it. */
    ghost predicate Orphans(q: Request)
      reads this`image, this`segments, this`firstLive, this`current
      requires q.index > image.snapIndex && current in segments
    {
      && Covers(q) && |segments[current]| != SEGMENT_HEADER && current < U64_MAX
      && SnapshotSize(q.conf) > lim.capacity
    }

    /** The snapshot fits the transaction buffer but not the log, which is found out with the transaction open. */
    ghost predicate Jams(q: Request)
      reads this`image, this`segments, this`firstLive, this`current
      requires q.index > image.snapIndex && current in segments
    {
      && !Covers(q) && SnapshotSize(q.conf) <= lim.capacity && !Room(SnapshotSize(q.conf))
    }

    /** A checkpoint that found no place: begun for a frame larger than the transaction buffer, it ends the instance. */
    twostate predicate Overrun(size: nat)
      reads this`segments, this`firstLive, this`current, this`faulted
      requires old(current in segments)
    {
      && firstLive == old(firstLive) && current == old(current)
      && faulted == (size > lim.capacity && old(|segments[current]| != SEGMENT_HEADER && current < U64_MAX))
      && segments == if faulted then old(segments)[current + 1 := SegmentStart(h, current + 1)] else old(segments)
    }

    /**
     What a snapshot that was accepted but could not be recorded leaves behind: its
     payload file, and a segment outside the live range or an open transaction.
     */
    twostate predicate Dropped(q: Request)
      reads this
      requires old(q.index > image.snapIndex && current in segments)
    {
      && image == old(image) && lastTx == old(lastTx) && firstLive == old(firstLive) && current == old(current)
      && faulted == old(Orphans(q)) && active == old(Jams(q)) && (active ==> Stuck())
      && segments == (if old(Orphans(q)) then old(segments)[old(current) + 1 := SegmentStart(h, old(current) + 1)]
                      else old(segments))
    }

    /**
     tr_wal_persist_snapshot_source: the snapshot becomes one operation; when no
     entry survives behind it, it goes to a segment of its own and that segment
     becomes the whole log.  Afterwards the previous payload file is removed,
     although in the other case replay still asks for it.
     */
    method StoreSnapshot(q: Request) returns (status: Status)
      requires Valid() && |q.declared| == DIGEST_SIZE
      modifies this
      ensures Valid()
      ensures status == OK <==> old(Accepts(q)) && old(Recordable(q))
      ensures status == OK ==>
        var staged := Staged(old(files), q);
        && Apply(lim, staged, old(image), Recorded(staged, old(durable), q)) == Some(image)
        && files == Unlink(staged, old(snapIndex), old(snapTerm)) && !active && !faulted && lastTx == Succ(old(lastTx))
      ensures status == OK ==> image == Snapped(old(image), q)
      ensures status == OK ==> (Recoverable() <==> old(snapIndex) == 0 || old(Covers(q)))
      ensures status == OK && old(Covers(q)) ==> Compacted()
      ensures status == OK && !old(Covers(q)) ==> firstLive == old(firstLive) && current <= old(current) + 1
      ensures !old(Accepts(q)) ==> Untouched()
      ensures old(Accepts(q)) && status != OK ==>
        status == ENOSPC && Dropped(q) && files == Staged(old(files), q) && Recoverable()
    {
      hide Backed, Frame, ApplyPayload, Encode, Open, Apply, Replay, OlderGone, Survivors, SegmentStart, Room, Opens;
      hide C.Valid, Unlink, Stuck, MatchesImage, Snapped;
      if !WellFormed(q) { return EINVAL; }
      if faulted { return EIO; }
      if active { return EBUSY; }
      if q.source.size > lim.maxSnapshot { return ERANGE; }
      var loaded := Load(lim, h, Disk(segments, files, firstLive, current));
      if loaded.None? { return EPROTO; }
      Recovers();
      ImageFacts();
      var r := loaded.value.rec;
      if !Storable(r, q) { return EPROTO; }
      status := C.Validate(q.conf);
      if status != OK { return; }
      status := WriteFile(q);
      if status != OK { return; }
      status := Record(q, r);
    }

    /** The snapshot transaction, once the payload file is there, and the removal of the previous payload file. */
    method Record(q: Request, was: Recovery) returns (status: Status)
      requires was == image && Valid() && Recoverable() && !active && !faulted && WellFormed(q) && Storable(image, q)
      requires q.source.size <= lim.maxSnapshot && C.Valid(q.conf) && |q.declared| == DIGEST_SIZE
      requires Name(q) in files && files[Name(q)].size == q.source.size && files[Name(q)].digest == q.declared
      modifies this
      ensures Valid()
      ensures status == if old(Recordable(q)) then OK else ENOSPC
      ensures status == OK ==> Apply(lim, old(files), old(image), Recorded(old(files), old(durable), q)) == Some(image)
      ensures status == OK ==> image == Snapped(old(image), q)
      ensures status == OK ==> Adopted() && (Recoverable() <==> old(snapIndex) == 0 || old(Covers(q)))
      ensures status == OK && old(Covers(q)) ==> Compacted()
      ensures status == OK && !old(Covers(q)) ==> firstLive == old(firstLive) && current <= old(current) + 1
      ensures status != OK ==> Dropped(q) && files == old(files) && Recoverable()
    {
      hide Backed, ApplyPayload, Encode, Open, Apply, Replay, OlderGone, Survivors, SegmentStart, Room, Stuck;
      hide C.Valid, MatchesImage, Opens, Snapped;
      var op := Recorded(files, durable, q);
      ImageFacts();
      StorableApplies(lim, files, was, op, q);
      RecordedMeans(lim, files, was, q);
      RecordedSize(op);
      var r := Apply(lim, files, was, op).value;
      if r.entries == [] {
        status := WriteCheckpoint(op, r);
      } else {
        status := WriteBehind(op, r);
      }
    }

    lemma ImageFacts()
      requires Valid()
      ensures durable.votedFor <= U64_MAX && durable.commit <= U64_MAX && durable == Summarize(image)
      ensures snapIndex == image.snapIndex && snapTerm == image.snapTerm && image.commit <= LastIndex(image)
      ensures Numbered(image)
    {
      hide Replay, Open, Stuck, OlderGone, Within;
      ReplayLeft(lim, h, OnDisk().(files := written));
    }

    /** The next transaction is durable, and the previous payload file is gone. */
    twostate predicate Adopted()
      reads this
    {
      && !active && !faulted && lastTx == Succ(old(lastTx))
      && files == Unlink(old(files), old(snapIndex), old(snapTerm))
    }

    /** tr_wal_write_snapshot_source_file: the payload gets its file, unless it is there from an earlier attempt. */
    method WriteFile(q: Request) returns (status: Status)
      requires Valid() && !active && q.index > snapIndex
      modifies this`files, this`written
      ensures Valid() && (old(Recoverable()) ==> Recoverable())
      ensures status == if Writable(old(files), q) then OK else EPROTO
      ensures files == if status == OK then Staged(old(files), q) else old(files)
    {
      hide Backed, Open, Stuck, Replay;
      if !Writable(files, q) { return EPROTO; }
      if Name(q) !in files {
        FileAdded(lim, h, OnDisk(), written, Scan(image, lastTx, |segments[current]|), Name(q), q.source);
        files, written := files[Name(q) := q.source], written[Name(q) := q.source];
      }
      return OK;
    }

    /** A snapshot that covers the log. */
    method WriteCheckpoint(op: Op, r: Recovery) returns (status: Status)
      requires Valid() && Recoverable() && !active && !faulted && op.Snapshot? && Fits(op)
      requires Apply(lim, files, image, op) == Some(r) && r.snapIndex > image.snapIndex && r.commit <= LastIndex(r)
      requires op.commit == op.snapIndex && r.entries == []
      modifies this
      ensures Valid() && Recoverable()
      ensures status == if FRAME_HEADER + |Encode(op)| <= lim.capacity && old(Alone()) then OK else ENOSPC
      ensures status == OK ==> Adopted() && image == r && Compacted()
      ensures status != OK ==> Overrun(FRAME_HEADER + |Encode(op)|)
      ensures status != OK ==> !active && files == old(files) && image == old(image) && lastTx == old(lastTx)
    {
      hide Backed, Encode, Open, Apply, Replay, OlderGone, Unlink, Present, SegmentStart, MatchesImage, Opens, Fits;
      hide Stuck, Compacted, Overrun, Alone, Summarize;
      ImageFacts();
      var rest := Unlink(files, snapIndex, snapTerm);
      PresentStays(lim, files, image, op);
      status := Checkpoint(op, r, rest);
      if status == OK { Adopt(r, rest); }
    }

    /** A snapshot behind which entries survive. */
    method WriteBehind(op: Op, r: Recovery) returns (status: Status)
      requires Valid() && Recoverable() && !active && !faulted && op.Snapshot? && Fits(op)
      requires Apply(lim, files, image, op) == Some(r) && r.snapIndex > image.snapIndex && r.commit <= LastIndex(r)
      modifies this
      ensures Valid() && !faulted
      ensures var size := FRAME_HEADER + |Encode(op)|;
        && status == (if size <= lim.capacity && old(Room(size)) then OK else ENOSPC)
        && (status != OK ==> active == (size <= lim.capacity) && (active ==> Stuck()))
      ensures status == OK ==> Adopted() && image == r && firstLive == old(firstLive) && current <= old(current) + 1
      ensures status == OK ==> (Recoverable() <==> old(snapIndex) == 0)
      ensures status != OK ==> Recoverable() && OnDisk() == old(OnDisk())
      ensures status != OK ==> image == old(image) && lastTx == old(lastTx)
    {
      hide Backed, Encode, Open, Apply, Replay, OlderGone, Unlink, MatchesImage, Opens, Room, Stuck, Fits;
      ImageFacts();
      var rest := Unlink(files, snapIndex, snapTerm);
      status := PublishSnapshot(op, r, rest);
      if status == OK { Adopt(r, rest); }
    }

    /** The snapshot is on disk and becomes the writer's state; the previous payload file goes. */
    method Adopt(r: Recovery, rest: Files)
      requires Opens(lim) && lastTx <= U64_MAX && current in segments && OlderGone()
      requires Backed(lim, h, OnDisk(), written, Scan(r, Succ(lastTx), |segments[current]|)) && r.commit <= LastIndex(r)
      requires snapIndex < r.snapIndex && rest == Unlink(files, snapIndex, snapTerm)
      modifies this`snapIndex, this`snapTerm, this`pending, this`files
      modifies this`lastTx, this`image, this`ops, this`durable, this`active, this`transaction
      ensures Valid() && !active && image == r && lastTx == Succ(old(lastTx)) && files == rest
    {
      hide Settled, Open, Stuck;
      BackedRange(lim, h, OnDisk(), written, Scan(r, Succ(lastTx), |segments[current]|));
      snapIndex, snapTerm, pending, files := r.snapIndex, r.snapTerm, Summarize(r), rest;
      Settle(r);
    }

    /** A transaction that holds just the snapshot. */
    method BeginSnapshot(op: Op, r: Recovery) returns (status: Status)
      requires Valid() && !active && !faulted && op.Snapshot? && Fits(op)
      modifies this`transaction, this`active, this`ops, this`pending
      ensures status == if FRAME_HEADER + |Encode(op)| <= lim.capacity then OK else ENOSPC
      ensures status == OK ==> active && ops == [op] && transaction == Encode(op)
      ensures status != OK ==> !active && Valid()
    {
      hide Backed, Encode, Open, Apply, OlderGone;
      status := Begin();
      status := Buffer(op);
      if status != OK {
        var _ := Rollback();
        return;
      }
      pending := Summarize(r);
      assert [] + Encode(op) == Encode(op) && [] + [op] == [op];
    }

    /** The snapshot as one more frame of the live log, which keeps asking for the previous payload file. */
    method PublishSnapshot(op: Op, r: Recovery, ghost rest: Files) returns (status: Status)
      requires Valid() && Recoverable() && !active && !faulted && op.Snapshot? && Fits(op)
      requires Apply(lim, files, image, op) == Some(r)
      requires rest == Unlink(files, snapIndex, snapTerm)
      modifies this`segments, this`current, this`transaction, this`active, this`ops, this`pending
      ensures var size := FRAME_HEADER + |Encode(op)|;
        && status == (if size <= lim.capacity && old(Room(size)) then OK else ENOSPC)
        && (status != OK ==> active == (size <= lim.capacity) && (active ==> Stuck()))
      ensures status != OK ==> Valid() && OnDisk() == old(OnDisk())
      ensures status == OK ==> current in segments && current <= old(current) + 1
      ensures status == OK ==> Backed(lim, h, OnDisk(), written, Scan(r, Succ(lastTx), |segments[current]|))
      ensures status == OK ==> (Replay(lim, h, OnDisk().(files := rest)).Some? <==> snapIndex == 0)
    {
      hide Backed, Frame, ApplyPayload, Encode, Open, Apply, Replay, OlderGone, Grown, Present, Fits, Settled;
      Recovers();
      status := BeginSnapshot(op, r);
      if status != OK { return; }
      CheckpointPayload(lim, files, image, op);
      status := Publish(r);
      if status == OK && snapIndex != 0 {
        FileLost(lim, h, old(OnDisk()), OnDisk(), old(Scan(image, lastTx, |segments[current]|)), rest);
      }
    }

    /** The snapshot frame alone in a segment that becomes the live range. */
    method Checkpoint(op: Op, ghost r: Recovery, ghost rest: Files) returns (status: Status)
      requires Valid() && Recoverable() && !active && !faulted && op.Snapshot? && Fits(op)
      requires op.commit == op.snapIndex && Apply(lim, files, image, op) == Some(r) && r.entries == []
      requires Present(rest, op)
      modifies this`segments, this`current, this`firstLive, this`faulted
      ensures status == if FRAME_HEADER + |Encode(op)| <= lim.capacity && old(Alone()) then OK else ENOSPC
      ensures status != OK ==> Valid() && Recoverable() && Overrun(FRAME_HEADER + |Encode(op)|)
      ensures status == OK ==> !faulted
      ensures status == OK ==> current in segments && current <= U64_MAX && Compacted()
      ensures status == OK ==> Backed(lim, h, OnDisk(), written, Scan(r, Succ(lastTx), |segments[current]|))
      ensures status == OK ==> Replay(lim, h, OnDisk().(files := rest)).Some?
    {
      hide Backed, Encode, Apply, SegmentStart, Present, Replay, OlderGone, Open, MatchesImage, Opens;
      if |segments[current]| != SEGMENT_HEADER && current == U64_MAX { return ENOSPC; }
      if FRAME_HEADER + |Encode(op)| > lim.capacity {
        if |segments[current]| != SEGMENT_HEADER { Abandon(); }
        return ENOSPC;
      }
      Replace(op, r, rest);
      return OK;
    }

    /** A segment was begun outside the live range, and this instance writes no more. */
    method Abandon()
      requires Valid() && !active
      modifies this`segments, this`faulted
      ensures Valid() && (Recoverable() <==> old(Recoverable())) && faulted
      ensures segments == old(segments)[current + 1 := SegmentStart(h, current + 1)]
    {
      hide Backed, SegmentStart, Replay, OlderGone, Open, MatchesImage, Opens;
      OrphanBacked(lim, h, OnDisk(), written, Scan(image, lastTx, |segments[current]|));
      segments, faulted := segments[current + 1 := SegmentStart(h, current + 1)], true;
    }

    /** The frame is written, the manifest moves to its segment and the other segments go. */
    method Replace(op: Op, ghost r: Recovery, ghost rest: Files)
      requires Valid() && op.Snapshot? && Fits(op) && Present(rest, op) && Alone()
      requires op.commit == op.snapIndex && Apply(lim, files, image, op) == Some(r) && r.entries == []
      requires FRAME_HEADER + |Encode(op)| <= lim.capacity
      modifies this`segments, this`current, this`firstLive
      ensures current in segments && current <= U64_MAX && Compacted()
      ensures Backed(lim, h, OnDisk(), written, Scan(r, Succ(lastTx), |segments[current]|))
      ensures Replay(lim, h, OnDisk().(files := rest)).Some?
    {
      hide Backed, Frame, ApplyPayload, Encode, Apply, SegmentStart, GoodStart, Present, Replay, OlderGone, Settled;
      hide Within, Open, MatchesImage;
      ghost var s := Scan(image, lastTx, |segments[current]|);
      BackedRange(lim, h, OnDisk(), written, s);
      var target := if |segments[current]| == SEGMENT_HEADER then current else current + 1;
      var start := if target == current then segments[current] else SegmentStart(h, target);
      var frame := Frame(h, Succ(lastTx), lastTx, Encode(op));
      CheckpointPayload(lim, files, image, op);
      BackedParts(lim, h, OnDisk(), written, s);
      CheckpointStart(lim, h, OnDisk().(files := written), s, target, start);
      segments := Without(segments, firstLive, target)[target := start + frame];
      CheckpointBacked(lim, files, rest, written, h, op, start, target, s, r, segments);
      firstLive, current := target, target;
    }
  }

  lemma ExtendPending(lim: Limits, files: Files, image: Recovery, ops: seq<Op>, op: Op)
    requires ApplyAll(lim, files, image, ops).Some? && Fits(op) && forall o :: o in ops ==> Fits(o)
    ensures ApplyAll(lim, files, image, ops + [op]) == Apply(lim, files, ApplyAll(lim, files, image, ops).value, op)
    ensures EncodeAll(ops + [op]) == EncodeAll(ops) + Encode(op)
  {
    ApplyAllSnoc(lim, files, image, ops, op);
    assert (ops + [op])[..|ops|] == ops;
  }

  lemma PendingPayload(lim: Limits, files: Files, image: Recovery, ops: seq<Op>)
    requires forall op :: op in ops ==> Fits(op)
    ensures ApplyPayload(lim, files, image, EncodeAll(ops)) == ApplyAll(lim, files, image, ops)
  {
    PayloadRoundTrip(lim, files, image, ops);
  }

  /** A frame written behind the last segment; missing files stay missed. */
  lemma CommitInPlace(lim: Limits, h: Hashes, d: Disk, more: Files, s: Scan, payload: seq<Byte>, r: Recovery)
    requires Backed(lim, h, d, more, s) && s.lastTx <= U64_MAX && |payload| + FRAME_HEADER <= lim.capacity <= U64_MAX
    requires ApplyPayload(lim, d.files, s.rec, payload) == Some(r)
    requires s.used + FRAME_HEADER + |payload| <= lim.segmentBytes
    ensures var b := d.segments[d.last] + Frame(h, Succ(s.lastTx), s.lastTx, payload);
      var d' := d.(segments := d.segments[d.last := b]);
      && Backed(lim, h, d', more, Scan(r, Succ(s.lastTx), |b|)) && Grown(d, d')
      && (Replay(lim, h, d').Some? <==> Replay(lim, h, d).Some?)
  {
    hide Frame, Replay, ApplyPayload, Within;
    var f := Frame(h, Succ(s.lastTx), s.lastTx, payload);
    PayloadMore(lim, d.files, more, s.rec, payload);
    RangeValid(lim, h, d.(files := more));
    CommitAtomic(lim, h, d.(files := more), s, payload, |f|);
    assert f[..|f|] == f;
    if Replay(lim, h, d).Some? {
      BackedSettles(lim, h, d, more, s);
      CommitAtomic(lim, h, d, s, payload, |f|);
    } else {
      RefusedStays(lim, h, d, Written(d, f, |f|), more, s);
    }
  }

  lemma CommitRotated(lim: Limits, h: Hashes, d: Disk, more: Files, s: Scan, payload: seq<Byte>, r: Recovery)
    requires Backed(lim, h, d, more, s) && s.lastTx <= U64_MAX && |payload| + FRAME_HEADER <= lim.capacity <= U64_MAX
    requires ApplyPayload(lim, d.files, s.rec, payload) == Some(r)
    requires SEGMENT_HEADER + FRAME_HEADER + |payload| <= lim.segmentBytes
    requires LiveRange(lim, d.first, d.last + 1) && d.last < U64_MAX
    ensures var b := SegmentStart(h, d.last + 1) + Frame(h, Succ(s.lastTx), s.lastTx, payload);
      var d' := Disk(d.segments[d.last + 1 := b], d.files, d.first, d.last + 1);
      && Backed(lim, h, d', more, Scan(r, Succ(s.lastTx), |b|)) && Grown(d, d')
      && (Replay(lim, h, d').Some? <==> Replay(lim, h, d).Some?)
  {
    hide Frame, Replay, ApplyPayload, SegmentStart, Within;
    var f := Frame(h, Succ(s.lastTx), s.lastTx, payload);
    var b := SegmentStart(h, d.last + 1) + f;
    var d' := Disk(d.segments[d.last + 1 := b], d.files, d.first, d.last + 1);
    assert f[..|f|] == f;
    assert Rotating(h, d, f, |f|).(last := d.last + 1) == d';
    PayloadMore(lim, d.files, more, s.rec, payload);
    RotationAtomic(lim, h, d.(files := more), s, payload, |f|);
    RangeValid(lim, h, d.(files := more));
    if Replay(lim, h, d).Some? {
      BackedSettles(lim, h, d, more, s);
      RotationAtomic(lim, h, d, s, payload, |f|);
    } else {
      RefusedStays(lim, h, d, d', more, s);
    }
  }

  lemma RangeValid(lim: Limits, h: Hashes, d: Disk)
    requires Replay(lim, h, d).Some?
    ensures LiveRange(lim, d.first, d.last)
  {
  }

  lemma BackedRange(lim: Limits, h: Hashes, d: Disk, more: Files, s: Scan)
    requires Backed(lim, h, d, more, s)
    ensures LiveRange(lim, d.first, d.last) && d.last <= U64_MAX
    ensures d.last in d.segments && |d.segments[d.last]| <= lim.segmentBytes
  {
  }

  lemma BackedParts(lim: Limits, h: Hashes, d: Disk, more: Files, s: Scan)
    requires Backed(lim, h, d, more, s)
    ensures Within(d.files, more) && Settled(lim, h, d.(files := more), s)
  {
  }

  /** The file of a new snapshot is not the one that goes. */
  lemma PresentStays(lim: Limits, files: Files, r: Recovery, op: Op)
    requires op.Snapshot? && Apply(lim, files, r, op).Some?
    ensures Present(Unlink(files, r.snapIndex, r.snapTerm), op)
  {
  }

  /** A payload file that is not there yet can be written at any time. */
  lemma FileAdded(lim: Limits, h: Hashes, d: Disk, more: Files, s: Scan, name: (nat, nat), p: Payload)
    requires Backed(lim, h, d, more, s) && name !in more
    ensures Backed(lim, h, d.(files := d.files[name := p]), more[name := p], s)
    ensures Replay(lim, h, d).Some? ==> Replay(lim, h, d.(files := d.files[name := p])).Some?
  {
    hide Replay;
    ReplayMore(lim, h, d.(files := more), more[name := p]);
    if Replay(lim, h, d).Some? { ReplayMore(lim, h, d, d.files[name := p]); }
  }

  /** A segment begun outside the live range changes nothing. */
  lemma OrphanBacked(lim: Limits, h: Hashes, d: Disk, more: Files, s: Scan)
    requires Backed(lim, h, d, more, s)
    ensures var d' := d.(segments := d.segments[d.last + 1 := SegmentStart(h, d.last + 1)]);
      Backed(lim, h, d', more, s) && Replay(lim, h, d') == Replay(lim, h, d)
  {
    hide Replay, SegmentStart, Within;
    OrphanIgnored(lim, h, d, [], 0);
    OrphanIgnored(lim, h, d.(files := more), [], 0);
    assert SegmentStart(h, d.last + 1) + [][..0] == SegmentStart(h, d.last + 1);
  }

  /**
   A snapshot written behind an earlier one, whose payload file is then removed:
   the log does not replay any more.
   */
  lemma FileLost(lim: Limits, h: Hashes, d: Disk, d': Disk, s: Scan, rest: Files)
    requires Settled(lim, h, d, s) && Grown(d, d') && s.rec.snapIndex != 0
    requires rest == Unlink(d.files, s.rec.snapIndex, s.rec.snapTerm)
    ensures Replay(lim, h, d'.(files := rest)).None?
  {
    hide Replay;
    Unlinked(lim, h, d, rest);
    RefusedStays(lim, h, d.(files := rest), d'.(files := rest), d.files, s);
  }

  lemma SettledLast(lim: Limits, h: Hashes, d: Disk, s: Scan)
    requires Settled(lim, h, d, s)
    ensures d.last <= U64_MAX && d.last in d.segments
  {
  }

  /** The entry's fields are 64-bit words, as they are in the source. */
  predicate Word64(e: Entry)
  {
    e.index <= U64_MAX && e.term <= U64_MAX && e.command <= U64_MAX
  }

  /** Bytes that appending these entries adds to a transaction. */
  function AppendSize(entries: seq<Entry>): (n: nat)
  {
    if entries == [] then 0 else OP_HEADER + 32 + |entries[0].data| + AppendSize(entries[1..])
  }

  lemma EntrySize(e: Entry)
    requires Fits(Append(e))
    ensures |Encode(Append(e))| == AppendSize([e])
  {
  }

  lemma BatchSnoc(entries: seq<Entry>, i: nat)
    requires i < |entries|
    ensures Batch(entries[..i + 1]) == Batch(entries[..i]) + [Append(entries[i])]
  {
    assert entries[..i + 1] == entries[..i] + [entries[i]];
  }

  lemma NoBatch(ops: seq<Op>)
    ensures ops + Batch([]) == ops
  {
  }

  lemma NoSize()
    ensures AppendSize([]) == 0
  {
  }

  lemma SizeHead(entries: seq<Entry>, i: nat)
    requires i < |entries|
    ensures AppendSize(entries[i..]) == AppendSize([entries[i]]) + AppendSize(entries[i + 1..])
  {
    var rest := entries[i..];
    assert rest[1..] == entries[i + 1..] && rest[0] == entries[i];
    assert AppendSize([entries[i]]) == OP_HEADER + 32 + |entries[i].data|;
  }

  /** A batch follows the log when its first entries do and the next one follows those. */
  lemma FollowsSnoc(lim: Limits, r: Recovery, entries: seq<Entry>, i: nat)
    requires i < |entries| && (i > 0 ==> Follows(lim, r, entries[..i]))
    ensures var r1 := r.(entries := r.entries + entries[..i]);
      && (Follows(lim, r1, [entries[i]]) ==> Follows(lim, r, entries[..i + 1]))
      && (Follows(lim, r, entries) ==> Follows(lim, r1, [entries[i]]))
  {
    var r1, next, one := r.(entries := r.entries + entries[..i]), entries[..i + 1], [entries[i]];
    if Follows(lim, r1, one) {
      forall k | 0 <= k < |next| ensures next[k].index == LastIndex(r) + k + 1 && next[k].term != 0 {
        if k < i { assert entries[..i][k].index == LastIndex(r) + k + 1; }
        else { assert one[0].index == LastIndex(r1) + 0 + 1; }
      }
    }
  }

  lemma FreshLog(lim: Limits, h: Hashes)
    requires lim.maxLive > 0 && SEGMENT_HEADER <= lim.segmentBytes
    ensures Settled(lim, h, Disk(map[1 := SegmentStart(h, 1)], map[], 1, 1), Scan(EMPTY, 0, SEGMENT_HEADER))
  {
    var b := SegmentStart(h, 1);
    StartIsGood(h, 1, []);
    assert b + [] == b && b[SEGMENT_HEADER..] == [];
  }

  /** Cutting the segment at what replay accepted leaves a settled log. */
  lemma TornTailCut(lim: Limits, h: Hashes, d: Disk, s: Scan)
    requires Replay(lim, h, d) == Some(s) && d.last <= U64_MAX
    requires s.used > SEGMENT_HEADER || d.first != d.last || s.lastTx == 0
    ensures s.used <= |d.segments[d.last]|
    ensures Settled(lim, h, d.(segments := d.segments[d.last := d.segments[d.last][..s.used]]), s)
  {
    hide ReplayFrames, GoodStart;
    var b := d.segments[d.last];
    var s0 := Through(lim, d.files, h, d.segments, d.first, d.last).value.(used := SEGMENT_HEADER);
    var first := d.last == d.first;
    ReplayTruncated(lim, d.files, h, b[SEGMENT_HEADER..], first, true, s0);
    var c := b[..s.used];
    assert c[..SEGMENT_HEADER] == b[..SEGMENT_HEADER];
    StartStays(h, b, c, d.last);
    assert c[SEGMENT_HEADER..] == b[SEGMENT_HEADER..][..s.used - SEGMENT_HEADER];
    ThroughLocal(lim, d.files, h, d.segments, d.segments[d.last := c], d.first, d.last);
  }

  lemma StorableApplies(lim: Limits, files: Files, r: Recovery, op: Op, q: Request)
    requires WellFormed(q) && Storable(r, q) && r.commit <= LastIndex(r) && q.source.size <= lim.maxSnapshot
    requires Name(q) in files && files[Name(q)].size == q.source.size && files[Name(q)].digest == q.declared
    requires op == Recorded(files, Summarize(r), q)
    ensures Apply(lim, files, r, op).Some?
    ensures var r' := Apply(lim, files, r, op).value;
      && r'.snapIndex == op.snapIndex && r'.snapTerm == op.snapTerm && r'.commit <= LastIndex(r')
      && r'.entries == Survivors(r, q.index, q.term) && (r'.entries == [] ==> op.commit == op.snapIndex)
  {
  }

  lemma RecordedMeans(lim: Limits, files: Files, r: Recovery, q: Request)
    requires Numbered(r) && Name(q) in files && q.index > r.snapIndex
    requires Apply(lim, files, r, Recorded(files, Summarize(r), q)).Some?
    ensures Apply(lim, files, r, Recorded(files, Summarize(r), q)) == Some(Snapped(r, q))
  {
    SurvivorsMean(r, q.index, q.term);
  }

  lemma RecordedSize(op: Op)
    requires op.Snapshot? && Fits(op) && |op.digest| == DIGEST_SIZE
    ensures FRAME_HEADER + |Encode(op)| == SnapshotSize(op.conf)
  {
  }

  lemma SettledReplay(lim: Limits, h: Hashes, d: Disk, s: Scan)
    requires Settled(lim, h, d, s)
    ensures Replay(lim, h, d) == Some(s)
  {
  }

  lemma CheckpointStart(lim: Limits, h: Hashes, d: Disk, s: Scan, target: nat, start: seq<Byte>)
    requires Settled(lim, h, d, s) && target <= U64_MAX
    requires if target == d.last then start == d.segments[d.last] else start == SegmentStart(h, target)
    ensures GoodStart(h, start, target)
  {
    if target != d.last {
      StartIsGood(h, target, []);
      assert start + [] == start;
    }
  }

  lemma CheckpointSettled(lim: Limits, files: Files, kept: Files, h: Hashes, op: Op, start: seq<Byte>, seqNo: nat,
                          s: Scan, r: Recovery)
    requires Fits(op) && NextFrame(lim, files, s, Encode(op)) && |start| == SEGMENT_HEADER
    requires GoodStart(h, start, seqNo) && 0 < seqNo <= U64_MAX && lim.maxLive > 0
    requires op.Snapshot? && Present(kept, op)
    requires op.commit == op.snapIndex && Apply(lim, files, s.rec, op) == Some(r) && r.entries == []
    requires SEGMENT_HEADER + FRAME_HEADER + |Encode(op)| <= lim.segmentBytes
    ensures var b := start + Frame(h, Succ(s.lastTx), s.lastTx, Encode(op));
      Settled(lim, h, Disk(map[seqNo := b], kept, seqNo, seqNo), Scan(r, Succ(s.lastTx), |b|))
  {
    hide Frame, NextFrame, ReplaySegment, Encode, Apply, Present;
    CheckpointSegment(lim, files, kept, h, op, start, seqNo, s);
  }

  /** The same for the writer: the checkpoint needs no other segment, and no payload file but its own. */
  lemma CheckpointBacked(lim: Limits, files: Files, rest: Files, more: Files, h: Hashes, op: Op, start: seq<Byte>,
                         seqNo: nat, s: Scan, r: Recovery, left: map<nat, seq<Byte>>)
    requires Fits(op) && NextFrame(lim, files, s, Encode(op)) && |start| == SEGMENT_HEADER
    requires GoodStart(h, start, seqNo) && 0 < seqNo <= U64_MAX && lim.maxLive > 0
    requires op.Snapshot? && op.commit == op.snapIndex && Apply(lim, files, s.rec, op) == Some(r) && r.entries == []
    requires SEGMENT_HEADER + FRAME_HEADER + |Encode(op)| <= lim.segmentBytes
    requires Present(rest, op) && Within(files, more)
    requires seqNo in left && left[seqNo] == start + Frame(h, Succ(s.lastTx), s.lastTx, Encode(op))
    ensures Backed(lim, h, Disk(left, files, seqNo, seqNo), more, Scan(r, Succ(s.lastTx), |left[seqNo]|))
    ensures Replay(lim, h, Disk(left, rest, seqNo, seqNo)).Some?
  {
    hide Frame, NextFrame, Encode, Replay;
    var b := left[seqNo];
    CheckpointSettled(lim, files, rest, h, op, start, seqNo, s, r);
    CheckpointSettled(lim, files, more, h, op, start, seqNo, s, r);
    SingleSegment(lim, h, left, map[seqNo := b], rest, seqNo);
    SingleSegment(lim, h, left, map[seqNo := b], more, seqNo);
  }

  // -------------------------------------------------- reopening after a crash

  lemma SettledUsed(lim: Limits, h: Hashes, d: Disk, s: Scan)
    requires Settled(lim, h, d, s)
    ensures s.used >= SEGMENT_HEADER
  {
    hide ReplayFrames, GoodStart;
  }

  /** A disk with nothing torn can be reopened. */
  lemma SettledReopens(lim: Limits, h: Hashes, d: Disk, s: Scan)
    requires Settled(lim, h, d, s) && Opens(lim) && s.lastTx <= U64_MAX
    requires s.rec.commit <= LastIndex(s.rec)
    ensures Reopenable(lim, h, d, s)
  {
    SettledUsed(lim, h, d, s);
    SettledLast(lim, h, d, s);
    SettledReplay(lim, h, d, s);
    if d.first == d.last && s.used == SEGMENT_HEADER { EmptyLogStarts(lim, h, d, s); }
  }

  /** The durable state of a writer and the transaction it is about to write. */
  predicate Committing(lim: Limits, h: Hashes, d: Disk, s: Scan, payload: seq<Byte>, r: Recovery)
  {
    && Opens(lim) && Settled(lim, h, d, s) && ApplyPayload(lim, d.files, s.rec, payload) == Some(r)
    && |payload| + FRAME_HEADER <= lim.capacity
    && s.lastTx <= U64_MAX && s.rec.commit <= LastIndex(s.rec) && r.commit <= LastIndex(r)
  }

  /**
   A commit into the current segment, interrupted after k bytes, can be reopened:
   before it, or after it when complete.
   */
  lemma CommitReopens(lim: Limits, h: Hashes, d: Disk, s: Scan, payload: seq<Byte>, r: Recovery, k: nat)
    requires Committing(lim, h, d, s, payload, r)
    requires s.used + FRAME_HEADER + |payload| <= lim.segmentBytes && k <= FRAME_HEADER + |payload|
    ensures var f := Frame(h, Succ(s.lastTx), s.lastTx, payload);
      Reopenable(lim, h, Written(d, f, k), if k == |f| then Scan(r, Succ(s.lastTx), s.used + |f|) else s)
  {
    hide Settled, Frame, ApplyPayload, Replay;
    CommitAtomic(lim, h, d, s, payload, k);
    SettledUsed(lim, h, d, s);
    SettledReopens(lim, h, d, s);
  }

  /**
   A commit that rotates can be reopened before and after the manifest moves,
   whatever the new segment holds by then.
   */
  lemma RotationReopens(lim: Limits, h: Hashes, d: Disk, s: Scan, payload: seq<Byte>, r: Recovery, k: nat)
    requires Committing(lim, h, d, s, payload, r) && LiveRange(lim, d.first, d.last + 1) && d.last < U64_MAX
    requires SEGMENT_HEADER + FRAME_HEADER + |payload| <= lim.segmentBytes && k <= FRAME_HEADER + |payload|
    ensures var f := Frame(h, Succ(s.lastTx), s.lastTx, payload);
      && Reopenable(lim, h, Rotating(h, d, f, k), s)
      && Reopenable(lim, h, Rotating(h, d, f, |f|).(last := d.last + 1), Scan(r, Succ(s.lastTx), SEGMENT_HEADER + |f|))
  {
    hide Settled, Frame, ApplyPayload, Replay, SegmentStart;
    RotationAtomic(lim, h, d, s, payload, k);
    SettledReopens(lim, h, d, s);
  }

  /** Only the live segment matters when the range is a single one. */
  lemma SingleSegment(lim: Limits, h: Hashes, a: map<nat, seq<Byte>>, b: map<nat, seq<Byte>>, files: Files, n: nat)
    requires n in a && n in b && a[n] == b[n]
    ensures Replay(lim, h, Disk(a, files, n, n)) == Replay(lim, h, Disk(b, files, n, n))
  {
    hide ReplaySegment;
  }

  /**
   A checkpoint written into an empty current segment can be reopened once the
   manifest names that segment alone, whatever else is left.
   */
  lemma CheckpointHereReopens(lim: Limits, h: Hashes, d: Disk, s: Scan, op: Op, r: Recovery, left: map<nat, seq<Byte>>,
                              kept: Files)
    requires op.Snapshot? && Fits(op) && op.commit == op.snapIndex && Apply(lim, d.files, s.rec, op) == Some(r)
    requires r.entries == [] && Present(kept, op)
    requires Committing(lim, h, d, s, Encode(op), r) && s.used == SEGMENT_HEADER
    requires d.last in left && d.last in d.segments
    requires left[d.last] == d.segments[d.last] + Frame(h, Succ(s.lastTx), s.lastTx, Encode(op))
    ensures var f := Frame(h, Succ(s.lastTx), s.lastTx, Encode(op));
      Reopenable(lim, h, Disk(left, kept, d.last, d.last), Scan(r, Succ(s.lastTx), SEGMENT_HEADER + |f|))
  {
    hide Settled, Frame, ApplyPayload, Encode, Apply, SegmentStart, Replay, Present;
    var b := left[d.last];
    SettledHere(lim, h, d, s);
    CheckpointStart(lim, h, d, s, d.last, d.segments[d.last]);
    CheckpointSettled(lim, d.files, kept, h, op, d.segments[d.last], d.last, s, r);
    SettledReopens(lim, h, Disk(map[d.last := b], kept, d.last, d.last), Scan(r, Succ(s.lastTx), |b|));
    SingleSegment(lim, h, left, map[d.last := b], kept, d.last);
  }

  lemma SettledHere(lim: Limits, h: Hashes, d: Disk, s: Scan)
    requires Settled(lim, h, d, s)
    ensures 0 < d.last <= U64_MAX && d.last in d.segments && |d.segments[d.last]| == s.used
  {
    hide ReplaySegment;
  }

  /**
   A checkpoint can be reopened at every point: while its segment is written,
   and once the manifest names that segment alone, however many of the older
   segments and payload files are left.
   */
  lemma CheckpointReopens(lim: Limits, h: Hashes, d: Disk, s: Scan, op: Op, r: Recovery, k: nat,
                          left: map<nat, seq<Byte>>, kept: Files)
    requires op.Snapshot? && Fits(op) && op.commit == op.snapIndex && Apply(lim, d.files, s.rec, op) == Some(r)
    requires r.entries == [] && Present(kept, op)
    requires Committing(lim, h, d, s, Encode(op), r) && d.last < U64_MAX && k <= FRAME_HEADER + |Encode(op)|
    requires var f := Frame(h, Succ(s.lastTx), s.lastTx, Encode(op));
      d.last + 1 in left && left[d.last + 1] == SegmentStart(h, d.last + 1) + f
    ensures var f := Frame(h, Succ(s.lastTx), s.lastTx, Encode(op));
      && Reopenable(lim, h, Rotating(h, d, f, k), s)
      && Reopenable(lim, h, Disk(left, kept, d.last + 1, d.last + 1), Scan(r, Succ(s.lastTx), SEGMENT_HEADER + |f|))
  {
    hide Settled, Frame, ApplyPayload, Encode, Apply, SegmentStart, Replay, Present;
    CheckpointAtomic(lim, h, d, s, op, k, left, kept);
    SettledReopens(lim, h, d, s);
  }

  /** Writing a payload file leaves a disk that can be reopened. */
  lemma PayloadReopens(lim: Limits, h: Hashes, d: Disk, s: Scan, name: (nat, nat), p: Payload)
    requires Reopenable(lim, h, d, s) && name !in d.files
    ensures Reopenable(lim, h, d.(files := d.files[name := p]), s)
  {
    hide Replay;
    ReplayMore(lim, h, d, d.files[name := p]);
  }

  /**
   Once a snapshot was written into a log that goes on, removing the previous
   payload file leaves a disk that can be reopened exactly when there was none.
   */
  lemma UnlinkReopens(lim: Limits, h: Hashes, d: Disk, s: Scan, d': Disk, s': Scan)
    requires Settled(lim, h, d, s) && Grown(d, d') && Reopenable(lim, h, d', s')
    ensures Reopenable(lim, h, d'.(files := Unlink(d.files, s.rec.snapIndex, s.rec.snapTerm)), s') <==>
      s.rec.snapIndex == 0
  {
    hide Replay;
    if s.rec.snapIndex == 0 {
      assert d'.(files := d.files) == d';
    } else {
      FileLost(lim, h, d, d', s, Unlink(d.files, s.rec.snapIndex, s.rec.snapTerm));
    }
  }
}
