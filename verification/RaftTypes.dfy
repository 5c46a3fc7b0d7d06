/**
 Values shared by every component: node ids, terms, log entries and the result
 codes the C library returns.  Identifiers, terms and indices are 64-bit words
 in the source; they are natural numbers here and the places where the source
 guards against the largest word keep that guard explicitly.
 */
module RaftTypes {

  const U64_MAX: nat := 0xFFFF_FFFF_FFFF_FFFF
  const MAX_MEMBERS: nat := 31
  const MAX_ENTRY_BYTES: nat := 512
  const MAX_APPEND_ENTRIES: nat := 8
  const MAX_PROPOSAL_BATCH: nat := 16
  const MAX_INFLIGHT: nat := 64
  const MAX_PENDING_READS: nat := 64

  type Byte = b: int | 0 <= b < 256

  type U64 = v: int | 0 <= v <= U64_MAX

  /** Node id 0 stands for "no node", as in the source. */
  type NodeId = nat

  datatype Option<+T> = None | Some(value: T)

  /** The result codes used by the modelled calls. */
  datatype Status =
    | OK | EINVAL | EPROTO | ENOSPC | ENOENT | EBUSY | EALREADY | EIO | ENOBUFS | EPERM | ESHUTDOWN | ERANGE
    | EFBIG

  /** One replicated log entry.  command 0 marks a configuration entry. */
  datatype Entry = Entry(index: nat, term: nat, command: nat, data: seq<Byte>)

  /** Term of the entry at a one-based index; index 0 has term 0. */
  function TermAt(log: seq<Entry>, i: nat): (t: nat)
    requires i <= |log|
  {
    if i == 0 then 0 else log[i - 1].term
  }

  function LastTerm(log: seq<Entry>): (t: nat)
  {
    TermAt(log, |log|)
  }

  /** Entries sit at consecutive one-based indices. */
  predicate Contiguous(log: seq<Entry>)
  {
    forall i :: 0 <= i < |log| ==> log[i].index == i + 1
  }

  /** Two logs hold the same first n entries. */
  ghost predicate Agree(a: seq<Entry>, b: seq<Entry>, n: nat)
  {
    && n <= |a| && n <= |b|
    && forall j :: 0 <= j < n ==> a[j] == b[j]
  }

  function Min(a: nat, b: nat): nat { if a < b then a else b }

  function Max(a: nat, b: nat): nat { if a < b then b else a }
}
