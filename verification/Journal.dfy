/** The pre-broadcast journal of outgoing transactions, keyed by transaction hash. `details` is
    whatever a pipeline stores next to the hash and the state. */
module Journal {
  import opened Chain

  datatype JournalState = Submitted | CommittedTx | RejectedTx | Abandoned

  datatype Record<+T> = Record(tx: Tx, details: T, state: JournalState)

  predicate Holds<T>(journal: seq<Record<T>>, tx: Tx) {
    exists i :: 0 <= i < |journal| && journal[i].tx == tx
  }

  /** Recording is idempotent on the hash: an existing record is left as it is. */
  function Recorded<T>(journal: seq<Record<T>>, record: Record<T>): seq<Record<T>> {
    if Holds(journal, record.tx) then journal else journal + [record]
  }

  /** The unconditional state write. */
  function Marked<T>(journal: seq<Record<T>>, tx: Tx, state: JournalState): (r: seq<Record<T>>)
    ensures |r| == |journal|
    ensures forall i :: 0 <= i < |r| ==> r[i].tx == journal[i].tx && r[i].details == journal[i].details
    ensures forall i :: 0 <= i < |r| ==> r[i].state == if r[i].tx == tx then state else journal[i].state
  {
    seq(|journal|, i requires 0 <= i < |journal| =>
      if journal[i].tx == tx then journal[i].(state := state) else journal[i])
  }

  predicate IsIn<T>(journal: seq<Record<T>>, tx: Tx, state: JournalState) {
    exists i :: 0 <= i < |journal| && journal[i].tx == tx && journal[i].state == state
  }

  predicate IsLatest<T>(journal: seq<Record<T>>, tx: Tx) {
    journal != [] && journal[|journal| - 1].tx == tx
  }

  /** Two journals that differ in their marks only. */
  ghost predicate SameTxs<T>(a: seq<Record<T>>, b: seq<Record<T>>) {
    |a| == |b| && forall i :: 0 <= i < |a| ==> a[i].tx == b[i].tx && a[i].details == b[i].details
  }
}
