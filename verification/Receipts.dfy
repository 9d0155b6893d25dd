/** Receipt processing and the attachment-group reclaim it gates: a `0x01` receipt releases a
    message cell, only a `0x05` receipt ever releases the chunk cells. */
module Receipts {
  import opened Options
  import opened MessageStates

  datatype Receipt = Receipt(id: nat, status: nat)

  const DOWNLOADED: nat := 0x01
  const ATTACHMENT_DOWNLOADED: nat := 0x05

  /** `envelopes` finds rows by envelope id, `capacity` is the journal's recorded capacity,
      `attachments` the rows with an attachment manifest; `funded` counts how often a row's
      capacity was moved to the reclaimable bucket; `spentChunks` the rows whose chunk cells
      the group reclaim has been asked to spend; `shown` the rows that have ever been at `committed`
      or later. */
  datatype Store = Store(
    states: map<nat, State>, envelopes: map<nat, nat>, capacity: map<nat, nat>, attachments: set<nat>,
    funded: map<nat, nat>, downloaded: set<nat>, spentChunks: set<nat>, shown: set<nat>)

  ghost predicate WellFormed(s: Store) {
    && (forall id :: id in s.envelopes ==> s.envelopes[id] in s.states)
    && s.funded.Keys == s.states.Keys
  }

  predicate Ackable(state: State) {
    state == AvailableOnChain || state == DownloadedByRecipient || state == Acknowledged
  }

  // ---------------------------------------------------------------- store calls, one by one

  datatype Op = To(row: nat, state: State) | Fund(row: nat) | MarkDownloaded(row: nat)

  /** The last store calls of an acknowledgement. */
  function QueueOps(s: Store, row: nat): seq<Op> {
    [To(row, ReclaimQueued)] + if row in s.capacity then [Fund(row)] else []
  }

  /** The store calls that take a row found in `found` to `reclaim_queued`. */
  function AckOps(s: Store, row: nat, found: State): seq<Op> {
    if found == AvailableOnChain then [To(row, DownloadedByRecipient)] + ([To(row, Acknowledged)] + QueueOps(s, row))
    else if found == DownloadedByRecipient then [To(row, Acknowledged)] + QueueOps(s, row)
    else QueueOps(s, row)
  }

  /** The store calls one receipt makes after its lookup found `s`. */
  function OpsFor(s: Store, r: Receipt): seq<Op> {
    if r.id !in s.envelopes || s.envelopes[r.id] !in s.states then []
    else
      var row := s.envelopes[r.id];
      if r.status == ATTACHMENT_DOWNLOADED then [MarkDownloaded(row)]
      else if r.status != DOWNLOADED || !Ackable(s.states[row]) then []
      else AckOps(s, row, s.states[row])
  }

  /** None is a refused transition. */
  function Apply(s: Store, op: Op): Option<Store> {
    match op
    case To(row, state) =>
      if row !in s.states then None
      else
        (match Transition(Outgoing, s.states[row], state)
         case None => None
         case Some(next) => Some(s.(states := s.states[row := next])))
    case Fund(row) =>
      Some(if row in s.funded then s.(funded := s.funded[row := s.funded[row] + 1]) else s)
    case MarkDownloaded(row) =>
      Some(if row in s.attachments then s.(downloaded := s.downloaded + {row}) else s)
  }

  function ApplyAll(s: Store, ops: seq<Op>): Option<Store>
    decreases |ops|
  {
    if ops == [] then Some(s)
    else
      match Apply(s, ops[0])
      case None => None
      case Some(t) => ApplyAll(t, ops[1..])
  }

  // ---------------------------------------------------------------- what receipts amount to

  ghost predicate Names(s: Store, receipts: set<Receipt>, status: nat, row: nat) {
    exists r :: r in receipts && r.status == status && r.id in s.envelopes && s.envelopes[r.id] == row
  }

  /** A row these receipts queue for reclaim. */
  ghost predicate Acks(s: Store, receipts: set<Receipt>, row: nat) {
    && row in s.states && s.states[row] in {AvailableOnChain, DownloadedByRecipient, Acknowledged}
    && Names(s, receipts, 0x01, row)
  }

  ghost function StatesAfter(s: Store, receipts: set<Receipt>): map<nat, State> {
    map row | row in s.states :: if Acks(s, receipts, row) then ReclaimQueued else s.states[row]
  }

  ghost function FundedAfter(s: Store, receipts: set<Receipt>): map<nat, nat> {
    map row | row in s.funded :: s.funded[row] + if Acks(s, receipts, row) && row in s.capacity then 1 else 0
  }

  ghost function DownloadedAfter(s: Store, receipts: set<Receipt>): set<nat> {
    s.downloaded + set row | row in s.attachments && row in s.states && Names(s, receipts, 0x05, row)
  }

  /** The effect of a SET of receipts: each acknowledged ackable row is queued and funded once,
      each attachment named by a `0x05` is marked. */
  ghost function After(s: Store, receipts: set<Receipt>): Store {
    s.(states := StatesAfter(s, receipts), funded := FundedAfter(s, receipts),
       downloaded := DownloadedAfter(s, receipts))
  }

  /** The row queued, and funded when its capacity is on record. */
  function QueuedOnce(s: Store, row: nat): Store
    requires row in s.funded
  {
    var t := s.(states := s.states[row := ReclaimQueued]);
    if row in s.capacity then t.(funded := t.funded[row := t.funded[row] + 1]) else t
  }

  lemma ApplyFirst(s: Store, op: Op, rest: seq<Op>)
    ensures ApplyAll(s, [op] + rest)
         == match Apply(s, op) case None => None case Some(t) => ApplyAll(t, rest)
  {
    assert ([op] + rest)[1..] == rest;
  }

  lemma QueueIsLegal(s: Store, row: nat)
    requires row in s.states && row in s.funded && s.states[row] == Acknowledged
    ensures ApplyAll(s, QueueOps(s, row)) == Some(QueuedOnce(s, row))
  {
    var queued := s.(states := s.states[row := ReclaimQueued]);
    if row in s.capacity {
      ApplyFirst(queued, Fund(row), []);
    }
    ApplyFirst(s, To(row, ReclaimQueued), QueueOps(s, row)[1..]);
  }

  lemma AcknowledgeAndQueue(s: Store, row: nat)
    requires row in s.states && row in s.funded && s.states[row] == DownloadedByRecipient
    ensures ApplyAll(s, [To(row, Acknowledged)] + QueueOps(s, row)) == Some(QueuedOnce(s, row))
  {
    var acknowledged := s.(states := s.states[row := Acknowledged]);
    ApplyFirst(s, To(row, Acknowledged), QueueOps(s, row));
    QueueIsLegal(acknowledged, row);
    assert acknowledged.states[row := ReclaimQueued] == s.states[row := ReclaimQueued];
  }

  /** An ackable row takes every edge up to `reclaim_queued`, from wherever it is. */
  lemma AcknowledgeIsLegal(s: Store, row: nat)
    requires row in s.states && row in s.funded && Ackable(s.states[row])
    ensures ApplyAll(s, AckOps(s, row, s.states[row])) == Some(QueuedOnce(s, row))
  {
    if s.states[row] == AvailableOnChain {
      var downloaded := s.(states := s.states[row := DownloadedByRecipient]);
      ApplyFirst(s, To(row, DownloadedByRecipient), [To(row, Acknowledged)] + QueueOps(s, row));
      AcknowledgeAndQueue(downloaded, row);
      assert downloaded.states[row := ReclaimQueued] == s.states[row := ReclaimQueued];
    } else if s.states[row] == DownloadedByRecipient {
      AcknowledgeAndQueue(s, row);
    } else {
      QueueIsLegal(s, row);
    }
  }

  lemma NamesOne(s: Store, r: Receipt)
    ensures forall status, row :: Names(s, {r}, status, row)
              <==> r.status == status && r.id in s.envelopes && s.envelopes[r.id] == row
  {
    assert r in {r};
  }

  /** A set of receipts that queues nothing and marks nothing changes nothing. */
  lemma NothingNamed(s: Store, receipts: set<Receipt>)
    requires forall row :: !Acks(s, receipts, row)
    requires forall row :: row in s.attachments && row in s.states
               ==> !Names(s, receipts, 0x05, row)
    ensures After(s, receipts) == s
  {
    assert After(s, receipts).states == s.states;
    assert After(s, receipts).funded == s.funded;
    assert After(s, receipts).downloaded == s.downloaded;
  }

  lemma OneAcked(s: Store, receipts: set<Receipt>, row: nat)
    requires WellFormed(s) && row in s.states
    requires forall other :: Acks(s, receipts, other) <==> other == row
    requires forall other :: !Names(s, receipts, 0x05, other)
    ensures After(s, receipts) == QueuedOnce(s, row)
  {
    assert After(s, receipts).states == QueuedOnce(s, row).states;
    assert After(s, receipts).funded == QueuedOnce(s, row).funded;
    assert After(s, receipts).downloaded == s.downloaded;
  }

  lemma OneMarked(s: Store, receipts: set<Receipt>, row: nat)
    requires row in s.attachments && row in s.states
    requires forall other :: !Acks(s, receipts, other)
    requires forall other :: Names(s, receipts, 0x05, other) <==> other == row
    ensures After(s, receipts) == s.(downloaded := s.downloaded + {row})
  {
    assert After(s, receipts).states == s.states;
    assert After(s, receipts).funded == s.funded;
    assert After(s, receipts).downloaded == s.downloaded + {row};
  }

  /** One receipt's store calls are all legal, and amount to what the set form says. */
  lemma OneReceipt(s: Store, r: Receipt)
    requires WellFormed(s)
    ensures ApplyAll(s, OpsFor(s, r)) == Some(After(s, {r}))
  {
    NamesOne(s, r);
    if r.id !in s.envelopes {
      NothingNamed(s, {r});
    } else {
      var row := s.envelopes[r.id];
      if r.status == ATTACHMENT_DOWNLOADED {
        ApplyFirst(s, MarkDownloaded(row), []);
        if row in s.attachments { OneMarked(s, {r}, row); } else { NothingNamed(s, {r}); }
      } else if r.status == DOWNLOADED && Ackable(s.states[row]) {
        AcknowledgeIsLegal(s, row);
        OneAcked(s, {r}, row);
      } else {
        NothingNamed(s, {r});
      }
    }
  }

  lemma NamesUnion(s: Store, a: set<Receipt>, b: set<Receipt>)
    ensures forall status, row :: Names(s, a + b, status, row)
              <==> Names(s, a, status, row) || Names(After(s, a), b, status, row)
  {
    forall status, row | Names(s, a, status, row) || Names(After(s, a), b, status, row)
      ensures Names(s, a + b, status, row)
    {
      var r :| (r in a || r in b) && r.status == status && r.id in s.envelopes && s.envelopes[r.id] == row;
      assert r in a + b;
    }
    forall status, row | Names(s, a + b, status, row)
      ensures Names(s, a, status, row) || Names(After(s, a), b, status, row)
    {
      var r :| r in a + b && r.status == status && r.id in s.envelopes && s.envelopes[r.id] == row;
      assert r in a || r in b;
    }
  }

  /** The union names and acknowledges what either part does, and never twice. */
  ghost predicate SplitsUp(s: Store, a: set<Receipt>, b: set<Receipt>) {
    && (forall status, row :: Names(s, a + b, status, row)
          <==> Names(s, a, status, row) || Names(After(s, a), b, status, row))
    && (forall row :: Acks(s, a + b, row) <==> Acks(s, a, row) || Acks(After(s, a), b, row))
    && (forall row :: !(Acks(s, a, row) && Acks(After(s, a), b, row)))
  }

  lemma StatesAddUp(s: Store, a: set<Receipt>, b: set<Receipt>)
    requires WellFormed(s) && SplitsUp(s, a, b)
    ensures StatesAfter(After(s, a), b) == StatesAfter(s, a + b)
  {
  }

  lemma FundedAddsUp(s: Store, a: set<Receipt>, b: set<Receipt>)
    requires WellFormed(s) && SplitsUp(s, a, b)
    ensures FundedAfter(After(s, a), b) == FundedAfter(s, a + b)
  {
  }

  lemma DownloadedAddsUp(s: Store, a: set<Receipt>, b: set<Receipt>)
    requires WellFormed(s) && SplitsUp(s, a, b)
    ensures DownloadedAfter(After(s, a), b) == DownloadedAfter(s, a + b)
  {
  }

  /** Receipts add up as sets: applying more of them to what earlier ones left is applying all
      of them at once. */
  lemma ReceiptsAddUp(s: Store, a: set<Receipt>, b: set<Receipt>)
    requires WellFormed(s)
    ensures WellFormed(After(s, a)) && After(After(s, a), b) == After(s, a + b)
  {
    NamesUnion(s, a, b);
    assert SplitsUp(s, a, b);
    StatesAddUp(s, a, b);
    FundedAddsUp(s, a, b);
    DownloadedAddsUp(s, a, b);
  }

  /** Repeating receipts changes nothing, and their order does not matter. */
  lemma OrderAndRepetitionDoNotMatter(s: Store, a: set<Receipt>, b: set<Receipt>)
    requires WellFormed(s)
    ensures After(After(s, a), b) == After(After(s, b), a)
    ensures After(After(s, a), a) == After(s, a)
  {
    ReceiptsAddUp(s, a, b);
    ReceiptsAddUp(s, b, a);
    ReceiptsAddUp(s, a, a);
    assert a + b == b + a && a + a == a;
  }

  // ---------------------------------------------------------------- the loop

  function SetOf(receipts: seq<Receipt>): set<Receipt> {
    set r | r in receipts
  }

  class ResponseLifecycle {
    var store: Store

    constructor (initial: Store)
      ensures store == initial
    {
      store := initial;
    }

    method TransitionMessage(row: nat, target: State)
      requires row in store.states && Transition(Outgoing, store.states[row], target).Some?
      modifies this
      ensures store == old(store).(states := old(store).states[row := target])
    {
      store := store.(states := store.states[row := target]);
    }

    method MarkCapacityReclaimable(row: nat)
      requires row in store.funded
      modifies this
      ensures store == old(store).(funded := old(store).funded[row := old(store).funded[row] + 1])
    {
      store := store.(funded := store.funded[row := store.funded[row] + 1]);
    }

    method MarkAttachmentRemoteDownloaded(row: nat)
      modifies this
      ensures Apply(old(store), MarkDownloaded(row)) == Some(store)
    {
      if row in store.attachments {
        store := store.(downloaded := store.downloaded + {row});
      }
    }

    /** The ackable row walks to `reclaim_queued` and its capacity is funded. */
    method Acknowledge(row: nat)
      requires row in store.states && row in store.funded && Ackable(store.states[row])
      modifies this
      ensures store == QueuedOnce(old(store), row)
    {
      var found := store.states[row];
      if found == AvailableOnChain {
        TransitionMessage(row, DownloadedByRecipient);
      }
      if found != Acknowledged {
        TransitionMessage(row, Acknowledged);
      }
      TransitionMessage(row, ReclaimQueued);
      assert store.states == old(store).states[row := ReclaimQueued];
      if row in store.capacity {
        MarkCapacityReclaimable(row);
      }
    }

    /** One receipt of the loop; the row it newly queued, if any. */
    method ApplyReceipt(receipt: Receipt) returns (acked: Option<nat>)
      requires WellFormed(store)
      modifies this
      ensures WellFormed(store) && store == After(old(store), {receipt})
      ensures forall row: nat :: acked == Some(row) <==> Acks(old(store), {receipt}, row)
    {
      acked := None;
      OneReceipt(store, receipt);
      NamesOne(store, receipt);
      if receipt.id in store.envelopes {
        var row := store.envelopes[receipt.id];
        if receipt.status == ATTACHMENT_DOWNLOADED {
          ApplyFirst(store, MarkDownloaded(row), []);
          MarkAttachmentRemoteDownloaded(row);
        } else if receipt.status == DOWNLOADED && Ackable(store.states[row]) {
          AcknowledgeIsLegal(store, row);
          Acknowledge(row);
          acked := Some(row);
        }
      }
    }

    /** Applies the receipts of one reply. Whatever their order and repetitions, the result is
        that of the set, and the returned rows are the newly queued ones, each once. */
    method ProcessAcknowledgements(receipts: seq<Receipt>) returns (acked: seq<nat>)
      requires WellFormed(store)
      modifies this
      ensures WellFormed(store) && store == After(old(store), SetOf(receipts))
      ensures ListsOnce(acked, old(store), SetOf(receipts))
    {
      acked := [];
      NothingNamed(store, {});
      for i := 0 to |receipts|
        invariant WellFormed(store) && store == After(old(store), SetOf(receipts[..i]))
        invariant ListsOnce(acked, old(store), SetOf(receipts[..i]))
      {
        OneMore(old(store), receipts, i);
        var newly := ApplyReceipt(receipts[i]);
        ListGrows(acked, newly, old(store), receipts, i);
        if newly.Some? {
          acked := acked + [newly.value];
        }
      }
      assert receipts[..|receipts|] == receipts;
    }
  }

  /** The rows the receipts queue, each listed once. */
  ghost predicate ListsOnce(acked: seq<nat>, s: Store, receipts: set<Receipt>) {
    && (forall row :: row in acked <==> Acks(s, receipts, row))
    && (forall i, j :: 0 <= i < j < |acked| ==> acked[i] != acked[j])
  }

  lemma ListGrows(acked: seq<nat>, newly: Option<nat>, s: Store, receipts: seq<Receipt>, i: nat)
    requires WellFormed(s) && i < |receipts| && ListsOnce(acked, s, SetOf(receipts[..i]))
    requires forall row: nat :: newly == Some(row) <==> Acks(After(s, SetOf(receipts[..i])), {receipts[i]}, row)
    ensures ListsOnce(if newly.Some? then acked + [newly.value] else acked, s, SetOf(receipts[..i + 1]))
  {
    OneMore(s, receipts, i);
  }

  /** One more receipt of a list. */
  lemma OneMore(s: Store, receipts: seq<Receipt>, i: nat)
    requires WellFormed(s) && i < |receipts|
    ensures var done := SetOf(receipts[..i]); var next := SetOf(receipts[..i + 1]);
            && After(s, next) == After(After(s, done), {receipts[i]})
            && (forall row :: Acks(s, next, row) <==> Acks(s, done, row) || Acks(After(s, done), {receipts[i]}, row))
            && (forall row :: !(Acks(s, done, row) && Acks(After(s, done), {receipts[i]}, row)))
  {
    var done := SetOf(receipts[..i]);
    ReceiptsAddUp(s, done, {receipts[i]});
    NewlyAcked(s, done, receipts[i]);
    assert SetOf(receipts[..i + 1]) == done + {receipts[i]};
  }

  /** What one more receipt adds to the rows already queued. */
  lemma NewlyAcked(s: Store, done: set<Receipt>, r: Receipt)
    requires WellFormed(s)
    ensures forall row :: Acks(s, done + {r}, row) <==> Acks(s, done, row) || Acks(After(s, done), {r}, row)
    ensures forall row :: !(Acks(s, done, row) && Acks(After(s, done), {r}, row))
  {
    NamesUnion(s, done, {r});
  }
}
