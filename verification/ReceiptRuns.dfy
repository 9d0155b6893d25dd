/** Receipts over whole runs: a reply may be cut off after any of its store calls and seen again
    later, rows are rebuilt until they are shown committed and move along any legal edge in between,
    and the group reclaim passes over them at any time. */
module ReceiptRuns {
  import opened Options
  import opened MessageStates
  import opened Receipts

  datatype Event =
    | NewMessage(row: nat, attachment: bool)
    | Published(row: nat, id: nat, recorded: Option<nat>)   // a build: new envelope id, journaled capacity
    | Reply(receipt: Receipt, calls: nat)                   // interrupted after `calls` store calls
    | RowMoves(row: nat, state: State)                      // the publisher, the retry and the reclaim batch
    | GroupPass(row: nat)                                   // the attachment-group reclaim reaches a row

  function Prefix(ops: seq<Op>, calls: nat): seq<Op> {
    if calls < |ops| then ops[..calls] else ops
  }

  /** The group reclaim acts on a reclaimed row whose attachment the recipient confirmed. */
  predicate GroupReclaims(s: Store, row: nat) {
    row in s.states && s.states[row] == Reclaimed && row in s.attachments && row in s.downloaded
  }

  /** Any legal edge, failing a row that is being reclaimed included. */
  predicate MayMove(s: Store, row: nat, state: State) {
    row in s.states && CanTransition(Outgoing, s.states[row], state)
  }

  /** A row has one envelope id: setting it replaces the one before. */
  function Renamed(envelopes: map<nat, nat>, id: nat, row: nat): map<nat, nat> {
    (map k | k in envelopes && envelopes[k] != row :: envelopes[k])[id := row]
  }

  function Moved(s: Store, row: nat, state: State): Store {
    s.(states := s.states[row := state],
       shown := if Rank(state) >= Rank(Committed) then s.shown + {row} else s.shown)
  }

  function AfterCalls(s: Store, ops: seq<Op>): Store {
    match ApplyAll(s, ops) case Some(t) => t case None => s
  }

  /** A build comes before the row is shown committed; afterwards the publisher only resumes
      (PublishedRefs.BuildsPrecedeTheCommit). */
  function Step(s: Store, e: Event): Store {
    match e
    case NewMessage(row, attachment) =>
      if row in s.states || row in s.attachments then s
      else
        s.(states := s.states[row := Draft], funded := s.funded[row := 0],
           attachments := if attachment then s.attachments + {row} else s.attachments)
    case Published(row, id, recorded) =>
      if row !in s.states || row in s.shown || id in s.envelopes then s
      else
        s.(envelopes := Renamed(s.envelopes, id, row),
           capacity := if recorded.Some? then s.capacity[row := recorded.value] else s.capacity - {row})
    case Reply(receipt, calls) => AfterCalls(s, Prefix(OpsFor(s, receipt), calls))
    case RowMoves(row, state) => if MayMove(s, row, state) then Moved(s, row, state) else s
    case GroupPass(row) => if GroupReclaims(s, row) then s.(spentChunks := s.spentChunks + {row}) else s
  }

  function Run(s: Store, events: seq<Event>): Store
    decreases |events|
  {
    if events == [] then s else Run(Step(s, events[0]), events[1..])
  }

  const Nothing := Store(map[], map[], map[], {}, map[], {}, {}, {})

  lemma {:induction false} RunAppends(s: Store, a: seq<Event>, b: seq<Event>)
    ensures Run(s, a + b) == Run(Run(s, a), b)
    decreases |a|
  {
    if a == [] {
      assert a + b == b;
    } else {
      RunAppends(Step(s, a[0]), a[1..], b);
      assert (a + b)[0] == a[0] && (a + b)[1..] == a[1..] + b;
    }
  }

  // ---------------------------------------------------------------- a reply cut off

  /** Somewhere on the way from `s` to having the row queued: only this row moved, never back, at
      most to `reclaim_queued`, and it is funded, once more, only when it is there and its capacity
      is on record. */
  ghost predicate PartlyQueued(s: Store, t: Store, row: nat) {
    && row in s.states && row in t.states && row in s.funded
    && t.states == s.states[row := t.states[row]]
    && Rank(s.states[row]) <= Rank(t.states[row]) <= Rank(ReclaimQueued)
    && t == s.(states := t.states, funded := t.funded)
    && (t.funded == s.funded
        || (t.states[row] == ReclaimQueued && row in s.capacity && t.funded == s.funded[row := s.funded[row] + 1]))
  }

  lemma PrefixOfMore(op: Op, rest: seq<Op>, calls: nat)
    requires calls > 0
    ensures Prefix([op] + rest, calls) == [op] + Prefix(rest, calls - 1)
  {
  }

  lemma MoveThenPart(s: Store, row: nat, next: State, rest: seq<Op>, calls: nat)
    requires row in s.states && row in s.funded && CanTransition(Outgoing, s.states[row], next)
    requires Rank(s.states[row]) <= Rank(next) <= Rank(ReclaimQueued)
    requires var m := s.(states := s.states[row := next]);
             calls > 0 ==> ApplyAll(m, Prefix(rest, calls - 1)).Some?
                           && PartlyQueued(m, AfterCalls(m, Prefix(rest, calls - 1)), row)
    ensures ApplyAll(s, Prefix([To(row, next)] + rest, calls)).Some?
    ensures PartlyQueued(s, AfterCalls(s, Prefix([To(row, next)] + rest, calls)), row)
  {
    if calls == 0 {
      assert Prefix([To(row, next)] + rest, 0) == [] && s.states[row := s.states[row]] == s.states;
    } else {
      PrefixOfMore(To(row, next), rest, calls);
      ApplyFirst(s, To(row, next), Prefix(rest, calls - 1));
      var t := AfterCalls(s.(states := s.states[row := next]), Prefix(rest, calls - 1));
      assert t.states == s.states[row := t.states[row]];
    }
  }

  lemma StaysPut(s: Store, row: nat)
    requires row in s.states && row in s.funded && Rank(s.states[row]) <= Rank(ReclaimQueued)
    ensures PartlyQueued(s, s, row)
  {
    assert s.states[row := s.states[row]] == s.states;
  }

  lemma OneCall(s: Store, op: Op)
    ensures ApplyAll(s, [op]) == Apply(s, op)
  {
    assert [op][1..] == [];
  }

  function FundOps(s: Store, row: nat): seq<Op> {
    if row in s.capacity then [Fund(row)] else []
  }

  lemma FundPart(s: Store, row: nat, calls: nat)
    requires row in s.states && row in s.funded && s.states[row] == ReclaimQueued
    ensures ApplyAll(s, Prefix(FundOps(s, row), calls)).Some?
    ensures PartlyQueued(s, AfterCalls(s, Prefix(FundOps(s, row), calls)), row)
  {
    var ops := Prefix(FundOps(s, row), calls);
    if ops == [] {
      StaysPut(s, row);
    } else {
      assert ops == [Fund(row)];
      OneCall(s, Fund(row));
      assert s.states[row := s.states[row]] == s.states;
    }
  }

  lemma QueuePart(s: Store, row: nat, calls: nat)
    requires row in s.states && row in s.funded && s.states[row] == Acknowledged
    ensures ApplyAll(s, Prefix(QueueOps(s, row), calls)).Some?
    ensures PartlyQueued(s, AfterCalls(s, Prefix(QueueOps(s, row), calls)), row)
  {
    if calls > 0 {
      FundPart(s.(states := s.states[row := ReclaimQueued]), row, calls - 1);
    }
    MoveThenPart(s, row, ReclaimQueued, FundOps(s, row), calls);
  }

  lemma AcknowledgePart(s: Store, row: nat, calls: nat)
    requires row in s.states && row in s.funded && s.states[row] == DownloadedByRecipient
    ensures ApplyAll(s, Prefix([To(row, Acknowledged)] + QueueOps(s, row), calls)).Some?
    ensures PartlyQueued(s, AfterCalls(s, Prefix([To(row, Acknowledged)] + QueueOps(s, row), calls)), row)
  {
    if calls > 0 {
      QueuePart(s.(states := s.states[row := Acknowledged]), row, calls - 1);
    }
    MoveThenPart(s, row, Acknowledged, QueueOps(s, row), calls);
  }

  /** Wherever an acknowledgement is cut off it has thrown nowhere and partly queued its row. */
  lemma AckPart(s: Store, row: nat, calls: nat)
    requires row in s.states && row in s.funded && Ackable(s.states[row])
    ensures ApplyAll(s, Prefix(AckOps(s, row, s.states[row]), calls)).Some?
    ensures PartlyQueued(s, AfterCalls(s, Prefix(AckOps(s, row, s.states[row]), calls)), row)
  {
    if s.states[row] == AvailableOnChain {
      if calls > 0 {
        AcknowledgePart(s.(states := s.states[row := DownloadedByRecipient]), row, calls - 1);
      }
      MoveThenPart(s, row, DownloadedByRecipient, [To(row, Acknowledged)] + QueueOps(s, row), calls);
    } else if s.states[row] == DownloadedByRecipient {
      AcknowledgePart(s, row, calls);
    } else {
      QueuePart(s, row, calls);
    }
  }

  /** The event is a `0x05` receipt for the message that is in `row` when it arrives. */
  predicate Confirms(s: Store, e: Event, row: nat) {
    e.Reply? && e.receipt.status == 0x05
    && e.receipt.id in s.envelopes && s.envelopes[e.receipt.id] == row
  }

  ghost predicate Inv(s: Store) {
    && WellFormed(s) && (forall row :: row in s.spentChunks ==> GroupReclaims(s, row))
    && forall row :: row in s.states && Rank(s.states[row]) >= Rank(Committed) ==> row in s.shown
  }

  /** A reply either leaves rows and funding alone or partly queues one ackable row. */
  lemma ReplyEffect(s: Store, r: Receipt, calls: nat)
    requires Inv(s)
    ensures ApplyAll(s, Prefix(OpsFor(s, r), calls)).Some?
    ensures var t := Step(s, Reply(r, calls));
            || (t == s.(downloaded := t.downloaded)
                && forall row :: row in t.downloaded ==> row in s.downloaded || Confirms(s, Reply(r, calls), row))
            || (r.status == DOWNLOADED && r.id in s.envelopes && Ackable(s.states[s.envelopes[r.id]])
                && PartlyQueued(s, t, s.envelopes[r.id]))
    ensures forall row :: row in s.downloaded ==> row in Step(s, Reply(r, calls)).downloaded
  {
    if r.id in s.envelopes {
      var row := s.envelopes[r.id];
      if r.status == ATTACHMENT_DOWNLOADED {
        if calls > 0 {
          assert Prefix([MarkDownloaded(row)], calls) == [MarkDownloaded(row)] + [];
          ApplyFirst(s, MarkDownloaded(row), []);
        }
      } else if r.status == DOWNLOADED && Ackable(s.states[row]) {
        AckPart(s, row, calls);
      }
    }
  }

  // ---------------------------------------------------------------- what every step keeps

  predicate InReclaim(s: Store, row: nat) {
    row in s.states && Rank(s.states[row]) >= Rank(ReclaimQueued)
  }

  /** The event fails a row at or past `reclaim_queued`. */
  predicate FailsInReclaim(s: Store, e: Event, row: nat) {
    e == RowMoves(row, Failed) && InReclaim(s, row) && MayMove(s, row, Failed)
  }

  function ReclaimFailures(s: Store, events: seq<Event>, row: nat): nat
    decreases |events|
  {
    if events == [] then 0
    else (if FailsInReclaim(s, events[0], row) then 1 else 0) + ReclaimFailures(Step(s, events[0]), events[1..], row)
  }

  /** Fundings not accounted for by the row being in reclaim. */
  function Excess(s: Store, row: nat): int {
    var fundings: int := if row in s.funded then s.funded[row] else 0;
    if row in s.funded && InReclaim(s, row) then fundings - 1 else fundings
  }

  ghost predicate Grew(s: Store, e: Event, t: Store) {
    && Inv(t)
    && (forall row :: row in s.states ==> row in t.states)
    && (forall row :: Excess(t, row) <= Excess(s, row) + if FailsInReclaim(s, e, row) then 1 else 0)
    && (forall row :: row in t.downloaded ==> row in s.downloaded || Confirms(s, e, row))
  }

  /** A confirmation of receipt that got as far as queueing the row. */
  ghost predicate QueuesARow(s: Store, r: Receipt, t: Store)
    requires r.id in s.envelopes ==> s.envelopes[r.id] in s.states
  {
    && r.status == DOWNLOADED && r.id in s.envelopes && Ackable(s.states[s.envelopes[r.id]])
    && PartlyQueued(s, t, s.envelopes[r.id])
  }

  lemma PartlyQueuedKeepsInv(s: Store, t: Store, row: nat)
    requires Inv(s) && row in s.states && row in s.funded && Ackable(s.states[row]) && PartlyQueued(s, t, row)
    ensures Inv(t)
  {
    forall other | other in s.spentChunks ensures GroupReclaims(t, other) {
      assert GroupReclaims(s, other) && other != row;
    }
  }

  lemma PartlyQueuedExcess(s: Store, t: Store, row: nat, other: nat)
    requires row in s.states && row in s.funded && Ackable(s.states[row]) && PartlyQueued(s, t, row)
    ensures Excess(t, other) <= Excess(s, other)
    ensures other in s.states ==> other in t.states
    ensures other in t.downloaded ==> other in s.downloaded
  {
  }

  lemma QueueingGrows(s: Store, r: Receipt, calls: nat)
    requires Inv(s) && QueuesARow(s, r, Step(s, Reply(r, calls)))
    ensures Grew(s, Reply(r, calls), Step(s, Reply(r, calls)))
  {
    var t, queued := Step(s, Reply(r, calls)), s.envelopes[r.id];
    PartlyQueuedKeepsInv(s, t, queued);
    forall row: nat
      ensures Excess(t, row) <= Excess(s, row)
      ensures row in s.states ==> row in t.states
      ensures row in t.downloaded ==> row in s.downloaded
    {
      PartlyQueuedExcess(s, t, queued, row);
    }
  }

  lemma QuietReplyGrows(s: Store, r: Receipt, calls: nat)
    requires Inv(s) && !QueuesARow(s, r, Step(s, Reply(r, calls)))
    ensures Grew(s, Reply(r, calls), Step(s, Reply(r, calls)))
  {
    ReplyEffect(s, r, calls);
    var t := Step(s, Reply(r, calls));
    assert t.states == s.states && t.funded == s.funded;
    forall row | row in s.spentChunks ensures GroupReclaims(t, row) {
      assert GroupReclaims(s, row);
    }
  }

  lemma ReplyGrows(s: Store, r: Receipt, calls: nat)
    requires Inv(s)
    ensures Grew(s, Reply(r, calls), Step(s, Reply(r, calls)))
  {
    if QueuesARow(s, r, Step(s, Reply(r, calls))) {
      QueueingGrows(s, r, calls);
    } else {
      QuietReplyGrows(s, r, calls);
    }
  }

  lemma MoveKeepsInv(s: Store, row: nat, state: State)
    requires Inv(s) && MayMove(s, row, state)
    ensures Inv(Moved(s, row, state))
  {
    var t := Moved(s, row, state);
    forall other | other in s.spentChunks ensures GroupReclaims(t, other) {
      assert GroupReclaims(s, other) && other != row;
    }
  }

  lemma MoveExcess(s: Store, row: nat, state: State, other: nat)
    requires MayMove(s, row, state)
    ensures Excess(Moved(s, row, state), other)
            <= Excess(s, other) + if FailsInReclaim(s, RowMoves(row, state), other) then 1 else 0
  {
    assert InReclaim(s, row) && state != Failed ==> Rank(state) >= Rank(ReclaimQueued);
  }

  lemma MoveGrows(s: Store, row: nat, state: State)
    requires Inv(s)
    ensures Grew(s, RowMoves(row, state), Step(s, RowMoves(row, state)))
  {
    if MayMove(s, row, state) {
      MoveKeepsInv(s, row, state);
      forall other: nat
        ensures Excess(Moved(s, row, state), other)
                <= Excess(s, other) + if FailsInReclaim(s, RowMoves(row, state), other) then 1 else 0
      {
        MoveExcess(s, row, state, other);
      }
    }
  }

  lemma PublishedGrows(s: Store, e: Event)
    requires Inv(s) && (e.Published? || e.NewMessage? || e.GroupPass?)
    ensures Grew(s, e, Step(s, e))
  {
    var t := Step(s, e);
    forall row | row in t.spentChunks ensures GroupReclaims(t, row) {
      assert row in s.spentChunks ==> GroupReclaims(s, row);
    }
  }

  lemma StepGrows(s: Store, e: Event)
    requires Inv(s)
    ensures Grew(s, e, Step(s, e))
  {
    if e.Reply? {
      ReplyGrows(s, e.receipt, e.calls);
    } else if e.RowMoves? {
      MoveGrows(s, e.row, e.state);
    } else {
      PublishedGrows(s, e);
    }
  }

  lemma {:induction false} RunGrows(s: Store, events: seq<Event>, row: nat)
    requires Inv(s)
    ensures Inv(Run(s, events)) && (row in s.states ==> row in Run(s, events).states)
    ensures Excess(Run(s, events), row) <= Excess(s, row) + ReclaimFailures(s, events, row)
    decreases |events|
  {
    if events != [] {
      StepGrows(s, events[0]);
      RunGrows(Step(s, events[0]), events[1..], row);
    }
  }

  // ---------------------------------------------------------------- results

  /** Whatever is replayed, repeated, rebuilt or cut off: a message is funded at most once more often
      than it was failed while being reclaimed, and not at all more often unless it is in reclaim. */
  lemma FundedOncePerFailure(events: seq<Event>, row: nat)
    requires row in Run(Nothing, events).funded
    ensures var s := Run(Nothing, events);
            && s.funded[row] <= ReclaimFailures(Nothing, events, row) + 1
            && (!InReclaim(s, row) ==> s.funded[row] <= ReclaimFailures(Nothing, events, row))
  {
    RunGrows(Nothing, events, row);
  }

  lemma {:induction false} WhenDownloaded(s: Store, events: seq<Event>, row: nat)
    requires Inv(s) && row in Run(s, events).downloaded && row !in s.downloaded
    ensures exists i :: 0 <= i < |events| && Confirms(Run(s, events[..i]), events[i], row)
    decreases |events|
  {
    var t := Step(s, events[0]);
    StepGrows(s, events[0]);
    if row in t.downloaded {
      assert Run(s, events[..0]) == s && Confirms(Run(s, events[..0]), events[0], row);
    } else {
      WhenDownloaded(t, events[1..], row);
      var i :| 0 <= i < |events[1..]| && Confirms(Run(t, events[1..][..i]), events[1..][i], row);
      assert events[..i + 1][1..] == events[1..][..i] && events[..i + 1][0] == events[0];
      assert Confirms(Run(s, events[..i + 1]), events[i + 1], row);
    }
  }

  /** The chunk cells of a message are spent only if that message is already reclaimed and the
      run contains a `0x05` receipt for it; a `0x01` receipt is never enough. */
  lemma ChunksNeedTheirOwnReceipt(events: seq<Event>, row: nat)
    requires row in Run(Nothing, events).spentChunks
    ensures row in Run(Nothing, events).states && Run(Nothing, events).states[row] == Reclaimed
    ensures exists i :: 0 <= i < |events| && Confirms(Run(Nothing, events[..i]), events[i], row)
  {
    RunGrows(Nothing, events, row);
    assert GroupReclaims(Run(Nothing, events), row);
    WhenDownloaded(Nothing, events, row);
  }

  ghost predicate OneName(s: Store) {
    forall i, j :: i in s.envelopes && j in s.envelopes && s.envelopes[i] == s.envelopes[j] ==> i == j
  }

  lemma NamesNext(s: Store, e: Event)
    requires Inv(s) && OneName(s)
    ensures OneName(Step(s, e))
  {
    if e.Reply? {
      ReplyEffect(s, e.receipt, e.calls);
    }
  }

  lemma {:induction false} NamesStay(s: Store, events: seq<Event>)
    requires Inv(s) && OneName(s)
    ensures OneName(Run(s, events))
    decreases |events|
  {
    if events != [] {
      StepGrows(s, events[0]);
      NamesNext(s, events[0]);
      NamesStay(Step(s, events[0]), events[1..]);
    }
  }

  /** After any run a message answers to one envelope id, the one of its last build: a receipt for an
      envelope that was built over does nothing. */
  lemma OnlyTheLastBuildIsAnswered(events: seq<Event>, row: nat, id: nat, recorded: Option<nat>, r: Receipt)
    requires var s := Run(Nothing, events); row in s.states && row !in s.shown && id !in s.envelopes
    ensures var t := Step(Run(Nothing, events), Published(row, id, recorded));
            && id in t.envelopes && t.envelopes[id] == row
            && (r.id in t.envelopes && t.envelopes[r.id] == row ==> r.id == id)
            && (r.id in Run(Nothing, events).envelopes && Run(Nothing, events).envelopes[r.id] == row
                ==> OpsFor(t, r) == [])
  {
    NamesStay(Nothing, events);
  }

  /** Confirmed attachments stay confirmed, and what a row is does not change. */
  lemma ConfirmationsStay(s: Store, e: Event, row: nat)
    requires Inv(s)
    ensures row in s.downloaded ==> row in Step(s, e).downloaded
    ensures row in s.states ==> row in Step(s, e).states && (row in Step(s, e).attachments <==> row in s.attachments)
  {
    StepGrows(s, e);
    if e.Reply? {
      ReplyEffect(s, e.receipt, e.calls);
    }
  }

  lemma ConfirmationMarks(s: Store, e: Event, row: nat)
    requires Inv(s) && Confirms(s, e, row) && e.calls > 0 && row in s.attachments
    ensures row in Step(s, e).downloaded
  {
    var ops := OpsFor(s, e.receipt);
    assert ops == [MarkDownloaded(row)] && Prefix(ops, e.calls) == ops;
    OneCall(s, MarkDownloaded(row));
  }

  lemma {:induction false} ConfirmedForGood(s: Store, events: seq<Event>, i: nat, row: nat)
    requires Inv(s) && i <= |events|
    requires if i < |events| then Confirms(Run(s, events[..i]), events[i], row) && events[i].calls > 0
             else row in s.downloaded
    requires row in Run(s, events).attachments
    ensures row in Run(s, events).downloaded
    decreases |events|
  {
    if events != [] {
      var t, rest := Step(s, events[0]), events[1..];
      StepGrows(s, events[0]);
      ConfirmationsStay(s, events[0], row);
      if i == 0 {
        assert events[..0] == [];
        AttachmentsStay(s, events, row);
        ConfirmationMarks(s, events[0], row);
        ConfirmedForGood(t, rest, |rest|, row);
      } else if i < |events| {
        assert events[..i][0] == events[0] && events[..i][1..] == rest[..i - 1];
        ConfirmedForGood(t, rest, i - 1, row);
      } else {
        ConfirmedForGood(t, rest, |rest|, row);
      }
    }
  }

  lemma {:induction false} AttachmentsStay(s: Store, events: seq<Event>, row: nat)
    requires Inv(s) && row in s.states
    ensures row in Run(s, events).attachments <==> row in s.attachments
    decreases |events|
  {
    if events != [] {
      StepGrows(s, events[0]);
      ConfirmationsStay(s, events[0], row);
      AttachmentsStay(Step(s, events[0]), events[1..], row);
    }
  }

  /** The other direction: once a `0x05` receipt for a message with an attachment has been processed
      and the message is reclaimed, the next pass of the group reclaim spends its chunks. */
  lemma ConfirmedChunksAreSpent(events: seq<Event>, i: nat, row: nat)
    requires i < |events| && Confirms(Run(Nothing, events[..i]), events[i], row) && events[i].calls > 0
    requires var s := Run(Nothing, events); row in s.attachments && row in s.states && s.states[row] == Reclaimed
    ensures row in Step(Run(Nothing, events), GroupPass(row)).spentChunks
  {
    ConfirmedForGood(Nothing, events, i, row);
  }

  // ---------------------------------------------------------------- funding again

  predicate LegalPath(from: State, path: seq<State>)
    decreases |path|
  {
    path == [] || (CanTransition(Outgoing, from, path[0]) && LegalPath(path[0], path[1..]))
  }

  function EndOf(from: State, path: seq<State>): State {
    if path == [] then from else path[|path| - 1]
  }

  lemma PathEdge(i: nat)
    requires i + 1 < PATH_LENGTH
    ensures CanTransition(Outgoing, PathState(i), PathState(i + 1)) && PathState(i + 1) != Failed
  {
  }

  lemma FirstStep(i: nat, j: nat)
    requires i < j < PATH_LENGTH
    ensures PathSteps(i, j) == [PathState(i + 1)] + PathSteps(i + 1, j)
  {
  }

  lemma {:induction false} StepsAreALegalPath(i: nat, j: nat)
    requires i <= j < PATH_LENGTH
    ensures LegalPath(PathState(i), PathSteps(i, j))
    decreases j - i
  {
    if i < j {
      StepsAreALegalPath(i + 1, j);
      PathEdge(i);
      FirstStep(i, j);
      OneStepMore(PathState(i), PathState(i + 1), PathSteps(i + 1, j));
    }
  }

  lemma {:induction false} StepCount(i: nat, j: nat)
    requires i <= j < PATH_LENGTH
    ensures |PathSteps(i, j)| == j - i
    decreases j - i
  {
    if i < j {
      StepCount(i + 1, j);
    }
  }

  lemma {:induction false} StepAt(i: nat, j: nat, k: nat)
    requires i <= j < PATH_LENGTH && k < j - i && |PathSteps(i, j)| == j - i
    ensures PathSteps(i, j)[k] == PathState(i + 1 + k)
    decreases k
  {
    FirstStep(i, j);
    if k > 0 {
      StepAt(i + 1, j, k - 1);
    }
  }

  lemma NoStepFails(i: nat, j: nat, k: nat)
    requires i <= j < PATH_LENGTH && k < |PathSteps(i, j)|
    ensures PathSteps(i, j)[k] != Failed
  {
    StepCount(i, j);
    StepAt(i, j, k);
    PathEdge(i + k);
  }

  lemma StepsEnd(i: nat, j: nat)
    requires i <= j < PATH_LENGTH
    ensures EndOf(PathState(i), PathSteps(i, j)) == PathState(j)
  {
    StepCount(i, j);
    if i < j {
      StepAt(i, j, j - i - 1);
    }
  }

  lemma StepsAreLegal(i: nat, j: nat)
    requires i <= j < PATH_LENGTH
    ensures LegalPath(PathState(i), PathSteps(i, j)) && EndOf(PathState(i), PathSteps(i, j)) == PathState(j)
    ensures forall k :: 0 <= k < |PathSteps(i, j)| ==> PathSteps(i, j)[k] != Failed
  {
    StepsAreALegalPath(i, j);
    StepsEnd(i, j);
    forall k | 0 <= k < |PathSteps(i, j)| ensures PathSteps(i, j)[k] != Failed {
      NoStepFails(i, j, k);
    }
  }

  const FIRST: nat := 1
  const LAST: nat := 8

  /** From `queued` to `available_on_chain`. */
  function Retry(): seq<State> {
    [Queued] + PathSteps(FIRST, LAST)
  }

  /** The way to an acknowledgeable state, from anywhere that is not an end state. */
  function Route(from: State): seq<State> {
    if Ackable(from) then []
    else if from == Failed then Retry()
    else if from == ReclaimQueued || from == ReclaimPending then [Failed] + Retry()
    else if OnPath(from) then PathSteps(Rank(from), LAST)
    else []
  }

  lemma OneStepMore(from: State, next: State, rest: seq<State>)
    requires CanTransition(Outgoing, from, next) && LegalPath(next, rest)
    ensures LegalPath(from, [next] + rest) && EndOf(from, [next] + rest) == EndOf(next, rest)
  {
    assert ([next] + rest)[0] == next && ([next] + rest)[1..] == rest;
  }

  lemma RetryArrives(from: State)
    requires from == Failed || from == Draft
    ensures LegalPath(from, Retry()) && EndOf(from, Retry()) == AvailableOnChain
    ensures forall k :: 0 <= k < |Retry()| ==> Retry()[k] != Failed
  {
    StepsAreLegal(FIRST, LAST);
    OneStepMore(from, Queued, PathSteps(FIRST, LAST));
  }

  lemma FailAndRetryArrives(from: State)
    requires from == ReclaimQueued || from == ReclaimPending
    ensures LegalPath(from, [Failed] + Retry()) && EndOf(from, [Failed] + Retry()) == AvailableOnChain
  {
    RetryArrives(Failed);
    OneStepMore(from, Failed, Retry());
  }

  lemma PathArrives(from: State)
    requires OnPath(from) && Rank(from) < LAST
    ensures LegalPath(from, PathSteps(Rank(from), LAST)) && EndOf(from, PathSteps(Rank(from), LAST)) == AvailableOnChain
    ensures forall k :: 0 <= k < |PathSteps(Rank(from), LAST)| ==> PathSteps(Rank(from), LAST)[k] != Failed
  {
    PathPosition(from);
    StepsAreLegal(Rank(from), LAST);
  }

  lemma EndStates(from: State)
    ensures OutgoingEdges(from) != {}
      <==> Ackable(from) || from == Failed || from == ReclaimQueued || from == ReclaimPending
           || (OnPath(from) && Rank(from) < LAST)
  {
    if OutgoingEdges(from) != {} {
      assert Failed in OutgoingEdges(from) || Queued in OutgoingEdges(from);
    } else {
      assert Failed !in OutgoingEdges(from) && Queued !in OutgoingEdges(from);
    }
  }

  lemma RouteArrives(from: State)
    requires OutgoingEdges(from) != {}
    ensures LegalPath(from, Route(from)) && Ackable(EndOf(from, Route(from)))
    ensures Rank(from) < Rank(ReclaimQueued) ==> forall k :: 0 <= k < |Route(from)| ==> Route(from)[k] != Failed
  {
    EndStates(from);
    RouteFrom(from);
  }

  lemma OnItsPath(from: State, path: seq<State>, route: seq<State>)
    requires LegalPath(from, path) && EndOf(from, path) == AvailableOnChain && route == path
    requires forall k :: 0 <= k < |path| ==> path[k] != Failed
    ensures LegalPath(from, route) && Ackable(EndOf(from, route))
    ensures forall k :: 0 <= k < |route| ==> route[k] != Failed
  {
  }

  lemma RouteIsPath(from: State)
    requires OnPath(from) && Rank(from) < LAST
    ensures Route(from) == PathSteps(Rank(from), LAST)
  {
  }

  lemma RouteOnPath(from: State)
    requires OnPath(from) && Rank(from) < LAST
    ensures LegalPath(from, Route(from)) && Ackable(EndOf(from, Route(from)))
    ensures Rank(from) < Rank(ReclaimQueued) ==> forall k :: 0 <= k < |Route(from)| ==> Route(from)[k] != Failed
  {
    PathArrives(from);
    RouteIsPath(from);
    OnItsPath(from, PathSteps(Rank(from), LAST), Route(from));
  }

  lemma RouteFromTheSide(from: State)
    requires from == Failed || from == ReclaimQueued || from == ReclaimPending
    ensures LegalPath(from, Route(from)) && Ackable(EndOf(from, Route(from)))
    ensures Rank(from) < Rank(ReclaimQueued) ==> forall k :: 0 <= k < |Route(from)| ==> Route(from)[k] != Failed
  {
    if from == Failed {
      RetryArrives(Failed);
      assert Route(from) == Retry();
    } else {
      FailAndRetryArrives(from);
      assert Route(from) == [Failed] + Retry();
    }
  }

  lemma RouteFrom(from: State)
    requires Ackable(from) || from == Failed || from == ReclaimQueued || from == ReclaimPending
          || (OnPath(from) && Rank(from) < LAST)
    ensures LegalPath(from, Route(from)) && Ackable(EndOf(from, Route(from)))
    ensures Rank(from) < Rank(ReclaimQueued) ==> forall k :: 0 <= k < |Route(from)| ==> Route(from)[k] != Failed
  {
    if Ackable(from) {
      assert Route(from) == [];
    } else if OnPath(from) && Rank(from) < LAST {
      RouteOnPath(from);
    } else {
      RouteFromTheSide(from);
    }
  }

  function Moves(row: nat, path: seq<State>): (events: seq<Event>)
    ensures |events| == |path| && forall k :: 0 <= k < |path| ==> events[k] == RowMoves(row, path[k])
  {
    seq(|path|, k requires 0 <= k < |path| => RowMoves(row, path[k]))
  }

  /** Moves that fail the row nowhere, or only before it is in reclaim. */
  predicate Unfailing(from: State, path: seq<State>) {
    || (forall k :: 0 <= k < |path| ==> path[k] != Failed)
    || (Rank(from) < Rank(ReclaimQueued) && forall k :: 0 <= k < |path| ==> Rank(path[k]) < Rank(ReclaimQueued))
  }

  lemma UpdatedTwice(states: map<nat, State>, row: nat, a: State, b: State)
    ensures states[row := a][row := b] == states[row := b]
  {
  }

  lemma OneMove(s: Store, row: nat, path: seq<State>)
    requires row in s.states && path != [] && LegalPath(s.states[row], path)
    ensures var t := Moved(s, row, path[0]);
            && Run(s, Moves(row, path)) == Run(t, Moves(row, path[1..]))
            && ReclaimFailures(s, Moves(row, path), row)
               == (if FailsInReclaim(s, RowMoves(row, path[0]), row) then 1 else 0)
                  + ReclaimFailures(t, Moves(row, path[1..]), row)
  {
    assert Moves(row, path)[1..] == Moves(row, path[1..]);
  }

  lemma UnfailingOn(s: Store, row: nat, path: seq<State>)
    requires row in s.states && path != [] && Unfailing(s.states[row], path)
    ensures Unfailing(path[0], path[1..]) && !FailsInReclaim(s, RowMoves(row, path[0]), row)
  {
  }

  lemma {:induction false} MovesArrive(s: Store, row: nat, path: seq<State>)
    requires row in s.states && LegalPath(s.states[row], path)
    ensures var t := Run(s, Moves(row, path));
            && t == s.(states := s.states[row := EndOf(s.states[row], path)], shown := t.shown)
            && s.shown <= t.shown
            && ((forall k :: 0 <= k < |path| ==> Rank(path[k]) < Rank(Committed)) ==> t.shown == s.shown)
    ensures Unfailing(s.states[row], path) ==> ReclaimFailures(s, Moves(row, path), row) == 0
    decreases |path|
  {
    if path == [] {
      assert s.states[row := s.states[row]] == s.states;
    } else {
      var t := Moved(s, row, path[0]);
      OneMove(s, row, path);
      MovesArrive(t, row, path[1..]);
      UpdatedTwice(s.states, row, path[0], EndOf(path[0], path[1..]));
      if Unfailing(s.states[row], path) {
        UnfailingOn(s, row, path);
      }
    }
  }

  lemma {:induction false} Unused(ids: set<nat>) returns (id: nat)
    ensures forall k :: k in ids ==> k < id
  {
    if ids == {} {
      id := 0;
    } else {
      var k :| k in ids;
      var rest := Unused(ids - {k});
      id := if k < rest then rest else k + 1;
      assert forall x :: x in ids ==> x == k || x in ids - {k};
    }
  }

  lemma ReplyFunds(t: Store, row: nat, id: nat)
    requires Inv(t) && row in t.states && Ackable(t.states[row]) && row in t.capacity
    requires id in t.envelopes && t.envelopes[id] == row
    ensures Step(t, Reply(Receipt(id, DOWNLOADED), 4)) == QueuedOnce(t, row)
  {
    AcknowledgeIsLegal(t, row);
    assert OpsFor(t, Receipt(id, DOWNLOADED)) == AckOps(t, row, t.states[row]);
    assert Prefix(AckOps(t, row, t.states[row]), 4) == AckOps(t, row, t.states[row]);
  }

  lemma {:induction false} FailuresAppend(s: Store, a: seq<Event>, b: seq<Event>, row: nat)
    ensures ReclaimFailures(s, a + b, row) == ReclaimFailures(s, a, row) + ReclaimFailures(Run(s, a), b, row)
    decreases |a|
  {
    if a == [] {
      assert a + b == b;
    } else {
      FailuresAppend(Step(s, a[0]), a[1..], b, row);
      assert (a + b)[0] == a[0] && (a + b)[1..] == a[1..] + b;
    }
  }

  /** One stretch of a run after another. */
  lemma Then(s: Store, a: seq<Event>, t: Store, b: seq<Event>, row: nat)
    requires Run(s, a) == t
    ensures Run(s, a + b) == Run(t, b)
    ensures ReclaimFailures(s, a + b, row) == ReclaimFailures(s, a, row) + ReclaimFailures(t, b, row)
  {
    RunAppends(s, a, b);
    FailuresAppend(s, a, b, row);
  }

  lemma OneEvent(s: Store, e: Event, row: nat)
    ensures Run(s, [e]) == Step(s, e)
    ensures ReclaimFailures(s, [e], row) == if FailsInReclaim(s, e, row) then 1 else 0
  {
    assert [e][1..] == [];
    assert Run(Step(s, e), []) == Step(s, e) && ReclaimFailures(Step(s, e), [], row) == 0;
  }

  // ---------------------------------------------------------------- funding under an envelope id

  /** The row can be found by a receipt and has a capacity to fund. */
  predicate Addressed(s: Store, row: nat, id: nat) {
    id in s.envelopes && s.envelopes[id] == row && row in s.capacity
  }

  function OnceMore(funded: map<nat, nat>, row: nat): map<nat, nat> {
    if row in funded then funded[row := funded[row] + 1] else funded
  }

  function Receive(id: nat): Event {
    Reply(Receipt(id, DOWNLOADED), 4)
  }

  function Acked(row: nat, path: seq<State>, id: nat): seq<Event> {
    Moves(row, path) + [Receive(id)]
  }

  lemma UnfailingMoves(s: Store, row: nat, path: seq<State>)
    requires row in s.states && LegalPath(s.states[row], path) && Unfailing(s.states[row], path)
    ensures ReclaimFailures(s, Moves(row, path), row) == 0
  {
    MovesArrive(s, row, path);
  }

  lemma EarlyMovesFailNothing(s: Store, row: nat, path: seq<State>)
    requires Inv(s) && row in s.states && row !in s.shown && LegalPath(s.states[row], path)
    requires forall k :: 0 <= k < |path| ==> Rank(path[k]) < Rank(Committed)
    ensures ReclaimFailures(s, Moves(row, path), row) == 0
  {
    EarlyStates(s, row);
    UnfailingMoves(s, row, path);
  }

  lemma MovesKeepAddress(s: Store, row: nat, path: seq<State>, id: nat) returns (m: Store)
    requires Inv(s) && row in s.states && LegalPath(s.states[row], path)
    ensures m == Run(s, Moves(row, path)) && Inv(m) && m.states == s.states[row := EndOf(s.states[row], path)]
    ensures m.funded == s.funded && m.envelopes == s.envelopes && m.capacity == s.capacity
    ensures (forall k :: 0 <= k < |path| ==> Rank(path[k]) < Rank(Committed)) ==> m.shown == s.shown
  {
    MovesArrive(s, row, path);
    RunGrows(s, Moves(row, path), row);
    m := Run(s, Moves(row, path));
  }

  lemma ReceiptFunds(m: Store, row: nat, id: nat)
    requires Inv(m) && row in m.states && Ackable(m.states[row]) && Addressed(m, row, id)
    ensures var t := Step(m, Receive(id));
            && Inv(t) && t.states == m.states[row := ReclaimQueued] && t.funded == OnceMore(m.funded, row)
            && Addressed(t, row, id)
  {
    ReplyFunds(m, row, id);
    StepGrows(m, Receive(id));
  }

  /** Along any way to an acknowledgeable state the receipt that is already there funds the row. */
  lemma AckedFunds(s: Store, row: nat, path: seq<State>, id: nat) returns (t: Store)
    requires Inv(s) && row in s.states && Addressed(s, row, id)
    requires LegalPath(s.states[row], path) && Ackable(EndOf(s.states[row], path))
    ensures t == Run(s, Acked(row, path, id)) && Inv(t) && Addressed(t, row, id)
    ensures t.states == s.states[row := ReclaimQueued] && t.funded == OnceMore(s.funded, row)
    ensures ReclaimFailures(s, Acked(row, path, id), row) == ReclaimFailures(s, Moves(row, path), row)
  {
    var m := MovesKeepAddress(s, row, path, id);
    ReceiptFunds(m, row, id);
    UpdatedTwice(s.states, row, EndOf(s.states[row], path), ReclaimQueued);
    OneEvent(m, Receive(id), row);
    Then(s, Moves(row, path), m, [Receive(id)], row);
    t := Step(m, Receive(id));
  }

  /** A build gives the row its envelope id and its capacity. */
  lemma BuildAddresses(s: Store, row: nat, id: nat)
    requires Inv(s) && row in s.states && row !in s.shown && id !in s.envelopes
    ensures var t := Step(s, Published(row, id, Some(1)));
            && Inv(t) && t.states == s.states && t.funded == s.funded && Addressed(t, row, id)
  {
    PublishedGrows(s, Published(row, id, Some(1)));
  }

  function Build(row: nat, before: seq<State>, id: nat): seq<Event> {
    Moves(row, before) + [Published(row, id, Some(1))]
  }

  function Built(row: nat, before: seq<State>, id: nat, after: seq<State>): seq<Event> {
    Build(row, before, id) + Acked(row, after, id)
  }

  lemma Builds(s: Store, row: nat, before: seq<State>, id: nat) returns (b: Store)
    requires Inv(s) && row in s.states && row !in s.shown && id !in s.envelopes
    requires LegalPath(s.states[row], before) && forall k :: 0 <= k < |before| ==> Rank(before[k]) < Rank(Committed)
    ensures b == Run(s, Build(row, before, id)) && Inv(b) && b.states == s.states[row := EndOf(s.states[row], before)]
    ensures b.funded == s.funded && Addressed(b, row, id)
    ensures ReclaimFailures(s, Build(row, before, id), row) == 0
  {
    var m := MovesKeepAddress(s, row, before, id);
    BuildAddresses(m, row, id);
    b := Step(m, Published(row, id, Some(1)));
    OneEvent(m, Published(row, id, Some(1)), row);
    EarlyMovesFailNothing(s, row, before);
    Then(s, Moves(row, before), m, [Published(row, id, Some(1))], row);
  }

  lemma BuiltThenAcked(b: Store, row: nat, id: nat, after: seq<State>) returns (t: Store)
    requires Inv(b) && row in b.states && Addressed(b, row, id) && LegalPath(b.states[row], after)
    requires Ackable(EndOf(b.states[row], after)) && forall k :: 0 <= k < |after| ==> after[k] != Failed
    ensures t == Run(b, Acked(row, after, id)) && Inv(t) && Addressed(t, row, id)
    ensures t.states == b.states[row := ReclaimQueued] && t.funded == OnceMore(b.funded, row)
    ensures ReclaimFailures(b, Acked(row, after, id), row) == 0
  {
    UnfailingMoves(b, row, after);
    t := AckedFunds(b, row, after, id);
  }

  lemma BuiltRuns(s: Store, row: nat, before: seq<State>, id: nat, after: seq<State>, b: Store)
    requires b == Run(s, Build(row, before, id)) && ReclaimFailures(s, Build(row, before, id), row) == 0
    requires ReclaimFailures(b, Acked(row, after, id), row) == 0
    ensures Run(s, Built(row, before, id, after)) == Run(b, Acked(row, after, id))
    ensures ReclaimFailures(s, Built(row, before, id, after), row) == 0
  {
    Then(s, Build(row, before, id), b, Acked(row, after, id), row);
  }

  /** A row that has not been shown committed is built on the way and funded by its first receipt. */
  lemma BuiltFunds(s: Store, row: nat, before: seq<State>, id: nat, after: seq<State>) returns (t: Store)
    requires Inv(s) && row in s.states && row !in s.shown && id !in s.envelopes
    requires LegalPath(s.states[row], before) && forall k :: 0 <= k < |before| ==> Rank(before[k]) < Rank(Committed)
    requires LegalPath(EndOf(s.states[row], before), after) && Ackable(EndOf(EndOf(s.states[row], before), after))
    requires forall k :: 0 <= k < |after| ==> after[k] != Failed
    ensures t == Run(s, Built(row, before, id, after)) && Inv(t) && Addressed(t, row, id)
    ensures t.states == s.states[row := ReclaimQueued] && t.funded == OnceMore(s.funded, row)
    ensures ReclaimFailures(s, Built(row, before, id, after), row) == 0
  {
    var b := Builds(s, row, before, id);
    t := BuiltThenAcked(b, row, id, after);
    UpdatedTwice(s.states, row, EndOf(s.states[row], before), ReclaimQueued);
    BuiltRuns(s, row, before, id, after, b);
  }

  lemma EarlyStates(s: Store, row: nat)
    requires Inv(s) && row in s.states && row !in s.shown
    ensures Rank(s.states[row]) < Rank(Committed)
  {
  }

  // ---------------------------------------------------------------- when funding is possible

  ghost predicate CanBeFundedAgain(s: Store, row: nat)
    requires row in s.funded
  {
    exists more :: row in Run(s, more).funded && Run(s, more).funded[row] > s.funded[row]
  }

  ghost predicate CanBeFundedAgainUnfailed(s: Store, row: nat)
    requires row in s.funded
  {
    exists more :: ReclaimFailures(s, more, row) == 0 && row in Run(s, more).funded
                   && Run(s, more).funded[row] > s.funded[row]
  }

  ghost predicate IsAddressed(s: Store, row: nat) {
    exists id :: Addressed(s, row, id)
  }

  /** Not in an end state, and either still to be built or built with envelope id and capacity. */
  ghost predicate Fundable(s: Store, row: nat) {
    row in s.states && OutgoingEdges(s.states[row]) != {} && (row in s.shown ==> IsAddressed(s, row))
  }

  const SUBMITTING: nat := 5

  /** Through `queued`, failing first where that takes it. */
  function ThroughQueued(from: State, steps: seq<State>): seq<State> {
    if from == Failed || from == Draft then [Queued] + steps else [Failed] + ([Queued] + steps)
  }

  /** The way of a row that has not been shown committed to the point where it is built. */
  function ToTheBuild(from: State): seq<State> {
    ThroughQueued(from, PathSteps(FIRST, SUBMITTING))
  }

  predicate AllEarly(path: seq<State>) {
    forall k :: 0 <= k < |path| ==> Rank(path[k]) < Rank(Committed)
  }

  lemma ThroughQueuedArrives(from: State, steps: seq<State>)
    requires OutgoingEdges(from) != {} && Rank(from) < Rank(Committed)
    requires LegalPath(Queued, steps) && steps != [] && AllEarly(steps)
    ensures var path := ThroughQueued(from, steps);
            LegalPath(from, path) && AllEarly(path) && EndOf(from, path) == EndOf(Queued, steps)
  {
    OneStepMore(Failed, Queued, steps);
    if from == Failed || from == Draft {
      OneStepMore(from, Queued, steps);
    } else {
      EarlyStatesCanFail(from);
      OneStepMore(from, Failed, [Queued] + steps);
    }
  }

  lemma ToTheBuildArrives(from: State)
    requires OutgoingEdges(from) != {} && Rank(from) < Rank(Committed)
    ensures LegalPath(from, ToTheBuild(from)) && EndOf(from, ToTheBuild(from)) == Submitting
    ensures AllEarly(ToTheBuild(from))
  {
    StepsAreLegal(FIRST, SUBMITTING);
    StepsAreEarly(FIRST, SUBMITTING);
    ThroughQueuedArrives(from, PathSteps(FIRST, SUBMITTING));
  }

  lemma EarlyStatesCanFail(from: State)
    requires OutgoingEdges(from) != {} && Rank(from) < Rank(Committed) && from != Failed
    ensures Failed in OutgoingEdges(from)
  {
  }

  lemma {:induction false} StepsAreEarly(i: nat, j: nat)
    requires i <= j <= SUBMITTING
    ensures AllEarly(PathSteps(i, j))
    decreases j - i
  {
    if i < j {
      StepsAreEarly(i + 1, j);
    }
  }

  lemma FundBuilt(s: Store, row: nat) returns (more: seq<Event>)
    requires Inv(s) && row in s.states && OutgoingEdges(s.states[row]) != {} && row !in s.shown
    ensures row in Run(s, more).funded && Run(s, more).funded[row] == s.funded[row] + 1
    ensures ReclaimFailures(s, more, row) == 0
  {
    var id := Unused(s.envelopes.Keys);
    EarlyStates(s, row);
    ToTheBuildArrives(s.states[row]);
    StepsAreLegal(SUBMITTING, LAST);
    var t := BuiltFunds(s, row, ToTheBuild(s.states[row]), id, PathSteps(SUBMITTING, LAST));
    more := Built(row, ToTheBuild(s.states[row]), id, PathSteps(SUBMITTING, LAST));
  }

  lemma FundAddressed(s: Store, row: nat, id: nat) returns (more: seq<Event>)
    requires Inv(s) && row in s.states && OutgoingEdges(s.states[row]) != {} && Addressed(s, row, id)
    ensures row in Run(s, more).funded && Run(s, more).funded[row] == s.funded[row] + 1
    ensures Rank(s.states[row]) < Rank(ReclaimQueued) ==> ReclaimFailures(s, more, row) == 0
  {
    var path := Route(s.states[row]);
    RouteArrives(s.states[row]);
    MovesArrive(s, row, path);
    var t := AckedFunds(s, row, path, id);
    more := Acked(row, path, id);
  }

  lemma FundAgain(s: Store, row: nat) returns (more: seq<Event>)
    requires Inv(s) && Fundable(s, row)
    ensures row in Run(s, more).funded && Run(s, more).funded[row] == s.funded[row] + 1
    ensures Rank(s.states[row]) < Rank(ReclaimQueued) ==> ReclaimFailures(s, more, row) == 0
  {
    if row in s.shown {
      var id :| Addressed(s, row, id);
      more := FundAddressed(s, row, id);
    } else {
      more := FundBuilt(s, row);
    }
  }

  /** What cannot be funded now can never be. */
  lemma StaysUnfundable(s: Store, e: Event, row: nat)
    requires Inv(s) && row in s.states && !Fundable(s, row)
    ensures var t := Step(s, e);
            row in t.states && !Fundable(t, row) && row in t.funded && t.funded[row] == s.funded[row]
  {
    if e.Reply? {
      ReplyEffect(s, e.receipt, e.calls);
      RepliesKeepAddresses(s, e, row);
    } else {
      MovesAndBuildsKeepAddresses(s, e, row);
    }
  }

  lemma RepliesKeepAddresses(s: Store, e: Event, row: nat)
    requires Inv(s) && row in s.states && !Fundable(s, row) && e.Reply?
    ensures var t := Step(s, e);
            row in t.states && !Fundable(t, row) && row in t.funded && t.funded[row] == s.funded[row]
  {
    ReplyEffect(s, e.receipt, e.calls);
    var t := Step(s, e);
    assert t.envelopes == s.envelopes && t.capacity == s.capacity && t.shown == s.shown;
    assert forall id :: Addressed(t, row, id) <==> Addressed(s, row, id);
    assert e.receipt.id in s.envelopes && s.envelopes[e.receipt.id] == row && row in s.capacity
           ==> Addressed(s, row, e.receipt.id);
  }

  lemma MovesAndBuildsKeepAddresses(s: Store, e: Event, row: nat)
    requires Inv(s) && row in s.states && !Fundable(s, row) && !e.Reply?
    ensures var t := Step(s, e);
            row in t.states && !Fundable(t, row) && row in t.funded && t.funded[row] == s.funded[row]
  {
    var t := Step(s, e);
    forall id | Addressed(t, row, id) && row in s.shown ensures Addressed(s, row, id) {
    }
  }

  lemma {:induction false} UnfundableForGood(s: Store, events: seq<Event>, row: nat)
    requires Inv(s) && row in s.states && !Fundable(s, row)
    ensures row in Run(s, events).funded && Run(s, events).funded[row] == s.funded[row]
    decreases |events|
  {
    if events != [] {
      StepGrows(s, events[0]);
      StaysUnfundable(s, events[0], row);
      UnfundableForGood(Step(s, events[0]), events[1..], row);
    }
  }

  /** Exactly when a message can be funded (again): its row is not in an end state, and it is still
      to be built or was built with envelope id and capacity. Without failing it in reclaim it must
      also not have reached reclaim. */
  lemma WhenFundingIsPossible(events: seq<Event>, row: nat)
    requires row in Run(Nothing, events).states
    ensures var s := Run(Nothing, events);
            && row in s.funded
            && (CanBeFundedAgain(s, row) <==> Fundable(s, row))
            && (CanBeFundedAgainUnfailed(s, row) <==> Fundable(s, row) && !InReclaim(s, row))
  {
    RunGrows(Nothing, events, row);
    var s := Run(Nothing, events);
    if Fundable(s, row) {
      var more := FundAgain(s, row);
      assert Run(s, more).funded[row] > s.funded[row];
    }
    forall more | row in Run(s, more).funded && Run(s, more).funded[row] > s.funded[row]
      ensures Fundable(s, row)
      ensures ReclaimFailures(s, more, row) == 0 ==> !InReclaim(s, row)
    {
      if !Fundable(s, row) {
        UnfundableForGood(s, more, row);
      }
      RunGrows(s, more, row);
    }
  }

  // ---------------------------------------------------------------- twice under one envelope id

  /** A message built, committed and acknowledged under envelope id 7, failed while queued for
      reclaim, resumed to `available_on_chain`; then the same receipt is seen again. */
  function FundingTwice(): seq<Event> {
    [NewMessage(0, false)]
    + (Built(0, ToTheBuild(Draft), 7, PathSteps(SUBMITTING, LAST)) + Acked(0, [Failed] + Retry(), 7))
  }

  lemma FundedTwice()
    ensures var s := Run(Nothing, FundingTwice()); 0 in s.funded && s.funded[0] == 2
    ensures ReclaimFailures(Nothing, FundingTwice(), 0) == 1
  {
    ToTheBuildArrives(Draft);
    StepsAreLegal(SUBMITTING, LAST);
    RetryArrives(Failed);
    FailAndRetryArrives(ReclaimQueued);
    FundedAlong(ToTheBuild(Draft), PathSteps(SUBMITTING, LAST), [Failed] + Retry(), 7);
  }

  lemma Begun() returns (s: Store)
    ensures Run(Nothing, [NewMessage(0, false)]) == s && Inv(s)
    ensures s.states == map[0 := Draft] && s.funded == map[0 := 0] && s.envelopes == map[] && s.shown == {}
    ensures ReclaimFailures(Nothing, [NewMessage(0, false)], 0) == 0
  {
    s := Step(Nothing, NewMessage(0, false));
    OneEvent(Nothing, NewMessage(0, false), 0);
  }

  /** `again` fails the row and then goes all the way. */
  lemma FundedAlong(before: seq<State>, after: seq<State>, again: seq<State>, id: nat)
    requires LegalPath(Draft, before) && forall k :: 0 <= k < |before| ==> Rank(before[k]) < Rank(Committed)
    requires LegalPath(EndOf(Draft, before), after) && Ackable(EndOf(EndOf(Draft, before), after))
    requires forall k :: 0 <= k < |after| ==> after[k] != Failed
    requires LegalPath(ReclaimQueued, again) && again != [] && Ackable(again[|again| - 1]) && again[0] == Failed
    requires forall k :: 1 <= k < |again| ==> again[k] != Failed
    ensures var events := [NewMessage(0, false)] + (Built(0, before, id, after) + Acked(0, again, id));
            && 0 in Run(Nothing, events).funded && Run(Nothing, events).funded[0] == 2
            && ReclaimFailures(Nothing, events, 0) == 1
  {
    var s := Begun();
    var t := BuiltFunds(s, 0, before, id, after);
    var u := AckedFunds(t, 0, again, id);
    OneFailure(t, again);
    InThatOrder(s, Built(0, before, id, after), t, Acked(0, again, id));
  }

  lemma InThatOrder(s: Store, first: seq<Event>, t: Store, second: seq<Event>)
    requires Run(Nothing, [NewMessage(0, false)]) == s && ReclaimFailures(Nothing, [NewMessage(0, false)], 0) == 0
    requires Run(s, first) == t && ReclaimFailures(s, first, 0) == 0
    ensures Run(Nothing, [NewMessage(0, false)] + (first + second)) == Run(t, second)
    ensures ReclaimFailures(Nothing, [NewMessage(0, false)] + (first + second), 0) == ReclaimFailures(t, second, 0)
  {
    Then(s, first, t, second, 0);
    Then(Nothing, [NewMessage(0, false)], s, first + second, 0);
  }

  lemma OneFailure(t: Store, again: seq<State>)
    requires 0 in t.states && t.states[0] == ReclaimQueued && LegalPath(ReclaimQueued, again)
    requires again != [] && again[0] == Failed && forall k :: 1 <= k < |again| ==> again[k] != Failed
    ensures ReclaimFailures(t, Moves(0, again), 0) == 1
  {
    var failed := Step(t, RowMoves(0, Failed));
    assert Moves(0, again)[0] == RowMoves(0, Failed) && Moves(0, again)[1..] == Moves(0, again[1..]);
    MovesArrive(failed, 0, again[1..]);
  }
}
