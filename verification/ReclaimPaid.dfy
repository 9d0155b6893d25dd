/** What becomes of a reclaim transaction once a caller has won its record: over every run its rows
    are shown as reclaimed and its capacity and fee are credited, unless that caller was cut short. */
module ReclaimPaid {
  import opened Options
  import opened MessageStates
  import opened Chain
  import opened Journal
  import opened Reclaim
  import N = ReclaimNews

  /** The first `n` rows the transaction covers are shown as reclaimed. */
  ghost predicate RowsDone(s: Store, tx: Tx, n: nat) {
    forall j :: 0 <= j < n && j < |tx.covers| ==>
      tx.covers[j].row in s.rows && s.rows[tx.covers[j].row].state == Reclaimed
  }

  /** All of it: rows, release and burn. */
  ghost predicate Finished(s: Store, tx: Tx) {
    && RowsDone(s, tx, |tx.covers|)
    && (Total(tx.covers) > tx.fee ==> Logged(s.released, tx))
    && (tx.fee > 0 ==> Logged(s.burned, tx))
  }

  /** How many rows a winner has dealt with. */
  function Settled(pc: Pc): nat
    requires Winner(pc)
  {
    match pc
    case Settle(_, _, i) => i
    case WatchFind(_, i) => i + 1
    case WatchMark(_, i) => i + 1
    case _ => |pc.b.tx.covers|
  }

  ghost predicate OnTheWay(s: Store, pc: Pc, tx: Tx) {
    && Winner(pc) && pc.b.tx == tx && RowsDone(s, tx, Settled(pc))
    && (pc.WatchMark? ==> pc.i < |tx.covers|)
  }

  /** A caller that has won the transaction's record is still at it. */
  ghost predicate Underway(w: World, tx: Tx) {
    exists c :: c in w.callers && OnTheWay(w.store, w.callers[c], tx)
  }

  /** The swap: the record was submitted, and this caller moves it to committed. */
  ghost predicate Swaps(w: World, e: Event, tx: Tx) {
    && e.Done? && e.c in w.callers && w.callers[e.c].Cas? && w.callers[e.c].b.tx == tx
    && IsIn(w.store.journal, tx, Submitted)
  }

  ghost predicate Swapped(w: World, events: seq<Event>, tx: Tx)
    decreases |events|
  {
    events != [] && (Swaps(w, events[0], tx) || Swapped(Step(w, events[0]), events[1..], tx))
  }

  /** A store call of a winner that the store refuses: a row that somebody has taken out of reclaim,
      or a watch that is gone or was marked for another spender. */
  ghost predicate Refused(s: Store, pc: Pc) {
    || (pc.Settle? && pc.i < |pc.b.ids|
        && (pc.b.ids[pc.i] !in s.rows
            || (s.rows[pc.b.ids[pc.i]].state != ReclaimPending && s.rows[pc.b.ids[pc.i]].state != Reclaimed)))
    || (pc.WatchMark? && pc.i < |pc.b.tx.covers|
        && (pc.b.tx.covers[pc.i].cell !in s.watches
            || s.watches[pc.b.tx.covers[pc.i].cell].spender !in {NotSpent, SpentBy(pc.b.tx)}))
  }

  /** The winner dies, or the store refuses one of its calls. */
  ghost predicate Cuts(w: World, e: Event, tx: Tx) {
    && (e.Die? || e.Done?) && e.c in w.callers && Winner(w.callers[e.c]) && w.callers[e.c].b.tx == tx
    && (e.Done? ==> Refused(w.store, w.callers[e.c]))
  }

  ghost predicate CutShort(w: World, events: seq<Event>, tx: Tx)
    decreases |events|
  {
    events != [] && (Cuts(w, events[0], tx) || CutShort(Step(w, events[0]), events[1..], tx))
  }

  // ---------------------------------------------------------------- what stays

  /** Reclaimed rows stay reclaimed and credits stay in the logs. */
  ghost predicate Stays(s: Store, t: Store) {
    && (forall r :: r in s.rows && s.rows[r].state == Reclaimed ==> r in t.rows && t.rows[r].state == Reclaimed)
    && (forall tx :: Logged(s.released, tx) ==> Logged(t.released, tx))
    && (forall tx :: Logged(s.burned, tx) ==> Logged(t.burned, tx))
  }

  lemma ReturnsStay(s: Store, pc: Pc)
    ensures Stays(s, Returns(s, pc).store)
  {
    LogsGrowByTheWinner(s, pc);
    if pc.Release? { LoggedAfter(s.released, Credit(pc.b.tx, Net(pc.b.capacity, pc.b.fee))); }
    if pc.Burn? { LoggedAfter(s.burned, Credit(pc.b.tx, pc.b.fee)); }
    RowsStay(s, pc);
  }

  predicate MovesRows(pc: Pc) {
    pc.Requeue? || pc.DeadPending? || pc.DeadReclaimed? || pc.MarkPending? || pc.Settle?
  }

  lemma RowsUntouched(s: Store, pc: Pc)
    requires !MovesRows(pc)
    ensures Returns(s, pc).store.rows == s.rows
  {
  }

  lemma DeadRowsStay(s: Store, pc: Pc)
    requires pc.DeadPending? || pc.DeadReclaimed?
    ensures forall r :: r in s.rows && s.rows[r].state == Reclaimed
              ==> r in Returns(s, pc).store.rows && Returns(s, pc).store.rows[r].state == Reclaimed
  {
  }

  lemma ListedRowsStay(s: Store, pc: Pc)
    requires pc.Requeue? || pc.MarkPending?
    ensures forall r :: r in s.rows && s.rows[r].state == Reclaimed
              ==> r in Returns(s, pc).store.rows && Returns(s, pc).store.rows[r].state == Reclaimed
  {
  }

  lemma SettledRowsStay(s: Store, pc: Pc)
    requires pc.Settle?
    ensures forall r :: r in s.rows && s.rows[r].state == Reclaimed
              ==> r in Returns(s, pc).store.rows && Returns(s, pc).store.rows[r].state == Reclaimed
  {
  }

  lemma RowsStay(s: Store, pc: Pc)
    ensures forall r :: r in s.rows && s.rows[r].state == Reclaimed
              ==> r in Returns(s, pc).store.rows && Returns(s, pc).store.rows[r].state == Reclaimed
  {
    if pc.DeadPending? || pc.DeadReclaimed? {
      DeadRowsStay(s, pc);
    } else if pc.Requeue? || pc.MarkPending? {
      ListedRowsStay(s, pc);
    } else if pc.Settle? {
      SettledRowsStay(s, pc);
    } else {
      RowsUntouched(s, pc);
    }
  }

  lemma OthersStay(s: Store, e: Event)
    requires e.RowMoves? || e.NewRow? || e.RefSet? || e.InMoves? || e.OtherWatch?
    ensures Stays(s, OthersMove(s, e))
  {
  }

  lemma StepStays(w: World, e: Event)
    ensures Stays(w.store, Step(w, e).store)
  {
    N.StoreAfter(w, e);
    if e.Done? && e.c in w.callers {
      ReturnsStay(w.store, w.callers[e.c]);
    } else if N.IsOthers(e) {
      OthersStay(w.store, e);
    }
  }

  lemma FinishedStays(s: Store, t: Store, tx: Tx)
    requires Stays(s, t) && Finished(s, tx)
    ensures Finished(t, tx)
  {
  }

  lemma OnTheWayStays(s: Store, t: Store, pc: Pc, tx: Tx)
    requires Stays(s, t) && OnTheWay(s, pc, tx)
    ensures OnTheWay(t, pc, tx)
  {
  }

  // ---------------------------------------------------------------- the winner's own steps

  /** Everybody else's steps leave the winner where it is. */
  lemma OthersLeaveItThere(w: World, e: Event, c: nat)
    requires c in w.callers && Winner(w.callers[c]) && !((e.Die? || e.Done?) && e.c == c)
    ensures c in Step(w, e).callers && Step(w, e).callers[c] == w.callers[c]
  {
  }

  lemma SettleGoesOn(s: Store, pc: Pc)
    requires pc.Settle? && BatchOk(s, pc.b) && OnTheWay(s, pc, pc.b.tx) && !Refused(s, pc)
    ensures var o := Returns(s, pc); o.pc.Some? && OnTheWay(o.store, o.pc.value, pc.b.tx)
  {
    RowsStay(s, pc);
  }

  lemma WatchGoesOn(s: Store, pc: Pc)
    requires (pc.WatchFind? || pc.WatchMark?) && OnTheWay(s, pc, pc.b.tx) && !Refused(s, pc)
    ensures var o := Returns(s, pc); o.pc.Some? && OnTheWay(o.store, o.pc.value, pc.b.tx)
  {
  }

  lemma ReleaseGoesOn(s: Store, pc: Pc)
    requires pc.Release? && BatchOk(s, pc.b) && OnTheWay(s, pc, pc.b.tx)
    ensures var o := Returns(s, pc); o.pc.Some? && OnTheWay(o.store, o.pc.value, pc.b.tx)
  {
  }

  lemma BurnFinishes(s: Store, pc: Pc)
    requires pc.Burn? && PcOk(s, pc) && OnTheWay(s, pc, pc.b.tx)
    ensures Finished(Returns(s, pc).store, pc.b.tx)
  {
    LoggedAfter(s.burned, Credit(pc.b.tx, pc.b.fee));
  }

  /** A winner's step brings it on or finishes the job. */
  lemma WinnerGoesOn(s: Store, pc: Pc, tx: Tx)
    requires PcOk(s, pc) && OnTheWay(s, pc, tx) && !Refused(s, pc)
    ensures var o := Returns(s, pc); Finished(o.store, tx) || (o.pc.Some? && OnTheWay(o.store, o.pc.value, tx))
  {
    if pc.Settle? {
      SettleGoesOn(s, pc);
    } else if pc.WatchFind? || pc.WatchMark? {
      WatchGoesOn(s, pc);
    } else if pc.Release? {
      ReleaseGoesOn(s, pc);
    } else {
      BurnFinishes(s, pc);
    }
  }

  lemma UnderwayGoesOn(w: World, e: Event, tx: Tx)
    requires Inv(w) && Underway(w, tx) && !Cuts(w, e, tx)
    ensures Underway(Step(w, e), tx) || Finished(Step(w, e).store, tx)
  {
    var c :| c in w.callers && OnTheWay(w.store, w.callers[c], tx);
    var v := Step(w, e);
    if e.Done? && e.c == c {
      assert PcOk(w.store, w.callers[c]);
      WinnerGoesOn(w.store, w.callers[c], tx);
      if !Finished(v.store, tx) {
        assert c in v.callers && OnTheWay(v.store, v.callers[c], tx);
      }
    } else {
      OthersLeaveItThere(w, e, c);
      StepStays(w, e);
      OnTheWayStays(w.store, v.store, w.callers[c], tx);
    }
  }

  lemma SwapBegins(w: World, e: Event, tx: Tx)
    requires Swaps(w, e, tx)
    ensures Underway(Step(w, e), tx)
  {
    assert e.c in Step(w, e).callers && OnTheWay(Step(w, e).store, Step(w, e).callers[e.c], tx);
  }

  lemma {:induction false} OwedIsPaid(w: World, events: seq<Event>, tx: Tx)
    requires Inv(w) && (Underway(w, tx) || Finished(w.store, tx))
    ensures CutShort(w, events, tx) || Underway(Run(w, events), tx) || Finished(Run(w, events).store, tx)
    decreases |events|
  {
    if events != [] && !Cuts(w, events[0], tx) {
      var v := Step(w, events[0]);
      StepKeeps(w, events[0]);
      if Finished(w.store, tx) {
        StepStays(w, events[0]);
        FinishedStays(w.store, v.store, tx);
      } else {
        UnderwayGoesOn(w, events[0], tx);
      }
      OwedIsPaid(v, events[1..], tx);
    }
  }

  lemma {:induction false} SwappedIsPaid(w: World, events: seq<Event>, tx: Tx)
    requires Inv(w) && Swapped(w, events, tx)
    ensures CutShort(w, events, tx) || Underway(Run(w, events), tx) || Finished(Run(w, events).store, tx)
    decreases |events|
  {
    var v := Step(w, events[0]);
    StepKeeps(w, events[0]);
    if Swaps(w, events[0], tx) {
      SwapBegins(w, events[0], tx);
      OwedIsPaid(v, events[1..], tx);
    } else {
      SwappedIsPaid(v, events[1..], tx);
    }
  }

  // ---------------------------------------------------------------- committed records

  lemma JournalAfter(w: World, e: Event)
    ensures Step(w, e).store.journal
            == if e.Done? && e.c in w.callers then Returns(w.store, w.callers[e.c]).store.journal else w.store.journal
  {
    N.StoreAfter(w, e);
  }

  lemma MarkedOtherwise(journal: seq<Record<Terms>>, marked: Tx, state: JournalState, tx: Tx)
    requires IsIn(Marked(journal, marked, state), tx, CommittedTx) && !IsIn(journal, tx, CommittedTx)
    ensures tx == marked && state == CommittedTx
  {
    var after := Marked(journal, marked, state);
    var i :| 0 <= i < |after| && after[i].tx == tx && after[i].state == CommittedTx;
    assert journal[i].tx == tx;
  }

  lemma RecordedOtherwise(journal: seq<Record<Terms>>, b: Batch, tx: Tx)
    requires IsIn(Recorded(journal, RecordOf(b)), tx, CommittedTx)
    ensures IsIn(journal, tx, CommittedTx)
  {
    var after := Recorded(journal, RecordOf(b));
    var i :| 0 <= i < |after| && after[i].tx == tx && after[i].state == CommittedTx;
    assert i < |journal| && journal[i] == after[i];
  }

  lemma ReturnsCommit(s: Store, pc: Pc, tx: Tx)
    requires IsIn(Returns(s, pc).store.journal, tx, CommittedTx) && !IsIn(s.journal, tx, CommittedTx)
    ensures pc.Cas? && pc.b.tx == tx && IsIn(s.journal, tx, Submitted)
  {
    if pc.Abandon? {
      MarkedOtherwise(s.journal, pc.b.tx, Abandoned, tx);
    } else if pc.WorkerReject? {
      MarkedOtherwise(s.journal, pc.tx, RejectedTx, tx);
    } else if pc.JournalBatch? {
      RecordedOtherwise(s.journal, pc.b, tx);
    } else if pc.Cas? {
      MarkedOtherwise(s.journal, pc.b.tx, CommittedTx, tx);
    }
  }

  /** Only the swap marks a record committed. */
  lemma OnlyTheSwapCommits(w: World, e: Event, tx: Tx)
    requires IsIn(Step(w, e).store.journal, tx, CommittedTx) && !IsIn(w.store.journal, tx, CommittedTx)
    ensures Swaps(w, e, tx)
  {
    JournalAfter(w, e);
    ReturnsCommit(w.store, w.callers[e.c], tx);
  }

  lemma {:induction false} CommittedWasSwapped(w: World, events: seq<Event>, tx: Tx)
    requires IsIn(Run(w, events).store.journal, tx, CommittedTx) && !IsIn(w.store.journal, tx, CommittedTx)
    ensures Swapped(w, events, tx)
    decreases |events|
  {
    var v := Step(w, events[0]);
    if IsIn(v.store.journal, tx, CommittedTx) {
      OnlyTheSwapCommits(w, events[0], tx);
    } else {
      CommittedWasSwapped(v, events[1..], tx);
    }
  }

  // ---------------------------------------------------------------- results

  /** Over every run: a reclaim transaction whose record was won is seen through. Its rows are shown
      as reclaimed, the capacity it covered is released when it exceeds the fee and the fee is burned
      when there is one; or its winner is still at it, or died, or was refused a store call. */
  lemma WonBatchesAreCredited(events: seq<Event>, tx: Tx)
    requires Swapped(Initial, events, tx)
    ensures var v := Run(Initial, events);
            Finished(v.store, tx) || Underway(v, tx) || CutShort(Initial, events, tx)
  {
    SwappedIsPaid(Initial, events, tx);
  }

  /** The same told from the journal: whatever record says `committed`. */
  lemma CommittedRecordsAreCredited(events: seq<Event>, tx: Tx)
    requires IsIn(Run(Initial, events).store.journal, tx, CommittedTx)
    ensures var v := Run(Initial, events);
            Finished(v.store, tx) || Underway(v, tx) || CutShort(Initial, events, tx)
  {
    CommittedWasSwapped(Initial, events, tx);
    SwappedIsPaid(Initial, events, tx);
  }
}
