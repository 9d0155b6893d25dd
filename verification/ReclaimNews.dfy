/** What a reclaimed row rests on: over every run of Reclaim, the end states come from what callers
    were told and from nothing else. */
module ReclaimNews {
  import opened Options
  import opened MessageStates
  import opened Chain
  import opened Journal
  import opened Reclaim

  /** The world before event i of a run. */
  ghost function Before(events: seq<Event>, i: nat): World
    requires i <= |events|
  {
    Run(Initial, events[..i])
  }

  ghost predicate RecordedAt(events: seq<Event>, i: nat, row: nat, cell: Cell) {
    i < |events| && (events[i] == NewRow(row, Some(cell)) || events[i] == RefSet(row, cell))
  }

  /** A finalizer registered the row to watch the cell. */
  ghost predicate RegisteredAt(events: seq<Event>, i: nat, row: nat, cell: Cell) {
    && i < |events| && events[i].Done? && events[i].c in Before(events, i).callers
    && Before(events, i).callers[events[i].c] == FinalizeWatch(row, cell)
  }

  /** A caller that asked about the cell was told that it is dead. */
  ghost predicate ToldDeadAt(events: seq<Event>, i: nat, cell: Cell) {
    && i < |events| && ToldDead(Before(events, i), events[i])
    && AskedCell(Before(events, i).callers[events[i].c]) == Some(cell)
  }

  /** A caller that asked about the transaction was told that it is committed. */
  ghost predicate ToldCommittedAt(events: seq<Event>, i: nat, tx: Tx) {
    && i < |events| && ToldCommitted(Before(events, i), events[i])
    && AskedTx(Before(events, i).callers[events[i].c]) == Some(tx)
  }

  ghost predicate WasRecorded(events: seq<Event>, row: nat, cell: Cell) {
    exists i :: RecordedAt(events, i, row, cell)
  }

  ghost predicate WasRegistered(events: seq<Event>, row: nat, cell: Cell) {
    exists i :: RegisteredAt(events, i, row, cell)
  }

  ghost predicate WasToldDead(events: seq<Event>, cell: Cell) {
    exists i :: ToldDeadAt(events, i, cell)
  }

  ghost predicate WasToldCommitted(events: seq<Event>, tx: Tx) {
    exists i :: ToldCommittedAt(events, i, tx)
  }

  lemma {:induction false} RunSnoc(w: World, events: seq<Event>, e: Event)
    ensures Run(w, events + [e]) == Step(Run(w, events), e)
    decreases |events|
  {
    if events == [] {
      assert events + [e] == [e] && [e][1..] == [];
      assert Run(Step(w, e), []) == Step(w, e);
    } else {
      assert (events + [e])[0] == events[0] && (events + [e])[1..] == events[1..] + [e];
      RunSnoc(Step(w, events[0]), events[1..], e);
    }
  }

  lemma NextAfter(events: seq<Event>, n: nat)
    requires n < |events|
    ensures Before(events, n + 1) == Step(Before(events, n), events[n])
  {
    assert events[..n + 1] == events[..n] + [events[n]];
    RunSnoc(Initial, events[..n], events[n]);
  }

  lemma ReturnsRemember(s: Store, pc: Pc)
    ensures var t := Returns(s, pc).store;
            && t.recorded == s.recorded && t.dead == s.dead && t.confirmed == s.confirmed
            && (t.watched == s.watched || (pc.FinalizeWatch? && t.watched == s.watched + {(pc.row, pc.cell)}))
  {
  }

  lemma OthersRemember(s: Store, e: Event, row: nat, cell: Cell)
    requires e.RowMoves? || e.NewRow? || e.RefSet? || e.InMoves? || e.OtherWatch?
    ensures var t := OthersMove(s, e);
            && t.watched == s.watched && t.dead == s.dead && t.confirmed == s.confirmed
            && ((row, cell) in t.recorded && (row, cell) !in s.recorded
                ==> e == NewRow(row, Some(cell)) || e == RefSet(row, cell))
  {
  }

  predicate IsOthers(e: Event) {
    e.RowMoves? || e.NewRow? || e.RefSet? || e.InMoves? || e.OtherWatch?
  }

  lemma StoreAfter(w: World, e: Event)
    ensures Step(w, e).store
            == if e.Done? then (if e.c in w.callers then Returns(w.store, w.callers[e.c]).store else w.store)
               else if IsOthers(e) then OthersMove(w.store, e)
               else if e.CellAnswer? || e.Answer? then Heard(w, e) else w.store
  {
  }

  /** Which event makes each memory grow. */
  lemma MemoryGrows(w: World, e: Event, row: nat, cell: Cell)
    ensures (row, cell) in Step(w, e).store.recorded && (row, cell) !in w.store.recorded
            ==> e == NewRow(row, Some(cell)) || e == RefSet(row, cell)
    ensures cell in Step(w, e).store.dead && cell !in w.store.dead
            ==> ToldDead(w, e) && AskedCell(w.callers[e.c]) == Some(cell)
    ensures (row, cell) in Step(w, e).store.watched && (row, cell) !in w.store.watched
            ==> e.Done? && e.c in w.callers && w.callers[e.c] == FinalizeWatch(row, cell)
  {
    StoreAfter(w, e);
    if e.Done? && e.c in w.callers {
      ReturnsRemember(w.store, w.callers[e.c]);
    } else if IsOthers(e) {
      OthersRemember(w.store, e, row, cell);
    }
  }

  lemma ConfirmedGrows(w: World, e: Event, tx: Tx)
    ensures tx in Step(w, e).store.confirmed && tx !in w.store.confirmed
            ==> ToldCommitted(w, e) && AskedTx(w.callers[e.c]) == Some(tx)
  {
    StoreAfter(w, e);
    if e.Done? && e.c in w.callers {
      ReturnsRemember(w.store, w.callers[e.c]);
    } else if IsOthers(e) {
      OthersRemember(w.store, e, 0, 0);
    }
  }

  lemma {:induction false} MemoryIsHistory(events: seq<Event>, n: nat, row: nat, cell: Cell)
    requires n <= |events|
    ensures (row, cell) in Before(events, n).store.recorded ==> WasRecorded(events, row, cell)
    ensures (row, cell) in Before(events, n).store.watched ==> WasRegistered(events, row, cell)
    ensures cell in Before(events, n).store.dead ==> WasToldDead(events, cell)
    decreases n
  {
    if n > 0 {
      MemoryIsHistory(events, n - 1, row, cell);
      NextAfter(events, n - 1);
      MemoryGrows(Before(events, n - 1), events[n - 1], row, cell);
      MemoryReached(events, n - 1, row, cell);
    } else {
      assert events[..0] == [];
    }
  }

  lemma MemoryReached(events: seq<Event>, i: nat, row: nat, cell: Cell)
    ensures RecordedAt(events, i, row, cell) ==> WasRecorded(events, row, cell)
    ensures RegisteredAt(events, i, row, cell) ==> WasRegistered(events, row, cell)
    ensures ToldDeadAt(events, i, cell) ==> WasToldDead(events, cell)
  {
  }

  lemma {:induction false} ConfirmedIsHistory(events: seq<Event>, n: nat, tx: Tx)
    requires n <= |events|
    ensures tx in Before(events, n).store.confirmed ==> WasToldCommitted(events, tx)
    decreases n
  {
    if n > 0 {
      ConfirmedIsHistory(events, n - 1, tx);
      NextAfter(events, n - 1);
      ConfirmedGrows(Before(events, n - 1), events[n - 1], tx);
      assert tx in Before(events, n).store.confirmed && tx !in Before(events, n - 1).store.confirmed
             ==> ToldCommittedAt(events, n - 1, tx);
    } else {
      assert events[..0] == [];
    }
  }

  /** In any run a row is shown as reclaimed only if, for an outpoint recorded for it, some caller
      was truthfully told that it is dead, or that a transaction spending it for this row is
      committed. Either way that outpoint is spent. */
  lemma OnlyNewsReclaims(events: seq<Event>, row: nat)
    requires var rows := Run(Initial, events).store.rows; row in rows && rows[row].state == Reclaimed
    ensures exists cell :: WasRecorded(events, row, cell) && cell in Run(Initial, events).chain.spent
              && (WasToldDead(events, cell) || exists tx :: WasToldCommitted(events, tx) && CoversRow(tx, row, cell))
  {
    RunKeeps(Initial, events);
    assert events[..|events|] == events;
    var v := Run(Initial, events);
    var cell :| (row, cell) in v.store.recorded && (cell in v.store.dead || ReclaimConfirmed(v.store, row, cell));
    MemoryIsHistory(events, |events|, row, cell);
    if cell !in v.store.dead {
      var tx :| tx in v.store.confirmed && CoversRow(tx, row, cell);
      ConfirmedIsHistory(events, |events|, tx);
      CoveredIsSpent(v.chain, tx, row, cell);
    }
  }

  lemma CoveredIsSpent(c: Chain, tx: Tx, row: nat, cell: Cell)
    requires ChainOk(c) && tx in c.committed && CoversRow(tx, row, cell)
    ensures cell in c.spent
  {
    var i :| 0 <= i < |tx.covers| && tx.covers[i].row == row && tx.covers[i].cell == cell;
    assert Inputs(tx)[i] == cell;
  }

  /** In any run a response is shown as remotely reclaimed only if a finalizer registered it to
      watch a cell and some caller was truthfully told that this cell is dead. */
  lemma OnlyADeadCellReclaimsRemotely(events: seq<Event>, row: nat)
    requires var rows := Run(Initial, events).store.inRows; row in rows && rows[row] == RemoteReclaimed
    ensures exists cell :: WasRegistered(events, row, cell) && WasToldDead(events, cell)
              && cell in Run(Initial, events).chain.spent
  {
    RunKeeps(Initial, events);
    assert events[..|events|] == events;
    var v := Run(Initial, events);
    assert WatchedAndDead(v.store, row);
    var cell :| (row, cell) in v.store.watched && cell in v.store.dead;
    MemoryIsHistory(events, |events|, row, cell);
  }

  /** So answers without news never change a row's end state: a run in which no answer says dead or
      committed reclaims nothing here and nothing remotely, whatever the chain does meanwhile. */
  lemma UnknownAnswersReclaimNothing(events: seq<Event>, row: nat)
    requires forall i :: 0 <= i < |events| ==>
               && (events[i].CellAnswer? ==> events[i].seen != DeadCell)
               && (events[i].Answer? ==> events[i].status != IsCommitted)
    ensures var s := Run(Initial, events).store;
            && (row in s.rows ==> s.rows[row].state != Reclaimed)
            && (row in s.inRows ==> s.inRows[row] != RemoteReclaimed)
  {
    var s := Run(Initial, events).store;
    if row in s.rows && s.rows[row].state == Reclaimed {
      OnlyNewsReclaims(events, row);
    }
    if row in s.inRows && s.inRows[row] == RemoteReclaimed {
      OnlyADeadCellReclaimsRemotely(events, row);
    }
  }
}
