/** Publishing and reclaiming together: rows whose outpoints come from the publisher. */
module PublishedRows {
  import opened Options
  import opened Chain
  import opened MessageStates
  import R = Reclaim
  import N = ReclaimNews
  import P = Publisher
  import F = PublishedRefs

  /** The outpoint a step gives to a row. */
  function GivenBy(w: R.World, e: R.Event, row: nat): seq<Cell> {
    if e.RefSet? && e.row == row && row in w.store.rows then [e.cell]
    else if e.NewRow? && e.row == row && e.ref.Some? && row > 0 && row !in w.store.rows && row !in w.store.inRows
    then [e.ref.value]
    else []
  }

  /** What a run gives it, oldest first. */
  ghost function Given(w: R.World, events: seq<R.Event>, row: nat): seq<Cell>
    decreases |events|
  {
    if events == [] then [] else GivenBy(w, events[0], row) + Given(R.Step(w, events[0]), events[1..], row)
  }

  /** The row shows what it was given last, and nothing else was ever recorded for it. */
  ghost predicate Shows(s: R.Store, row: nat, given: seq<Cell>) {
    && (row in s.rows ==> s.rows[row].cell == if given == [] then None else Some(given[|given| - 1]))
    && (row !in s.rows ==> given == [])
    && (forall cell :: (row, cell) in s.recorded ==> cell in given)
  }

  /** A caller's own awaits leave outpoints alone. */
  lemma ReturnsGiveNothing(s: R.Store, pc: R.Pc, row: nat)
    ensures var t := R.Returns(s, pc).store;
            && t.recorded == s.recorded && (row in t.rows <==> row in s.rows)
            && (row in s.rows ==> t.rows[row].cell == s.rows[row].cell)
  {
  }

  lemma OthersGive(s: R.Store, e: R.Event, row: nat, given: seq<Cell>, w: R.World)
    requires N.IsOthers(e) && Shows(s, row, given) && w.store == s
    ensures Shows(R.OthersMove(s, e), row, given + GivenBy(w, e, row))
  {
    assert given + [] == given;
  }

  lemma StepShows(w: R.World, e: R.Event, row: nat, given: seq<Cell>)
    requires Shows(w.store, row, given)
    ensures Shows(R.Step(w, e).store, row, given + GivenBy(w, e, row))
  {
    N.StoreAfter(w, e);
    assert given + [] == given;
    if e.Done? && e.c in w.callers {
      ReturnsGiveNothing(w.store, w.callers[e.c], row);
    } else if N.IsOthers(e) {
      OthersGive(w.store, e, row, given, w);
    }
  }

  lemma GivenUnfolds(w: R.World, events: seq<R.Event>, row: nat, given: seq<Cell>)
    requires events != []
    ensures given + Given(w, events, row)
            == (given + GivenBy(w, events[0], row)) + Given(R.Step(w, events[0]), events[1..], row)
  {
    Associate(given, GivenBy(w, events[0], row), Given(R.Step(w, events[0]), events[1..], row));
  }

  lemma Associate(a: seq<Cell>, b: seq<Cell>, c: seq<Cell>)
    ensures a + (b + c) == (a + b) + c
  {
  }

  lemma {:induction false} RunShows(w: R.World, events: seq<R.Event>, row: nat, given: seq<Cell>)
    requires Shows(w.store, row, given)
    ensures Shows(R.Run(w, events).store, row, given + Given(w, events, row))
    decreases |events|
  {
    if events == [] {
      assert given + [] == given;
    } else {
      StepShows(w, events[0], row, given);
      RunShows(R.Step(w, events[0]), events[1..], row, given + GivenBy(w, events[0], row));
      GivenUnfolds(w, events, row, given);
    }
  }

  lemma WholeRunShows(events: seq<R.Event>, row: nat)
    ensures Shows(R.Run(R.Initial, events).store, row, Given(R.Initial, events, row))
  {
    RunShows(R.Initial, events, row, []);
    assert [] + Given(R.Initial, events, row) == Given(R.Initial, events, row);
  }

  ghost predicate OnlyLastSpent(spent: set<Cell>, given: seq<Cell>) {
    forall i :: 0 <= i < |given| && given[i] in spent ==> given[i] == given[|given| - 1]
  }

  lemma LastIsShown(s: R.Store, spent: set<Cell>, row: nat, given: seq<Cell>, cell: Cell)
    requires Shows(s, row, given) && OnlyLastSpent(spent, given) && row in s.rows
    requires (row, cell) in s.recorded && cell in spent
    ensures s.rows[row].cell == Some(cell)
  {
    var i :| 0 <= i < |given| && given[i] == cell;
  }

  /** If of all outpoints a row was given only the last is ever spent, a row shown as reclaimed has
      the outpoint it shows spent. */
  lemma OnlyTheLastSpent(events: seq<R.Event>, row: nat)
    requires var rows := R.Run(R.Initial, events).store.rows; row in rows && rows[row].state == Reclaimed
    requires OnlyLastSpent(R.Run(R.Initial, events).chain.spent, Given(R.Initial, events, row))
    ensures var v := R.Run(R.Initial, events);
            v.store.rows[row].cell.Some? && v.store.rows[row].cell.value in v.chain.spent
  {
    var v := R.Run(R.Initial, events);
    WholeRunShows(events, row);
    var cell := SpentAndRecorded(events, row);
    LastIsShown(v.store, v.chain.spent, row, Given(R.Initial, events, row), cell);
  }

  lemma SpentAndRecorded(events: seq<R.Event>, row: nat) returns (cell: Cell)
    requires var rows := R.Run(R.Initial, events).store.rows; row in rows && rows[row].state == Reclaimed
    ensures var v := R.Run(R.Initial, events); (row, cell) in v.store.recorded && cell in v.chain.spent
  {
    R.RunKeeps(R.Initial, events);
    var v := R.Run(R.Initial, events);
    cell :| (row, cell) in v.store.recorded && (cell in v.store.dead || R.ReclaimConfirmed(v.store, row, cell));
    if cell !in v.store.dead {
      var tx :| tx in v.store.confirmed && R.CoversRow(tx, row, cell);
      N.CoveredIsSpent(v.chain, tx, row, cell);
    }
  }

  /** The outpoints of the publisher's transactions. */
  ghost function Outpoints(written: seq<Tx>, outpoint: Tx -> Cell): seq<Cell> {
    seq(|written|, i requires 0 <= i < |written| => outpoint(written[i]))
  }

  /** A row whose outpoints are the ones that a run of the publisher writes, crashes included, and
      that is reclaimed by any interleaving of callers: shown as reclaimed, it has the outpoint it
      shows spent on the chain. Only the output of a committed transaction can be spent. */
  lemma PublishedRowsAreSpent(w: P.World, published: seq<P.Event>, events: seq<R.Event>, row: nat, outpoint: Tx -> Cell)
    requires P.Initial(w)
    requires Given(R.Initial, events, row) == Outpoints(F.Writes(w, published), outpoint)
    requires forall tx :: tx in F.Writes(w, published) && outpoint(tx) in R.Run(R.Initial, events).chain.spent
               ==> tx in P.Run(true, w, published).chain.committed
    requires var rows := R.Run(R.Initial, events).store.rows; row in rows && rows[row].state == Reclaimed
    ensures var v := R.Run(R.Initial, events);
            v.store.rows[row].cell.Some? && v.store.rows[row].cell.value in v.chain.spent
  {
    OnlyLastOfThePublisher(w, published, R.Run(R.Initial, events).chain.spent, outpoint);
    OnlyTheLastSpent(events, row);
  }

  lemma OnlyLastOfThePublisher(w: P.World, published: seq<P.Event>, spent: set<Cell>, outpoint: Tx -> Cell)
    requires P.Initial(w)
    requires forall tx :: tx in F.Writes(w, published) && outpoint(tx) in spent
               ==> tx in P.Run(true, w, published).chain.committed
    ensures OnlyLastSpent(spent, Outpoints(F.Writes(w, published), outpoint))
  {
    var written := F.Writes(w, published);
    var given := Outpoints(written, outpoint);
    forall i | 0 <= i < |given| && given[i] in spent ensures given[i] == given[|given| - 1] {
      assert written[i] in written;
      F.OnlyTheLastCanCommit(w, published, i);
    }
  }
}
