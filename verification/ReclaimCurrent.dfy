/** The outpoint a reclaimed row shows now: when it is the one that was spent, given that others may
    replace a row's outpoint at any time. */
module ReclaimCurrent {
  import opened Options
  import opened MessageStates
  import opened Chain
  import opened Journal
  import opened Reclaim
  import opened ReclaimNews

  ghost predicate HasCell(rows: map<nat, Row>, row: nat, cell: Cell) {
    row in rows && rows[row].cell == Some(cell)
  }

  ghost predicate CoversCurrent(rows: map<nat, Row>, covers: seq<Covered>) {
    forall i :: 0 <= i < |covers| ==> HasCell(rows, covers[i].row, covers[i].cell)
  }

  ghost predicate FoundCurrent(rows: map<nat, Row>, found: seq<Candidate>) {
    forall i :: 0 <= i < |found| ==> HasCell(rows, found[i].row, found[i].cell)
  }

  /** A caller's notes name the outpoints the rows show now. */
  ghost predicate NotesCurrent(rows: map<nat, Row>, pc: Pc) {
    FoundCurrent(rows, FoundIn(pc)) && CoversCurrent(rows, CoversIn(pc))
  }

  function FoundIn(pc: Pc): seq<Candidate> {
    match pc
    case ListPending(found) => found
    case Resolve(found, _, _) => found
    case DeadPending(found, _, _) => found
    case DeadReclaimed(found, _, _) => found
    case _ => []
  }

  function CoversIn(pc: Pc): seq<Covered> {
    match pc
    case Resolve(_, _, covered) => covered
    case DeadPending(_, _, covered) => covered
    case DeadReclaimed(_, _, covered) => covered
    case MarkPending(covered, _) => covered
    case Build(covered) => covered
    case Requeue(_, _) => []
    case _ => if HasBatch(pc) then pc.b.tx.covers else []
  }

  predicate HasBatch(pc: Pc) {
    || pc.Ask? || pc.Abandon? || pc.JournalBatch? || pc.Send? || pc.Track? || pc.Wait? || pc.Cas?
    || Winner(pc)
  }

  ghost predicate CallersCurrent(w: World) {
    forall c :: c in w.callers ==> NotesCurrent(w.store.rows, w.callers[c])
  }

  /** The same for the records that a restart would resume. */
  ghost predicate JournalCurrent(s: Store) {
    forall i :: 0 <= i < |s.journal| && s.journal[i].state == Submitted
      ==> CoversCurrent(s.rows, s.journal[i].tx.covers)
  }

  ghost predicate ReclaimedSpent(c: Chain, s: Store) {
    forall r :: r in s.rows && s.rows[r].state == Reclaimed ==> s.rows[r].cell.Some? && s.rows[r].cell.value in c.spent
  }

  ghost predicate Current(w: World) {
    CallersCurrent(w) && JournalCurrent(w.store) && ReclaimedSpent(w.chain, w.store)
  }

  /** Somebody is reclaiming the row: a live caller has it in its notes, or a record that a restart
      would resume covers it. */
  ghost predicate InHand(w: World, row: nat) {
    NotedByCaller(w, row) || InJournal(w.store, row)
  }

  ghost predicate NotedByCaller(w: World, row: nat) {
    exists c :: c in w.callers && Notes(w.callers[c], row)
  }

  ghost predicate InJournal(s: Store, row: nat) {
    exists i :: 0 <= i < |s.journal| && s.journal[i].state == Submitted && Names(s.journal[i].tx.covers, row)
  }

  ghost predicate Names(covers: seq<Covered>, row: nat) {
    exists i :: 0 <= i < |covers| && covers[i].row == row
  }

  ghost predicate Finds(found: seq<Candidate>, row: nat) {
    exists i :: 0 <= i < |found| && found[i].row == row
  }

  ghost predicate Notes(pc: Pc, row: nat) {
    Names(CoversIn(pc), row) || Finds(FoundIn(pc), row)
  }

  /** Replacing the outpoint of a row that nobody is reclaiming and that is not reclaimed, or not
      really replacing it. */
  ghost predicate Careful(w: World, e: Event) {
    e.RefSet? && e.row in w.store.rows && w.store.rows[e.row].cell != Some(e.cell)
    ==> !InHand(w, e.row) && (w.store.rows[e.row].state == Reclaimed ==> e.cell in w.chain.spent)
  }

  /** The same rows with the same outpoints, and perhaps more. */
  ghost predicate SameCells(rows: map<nat, Row>, later: map<nat, Row>) {
    forall r :: r in rows ==> r in later && later[r].cell == rows[r].cell
  }

  lemma NotesStay(rows: map<nat, Row>, later: map<nat, Row>)
    requires SameCells(rows, later)
    ensures forall pc :: NotesCurrent(rows, pc) ==> NotesCurrent(later, pc)
    ensures forall covers :: CoversCurrent(rows, covers) ==> CoversCurrent(later, covers)
  {
  }

  /** The row an await marks reclaimed, and the outpoint it means. */
  function Marks(pc: Pc): Option<(nat, Cell)> {
    match pc
    case DeadReclaimed(found, i, _) => if i < |found| then Some((found[i].row, found[i].cell)) else None
    case Settle(b, _, i) =>
      if i < |b.ids| && i < |b.tx.covers| then Some((b.ids[i], b.tx.covers[i].cell)) else None
    case _ => None
  }

  lemma RequestKeepsRows(s: Store, row: nat, target: State, next: Pc)
    ensures var t := Request(s, row, target, next).store;
            && SameCells(s.rows, t.rows) && (forall r :: r in t.rows ==> r in s.rows)
            && forall r :: r in s.rows && t.rows[r].state == Reclaimed && s.rows[r].state != Reclaimed
                 ==> target == Reclaimed && r == row
  {
  }

  predicate TouchesRows(pc: Pc) {
    pc.Requeue? || pc.DeadPending? || pc.DeadReclaimed? || pc.MarkPending? || pc.Settle?
  }

  lemma OthersLeaveRows(s: Store, pc: Pc)
    requires !TouchesRows(pc)
    ensures Returns(s, pc).store.rows == s.rows
  {
  }

  lemma LoopKeepsRows(s: Store, pc: Pc)
    requires pc.Requeue? || pc.MarkPending? || pc.DeadPending? || pc.DeadReclaimed?
    ensures KeepsRows(s, pc)
  {
    if pc.Requeue? {
      if pc.i < |pc.ids| { RequestKeepsRows(s, pc.ids[pc.i], ReclaimQueued, Requeue(pc.ids, pc.i + 1)); }
    } else if pc.MarkPending? {
      if pc.i < |pc.covered| {
        RequestKeepsRows(s, pc.covered[pc.i].row, ReclaimPending, MarkPending(pc.covered, pc.i + 1));
      }
    } else if pc.i < |pc.found| {
      if pc.DeadPending? {
        RequestKeepsRows(s, pc.found[pc.i].row, ReclaimPending, DeadReclaimed(pc.found, pc.i, pc.covered));
      } else {
        RequestKeepsRows(s, pc.found[pc.i].row, Reclaimed, Resolve(pc.found, pc.i + 1, pc.covered));
      }
    }
  }

  lemma SettleKeepsRows(s: Store, pc: Pc)
    requires pc.Settle? && |pc.b.ids| == |pc.b.tx.covers|
    ensures KeepsRows(s, pc)
  {
    if pc.i < |pc.b.ids| {
      RequestKeepsRows(s, pc.b.ids[pc.i], Reclaimed,
                       if pc.resumed then Settle(pc.b, true, pc.i + 1) else WatchFind(pc.b, pc.i));
    }
  }

  /** An await leaves outpoints alone and marks reclaimed only the row it means. */
  ghost predicate KeepsRows(s: Store, pc: Pc) {
    var rows := Returns(s, pc).store.rows;
    && SameCells(s.rows, rows) && (forall r :: r in rows ==> r in s.rows)
    && forall r :: r in s.rows && rows[r].state == Reclaimed && s.rows[r].state != Reclaimed
         ==> Marks(pc).Some? && Marks(pc).value.0 == r
  }

  lemma ReturnKeepsRows(s: Store, pc: Pc)
    requires pc.Settle? ==> |pc.b.ids| == |pc.b.tx.covers|
    ensures KeepsRows(s, pc)
  {
    if pc.Settle? {
      SettleKeepsRows(s, pc);
    } else if TouchesRows(pc) {
      LoopKeepsRows(s, pc);
    } else {
      OthersLeaveRows(s, pc);
    }
  }

  lemma MarkedIsSpent(w: World, pc: Pc)
    requires Inv(w) && PcOk(w.store, pc) && NotesCurrent(w.store.rows, pc) && Marks(pc).Some?
    ensures HasCell(w.store.rows, Marks(pc).value.0, Marks(pc).value.1) && Marks(pc).value.1 in w.chain.spent
  {
    if pc.Settle? {
      assert CoversRow(pc.b.tx, pc.b.tx.covers[pc.i].row, pc.b.tx.covers[pc.i].cell);
      CoveredIsSpent(w.chain, pc.b.tx, pc.b.tx.covers[pc.i].row, pc.b.tx.covers[pc.i].cell);
    }
  }

  lemma StartKeepsNotes(s: Store)
    requires JournalCurrent(s)
    ensures StartStep(s).pc.Some? ==> NotesCurrent(s.rows, StartStep(s).pc.value)
  {
  }

  lemma LoopKeepsNotes(s: Store, pc: Pc)
    requires pc.Requeue? || pc.DeadPending? || pc.DeadReclaimed? || pc.MarkPending?
    ensures var next := Returns(s, pc).pc;
            next.Some? ==> FoundIn(next.value) == FoundIn(pc) && CoversIn(next.value) == CoversIn(pc)
  {
  }

  lemma BatchKeepsNotes(s: Store, pc: Pc)
    requires HasBatch(pc) && !Winner(pc)
    ensures var next := Returns(s, pc).pc;
            next.Some? ==> next.value.Requeue? || (FoundIn(next.value) == [] && CoversIn(next.value) == CoversIn(pc))
  {
  }

  lemma WinnerKeepsNotes(s: Store, pc: Pc)
    requires Winner(pc)
    ensures var next := Returns(s, pc).pc;
            next.Some? ==> next.value.Prune? || (FoundIn(next.value) == [] && CoversIn(next.value) == CoversIn(pc))
  {
  }

  lemma OtherKeepsNotes(s: Store, pc: Pc)
    requires !pc.Start? && !HasBatch(pc) && !pc.Requeue? && !pc.DeadPending? && !pc.DeadReclaimed? && !pc.MarkPending?
    ensures var next := Returns(s, pc).pc;
            next.Some? ==> next.value == pc || (FoundIn(next.value) == [] && CoversIn(next.value) == [])
  {
  }

  lemma ReturnKeepsNotes(s: Store, pc: Pc)
    requires NotesCurrent(s.rows, pc) && JournalCurrent(s)
    ensures Returns(s, pc).pc.Some? ==> NotesCurrent(s.rows, Returns(s, pc).pc.value)
  {
    if pc.Start? {
      StartKeepsNotes(s);
    } else if pc.Requeue? || pc.DeadPending? || pc.DeadReclaimed? || pc.MarkPending? {
      LoopKeepsNotes(s, pc);
    } else if Winner(pc) {
      WinnerKeepsNotes(s, pc);
    } else if HasBatch(pc) {
      BatchKeepsNotes(s, pc);
    } else {
      OtherKeepsNotes(s, pc);
    }
  }

  lemma ReturnKeepsJournal(s: Store, pc: Pc)
    requires NotesCurrent(s.rows, pc) && JournalCurrent(s) && SameCells(s.rows, Returns(s, pc).store.rows)
    ensures JournalCurrent(Returns(s, pc).store)
  {
    NotesStay(s.rows, Returns(s, pc).store.rows);
  }

  lemma DoneKeepsCurrent(w: World, c: nat)
    requires Inv(w) && Current(w) && c in w.callers
    ensures Current(Moved(w, c, Returns(w.store, w.callers[c])))
  {
    var pc := w.callers[c];
    var o := Returns(w.store, pc);
    ReturnKeepsRows(w.store, pc);
    ReturnKeepsNotes(w.store, pc);
    ReturnKeepsJournal(w.store, pc);
    NotesStay(w.store.rows, o.store.rows);
    if Marks(pc).Some? {
      MarkedIsSpent(w, pc);
    }
  }

  lemma NewsKeepsCurrent(w: World, e: Event)
    requires Current(w)
    requires e.Listed? || e.ActiveWatches? || e.CellAnswer? || e.Answer? || e.Built?
    ensures Current(Step(w, e))
  {
    if e.c in w.callers {
      NewsKeepsNotes(w, e);
      assert Heard(w, e).rows == w.store.rows && Heard(w, e).journal == w.store.journal;
    }
  }

  lemma NewsKeepsNotes(w: World, e: Event)
    requires e.Listed? || e.ActiveWatches? || e.CellAnswer? || e.Answer? || e.Built?
    requires Current(w) && e.c in w.callers
    ensures Informed(w, e).Some? ==> NotesCurrent(w.store.rows, Informed(w, e).value)
  {
    var pc := w.callers[e.c];
    assert NotesCurrent(w.store.rows, pc);
    if e.CellAnswer? {
      CellKeepsNotes(w.store.rows, pc, e.seen);
    } else if e.Answer? {
      StatusKeepsNotes(pc, e.status);
    } else {
      ListingKeepsNotes(w, e);
    }
  }

  lemma CellKeepsNotes(rows: map<nat, Row>, pc: Pc, seen: CellStatus)
    requires NotesCurrent(rows, pc)
    ensures CellAnswered(pc, seen).Some? ==> NotesCurrent(rows, CellAnswered(pc, seen).value)
  {
  }

  lemma StatusKeepsNotes(pc: Pc, status: Status)
    ensures var next := StatusAnswered(pc, status);
            next.None? || next.value == pc
            || (FoundIn(next.value) == [] && (CoversIn(next.value) == CoversIn(pc) || CoversIn(next.value) == []))
  {
  }

  lemma ListingKeepsNotes(w: World, e: Event)
    requires e.Listed? || e.ActiveWatches? || e.Built?
    requires e.c in w.callers && NotesCurrent(w.store.rows, w.callers[e.c])
    ensures Informed(w, e).Some? ==> NotesCurrent(w.store.rows, Informed(w, e).value)
  {
  }

  lemma OthersKeepCurrent(w: World, e: Event)
    requires Current(w) && (e.RowMoves? || e.NewRow? || e.InMoves? || e.OtherWatch?)
    ensures Current(Step(w, e))
  {
    OtherRows(w.store, e);
    NotesStay(w.store.rows, OthersMove(w.store, e).rows);
  }

  lemma OtherRows(s: Store, e: Event)
    requires e.RowMoves? || e.NewRow? || e.InMoves? || e.OtherWatch?
    ensures SameCells(s.rows, OthersMove(s, e).rows) && OthersMove(s, e).journal == s.journal
    ensures forall r :: r in OthersMove(s, e).rows && OthersMove(s, e).rows[r].state == Reclaimed
              ==> r in s.rows && s.rows[r].state == Reclaimed
  {
  }

  /** Replacing an outpoint keeps notes and rows in agreement exactly when it is careful. */
  lemma ReplacingIsSafeExactly(w: World, e: Event)
    requires Inv(w) && Current(w) && e.RefSet?
    ensures Current(Step(w, e)) <==> Careful(w, e)
  {
    if e.row in w.store.rows && w.store.rows[e.row].cell != Some(e.cell) {
      CallersAfterReplacing(w, e);
      JournalAfterReplacing(w, e);
      ReclaimedAfterReplacing(w, e);
    } else {
      NotesStay(w.store.rows, OthersMove(w.store, e).rows);
    }
  }

  lemma CallersAfterReplacing(w: World, e: Event)
    requires Current(w) && e.RefSet? && e.row in w.store.rows && w.store.rows[e.row].cell != Some(e.cell)
    ensures CallersCurrent(Step(w, e)) <==> !NotedByCaller(w, e.row)
  {
    var later := OthersMove(w.store, e).rows;
    forall c | c in w.callers ensures NotesCurrent(later, w.callers[c]) <==> !Notes(w.callers[c], e.row) {
      NotesAfterReplacing(w.store.rows, e.row, e.cell, w.callers[c]);
    }
    if NotedByCaller(w, e.row) {
      var c :| c in w.callers && Notes(w.callers[c], e.row);
      assert !NotesCurrent(later, Step(w, e).callers[c]);
    }
  }

  lemma ReclaimedAfterReplacing(w: World, e: Event)
    requires Current(w) && e.RefSet? && e.row in w.store.rows && w.store.rows[e.row].cell != Some(e.cell)
    ensures ReclaimedSpent(w.chain, OthersMove(w.store, e))
            <==> (w.store.rows[e.row].state == Reclaimed ==> e.cell in w.chain.spent)
  {
    var t := OthersMove(w.store, e);
    assert t.rows[e.row] == Row(w.store.rows[e.row].state, Some(e.cell));
  }

  lemma NotesAfterReplacing(rows: map<nat, Row>, row: nat, cell: Cell, pc: Pc)
    requires NotesCurrent(rows, pc) && row in rows && rows[row].cell != Some(cell)
    ensures NotesCurrent(rows[row := rows[row].(cell := Some(cell))], pc) <==> !Notes(pc, row)
  {
  }

  lemma CoversAfterReplacing(rows: map<nat, Row>, row: nat, cell: Cell, covers: seq<Covered>)
    requires CoversCurrent(rows, covers) && row in rows && rows[row].cell != Some(cell)
    ensures CoversCurrent(rows[row := rows[row].(cell := Some(cell))], covers) <==> !Names(covers, row)
  {
  }

  lemma JournalAfterReplacing(w: World, e: Event)
    requires Current(w) && e.RefSet? && e.row in w.store.rows && w.store.rows[e.row].cell != Some(e.cell)
    ensures JournalCurrent(OthersMove(w.store, e)) <==> !InJournal(w.store, e.row)
  {
    var s, t := w.store, OthersMove(w.store, e);
    forall i | 0 <= i < |s.journal| && s.journal[i].state == Submitted
      ensures CoversCurrent(t.rows, s.journal[i].tx.covers) <==> !Names(s.journal[i].tx.covers, e.row)
    {
      CoversAfterReplacing(s.rows, e.row, e.cell, s.journal[i].tx.covers);
    }
    if InJournal(s, e.row) {
      var i :| 0 <= i < |s.journal| && s.journal[i].state == Submitted && Names(s.journal[i].tx.covers, e.row);
      assert t.journal[i] == s.journal[i] && !CoversCurrent(t.rows, t.journal[i].tx.covers);
    } else {
      assert forall i :: 0 <= i < |t.journal| && t.journal[i].state == Submitted
               ==> t.journal[i] == s.journal[i] && CoversCurrent(t.rows, t.journal[i].tx.covers);
    }
  }

  lemma StepKeepsCurrent(w: World, e: Event)
    requires Inv(w) && Current(w) && Careful(w, e)
    ensures Current(Step(w, e))
  {
    if e.Done? {
      if e.c in w.callers { DoneKeepsCurrent(w, e.c); }
    } else if e.RefSet? {
      ReplacingIsSafeExactly(w, e);
    } else if e.RowMoves? || e.NewRow? || e.InMoves? || e.OtherWatch? {
      OthersKeepCurrent(w, e);
    } else if e.Listed? || e.ActiveWatches? || e.CellAnswer? || e.Answer? || e.Built? {
      NewsKeepsCurrent(w, e);
    } else {
      QuietKeepsCurrent(w, e);
    }
  }

  lemma SentKeepsCurrent(w: World, e: Event)
    requires Current(w) && e.Sent?
    ensures Current(Step(w, e))
  {
    if e.c in w.callers && w.callers[e.c].Send? {
      var next := SendAnswered(w.callers[e.c].b, w.callers[e.c].resumed, e.result);
      assert NotesCurrent(w.store.rows, w.callers[e.c]);
      assert next.Some? ==> CoversIn(next.value) == CoversIn(w.callers[e.c]) && FoundIn(next.value) == [];
    }
  }

  lemma SpawnedKeepsCurrent(w: World, c: nat, pc: Pc)
    requires Current(w) && FoundIn(pc) == [] && CoversIn(pc) == []
    ensures Current(Spawned(w, c, pc))
  {
  }

  lemma SpawnKeepsCurrent(w: World, e: Event)
    requires Current(w) && (e.SpawnBatch? || e.SpawnWorker? || e.SpawnPoll? || e.SpawnFinalize? || e.Die?)
    ensures Current(Step(w, e))
  {
    match e
    case SpawnBatch(c) => SpawnedKeepsCurrent(w, c, Start);
    case SpawnWorker(c, tx) => SpawnedKeepsCurrent(w, c, WorkerAsk(tx));
    case SpawnPoll(c) => SpawnedKeepsCurrent(w, c, PollList);
    case SpawnFinalize(c, row, cell) => SpawnedKeepsCurrent(w, c, FinalizeRow(row, cell));
    case Die(c) => assert Step(w, e).callers.Keys <= w.callers.Keys;
  }

  lemma QuietKeepsCurrent(w: World, e: Event)
    requires Inv(w) && Current(w)
    requires e.SpawnBatch? || e.SpawnWorker? || e.SpawnPoll? || e.SpawnFinalize? || e.Die? || e.Sent? || e.Elsewhere?
    ensures Current(Step(w, e))
  {
    if e.Sent? {
      SentKeepsCurrent(w, e);
    } else if e.Elsewhere? {
      EvolveKeeps(w.chain, e.move);
    } else {
      SpawnKeepsCurrent(w, e);
    }
  }

  /** Every replacement of an outpoint in the run is careful when it happens. */
  ghost predicate CarefulRun(w: World, events: seq<Event>)
    decreases |events|
  {
    events == [] || (Careful(w, events[0]) && CarefulRun(Step(w, events[0]), events[1..]))
  }

  lemma {:induction false} RunKeepsCurrent(w: World, events: seq<Event>)
    requires Inv(w) && Current(w) && CarefulRun(w, events)
    ensures Current(Run(w, events))
    decreases |events|
  {
    if events != [] {
      StepKeeps(w, events[0]);
      StepKeepsCurrent(w, events[0]);
      RunKeepsCurrent(Step(w, events[0]), events[1..]);
    }
  }

  // ---------------------------------------------------------------- replacing before the commit

  /** The rows shown at `committed` or later. */
  ghost function ShownIn(s: Store): set<nat> {
    set r | r in s.rows && Rank(s.rows[r].state) >= Rank(Committed)
  }

  /** An outpoint is replaced only while the row has never been shown at `committed` or later. */
  ghost predicate Early(w: World, shown: set<nat>, e: Event) {
    && e.RefSet? && e.row in w.store.rows && w.store.rows[e.row].cell.Some? && w.store.rows[e.row].cell != Some(e.cell)
    ==> e.row !in shown
  }

  /** Every replacement in the run is; `shown` are the rows shown so far. */
  ghost predicate ReplacedEarly(w: World, shown: set<nat>, events: seq<Event>)
    decreases |events|
  {
    events == []
    || (Early(w, shown + ShownIn(w.store), events[0])
        && ReplacedEarly(Step(w, events[0]), shown + ShownIn(w.store), events[1..]))
  }

  lemma StartNotes(s: Store, row: nat)
    ensures var next := StartStep(s).pc; next.Some? && Notes(next.value, row) ==> InJournal(s, row)
  {
    if s.journal != [] && s.journal[|s.journal| - 1].state == Submitted {
      assert Names(s.journal[|s.journal| - 1].tx.covers, row) ==> InJournal(s, row);
    }
  }

  /** A caller's own awaits give it no new rows, except that a restart takes up the latest record. */
  lemma NotesAfterReturn(s: Store, pc: Pc, row: nat)
    ensures var next := Returns(s, pc).pc; next.Some? && Notes(next.value, row) ==> Notes(pc, row) || InJournal(s, row)
  {
    if pc.Start? {
      StartNotes(s, row);
    } else if pc.Requeue? || pc.DeadPending? || pc.DeadReclaimed? || pc.MarkPending? {
      LoopKeepsNotes(s, pc);
    } else if Winner(pc) {
      WinnerKeepsNotes(s, pc);
    } else if HasBatch(pc) {
      BatchKeepsNotes(s, pc);
    } else {
      OtherKeepsNotes(s, pc);
    }
  }

  lemma OnlyJournalingAdds(s: Store, pc: Pc)
    requires !pc.JournalBatch?
    ensures |Returns(s, pc).store.journal| == |s.journal|
    ensures forall i :: 0 <= i < |s.journal| ==>
              && Returns(s, pc).store.journal[i].tx == s.journal[i].tx
              && (Returns(s, pc).store.journal[i].state == Submitted ==> s.journal[i].state == Submitted)
  {
  }

  lemma JournalAfterReturn(s: Store, pc: Pc, row: nat)
    ensures InJournal(Returns(s, pc).store, row) ==> InJournal(s, row) || Notes(pc, row)
  {
    var t := Returns(s, pc).store;
    if InJournal(t, row) {
      var i :| 0 <= i < |t.journal| && t.journal[i].state == Submitted && Names(t.journal[i].tx.covers, row);
      if pc.JournalBatch? {
        assert i < |s.journal| ==> t.journal[i] == s.journal[i];
      } else {
        OnlyJournalingAdds(s, pc);
        assert s.journal[i].state == Submitted && Names(s.journal[i].tx.covers, row);
      }
    }
  }

  lemma OneMoreCovered(covered: seq<Covered>, c: Covered, row: nat)
    ensures Names(covered + [c], row) ==> Names(covered, row) || c.row == row
  {
    var longer := covered + [c];
    if Names(longer, row) {
      var i :| 0 <= i < |longer| && longer[i].row == row;
      assert i < |covered| ==> covered[i].row == row;
    }
  }

  lemma MoreFound(a: seq<Candidate>, b: seq<Candidate>, row: nat)
    ensures Finds(a + b, row) ==> Finds(a, row) || Finds(b, row)
  {
    if Finds(a + b, row) {
      var i :| 0 <= i < |a + b| && (a + b)[i].row == row;
      if i < |a| {
        assert a[i].row == row;
      } else {
        assert b[i - |a|].row == row;
      }
    }
  }

  lemma CellNotes(pc: Pc, seen: CellStatus, row: nat)
    ensures var next := CellAnswered(pc, seen); next.Some? && Notes(next.value, row) ==> Notes(pc, row)
  {
    if pc.Resolve? && pc.i < |pc.found| && seen.Live? {
      OneMoreCovered(pc.covered, Covered(pc.found[pc.i].row, pc.found[pc.i].cell, seen.capacity), row);
      assert Finds(FoundIn(pc), pc.found[pc.i].row);
    }
  }

  /** A listing shows rows in reclaim. */
  lemma ListedRowIsShown(s: Store, found: seq<Candidate>, state: State, row: nat)
    requires ListsRows(s, found, state) && Rank(state) >= Rank(Committed) && Finds(found, row)
    ensures row in ShownIn(s)
  {
    var i :| 0 <= i < |found| && found[i].row == row;
    assert s.rows[found[i].row] == Row(state, Some(found[i].cell));
  }

  lemma ListedNotes(w: World, e: Event, row: nat)
    requires e.Listed? && e.c in w.callers
    ensures var next := Informed(w, e);
            next.Some? && Notes(next.value, row) ==> Notes(w.callers[e.c], row) || row in ShownIn(w.store)
  {
    var pc := w.callers[e.c];
    if Finds(e.found, row) {
      if pc.ListQueued? && ListsRows(w.store, e.found, ReclaimQueued) {
        ListedRowIsShown(w.store, e.found, ReclaimQueued, row);
      } else if pc.ListPending? && ListsRows(w.store, e.found, ReclaimPending) {
        ListedRowIsShown(w.store, e.found, ReclaimPending, row);
      }
    } else if pc.ListPending? {
      MoreFound(pc.found, e.found, row);
    }
  }

  lemma WatchAndBuiltNotes(w: World, e: Event, row: nat)
    requires e.ActiveWatches? || e.Built?
    requires e.c in w.callers
    ensures var next := Informed(w, e); next.Some? && Notes(next.value, row) ==> Notes(w.callers[e.c], row)
  {
  }

  lemma NewsNotes(w: World, e: Event, row: nat)
    requires e.Listed? || e.ActiveWatches? || e.CellAnswer? || e.Answer? || e.Built?
    requires e.c in w.callers
    ensures var next := Informed(w, e);
            next.Some? && Notes(next.value, row) ==> Notes(w.callers[e.c], row) || row in ShownIn(w.store)
  {
    if e.CellAnswer? {
      CellNotes(w.callers[e.c], e.seen, row);
    } else if e.Answer? {
      StatusKeepsNotes(w.callers[e.c], e.status);
    } else if e.Listed? {
      ListedNotes(w, e, row);
    } else {
      WatchAndBuiltNotes(w, e, row);
    }
  }

  /** Where one caller's move takes the rows in hand. */
  lemma HandAfterMove(w: World, c: nat, o: Outcome, row: nat)
    requires c in w.callers && InHand(Moved(w, c, o), row)
    requires o.pc.Some? && Notes(o.pc.value, row) ==> InHand(w, row) || row in ShownIn(w.store)
    requires InJournal(o.store, row) ==> InHand(w, row)
    ensures InHand(w, row) || row in ShownIn(w.store)
  {
    var v := Moved(w, c, o);
    if NotedByCaller(v, row) {
      var d :| d in v.callers && Notes(v.callers[d], row);
      assert d != c ==> d in w.callers && Notes(w.callers[d], row);
    }
  }

  lemma HandAfterDone(w: World, c: nat, row: nat)
    requires c in w.callers && InHand(Step(w, Done(c)), row)
    ensures InHand(w, row) || row in ShownIn(w.store)
  {
    NotesAfterReturn(w.store, w.callers[c], row);
    JournalAfterReturn(w.store, w.callers[c], row);
    HandAfterMove(w, c, Returns(w.store, w.callers[c]), row);
  }

  lemma HandAfterNews(w: World, e: Event, row: nat)
    requires e.Listed? || e.ActiveWatches? || e.CellAnswer? || e.Answer? || e.Built?
    requires e.c in w.callers && InHand(Step(w, e), row)
    ensures InHand(w, row) || row in ShownIn(w.store)
  {
    NewsNotes(w, e, row);
    HandAfterMove(w, e.c, Outcome(Heard(w, e), Informed(w, e)), row);
  }

  lemma HandAfterSent(w: World, e: Event, row: nat)
    requires e.Sent? && e.c in w.callers && w.callers[e.c].Send? && InHand(Step(w, e), row)
    ensures InHand(w, row)
  {
    var v, pc := Step(w, e), w.callers[e.c];
    var next := SendAnswered(pc.b, pc.resumed, e.result);
    assert next.Some? ==> CoversIn(next.value) == CoversIn(pc) && FoundIn(next.value) == [];
    if NotedByCaller(v, row) {
      var d :| d in v.callers && Notes(v.callers[d], row);
      assert d == e.c ==> Notes(pc, row);
    }
  }

  /** Nobody holds more than before; whoever is new holds nothing. */
  ghost predicate NewcomersHoldNothing(w: World, v: World) {
    && v.store.journal == w.store.journal
    && forall d :: d in v.callers ==>
         (d in w.callers && w.callers[d] == v.callers[d])
         || (FoundIn(v.callers[d]) == [] && CoversIn(v.callers[d]) == [])
  }

  lemma HandAfterNewcomers(w: World, v: World, row: nat)
    requires NewcomersHoldNothing(w, v) && InHand(v, row)
    ensures InHand(w, row)
  {
    if NotedByCaller(v, row) {
      var d :| d in v.callers && Notes(v.callers[d], row);
      assert d in w.callers && w.callers[d] == v.callers[d];
    }
  }

  lemma NewcomerHoldsNothing(w: World, c: nat, pc: Pc)
    requires FoundIn(pc) == [] && CoversIn(pc) == []
    ensures NewcomersHoldNothing(w, Spawned(w, c, pc))
  {
  }

  lemma SpawningBringsNothing(w: World, e: Event)
    requires e.SpawnBatch? || e.SpawnWorker? || e.SpawnPoll? || e.SpawnFinalize? || e.Die?
    ensures NewcomersHoldNothing(w, Step(w, e))
  {
    match e
    case SpawnBatch(c) => NewcomerHoldsNothing(w, c, Start);
    case SpawnWorker(c, tx) => NewcomerHoldsNothing(w, c, WorkerAsk(tx));
    case SpawnPoll(c) => NewcomerHoldsNothing(w, c, PollList);
    case SpawnFinalize(c, row, cell) => NewcomerHoldsNothing(w, c, FinalizeRow(row, cell));
    case Die(c) => assert Step(w, e) == w.(callers := w.callers - {c});
  }

  /** A row gets into somebody's hands only by being listed, and then it is shown in reclaim. */
  lemma HandsGrowByListing(w: World, e: Event, row: nat)
    requires InHand(Step(w, e), row)
    ensures InHand(w, row) || row in ShownIn(w.store)
  {
    if e.Done? {
      if e.c in w.callers { HandAfterDone(w, e.c, row); }
    } else if e.Listed? || e.ActiveWatches? || e.CellAnswer? || e.Answer? || e.Built? {
      if e.c in w.callers { HandAfterNews(w, e, row); }
    } else if e.Sent? {
      if e.c in w.callers && w.callers[e.c].Send? { HandAfterSent(w, e, row); }
    } else if e.SpawnBatch? || e.SpawnWorker? || e.SpawnPoll? || e.SpawnFinalize? || e.Die? {
      SpawningBringsNothing(w, e);
      HandAfterNewcomers(w, Step(w, e), row);
    } else {
      OthersLeaveHands(w, e, row);
    }
  }

  lemma OthersLeaveHands(w: World, e: Event, row: nat)
    requires e.Elsewhere? || IsOthers(e)
    ensures InHand(Step(w, e), row) <==> InHand(w, row)
  {
    assert Step(w, e).callers == w.callers && Step(w, e).store.journal == w.store.journal;
  }

  /** Rows in hand have been shown. */
  ghost predicate HandsShown(w: World, shown: set<nat>) {
    forall row :: InHand(w, row) ==> row in shown
  }

  lemma EarlyIsCareful(w: World, shown: set<nat>, e: Event)
    requires Current(w) && HandsShown(w, shown) && Early(w, shown + ShownIn(w.store), e)
    ensures Careful(w, e)
  {
    if e.RefSet? && e.row in w.store.rows && w.store.rows[e.row].cell.None? && InHand(w, e.row) {
      NothingInHandWithoutOutpoint(w, e.row);
    }
  }

  lemma NothingInHandWithoutOutpoint(w: World, row: nat)
    requires Current(w) && InHand(w, row)
    ensures row in w.store.rows && w.store.rows[row].cell.Some?
  {
    if NotedByCaller(w, row) {
      var c :| c in w.callers && Notes(w.callers[c], row);
      assert NotesCurrent(w.store.rows, w.callers[c]);
    } else {
      var i :| 0 <= i < |w.store.journal| && w.store.journal[i].state == Submitted
            && Names(w.store.journal[i].tx.covers, row);
      assert CoversCurrent(w.store.rows, w.store.journal[i].tx.covers);
    }
  }

  /** A run that replaces outpoints early is careful throughout. */
  lemma {:induction false} EarlyRunsAreCareful(w: World, shown: set<nat>, events: seq<Event>)
    requires Inv(w) && Current(w) && HandsShown(w, shown) && ReplacedEarly(w, shown, events)
    ensures CarefulRun(w, events)
    decreases |events|
  {
    if events != [] {
      var e, v, more := events[0], Step(w, events[0]), shown + ShownIn(w.store);
      EarlyIsCareful(w, shown, e);
      StepKeeps(w, e);
      StepKeepsCurrent(w, e);
      forall row | InHand(v, row) ensures row in more {
        HandsGrowByListing(w, e, row);
      }
      EarlyRunsAreCareful(v, more, events[1..]);
    }
  }

  /** If a row's outpoint is replaced only before the row has been shown at `committed` or later, a
      row shown as reclaimed has the outpoint it shows spent on the chain. */
  lemma ReclaimedRowsAreSpent(events: seq<Event>, row: nat)
    requires ReplacedEarly(Initial, {}, events)
    requires var rows := Run(Initial, events).store.rows; row in rows && rows[row].state == Reclaimed
    ensures var v := Run(Initial, events);
            v.store.rows[row].cell.Some? && v.store.rows[row].cell.value in v.chain.spent
  {
    EarlyRunsAreCareful(Initial, {}, events);
    RunKeepsCurrent(Initial, events);
  }

  // ---------------------------------------------------------------- what carelessness does

  lemma {:induction false} RunAppends(w: World, a: seq<Event>, b: seq<Event>)
    ensures Run(w, a + b) == Run(Run(w, a), b)
    decreases |a|
  {
    if a == [] {
      assert a + b == b;
    } else {
      assert (a + b)[0] == a[0] && (a + b)[1..] == a[1..] + b;
      RunAppends(Step(w, a[0]), a[1..], b);
    }
  }

  function Moves(row: nat, states: seq<State>): seq<Event> {
    if states == [] then [] else [RowMoves(row, states[0])] + Moves(row, states[1..])
  }

  ghost predicate LegalMoves(from: State, states: seq<State>)
    decreases |states|
  {
    states == [] || (states[0] in OutgoingEdges(from) - {Reclaimed} && LegalMoves(states[0], states[1..]))
  }

  lemma OneMoveStep(w: World, row: nat, state: State)
    requires row in w.store.rows && state in OutgoingEdges(w.store.rows[row].state) - {Reclaimed}
    ensures Step(w, RowMoves(row, state))
         == w.(store := w.store.(rows := w.store.rows[row := w.store.rows[row].(state := state)]))
  {
  }

  lemma OneMove(w: World, row: nat, states: seq<State>)
    requires row in w.store.rows && states != [] && LegalMoves(w.store.rows[row].state, states)
    ensures var r := w.store.rows[row].(state := states[0]);
            Run(w, Moves(row, states))
            == Run(w.(store := w.store.(rows := w.store.rows[row := r])), Moves(row, states[1..]))
  {
    OneMoveStep(w, row, states[0]);
    StepThenRun(w, RowMoves(row, states[0]), Moves(row, states[1..]));
  }

  lemma {:induction false} MovesArrive(w: World, row: nat, states: seq<State>)
    requires row in w.store.rows && LegalMoves(w.store.rows[row].state, states) && states != []
    ensures var r := w.store.rows[row].(state := states[|states| - 1]);
            Run(w, Moves(row, states)) == w.(store := w.store.(rows := w.store.rows[row := r]))
    decreases |states|
  {
    var r := w.store.rows[row].(state := states[0]);
    var v := w.(store := w.store.(rows := w.store.rows[row := r]));
    OneMove(w, row, states);
    if |states| == 1 {
      assert Moves(row, states[1..]) == [] && Run(v, []) == v;
    } else {
      MovesArrive(v, row, states[1..]);
    }
  }

  function ToReclaim(): seq<State> {
    [Queued, Encrypting, BuildingTransaction, AwaitingSignature, Submitting, Pending, Committed, AvailableOnChain,
     DownloadedByRecipient, Acknowledged, ReclaimQueued]
  }

  /** The batch worker lists row 1 at cell 10, which somebody spends, asks about it and, while it
      waits to mark the row, the row gets cell 11. */
  function ReplacedInHand(): seq<Event> {
    [SpawnBatch(0), Done(0), Listed(0, [Candidate(1, 10)]), Listed(0, []), Elsewhere(SpendElsewhere(10)),
     CellAnswer(0, DeadCell), RefSet(1, 11), Done(0), Done(0)]
  }

  lemma StepThenRun(w: World, e: Event, rest: seq<Event>)
    ensures Run(w, [e] + rest) == Run(Step(w, e), rest)
  {
    assert ([e] + rest)[1..] == rest;
  }

  /** The listing half of that run. */
  lemma ListedInHand(w: World) returns (v: World)
    requires w.callers == map[] && w.store.journal == [] && w.chain == EmptyChain
    requires 1 in w.store.rows && w.store.rows[1] == Row(ReclaimQueued, Some(10))
    ensures v == Run(w, ReplacedInHand()[..4])
    ensures v.callers == map[0 := Resolve([Candidate(1, 10)], 0, [])] && v.store == w.store && v.chain == w.chain
  {
    var es := ReplacedInHand()[..4];
    var a := Step(w, es[0]);
    var b := Step(a, es[1]);
    var c := Step(b, es[2]);
    v := Step(c, es[3]);
    assert b.callers[0] == ListQueued;
    assert c.callers[0] == ListPending([Candidate(1, 10)]);
    assert [Candidate(1, 10)] + [] == [Candidate(1, 10)];
    assert es == [es[0]] + ([es[1]] + ([es[2]] + ([es[3]] + [])));
    StepThenRun(w, es[0], [es[1]] + ([es[2]] + ([es[3]] + [])));
    StepThenRun(a, es[1], [es[2]] + ([es[3]] + []));
    StepThenRun(b, es[2], [es[3]] + []);
    StepThenRun(c, es[3], []);
  }

  /** The half in which the outpoint is replaced and the row marked. */
  lemma MarkedInHand(w: World)
    requires w.callers == map[0 := Resolve([Candidate(1, 10)], 0, [])] && w.chain == EmptyChain
    requires 1 in w.store.rows && w.store.rows[1] == Row(ReclaimQueued, Some(10))
    ensures var v := Run(w, ReplacedInHand()[4..]);
            1 in v.store.rows && v.store.rows[1] == Row(Reclaimed, Some(11)) && 11 !in v.chain.spent
  {
    var es := ReplacedInHand()[4..];
    var a := Step(w, es[0]);
    var b := Step(a, es[1]);
    assert b.callers == map[0 := DeadPending([Candidate(1, 10)], 0, [])] && b.store.rows == w.store.rows;
    assert 11 !in b.chain.spent;
    MarkedAfterReplacing(b);
    assert es == [es[0]] + ([es[1]] + es[2..]) && es[2..] == ReplacedInHand()[6..];
    StepThenRun(w, es[0], [es[1]] + es[2..]);
    StepThenRun(a, es[1], es[2..]);
  }

  lemma Replaced(w: World) returns (v: World)
    requires w.callers == map[0 := DeadPending([Candidate(1, 10)], 0, [])] && 11 !in w.chain.spent
    requires 1 in w.store.rows && w.store.rows[1] == Row(ReclaimQueued, Some(10))
    ensures v == Step(w, RefSet(1, 11)) && v.callers == w.callers && v.chain == w.chain
    ensures 1 in v.store.rows && v.store.rows[1] == Row(ReclaimQueued, Some(11))
  {
    v := Step(w, RefSet(1, 11));
  }

  lemma MarkedPending(w: World) returns (v: World)
    requires w.callers == map[0 := DeadPending([Candidate(1, 10)], 0, [])]
    requires 1 in w.store.rows && w.store.rows[1] == Row(ReclaimQueued, Some(11))
    ensures v == Step(w, Done(0)) && v.callers == map[0 := DeadReclaimed([Candidate(1, 10)], 0, [])]
    ensures v.chain == w.chain && 1 in v.store.rows && v.store.rows[1] == Row(ReclaimPending, Some(11))
  {
    v := Step(w, Done(0));
  }

  lemma MarkedReclaimed(w: World) returns (v: World)
    requires w.callers == map[0 := DeadReclaimed([Candidate(1, 10)], 0, [])]
    requires 1 in w.store.rows && w.store.rows[1] == Row(ReclaimPending, Some(11))
    ensures v == Step(w, Done(0))
    ensures v.chain == w.chain && 1 in v.store.rows && v.store.rows[1] == Row(Reclaimed, Some(11))
  {
    v := Step(w, Done(0));
  }

  lemma MarkedAfterReplacing(w: World)
    requires w.callers == map[0 := DeadPending([Candidate(1, 10)], 0, [])] && 11 !in w.chain.spent
    requires 1 in w.store.rows && w.store.rows[1] == Row(ReclaimQueued, Some(10))
    ensures var v := Run(w, ReplacedInHand()[6..]);
            1 in v.store.rows && v.store.rows[1] == Row(Reclaimed, Some(11)) && 11 !in v.chain.spent
  {
    var a := Replaced(w);
    var b := MarkedPending(a);
    var c := MarkedReclaimed(b);
    assert ReplacedInHand()[6..] == [RefSet(1, 11)] + ([Done(0)] + ([Done(0)] + []));
    StepThenRun(w, RefSet(1, 11), [Done(0)] + ([Done(0)] + []));
    StepThenRun(a, Done(0), [Done(0)] + []);
    StepThenRun(b, Done(0), []);
    assert Run(c, []) == c;
  }

  /** Why care is needed: an outpoint replaced while the row is in hand leaves a row that is shown
      as reclaimed at a cell that is still unspent. */
  lemma CarelessReplacement()
    ensures var v := Run(Initial, [NewRow(1, Some(10))] + (Moves(1, ToReclaim()) + ReplacedInHand()));
            1 in v.store.rows && v.store.rows[1] == Row(Reclaimed, Some(11)) && 11 !in v.chain.spent
  {
    ToReclaimIsLegal();
    CarelessAlong(ToReclaim(), ReplacedInHand());
  }

  lemma CarelessAlong(walk: seq<State>, tail: seq<Event>)
    requires LegalMoves(Draft, walk) && walk != [] && walk[|walk| - 1] == ReclaimQueued && tail == ReplacedInHand()
    ensures var v := Run(Initial, [NewRow(1, Some(10))] + (Moves(1, walk) + tail));
            1 in v.store.rows && v.store.rows[1] == Row(Reclaimed, Some(11)) && 11 !in v.chain.spent
  {
    var queued := QueuedAlong(walk);
    var v := ListedInHand(queued);
    MarkedInHand(v);
    assert tail[..4] + tail[4..] == tail;
    RunAppends(queued, tail[..4], tail[4..]);
    RunAppends(Initial, [NewRow(1, Some(10))] + Moves(1, walk), tail);
    Associate([NewRow(1, Some(10))], Moves(1, walk), tail);
  }

  lemma Associate(a: seq<Event>, b: seq<Event>, c: seq<Event>)
    ensures a + (b + c) == (a + b) + c
  {
  }

  lemma QueuedAlong(walk: seq<State>) returns (queued: World)
    requires LegalMoves(Draft, walk) && walk != [] && walk[|walk| - 1] == ReclaimQueued
    ensures queued == Run(Initial, [NewRow(1, Some(10))] + Moves(1, walk))
    ensures queued.callers == map[] && queued.store.journal == [] && queued.chain == EmptyChain
    ensures 1 in queued.store.rows && queued.store.rows[1] == Row(ReclaimQueued, Some(10))
  {
    var begun := Step(Initial, NewRow(1, Some(10)));
    MovesArrive(begun, 1, walk);
    queued := Run(begun, Moves(1, walk));
    StepThenRun(Initial, NewRow(1, Some(10)), Moves(1, walk));
  }

  lemma ToReclaimIsLegal()
    ensures LegalMoves(Draft, ToReclaim()) && |ToReclaim()| == 11 && ToReclaim()[10] == ReclaimQueued
  {
    EdgeByEdge(Draft, ToReclaim());
  }

  lemma {:induction false} EdgeByEdge(from: State, p: seq<State>)
    requires p != [] ==> p[0] in OutgoingEdges(from) - {Reclaimed}
    requires forall i :: 0 < i < |p| ==> p[i] in OutgoingEdges(p[i - 1]) - {Reclaimed}
    ensures LegalMoves(from, p)
    decreases |p|
  {
    if p != [] {
      var rest := p[1..];
      assert forall i :: 0 <= i < |rest| ==> rest[i] == p[i + 1];
      EdgeByEdge(p[0], rest);
    }
  }
}
