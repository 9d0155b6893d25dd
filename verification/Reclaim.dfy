/** Reclaim, its bookkeeping and the responder's watches, run by any number of overlapping
    callers: the batch worker and the pending-transaction worker inside `executeReclaimBatch`,
    the watch poller and the response finalizer. Every await is one step of one caller, and any
    caller may die at any of them. All the results rest on two kinds of answer only: a
    `committed` transaction is committed, and a `dead` cell is spent. */
module Reclaim {
  import opened Options
  import opened MessageStates
  import opened Chain
  import opened Journal
  import opened Purposes

  datatype Row = Row(state: State, cell: Option<Cell>)

  /** What a reclaim record stores beside its hash. */
  datatype Terms = Terms(purpose: string, capacity: nat, fee: nat)

  datatype Credit = Credit(tx: Tx, amount: nat)

  datatype Spender = NotSpent | SpentBy(tx: Tx) | SpentByUnknown
  datatype Watch = Watch(purpose: string, spender: Spender)

  /** Everything that survives a crash, and what has happened: `recorded` remembers every outpoint
      ever recorded for a row, `watched` every registration, `dead` every cell and `confirmed` every
      transaction that a caller asked about and was told is dead, is committed. */
  datatype Store = Store(
    rows: map<nat, Row>, inRows: map<nat, State>,
    watches: map<Cell, Watch>, journal: seq<Record<Terms>>, released: seq<Credit>, burned: seq<Credit>,
    recorded: set<(nat, Cell)>, watched: set<(nat, Cell)>, dead: set<Cell>, confirmed: set<Tx>)

  datatype Candidate = Candidate(row: nat, cell: Cell)

  /** One reclaim transaction with what its caller holds about it. */
  datatype Batch = Batch(tx: Tx, ids: seq<nat>, capacity: nat, fee: nat)

  /** Where a caller waits. `resumed` tells the two halves of `executeReclaimBatch` apart. */
  datatype Pc =
    | Start
    | Ask(b: Batch) | Abandon(b: Batch) | Requeue(ids: seq<nat>, i: nat)
    | ListQueued | ListPending(found: seq<Candidate>)
    | Resolve(found: seq<Candidate>, i: nat, covered: seq<Covered>)
    | DeadPending(found: seq<Candidate>, i: nat, covered: seq<Covered>)
    | DeadReclaimed(found: seq<Candidate>, i: nat, covered: seq<Covered>)
    | MarkPending(covered: seq<Covered>, i: nat)
    | Build(covered: seq<Covered>)
    | JournalBatch(b: Batch)
    | Send(b: Batch, resumed: bool) | Track(b: Batch, resumed: bool)
    | Wait(b: Batch, resumed: bool, track: bool)
    | Cas(b: Batch, resumed: bool)
    | Settle(b: Batch, resumed: bool, i: nat) | WatchFind(b: Batch, i: nat) | WatchMark(b: Batch, i: nat)
    | Release(b: Batch, resumed: bool) | Burn(b: Batch, resumed: bool) | Prune
    | WorkerAsk(tx: Tx) | WorkerReject(tx: Tx)
    | PollList | Poll(list: seq<(Cell, string)>, i: nat, hits: nat)
    | PollMark(list: seq<(Cell, string)>, i: nat, hits: nat)
    | PollRow(list: seq<(Cell, string)>, i: nat, hits: nat)
    | FinalizeRow(row: nat, cell: Cell) | FinalizeWatch(row: nat, cell: Cell)

  datatype World = World(chain: Chain, store: Store, callers: map<nat, Pc>)

  datatype CellStatus = Live(capacity: nat) | DeadCell | UnknownCell

  datatype Event =
    | SpawnBatch(c: nat) | SpawnWorker(c: nat, tx: Tx) | SpawnPoll(c: nat)
    | SpawnFinalize(c: nat, row: nat, cell: Cell)
    | Die(c: nat)
    | Done(c: nat)
    | Listed(c: nat, found: seq<Candidate>)
    | ActiveWatches(c: nat, list: seq<(Cell, string)>)
    | CellAnswer(c: nat, seen: CellStatus)
    | Answer(c: nat, status: Status)
    | Sent(c: nat, result: SendResult, delivered: bool)
    | Built(c: nat, wallet: seq<Cell>, fee: nat, salt: nat)
    | Elsewhere(move: ChainEvent)
    | RowMoves(row: nat, state: State) | NewRow(row: nat, ref: Option<Cell>)
    | RefSet(row: nat, cell: Cell)
    | InMoves(row: nat, state: State)
    | OtherWatch(cell: Cell, purpose: string)

  // ---------------------------------------------------------------- what a batch is worth

  function RowsOf(covers: seq<Covered>): (ids: seq<nat>)
    ensures |ids| == |covers| && forall i :: 0 <= i < |ids| ==> ids[i] == covers[i].row
  {
    seq(|covers|, i requires 0 <= i < |covers| => covers[i].row)
  }

  function Total(covers: seq<Covered>): nat {
    if covers == [] then 0 else covers[0].capacity + Total(covers[1..])
  }

  /** Released capacity is net of the fee, never negative. */
  function Net(capacity: nat, fee: nat): nat {
    if capacity > fee then capacity - fee else 0
  }

  // ---------------------------------------------------------------- single steps

  /** What one await of one caller leaves behind; None is a caller that is finished, whether
      it returned or threw. */
  datatype Outcome = Outcome(store: Store, pc: Option<Pc>)

  /** An outgoing row transition: the next step when the store accepts it, else a throw. */
  function Request(s: Store, row: nat, target: State, next: Pc): Outcome {
    if row !in s.rows then Outcome(s, None)
    else
      match Transition(Outgoing, s.rows[row].state, target)
      case None => Outcome(s, None)
      case Some(state) => Outcome(s.(rows := s.rows[row := s.rows[row].(state := state)]), Some(next))
  }

  function RequestIncoming(s: Store, row: nat, target: State, next: Pc): Outcome {
    if row !in s.inRows then Outcome(s, None)
    else
      match Transition(Incoming, s.inRows[row], target)
      case None => Outcome(s, None)
      case Some(state) => Outcome(s.(inRows := s.inRows[row := state]), Some(next))
  }

  function MarkSpent(s: Store, cell: Cell, spender: Spender, next: Pc): Outcome {
    if cell !in s.watches || (s.watches[cell].spender != NotSpent && s.watches[cell].spender != spender)
    then Outcome(s, None)
    else Outcome(s.(watches := s.watches[cell := s.watches[cell].(spender := spender)]), Some(next))
  }

  function Pruned(watches: map<Cell, Watch>): map<Cell, Watch> {
    map cell | cell in watches && watches[cell].spender == NotSpent :: watches[cell]
  }

  /** The latest reclaim record, if a crash or another caller left it submitted. */
  function StartStep(s: Store): Outcome {
    if s.journal == [] || s.journal[|s.journal| - 1].state != Submitted then Outcome(s, Some(ListQueued))
    else
      var r := s.journal[|s.journal| - 1];
      match ParseReclaimPurpose(r.details.purpose)
      case None => Outcome(s, None)
      case Some(ids) => Outcome(s, Some(Ask(Batch(r.tx, ids, r.details.capacity, r.details.fee))))
  }

  function RecordOf(b: Batch): Record<Terms> {
    Record(b.tx, Terms(ReclaimPurpose(b.ids), b.capacity, b.fee), Submitted)
  }

  /** The compare-and-swap: exactly one caller moves a record from submitted to committed. */
  function CasStep(s: Store, b: Batch, resumed: bool): Outcome {
    if IsIn(s.journal, b.tx, Submitted)
    then Outcome(s.(journal := Marked(s.journal, b.tx, CommittedTx)), Some(Settle(b, resumed, 0)))
    else Outcome(s, None)
  }

  function SettleStep(s: Store, b: Batch, resumed: bool, i: nat): Outcome {
    if i >= |b.ids| then Outcome(s, Some(Release(b, resumed)))
    else Request(s, b.ids[i], Reclaimed, if resumed then Settle(b, resumed, i + 1) else WatchFind(b, i))
  }

  function WatchFindStep(s: Store, b: Batch, i: nat): Outcome {
    if i < |b.tx.covers| && b.tx.covers[i].cell in s.watches
       && s.watches[b.tx.covers[i].cell].spender == NotSpent
    then Outcome(s, Some(WatchMark(b, i)))
    else Outcome(s, Some(Settle(b, false, i + 1)))
  }

  function ReleaseStep(s: Store, b: Batch, resumed: bool): Outcome {
    var net := Net(b.capacity, b.fee);
    Outcome(if net > 0 then s.(released := s.released + [Credit(b.tx, net)]) else s, Some(Burn(b, resumed)))
  }

  function BurnStep(s: Store, b: Batch, resumed: bool): Outcome {
    Outcome(if b.fee > 0 then s.(burned := s.burned + [Credit(b.tx, b.fee)]) else s,
            if resumed then None else Some(Prune))
  }

  function PollRowStep(s: Store, list: seq<(Cell, string)>, i: nat, hits: nat): Outcome {
    if i >= |list| then Outcome(s, None)
    else
      match ParseWatchPurpose(list[i].1)
      case None => Outcome(s, Some(Poll(list, i + 1, hits + 1)))
      case Some(row) => RequestIncoming(s, row, RemoteReclaimed, Poll(list, i + 1, hits + 1))
  }

  function FinalizeWatchStep(s: Store, row: nat, cell: Cell): Outcome {
    if cell in s.watches then Outcome(s, None)
    else Outcome(s.(watches := s.watches[cell := Watch(ResponsePurpose(row), NotSpent)],
                    watched := s.watched + {(row, cell)}), None)
  }

  /** The awaits that return without news from the node. */
  function Returns(s: Store, pc: Pc): Outcome {
    match pc
    case Start => StartStep(s)
    case Abandon(b) => Outcome(s.(journal := Marked(s.journal, b.tx, Abandoned)), Some(Requeue(b.ids, 0)))
    case Requeue(ids, i) =>
      if i >= |ids| then Outcome(s, None) else Request(s, ids[i], ReclaimQueued, Requeue(ids, i + 1))
    case DeadPending(found, i, covered) =>
      if i >= |found| then Outcome(s, None)
      else Request(s, found[i].row, ReclaimPending, DeadReclaimed(found, i, covered))
    case DeadReclaimed(found, i, covered) =>
      if i >= |found| then Outcome(s, None)
      else Request(s, found[i].row, Reclaimed, Resolve(found, i + 1, covered))
    case MarkPending(covered, i) =>
      if i >= |covered| then Outcome(s, Some(Build(covered)))
      else Request(s, covered[i].row, ReclaimPending, MarkPending(covered, i + 1))
    case JournalBatch(b) => Outcome(s.(journal := Recorded(s.journal, RecordOf(b))), Some(Send(b, false)))
    case Track(b, resumed) => Outcome(s, Some(if resumed then Cas(b, true) else Wait(b, false, false)))
    case Cas(b, resumed) => CasStep(s, b, resumed)
    case Settle(b, resumed, i) => SettleStep(s, b, resumed, i)
    case WatchFind(b, i) => WatchFindStep(s, b, i)
    case WatchMark(b, i) =>
      if i >= |b.tx.covers| then Outcome(s, None)
      else MarkSpent(s, b.tx.covers[i].cell, SpentBy(b.tx), Settle(b, false, i + 1))
    case Release(b, resumed) => ReleaseStep(s, b, resumed)
    case Burn(b, resumed) => BurnStep(s, b, resumed)
    case Prune => Outcome(s.(watches := Pruned(s.watches)), None)
    case WorkerReject(tx) => Outcome(s.(journal := Marked(s.journal, tx, RejectedTx)), None)
    case PollMark(list, i, hits) =>
      if i >= |list| then Outcome(s, None)
      else MarkSpent(s, list[i].0, SpentByUnknown, PollRow(list, i, hits))
    case PollRow(list, i, hits) => PollRowStep(s, list, i, hits)
    case FinalizeRow(row, cell) => RequestIncoming(s, row, AwaitingRemoteReclaim, FinalizeWatch(row, cell))
    case FinalizeWatch(row, cell) => FinalizeWatchStep(s, row, cell)
    case _ => Outcome(s, Some(pc))
  }

  /** After `getTransaction`. */
  function StatusAnswered(pc: Pc, status: Status): Option<Pc> {
    match pc
    case Ask(b) =>
      (match status
       case IsCommitted => Some(Cas(b, true))
       case IsRejected => Some(Abandon(b))
       case InPool => Some(Wait(b, true, false))
       case Unknown => Some(Send(b, true)))
    case Wait(b, resumed, track) =>
      (match status
       case IsCommitted => Some(if track then Track(b, resumed) else Cas(b, resumed))
       case IsRejected => None
       case _ => Some(pc))
    case WorkerAsk(tx) =>
      (match status
       case IsCommitted => Some(Start)
       case IsRejected => Some(WorkerReject(tx))
       case _ => None)
    case _ => Some(pc)
  }

  /** After `sendTransaction`. */
  function SendAnswered(b: Batch, resumed: bool, result: SendResult): Option<Pc> {
    match result
    case Accepted => Some(if resumed then Wait(b, true, true) else Track(b, false))
    case SpentError => if resumed then Some(Abandon(b)) else None
    case _ => None
  }

  /** The end of the candidate loop. */
  function Resolved(covered: seq<Covered>): Option<Pc> {
    if covered == [] then None else Some(MarkPending(covered, 0))
  }

  /** After `getLiveCell`: an unknown cell only moves the loop on. */
  function CellAnswered(pc: Pc, seen: CellStatus): Option<Pc> {
    match pc
    case Resolve(found, i, covered) =>
      if i >= |found| then Resolved(covered)
      else
        (match seen
         case Live(capacity) =>
           Some(Resolve(found, i + 1, covered + [Covered(found[i].row, found[i].cell, capacity)]))
         case DeadCell => Some(DeadPending(found, i, covered))
         case UnknownCell => Some(Resolve(found, i + 1, covered)))
    case Poll(list, i, hits) =>
      if i >= |list| then (if hits > 0 then Some(Prune) else None)
      else if seen == DeadCell then Some(PollMark(list, i, hits))
      else Some(Poll(list, i + 1, hits))
    case _ => Some(pc)
  }

  /** The cell a caller is asking about. */
  function AskedCell(pc: Pc): Option<Cell> {
    match pc
    case Resolve(found, i, _) => if i < |found| then Some(found[i].cell) else None
    case Poll(list, i, _) => if i < |list| then Some(list[i].0) else None
    case _ => None
  }

  /** The transaction a caller is asking about. */
  function AskedTx(pc: Pc): Option<Tx> {
    match pc
    case Ask(b) => Some(b.tx)
    case Wait(b, _, _) => Some(b.tx)
    case WorkerAsk(tx) => Some(tx)
    case _ => None
  }

  /** A listing returns rows that are in the wanted state with a recorded outpoint. */
  ghost predicate ListsRows(s: Store, found: seq<Candidate>, state: State) {
    forall i :: 0 <= i < |found| ==>
      found[i].row in s.rows && s.rows[found[i].row] == Row(state, Some(found[i].cell))
  }

  ghost predicate ListsWatches(s: Store, list: seq<(Cell, string)>) {
    forall i :: 0 <= i < |list| ==>
      list[i].0 in s.watches && s.watches[list[i].0] == Watch(list[i].1, NotSpent)
  }

  // ---------------------------------------------------------------- the step system

  function Moved(w: World, c: nat, o: Outcome): World {
    w.(store := o.store,
       callers := if o.pc.Some? then w.callers[c := o.pc.value] else w.callers - {c})
  }

  function Spawned(w: World, c: nat, pc: Pc): World {
    if c in w.callers then w else w.(callers := w.callers[c := pc])
  }

  /** A true answer that the cell a caller asks about is dead. */
  ghost predicate ToldDead(w: World, e: Event) {
    && e.CellAnswer? && e.seen == DeadCell && e.c in w.callers
    && AskedCell(w.callers[e.c]).Some? && AskedCell(w.callers[e.c]).value in w.chain.spent
  }

  /** A true answer that the transaction a caller asks about is committed. */
  ghost predicate ToldCommitted(w: World, e: Event) {
    && e.Answer? && e.status == IsCommitted && e.c in w.callers
    && AskedTx(w.callers[e.c]).Some? && AskedTx(w.callers[e.c]).value in w.chain.committed
  }

  ghost function Heard(w: World, e: Event): Store {
    if ToldDead(w, e) then w.store.(dead := w.store.dead + {AskedCell(w.callers[e.c]).value})
    else if ToldCommitted(w, e) then w.store.(confirmed := w.store.confirmed + {AskedTx(w.callers[e.c]).value})
    else w.store
  }

  /** Steps of a caller that brings news from outside. None when the event does not apply. */
  ghost function Informed(w: World, e: Event): Option<Pc>
    requires e.Listed? || e.ActiveWatches? || e.CellAnswer? || e.Answer? || e.Built?
    requires e.c in w.callers
  {
    var pc := w.callers[e.c];
    match e
    case Listed(_, found) =>
      if pc.ListQueued? && ListsRows(w.store, found, ReclaimQueued) then Some(ListPending(found))
      else if pc.ListPending? && ListsRows(w.store, found, ReclaimPending)
      then (if pc.found + found == [] then None else Some(Resolve(pc.found + found, 0, [])))
      else Some(pc)
    case ActiveWatches(_, list) =>
      if pc.PollList? && ListsWatches(w.store, list) then Some(Poll(list, 0, 0)) else Some(pc)
    case CellAnswer(_, seen) =>
      if seen == DeadCell && !ToldDead(w, e) then Some(pc) else CellAnswered(pc, seen)
    case Answer(_, status) =>
      if status == IsCommitted && !ToldCommitted(w, e) then Some(pc) else StatusAnswered(pc, status)
    case Built(_, wallet, fee, salt) =>
      if pc.Build?
      then Some(JournalBatch(Batch(Tx(pc.covered, wallet, fee, salt), RowsOf(pc.covered), Total(pc.covered), fee)))
      else Some(pc)
  }

  /** The other owners of the rows and watches. They never set the two end states; they may replace
      the outpoint of a row at any time. */
  function OthersMove(s: Store, e: Event): Store
    requires e.RowMoves? || e.NewRow? || e.RefSet? || e.InMoves? || e.OtherWatch?
  {
    match e
    case RowMoves(row, state) =>
      if row in s.rows && state != Reclaimed && CanTransition(Outgoing, s.rows[row].state, state)
      then s.(rows := s.rows[row := s.rows[row].(state := state)]) else s
    case NewRow(row, ref) =>
      if row > 0 && row !in s.rows && row !in s.inRows
      then s.(rows := s.rows[row := Row(Draft, ref)], inRows := s.inRows[row := Discovered],
              recorded := if ref.Some? then s.recorded + {(row, ref.value)} else s.recorded)
      else s
    case RefSet(row, cell) =>
      if row in s.rows
      then s.(rows := s.rows[row := s.rows[row].(cell := Some(cell))], recorded := s.recorded + {(row, cell)})
      else s
    case InMoves(row, state) =>
      if row in s.inRows && state != RemoteReclaimed && CanTransition(Incoming, s.inRows[row], state)
      then s.(inRows := s.inRows[row := state]) else s
    case OtherWatch(cell, purpose) =>
      if cell !in s.watches && ParseWatchPurpose(purpose) == None
      then s.(watches := s.watches[cell := Watch(purpose, NotSpent)]) else s
  }

  /** One step of the whole system; an event that does not apply changes nothing. */
  ghost function Step(w: World, e: Event): World {
    match e
    case SpawnBatch(c) => Spawned(w, c, Start)
    case SpawnWorker(c, tx) => Spawned(w, c, WorkerAsk(tx))
    case SpawnPoll(c) => Spawned(w, c, PollList)
    case SpawnFinalize(c, row, cell) => if row > 0 then Spawned(w, c, FinalizeRow(row, cell)) else w
    case Die(c) => w.(callers := w.callers - {c})
    case Done(c) => if c in w.callers then Moved(w, c, Returns(w.store, w.callers[c])) else w
    case Sent(c, result, delivered) =>
      if c !in w.callers || !w.callers[c].Send? then w
      else
        var pc := w.callers[c];
        var chain := if delivered || result == Accepted then Deliver(w.chain, pc.b.tx) else w.chain;
        Moved(w.(chain := chain), c, Outcome(w.store, SendAnswered(pc.b, pc.resumed, result)))
    case Elsewhere(move) => w.(chain := Evolve(w.chain, move))
    case RowMoves(_, _) => w.(store := OthersMove(w.store, e))
    case NewRow(_, _) => w.(store := OthersMove(w.store, e))
    case RefSet(_, _) => w.(store := OthersMove(w.store, e))
    case InMoves(_, _) => w.(store := OthersMove(w.store, e))
    case OtherWatch(_, _) => w.(store := OthersMove(w.store, e))
    case _ => if e.c in w.callers then Moved(w, e.c, Outcome(Heard(w, e), Informed(w, e))) else w
  }

  ghost function Run(w: World, events: seq<Event>): World
    decreases |events|
  {
    if events == [] then w else Run(Step(w, events[0]), events[1..])
  }

  const EmptyStore := Store(map[], map[], map[], [], [], [], {}, {}, {}, {})

  const Initial := World(EmptyChain, EmptyStore, map[])

  // ---------------------------------------------------------------- what the store keeps

  ghost predicate CoversOk(s: Store, covers: seq<Covered>) {
    forall i :: 0 <= i < |covers| ==> covers[i].row > 0 && (covers[i].row, covers[i].cell) in s.recorded
  }

  ghost predicate FoundOk(s: Store, found: seq<Candidate>) {
    forall i :: 0 <= i < |found| ==> found[i].row > 0 && (found[i].row, found[i].cell) in s.recorded
  }

  /** A caller's notes about its transaction agree with the transaction. */
  ghost predicate BatchOk(s: Store, b: Batch) {
    && b.tx.covers != [] && CoversOk(s, b.tx.covers)
    && b.ids == RowsOf(b.tx.covers) && b.capacity == Total(b.tx.covers) && b.fee == b.tx.fee
  }

  ghost predicate ListOk(s: Store, list: seq<(Cell, string)>) {
    forall i :: 0 <= i < |list| && ParseWatchPurpose(list[i].1).Some?
      ==> (ParseWatchPurpose(list[i].1).value, list[i].0) in s.watched
  }

  /** The record has left `submitted`, and nothing puts it back. */
  ghost predicate Sealed(journal: seq<Record<Terms>>, tx: Tx) {
    Holds(journal, tx) && !IsIn(journal, tx, Submitted)
  }

  ghost predicate Logged(log: seq<Credit>, tx: Tx) {
    exists i :: 0 <= i < |log| && log[i].tx == tx
  }

  ghost predicate NoDuplicates(log: seq<Credit>) {
    forall i, j :: 0 <= i < j < |log| ==> log[i].tx != log[j].tx
  }

  /** The transaction spends this outpoint for this row. */
  ghost predicate CoversRow(tx: Tx, row: nat, cell: Cell) {
    exists i :: 0 <= i < |tx.covers| && tx.covers[i].row == row && tx.covers[i].cell == cell
  }

  ghost predicate ReclaimConfirmed(s: Store, row: nat, cell: Cell) {
    exists tx :: tx in s.confirmed && CoversRow(tx, row, cell)
  }

  /** What justifies showing a row as reclaimed: an outpoint recorded for it that a caller was told
      is dead, or was told is spent for it by a committed reclaim. */
  ghost predicate Evidence(s: Store, row: nat) {
    exists cell :: (row, cell) in s.recorded && (cell in s.dead || ReclaimConfirmed(s, row, cell))
  }

  ghost predicate RowsOk(c: Chain, s: Store) {
    && (forall r :: r in s.rows ==> r > 0)
    && (forall r :: r in s.rows && s.rows[r].cell.Some? ==> (r, s.rows[r].cell.value) in s.recorded)
    && (forall r :: r in s.rows && s.rows[r].state == Reclaimed ==> Evidence(s, r))
    && s.dead <= c.spent && s.confirmed <= c.committed
  }

  /** A caller was told that an outpoint this row was registered to watch is dead. */
  ghost predicate WatchedAndDead(s: Store, row: nat) {
    exists cell :: (row, cell) in s.watched && cell in s.dead
  }

  ghost predicate WatchesOk(c: Chain, s: Store) {
    && (forall r :: r in s.inRows && s.inRows[r] == RemoteReclaimed ==> WatchedAndDead(s, r))
    && WatchesRegistered(s.watches, s.watched)
  }

  /** A response watch stands for a registration of its row. */
  ghost predicate WatchesRegistered(watches: map<Cell, Watch>, watched: set<(nat, Cell)>) {
    forall cell :: cell in watches && ParseWatchPurpose(watches[cell].purpose).Some?
      ==> (ParseWatchPurpose(watches[cell].purpose).value, cell) in watched
  }

  ghost predicate JournalOk(s: Store) {
    forall i :: 0 <= i < |s.journal| ==> RecordOk(s, s.journal[i])
  }

  ghost predicate RecordOk(s: Store, r: Record<Terms>) {
    && r.tx.covers != [] && CoversOk(s, r.tx.covers)
    && r.details == Terms(ReclaimPurpose(RowsOf(r.tx.covers)), Total(r.tx.covers), r.tx.fee)
  }

  /** Every credit is for a committed transaction whose record is sealed, once, at its worth. */
  ghost predicate LogsOk(c: Chain, s: Store) {
    && NoDuplicates(s.released) && NoDuplicates(s.burned)
    && (forall i :: 0 <= i < |s.released| ==>
          && s.released[i].tx in c.committed && Sealed(s.journal, s.released[i].tx)
          && s.released[i].amount == Net(Total(s.released[i].tx.covers), s.released[i].tx.fee))
    && (forall i :: 0 <= i < |s.burned| ==>
          && s.burned[i].tx in c.committed && Sealed(s.journal, s.burned[i].tx)
          && s.burned[i].amount == s.burned[i].tx.fee
          && ReleasedIfDue(s, s.burned[i].tx))
  }

  /** The release comes before the burn. */
  ghost predicate ReleasedIfDue(s: Store, tx: Tx) {
    Net(Total(tx.covers), tx.fee) > 0 ==> Logged(s.released, tx)
  }

  ghost predicate StoreOk(c: Chain, s: Store) {
    RowsOk(c, s) && WatchesOk(c, s) && JournalOk(s) && LogsOk(c, s)
  }

  /** What never goes back: recorded outpoints, registrations, dead cells, sealed records, credits. */
  ghost predicate Advances(s: Store, t: Store) {
    && s.recorded <= t.recorded && s.watched <= t.watched && s.dead <= t.dead && s.confirmed <= t.confirmed
    && (forall tx :: Sealed(s.journal, tx) ==> Sealed(t.journal, tx))
    && (forall tx :: Logged(s.released, tx) ==> Logged(t.released, tx))
  }

  // ---------------------------------------------------------------- what a caller knows

  /** The callers that won the compare-and-swap and still owe the ledger something. */
  predicate Winner(pc: Pc) {
    pc.Settle? || pc.WatchFind? || pc.WatchMark? || pc.Release? || pc.Burn?
  }

  ghost predicate PcOk(s: Store, pc: Pc) {
    match pc
    case ListPending(found) => FoundOk(s, found)
    case Resolve(found, i, covered) => FoundOk(s, found) && CoversOk(s, covered)
    case DeadPending(found, i, covered) => DeadOk(s, found, i, covered)
    case DeadReclaimed(found, i, covered) => DeadOk(s, found, i, covered)
    case MarkPending(covered, _) => covered != [] && CoversOk(s, covered)
    case Build(covered) => covered != [] && CoversOk(s, covered)
    case Ask(b) => BatchOk(s, b)
    case Abandon(b) => BatchOk(s, b)
    case JournalBatch(b) => BatchOk(s, b)
    case Send(b, _) => BatchOk(s, b)
    case Wait(b, _, _) => BatchOk(s, b)
    case Track(b, resumed) => BatchOk(s, b) && (resumed ==> b.tx in s.confirmed)
    case Cas(b, _) => BatchOk(s, b) && b.tx in s.confirmed
    case Settle(b, _, _) => WonOk(s, b)
    case WatchFind(b, _) => WonOk(s, b)
    case WatchMark(b, _) => WonOk(s, b)
    case Release(b, _) => WonOk(s, b)
    case Burn(b, _) => WonOk(s, b) && ReleasedIfDue(s, b.tx)
    case Poll(list, _, _) => ListOk(s, list)
    case PollMark(list, i, _) => ListOk(s, list) && (i < |list| ==> list[i].0 in s.dead)
    case PollRow(list, i, _) => ListOk(s, list) && (i < |list| ==> list[i].0 in s.dead)
    case FinalizeRow(row, _) => row > 0
    case FinalizeWatch(row, _) => row > 0
    case _ => true
  }

  ghost predicate DeadOk(s: Store, found: seq<Candidate>, i: nat, covered: seq<Covered>) {
    FoundOk(s, found) && CoversOk(s, covered) && (i < |found| ==> found[i].cell in s.dead)
  }

  ghost predicate WonOk(s: Store, b: Batch) {
    BatchOk(s, b) && b.tx in s.confirmed && Sealed(s.journal, b.tx)
  }

  /** What a caller knows survives everything the others do. */
  lemma PcStable(s: Store, t: Store, pc: Pc)
    requires PcOk(s, pc) && Advances(s, t)
    ensures PcOk(t, pc)
  {
  }

  /** Evidence and notes outlast whatever happens to rows, watches and journal. */
  lemma StoreStays(s: Store, t: Store)
    requires s.recorded <= t.recorded && s.watched <= t.watched && s.dead <= t.dead && s.confirmed <= t.confirmed
    ensures forall r: nat :: Evidence(s, r) ==> Evidence(t, r)
    ensures forall r: nat :: WatchedAndDead(s, r) ==> WatchedAndDead(t, r)
    ensures forall covers :: CoversOk(s, covers) ==> CoversOk(t, covers)
  {
    forall r: nat | Evidence(s, r) ensures Evidence(t, r) {
      var cell :| (r, cell) in s.recorded && (cell in s.dead || ReclaimConfirmed(s, r, cell));
      assert ReclaimConfirmed(s, r, cell) ==> ReclaimConfirmed(t, r, cell);
      assert (r, cell) in t.recorded;
    }
    forall r: nat | WatchedAndDead(s, r) ensures WatchedAndDead(t, r) {
      var cell :| (r, cell) in s.watched && cell in s.dead;
      assert (r, cell) in t.watched && cell in t.dead;
    }
  }

  // ---------------------------------------------------------------- each step keeps it

  lemma RequestKeeps(c: Chain, s: Store, row: nat, target: State, next: Pc)
    requires StoreOk(c, s)
    requires target == Reclaimed ==> Evidence(s, row)
    ensures StoreOk(c, Request(s, row, target, next).store) && Advances(s, Request(s, row, target, next).store)
  {
    var t := Request(s, row, target, next).store;
    StoreStays(s, t);
  }

  lemma RequestIncomingKeeps(c: Chain, s: Store, row: nat, target: State, next: Pc)
    requires StoreOk(c, s) && (target == RemoteReclaimed ==> WatchedAndDead(s, row))
    ensures StoreOk(c, RequestIncoming(s, row, target, next).store)
    ensures Advances(s, RequestIncoming(s, row, target, next).store)
  {
    var t := RequestIncoming(s, row, target, next).store;
    StoreStays(s, t);
  }

  lemma WatchesKeep(c: Chain, s: Store, watches: map<Cell, Watch>, watched: set<(nat, Cell)>)
    requires StoreOk(c, s) && s.watched <= watched
    requires WatchesRegistered(watches, watched)
    ensures StoreOk(c, s.(watches := watches, watched := watched))
    ensures Advances(s, s.(watches := watches, watched := watched))
  {
    var t := s.(watches := watches, watched := watched);
    StoreStays(s, t);
  }

  lemma MarkedKeeps(c: Chain, s: Store, tx: Tx, state: JournalState)
    requires StoreOk(c, s) && state != Submitted
    ensures StoreOk(c, s.(journal := Marked(s.journal, tx, state)))
    ensures Advances(s, s.(journal := Marked(s.journal, tx, state)))
    ensures Holds(s.journal, tx) ==> Sealed(Marked(s.journal, tx, state), tx)
  {
    var t := s.(journal := Marked(s.journal, tx, state));
    forall u | Holds(s.journal, u) ensures Holds(t.journal, u) {
      var i :| 0 <= i < |s.journal| && s.journal[i].tx == u;
      assert t.journal[i].tx == u;
    }
    forall u | IsIn(t.journal, u, Submitted) ensures IsIn(s.journal, u, Submitted) {
      var i :| 0 <= i < |t.journal| && t.journal[i].tx == u && t.journal[i].state == Submitted;
      assert s.journal[i].tx == u && s.journal[i].state == Submitted;
    }
    StoreStays(s, t);
  }

  lemma RecordedKeeps(c: Chain, s: Store, b: Batch)
    requires StoreOk(c, s) && BatchOk(s, b)
    ensures StoreOk(c, s.(journal := Recorded(s.journal, RecordOf(b))))
    ensures Advances(s, s.(journal := Recorded(s.journal, RecordOf(b))))
  {
    var t := s.(journal := Recorded(s.journal, RecordOf(b)));
    forall u | Sealed(s.journal, u) ensures Sealed(t.journal, u) {
      var i :| 0 <= i < |s.journal| && s.journal[i].tx == u;
      assert t.journal[i].tx == u;
      assert forall k :: |s.journal| <= k < |t.journal| ==> t.journal[k].tx != u;
    }
    StoreStays(s, t);
  }

  /** Crediting touches the logs alone. */
  lemma CreditKeepsRest(c: Chain, s: Store, released: seq<Credit>, burned: seq<Credit>)
    requires StoreOk(c, s) && forall tx :: Logged(s.released, tx) ==> Logged(released, tx)
    ensures var t := s.(released := released, burned := burned);
            RowsOk(c, t) && WatchesOk(c, t) && JournalOk(t) && Advances(s, t)
  {
    var t := s.(released := released, burned := burned);
    StoreStays(s, t);
  }

  lemma LoggedAfter(log: seq<Credit>, credit: Credit)
    ensures Logged(log + [credit], credit.tx)
    ensures forall tx :: Logged(log, tx) ==> Logged(log + [credit], tx)
  {
    var longer := log + [credit];
    assert longer[|log|] == credit;
    forall tx | Logged(log, tx) ensures Logged(longer, tx) {
      var i :| 0 <= i < |log| && log[i].tx == tx;
      assert longer[i].tx == tx;
    }
  }

  lemma ReleaseKeeps(c: Chain, s: Store, pc: Pc)
    requires StoreOk(c, s) && PcOk(s, pc) && pc.Release? && !Logged(s.released, pc.b.tx)
    ensures StoreOk(c, Returns(s, pc).store) && Advances(s, Returns(s, pc).store)
    ensures ReleasedIfDue(Returns(s, pc).store, pc.b.tx)
  {
    var credit := Credit(pc.b.tx, Net(pc.b.capacity, pc.b.fee));
    LoggedAfter(s.released, credit);
    var t := s.(released := s.released + [credit]);
    CreditKeepsRest(c, s, t.released, s.burned);
    assert LogsOk(c, t);
  }

  lemma BurnKeeps(c: Chain, s: Store, pc: Pc)
    requires StoreOk(c, s) && PcOk(s, pc) && pc.Burn? && !Logged(s.burned, pc.b.tx)
    ensures StoreOk(c, Returns(s, pc).store) && Advances(s, Returns(s, pc).store)
  {
    var t := s.(burned := s.burned + [Credit(pc.b.tx, pc.b.fee)]);
    CreditKeepsRest(c, s, s.released, t.burned);
    assert LogsOk(c, t);
  }

  lemma CoveredIsEvidence(s: Store, tx: Tx, i: nat)
    requires tx in s.confirmed && CoversOk(s, tx.covers) && i < |tx.covers|
    ensures Evidence(s, tx.covers[i].row)
  {
    assert CoversRow(tx, tx.covers[i].row, tx.covers[i].cell);
    assert ReclaimConfirmed(s, tx.covers[i].row, tx.covers[i].cell);
    assert (tx.covers[i].row, tx.covers[i].cell) in s.recorded;
  }

  lemma StartKeeps(c: Chain, s: Store)
    requires StoreOk(c, s)
    ensures StartStep(s).pc.Some? ==> PcOk(s, StartStep(s).pc.value)
  {
    if s.journal != [] {
      ReclaimPurposeRoundTrip(RowsOf(s.journal[|s.journal| - 1].tx.covers));
    }
  }

  lemma JournalStepKeeps(c: Chain, s: Store, pc: Pc)
    requires StoreOk(c, s) && PcOk(s, pc)
    requires pc.Abandon? || pc.WorkerReject? || pc.JournalBatch? || pc.Cas?
    ensures StoreOk(c, Returns(s, pc).store) && Advances(s, Returns(s, pc).store)
    ensures pc.Cas? && Returns(s, pc).pc.Some? ==> Sealed(Returns(s, pc).store.journal, pc.b.tx)
  {
    if pc.Abandon? {
      MarkedKeeps(c, s, pc.b.tx, Abandoned);
    } else if pc.WorkerReject? {
      MarkedKeeps(c, s, pc.tx, RejectedTx);
    } else if pc.JournalBatch? {
      RecordedKeeps(c, s, pc.b);
    } else {
      MarkedKeeps(c, s, pc.b.tx, CommittedTx);
    }
  }

  lemma RowStepKeeps(c: Chain, s: Store, pc: Pc)
    requires StoreOk(c, s) && PcOk(s, pc)
    requires pc.Requeue? || pc.DeadPending? || pc.DeadReclaimed? || pc.MarkPending?
    ensures StoreOk(c, Returns(s, pc).store) && Advances(s, Returns(s, pc).store)
  {
    if pc.Requeue? {
      if pc.i < |pc.ids| { RequestKeeps(c, s, pc.ids[pc.i], ReclaimQueued, Requeue(pc.ids, pc.i + 1)); }
    } else if pc.MarkPending? {
      if pc.i < |pc.covered| {
        RequestKeeps(c, s, pc.covered[pc.i].row, ReclaimPending, MarkPending(pc.covered, pc.i + 1));
      }
    } else if pc.i < |pc.found| {
      if pc.DeadPending? {
        RequestKeeps(c, s, pc.found[pc.i].row, ReclaimPending, DeadReclaimed(pc.found, pc.i, pc.covered));
      } else {
        assert (pc.found[pc.i].row, pc.found[pc.i].cell) in s.recorded && pc.found[pc.i].cell in s.dead;
        RequestKeeps(c, s, pc.found[pc.i].row, Reclaimed, Resolve(pc.found, pc.i + 1, pc.covered));
      }
    }
  }

  lemma SettleKeeps(c: Chain, s: Store, pc: Pc)
    requires ChainOk(c) && StoreOk(c, s) && PcOk(s, pc) && pc.Settle?
    ensures StoreOk(c, Returns(s, pc).store) && Advances(s, Returns(s, pc).store)
  {
    if pc.i < |pc.b.ids| {
      CoveredIsEvidence(s, pc.b.tx, pc.i);
      RequestKeeps(c, s, pc.b.ids[pc.i], Reclaimed,
                   if pc.resumed then Settle(pc.b, true, pc.i + 1) else WatchFind(pc.b, pc.i));
    }
  }

  lemma WatchStepRegisters(s: Store, pc: Pc)
    requires WatchesRegistered(s.watches, s.watched)
    requires pc.WatchFind? || pc.WatchMark? || pc.Prune? || pc.PollMark? || (pc.FinalizeWatch? && pc.row > 0)
    ensures var t := Returns(s, pc).store;
            t == s.(watches := t.watches, watched := t.watched) && s.watched <= t.watched
            && WatchesRegistered(t.watches, t.watched)
  {
    if pc.FinalizeWatch? {
      WatchPurposeRoundTrip(pc.row);
    }
  }

  lemma WatchStepKeeps(c: Chain, s: Store, pc: Pc)
    requires StoreOk(c, s) && PcOk(s, pc)
    requires pc.WatchFind? || pc.WatchMark? || pc.Prune? || pc.PollMark? || pc.FinalizeWatch?
    ensures StoreOk(c, Returns(s, pc).store) && Advances(s, Returns(s, pc).store)
  {
    var o := Returns(s, pc);
    WatchStepRegisters(s, pc);
    WatchesKeep(c, s, o.store.watches, o.store.watched);
  }

  lemma PollRowKeeps(c: Chain, s: Store, pc: Pc)
    requires StoreOk(c, s) && PcOk(s, pc) && pc.PollRow?
    ensures StoreOk(c, Returns(s, pc).store) && Advances(s, Returns(s, pc).store)
  {
    if pc.i < |pc.list| && ParseWatchPurpose(pc.list[pc.i].1).Some? {
      var row := ParseWatchPurpose(pc.list[pc.i].1).value;
      assert (row, pc.list[pc.i].0) in s.watched;
      RequestIncomingKeeps(c, s, row, RemoteReclaimed, Poll(pc.list, pc.i + 1, pc.hits + 1));
    }
  }

  lemma IncomingStepKeeps(c: Chain, s: Store, pc: Pc)
    requires StoreOk(c, s) && PcOk(s, pc) && (pc.PollRow? || pc.FinalizeRow?)
    ensures StoreOk(c, Returns(s, pc).store) && Advances(s, Returns(s, pc).store)
  {
    if pc.FinalizeRow? {
      RequestIncomingKeeps(c, s, pc.row, AwaitingRemoteReclaim, FinalizeWatch(pc.row, pc.cell));
    } else {
      PollRowKeeps(c, s, pc);
    }
  }

  /** The store part of one return. */
  lemma ReturnsKeepStore(c: Chain, s: Store, pc: Pc)
    requires ChainOk(c) && StoreOk(c, s) && PcOk(s, pc)
    requires pc.Release? ==> !Logged(s.released, pc.b.tx)
    requires pc.Burn? ==> !Logged(s.burned, pc.b.tx)
    ensures StoreOk(c, Returns(s, pc).store) && Advances(s, Returns(s, pc).store)
    ensures pc.Cas? && Returns(s, pc).pc.Some? ==> Sealed(Returns(s, pc).store.journal, pc.b.tx)
    ensures pc.Release? ==> ReleasedIfDue(Returns(s, pc).store, pc.b.tx)
  {
    if pc.Abandon? || pc.WorkerReject? || pc.JournalBatch? || pc.Cas? {
      JournalStepKeeps(c, s, pc);
    } else if pc.Requeue? || pc.DeadPending? || pc.DeadReclaimed? || pc.MarkPending? {
      RowStepKeeps(c, s, pc);
    } else if pc.Settle? {
      SettleKeeps(c, s, pc);
    } else if pc.Release? {
      ReleaseKeeps(c, s, pc);
    } else if pc.Burn? {
      BurnKeeps(c, s, pc);
    } else if pc.WatchFind? || pc.WatchMark? || pc.Prune? || pc.PollMark? || pc.FinalizeWatch? {
      WatchStepKeeps(c, s, pc);
    } else if pc.PollRow? || pc.FinalizeRow? {
      IncomingStepKeeps(c, s, pc);
    }
  }

  /** The caller's part of one return: it knows what its next await needs. */
  lemma ReturnsKeepPc(c: Chain, s: Store, pc: Pc)
    requires PcOk(s, pc) && Advances(s, Returns(s, pc).store) && !pc.Start?
    requires pc.Cas? && Returns(s, pc).pc.Some? ==> Sealed(Returns(s, pc).store.journal, pc.b.tx)
    requires pc.Release? ==> ReleasedIfDue(Returns(s, pc).store, pc.b.tx)
    ensures Returns(s, pc).pc.Some? ==> PcOk(Returns(s, pc).store, Returns(s, pc).pc.value)
  {
    PcStable(s, Returns(s, pc).store, pc);
  }

  // ---------------------------------------------------------------- the other owners

  lemma RowsGrowKeep(c: Chain, s: Store, e: Event)
    requires StoreOk(c, s) && (e.NewRow? || e.RefSet?)
    ensures StoreOk(c, OthersMove(s, e)) && Advances(s, OthersMove(s, e))
  {
    var t := OthersMove(s, e);
    StoreStays(s, t);
  }

  lemma OtherMovesKeep(c: Chain, s: Store, e: Event)
    requires StoreOk(c, s) && (e.InMoves? || e.OtherWatch? || e.RowMoves?)
    ensures StoreOk(c, OthersMove(s, e)) && Advances(s, OthersMove(s, e))
  {
    if e.OtherWatch? {
      WatchesKeep(c, s, OthersMove(s, e).watches, s.watched);
    } else if OthersMove(s, e) == s {
    } else if e.RowMoves? {
      RequestKeeps(c, s, e.row, e.state, Prune);
    } else {
      RequestIncomingKeeps(c, s, e.row, e.state, Prune);
    }
  }

  lemma ChainMovesOn(c: Chain, s: Store, d: Chain)
    requires StoreOk(c, s) && Later(c, d)
    ensures StoreOk(d, s)
  {
  }

  /** An answer is remembered. */
  lemma HeardKeeps(w: World, e: Event)
    requires ChainOk(w.chain) && StoreOk(w.chain, w.store)
    ensures StoreOk(w.chain, Heard(w, e)) && Advances(w.store, Heard(w, e))
  {
    StoreStays(w.store, Heard(w, e));
  }

  lemma CellAnswerKeeps(s: Store, pc: Pc, seen: CellStatus)
    requires PcOk(s, pc) && (seen == DeadCell && AskedCell(pc).Some? ==> AskedCell(pc).value in s.dead)
    ensures CellAnswered(pc, seen).Some? ==> PcOk(s, CellAnswered(pc, seen).value)
  {
  }

  lemma StatusAnswerKeeps(s: Store, pc: Pc, status: Status)
    requires PcOk(s, pc) && (status == IsCommitted && AskedTx(pc).Some? ==> AskedTx(pc).value in s.confirmed)
    ensures StatusAnswered(pc, status).Some? ==> PcOk(s, StatusAnswered(pc, status).value)
  {
  }

  lemma ListingKeeps(w: World, e: Event)
    requires RowsOk(w.chain, w.store) && WatchesRegistered(w.store.watches, w.store.watched)
    requires e.Listed? || e.ActiveWatches? || e.Built?
    requires e.c in w.callers && PcOk(w.store, w.callers[e.c])
    ensures Informed(w, e).Some? ==> PcOk(w.store, Informed(w, e).value)
  {
    var pc := w.callers[e.c];
    if e.Listed? && pc.ListPending? && ListsRows(w.store, e.found, ReclaimPending) {
      assert FoundOk(w.store, e.found);
    }
  }

  /** What a caller learns from outside is what its next await needs. */
  lemma InformedKeeps(w: World, e: Event)
    requires RowsOk(w.chain, w.store) && WatchesRegistered(w.store.watches, w.store.watched)
    requires e.Listed? || e.ActiveWatches? || e.CellAnswer? || e.Answer? || e.Built?
    requires e.c in w.callers && PcOk(w.store, w.callers[e.c]) && PcOk(Heard(w, e), w.callers[e.c])
    ensures Informed(w, e).Some? ==> PcOk(Heard(w, e), Informed(w, e).value)
  {
    var pc := w.callers[e.c];
    if e.CellAnswer? {
      if e.seen != DeadCell || ToldDead(w, e) { CellAnswerKeeps(Heard(w, e), pc, e.seen); }
    } else if e.Answer? {
      if e.status != IsCommitted || ToldCommitted(w, e) { StatusAnswerKeeps(Heard(w, e), pc, e.status); }
    } else {
      ListingKeeps(w, e);
    }
  }

  // ---------------------------------------------------------------- who may credit

  /** No transaction has two winners, and no winner's outstanding credit is already logged. */
  ghost predicate CreditOk(w: World) {
    && (forall c, d :: c in w.callers && d in w.callers && c != d ==> Apart(w.callers[c], w.callers[d]))
    && (forall c :: c in w.callers ==> Owes(w.store, w.callers[c]))
  }

  predicate Apart(p: Pc, q: Pc) {
    Winner(p) && Winner(q) ==> p.b.tx != q.b.tx
  }

  ghost predicate Owes(s: Store, pc: Pc) {
    Winner(pc) ==> !Logged(s.burned, pc.b.tx) && (pc.Burn? || !Logged(s.released, pc.b.tx))
  }

  /** A winner is made only by the swap, from a record still submitted. */
  lemma WinnersComeFromTheSwap(s: Store, pc: Pc)
    requires Returns(s, pc).pc.Some? && Winner(Returns(s, pc).pc.value)
    ensures (pc.Cas? || Winner(pc)) && Returns(s, pc).pc.value.b == pc.b
    ensures pc.Cas? ==> IsIn(s.journal, pc.b.tx, Submitted)
    ensures Returns(s, pc).pc.value.Burn? <==> pc.Release?
  {
  }

  /** The logs grow only by a winner's own credit. */
  lemma LogsGrowByTheWinner(s: Store, pc: Pc)
    ensures Returns(s, pc).store.released
         == if pc.Release? && Net(pc.b.capacity, pc.b.fee) > 0
            then s.released + [Credit(pc.b.tx, Net(pc.b.capacity, pc.b.fee))] else s.released
    ensures Returns(s, pc).store.burned
         == if pc.Burn? && pc.b.fee > 0 then s.burned + [Credit(pc.b.tx, pc.b.fee)] else s.burned
  {
  }

  ghost predicate CallersOk(w: World) {
    forall c :: c in w.callers ==> PcOk(w.store, w.callers[c])
  }

  ghost predicate Inv(w: World) {
    ChainOk(w.chain) && StoreOk(w.chain, w.store) && CallersOk(w) && CreditOk(w)
  }

  /** One caller's return leaves the others' credits alone. */
  lemma ReturnKeepsCredit(w: World, c: nat)
    requires Inv(w) && c in w.callers
    ensures CreditOk(Moved(w, c, Returns(w.store, w.callers[c])))
  {
    var pc := w.callers[c];
    var o := Returns(w.store, pc);
    var v := Moved(w, c, o);
    LogsGrowByTheWinner(w.store, pc);
    if o.pc.Some? && Winner(o.pc.value) {
      WinnersComeFromTheSwap(w.store, pc);
    }
    forall d | d in w.callers && d != c
      ensures Owes(v.store, w.callers[d])
      ensures o.pc.Some? ==> Apart(o.pc.value, w.callers[d]) && Apart(w.callers[d], o.pc.value)
    {
      OtherCreditStays(w, c, d);
    }
    if o.pc.Some? {
      OwnCredit(w, c);
    }
  }

  lemma LoggedBefore(log: seq<Credit>, credit: Credit, tx: Tx)
    ensures Logged(log + [credit], tx) ==> Logged(log, tx) || credit.tx == tx
  {
    var longer := log + [credit];
    if Logged(longer, tx) {
      var i :| 0 <= i < |longer| && longer[i].tx == tx;
      assert i < |log| ==> log[i].tx == tx;
    }
  }

  /** What one winner owes, another caller's return does not pay. */
  lemma OwingStays(s: Store, pc: Pc, q: Pc)
    requires Apart(pc, q) && Owes(s, q)
    ensures Owes(Returns(s, pc).store, q)
  {
    LogsGrowByTheWinner(s, pc);
    if Winner(q) {
      if pc.Release? {
        LoggedBefore(s.released, Credit(pc.b.tx, Net(pc.b.capacity, pc.b.fee)), q.b.tx);
      } else if pc.Burn? {
        LoggedBefore(s.burned, Credit(pc.b.tx, pc.b.fee), q.b.tx);
      }
    }
  }

  /** A record that is still submitted has no winner yet. */
  lemma NewWinnerIsApart(s: Store, pc: Pc, q: Pc)
    requires Apart(pc, q) && PcOk(s, q) && Returns(s, pc).pc.Some?
    ensures Apart(Returns(s, pc).pc.value, q)
  {
    if Winner(Returns(s, pc).pc.value) && Winner(q) {
      WinnersComeFromTheSwap(s, pc);
      assert Sealed(s.journal, q.b.tx);
    }
  }

  lemma OtherCreditStays(w: World, c: nat, d: nat)
    requires Inv(w) && c in w.callers && d in w.callers && c != d
    ensures Owes(Returns(w.store, w.callers[c]).store, w.callers[d])
    ensures Returns(w.store, w.callers[c]).pc.Some? ==> Apart(Returns(w.store, w.callers[c]).pc.value, w.callers[d])
  {
    var pc, q := w.callers[c], w.callers[d];
    assert Apart(pc, q) && Owes(w.store, q) && PcOk(w.store, q);
    OwingStays(w.store, pc, q);
    if Returns(w.store, pc).pc.Some? {
      NewWinnerIsApart(w.store, pc, q);
    }
  }

  lemma SubmittedIsNotLogged(c: Chain, s: Store, tx: Tx)
    requires LogsOk(c, s) && !Sealed(s.journal, tx)
    ensures !Logged(s.released, tx) && !Logged(s.burned, tx)
  {
  }

  /** A caller that has just won owes its credits; one that goes on owes what is left. */
  lemma OwnOwing(c: Chain, s: Store, pc: Pc, next: Pc)
    requires LogsOk(c, s) && Owes(s, pc) && Returns(s, pc).pc == Some(next) && Winner(next)
    ensures Owes(Returns(s, pc).store, next)
  {
    LogsGrowByTheWinner(s, pc);
    WinnersComeFromTheSwap(s, pc);
    if pc.Cas? {
      SubmittedIsNotLogged(c, s, pc.b.tx);
    }
  }

  lemma OwnCredit(w: World, c: nat)
    requires Inv(w) && c in w.callers && Returns(w.store, w.callers[c]).pc.Some?
    ensures Owes(Returns(w.store, w.callers[c]).store, Returns(w.store, w.callers[c]).pc.value)
  {
    var pc := w.callers[c];
    var next := Returns(w.store, pc).pc.value;
    assert Owes(w.store, pc);
    if Winner(next) {
      OwnOwing(w.chain, w.store, pc, next);
    }
  }

  lemma DoneKeeps(w: World, c: nat)
    requires Inv(w) && c in w.callers
    ensures Inv(Moved(w, c, Returns(w.store, w.callers[c])))
  {
    var pc := w.callers[c];
    var o := Returns(w.store, pc);
    assert Owes(w.store, pc);
    ReturnKeepsCredit(w, c);
    ReturnsKeepStore(w.chain, w.store, pc);
    if pc.Start? { StartKeeps(w.chain, w.store); } else { ReturnsKeepPc(w.chain, w.store, pc); }
    forall d | d in w.callers ensures PcOk(o.store, w.callers[d]) {
      PcStable(w.store, o.store, w.callers[d]);
    }
  }

  /** A caller that moves on without touching the store, and without having just won. */
  lemma LocalMoveKeeps(w: World, c: nat, next: Option<Pc>)
    requires Inv(w) && c in w.callers
    requires next.Some? ==> PcOk(w.store, next.value)
    requires next.Some? && Winner(next.value) ==> next.value == w.callers[c]
    ensures Inv(Moved(w, c, Outcome(w.store, next)))
  {
  }

  lemma ChainMoveKeeps(w: World, d: Chain)
    requires Inv(w) && ChainOk(d) && Later(w.chain, d)
    ensures Inv(w.(chain := d))
  {
    ChainMovesOn(w.chain, w.store, d);
  }

  lemma OthersMoveKeeps(w: World, e: Event)
    requires Inv(w)
    requires e.RowMoves? || e.NewRow? || e.RefSet? || e.InMoves? || e.OtherWatch?
    ensures Inv(w.(store := OthersMove(w.store, e)))
  {
    if e.InMoves? || e.OtherWatch? || e.RowMoves? {
      OtherMovesKeep(w.chain, w.store, e);
    } else {
      RowsGrowKeep(w.chain, w.store, e);
    }
    forall c | c in w.callers ensures PcOk(OthersMove(w.store, e), w.callers[c]) {
      PcStable(w.store, OthersMove(w.store, e), w.callers[c]);
    }
    assert forall c :: c in w.callers && Owes(w.store, w.callers[c]) ==> Owes(OthersMove(w.store, e), w.callers[c]);
  }

  lemma SentKeeps(w: World, c: nat, result: SendResult)
    requires Inv(w) && c in w.callers && w.callers[c].Send?
    ensures Inv(Moved(w, c, Outcome(w.store, SendAnswered(w.callers[c].b, w.callers[c].resumed, result))))
  {
    LocalMoveKeeps(w, c, SendAnswered(w.callers[c].b, w.callers[c].resumed, result));
  }

  lemma HearingKeeps(w: World, e: Event)
    requires Inv(w) && StoreOk(w.chain, Heard(w, e)) && Advances(w.store, Heard(w, e))
    ensures Inv(w.(store := Heard(w, e)))
  {
    forall c | c in w.callers
      ensures PcOk(Heard(w, e), w.callers[c]) && Owes(Heard(w, e), w.callers[c])
    {
      PcStable(w.store, Heard(w, e), w.callers[c]);
      assert Owes(w.store, w.callers[c]);
    }
  }

  lemma NewsMakesNoWinner(w: World, e: Event)
    requires e.Listed? || e.ActiveWatches? || e.CellAnswer? || e.Answer? || e.Built?
    requires e.c in w.callers && Informed(w, e).Some? && Winner(Informed(w, e).value)
    ensures Informed(w, e).value == w.callers[e.c]
  {
  }

  lemma NewsMoves(w: World, e: Event, next: Option<Pc>)
    requires Inv(w) && (e.Listed? || e.ActiveWatches? || e.CellAnswer? || e.Answer? || e.Built?)
    requires e.c in w.callers && next == Informed(w, e)
    requires next.Some? ==> PcOk(Heard(w, e), next.value)
    requires next.Some? && Winner(next.value) ==> next.value == w.callers[e.c]
    requires StoreOk(w.chain, Heard(w, e)) && Advances(w.store, Heard(w, e))
    ensures Inv(Step(w, e))
  {
    HearingKeeps(w, e);
    LocalMoveKeeps(w.(store := Heard(w, e)), e.c, next);
  }

  lemma NewsKeeps(w: World, e: Event)
    requires Inv(w)
    requires e.Listed? || e.ActiveWatches? || e.CellAnswer? || e.Answer? || e.Built?
    ensures Inv(Step(w, e))
  {
    if e.c in w.callers {
      HeardKeeps(w, e);
      PcStable(w.store, Heard(w, e), w.callers[e.c]);
      InformedKeeps(w, e);
      if Informed(w, e).Some? && Winner(Informed(w, e).value) {
        NewsMakesNoWinner(w, e);
      }
      NewsMoves(w, e, Informed(w, e));
    }
  }

  lemma DeathKeeps(w: World, e: Event)
    requires Inv(w) && e.Die?
    ensures Inv(Step(w, e))
  {
  }

  lemma SpawnedKeeps(w: World, c: nat, pc: Pc)
    requires Inv(w) && PcOk(w.store, pc) && !Winner(pc)
    ensures Inv(Spawned(w, c, pc))
  {
  }

  lemma SpawnKeeps(w: World, e: Event)
    requires Inv(w)
    requires e.SpawnBatch? || e.SpawnWorker? || e.SpawnPoll? || e.SpawnFinalize? || e.Die?
    ensures Inv(Step(w, e))
  {
    match e
    case SpawnBatch(c) => SpawnedKeeps(w, c, Start);
    case SpawnWorker(c, tx) => SpawnedKeeps(w, c, WorkerAsk(tx));
    case SpawnPoll(c) => SpawnedKeeps(w, c, PollList);
    case SpawnFinalize(c, row, cell) => if row > 0 { SpawnedKeeps(w, c, FinalizeRow(row, cell)); }
    case Die(_) => DeathKeeps(w, e);
  }

  /** Every step of the system keeps the invariant. */
  lemma StepKeeps(w: World, e: Event)
    requires Inv(w)
    ensures Inv(Step(w, e))
  {
    if e.Done? {
      if e.c in w.callers { DoneKeeps(w, e.c); }
    } else if e.Sent? {
      if e.c in w.callers && w.callers[e.c].Send? {
        var tx := w.callers[e.c].b.tx;
        DeliverKeeps(w.chain, tx);
        var d := if e.delivered || e.result == Accepted then Deliver(w.chain, tx) else w.chain;
        ChainMoveKeeps(w, d);
        SentKeeps(w.(chain := d), e.c, e.result);
      }
    } else if e.Elsewhere? {
      EvolveKeeps(w.chain, e.move);
      ChainMoveKeeps(w, Evolve(w.chain, e.move));
    } else if e.RowMoves? || e.NewRow? || e.RefSet? || e.InMoves? || e.OtherWatch? {
      OthersMoveKeeps(w, e);
    } else if e.SpawnBatch? || e.SpawnWorker? || e.SpawnPoll? || e.SpawnFinalize? || e.Die? {
      SpawnKeeps(w, e);
    } else {
      NewsKeeps(w, e);
    }
  }

  lemma {:induction false} RunKeeps(w: World, events: seq<Event>)
    requires Inv(w)
    ensures Inv(Run(w, events))
    decreases |events|
  {
    if events != [] {
      StepKeeps(w, events[0]);
      RunKeeps(Step(w, events[0]), events[1..]);
    }
  }

  // ---------------------------------------------------------------- the results

  /** Under every interleaving of overlapping callers and every crash, no message cell's
      capacity is released twice: not by two transactions, not by one batch naming it twice. */
  lemma EachCellCreditedOnce(events: seq<Event>, i: nat, j: nat, a: nat, b: nat)
    requires var log := Run(Initial, events).store.released;
             && i < |log| && j < |log| && a < |log[i].tx.covers| && b < |log[j].tx.covers|
             && log[i].tx.covers[a].cell == log[j].tx.covers[b].cell
    ensures i == j && a == b
  {
    RunKeeps(Initial, events);
    var v := Run(Initial, events);
    var s, t := v.store.released[i].tx, v.store.released[j].tx;
    assert Inputs(s)[a] == s.covers[a].cell && Inputs(t)[b] == t.covers[b].cell;
    assert Inputs(s)[a] in Inputs(s) && Inputs(s)[a] in Inputs(t);
    assert Distinct(Inputs(s));
  }

  /** A credit is only ever given for a committed reclaim and is exactly the covered capacity
      net of the fee, never below zero; the burn is exactly the fee. A batch that got as far as
      the burn has its release in the log, so the two add up to the capacity it covered. */
  lemma CreditsAreExact(events: seq<Event>)
    ensures var v := Run(Initial, events);
            && (forall i :: 0 <= i < |v.store.released| ==>
                  && v.store.released[i].tx in v.chain.committed
                  && v.store.released[i].amount
                     == Net(Total(v.store.released[i].tx.covers), v.store.released[i].tx.fee))
            && (forall i :: 0 <= i < |v.store.burned| ==>
                  && v.store.burned[i].tx in v.chain.committed
                  && v.store.burned[i].amount == v.store.burned[i].tx.fee
                  && (Total(v.store.burned[i].tx.covers) > v.store.burned[i].amount ==>
                        exists k :: 0 <= k < |v.store.released| && v.store.released[k].tx == v.store.burned[i].tx
                          && v.store.released[k].amount + v.store.burned[i].amount
                             == Total(v.store.burned[i].tx.covers)))
  {
    RunKeeps(Initial, events);
    var v := Run(Initial, events);
    forall i | 0 <= i < |v.store.burned| && Total(v.store.burned[i].tx.covers) > v.store.burned[i].amount
      ensures exists k :: 0 <= k < |v.store.released| && v.store.released[k].tx == v.store.burned[i].tx
                && v.store.released[k].amount + v.store.burned[i].amount == Total(v.store.burned[i].tx.covers)
    {
      var k := ReleasedWithTheBurn(v.chain, v.store, i);
    }
  }

  /** The release that goes with a burn. */
  lemma ReleasedWithTheBurn(c: Chain, s: Store, i: nat) returns (k: nat)
    requires LogsOk(c, s) && i < |s.burned| && Total(s.burned[i].tx.covers) > s.burned[i].amount
    ensures k < |s.released| && s.released[k].tx == s.burned[i].tx
    ensures s.released[k].amount + s.burned[i].amount == Total(s.burned[i].tx.covers)
  {
    assert ReleasedIfDue(s, s.burned[i].tx);
    k :| 0 <= k < |s.released| && s.released[k].tx == s.burned[i].tx;
  }

  /** The fee of one transaction is written off at most once. */
  lemma EachFeeBurnedOnce(events: seq<Event>, i: nat, j: nat)
    requires var log := Run(Initial, events).store.burned; i < |log| && j < |log| && log[i].tx == log[j].tx
    ensures i == j
  {
    RunKeeps(Initial, events);
  }
}
