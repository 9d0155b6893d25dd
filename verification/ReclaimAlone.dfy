/** What one `executeReclaimBatch` achieves when nobody disturbs it: its store calls return, the node
    accepts and mines its transaction and says so, and every cell gets the same answer throughout. */
module ReclaimAlone {
  import opened Options
  import opened MessageStates
  import opened Chain
  import opened Journal
  import opened Purposes
  import opened Reclaim
  import U = Undisturbed

  /** What the caller is going to be told: the two listings, every cell's status, the builder's
      choices, and the active watches. */
  datatype Env = Env(queued: seq<Candidate>, pending: seq<Candidate>, seen: Cell -> CellStatus,
                     wallet: seq<Cell>, fee: nat, salt: nat, watches: seq<(Cell, string)>)

  /** What the caller is waiting for. */
  ghost function Prompt(chain: Chain, c: nat, pc: Pc, env: Env): Event {
    match pc
    case ListQueued => Listed(c, env.queued)
    case ListPending(_) => Listed(c, env.pending)
    case Resolve(found, i, _) => CellAnswer(c, if i < |found| then env.seen(found[i].cell) else UnknownCell)
    case PollList => ActiveWatches(c, env.watches)
    case Poll(list, i, _) => CellAnswer(c, if i < |list| then env.seen(list[i].0) else UnknownCell)
    case Build(_) => Built(c, env.wallet, env.fee, env.salt)
    case Send(b, _) => Sent(c, HonestSend(chain, b.tx), !Dead(chain, b.tx))
    case Ask(b) => Answer(c, HonestAnswer(chain, b.tx))
    case WorkerAsk(tx) => Answer(c, HonestAnswer(chain, tx))
    case Wait(b, _, _) => if b.tx in chain.committed then Answer(c, IsCommitted) else Elsewhere(Mine(b.tx))
    case _ => Done(c)
  }

  /** A caller with nobody beside it, and the world it leaves. */
  function One(chain: Chain, s: Store, c: nat, pc: Pc): World {
    World(chain, s, map[c := pc])
  }

  function Nobody(chain: Chain, s: Store): World {
    World(chain, s, map[])
  }

  /** A caller left to itself; when it is finished nothing more happens. */
  ghost function Alone(c: nat, env: Env): World -> World {
    (w: World) => if c in w.callers then Step(w, Prompt(w.chain, c, w.callers[c], env)) else w
  }

  ghost predicate Leads(w: World, c: nat, env: Env, v: World) {
    U.Leads(Alone(c, env), w, v)
  }

  /** From some point on the caller is finished and this is what it left. */
  ghost predicate EndsAs(w: World, c: nat, env: Env, v: World) {
    v.callers == map[] && U.EndsAs(Alone(c, env), w, v)
  }

  lemma Then(w: World, c: nat, env: Env, u: World, v: World)
    requires Leads(w, c, env, u) && Leads(u, c, env, v)
    ensures Leads(w, c, env, v)
  {
    U.Then(Alone(c, env), w, u, v);
  }

  lemma Stays(w: World, c: nat, env: Env)
    ensures Leads(w, c, env, w)
  {
    U.Stays(Alone(c, env), w);
  }

  lemma Next(w: World, c: nat, env: Env, v: World)
    requires c in w.callers && Step(w, Prompt(w.chain, c, w.callers[c], env)) == v
    ensures Leads(w, c, env, v)
  {
    U.Next(Alone(c, env), w, v);
  }

  lemma Ends(w: World, c: nat, env: Env, chain: Chain, s: Store)
    requires Leads(w, c, env, Nobody(chain, s))
    ensures EndsAs(w, c, env, Nobody(chain, s))
  {
    U.Ends(Alone(c, env), w, Nobody(chain, s));
  }

  // ---------------------------------------------------------------- single steps

  lemma MovedAlone(chain: Chain, s: Store, c: nat, pc: Pc, o: Outcome)
    ensures Moved(One(chain, s, c, pc), c, o)
            == if o.pc.Some? then One(chain, o.store, c, o.pc.value) else Nobody(chain, o.store)
  {
    assert map[c := pc] - {c} == map[];
  }

  /** Awaits that just return. */
  predicate Quiet(pc: Pc) {
    !pc.ListQueued? && !pc.ListPending? && !pc.Resolve? && !pc.Build? && !pc.Send? && !pc.Ask? && !pc.Wait?
    && !pc.WorkerAsk? && !pc.PollList? && !pc.Poll?
  }

  lemma Return(chain: Chain, s: Store, c: nat, env: Env, pc: Pc, t: Store, next: Pc)
    requires Quiet(pc) && Returns(s, pc) == Outcome(t, Some(next))
    ensures Leads(One(chain, s, c, pc), c, env, One(chain, t, c, next))
  {
    MovedAlone(chain, s, c, pc, Returns(s, pc));
    Next(One(chain, s, c, pc), c, env, One(chain, t, c, next));
  }

  lemma ReturnLast(chain: Chain, s: Store, c: nat, env: Env, pc: Pc, t: Store)
    requires Quiet(pc) && Returns(s, pc) == Outcome(t, None)
    ensures Leads(One(chain, s, c, pc), c, env, Nobody(chain, t))
  {
    MovedAlone(chain, s, c, pc, Returns(s, pc));
    Next(One(chain, s, c, pc), c, env, Nobody(chain, t));
  }

  lemma ThenReturn(w: World, chain: Chain, s: Store, c: nat, env: Env, pc: Pc, t: Store, next: Pc)
    requires Leads(w, c, env, One(chain, s, c, pc)) && Quiet(pc) && Returns(s, pc) == Outcome(t, Some(next))
    ensures Leads(w, c, env, One(chain, t, c, next))
  {
    Return(chain, s, c, env, pc, t, next);
    Then(w, c, env, One(chain, s, c, pc), One(chain, t, c, next));
  }

  // ---------------------------------------------------------------- rows

  /** A row's state, its outpoint kept. */
  function WithState(s: Store, row: nat, state: State): Store
    requires row in s.rows
  {
    s.(rows := s.rows[row := s.rows[row].(state := state)])
  }

  predicate InReclaim(s: Store, row: nat) {
    row in s.rows && (s.rows[row].state == ReclaimQueued || s.rows[row].state == ReclaimPending)
  }

  /** `t` differs from `s` in the rows of some list only: they have this state now. */
  ghost predicate Shown(s: Store, t: Store, ids: seq<nat>, state: State) {
    && t.rows.Keys == s.rows.Keys
    && (forall r :: r in s.rows && r in ids ==> t.rows[r] == Row(state, s.rows[r].cell))
    && (forall r :: r in s.rows && r !in ids ==> t.rows[r] == s.rows[r])
  }

  // ---------------------------------------------------------------- the cells

  /** What the live cells of a listing become: the covers of the transaction. */
  function Live(found: seq<Candidate>, seen: Cell -> CellStatus): seq<Covered>
    decreases |found|
  {
    if found == [] then [] else LiveOne(found[0], seen) + Live(found[1..], seen)
  }

  function LiveOne(one: Candidate, seen: Cell -> CellStatus): seq<Covered> {
    match seen(one.cell)
    case Live(capacity) => [Covered(one.row, one.cell, capacity)]
    case _ => []
  }

  /** The rows of the dead ones. */
  function DeadRows(found: seq<Candidate>, seen: Cell -> CellStatus): seq<nat>
    decreases |found|
  {
    if found == [] then []
    else (if seen(found[0].cell) == DeadCell then [found[0].row] else []) + DeadRows(found[1..], seen)
  }

  ghost predicate DistinctRows(found: seq<Candidate>) {
    forall i, j :: 0 <= i < j < |found| ==> found[i].row != found[j].row
  }

  /** Dead cells are reported truly. */
  ghost predicate TrueAbout(chain: Chain, found: seq<Candidate>, seen: Cell -> CellStatus) {
    forall i :: 0 <= i < |found| && seen(found[i].cell) == DeadCell ==> found[i].cell in chain.spent
  }

  lemma DeadAnswer(chain: Chain, s: Store, c: nat, env: Env, found: seq<Candidate>, i: nat, covered: seq<Covered>)
    requires i < |found| && env.seen(found[i].cell) == DeadCell && found[i].cell in chain.spent
    ensures Leads(One(chain, s, c, Resolve(found, i, covered)), c, env,
                  One(chain, s.(dead := s.dead + {found[i].cell}), c, DeadPending(found, i, covered)))
  {
    var w := One(chain, s, c, Resolve(found, i, covered));
    var e := CellAnswer(c, DeadCell);
    assert ToldDead(w, e);
    MovedAlone(chain, s, c, Resolve(found, i, covered), Outcome(Heard(w, e), Informed(w, e)));
    Next(w, c, env, One(chain, s.(dead := s.dead + {found[i].cell}), c, DeadPending(found, i, covered)));
  }

  lemma DeadIsPending(chain: Chain, s: Store, c: nat, env: Env, found: seq<Candidate>, i: nat, covered: seq<Covered>)
    requires i < |found| && InReclaim(s, found[i].row)
    ensures Leads(One(chain, s, c, DeadPending(found, i, covered)), c, env,
                  One(chain, WithState(s, found[i].row, ReclaimPending), c, DeadReclaimed(found, i, covered)))
  {
    Return(chain, s, c, env, DeadPending(found, i, covered), WithState(s, found[i].row, ReclaimPending),
           DeadReclaimed(found, i, covered));
  }

  lemma DeadIsReclaimed(chain: Chain, s: Store, c: nat, env: Env, found: seq<Candidate>, i: nat, covered: seq<Covered>)
    requires i < |found| && InReclaimed(s, found[i].row)
    ensures Leads(One(chain, s, c, DeadReclaimed(found, i, covered)), c, env,
                  One(chain, WithState(s, found[i].row, Reclaimed), c, Resolve(found, i + 1, covered)))
  {
    Return(chain, s, c, env, DeadReclaimed(found, i, covered), WithState(s, found[i].row, Reclaimed),
           Resolve(found, i + 1, covered));
  }

  lemma StateTwice(s: Store, row: nat, a: State, b: State)
    requires row in s.rows
    ensures WithState(WithState(s, row, a), row, b) == WithState(s, row, b)
  {
  }

  /** Both transitions of a dead cell's row. */
  lemma DeadIsWalked(chain: Chain, s: Store, c: nat, env: Env, found: seq<Candidate>, i: nat, covered: seq<Covered>)
    requires i < |found| && InReclaim(s, found[i].row)
    ensures Leads(One(chain, s, c, DeadPending(found, i, covered)), c, env,
                  One(chain, WithState(s, found[i].row, Reclaimed), c, Resolve(found, i + 1, covered)))
  {
    var u := WithState(s, found[i].row, ReclaimPending);
    DeadIsPending(chain, s, c, env, found, i, covered);
    StateTwice(s, found[i].row, ReclaimPending, Reclaimed);
    DeadIsReclaimed(chain, u, c, env, found, i, covered);
    Then(One(chain, s, c, DeadPending(found, i, covered)), c, env, One(chain, u, c, DeadReclaimed(found, i, covered)),
         One(chain, WithState(s, found[i].row, Reclaimed), c, Resolve(found, i + 1, covered)));
  }

  /** A dead cell's row is walked to reclaimed. */
  lemma DeadIsShown(chain: Chain, s: Store, c: nat, env: Env, found: seq<Candidate>, i: nat, covered: seq<Covered>)
    requires i < |found| && env.seen(found[i].cell) == DeadCell && found[i].cell in chain.spent
    requires InReclaim(s, found[i].row)
    ensures Leads(One(chain, s, c, Resolve(found, i, covered)), c, env,
                  One(chain, WithState(s.(dead := s.dead + {found[i].cell}), found[i].row, Reclaimed), c,
                      Resolve(found, i + 1, covered)))
  {
    DeadAnswer(chain, s, c, env, found, i, covered);
    var t := s.(dead := s.dead + {found[i].cell});
    DeadIsWalked(chain, t, c, env, found, i, covered);
    Then(One(chain, s, c, Resolve(found, i, covered)), c, env, One(chain, t, c, DeadPending(found, i, covered)),
         One(chain, WithState(t, found[i].row, Reclaimed), c, Resolve(found, i + 1, covered)));
  }

  lemma OtherAnswer(chain: Chain, s: Store, c: nat, env: Env, found: seq<Candidate>, i: nat, covered: seq<Covered>)
    requires i < |found| && env.seen(found[i].cell) != DeadCell
    ensures Leads(One(chain, s, c, Resolve(found, i, covered)), c, env,
                  One(chain, s, c, Resolve(found, i + 1, covered + LiveOne(found[i], env.seen))))
  {
    var w := One(chain, s, c, Resolve(found, i, covered));
    var e := CellAnswer(c, env.seen(found[i].cell));
    var next := Resolve(found, i + 1, covered + LiveOne(found[i], env.seen));
    assert covered + [] == covered;
    assert Informed(w, e) == Some(next);
    MovedAlone(chain, s, c, Resolve(found, i, covered), Outcome(Heard(w, e), Informed(w, e)));
    Next(w, c, env, One(chain, s, c, next));
  }

  lemma Associate(a: seq<Covered>, b: seq<Covered>, c: seq<Covered>)
    ensures a + (b + c) == (a + b) + c && a + [] == a
  {
  }

  lemma LiveNext(found: seq<Candidate>, i: nat, seen: Cell -> CellStatus, covered: seq<Covered>)
    requires i < |found|
    ensures covered + Live(found[i..], seen) == (covered + LiveOne(found[i], seen)) + Live(found[i + 1..], seen)
    ensures seen(found[i].cell) == DeadCell ==> covered + LiveOne(found[i], seen) == covered
    ensures DeadRows(found[i..], seen)
            == (if seen(found[i].cell) == DeadCell then [found[i].row] else []) + DeadRows(found[i + 1..], seen)
  {
    assert found[i..][1..] == found[i + 1..];
    Associate(covered, LiveOne(found[i], seen), Live(found[i + 1..], seen));
  }

  /** The loop over the candidates. */
  lemma {:induction false} CellsAreAsked(chain: Chain, s: Store, c: nat, env: Env, found: seq<Candidate>, i: nat,
        covered: seq<Covered>) returns (t: Store)
    requires i <= |found| && DistinctRows(found) && TrueAbout(chain, found, env.seen)
    requires forall k :: i <= k < |found| ==> InReclaim(s, found[k].row)
    ensures Leads(One(chain, s, c, Resolve(found, i, covered)), c, env,
                  One(chain, t, c, Resolve(found, |found|, covered + Live(found[i..], env.seen))))
    ensures Shown(s, t, DeadRows(found[i..], env.seen), Reclaimed)
    ensures t == s.(rows := t.rows, dead := t.dead)
    decreases |found| - i
  {
    var w := One(chain, s, c, Resolve(found, i, covered));
    if i == |found| {
      t := s;
      assert covered + [] == covered;
      Stays(w, c, env);
    } else {
      LiveNext(found, i, env.seen, covered);
      var more := covered + LiveOne(found[i], env.seen);
      var u := s;
      if env.seen(found[i].cell) == DeadCell {
        u := WithState(s.(dead := s.dead + {found[i].cell}), found[i].row, Reclaimed);
        DeadIsShown(chain, s, c, env, found, i, covered);
      } else {
        OtherAnswer(chain, s, c, env, found, i, covered);
      }
      t := CellsAreAsked(chain, u, c, env, found, i + 1, more);
      Then(w, c, env, One(chain, u, c, Resolve(found, i + 1, more)),
           One(chain, t, c, Resolve(found, |found|, covered + Live(found[i..], env.seen))));
    }
  }

  // ---------------------------------------------------------------- the rows of the batch

  /** One row more. */
  lemma ShownNext(s: Store, u: Store, t: Store, ids: seq<nat>, i: nat, state: State)
    requires i < |ids| && ids[i] in s.rows && u.rows == WithState(s, ids[i], state).rows
    requires Shown(u, t, ids[i + 1..], state)
    ensures Shown(s, t, ids[i..], state)
  {
    assert ids[i..] == [ids[i]] + ids[i + 1..];
  }

  lemma FirstIsPending(chain: Chain, s: Store, c: nat, env: Env, covered: seq<Covered>, i: nat)
    requires i < |covered| && InReclaim(s, covered[i].row)
    ensures Leads(One(chain, s, c, MarkPending(covered, i)), c, env,
                  One(chain, WithState(s, covered[i].row, ReclaimPending), c, MarkPending(covered, i + 1)))
  {
    Return(chain, s, c, env, MarkPending(covered, i), WithState(s, covered[i].row, ReclaimPending),
           MarkPending(covered, i + 1));
  }

  lemma AllArePending(chain: Chain, s: Store, c: nat, env: Env, covered: seq<Covered>)
    ensures Leads(One(chain, s, c, MarkPending(covered, |covered|)), c, env, One(chain, s, c, Build(covered)))
  {
    Return(chain, s, c, env, MarkPending(covered, |covered|), s, Build(covered));
  }

  lemma {:induction false} RowsArePending(chain: Chain, s: Store, c: nat, env: Env, covered: seq<Covered>, i: nat)
      returns (t: Store)
    requires i <= |covered| && forall k :: i <= k < |covered| ==> InReclaim(s, covered[k].row)
    ensures Leads(One(chain, s, c, MarkPending(covered, i)), c, env, One(chain, t, c, Build(covered)))
    ensures Shown(s, t, RowsOf(covered)[i..], ReclaimPending) && t == s.(rows := t.rows)
    decreases |covered| - i
  {
    if i == |covered| {
      t := s;
      AllArePending(chain, s, c, env, covered);
    } else {
      var u := WithState(s, covered[i].row, ReclaimPending);
      FirstIsPending(chain, s, c, env, covered, i);
      t := RowsArePending(chain, u, c, env, covered, i + 1);
      Then(One(chain, s, c, MarkPending(covered, i)), c, env, One(chain, u, c, MarkPending(covered, i + 1)),
           One(chain, t, c, Build(covered)));
      ShownNext(s, u, t, RowsOf(covered), i, ReclaimPending);
    }
  }

  // ---------------------------------------------------------------- settling

  /** A watch on a covered cell is marked as spent by the transaction. */
  function WatchDone(watches: map<Cell, Watch>, cell: Cell, tx: Tx): map<Cell, Watch> {
    if cell in watches && watches[cell].spender == NotSpent
    then watches[cell := watches[cell].(spender := SpentBy(tx))] else watches
  }

  lemma WatchIsDone(chain: Chain, s: Store, c: nat, env: Env, b: Batch, i: nat)
    requires i < |b.tx.covers|
    ensures Leads(One(chain, s, c, WatchFind(b, i)), c, env,
                  One(chain, s.(watches := WatchDone(s.watches, b.tx.covers[i].cell, b.tx)), c,
                      Settle(b, false, i + 1)))
  {
    var t := s.(watches := WatchDone(s.watches, b.tx.covers[i].cell, b.tx));
    if b.tx.covers[i].cell in s.watches && s.watches[b.tx.covers[i].cell].spender == NotSpent {
      Return(chain, s, c, env, WatchFind(b, i), s, WatchMark(b, i));
      ThenReturn(One(chain, s, c, WatchFind(b, i)), chain, s, c, env, WatchMark(b, i), t, Settle(b, false, i + 1));
    } else {
      Return(chain, s, c, env, WatchFind(b, i), s, Settle(b, false, i + 1));
    }
  }

  /** No watch on a covered cell is active any more; all others are as they were. */
  ghost predicate WatchesDone(s: Store, t: Store, tx: Tx, i: nat) {
    && t.watches.Keys == s.watches.Keys
    && (forall cell :: cell in s.watches && (forall k :: i <= k < |tx.covers| ==> tx.covers[k].cell != cell)
          ==> t.watches[cell] == s.watches[cell])
    && (forall k :: i <= k < |tx.covers| && tx.covers[k].cell in s.watches
          ==> t.watches[tx.covers[k].cell].spender != NotSpent)
    && (forall cell :: cell in s.watches && s.watches[cell].spender != NotSpent ==> t.watches[cell].spender != NotSpent)
  }

  /** One row of a batch settled. */
  function AfterOne(s: Store, b: Batch, resumed: bool, i: nat): Store
    requires b.ids == RowsOf(b.tx.covers) && i < |b.ids| && b.ids[i] in s.rows
  {
    WithState(s, b.ids[i], Reclaimed).(
      watches := if resumed then s.watches else WatchDone(s.watches, b.tx.covers[i].cell, b.tx))
  }

  lemma FirstIsSettled(chain: Chain, s: Store, c: nat, env: Env, b: Batch, resumed: bool, i: nat)
    requires b.ids == RowsOf(b.tx.covers) && i < |b.ids| && InReclaimed(s, b.ids[i])
    ensures Leads(One(chain, s, c, Settle(b, resumed, i)), c, env,
                  One(chain, AfterOne(s, b, resumed, i), c, Settle(b, resumed, i + 1)))
  {
    var u, t := WithState(s, b.ids[i], Reclaimed), AfterOne(s, b, resumed, i);
    if resumed {
      assert t == u;
      Return(chain, s, c, env, Settle(b, resumed, i), u, Settle(b, resumed, i + 1));
    } else {
      Return(chain, s, c, env, Settle(b, resumed, i), u, WatchFind(b, i));
      WatchIsDone(chain, u, c, env, b, i);
      assert t == u.(watches := WatchDone(u.watches, b.tx.covers[i].cell, b.tx));
      Then(One(chain, s, c, Settle(b, resumed, i)), c, env, One(chain, u, c, WatchFind(b, i)),
           One(chain, t, c, Settle(b, resumed, i + 1)));
    }
  }

  predicate InReclaimed(s: Store, row: nat) {
    row in s.rows && (s.rows[row].state == ReclaimPending || s.rows[row].state == Reclaimed)
  }

  lemma NothingIsLeft(s: Store, b: Batch, resumed: bool)
    requires b.ids == RowsOf(b.tx.covers)
    ensures SettledFrom(s, s, b, resumed, |b.ids|)
  {
  }

  lemma SettledThen(chain: Chain, s: Store, c: nat, env: Env, b: Batch, resumed: bool, i: nat, v: World)
    requires b.ids == RowsOf(b.tx.covers) && i < |b.ids| && InReclaimed(s, b.ids[i])
    requires Leads(One(chain, AfterOne(s, b, resumed, i), c, Settle(b, resumed, i + 1)), c, env, v)
    ensures Leads(One(chain, s, c, Settle(b, resumed, i)), c, env, v)
  {
    FirstIsSettled(chain, s, c, env, b, resumed, i);
    Then(One(chain, s, c, Settle(b, resumed, i)), c, env,
         One(chain, AfterOne(s, b, resumed, i), c, Settle(b, resumed, i + 1)), v);
  }

  /** What the loop has done from row i on. */
  ghost predicate SettledFrom(s: Store, t: Store, b: Batch, resumed: bool, i: nat)
    requires i <= |b.ids|
  {
    && Shown(s, t, b.ids[i..], Reclaimed) && t == s.(rows := t.rows, watches := t.watches)
    && if resumed then t.watches == s.watches else WatchesDone(s, t, b.tx, i)
  }

  lemma AllAreSettled(chain: Chain, s: Store, c: nat, env: Env, b: Batch, resumed: bool)
    ensures Leads(One(chain, s, c, Settle(b, resumed, |b.ids|)), c, env, One(chain, s, c, Release(b, resumed)))
  {
    Return(chain, s, c, env, Settle(b, resumed, |b.ids|), s, Release(b, resumed));
  }

  predicate AllInReclaimed(s: Store, ids: seq<nat>, i: nat) {
    forall k :: i <= k < |ids| ==> InReclaimed(s, ids[k])
  }

  /** All rows from the i-th on settled. */
  function AfterAll(s: Store, b: Batch, resumed: bool, i: nat): Store
    requires b.ids == RowsOf(b.tx.covers)
    decreases |b.ids| - i
  {
    if i >= |b.ids| || b.ids[i] !in s.rows then s
    else AfterAll(AfterOne(s, b, resumed, i), b, resumed, i + 1)
  }

  /** The loop over the rows of a batch that was won. */
  lemma {:induction false} RowsAreSettled(chain: Chain, s: Store, c: nat, env: Env, b: Batch, resumed: bool, i: nat)
    requires b.ids == RowsOf(b.tx.covers) && i <= |b.ids| && AllInReclaimed(s, b.ids, i)
    ensures Leads(One(chain, s, c, Settle(b, resumed, i)), c, env,
                  One(chain, AfterAll(s, b, resumed, i), c, Release(b, resumed)))
    decreases |b.ids| - i, 1
  {
    if i == |b.ids| {
      AllAreSettled(chain, s, c, env, b, resumed);
    } else {
      RestIsSettled(chain, s, c, env, b, resumed, i);
    }
  }

  lemma {:induction false} RestIsSettled(chain: Chain, s: Store, c: nat, env: Env, b: Batch, resumed: bool, i: nat)
    requires b.ids == RowsOf(b.tx.covers) && i < |b.ids| && AllInReclaimed(s, b.ids, i)
    ensures Leads(One(chain, s, c, Settle(b, resumed, i)), c, env,
                  One(chain, AfterAll(s, b, resumed, i), c, Release(b, resumed)))
    decreases |b.ids| - i, 0
  {
    StillInReclaim(s, b, resumed, i);
    var u := AfterOne(s, b, resumed, i);
    RowsAreSettled(chain, u, c, env, b, resumed, i + 1);
    SettledThen(chain, s, c, env, b, resumed, i, One(chain, AfterAll(u, b, resumed, i + 1), c, Release(b, resumed)));
    AfterOneMore(s, b, resumed, i);
  }

  lemma AfterOneMore(s: Store, b: Batch, resumed: bool, i: nat)
    requires b.ids == RowsOf(b.tx.covers) && i < |b.ids| && b.ids[i] in s.rows
    ensures AfterAll(s, b, resumed, i) == AfterAll(AfterOne(s, b, resumed, i), b, resumed, i + 1)
  {
  }

  lemma {:induction false} AllSettled(s: Store, b: Batch, resumed: bool, i: nat)
    requires b.ids == RowsOf(b.tx.covers) && i <= |b.ids| && AllInReclaimed(s, b.ids, i)
    ensures SettledFrom(s, AfterAll(s, b, resumed, i), b, resumed, i)
    decreases |b.ids| - i
  {
    if i == |b.ids| {
      NothingIsLeft(s, b, resumed);
    } else {
      StillInReclaim(s, b, resumed, i);
      AllSettled(AfterOne(s, b, resumed, i), b, resumed, i + 1);
      SettledNext(s, AfterAll(s, b, resumed, i), b, resumed, i);
    }
  }

  lemma SettledNext(s: Store, t: Store, b: Batch, resumed: bool, i: nat)
    requires b.ids == RowsOf(b.tx.covers) && i < |b.ids| && InReclaimed(s, b.ids[i])
    requires SettledFrom(AfterOne(s, b, resumed, i), t, b, resumed, i + 1)
    ensures SettledFrom(s, t, b, resumed, i)
  {
    var u := AfterOne(s, b, resumed, i);
    ShownNext(s, u, t, b.ids, i, Reclaimed);
    if !resumed {
      WatchesUpTo(s, u, t, b.tx, i);
    }
  }

  lemma StillInReclaim(s: Store, b: Batch, resumed: bool, i: nat)
    requires b.ids == RowsOf(b.tx.covers) && i < |b.ids| && AllInReclaimed(s, b.ids, i)
    ensures InReclaimed(s, b.ids[i]) && AllInReclaimed(AfterOne(s, b, resumed, i), b.ids, i + 1)
  {
  }

  lemma WatchesUpTo(s: Store, u: Store, t: Store, tx: Tx, i: nat)
    requires i < |tx.covers| && u.watches == WatchDone(s.watches, tx.covers[i].cell, tx)
    requires WatchesDone(u, t, tx, i + 1)
    ensures WatchesDone(s, t, tx, i)
  {
  }

  // ---------------------------------------------------------------- crediting

  /** The ledger after a win: net capacity released if there is any, fee burned if there is one. */
  function Credited(s: Store, tx: Tx): Store {
    s.(released := if Total(tx.covers) > tx.fee then s.released + [Credit(tx, Total(tx.covers) - tx.fee)]
                   else s.released,
       burned := if tx.fee > 0 then s.burned + [Credit(tx, tx.fee)] else s.burned)
  }

  predicate NotesAgree(b: Batch) {
    b.ids == RowsOf(b.tx.covers) && b.capacity == Total(b.tx.covers) && b.fee == b.tx.fee
  }

  lemma CapacityIsReleased(chain: Chain, s: Store, c: nat, env: Env, b: Batch, resumed: bool)
    requires NotesAgree(b)
    ensures Leads(One(chain, s, c, Release(b, resumed)), c, env,
                  One(chain, s.(released := Credited(s, b.tx).released), c, Burn(b, resumed)))
  {
    Return(chain, s, c, env, Release(b, resumed), s.(released := Credited(s, b.tx).released), Burn(b, resumed));
  }

  lemma FeeIsBurned(chain: Chain, s: Store, c: nat, env: Env, b: Batch, resumed: bool)
    requires NotesAgree(b)
    ensures var t := s.(burned := Credited(s, b.tx).burned);
            Leads(One(chain, s, c, Burn(b, resumed)), c, env,
                  if resumed then Nobody(chain, t) else One(chain, t, c, Prune))
  {
    var t := s.(burned := Credited(s, b.tx).burned);
    if resumed {
      ReturnLast(chain, s, c, env, Burn(b, resumed), t);
    } else {
      Return(chain, s, c, env, Burn(b, resumed), t, Prune);
    }
  }

  lemma LedgerIsCredited(chain: Chain, s: Store, c: nat, env: Env, b: Batch, resumed: bool)
    requires NotesAgree(b)
    ensures var t := Credited(s, b.tx);
            Leads(One(chain, s, c, Release(b, resumed)), c, env,
                  Nobody(chain, if resumed then t else t.(watches := Pruned(s.watches))))
  {
    var w := One(chain, s, c, Release(b, resumed));
    var u := s.(released := Credited(s, b.tx).released);
    var t := Credited(s, b.tx);
    assert u.(burned := Credited(u, b.tx).burned) == t;
    CapacityIsReleased(chain, s, c, env, b, resumed);
    FeeIsBurned(chain, u, c, env, b, resumed);
    if resumed {
      Then(w, c, env, One(chain, u, c, Burn(b, resumed)), Nobody(chain, t));
    } else {
      Then(w, c, env, One(chain, u, c, Burn(b, resumed)), One(chain, t, c, Prune));
      ReturnLast(chain, t, c, env, Prune, t.(watches := Pruned(s.watches)));
      Then(w, c, env, One(chain, t, c, Prune), Nobody(chain, t.(watches := Pruned(s.watches))));
    }
  }

  // ---------------------------------------------------------------- winning

  /** What a winner leaves, from the swap on. */
  ghost predicate WonAs(s: Store, t: Store, tx: Tx, resumed: bool) {
    && t.journal == Marked(s.journal, tx, CommittedTx)
    && Shown(s, t, RowsOf(tx.covers), Reclaimed) && t.inRows == s.inRows
    && t.released == Credited(s, tx).released && t.burned == Credited(s, tx).burned
    && if resumed then t.watches == s.watches else OnlyUncovered(s, t, tx)
  }

  /** Of the watches the active ones on other cells are left. */
  ghost predicate OnlyUncovered(s: Store, t: Store, tx: Tx) {
    forall cell :: cell in t.watches || (cell in s.watches && s.watches[cell].spender == NotSpent && !Covers(tx, cell))
      ==> cell in t.watches && cell in s.watches && t.watches[cell] == s.watches[cell]
          && s.watches[cell].spender == NotSpent && !Covers(tx, cell)
  }

  ghost predicate Covers(tx: Tx, cell: Cell) {
    exists k :: 0 <= k < |tx.covers| && tx.covers[k].cell == cell
  }

  lemma PrunedIsUncovered(s: Store, t: Store, tx: Tx)
    requires WatchesDone(s, t, tx, 0)
    ensures OnlyUncovered(s, t.(watches := Pruned(t.watches)), tx)
  {
  }

  lemma SwapIsWon(chain: Chain, s: Store, c: nat, env: Env, b: Batch, resumed: bool)
    requires IsIn(s.journal, b.tx, Submitted)
    ensures Leads(One(chain, s, c, Cas(b, resumed)), c, env,
                  One(chain, s.(journal := Marked(s.journal, b.tx, CommittedTx)), c, Settle(b, resumed, 0)))
  {
    Return(chain, s, c, env, Cas(b, resumed), s.(journal := Marked(s.journal, b.tx, CommittedTx)),
           Settle(b, resumed, 0));
  }

  /** An undisturbed winner finishes everything. */
  lemma WinnerLeaves(chain: Chain, s: Store, c: nat, env: Env, b: Batch, resumed: bool) returns (t: Store)
    requires NotesAgree(b) && IsIn(s.journal, b.tx, Submitted)
    requires AllInReclaimed(s, b.ids, 0)
    ensures Leads(One(chain, s, c, Cas(b, resumed)), c, env, Nobody(chain, t))
    ensures WonAs(s, t, b.tx, resumed)
  {
    var w := One(chain, s, c, Cas(b, resumed));
    var u := s.(journal := Marked(s.journal, b.tx, CommittedTx));
    SwapIsWon(chain, s, c, env, b, resumed);
    var v := AfterAll(u, b, resumed, 0);
    RowsAreSettled(chain, u, c, env, b, resumed, 0);
    AllSettled(u, b, resumed, 0);
    Then(w, c, env, One(chain, u, c, Settle(b, resumed, 0)), One(chain, v, c, Release(b, resumed)));
    LedgerIsCredited(chain, v, c, env, b, resumed);
    t := if resumed then Credited(v, b.tx) else Credited(v, b.tx).(watches := Pruned(v.watches));
    Then(w, c, env, One(chain, v, c, Release(b, resumed)), Nobody(chain, t));
    SettledAndCredited(s, u, v, t, b, resumed);
  }

  lemma SettledAndCredited(s: Store, u: Store, v: Store, t: Store, b: Batch, resumed: bool)
    requires b.ids == RowsOf(b.tx.covers) && u == s.(journal := Marked(s.journal, b.tx, CommittedTx))
    requires SettledFrom(u, v, b, resumed, 0)
    requires t == if resumed then Credited(v, b.tx) else Credited(v, b.tx).(watches := Pruned(v.watches))
    ensures WonAs(s, t, b.tx, resumed)
  {
    assert b.ids[0..] == b.ids;
    if !resumed {
      PrunedIsUncovered(u, v, b.tx);
    }
  }

  // ---------------------------------------------------------------- a fresh batch

  ghost predicate Minable(chain: Chain, tx: Tx) {
    CanCommit(Deliver(chain, tx), tx)
  }

  ghost function Mined(chain: Chain, tx: Tx): Chain {
    Evolve(Deliver(chain, tx), Mine(tx))
  }

  lemma WaitIsOver(chain: Chain, s: Store, c: nat, env: Env, b: Batch, resumed: bool, track: bool)
    requires b.tx in chain.committed
    ensures Leads(One(chain, s, c, Wait(b, resumed, track)), c, env,
                  One(chain, s.(confirmed := s.confirmed + {b.tx}), c,
                      if track then Track(b, resumed) else Cas(b, resumed)))
  {
    var w := One(chain, s, c, Wait(b, resumed, track));
    var e := Answer(c, IsCommitted);
    assert ToldCommitted(w, e);
    MovedAlone(chain, s, c, Wait(b, resumed, track), Outcome(Heard(w, e), Informed(w, e)));
    Next(w, c, env, One(chain, s.(confirmed := s.confirmed + {b.tx}), c,
                        if track then Track(b, resumed) else Cas(b, resumed)));
  }

  lemma WaitIsMined(chain: Chain, s: Store, c: nat, env: Env, b: Batch, resumed: bool, track: bool)
    requires CanCommit(chain, b.tx)
    ensures Leads(One(chain, s, c, Wait(b, resumed, track)), c, env,
                  One(Evolve(chain, Mine(b.tx)), s, c, Wait(b, resumed, track)))
    ensures b.tx in Evolve(chain, Mine(b.tx)).committed
  {
    Next(One(chain, s, c, Wait(b, resumed, track)), c, env,
         One(Evolve(chain, Mine(b.tx)), s, c, Wait(b, resumed, track)));
  }

  lemma SendIsAccepted(chain: Chain, s: Store, c: nat, env: Env, b: Batch, resumed: bool)
    requires !Dead(chain, b.tx)
    ensures Leads(One(chain, s, c, Send(b, resumed)), c, env,
                  One(Deliver(chain, b.tx), s, c, if resumed then Wait(b, true, true) else Track(b, false)))
  {
    var w := One(chain, s, c, Send(b, resumed));
    MovedAlone(Deliver(chain, b.tx), s, c, Send(b, resumed), Outcome(s, SendAnswered(b, resumed, Accepted)));
    Next(w, c, env, One(Deliver(chain, b.tx), s, c, if resumed then Wait(b, true, true) else Track(b, false)));
  }

  /** Sent, tracked, mined and heard: the caller is at the swap. */
  lemma SendIsCommitted(chain: Chain, s: Store, c: nat, env: Env, b: Batch, resumed: bool)
    requires Minable(chain, b.tx)
    ensures Leads(One(chain, s, c, Send(b, resumed)), c, env,
                  One(Mined(chain, b.tx), s.(confirmed := s.confirmed + {b.tx}), c, Cas(b, resumed)))
  {
    var w := One(chain, s, c, Send(b, resumed));
    var sent, mined, t := Deliver(chain, b.tx), Mined(chain, b.tx), s.(confirmed := s.confirmed + {b.tx});
    SendIsAccepted(chain, s, c, env, b, resumed);
    WaitIsMined(sent, s, c, env, b, resumed, resumed);
    WaitIsOver(mined, s, c, env, b, resumed, resumed);
    if !resumed {
      Return(sent, s, c, env, Track(b, false), s, Wait(b, false, false));
      Then(w, c, env, One(sent, s, c, Track(b, false)), One(sent, s, c, Wait(b, false, false)));
    }
    Then(w, c, env, One(sent, s, c, Wait(b, resumed, resumed)), One(mined, s, c, Wait(b, resumed, resumed)));
    Then(w, c, env, One(mined, s, c, Wait(b, resumed, resumed)),
         One(mined, t, c, if resumed then Track(b, true) else Cas(b, false)));
    if resumed {
      Return(mined, t, c, env, Track(b, true), t, Cas(b, true));
      Then(w, c, env, One(mined, t, c, Track(b, true)), One(mined, t, c, Cas(b, true)));
    }
  }

  // ---------------------------------------------------------------- from the start

  lemma CandidatesAreListed(chain: Chain, s: Store, c: nat, env: Env)
    requires s.journal == [] || s.journal[|s.journal| - 1].state != Submitted
    requires ListsRows(s, env.queued, ReclaimQueued) && ListsRows(s, env.pending, ReclaimPending)
    ensures var found := env.queued + env.pending;
            Leads(One(chain, s, c, Start), c, env,
                  if found == [] then Nobody(chain, s) else One(chain, s, c, Resolve(found, 0, [])))
  {
    var w, found := One(chain, s, c, Start), env.queued + env.pending;
    Return(chain, s, c, env, Start, s, ListQueued);
    var e := Listed(c, env.queued);
    MovedAlone(chain, s, c, ListQueued, Outcome(s, Some(ListPending(env.queued))));
    Next(One(chain, s, c, ListQueued), c, env, One(chain, s, c, ListPending(env.queued)));
    Then(w, c, env, One(chain, s, c, ListQueued), One(chain, s, c, ListPending(env.queued)));
    PendingIsListed(chain, s, c, env);
    Then(w, c, env, One(chain, s, c, ListPending(env.queued)),
         if found == [] then Nobody(chain, s) else One(chain, s, c, Resolve(found, 0, [])));
  }

  lemma PendingIsListed(chain: Chain, s: Store, c: nat, env: Env)
    requires ListsRows(s, env.pending, ReclaimPending)
    ensures var found := env.queued + env.pending;
            Leads(One(chain, s, c, ListPending(env.queued)), c, env,
                  if found == [] then Nobody(chain, s) else One(chain, s, c, Resolve(found, 0, [])))
  {
    var found := env.queued + env.pending;
    MovedAlone(chain, s, c, ListPending(env.queued),
               Outcome(s, if found == [] then None else Some(Resolve(found, 0, []))));
    Next(One(chain, s, c, ListPending(env.queued)), c, env,
         if found == [] then Nobody(chain, s) else One(chain, s, c, Resolve(found, 0, [])));
  }

  lemma CellsAreResolved(chain: Chain, s: Store, c: nat, env: Env, found: seq<Candidate>, covered: seq<Covered>)
    ensures Leads(One(chain, s, c, Resolve(found, |found|, covered)), c, env,
                  if covered == [] then Nobody(chain, s) else One(chain, s, c, MarkPending(covered, 0)))
  {
    var pc := Resolve(found, |found|, covered);
    MovedAlone(chain, s, c, pc, Outcome(s, Resolved(covered)));
    Next(One(chain, s, c, pc), c, env,
         if covered == [] then Nobody(chain, s) else One(chain, s, c, MarkPending(covered, 0)));
  }

  /** The batch that the builder makes of the live cells. */
  function BatchOf(covered: seq<Covered>, env: Env): Batch {
    Batch(Tx(covered, env.wallet, env.fee, env.salt), RowsOf(covered), Total(covered), env.fee)
  }

  lemma BatchIsJournaled(chain: Chain, s: Store, c: nat, env: Env, covered: seq<Covered>)
    requires !Holds(s.journal, BatchOf(covered, env).tx)
    ensures var b := BatchOf(covered, env);
            Leads(One(chain, s, c, Build(covered)), c, env,
                  One(chain, s.(journal := s.journal + [RecordOf(b)]), c, Send(b, false)))
  {
    var b := BatchOf(covered, env);
    MovedAlone(chain, s, c, Build(covered), Outcome(s, Some(JournalBatch(b))));
    Next(One(chain, s, c, Build(covered)), c, env, One(chain, s, c, JournalBatch(b)));
    ThenReturn(One(chain, s, c, Build(covered)), chain, s, c, env, JournalBatch(b),
               s.(journal := s.journal + [RecordOf(b)]), Send(b, false));
  }

  lemma RecordIsCommitted(journal: seq<Record<Terms>>, b: Batch)
    requires !Holds(journal, b.tx)
    ensures var more := journal + [RecordOf(b)];
            IsIn(more, b.tx, Submitted)
            && Marked(more, b.tx, CommittedTx) == journal + [RecordOf(b).(state := CommittedTx)]
  {
    var more := journal + [RecordOf(b)];
    assert more[|journal|] == RecordOf(b);
    assert forall i :: 0 <= i < |journal| ==> journal[i].tx != b.tx;
  }

  lemma BatchIsSent(chain: Chain, s: Store, c: nat, env: Env, covered: seq<Covered>)
    requires !Holds(s.journal, BatchOf(covered, env).tx) && Minable(chain, BatchOf(covered, env).tx)
    ensures var b := BatchOf(covered, env);
            Leads(One(chain, s, c, Build(covered)), c, env,
                  One(Mined(chain, b.tx),
                      s.(journal := s.journal + [RecordOf(b)], confirmed := s.confirmed + {b.tx}), c, Cas(b, false)))
  {
    var b := BatchOf(covered, env);
    var u := s.(journal := s.journal + [RecordOf(b)]);
    BatchIsJournaled(chain, s, c, env, covered);
    SendIsCommitted(chain, u, c, env, b, false);
    Then(One(chain, s, c, Build(covered)), c, env, One(chain, u, c, Send(b, false)),
         One(Mined(chain, b.tx), u.(confirmed := u.confirmed + {b.tx}), c, Cas(b, false)));
  }

  /** Built, journaled, broadcast, won: what a fresh batch leaves of the rows it covers. */
  lemma BuiltBatchLeaves(chain: Chain, s: Store, c: nat, env: Env, covered: seq<Covered>) returns (t: Store)
    requires !Holds(s.journal, BatchOf(covered, env).tx) && Minable(chain, BatchOf(covered, env).tx)
    requires AllInReclaimed(s, RowsOf(covered), 0)
    ensures var b := BatchOf(covered, env);
            && Leads(One(chain, s, c, Build(covered)), c, env, Nobody(Mined(chain, b.tx), t))
            && WonAs(s.(journal := s.journal + [RecordOf(b)]), t, b.tx, false)
  {
    var b := BatchOf(covered, env);
    var v := s.(journal := s.journal + [RecordOf(b)], confirmed := s.confirmed + {b.tx});
    RecordIsCommitted(s.journal, b);
    BatchIsSent(chain, s, c, env, covered);
    t := WinnerLeaves(Mined(chain, b.tx), v, c, env, b, false);
    Then(One(chain, s, c, Build(covered)), c, env, One(Mined(chain, b.tx), v, c, Cas(b, false)),
         Nobody(Mined(chain, b.tx), t));
  }

  // ---------------------------------------------------------------- which rows

  predicate DeadAt(found: seq<Candidate>, seen: Cell -> CellStatus, row: nat, i: nat) {
    i < |found| && found[i].row == row && seen(found[i].cell).DeadCell?
  }

  predicate LiveAt(found: seq<Candidate>, seen: Cell -> CellStatus, row: nat, i: nat) {
    i < |found| && found[i].row == row && seen(found[i].cell).Live?
  }

  /** The cell of a candidate for this row was reported live or dead. */
  ghost predicate Known(found: seq<Candidate>, seen: Cell -> CellStatus, row: nat) {
    exists i :: 0 <= i < |found| && found[i].row == row && seen(found[i].cell) != UnknownCell
  }

  lemma {:induction false} DeadOnes(found: seq<Candidate>, seen: Cell -> CellStatus, row: nat)
    ensures row in DeadRows(found, seen) <==> exists i: nat :: DeadAt(found, seen, row, i)
    decreases |found|
  {
    if found != [] {
      DeadOnes(found[1..], seen, row);
      forall i: nat | DeadAt(found[1..], seen, row, i) ensures DeadAt(found, seen, row, i + 1) {
      }
      forall i: nat | DeadAt(found, seen, row, i) && i > 0 ensures DeadAt(found[1..], seen, row, i - 1) {
      }
      assert DeadAt(found, seen, row, 0) <==> row in if seen(found[0].cell) == DeadCell then [found[0].row] else [];
    }
  }

  lemma RowsOfAppend(a: seq<Covered>, b: seq<Covered>)
    ensures RowsOf(a + b) == RowsOf(a) + RowsOf(b)
  {
  }

  lemma RowOfOne(one: Candidate, seen: Cell -> CellStatus, row: nat)
    ensures row in RowsOf(LiveOne(one, seen)) <==> one.row == row && seen(one.cell).Live?
  {
    if seen(one.cell).Live? {
      assert RowsOf(LiveOne(one, seen)) == [one.row];
    }
  }

  lemma {:induction false} LiveOnes(found: seq<Candidate>, seen: Cell -> CellStatus, row: nat)
    ensures row in RowsOf(Live(found, seen)) <==> exists i: nat :: LiveAt(found, seen, row, i)
    decreases |found|
  {
    if found != [] {
      LiveOnes(found[1..], seen, row);
      forall i: nat | LiveAt(found[1..], seen, row, i) ensures LiveAt(found, seen, row, i + 1) {
      }
      forall i: nat | LiveAt(found, seen, row, i) && i > 0 ensures LiveAt(found[1..], seen, row, i - 1) {
      }
      RowsOfAppend(LiveOne(found[0], seen), Live(found[1..], seen));
      RowOfOne(found[0], seen, row);
      assert LiveAt(found, seen, row, 0) <==> row in RowsOf(LiveOne(found[0], seen));
    }
  }

  lemma LiveOrDead(found: seq<Candidate>, seen: Cell -> CellStatus, row: nat)
    ensures row in DeadRows(found, seen) + RowsOf(Live(found, seen)) <==> Known(found, seen, row)
  {
    DeadOnes(found, seen, row);
    LiveOnes(found, seen, row);
    if Known(found, seen, row) {
      var i :| 0 <= i < |found| && found[i].row == row && seen(found[i].cell) != UnknownCell;
      assert DeadAt(found, seen, row, i) || LiveAt(found, seen, row, i);
    }
  }

  /** Rows with a live cell have no dead one, and are candidates. */
  lemma LiveRowsAreFound(found: seq<Candidate>, seen: Cell -> CellStatus, row: nat)
    requires DistinctRows(found) && row in RowsOf(Live(found, seen))
    ensures row !in DeadRows(found, seen) && exists i :: 0 <= i < |found| && found[i].row == row
  {
    DeadOnes(found, seen, row);
    LiveOnes(found, seen, row);
    var i: nat :| LiveAt(found, seen, row, i);
    forall j: nat ensures !DeadAt(found, seen, row, j) {
      NotBoth(found, seen, row, i, j);
    }
  }

  lemma NotBoth(found: seq<Candidate>, seen: Cell -> CellStatus, row: nat, i: nat, j: nat)
    requires DistinctRows(found) && LiveAt(found, seen, row, i)
    ensures !DeadAt(found, seen, row, j)
  {
  }

  // ---------------------------------------------------------------- results

  /** What an undisturbed batch makes of its candidates: rows whose cell is live or dead are shown as
      reclaimed, all others stay; for the live cells there is one committed record, the release of
      their capacity net of the fee, the burn of the fee, and no watch on them any more. */
  ghost predicate BatchDone(s: Store, t: Store, env: Env) {
    var found := env.queued + env.pending;
    var b := BatchOf(Live(found, env.seen), env);
    && t.rows.Keys == s.rows.Keys && t.inRows == s.inRows
    && (forall r :: r in s.rows ==>
          t.rows[r] == if Known(found, env.seen, r) then Row(Reclaimed, s.rows[r].cell) else s.rows[r])
    && if b.tx.covers == []
       then t.journal == s.journal && t.released == s.released && t.burned == s.burned && t.watches == s.watches
       else t.journal == s.journal + [RecordOf(b).(state := CommittedTx)]
            && t.released == Credited(s, b.tx).released && t.burned == Credited(s, b.tx).burned
            && OnlyUncovered(s, t, b.tx)
  }

  lemma ShownTwice(s: Store, t: Store, u: Store, v: Store, dead: seq<nat>, live: seq<nat>)
    requires Shown(s, t, dead, Reclaimed) && Shown(t, u, live, ReclaimPending) && Shown(u, v, live, Reclaimed)
    ensures Shown(s, v, dead + live, Reclaimed)
  {
  }

  /** Rows still in reclaim after the dead ones are through. */
  lemma LiveRowsWait(s: Store, t: Store, found: seq<Candidate>, seen: Cell -> CellStatus)
    requires DistinctRows(found) && Shown(s, t, DeadRows(found, seen), Reclaimed)
    requires forall k :: 0 <= k < |found| ==> InReclaim(s, found[k].row)
    ensures forall k :: 0 <= k < |Live(found, seen)| ==> InReclaim(t, Live(found, seen)[k].row)
  {
    forall k | 0 <= k < |Live(found, seen)| ensures InReclaim(t, Live(found, seen)[k].row) {
      assert RowsOf(Live(found, seen))[k] == Live(found, seen)[k].row;
      LiveRowsAreFound(found, seen, Live(found, seen)[k].row);
    }
  }

  /** From the first candidate to the end, for a batch with live cells. */
  lemma LiveBatchLeaves(chain: Chain, s: Store, c: nat, env: Env, found: seq<Candidate>) returns (v: Store)
    requires DistinctRows(found) && TrueAbout(chain, found, env.seen) && Live(found, env.seen) != []
    requires forall k :: 0 <= k < |found| ==> InReclaim(s, found[k].row)
    requires var tx := BatchOf(Live(found, env.seen), env).tx; !Holds(s.journal, tx) && Minable(chain, tx)
    ensures var b := BatchOf(Live(found, env.seen), env);
            && Leads(One(chain, s, c, Resolve(found, 0, [])), c, env, Nobody(Mined(chain, b.tx), v))
            && Shown(s, v, DeadRows(found, env.seen) + RowsOf(Live(found, env.seen)), Reclaimed)
            && WonRest(s, v, b)
  {
    var w, covered := One(chain, s, c, Resolve(found, 0, [])), Live(found, env.seen);
    var t := ResolvedBatch(chain, s, c, env, found);
    CellsAreResolved(chain, t, c, env, found, covered);
    Then(w, c, env, One(chain, t, c, Resolve(found, |found|, covered)), One(chain, t, c, MarkPending(covered, 0)));
    LiveRowsWait(s, t, found, env.seen);
    var u := PendingBatch(chain, t, c, env, covered);
    Then(w, c, env, One(chain, t, c, MarkPending(covered, 0)), One(chain, u, c, Build(covered)));
    v := BuiltBatchLeaves(chain, u, c, env, covered);
    Then(w, c, env, One(chain, u, c, Build(covered)), Nobody(Mined(chain, BatchOf(covered, env).tx), v));
    ShownTwice(s, t, u, v, DeadRows(found, env.seen), RowsOf(covered));
    WonRestOfAll(s, u, v, BatchOf(covered, env));
  }

  /** The rest of what a won batch leaves. */
  ghost predicate WonRest(s: Store, v: Store, b: Batch) {
    && v.inRows == s.inRows && v.journal == s.journal + [RecordOf(b).(state := CommittedTx)]
    && v.released == Credited(s, b.tx).released && v.burned == Credited(s, b.tx).burned
    && OnlyUncovered(s, v, b.tx)
  }

  lemma WonRestOfAll(s: Store, u: Store, v: Store, b: Batch)
    requires u == s.(rows := u.rows, dead := u.dead) && !Holds(s.journal, b.tx)
    requires WonAs(u.(journal := u.journal + [RecordOf(b)]), v, b.tx, false)
    ensures WonRest(s, v, b)
  {
    RecordIsCommitted(s.journal, b);
  }

  lemma ResolvedBatch(chain: Chain, s: Store, c: nat, env: Env, found: seq<Candidate>) returns (t: Store)
    requires DistinctRows(found) && TrueAbout(chain, found, env.seen)
    requires forall k :: 0 <= k < |found| ==> InReclaim(s, found[k].row)
    ensures Leads(One(chain, s, c, Resolve(found, 0, [])), c, env,
                  One(chain, t, c, Resolve(found, |found|, Live(found, env.seen))))
    ensures Shown(s, t, DeadRows(found, env.seen), Reclaimed) && t == s.(rows := t.rows, dead := t.dead)
  {
    t := CellsAreAsked(chain, s, c, env, found, 0, []);
    assert found[0..] == found && [] + Live(found, env.seen) == Live(found, env.seen);
  }

  lemma PendingBatch(chain: Chain, t: Store, c: nat, env: Env, covered: seq<Covered>) returns (u: Store)
    requires forall k :: 0 <= k < |covered| ==> InReclaim(t, covered[k].row)
    ensures Leads(One(chain, t, c, MarkPending(covered, 0)), c, env, One(chain, u, c, Build(covered)))
    ensures Shown(t, u, RowsOf(covered), ReclaimPending) && u == t.(rows := u.rows)
    ensures AllInReclaimed(u, RowsOf(covered), 0)
  {
    u := RowsArePending(chain, t, c, env, covered, 0);
    assert RowsOf(covered)[0..] == RowsOf(covered);
    forall k | 0 <= k < |covered| ensures InReclaimed(u, RowsOf(covered)[k]) {
      assert RowsOf(covered)[k] in RowsOf(covered) && InReclaim(t, covered[k].row);
    }
  }

  lemma ListedRows(s: Store, env: Env)
    requires ListsRows(s, env.queued, ReclaimQueued) && ListsRows(s, env.pending, ReclaimPending)
    ensures var found := env.queued + env.pending; forall k :: 0 <= k < |found| ==> InReclaim(s, found[k].row)
  {
  }

  lemma RowsAreKnown(s: Store, t: Store, env: Env)
    requires var found := env.queued + env.pending;
             Shown(s, t, DeadRows(found, env.seen) + RowsOf(Live(found, env.seen)), Reclaimed)
    ensures var found := env.queued + env.pending;
            forall r :: r in s.rows ==>
              r in t.rows
              && t.rows[r] == if Known(found, env.seen, r) then Row(Reclaimed, s.rows[r].cell) else s.rows[r]
  {
    var found := env.queued + env.pending;
    forall r | r in s.rows
      ensures r in t.rows
      ensures t.rows[r] == if Known(found, env.seen, r) then Row(Reclaimed, s.rows[r].cell) else s.rows[r]
    {
      LiveOrDead(found, env.seen, r);
    }
  }

  /** A batch without a live cell ends after its loop. */
  lemma DeadBatchLeaves(chain: Chain, s: Store, c: nat, env: Env, found: seq<Candidate>) returns (t: Store)
    requires DistinctRows(found) && TrueAbout(chain, found, env.seen) && Live(found, env.seen) == []
    requires forall k :: 0 <= k < |found| ==> InReclaim(s, found[k].row)
    ensures Leads(One(chain, s, c, Resolve(found, 0, [])), c, env, Nobody(chain, t))
    ensures Shown(s, t, DeadRows(found, env.seen) + RowsOf(Live(found, env.seen)), Reclaimed)
    ensures t == s.(rows := t.rows, dead := t.dead)
  {
    t := ResolvedBatch(chain, s, c, env, found);
    CellsAreResolved(chain, t, c, env, found, []);
    Then(One(chain, s, c, Resolve(found, 0, [])), c, env, One(chain, t, c, Resolve(found, |found|, [])),
         Nobody(chain, t));
    assert DeadRows(found, env.seen) + RowsOf([]) == DeadRows(found, env.seen);
  }

  lemma CandidatesLeave(chain: Chain, s: Store, c: nat, env: Env, found: seq<Candidate>) returns (d: Chain, t: Store)
    requires found == env.queued + env.pending && DistinctRows(found) && TrueAbout(chain, found, env.seen)
    requires forall k :: 0 <= k < |found| ==> InReclaim(s, found[k].row)
    requires var tx := BatchOf(Live(found, env.seen), env).tx;
             tx.covers != [] ==> !Holds(s.journal, tx) && Minable(chain, tx)
    ensures Leads(One(chain, s, c, Resolve(found, 0, [])), c, env, Nobody(d, t)) && BatchDone(s, t, env)
  {
    if Live(found, env.seen) == [] {
      t := DeadBatchLeaves(chain, s, c, env, found);
      d := chain;
    } else {
      t := LiveBatchLeaves(chain, s, c, env, found);
      d := Mined(chain, BatchOf(Live(found, env.seen), env).tx);
    }
    RowsAreKnown(s, t, env);
  }

  lemma NothingToDo(s: Store, env: Env)
    requires env.queued + env.pending == []
    ensures BatchDone(s, s, env)
  {
    forall r | r in s.rows ensures !Known(env.queued + env.pending, env.seen, r) {
    }
  }

  /** `executeReclaimBatch` from its first line, when no record is left to resume: with truthful answers
      and a transaction that the chain takes it ends having done with every listed row what its cell's
      status asks for, and nothing else. */
  lemma ABatchReclaims(chain: Chain, s: Store, c: nat, env: Env)
    requires s.journal == [] || s.journal[|s.journal| - 1].state != Submitted
    requires ListsRows(s, env.queued, ReclaimQueued) && ListsRows(s, env.pending, ReclaimPending)
    requires DistinctRows(env.queued + env.pending) && TrueAbout(chain, env.queued + env.pending, env.seen)
    requires var tx := BatchOf(Live(env.queued + env.pending, env.seen), env).tx;
             tx.covers != [] ==> !Holds(s.journal, tx) && Minable(chain, tx)
    ensures exists d, t :: EndsAs(One(chain, s, c, Start), c, env, Nobody(d, t)) && BatchDone(s, t, env)
  {
    var found := env.queued + env.pending;
    var d, t := chain, s;
    CandidatesAreListed(chain, s, c, env);
    if found == [] {
      NothingToDo(s, env);
    } else {
      ListedRows(s, env);
      d, t := CandidatesLeave(chain, s, c, env, found);
      Then(One(chain, s, c, Start), c, env, One(chain, s, c, Resolve(found, 0, [])), Nobody(d, t));
    }
    Ends(One(chain, s, c, Start), c, env, d, t);
  }

  // ---------------------------------------------------------------- resuming

  lemma RecordIsTaken(chain: Chain, s: Store, c: nat, env: Env, b: Batch)
    requires JournalOk(s) && s.journal != [] && s.journal[|s.journal| - 1] == RecordOf(b) && NotesAgree(b)
    ensures Leads(One(chain, s, c, Start), c, env, One(chain, s, c, Ask(b)))
  {
    assert RecordOk(s, s.journal[|s.journal| - 1]);
    ReclaimPurposeRoundTrip(b.ids);
    Return(chain, s, c, env, Start, s, Ask(b));
  }

  /** Where an honest answer about the record's transaction sends the caller. */
  ghost function Asked(chain: Chain, b: Batch): Pc {
    match HonestAnswer(chain, b.tx)
    case IsCommitted => Cas(b, true)
    case IsRejected => Abandon(b)
    case InPool => Wait(b, true, false)
    case Unknown => Send(b, true)
  }

  lemma AskIsAnswered(chain: Chain, s: Store, c: nat, env: Env, b: Batch)
    ensures Leads(One(chain, s, c, Ask(b)), c, env,
                  One(chain, if b.tx in chain.committed then s.(confirmed := s.confirmed + {b.tx}) else s, c,
                      Asked(chain, b)))
  {
    var w, e := One(chain, s, c, Ask(b)), Answer(c, HonestAnswer(chain, b.tx));
    assert b.tx in chain.committed ==> ToldCommitted(w, e);
    MovedAlone(chain, s, c, Ask(b), Outcome(Heard(w, e), Informed(w, e)));
    Next(w, c, env,
         One(chain, if b.tx in chain.committed then s.(confirmed := s.confirmed + {b.tx}) else s, c, Asked(chain, b)));
  }

  /** The record's transaction waits in the pool already and is mined. */
  lemma PooledIsCommitted(chain: Chain, s: Store, c: nat, env: Env, b: Batch)
    requires CanCommit(chain, b.tx)
    ensures Leads(One(chain, s, c, Wait(b, true, false)), c, env,
                  One(Evolve(chain, Mine(b.tx)), s.(confirmed := s.confirmed + {b.tx}), c, Cas(b, true)))
  {
    var mined := Evolve(chain, Mine(b.tx));
    WaitIsMined(chain, s, c, env, b, true, false);
    WaitIsOver(mined, s, c, env, b, true, false);
    Then(One(chain, s, c, Wait(b, true, false)), c, env, One(mined, s, c, Wait(b, true, false)),
         One(mined, s.(confirmed := s.confirmed + {b.tx}), c, Cas(b, true)));
  }

  /** A record that can never commit is given up, whether the node says so or has forgotten it and
      refuses it. */
  lemma DeadIsGivenUp(chain: Chain, s: Store, c: nat, env: Env, b: Batch)
    requires Dead(chain, b.tx)
    ensures Leads(One(chain, s, c, Ask(b)), c, env, One(chain, s, c, Abandon(b)))
  {
    AskIsAnswered(chain, s, c, env, b);
    if b.tx !in chain.condemned {
      var w := One(chain, s, c, Send(b, true));
      MovedAlone(chain, s, c, Send(b, true), Outcome(s, SendAnswered(b, true, SpentError)));
      Next(w, c, env, One(chain, s, c, Abandon(b)));
      Then(One(chain, s, c, Ask(b)), c, env, w, One(chain, s, c, Abandon(b)));
    }
  }

  lemma AskedIsWon(chain: Chain, s: Store, c: nat, env: Env, b: Batch) returns (d: Chain)
    requires b.tx in chain.committed || (Minable(chain, b.tx) && !Dead(chain, b.tx))
    ensures Leads(One(chain, s, c, Ask(b)), c, env, One(d, s.(confirmed := s.confirmed + {b.tx}), c, Cas(b, true)))
  {
    d := chain;
    AskIsAnswered(chain, s, c, env, b);
    if b.tx !in chain.committed {
      d := Mined(chain, b.tx);
      if b.tx in chain.seen {
        assert Deliver(chain, b.tx) == chain;
        PooledIsCommitted(chain, s, c, env, b);
      } else {
        SendIsCommitted(chain, s, c, env, b, true);
      }
      Then(One(chain, s, c, Ask(b)), c, env, One(chain, s, c, Asked(chain, b)),
           One(d, s.(confirmed := s.confirmed + {b.tx}), c, Cas(b, true)));
    }
  }

  /** The record of a crashed batch whose transaction is committed, or still can be, is seen through:
      rows, release and burn as if there had been no crash. */
  lemma AResumedBatchReclaims(chain: Chain, s: Store, c: nat, env: Env, b: Batch)
    requires JournalOk(s) && s.journal != [] && s.journal[|s.journal| - 1] == RecordOf(b) && NotesAgree(b)
    requires AllInReclaimed(s, b.ids, 0)
    requires b.tx in chain.committed || (Minable(chain, b.tx) && !Dead(chain, b.tx))
    ensures exists d, t :: EndsAs(One(chain, s, c, Start), c, env, Nobody(d, t)) && WonAs(s, t, b.tx, true)
  {
    var w, u := One(chain, s, c, Start), s.(confirmed := s.confirmed + {b.tx});
    RecordIsTaken(chain, s, c, env, b);
    var d := AskedIsWon(chain, s, c, env, b);
    Then(w, c, env, One(chain, s, c, Ask(b)), One(d, u, c, Cas(b, true)));
    assert IsIn(u.journal, b.tx, Submitted);
    var t := WinnerLeaves(d, u, c, env, b, true);
    Then(w, c, env, One(d, u, c, Cas(b, true)), Nobody(d, t));
    Ends(w, c, env, d, t);
  }

  lemma FirstIsRequeued(chain: Chain, s: Store, c: nat, env: Env, ids: seq<nat>, i: nat)
    requires i < |ids| && InReclaim(s, ids[i])
    ensures Leads(One(chain, s, c, Requeue(ids, i)), c, env,
                  One(chain, WithState(s, ids[i], ReclaimQueued), c, Requeue(ids, i + 1)))
  {
    Return(chain, s, c, env, Requeue(ids, i), WithState(s, ids[i], ReclaimQueued), Requeue(ids, i + 1));
  }

  lemma {:induction false} RowsAreRequeued(chain: Chain, s: Store, c: nat, env: Env, ids: seq<nat>, i: nat)
      returns (t: Store)
    requires i <= |ids| && forall k :: i <= k < |ids| ==> InReclaim(s, ids[k])
    ensures Leads(One(chain, s, c, Requeue(ids, i)), c, env, Nobody(chain, t))
    ensures Shown(s, t, ids[i..], ReclaimQueued) && t == s.(rows := t.rows)
    decreases |ids| - i
  {
    if i == |ids| {
      t := s;
      ReturnLast(chain, s, c, env, Requeue(ids, i), s);
    } else {
      var u := WithState(s, ids[i], ReclaimQueued);
      FirstIsRequeued(chain, s, c, env, ids, i);
      t := RowsAreRequeued(chain, u, c, env, ids, i + 1);
      Then(One(chain, s, c, Requeue(ids, i)), c, env, One(chain, u, c, Requeue(ids, i + 1)), Nobody(chain, t));
      ShownNext(s, u, t, ids, i, ReclaimQueued);
    }
  }

  /** The record of a crashed batch whose transaction can never commit is abandoned, its rows are
      queued again, and nothing is credited. */
  lemma ADeadBatchIsRequeued(chain: Chain, s: Store, c: nat, env: Env, b: Batch)
    requires JournalOk(s) && s.journal != [] && s.journal[|s.journal| - 1] == RecordOf(b) && NotesAgree(b)
    requires forall k :: 0 <= k < |b.ids| ==> InReclaim(s, b.ids[k])
    requires Dead(chain, b.tx)
    ensures exists t :: EndsAs(One(chain, s, c, Start), c, env, Nobody(chain, t))
              && Shown(s, t, b.ids, ReclaimQueued)
              && t == s.(rows := t.rows, journal := Marked(s.journal, b.tx, Abandoned))
  {
    var w, u := One(chain, s, c, Start), s.(journal := Marked(s.journal, b.tx, Abandoned));
    RecordIsTaken(chain, s, c, env, b);
    DeadIsGivenUp(chain, s, c, env, b);
    Then(w, c, env, One(chain, s, c, Ask(b)), One(chain, s, c, Abandon(b)));
    ThenReturn(w, chain, s, c, env, Abandon(b), u, Requeue(b.ids, 0));
    var t := RowsAreRequeued(chain, u, c, env, b.ids, 0);
    assert b.ids[0..] == b.ids;
    Then(w, c, env, One(chain, u, c, Requeue(b.ids, 0)), Nobody(chain, t));
    Ends(w, c, env, chain, t);
  }

  // ---------------------------------------------------------------- the pending scan

  lemma ScanIsTold(chain: Chain, s: Store, c: nat, env: Env, tx: Tx)
    requires tx in chain.committed
    ensures Leads(One(chain, s, c, WorkerAsk(tx)), c, env, One(chain, s.(confirmed := s.confirmed + {tx}), c, Start))
  {
    var w, e := One(chain, s, c, WorkerAsk(tx)), Answer(c, IsCommitted);
    assert ToldCommitted(w, e);
    MovedAlone(chain, s, c, WorkerAsk(tx), Outcome(Heard(w, e), Informed(w, e)));
    Next(w, c, env, One(chain, s.(confirmed := s.confirmed + {tx}), c, Start));
  }

  /** The pending scan sees the latest reclaim record through when its transaction is committed. */
  lemma AScanFinishesTheBatch(chain: Chain, s: Store, c: nat, env: Env, b: Batch)
    requires JournalOk(s) && s.journal != [] && s.journal[|s.journal| - 1] == RecordOf(b) && NotesAgree(b)
    requires AllInReclaimed(s, b.ids, 0) && b.tx in chain.committed
    ensures exists t :: EndsAs(One(chain, s, c, WorkerAsk(b.tx)), c, env, Nobody(chain, t)) && WonAs(s, t, b.tx, true)
  {
    var w, u := One(chain, s, c, WorkerAsk(b.tx)), s.(confirmed := s.confirmed + {b.tx});
    ScanIsTold(chain, s, c, env, b.tx);
    RecordIsTaken(chain, u, c, env, b);
    Then(w, c, env, One(chain, u, c, Start), One(chain, u, c, Ask(b)));
    AskIsAnswered(chain, u, c, env, b);
    Then(w, c, env, One(chain, u, c, Ask(b)), One(chain, u.(confirmed := u.confirmed + {b.tx}), c, Cas(b, true)));
    assert u.(confirmed := u.confirmed + {b.tx}) == u && IsIn(u.journal, b.tx, Submitted);
    var t := WinnerLeaves(chain, u, c, env, b, true);
    Then(w, c, env, One(chain, u, c, Cas(b, true)), Nobody(chain, t));
    Ends(w, c, env, chain, t);
  }

  /** It marks a rejected record and leaves everything else, also a record whose transaction it hears
      nothing final of. */
  lemma AScanMarksTheRejected(chain: Chain, s: Store, c: nat, env: Env, tx: Tx)
    requires tx !in chain.committed
    ensures EndsAs(One(chain, s, c, WorkerAsk(tx)), c, env,
                   Nobody(chain, if tx in chain.condemned then s.(journal := Marked(s.journal, tx, RejectedTx)) else s))
  {
    var w, answer := One(chain, s, c, WorkerAsk(tx)), HonestAnswer(chain, tx);
    MovedAlone(chain, s, c, WorkerAsk(tx), Outcome(s, StatusAnswered(WorkerAsk(tx), answer)));
    var t := s.(journal := Marked(s.journal, tx, RejectedTx));
    if tx in chain.condemned {
      Next(w, c, env, One(chain, s, c, WorkerReject(tx)));
      ReturnLast(chain, s, c, env, WorkerReject(tx), t);
      Then(w, c, env, One(chain, s, c, WorkerReject(tx)), Nobody(chain, t));
      Ends(w, c, env, chain, t);
    } else {
      Next(w, c, env, Nobody(chain, s));
      Ends(w, c, env, chain, s);
    }
  }
}
