/** The promise-chain mutex and the SQLite adapter's `transaction` and `close` above it. Any number
    of callers, interleaved at every await; a statement may fail anywhere. */
module AsyncMutex {

  datatype Kind = Transaction | Close

  /** What the lock holder does next. */
  datatype Stage = Entered | InBody | Committing | RollingBack

  datatype Pc = Waiting | Holding(stage: Stage) | Released

  /** One `runExclusive` call: it waits for the promise that was the tail when it was called, and
      resolves its own when its section has settled. */
  datatype Caller = Caller(kind: Kind, previous: nat, own: nat, pc: Pc)

  datatype Entry = Begin(i: nat) | Commit(i: nat) | Rollback(i: nat) | RollbackFails(i: nat) | Closed

  /** `callers` in call order, `queue` the tail promise, `stuck` a transaction left open by a failed
      ROLLBACK, `log` the statements that reached the connection, `entered` the callers in the
      order their sections began. */
  datatype World = World(callers: seq<Caller>, queue: nat, unused: nat, resolved: set<nat>, closed: bool, stuck: bool,
                         log: seq<Entry>, entered: seq<nat>)

  datatype Event = Call(kind: Kind) | Enter(i: nat) | Next(i: nat, ok: bool)

  const Start := World([], 0, 1, {0}, false, false, [], [])

  function Moved(w: World, i: nat, pc: Pc): World
    requires i < |w.callers|
  {
    w.(callers := w.callers[i := w.callers[i].(pc := pc)])
  }

  /** The `finally`: reached whether the section returned or threw. */
  function Release(w: World, i: nat): World
    requires i < |w.callers|
  {
    Moved(w, i, Released).(resolved := w.resolved + {w.callers[i].own})
  }

  function Logged(w: World, e: Entry): World {
    w.(log := w.log + [e])
  }

  /** One await's worth of the holder's section; `ok` is how the statement or the body came out.
      BEGIN stands outside the try, so its failure, or a connection closed meanwhile, rolls nothing
      back; nor does it succeed inside a transaction that is still open. A failed COMMIT is
      rolled back. A ROLLBACK may fail too and then leaves its transaction open (one that throws
      because there is nothing left to roll back counts as done); the lock is released all the same. */
  function Advance(w: World, i: nat, stage: Stage, ok: bool): World
    requires i < |w.callers|
  {
    match w.callers[i].kind
    case Transaction => (
      match stage
      case Entered =>
        if w.closed || w.stuck || !ok then Release(w, i) else Logged(Moved(w, i, Holding(InBody)), Begin(i))
      case InBody => Moved(w, i, Holding(if ok then Committing else RollingBack))
      case Committing => if ok then Logged(Release(w, i), Commit(i)) else Moved(w, i, Holding(RollingBack))
      case RollingBack =>
        if ok then Logged(Release(w, i), Rollback(i))
        else Logged(Release(w, i), RollbackFails(i)).(stuck := true))
    case Close =>
      if w.closed || !ok then Release(w, i) else Logged(Release(w, i), Closed).(closed := true)
  }

  function Step(w: World, e: Event): World {
    match e
    case Call(kind) =>
      if w.closed then w
      else
        w.(callers := w.callers + [Caller(kind, w.queue, w.unused, Waiting)], queue := w.unused, unused := w.unused + 1)
    case Enter(i) =>
      if i < |w.callers| && w.callers[i].pc == Waiting && w.callers[i].previous in w.resolved
      then Moved(w, i, Holding(Entered)).(entered := w.entered + [i]) else w
    case Next(i, ok) =>
      if i < |w.callers| && w.callers[i].pc.Holding? then Advance(w, i, w.callers[i].pc.stage, ok) else w
  }

  function Run(w: World, events: seq<Event>): World
    decreases |events|
  {
    if events == [] then w else Run(Step(w, events[0]), events[1..])
  }

  // ---------------------------------------------------------------- reading the log

  /** Where the connection stands after some statements. */
  datatype Connection = Idle | Open(i: nat) | Stuck(i: nat) | Shut | ShutInside(i: nat) | Broken

  function After(c: Connection, e: Entry): Connection {
    match e
    case Begin(i) => if c == Idle then Open(i) else Broken
    case Commit(i) => if c == Open(i) then Idle else Broken
    case Rollback(i) => if c == Open(i) then Idle else Broken
    case RollbackFails(i) => if c == Open(i) then Stuck(i) else Broken
    case Closed => if c == Idle then Shut else if c.Stuck? then ShutInside(c.i) else Broken
  }

  function Reading(log: seq<Entry>): Connection {
    if log == [] then Idle else After(Reading(log[..|log| - 1]), log[|log| - 1])
  }

  predicate InTransaction(c: Caller) {
    c.kind == Transaction && c.pc.Holding? && c.pc.stage != Entered
  }

  // ---------------------------------------------------------------- the invariant

  /** Every caller waits for the one called before it, and whoever has started has all earlier
      callers behind it. */
  ghost predicate ChainInv(w: World) {
    && w.queue == |w.callers| && w.unused == |w.callers| + 1 && 0 in w.resolved
    && (forall i :: 0 <= i < |w.callers| ==> w.callers[i].previous == i && w.callers[i].own == i + 1)
    && (forall i :: 0 <= i < |w.callers| ==> (w.callers[i].own in w.resolved <==> w.callers[i].pc == Released))
    && (forall i, j :: 0 <= i < j < |w.callers| && w.callers[j].pc != Waiting ==> w.callers[i].pc == Released)
    && (forall p :: p in w.resolved ==> 0 <= p <= |w.callers|)
  }

  ghost predicate OrderInv(w: World) {
    && |w.entered| <= |w.callers|
    && (forall k :: 0 <= k < |w.entered| ==> w.entered[k] == k)
    && (forall i :: 0 <= i < |w.callers| ==> (w.callers[i].pc == Waiting <==> i >= |w.entered|))
  }

  /** The connection is in the transaction of whoever is inside one. */
  ghost predicate Agrees(callers: seq<Caller>, closed: bool, stuck: bool, c: Connection) {
    && (forall i :: 0 <= i < |callers| && InTransaction(callers[i]) ==> c == Open(i))
    && (c.Open? ==> c.i < |callers| && InTransaction(callers[c.i]))
    && (c == Shut || c.ShutInside? <==> closed)
    && (c.Stuck? || c.ShutInside? <==> stuck)
    && c != Broken
  }

  ghost predicate LogInv(w: World) {
    Agrees(w.callers, w.closed, w.stuck, Reading(w.log))
  }

  ghost predicate Inv(w: World) {
    ChainInv(w) && OrderInv(w) && LogInv(w)
  }

  lemma ReadingAppends(log: seq<Entry>, e: Entry)
    ensures Reading(log + [e]) == After(Reading(log), e)
  {
    assert (log + [e])[..|log|] == log;
  }

  lemma CallKeeps(w: World, e: Event)
    requires Inv(w) && e.Call?
    ensures Inv(Step(w, e))
  {
  }

  /** A caller whose turn has come has every earlier one behind it, and is the next to enter. */
  lemma TurnHasCome(w: World, i: nat)
    requires ChainInv(w) && OrderInv(w) && i < |w.callers|
    requires w.callers[i].pc == Waiting && w.callers[i].previous in w.resolved
    ensures i == |w.entered| && forall j :: 0 <= j < i ==> w.callers[j].pc == Released
  {
    if i > 0 {
      assert w.callers[i - 1].own in w.resolved;
    }
  }

  lemma EnterKeeps(w: World, e: Event)
    requires Inv(w) && e.Enter?
    ensures Inv(Step(w, e))
  {
    if e.i < |w.callers| && w.callers[e.i].pc == Waiting && w.callers[e.i].previous in w.resolved {
      TurnHasCome(w, e.i);
      var t := Step(w, e);
      assert forall j :: 0 <= j < |w.callers| && j != e.i ==> t.callers[j] == w.callers[j];
      assert ChainInv(t);
      assert OrderInv(t);
      assert !InTransaction(w.callers[e.i]) && !InTransaction(t.callers[e.i]);
    }
  }

  /** A holder that moves on, releasing or not, leaves the chain and the order in place. */
  lemma HolderMoves(w: World, t: World, i: nat, pc: Pc)
    requires ChainInv(w) && OrderInv(w) && i < |w.callers| && w.callers[i].pc.Holding? && pc != Waiting
    requires t.callers == w.callers[i := w.callers[i].(pc := pc)]
    requires t.queue == w.queue && t.unused == w.unused && t.entered == w.entered
    requires t.resolved == if pc == Released then w.resolved + {w.callers[i].own} else w.resolved
    ensures ChainInv(t) && OrderInv(t)
    ensures forall j :: 0 <= j < |w.callers| && j != i ==> !w.callers[j].pc.Holding? && t.callers[j] == w.callers[j]
  {
    assert forall j :: 0 <= j < |w.callers| && j != i ==>
      t.callers[j] == w.callers[j] && w.callers[j].own != w.callers[i].own;
  }

  lemma NextKeeps(w: World, e: Event)
    requires Inv(w) && e.Next?
    ensures Inv(Step(w, e))
  {
    if e.i < |w.callers| && w.callers[e.i].pc.Holding? {
      var t := Step(w, e);
      HolderMoves(w, t, e.i, t.callers[e.i].pc);
      LogKeeps(w, e.i, w.callers[e.i].pc.stage, e.ok);
    }
  }

  lemma LogKeeps(w: World, i: nat, stage: Stage, ok: bool)
    requires LogInv(w) && i < |w.callers| && w.callers[i].pc == Holding(stage)
    requires forall j :: 0 <= j < |w.callers| && j != i ==> !w.callers[j].pc.Holding?
    ensures LogInv(Advance(w, i, stage, ok))
  {
    var t := Advance(w, i, stage, ok);
    var c := Reading(w.log);
    StepAgrees(w, i, stage, ok, c);
    if t.log != w.log {
      ReadingAppends(w.log, t.log[|w.log|]);
      assert t.log == w.log + [t.log[|w.log|]];
    }
  }

  lemma StepAgrees(w: World, i: nat, stage: Stage, ok: bool, c: Connection)
    requires Agrees(w.callers, w.closed, w.stuck, c) && i < |w.callers| && w.callers[i].pc == Holding(stage)
    requires forall j :: 0 <= j < |w.callers| && j != i ==> !w.callers[j].pc.Holding?
    ensures var t := Advance(w, i, stage, ok);
            && (t.log == w.log || (|t.log| == |w.log| + 1 && t.log[..|w.log|] == w.log))
            && Agrees(t.callers, t.closed, t.stuck, if t.log == w.log then c else After(c, t.log[|w.log|]))
  {
    var t := Advance(w, i, stage, ok);
    assert forall j :: 0 <= j < |w.callers| && j != i ==> t.callers[j] == w.callers[j];
    if w.callers[i].kind == Transaction {
      assert stage != Entered ==> InTransaction(w.callers[i]);
    } else {
      assert !InTransaction(w.callers[i]);
    }
  }

  lemma {:induction false} RunKeeps(w: World, events: seq<Event>)
    requires Inv(w)
    ensures Inv(Run(w, events))
    decreases |events|
  {
    if events != [] {
      if events[0].Call? {
        CallKeeps(w, events[0]);
      } else if events[0].Enter? {
        EnterKeeps(w, events[0]);
      } else {
        NextKeeps(w, events[0]);
      }
      RunKeeps(Step(w, events[0]), events[1..]);
    }
  }

  // ---------------------------------------------------------------- results

  /** However many callers there are, two never hold the lock at once. */
  lemma MutualExclusion(events: seq<Event>, i: nat, j: nat)
    requires var callers := Run(Start, events).callers;
             i < |callers| && j < |callers| && callers[i].pc.Holding? && callers[j].pc.Holding?
    ensures i == j
  {
    RunKeeps(Start, events);
  }

  /** Sections begin in the order of the calls, none left out. */
  lemma EntryInCallOrder(events: seq<Event>)
    ensures var w := Run(Start, events);
            |w.entered| <= |w.callers| && forall k :: 0 <= k < |w.entered| ==> w.entered[k] == k
  {
    RunKeeps(Start, events);
  }

  function Progress(pc: Pc): nat {
    match pc
    case Waiting => 0
    case Holding(Entered) => 1
    case Holding(InBody) => 2
    case Holding(Committing) => 3
    case Holding(RollingBack) => 4
    case Released => 5
  }

  /** The queue is never wedged: while a caller is unserved, the first unserved one can move, and
      does so whichever way its statement comes out. */
  lemma NeverWedged(events: seq<Event>, i: nat, ok: bool)
    requires var callers := Run(Start, events).callers;
             i < |callers| && callers[i].pc != Released && forall j :: 0 <= j < i ==> callers[j].pc == Released
    ensures var w := Run(Start, events);
            var e := if w.callers[i].pc == Waiting then Enter(i) else Next(i, ok);
            |Step(w, e).callers| == |w.callers| && Progress(Step(w, e).callers[i].pc) > Progress(w.callers[i].pc)
  {
    RunKeeps(Start, events);
    var w := Run(Start, events);
    if w.callers[i].pc == Waiting {
      FirstCanEnter(w, i);
    } else {
      HolderCanMove(w, i, ok);
    }
  }

  lemma FirstCanEnter(w: World, i: nat)
    requires ChainInv(w) && i < |w.callers| && w.callers[i].pc == Waiting
    requires forall j :: 0 <= j < i ==> w.callers[j].pc == Released
    ensures Step(w, Enter(i)).callers == w.callers[i := w.callers[i].(pc := Holding(Entered))]
  {
    if i > 0 {
      assert w.callers[i - 1].own in w.resolved;
    }
  }

  lemma HolderCanMove(w: World, i: nat, ok: bool)
    requires i < |w.callers| && w.callers[i].pc.Holding?
    ensures var v := Step(w, Next(i, ok));
            |v.callers| == |w.callers| && Progress(v.callers[i].pc) > Progress(w.callers[i].pc)
  {
  }

  predicate NoFailedRollback(log: seq<Entry>) {
    forall k :: 0 <= k < |log| ==> !log[k].RollbackFails?
  }

  /** Read from front to back, the statements on the connection are whole transactions one after
      the other, each ended by its own COMMIT or ROLLBACK, and nothing follows a close. A close falls
      between a BEGIN and its end exactly when a ROLLBACK before it failed. */
  lemma ClosesFallBetweenTransactions(events: seq<Event>)
    ensures Reading(Run(Start, events).log) != Broken
    ensures var log := Run(Start, events).log;
            forall k :: 0 <= k < |log| && log[k] == Closed
              ==> && k == |log| - 1
                  && (Reading(log[..k]) == Idle <==> NoFailedRollback(log[..k]))
                  && (Reading(log[..k]) != Idle ==> Reading(log[..k]).Stuck?)
  {
    RunKeeps(Start, events);
    var log := Run(Start, events).log;
    forall k | 0 <= k < |log| && log[k] == Closed
      ensures k == |log| - 1 && (Reading(log[..k]) == Idle || Reading(log[..k]).Stuck?)
      ensures Reading(log[..k]) == Idle <==> NoFailedRollback(log[..k])
    {
      ReadsOn(log, k + 1);
      assert log[..k + 1][..k] == log[..k];
      ReadsOn(log, k);
      StuckAfterAFailure(log[..k]);
    }
  }

  /** After a failed ROLLBACK no transaction ever begins again: at most a close follows, and it
      falls inside the transaction left open. */
  lemma AFailedRollbackIsTheLast(events: seq<Event>, k: nat)
    requires k < |Run(Start, events).log| && Run(Start, events).log[k].RollbackFails?
    ensures var log := Run(Start, events).log;
            && NoFailedRollback(log[..k])
            && (k == |log| - 1 || (k == |log| - 2 && log[k + 1] == Closed))
  {
    RunKeeps(Start, events);
    var log := Run(Start, events).log;
    ReadsOn(log, k + 1);
    assert log[..k + 1][..k] == log[..k];
    ReadsOn(log, k);
    StuckAfterAFailure(log[..k]);
    if k + 1 < |log| {
      OnlyACloseFollows(log, k + 1);
    }
  }

  lemma StepThenRun(w: World, e: Event, rest: seq<Event>)
    ensures Run(w, [e] + rest) == Run(Step(w, e), rest)
  {
    assert ([e] + rest)[1..] == rest;
  }

  /** A transaction that has begun, with a close queued behind it. */
  function Begun(): World {
    Step(Step(Step(Step(Start, Call(Transaction)), Call(Close)), Enter(0)), Next(0, true))
  }

  /** The body throws, ROLLBACK fails, the queued close goes ahead. */
  function Abandoned(w: World): World {
    Step(Step(Step(Step(w, Next(0, false)), Next(0, false)), Enter(1)), Next(1, true))
  }

  lemma FourSteps(w: World, a: Event, b: Event, c: Event, d: Event, rest: seq<Event>)
    ensures Run(w, [a] + ([b] + ([c] + ([d] + rest)))) == Run(Step(Step(Step(Step(w, a), b), c), d), rest)
  {
    StepThenRun(w, a, [b] + ([c] + ([d] + rest)));
    StepThenRun(Step(w, a), b, [c] + ([d] + rest));
    StepThenRun(Step(Step(w, a), b), c, [d] + rest);
    StepThenRun(Step(Step(Step(w, a), b), c), d, rest);
  }

  lemma BegunFacts()
    ensures var w := Begun();
            && w.callers == [Caller(Transaction, 0, 1, Holding(InBody)), Caller(Close, 1, 2, Waiting)]
            && w.log == [Begin(0)] && !w.closed && !w.stuck && w.resolved == {0}
  {
  }

  lemma AbandonedFacts(w: World)
    requires w.callers == [Caller(Transaction, 0, 1, Holding(InBody)), Caller(Close, 1, 2, Waiting)]
    requires w.log == [Begin(0)] && !w.closed && !w.stuck && w.resolved == {0}
    ensures Abandoned(w).log == [Begin(0), RollbackFails(0), Closed]
  {
  }

  /** Such a run. */
  lemma ACloseInsideATransaction()
    ensures var events := [Call(Transaction), Call(Close), Enter(0), Next(0, true), Next(0, false), Next(0, false),
                           Enter(1), Next(1, true)];
            var log := Run(Start, events).log;
            log == [Begin(0), RollbackFails(0), Closed] && Reading(log) == ShutInside(0)
  {
    TheRun();
    BegunFacts();
    AbandonedFacts(Begun());
    ShutInsideReads();
  }

  lemma ShutInsideReads()
    ensures Reading([Begin(0), RollbackFails(0), Closed]) == ShutInside(0)
  {
    ReadingAppends([], Begin(0));
    ReadingAppends([Begin(0)], RollbackFails(0));
    ReadingAppends([Begin(0), RollbackFails(0)], Closed);
  }

  lemma TheRun()
    ensures Run(Start, [Call(Transaction), Call(Close), Enter(0), Next(0, true), Next(0, false), Next(0, false),
                        Enter(1), Next(1, true)]) == Abandoned(Begun())
  {
    var last := [Next(0, false)] + ([Next(0, false)] + ([Enter(1)] + ([Next(1, true)] + [])));
    assert [Call(Transaction), Call(Close), Enter(0), Next(0, true), Next(0, false), Next(0, false),
            Enter(1), Next(1, true)]
        == [Call(Transaction)] + ([Call(Close)] + ([Enter(0)] + ([Next(0, true)] + last)));
    FourSteps(Start, Call(Transaction), Call(Close), Enter(0), Next(0, true), last);
    FourSteps(Begun(), Next(0, false), Next(0, false), Enter(1), Next(1, true), []);
  }

  /** A log that reads well is stuck exactly when some ROLLBACK in it failed. */
  lemma {:induction false} StuckAfterAFailure(log: seq<Entry>)
    requires Reading(log) != Broken
    ensures Reading(log).Stuck? || Reading(log).ShutInside? <==> !NoFailedRollback(log)
    decreases |log|
  {
    if log != [] {
      var short := log[..|log| - 1];
      StuckAfterAFailure(short);
      assert forall k :: 0 <= k < |short| ==> short[k] == log[k];
    }
  }

  /** A log that reads well was read well all along, and nothing follows a close. */
  lemma {:induction false} ReadsOn(log: seq<Entry>, k: nat)
    requires k <= |log| && Reading(log) != Broken
    ensures Reading(log[..k]) != Broken
    ensures Reading(log[..k]) == Shut || Reading(log[..k]).ShutInside? ==> k == |log|
    decreases |log|
  {
    if k < |log| {
      var short := log[..|log| - 1];
      ReadsOn(short, k);
      assert short[..k] == log[..k];
    } else {
      assert log[..k] == log;
    }
  }

  lemma OnlyACloseFollows(log: seq<Entry>, k: nat)
    requires k < |log| && Reading(log) != Broken && Reading(log[..k]).Stuck?
    ensures log[k] == Closed && k == |log| - 1
  {
    assert log[..k + 1] == log[..k] + [log[k]];
    ReadingAppends(log[..k], log[k]);
    ReadsOn(log, k + 1);
  }
}
