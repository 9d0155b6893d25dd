/** Which statements a transaction issues, and how it ends, told from how its statements and its body
    came out. */
module TransactionEndings {
  import opened AsyncMutex

  /** How one await of a caller came out: the result, and whether the connection was usable then,
      neither closed nor inside a transaction that a failed ROLLBACK left open. */
  datatype Result = Result(ok: bool, usable: bool)

  predicate Usable(log: seq<Entry>) {
    Closed !in log && forall e :: e in log ==> !e.RollbackFails?
  }

  function ResultOf(w: World, e: Event, i: nat): seq<Result> {
    if e.Next? && e.i == i < |w.callers| && w.callers[i].pc.Holding? then [Result(e.ok, Usable(w.log))] else []
  }

  /** The results a caller has had in a run, in order. */
  function Results(w: World, events: seq<Event>, i: nat): seq<Result>
    decreases |events|
  {
    if events == [] then [] else ResultOf(w, events[0], i) + Results(Step(w, events[0]), events[1..], i)
  }

  // ---------------------------------------------------------------- what the results say

  /** BEGIN came out well on a usable connection. */
  predicate Began(r: seq<Result>) {
    r != [] && r[0].ok && r[0].usable
  }

  /** So did the body and the COMMIT. */
  predicate CommitOk(r: seq<Result>) {
    Began(r) && |r| == 3 && r[1].ok && r[2].ok
  }

  /** The body failed, or the COMMIT did, and the ROLLBACK has come out. */
  predicate RolledBack(r: seq<Result>) {
    Began(r) && ((|r| == 3 && !r[1].ok) || (|r| == 4 && r[1].ok && !r[2].ok))
  }

  /** How the ROLLBACK came out. */
  predicate RollbackOk(r: seq<Result>)
    requires RolledBack(r)
  {
    if r[1].ok then r[3].ok else r[2].ok
  }

  /** The results a transaction can have had where it is now. */
  predicate Fits(pc: Pc, r: seq<Result>) {
    match pc
    case Waiting => r == []
    case Holding(Entered) => r == []
    case Holding(InBody) => Began(r) && |r| == 1
    case Holding(Committing) => Began(r) && |r| == 2 && r[1].ok
    case Holding(RollingBack) => Began(r) && ((|r| == 2 && !r[1].ok) || (|r| == 3 && r[1].ok && !r[2].ok))
    case Released => r != [] && (Began(r) ==> CommitOk(r) || RolledBack(r))
  }

  /** A transaction's statements in the log are the ones its results call for. */
  ghost predicate Told(log: seq<Entry>, i: nat, r: seq<Result>) {
    && (Begin(i) in log <==> Began(r))
    && (Commit(i) in log <==> CommitOk(r))
    && (Rollback(i) in log <==> RolledBack(r) && RollbackOk(r))
    && (RollbackFails(i) in log <==> RolledBack(r) && !RollbackOk(r))
  }

  ghost predicate NothingTold(log: seq<Entry>, i: nat) {
    Begin(i) !in log && Commit(i) !in log && Rollback(i) !in log && RollbackFails(i) !in log
  }

  /** The flags say what the log says. */
  ghost predicate FlagsOk(w: World) {
    (w.closed <==> Closed in w.log) && (w.stuck <==> exists e :: e in w.log && e.RollbackFails?)
  }

  ghost predicate CallerOk(w: World, i: nat, r: seq<Result>) {
    if i < |w.callers| && w.callers[i].kind == Transaction then Fits(w.callers[i].pc, r) && Told(w.log, i, r)
    else NothingTold(w.log, i) && (i < |w.callers| && w.callers[i].pc == Released ==> r != [])
         && (r != [] ==> i < |w.callers| && w.callers[i].pc == Released && (r[0].ok ==> w.closed))
  }

  ghost predicate StoryOk(w: World, i: nat, r: seq<Result>) {
    FlagsOk(w) && CallerOk(w, i, r)
  }

  /** What a step adds to the log is of the caller that makes it. */
  lemma LogGrows(w: World, e: Event)
    ensures var v := Step(w, e);
            v.log == w.log || (e.Next? && |v.log| == |w.log| + 1 && v.log == w.log + [v.log[|w.log|]]
                               && Of(v.log[|w.log|], e.i))
  {
  }

  predicate Of(e: Entry, i: nat) {
    e == Begin(i) || e == Commit(i) || e == Rollback(i) || e == RollbackFails(i) || e == Closed
  }

  lemma StepKeepsFlags(w: World, e: Event)
    requires FlagsOk(w)
    ensures FlagsOk(Step(w, e))
  {
    LogGrows(w, e);
  }

  lemma OthersMoveOn(w: World, e: Event, i: nat)
    requires e.Next? && e.i != i
    ensures var v := Step(w, e);
            && |v.callers| == |w.callers| && (i < |w.callers| ==> v.callers[i] == w.callers[i])
            && (w.closed ==> v.closed)
            && (forall entry :: entry != Closed && entry in v.log && entry !in w.log ==> Of(entry, e.i))
            && (forall entry :: entry in w.log ==> entry in v.log)
  {
    LogGrows(w, e);
  }

  lemma OthersTellNothing(w: World, e: Event, i: nat, r: seq<Result>)
    requires StoryOk(w, i, r) && !(e.Next? && e.i == i)
    ensures CallerOk(Step(w, e), i, r) && ResultOf(w, e, i) == []
  {
    if e.Next? {
      OthersMoveOn(w, e, i);
    }
  }

  lemma OwnStepTells(w: World, ok: bool, i: nat, r: seq<Result>)
    requires StoryOk(w, i, r) && i < |w.callers| && w.callers[i].kind == Transaction && w.callers[i].pc.Holding?
    ensures CallerOk(Step(w, Next(i, ok)), i, r + [Result(ok, Usable(w.log))])
  {
    LogGrows(w, Next(i, ok));
  }

  lemma ClosingTells(w: World, ok: bool, i: nat, r: seq<Result>)
    requires StoryOk(w, i, r) && i < |w.callers| && w.callers[i].kind == Close && w.callers[i].pc.Holding?
    ensures CallerOk(Step(w, Next(i, ok)), i, r + [Result(ok, Usable(w.log))])
  {
    LogGrows(w, Next(i, ok));
  }

  lemma StepTells(w: World, e: Event, i: nat, r: seq<Result>)
    requires StoryOk(w, i, r)
    ensures StoryOk(Step(w, e), i, r + ResultOf(w, e, i))
  {
    StepKeepsFlags(w, e);
    if ResultOf(w, e, i) == [] {
      assert r + [] == r;
      if !(e.Next? && e.i == i) {
        OthersTellNothing(w, e, i, r);
      }
    } else if w.callers[i].kind == Transaction {
      OwnStepTells(w, e.ok, i, r);
    } else {
      ClosingTells(w, e.ok, i, r);
    }
  }

  lemma Associate(a: seq<Result>, b: seq<Result>, c: seq<Result>)
    ensures a + (b + c) == (a + b) + c
  {
  }

  lemma {:induction false} RunTells(w: World, events: seq<Event>, i: nat, r: seq<Result>)
    requires StoryOk(w, i, r)
    ensures StoryOk(Run(w, events), i, r + Results(w, events, i))
    decreases |events|
  {
    if events == [] {
      assert r + [] == r;
    } else {
      StepTells(w, events[0], i, r);
      RunTells(Step(w, events[0]), events[1..], i, r + ResultOf(w, events[0], i));
      Associate(r, ResultOf(w, events[0], i), Results(Step(w, events[0]), events[1..], i));
    }
  }

  // ---------------------------------------------------------------- results

  /** After any run, for every transaction: BEGIN is on the connection iff it came out well while
      the connection was neither closed nor inside a transaction left open; COMMIT iff the body and
      the COMMIT then came out well; ROLLBACK, successful or failed, iff one of these two failed and
      the ROLLBACK then came out so. */
  lemma EachTransactionHasItsEnding(events: seq<Event>, i: nat)
    requires var callers := Run(Start, events).callers; i < |callers| && callers[i].kind == Transaction
    ensures var log, r := Run(Start, events).log, Results(Start, events, i);
            && (Begin(i) in log <==> |r| > 0 && r[0].ok && r[0].usable)
            && (Commit(i) in log <==> Begin(i) in log && |r| > 2 && r[1].ok && r[2].ok)
            && (Rollback(i) in log || RollbackFails(i) in log
                <==> Begin(i) in log && |r| > 2 && (!r[1].ok || (|r| > 3 && !r[2].ok)))
            && (Rollback(i) in log ==> r[|r| - 1].ok) && (RollbackFails(i) in log ==> !r[|r| - 1].ok)
    ensures Run(Start, events).callers[i].pc == Released ==>
              var log, r := Run(Start, events).log, Results(Start, events, i);
              |r| > 0 && (Begin(i) in log ==> Commit(i) in log || Rollback(i) in log || RollbackFails(i) in log)
  {
    RunTells(Start, events, i, []);
    assert [] + Results(Start, events, i) == Results(Start, events, i);
  }

  lemma {:induction false} ResultsAppend(w: World, a: seq<Event>, b: seq<Event>, i: nat)
    ensures Run(w, a + b) == Run(Run(w, a), b)
    ensures Results(w, a + b, i) == Results(w, a, i) + Results(Run(w, a), b, i)
    decreases |a|
  {
    if a == [] {
      assert a + b == b;
      assert [] + Results(w, b, i) == Results(w, b, i);
    } else {
      assert (a + b)[0] == a[0] && (a + b)[1..] == a[1..] + b;
      ResultsAppend(Step(w, a[0]), a[1..], b, i);
      Associate(ResultOf(w, a[0], i), Results(Step(w, a[0]), a[1..], i), Results(Run(w, a), b, i));
    }
  }

  ghost predicate ClosedWell(events: seq<Event>, i: nat) {
    && i < |Run(Start, events).callers| && Run(Start, events).callers[i].kind == Close
    && Results(Start, events, i) != [] && Results(Start, events, i)[0].ok
  }

  lemma GoodClosesClose(events: seq<Event>, i: nat)
    requires ClosedWell(events, i)
    ensures Closed in Run(Start, events).log
  {
    RunTells(Start, events, i, []);
    assert [] + Results(Start, events, i) == Results(Start, events, i);
  }

  /** Only a close puts it there. */
  lemma OnlyClosesClose(w: World, e: Event)
    requires Closed in Step(w, e).log && Closed !in w.log
    ensures e.Next? && e.ok && e.i < |w.callers| && w.callers[e.i].kind == Close && w.callers[e.i].pc.Holding?
    ensures |Step(w, e).callers| == |w.callers| && Step(w, e).callers[e.i].kind == Close
  {
    LogGrows(w, e);
  }

  lemma CloseIsItsFirstResult(events: seq<Event>, e: Event)
    requires Closed in Run(Start, events + [e]).log && Closed !in Run(Start, events).log
    ensures e.Next? && ClosedWell(events + [e], e.i)
  {
    var w := Run(Start, events);
    ResultsAppend(Start, events, [e], 0);
    assert [e][1..] == [];
    OnlyClosesClose(w, e);
    ResultsAppend(Start, events, [e], e.i);
    RunTells(Start, events, e.i, []);
    assert [] + Results(Start, events, e.i) == Results(Start, events, e.i);
    assert Results(w, [e], e.i) == ResultOf(w, e, e.i);
  }

  lemma CallersStay(w: World, e: Event, i: nat)
    requires i < |w.callers|
    ensures i < |Step(w, e).callers| && Step(w, e).callers[i].kind == w.callers[i].kind
  {
  }

  lemma ClosedWellStays(events: seq<Event>, e: Event, i: nat)
    requires ClosedWell(events, i)
    ensures ClosedWell(events + [e], i)
  {
    ResultsAppend(Start, events, [e], i);
    CallersStay(Run(Start, events), e, i);
    assert Run(Run(Start, events), [e]) == Step(Run(Start, events), e);
  }

  lemma {:induction false} SomeCloseClosed(events: seq<Event>) returns (i: nat)
    requires Closed in Run(Start, events).log
    ensures ClosedWell(events, i)
    decreases |events|
  {
    var before, last := events[..|events| - 1], events[|events| - 1];
    assert events == before + [last];
    if Closed in Run(Start, before).log {
      i := SomeCloseClosed(before);
      ClosedWellStays(before, last, i);
    } else {
      CloseIsItsFirstResult(before, last);
      i := last.i;
    }
  }

  /** The connection is closed iff some caller's close came out well. */
  lemma AGoodCloseCloses(events: seq<Event>)
    ensures Closed in Run(Start, events).log <==> exists i: nat :: ClosedWell(events, i)
  {
    if Closed in Run(Start, events).log {
      var i := SomeCloseClosed(events);
    }
    forall i: nat | ClosedWell(events, i) ensures Closed in Run(Start, events).log {
      GoodClosesClose(events, i);
    }
  }
}
