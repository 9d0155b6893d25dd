/** What a publish call achieves when nothing disturbs it: the awaited calls return, the builder
    returns a transaction, the node accepts what it is sent, mines it and says so. */
module PublisherArrives {
  import opened Options
  import opened MessageStates
  import opened Chain
  import opened Journal
  import opened Publisher
  import U = Undisturbed

  /** What the call is waiting for, when all goes well; `built` is what the builder would return. */
  ghost function Prompt(w: World, built: Tx): Event {
    match w.pc
    case Build => Built(built)
    case Send(tx) => Sent(HonestSend(w.chain, tx), !Dead(w.chain, tx))
    case ResumeSend(tx, _) => Sent(HonestSend(w.chain, tx), !Dead(w.chain, tx))
    case ResumeAsk(tx, _) => Answer(HonestAnswer(w.chain, tx))
    case ResumeWait(tx, _) => if tx in w.chain.committed then Answer(IsCommitted) else Elsewhere(Mine(tx))
    case MonitorWait(tx) => if tx in w.chain.committed then Answer(IsCommitted) else Elsewhere(Mine(tx))
    case _ => Done
  }

  /** A call left to itself. */
  ghost function Alone(built: Tx): World -> World {
    w => Step(true, w, Prompt(w, built))
  }

  ghost predicate Leads(w: World, built: Tx, v: World) {
    U.Leads(Alone(built), w, v)
  }

  /** From some point on the call is over and this is how it ended. */
  ghost predicate EndsAs(w: World, built: Tx, v: World) {
    v.pc == Idle && U.EndsAs(Alone(built), w, v)
  }

  lemma Then(w: World, built: Tx, u: World, v: World)
    requires Leads(w, built, u) && Leads(u, built, v)
    ensures Leads(w, built, v)
  {
    U.Then(Alone(built), w, u, v);
  }

  lemma Next(w: World, built: Tx, v: World)
    requires Step(true, w, Prompt(w, built)) == v
    ensures Leads(w, built, v)
  {
    U.Next(Alone(built), w, v);
  }

  lemma ThenNext(w: World, built: Tx, u: World, v: World)
    requires Leads(w, built, u) && Step(true, u, Prompt(u, built)) == v
    ensures Leads(w, built, v)
  {
    Next(u, built, v);
    Then(w, built, u, v);
  }

  /** Awaits that just return. */
  predicate Quiet(pc: Pc) {
    !pc.Build? && !pc.Send? && !pc.ResumeSend? && !pc.ResumeAsk? && !pc.ResumeWait? && !pc.MonitorWait?
  }

  lemma Return(w: World, built: Tx, v: World)
    requires Quiet(w.pc) && Returns(w) == v
    ensures Leads(w, built, v)
  {
    assert Prompt(w, built) == Done;
    Next(w, built, v);
  }

  lemma ThenReturn(w: World, built: Tx, u: World, v: World)
    requires Leads(w, built, u) && Quiet(u.pc) && Returns(u) == v
    ensures Leads(w, built, v)
  {
    Return(u, built, v);
    Then(w, built, u, v);
  }

  lemma Stays(w: World, built: Tx)
    ensures Leads(w, built, w)
  {
    U.Stays(Alone(built), w);
  }

  lemma Ends(w: World, built: Tx, v: World)
    requires Leads(w, built, v) && v.pc == Idle
    ensures EndsAs(w, built, v)
  {
    U.Ends(Alone(built), w, v);
  }

  // ---------------------------------------------------------------- the walk

  /** Where the walk to a state brings a row: a row beyond the path stays where it is. */
  function Walked(row: State, target: State): State {
    if Walks(row) && (row == Failed || Rank(row) < Rank(target)) then target else row
  }

  predicate Walks(row: State) {
    OnPath(row) || row == Failed
  }

  /** The steps from one point of the path to another. */
  lemma {:induction false} StepsAreWalked(w: World, built: Tx, tx: Tx, target: State, i: nat, j: nat)
    requires i <= j < PATH_LENGTH && w.row == PathState(i) && w.pc == Walk(tx, target, PathSteps(i, j))
    ensures Leads(w, built, w.(row := PathState(j), pc := Walk(tx, target, [])))
    decreases j - i
  {
    if i == j {
      Stays(w, built);
    } else {
      assert PathSteps(i, j)[1..] == PathSteps(i + 1, j);
      var v := w.(row := PathState(i + 1), pc := Walk(tx, target, PathSteps(i + 1, j)));
      Return(w, built, v);
      StepsAreWalked(v, built, tx, target, i + 1, j);
      Then(w, built, v, w.(row := PathState(j), pc := Walk(tx, target, [])));
    }
  }

  lemma FailedRowsAreWalked(w: World, built: Tx, tx: Tx, target: State, j: nat)
    requires 1 <= j < PATH_LENGTH && w.row == Failed && w.pc == Walk(tx, target, PathSteps(0, j))
    ensures Leads(w, built, w.(row := PathState(j), pc := Walk(tx, target, [])))
  {
    assert PathSteps(0, j) == [Queued] + PathSteps(1, j);
    assert PathSteps(0, j)[1..] == PathSteps(1, j);
    var v := w.(row := Queued, pc := Walk(tx, target, PathSteps(1, j)));
    Return(w, built, v);
    StepsAreWalked(v, built, tx, target, 1, j);
    Then(w, built, v, w.(row := PathState(j), pc := Walk(tx, target, [])));
  }

  /** What the walk asks for. */
  lemma RequestsOf(row: State, target: State)
    requires target == Pending || target == AvailableOnChain
    ensures 6 <= Rank(target) < PATH_LENGTH && PathState(Rank(target)) == target
    ensures WalkRequests(row, target) == PathSteps(if OnPath(row) then Rank(row) else 0, Rank(target))
    ensures OnPath(row) ==> PathState(Rank(row)) == row && Rank(row) < PATH_LENGTH
  {
    PathPosition(row);
    PathPosition(target);
  }

  lemma RequestsAreWalked(w: World, built: Tx, tx: Tx, target: State)
    requires (target == Pending || target == AvailableOnChain) && Walks(w.row)
    requires w.pc == Walk(tx, target, WalkRequests(w.row, target))
    ensures Leads(w, built, w.(row := Walked(w.row, target), pc := Walk(tx, target, [])))
  {
    RequestsOf(w.row, target);
    if w.row == Failed {
      FailedRowsAreWalked(w, built, tx, target, Rank(target));
    } else if Rank(w.row) < Rank(target) {
      StepsAreWalked(w, built, tx, target, Rank(w.row), Rank(target));
    } else {
      Stays(w, built);
    }
  }

  /** A whole walk: the row is at the target or was beyond it on the path. */
  lemma RowsAreWalked(w: World, built: Tx, tx: Tx, target: State)
    requires (target == Pending || target == AvailableOnChain) && Walks(w.row) && w.pc == WalkRead(tx, target)
    ensures Leads(w, built, w.(row := Walked(w.row, target), pc := Walk(tx, target, [])))
  {
    var v := w.(pc := Walk(tx, target, WalkRequests(w.row, target)));
    Return(w, built, v);
    RequestsAreWalked(v, built, tx, target);
    Then(w, built, v, w.(row := Walked(w.row, target), pc := Walk(tx, target, [])));
  }

  lemma RefusedAtOnce(row: State, target: State)
    requires (target == Pending || target == AvailableOnChain) && !Walks(row)
    ensures WalkRequests(row, target) != [] && Transition(Outgoing, row, WalkRequests(row, target)[0]) == None
  {
    RequestsOf(row, target);
    FirstStep(Rank(target));
    OnlyFailedIsQueued(row, []);
  }

  lemma FirstStep(j: nat)
    requires 0 < j < PATH_LENGTH
    ensures PathSteps(0, j) != [] && PathSteps(0, j)[0] == Queued
  {
  }

  /** A row beyond the path makes the walk throw, and the call ends with the row as it was. */
  lemma OtherRowsStay(w: World, built: Tx, tx: Tx, target: State)
    requires (target == Pending || target == AvailableOnChain) && !Walks(w.row) && w.pc == WalkRead(tx, target)
    ensures Leads(w, built, w.(pc := Idle))
  {
    RefusedAtOnce(w.row, target);
    var v := w.(pc := Walk(tx, target, WalkRequests(w.row, target)));
    Return(w, built, v);
    ThenReturn(w, built, v, w.(pc := Idle));
  }

  // ---------------------------------------------------------------- from the commit to the end

  /** The end of a call whose transaction is committed: record, outpoint and row all say so. */
  ghost function Landed(w: World, tx: Tx): World {
    w.(journal := Marked(w.journal, tx, CommittedTx), ref := Some(tx), row := Walked(w.row, AvailableOnChain),
       pc := Idle)
  }

  lemma MarkedAndNamed(w: World, built: Tx, tx: Tx)
    requires w.pc == MonitorWait(tx) && tx in w.chain.committed
    ensures Leads(w, built, w.(journal := Marked(w.journal, tx, CommittedTx), ref := Some(tx),
                               pc := WalkRead(tx, AvailableOnChain)))
  {
    var u := w.(pc := MonitorMark(tx));
    Next(w, built, u);
    var v := u.(journal := Marked(w.journal, tx, CommittedTx), pc := MonitorRef(tx));
    ThenReturn(w, built, u, v);
    ThenReturn(w, built, v, v.(ref := Some(tx), pc := WalkRead(tx, AvailableOnChain)));
  }

  lemma WalkedIsOver(w: World, built: Tx, tx: Tx)
    requires w.pc == Walk(tx, AvailableOnChain, [])
    ensures Leads(w, built, w.(pc := Idle))
  {
    Return(w, built, w.(pc := Reserve(tx)));
    ThenReturn(w, built, w.(pc := Reserve(tx)), w.(pc := Idle));
  }

  /** The last walk of a call. */
  lemma WalksOut(w: World, built: Tx, tx: Tx)
    requires w.pc == WalkRead(tx, AvailableOnChain)
    ensures Leads(w, built, w.(row := Walked(w.row, AvailableOnChain), pc := Idle))
  {
    if Walks(w.row) {
      RowsAreWalked(w, built, tx, AvailableOnChain);
      var v := w.(row := Walked(w.row, AvailableOnChain), pc := Walk(tx, AvailableOnChain, []));
      WalkedIsOver(v, built, tx);
      Then(w, built, v, v.(pc := Idle));
    } else {
      OtherRowsStay(w, built, tx, AvailableOnChain);
    }
  }

  lemma MonitorLands(w: World, built: Tx, tx: Tx)
    requires w.pc == MonitorWait(tx) && tx in w.chain.committed
    ensures Leads(w, built, Landed(w, tx))
  {
    MarkedAndNamed(w, built, tx);
    var u := w.(journal := Marked(w.journal, tx, CommittedTx), ref := Some(tx), pc := WalkRead(tx, AvailableOnChain));
    WalksOut(u, built, tx);
    Then(w, built, u, Landed(w, tx));
  }

  lemma WalkedTwice(row: State)
    requires Walks(row)
    ensures Walked(Walked(row, Pending), AvailableOnChain) == Walked(row, AvailableOnChain)
    ensures Walked(row, AvailableOnChain) == AvailableOnChain
  {
  }

  /** A resume that knows the commit first walks to `pending`, then monitors. */
  lemma ResumeLands(w: World, built: Tx, tx: Tx)
    requires w.pc == WalkRead(tx, Pending) && tx in w.chain.committed
    ensures Leads(w, built, if Walks(w.row) then Landed(w, tx) else w.(pc := Idle))
  {
    if Walks(w.row) {
      RowsAreWalked(w, built, tx, Pending);
      var u := w.(row := Walked(w.row, Pending), pc := Walk(tx, Pending, []));
      var v := u.(pc := MonitorWait(tx));
      ThenReturn(w, built, u, v);
      MonitorLands(v, built, tx);
      WalkedTwice(w.row);
      Then(w, built, v, Landed(w, tx));
    } else {
      OtherRowsStay(w, built, tx, Pending);
    }
  }

  // ---------------------------------------------------------------- from the broadcast to the commit

  /** The network gets the transaction and mines it. */
  ghost function Mined(c: Chain, tx: Tx): Chain {
    Evolve(Deliver(c, tx), Mine(tx))
  }

  /** A transaction that the chain would take. */
  ghost predicate Minable(c: Chain, tx: Tx) {
    CanCommit(Deliver(c, tx), tx)
  }

  lemma MinableIsCommitted(c: Chain, tx: Tx)
    requires Minable(c, tx)
    ensures tx in Mined(c, tx).committed && Mined(c, tx).committed == c.committed + {tx}
    ensures !Dead(c, tx) && tx !in c.committed
  {
  }

  lemma MinedWhileWaiting(w: World, built: Tx, tx: Tx)
    requires w.pc == MonitorWait(tx) || (w.pc.ResumeWait? && w.pc.tx == tx)
    requires CanCommit(w.chain, tx)
    ensures Leads(w, built, w.(chain := Evolve(w.chain, Mine(tx))))
    ensures tx in Evolve(w.chain, Mine(tx)).committed
  {
    Next(w, built, w.(chain := Evolve(w.chain, Mine(tx))));
  }

  lemma BroadcastIsMonitored(w: World, built: Tx, tx: Tx)
    requires w.pc == Send(tx) && w.row == Submitting && Minable(w.chain, tx)
    ensures Leads(w, built, w.(chain := Deliver(w.chain, tx), row := Pending, pc := MonitorWait(tx)))
  {
    var u := w.(chain := Deliver(w.chain, tx), pc := Track(tx));
    Next(w, built, u);
    ThenReturn(w, built, u, u.(pc := ToPending(tx)));
    ThenReturn(w, built, u.(pc := ToPending(tx)), u.(row := Pending, pc := MonitorWait(tx)));
  }

  lemma BroadcastLands(w: World, built: Tx, tx: Tx)
    requires w.pc == Send(tx) && w.row == Submitting && Minable(w.chain, tx)
    ensures Leads(w, built, Landed(w.(chain := Mined(w.chain, tx)), tx))
  {
    MinableIsCommitted(w.chain, tx);
    BroadcastIsMonitored(w, built, tx);
    var u := w.(chain := Deliver(w.chain, tx), row := Pending, pc := MonitorWait(tx));
    MinedWhileWaiting(u, built, tx);
    var v := u.(chain := Mined(w.chain, tx));
    Then(w, built, u, v);
    MonitorLands(v, built, tx);
    Then(w, built, v, Landed(w.(chain := Mined(w.chain, tx)), tx));
  }

  // ---------------------------------------------------------------- a fresh build

  lemma RowsAreEncrypted(w: World, tx: Tx)
    requires w.pc == ToEncrypting && (w.row == Queued || w.row == Encrypting)
    ensures Leads(w, tx, w.(row := Encrypting, pc := ToBuilding))
  {
    var u := w.(row := Encrypting, pc := Resolve);
    Return(w, tx, u);
    ThenReturn(w, tx, u, u.(pc := ToBuilding));
  }

  lemma RowsAreBuilt(w: World, tx: Tx)
    requires w.pc == ToBuilding && w.row == Encrypting
    ensures Leads(w, tx, w.(row := BuildingTransaction, pc := ToAwaiting(tx)))
  {
    var v := w.(row := BuildingTransaction, pc := Build);
    Return(w, tx, v);
    ThenNext(w, tx, v, v.(pc := ToAwaiting(tx)));
  }

  lemma BuildsAreSigned(w: World, tx: Tx)
    requires w.pc == ToAwaiting(tx) && w.row == BuildingTransaction
    ensures Leads(w, tx, w.(row := AwaitingSignature, pc := ToSubmitting(tx)))
  {
    var u := w.(row := AwaitingSignature, pc := Sign(tx));
    Return(w, tx, u);
    ThenReturn(w, tx, u, u.(pc := ToSubmitting(tx)));
  }

  lemma BuildsAreSubmitted(w: World, tx: Tx)
    requires w.pc == ToAwaiting(tx) && w.row == BuildingTransaction
    ensures Leads(w, tx, w.(row := Submitting, pc := JournalTx(tx)))
  {
    BuildsAreSigned(w, tx);
    var x := w.(row := AwaitingSignature, pc := ToSubmitting(tx));
    ThenReturn(w, tx, x, w.(row := Submitting, pc := JournalTx(tx)));
  }

  /** Everything before the journal. */
  lemma RowsAreReady(w: World, tx: Tx)
    requires w.pc == ToEncrypting && (w.row == Queued || w.row == Encrypting)
    ensures Leads(w, tx, w.(row := Submitting, pc := JournalTx(tx)))
  {
    RowsAreEncrypted(w, tx);
    var u := w.(row := Encrypting, pc := ToBuilding);
    RowsAreBuilt(u, tx);
    var v := w.(row := BuildingTransaction, pc := ToAwaiting(tx));
    Then(w, tx, u, v);
    BuildsAreSubmitted(v, tx);
    Then(w, tx, v, w.(row := Submitting, pc := JournalTx(tx)));
  }

  lemma SignedIsJournaled(w: World, tx: Tx)
    requires w.pc == JournalTx(tx) && !Journaled(w, tx)
    ensures Leads(w, tx, w.(journal := w.journal + [Fresh(tx)], ref := Some(tx), pc := Send(tx)))
  {
    var u := w.(journal := w.journal + [Fresh(tx)], pc := SetRef(tx));
    Return(w, tx, u);
    ThenReturn(w, tx, u, u.(ref := Some(tx), pc := SetEnvelopeId(tx)));
    ThenReturn(w, tx, u.(ref := Some(tx), pc := SetEnvelopeId(tx)), u.(ref := Some(tx), pc := Send(tx)));
  }

  /** How a fresh publish ends: one more record, committed; outpoint and row to match. */
  ghost function Published(w: World, tx: Tx): World {
    Landed(w.(chain := Mined(w.chain, tx), journal := w.journal + [Fresh(tx)], row := Submitting), tx)
  }

  lemma BuildLands(w: World, tx: Tx)
    requires w.pc == ToEncrypting && (w.row == Queued || w.row == Encrypting)
    requires !Journaled(w, tx) && Minable(w.chain, tx)
    ensures Leads(w, tx, Published(w, tx))
  {
    RowsAreReady(w, tx);
    var v := w.(row := Submitting, pc := JournalTx(tx));
    SignedIsJournaled(v, tx);
    var x := v.(journal := w.journal + [Fresh(tx)], ref := Some(tx), pc := Send(tx));
    Then(w, tx, v, x);
    BroadcastLands(x, tx, tx);
    Then(w, tx, x, Published(w, tx));
  }

  // ---------------------------------------------------------------- the resume

  /** The record's transaction waits in the pool already and is mined. */
  lemma PooledIsHeard(w: World, built: Tx, tx: Tx)
    requires w.pc == ResumeAsk(tx, Some(tx)) && CanCommit(w.chain, tx)
    ensures Leads(w, built, w.(chain := Evolve(w.chain, Mine(tx)), pc := WalkRead(tx, Pending)))
  {
    var u := w.(pc := ResumeWait(tx, false));
    Next(w, built, u);
    MinedWhileWaiting(u, built, tx);
    var v := u.(chain := Evolve(w.chain, Mine(tx)));
    Then(w, built, u, v);
    ThenNext(w, built, v, v.(pc := WalkRead(tx, Pending)));
  }

  /** The record's transaction is sent again and mined. */
  lemma RebroadcastIsHeard(w: World, built: Tx, tx: Tx)
    requires w.pc == ResumeAsk(tx, Some(tx)) && Minable(w.chain, tx) && tx !in w.chain.seen
    ensures Leads(w, built, w.(chain := Mined(w.chain, tx), pc := WalkRead(tx, Pending)))
  {
    MinableIsCommitted(w.chain, tx);
    var u := w.(chain := Deliver(w.chain, tx), pc := ResumeWait(tx, true));
    Next(w, built, w.(pc := ResumeSend(tx, tx)));
    ThenNext(w, built, w.(pc := ResumeSend(tx, tx)), u);
    MinedWhileWaiting(u, built, tx);
    var v := u.(chain := Mined(w.chain, tx));
    Then(w, built, u, v);
    ThenNext(w, built, v, v.(pc := ResumeTrack(tx)));
    ThenReturn(w, built, v.(pc := ResumeTrack(tx)), v.(pc := WalkRead(tx, Pending)));
  }

  lemma RebroadcastLands(w: World, built: Tx, tx: Tx)
    requires w.pc == ResumeAsk(tx, Some(tx)) && Minable(w.chain, tx) && Walks(w.row)
    ensures Leads(w, built, Landed(w.(chain := Mined(w.chain, tx)), tx))
  {
    MinableIsCommitted(w.chain, tx);
    if tx in w.chain.seen {
      assert Deliver(w.chain, tx) == w.chain;
      PooledIsHeard(w, built, tx);
    } else {
      RebroadcastIsHeard(w, built, tx);
    }
    var v := w.(chain := Mined(w.chain, tx), pc := WalkRead(tx, Pending));
    ResumeLands(v, built, tx);
    Then(w, built, v, Landed(w.(chain := Mined(w.chain, tx)), tx));
  }

  lemma MarkingAddsNothing(journal: seq<Entry>, dead: Tx, tx: Tx)
    ensures Holds(Marked(journal, dead, Abandoned), tx) ==> Holds(journal, tx)
  {
    var marked := Marked(journal, dead, Abandoned);
    if Holds(marked, tx) {
      var i :| 0 <= i < |marked| && marked[i].tx == tx;
      assert journal[i].tx == tx;
    }
  }

  /** A record that can never commit is given up, whether the node says so, has forgotten it and
      refuses it, or there is nothing to send. */
  lemma DeadIsGivenUp(w: World, built: Tx, dead: Tx)
    requires w.pc.ResumeAsk? && w.pc.tx == dead && Dead(w.chain, dead)
    ensures Leads(w, built, w.(pc := MarkAbandoned(dead)))
  {
    if dead in w.chain.condemned || w.pc.stored == None {
      Next(w, built, w.(pc := MarkAbandoned(dead)));
    } else {
      var u := w.(pc := ResumeSend(dead, w.pc.stored.value));
      Next(w, built, u);
      ThenNext(w, built, u, w.(pc := MarkAbandoned(dead)));
    }
  }

  /** A dead record is abandoned, then the message is built again. */
  lemma RebuildLands(w: World, tx: Tx, dead: Tx)
    requires w.pc.ResumeAsk? && w.pc.tx == dead && Dead(w.chain, dead) && (w.row == Queued || w.row == Encrypting)
    requires !Journaled(w, tx) && Minable(w.chain, tx)
    ensures Leads(w, tx, Published(w.(journal := Marked(w.journal, dead, Abandoned)), tx))
  {
    var u := w.(pc := MarkAbandoned(dead));
    var v := w.(journal := Marked(w.journal, dead, Abandoned), pc := ToEncrypting);
    DeadIsGivenUp(w, tx, dead);
    ThenReturn(w, tx, u, v);
    MarkingAddsNothing(w.journal, dead, tx);
    BuildLands(v, tx);
    Then(w, tx, v, Published(v, tx));
  }

  // ---------------------------------------------------------------- results

  /** A call that hears the commit it waits for finishes the job, from any state of the row: the
      record is marked, the row names the transaction, and it is at `available_on_chain` if it was on
      the path or failed; a row beyond the path stays. */
  lemma AHeardCommitArrives(w: World, built: Tx, tx: Tx)
    requires w.pc == MonitorWait(tx) && tx in w.chain.committed
    ensures exists v :: EndsAs(w, built, v) && v.chain == w.chain && v.ref == Some(tx)
              && v.journal == Marked(w.journal, tx, CommittedTx)
              && v.row == if OnPath(w.row) || w.row == Failed then AvailableOnChain else w.row
  {
    MonitorLands(w, built, tx);
    Ends(w, built, Landed(w, tx));
  }

  /** So does a resume that hears it, wherever in the resume; over a row beyond the path it changes
      nothing. */
  lemma AResumedCommitArrives(w: World, built: Tx, tx: Tx)
    requires (w.pc.ResumeAsk? || w.pc.ResumeWait?) && w.pc.tx == tx && tx in w.chain.committed
    ensures exists v :: EndsAs(w, built, v) && v.chain == w.chain
              && if OnPath(w.row) || w.row == Failed
                 then v.row == AvailableOnChain && v.ref == Some(tx) && v.journal == Marked(w.journal, tx, CommittedTx)
                 else v == w.(pc := Idle)
  {
    var u := w.(pc := WalkRead(tx, Pending));
    CommitIsHeard(w, built, tx);
    ResumeLands(u, built, tx);
    if Walks(w.row) {
      WalkedTwice(w.row);
      Then(w, built, u, Landed(w, tx));
      Ends(w, built, Landed(w, tx));
    } else {
      Then(w, built, u, w.(pc := Idle));
      Ends(w, built, w.(pc := Idle));
    }
  }

  lemma CommitIsHeard(w: World, built: Tx, tx: Tx)
    requires (w.pc.ResumeAsk? || w.pc.ResumeWait?) && w.pc.tx == tx && tx in w.chain.committed
    ensures Leads(w, built, w.(pc := WalkRead(tx, Pending)))
  {
    var u := w.(pc := WalkRead(tx, Pending));
    if w.pc.ResumeWait? && w.pc.rebroadcast {
      Next(w, built, w.(pc := ResumeTrack(tx)));
      ThenReturn(w, built, w.(pc := ResumeTrack(tx)), u);
    } else {
      Next(w, built, u);
    }
  }

  // ---------------------------------------------------------------- whole calls

  /** The call ends with its transaction committed, recorded as such and named by the row, and the
      row at `available_on_chain`. */
  ghost predicate Arrives(w: World, built: Tx, tx: Tx) {
    exists v :: EndsAs(w, built, v) && v.row == AvailableOnChain && v.ref == Some(tx)
      && tx in v.chain.committed && IsIn(v.journal, tx, CommittedTx)
  }

  lemma LandedArrives(w: World, built: Tx, u: World, tx: Tx)
    requires Leads(w, built, Landed(u, tx)) && Walks(u.row) && Journaled(u, tx) && tx in u.chain.committed
    ensures Arrives(w, built, tx)
  {
    var v := Landed(u, tx);
    var i :| 0 <= i < |u.journal| && u.journal[i].tx == tx;
    assert v.journal[i].tx == tx && v.journal[i].state == CommittedTx;
    WalkedTwice(u.row);
    Ends(w, built, v);
  }

  lemma PublishedArrives(w: World, u: World, tx: Tx)
    requires Leads(w, tx, Published(u, tx)) && Minable(u.chain, tx)
    ensures Arrives(w, tx, tx)
  {
    MinableIsCommitted(u.chain, tx);
    var v := u.(chain := Mined(u.chain, tx), journal := u.journal + [Fresh(tx)], row := Submitting);
    assert v.journal[|u.journal|].tx == tx;
    LandedArrives(w, tx, v, tx);
  }

  lemma FirstCallArrives(w: World, tx: Tx)
    requires w.pc == Find && w.journal == [] && w.row == Queued && Minable(w.chain, tx)
    ensures Arrives(w, tx, tx)
  {
    var u := w.(pc := ToEncrypting);
    Return(w, tx, u);
    BuildLands(u, tx);
    Then(w, tx, u, Published(u, tx));
    PublishedArrives(w, u, tx);
  }

  lemma RebuildingCallArrives(w: World, tx: Tx)
    requires w.pc == Find && w.journal != [] && w.row == Queued && Dead(w.chain, w.journal[|w.journal| - 1].tx)
    requires !Journaled(w, tx) && Minable(w.chain, tx)
    ensures Arrives(w, tx, tx)
  {
    var last := w.journal[|w.journal| - 1];
    var u := w.(pc := ResumeAsk(last.tx, last.details));
    Return(w, tx, u);
    RebuildLands(u, tx, last.tx);
    var v := u.(journal := Marked(u.journal, last.tx, Abandoned));
    Then(w, tx, u, Published(v, tx));
    PublishedArrives(w, v, tx);
  }

  lemma ResumingCallArrives(w: World, built: Tx, tx: Tx)
    requires w.pc == Find && IsLatest(w.journal, tx) && w.journal[|w.journal| - 1].details == Some(tx)
    requires w.row == Queued && (tx in w.chain.committed || Minable(w.chain, tx))
    ensures Arrives(w, built, tx)
  {
    var u := w.(pc := ResumeAsk(tx, Some(tx)));
    Return(w, built, u);
    LatestIsJournaled(w, tx);
    if tx in w.chain.committed {
      var v := w.(pc := WalkRead(tx, Pending));
      ThenNext(w, built, u, v);
      ResumeLands(v, built, tx);
      Then(w, built, v, Landed(v, tx));
      LandedArrives(w, built, v, tx);
    } else {
      MinableIsCommitted(w.chain, tx);
      RebroadcastLands(u, built, tx);
      var v := u.(chain := Mined(w.chain, tx));
      Then(w, built, u, Landed(v, tx));
      LandedArrives(w, built, v, tx);
    }
  }

  /** The transaction that a call will see through: the last journaled one unless it is dead. */
  ghost function Subject(w: World, built: Tx): Tx {
    if w.journal != [] && !Dead(w.chain, w.journal[|w.journal| - 1].tx) then w.journal[|w.journal| - 1].tx else built
  }

  lemma CallBegins(w: World)
    requires w.pc == Idle && Inv(w)
    ensures Step(true, w, Call) == w.(pc := Find) && Inv(w.(pc := Find))
  {
  }

  lemma CallArrives(w: World, built: Tx)
    requires ChainOk(w.chain) && Inv(w) && w.pc == Find && w.row == Queued && !Journaled(w, built)
    requires Subject(w, built) in w.chain.committed || Minable(w.chain, Subject(w, built))
    ensures Arrives(w, built, Subject(w, built))
  {
    if w.journal == [] {
      NotYetCommitted(w, built);
      FirstCallArrives(w, built);
    } else if Dead(w.chain, w.journal[|w.journal| - 1].tx) {
      NotYetCommitted(w, built);
      RebuildingCallArrives(w, built);
    } else {
      ResumingCallArrives(w, built, Subject(w, built));
    }
  }

  /** Only journaled transactions are committed. */
  lemma NotYetCommitted(w: World, tx: Tx)
    requires ChainOk(w.chain) && Inv(w) && !Journaled(w, tx)
    ensures tx !in w.chain.committed
  {
  }

  lemma IdleCallArrives(w: World, built: Tx)
    requires ChainOk(w.chain) && Inv(w) && w.pc == Idle && w.row == Queued && !Journaled(w, built)
    requires Subject(w, built) in w.chain.committed || Minable(w.chain, Subject(w, built))
    ensures Arrives(Step(true, w, Call), built, Subject(w, built))
  {
    CallBegins(w);
    SameSubject(w, built);
    CallArrives(w.(pc := Find), built);
  }

  lemma SameSubject(w: World, built: Tx)
    ensures Subject(w.(pc := Find), built) == Subject(w, built)
  {
  }

  /** A queued message is published by an undisturbed call, whatever calls, crashes and failures came
      before. What the builder returns is new, and the transaction the call sees through can still be
      mined or is committed already. */
  lemma ACallArrives(o: World, before: seq<Event>, built: Tx)
    requires Initial(o)
    requires var w := Run(true, o, before);
             && w.pc == Idle && w.row == Queued && !Journaled(w, built)
             && (Subject(w, built) in w.chain.committed || Minable(w.chain, Subject(w, built)))
    ensures var w := Run(true, o, before); Arrives(Step(true, w, Call), built, Subject(w, built))
  {
    RunKeeps(o, before);
    IdleCallArrives(Run(true, o, before), built);
  }
}
