/** Concrete runs of the publisher: what its promises need, and what a crash can leave behind. */
module PublisherRuns {
  import opened Options
  import opened MessageStates
  import opened Chain
  import opened Journal
  import opened Publisher

  // ---------------------------------------------------------------- the one assumption

  ghost predicate Reaches(spentIsFinal: bool, w: World, v: World) {
    exists events :: Run(spentIsFinal, w, events) == v
  }

  lemma {:induction false} RunOneMore(spentIsFinal: bool, w: World, events: seq<Event>, e: Event)
    ensures Run(spentIsFinal, w, events + [e]) == Step(spentIsFinal, Run(spentIsFinal, w, events), e)
    decreases |events|
  {
    if events == [] {
      assert Run(spentIsFinal, Step(spentIsFinal, w, e), []) == Step(spentIsFinal, w, e);
      assert ([e])[1..] == [];
    } else {
      RunOneMore(spentIsFinal, Step(spentIsFinal, w, events[0]), events[1..], e);
      assert (events + [e])[1..] == events[1..] + [e];
    }
  }

  lemma Extend(spentIsFinal: bool, w: World, v: World, e: Event)
    requires Reaches(spentIsFinal, w, v)
    ensures Reaches(spentIsFinal, w, Step(spentIsFinal, v, e))
  {
    var events :| Run(spentIsFinal, w, events) == v;
    RunOneMore(spentIsFinal, w, events, e);
  }

  lemma FreshStart(spentIsFinal: bool, o: World, w: World)
    requires Reaches(spentIsFinal, o, w) && w.pc == ToEncrypting && w.row == Queued
    ensures Reaches(spentIsFinal, o, w.(row := BuildingTransaction, pc := Build))
  {
    Extend(spentIsFinal, o, w, Done);
    Extend(spentIsFinal, o, w.(row := Encrypting, pc := Resolve), Done);
    Extend(spentIsFinal, o, w.(row := Encrypting, pc := ToBuilding), Done);
  }

  lemma FreshBuild(spentIsFinal: bool, o: World, w: World, tx: Tx)
    requires Reaches(spentIsFinal, o, w) && w.pc == ToEncrypting && w.row == Queued
    ensures Reaches(spentIsFinal, o, w.(row := AwaitingSignature, pc := Sign(tx)))
  {
    FreshStart(spentIsFinal, o, w);
    Extend(spentIsFinal, o, w.(row := BuildingTransaction, pc := Build), Built(tx));
    Extend(spentIsFinal, o, w.(row := BuildingTransaction, pc := ToAwaiting(tx)), Done);
  }

  /** A fresh publish of a queued row journals its transaction and reaches the broadcast. */
  lemma FreshPublish(spentIsFinal: bool, o: World, w: World, tx: Tx)
    requires Reaches(spentIsFinal, o, w) && w.pc == ToEncrypting && w.row == Queued && !Journaled(w, tx)
    ensures Reaches(spentIsFinal, o, w.(row := Submitting, journal := w.journal + [Fresh(tx)],
                                         pc := Send(tx), ref := Some(tx)))
  {
    FreshBuild(spentIsFinal, o, w, tx);
    Extend(spentIsFinal, o, w.(row := AwaitingSignature, pc := Sign(tx)), Done);
    Extend(spentIsFinal, o, w.(row := AwaitingSignature, pc := ToSubmitting(tx)), Done);
    Extend(spentIsFinal, o, w.(row := Submitting, pc := JournalTx(tx)), Done);
    var v := w.(row := Submitting, journal := w.journal + [Fresh(tx)], pc := SetRef(tx));
    Extend(spentIsFinal, o, v, Done);
    Extend(spentIsFinal, o, v.(pc := SetEnvelopeId(tx), ref := Some(tx)), Done);
  }

  const FIRST := Tx([], [1], 0, 0)
  const SECOND := Tx([], [2], 0, 0)

  lemma FirstBroadcast(spentIsFinal: bool, o: World)
    requires o == World(EmptyChain, [], Queued, Idle, None)
    ensures Reaches(spentIsFinal, o, World(EmptyChain, [Fresh(FIRST)], Submitting, Send(FIRST), Some(FIRST)))
  {
    assert Run(spentIsFinal, o, []) == o;
    Extend(spentIsFinal, o, o, Call);
    Extend(spentIsFinal, o, o.(pc := Find), Done);
    FreshPublish(spentIsFinal, o, o.(pc := ToEncrypting), FIRST);
    assert [] + [Fresh(FIRST)] == [Fresh(FIRST)];
  }

  /** Delivered, but the broadcast call errs: the row fails and the user retries it. */
  lemma FirstAttempt(spentIsFinal: bool, o: World)
    requires o == World(EmptyChain, [], Queued, Idle, None)
    ensures Reaches(spentIsFinal, o, World(Deliver(EmptyChain, FIRST), [Fresh(FIRST)], Queued, Idle, Some(FIRST)))
  {
    FirstBroadcast(spentIsFinal, o);
    var first := [Fresh(FIRST)];
    Extend(spentIsFinal, o, World(EmptyChain, first, Submitting, Send(FIRST), Some(FIRST)), Sent(OtherError, true));
    FailAndRetry(spentIsFinal, o, World(Deliver(EmptyChain, FIRST), first, Submitting, ToFailed, Some(FIRST)));
  }

  /** The failure path marks the row, the user queues it again. */
  lemma FailAndRetry(spentIsFinal: bool, o: World, w: World)
    requires Reaches(spentIsFinal, o, w) && w.pc == ToFailed && Failed in OutgoingEdges(w.row)
    ensures Reaches(spentIsFinal, o, w.(row := Queued, pc := Idle))
  {
    Extend(spentIsFinal, o, w, Done);
    Extend(spentIsFinal, o, w.(row := Failed, pc := Idle), Retry);
  }

  /** The node does not know it and refuses the rebroadcast with a matched error. */
  lemma Misjudged(o: World, c: Chain, journal: seq<Entry>, ref: Option<Tx>)
    requires Reaches(false, o, World(c, journal, Queued, Idle, ref)) && IsLatest(journal, FIRST)
    requires journal[|journal| - 1].details == Some(FIRST)
    ensures Reaches(false, o, World(c, Marked(journal, FIRST, Abandoned), Queued, ToEncrypting, ref))
  {
    Extend(false, o, World(c, journal, Queued, Idle, ref), Call);
    Extend(false, o, World(c, journal, Queued, Find, ref), Done);
    Extend(false, o, World(c, journal, Queued, ResumeAsk(FIRST, Some(FIRST)), ref), Answer(Unknown));
    Extend(false, o, World(c, journal, Queued, ResumeSend(FIRST, FIRST), ref), Sent(SpentError, false));
    Extend(false, o, World(c, journal, Queued, MarkAbandoned(FIRST), ref), Done);
  }

  lemma SecondAttempt(spentIsFinal: bool, o: World, c: Chain, journal: seq<Entry>, ref: Option<Tx>)
    requires Reaches(spentIsFinal, o, World(c, journal, Queued, ToEncrypting, ref))
    requires !Journaled(World(c, journal, Queued, ToEncrypting, ref), SECOND)
    ensures Reaches(spentIsFinal, o, World(Deliver(c, SECOND), journal + [Fresh(SECOND)], Submitting, Track(SECOND),
                                            Some(SECOND)))
  {
    FreshPublish(spentIsFinal, o, World(c, journal, Queued, ToEncrypting, ref), SECOND);
    var both := journal + [Fresh(SECOND)];
    Extend(spentIsFinal, o, World(c, both, Submitting, Send(SECOND), Some(SECOND)), Sent(Accepted, true));
  }

  /** Two journaled transactions of the message are committed. */
  ghost predicate TwoCommitted(w: World) {
    Journaled(w, FIRST) && Journaled(w, SECOND) && FIRST in w.chain.committed && SECOND in w.chain.committed
  }

  /** Without the assumption the promise fails. The first transaction is delivered but its
      broadcast call errs, so the row fails and is retried; the node then does not know the
      transaction and refuses the rebroadcast with a matched error ("already in the pool",
      say); a second one is built over other inputs, and the chain takes both. */
  lemma MatchedErrorsMustBeFinal()
    ensures exists w, v :: Initial(w) && Reaches(false, w, v) && TwoCommitted(v)
  {
    var o := World(EmptyChain, [], Queued, Idle, None);
    var seen := Deliver(EmptyChain, FIRST);
    var first := [Fresh(FIRST)];
    FirstAttempt(false, o);
    Misjudged(o, seen, first, Some(FIRST));
    var abandoned := Marked(first, FIRST, Abandoned);
    SecondAttempt(false, o, seen, abandoned, Some(FIRST));
    var v := BothCommit(false, o, abandoned + [Fresh(SECOND)], Deliver(seen, SECOND));
  }

  /** Nor does it hold over a journal that an older version left: a record without its transaction
      is abandoned as soon as the node does not know it, although it may still commit. */
  lemma OldRecordsMayCommitTwice()
    ensures exists v :: TwoCommitted(v)
              && Reaches(true, World(Deliver(EmptyChain, FIRST), [Record(FIRST, None, Submitted)],
                                    Queued, Idle, None), v)
  {
    var seen := Deliver(EmptyChain, FIRST);
    var legacy := [Record(FIRST, None, Submitted)];
    var o := World(seen, legacy, Queued, Idle, None);
    assert Run(true, o, []) == o;
    Extend(true, o, o, Call);
    Extend(true, o, o.(pc := Find), Done);
    Extend(true, o, o.(pc := ResumeAsk(FIRST, None)), Answer(Unknown));
    Extend(true, o, o.(pc := MarkAbandoned(FIRST)), Done);
    var abandoned := Marked(legacy, FIRST, Abandoned);
    SecondAttempt(true, o, seen, abandoned, None);
    var v := BothCommit(true, o, abandoned + [Fresh(SECOND)], Deliver(seen, SECOND));
  }

  lemma BothCommit(spentIsFinal: bool, o: World, journal: seq<Entry>, c: Chain) returns (v: World)
    requires Reaches(spentIsFinal, o, World(c, journal, Submitting, Track(SECOND), Some(SECOND)))
    requires |journal| == 2 && journal[0].tx == FIRST && journal[1].tx == SECOND
    requires c == Chain({}, {}, {FIRST, SECOND}, {})
    ensures Reaches(spentIsFinal, o, v) && TwoCommitted(v)
  {
    var w := World(c, journal, Submitting, Track(SECOND), Some(SECOND));
    assert Inputs(FIRST) == [1] && Inputs(SECOND) == [2];
    var one := Step(spentIsFinal, w, Elsewhere(Mine(FIRST)));
    Extend(spentIsFinal, o, w, Elsewhere(Mine(FIRST)));
    assert one.chain.spent == {1} && FIRST in one.chain.committed;
    v := Step(spentIsFinal, one, Elsewhere(Mine(SECOND)));
    Extend(spentIsFinal, o, one, Elsewhere(Mine(SECOND)));
    assert v.chain.committed == {FIRST, SECOND} && v.journal == journal;
    assert Journaled(v, FIRST) && Journaled(v, SECOND);
  }

  // ---------------------------------------------------------------- a resume that fails the row

  /** Published and waiting for the commit. */
  lemma PublishedAndPending(spentIsFinal: bool, o: World)
    requires o == World(EmptyChain, [], Queued, Idle, None)
    ensures Reaches(spentIsFinal, o,
                    World(Deliver(EmptyChain, FIRST), [Fresh(FIRST)], Pending, MonitorWait(FIRST), Some(FIRST)))
  {
    FirstBroadcast(spentIsFinal, o);
    SentAndPending(spentIsFinal, o, World(EmptyChain, [Fresh(FIRST)], Submitting, Send(FIRST), Some(FIRST)));
  }

  lemma SentAndPending(spentIsFinal: bool, o: World, w: World)
    requires Reaches(spentIsFinal, o, w) && w.pc == Send(FIRST) && w.row == Submitting
    ensures Reaches(spentIsFinal, o, w.(chain := Deliver(w.chain, FIRST), row := Pending, pc := MonitorWait(FIRST)))
  {
    Extend(spentIsFinal, o, w, Sent(Accepted, true));
    TrackedAndPending(spentIsFinal, o, w.(chain := Deliver(w.chain, FIRST), pc := Track(FIRST)));
  }

  lemma TrackedAndPending(spentIsFinal: bool, o: World, w: World)
    requires Reaches(spentIsFinal, o, w) && w.pc == Track(FIRST) && w.row == Submitting
    ensures Reaches(spentIsFinal, o, w.(row := Pending, pc := MonitorWait(FIRST)))
  {
    Extend(spentIsFinal, o, w, Done);
    Extend(spentIsFinal, o, w.(pc := ToPending(FIRST)), Done);
  }

  /** The app dies and the message is published again. */
  lemma Resumed(spentIsFinal: bool, o: World, w: World)
    requires Reaches(spentIsFinal, o, w) && w.journal == [Fresh(FIRST)]
    ensures Reaches(spentIsFinal, o, w.(pc := ResumeAsk(FIRST, Some(FIRST))))
  {
    Extend(spentIsFinal, o, w, Crash);
    Extend(spentIsFinal, o, w.(pc := Idle), Call);
    Extend(spentIsFinal, o, w.(pc := Find), Done);
  }

  lemma ResumedWhilePending(spentIsFinal: bool, o: World)
    requires o == World(EmptyChain, [], Queued, Idle, None)
    ensures Reaches(spentIsFinal, o, World(Deliver(EmptyChain, FIRST), [Fresh(FIRST)], Pending,
                                           ResumeAsk(FIRST, Some(FIRST)), Some(FIRST)))
  {
    PublishedAndPending(spentIsFinal, o);
    Resumed(spentIsFinal, o, World(Deliver(EmptyChain, FIRST), [Fresh(FIRST)], Pending,
                                     MonitorWait(FIRST), Some(FIRST)));
  }

  /** While the resume waits for its answer, the worker and receipts bring the row into reclaim. */
  lemma AdvancedMeanwhile(spentIsFinal: bool, o: World, w: World)
    requires Reaches(spentIsFinal, o, w) && w.row == Pending && |w.journal| == 1 && w.journal[0].tx == FIRST
    requires FIRST in w.chain.committed
    ensures Reaches(spentIsFinal, o, w.(journal := Marked(w.journal, FIRST, CommittedTx), row := AvailableOnChain))
  {
    assert Journaled(w, FIRST);
    Extend(spentIsFinal, o, w, WorkerMark(FIRST, IsCommitted));
    Extend(spentIsFinal, o, w.(journal := Marked(w.journal, FIRST, CommittedTx)), WorkerAdvance);
  }

  lemma ReclaimedMeanwhile(spentIsFinal: bool, o: World, w: World)
    requires Reaches(spentIsFinal, o, w) && w.row == AvailableOnChain
    ensures Reaches(spentIsFinal, o, w.(row := ReclaimQueued))
  {
    Extend(spentIsFinal, o, w, Acked(DownloadedByRecipient));
    Extend(spentIsFinal, o, w.(row := DownloadedByRecipient), Acked(Acknowledged));
    Extend(spentIsFinal, o, w.(row := Acknowledged), Acked(ReclaimQueued));
  }

  lemma QueuedForReclaim(spentIsFinal: bool, o: World) returns (v: World)
    requires o == World(EmptyChain, [], Queued, Idle, None)
    ensures Reaches(spentIsFinal, o, v) && v.row == ReclaimQueued && v.pc == ResumeAsk(FIRST, Some(FIRST))
  {
    ResumedWhilePending(spentIsFinal, o);
    var waiting := World(Deliver(EmptyChain, FIRST), [Fresh(FIRST)], Pending,
                         ResumeAsk(FIRST, Some(FIRST)), Some(FIRST));
    var mined := waiting.(chain := Evolve(waiting.chain, Mine(FIRST)));
    assert Inputs(FIRST) == [1];
    Extend(spentIsFinal, o, waiting, Elsewhere(Mine(FIRST)));
    AdvancedMeanwhile(spentIsFinal, o, mined);
    v := mined.(journal := Marked(mined.journal, FIRST, CommittedTx), row := AvailableOnChain);
    ReclaimedMeanwhile(spentIsFinal, o, v);
    v := v.(row := ReclaimQueued);
  }

  lemma ThrownToTheStart(spentIsFinal: bool, v: World)
    requires v.pc.ResumeAsk? && v.row == ReclaimQueued
    ensures Reaches(spentIsFinal, v, v.(pc := Idle, row := Queued))
  {
    assert Run(spentIsFinal, v, []) == v;
    Extend(spentIsFinal, v, v, Throw);
    FailAndRetry(spentIsFinal, v, v.(pc := ToFailed));
  }

  /** The resume does not count as broadcast until it has its answer: when its question fails, the
      row is marked failed, even one that is already queued for reclaim, and a retry sends it back
      to the start. A concrete run. */
  lemma AResumeCanFailARowInReclaim()
    ensures exists o, v, w :: Initial(o) && Reaches(true, o, v) && v.row == ReclaimQueued
              && Reaches(true, v, w) && w.row == Queued && w.pc == Idle
  {
    var o := World(EmptyChain, [], Queued, Idle, None);
    var v := QueuedForReclaim(true, o);
    ThrownToTheStart(true, v);
    assert Initial(o) && v.(pc := Idle, row := Queued).row == Queued;
  }

  // ---------------------------------------------------------------- a row at a dead outpoint

  lemma Queues(o: World)
    requires o == World(EmptyChain, [], Queued, Idle, None)
    ensures Reaches(true, o, World(EmptyChain, [Fresh(FIRST)], Queued, Idle, Some(FIRST)))
  {
    FirstBroadcast(true, o);
    var first := [Fresh(FIRST)];
    Extend(true, o, World(EmptyChain, first, Submitting, Send(FIRST), Some(FIRST)), Sent(OtherError, false));
    FailAndRetry(true, o, World(EmptyChain, first, Submitting, ToFailed, Some(FIRST)));
  }

  /** The first transaction is rejected and abandoned, the second one built and journaled; the app
      dies before the row is given its outpoint. */
  lemma DiesBeforeTheOutpoint(o: World, c: Chain, journal: seq<Entry>)
    requires Reaches(true, o, World(c, journal, Queued, Idle, Some(FIRST)))
             && FIRST in c.condemned && FIRST !in c.committed
    requires |journal| == 1 && journal[0] == Fresh(FIRST)
    ensures var both := Marked(journal, FIRST, Abandoned) + [Fresh(SECOND)];
            Reaches(true, o, World(c, both, Submitting, Idle, Some(FIRST)))
  {
    Extend(true, o, World(c, journal, Queued, Idle, Some(FIRST)), Call);
    Extend(true, o, World(c, journal, Queued, Find, Some(FIRST)), Done);
    Extend(true, o, World(c, journal, Queued, ResumeAsk(FIRST, Some(FIRST)), Some(FIRST)), Answer(IsRejected));
    Extend(true, o, World(c, journal, Queued, MarkAbandoned(FIRST), Some(FIRST)), Done);
    JournaledOnly(o, World(c, Marked(journal, FIRST, Abandoned), Queued, ToEncrypting, Some(FIRST)));
  }

  lemma JournaledOnly(o: World, w: World)
    requires Reaches(true, o, w) && w.pc == ToEncrypting && w.row == Queued && !Journaled(w, SECOND)
    ensures Reaches(true, o, w.(row := Submitting, journal := w.journal + [Fresh(SECOND)], pc := Idle))
  {
    FreshBuild(true, o, w, SECOND);
    Extend(true, o, w.(row := AwaitingSignature, pc := Sign(SECOND)), Done);
    Extend(true, o, w.(row := AwaitingSignature, pc := ToSubmitting(SECOND)), Done);
    Extend(true, o, w.(row := Submitting, pc := JournalTx(SECOND)), Done);
    Extend(true, o, w.(row := Submitting, journal := w.journal + [Fresh(SECOND)], pc := SetRef(SECOND)), Crash);
  }

  /** The next call sends the journaled transaction again and sees it mined. */
  lemma SentAgain(o: World, w: World) returns (v: World)
    requires Reaches(true, o, w) && w.pc == Idle && w.row == Submitting
    requires IsLatest(w.journal, SECOND) && w.journal[|w.journal| - 1].details == Some(SECOND)
    requires SECOND !in w.chain.committed && SECOND !in w.chain.condemned && 2 !in w.chain.spent
    ensures Reaches(true, o, v) && v.pc == ResumeTrack(SECOND) && SECOND in v.chain.committed
    ensures v == w.(chain := v.chain, pc := v.pc) && v.chain.condemned == w.chain.condemned
    ensures v.chain.committed == w.chain.committed + {SECOND}
  {
    Extend(true, o, w, Call);
    Extend(true, o, w.(pc := Find), Done);
    Extend(true, o, w.(pc := ResumeAsk(SECOND, Some(SECOND))), Answer(Unknown));
    Extend(true, o, w.(pc := ResumeSend(SECOND, SECOND)), Sent(Accepted, true));
    v := MinedAndSeen(o, w.(chain := Deliver(w.chain, SECOND), pc := ResumeWait(SECOND, true)));
  }

  lemma MinedAndSeen(o: World, w: World) returns (v: World)
    requires Reaches(true, o, w) && w.pc == ResumeWait(SECOND, true) && SECOND in w.chain.seen
    requires SECOND !in w.chain.committed && SECOND !in w.chain.condemned && 2 !in w.chain.spent
    ensures Reaches(true, o, v) && v == w.(chain := v.chain, pc := ResumeTrack(SECOND))
    ensures v.chain.committed == w.chain.committed + {SECOND} && v.chain.condemned == w.chain.condemned
  {
    assert Inputs(SECOND) == [2];
    assert CanCommit(w.chain, SECOND);
    Extend(true, o, w, Elsewhere(Mine(SECOND)));
    var mined := w.(chain := Evolve(w.chain, Mine(SECOND)));
    Extend(true, o, mined, Answer(IsCommitted));
    v := mined.(pc := ResumeTrack(SECOND));
  }

  /** It walks the row to `pending` and waits. */
  lemma WalksToPending(o: World, w: World)
    requires Reaches(true, o, w) && w.pc == ResumeTrack(SECOND) && w.row == Submitting
    ensures Reaches(true, o, w.(pc := MonitorWait(SECOND), row := Pending))
  {
    Extend(true, o, w, Done);
    OneStepToPending();
    Extend(true, o, w.(pc := WalkRead(SECOND, Pending)), Done);
    OneRequest(o, w.(pc := Walk(SECOND, Pending, [Pending])));
  }

  lemma OneRequest(o: World, w: World)
    requires Reaches(true, o, w) && w.pc == Walk(SECOND, Pending, [Pending]) && w.row == Submitting
    ensures Reaches(true, o, w.(pc := MonitorWait(SECOND), row := Pending))
  {
    Extend(true, o, w, Done);
    assert [Pending][1..] == [];
    Extend(true, o, w.(pc := Walk(SECOND, Pending, []), row := Pending), Done);
  }

  /** The worker is faster. */
  lemma TheWorkerIsFaster(o: World, w: World)
    requires Reaches(true, o, w) && w.pc == ResumeTrack(SECOND) && w.row == Submitting
    requires IsLatest(w.journal, SECOND) && SECOND in w.chain.committed
    ensures Reaches(true, o, w.(pc := MonitorWait(SECOND), row := AvailableOnChain,
                                journal := Marked(w.journal, SECOND, CommittedTx)))
  {
    WalksToPending(o, w);
    WorkerAdvances(o, w.(pc := MonitorWait(SECOND), row := Pending));
  }

  lemma OneStepToPending()
    ensures WalkRequests(Submitting, Pending) == [Pending]
  {
  }

  lemma WorkerAdvances(o: World, w: World)
    requires Reaches(true, o, w) && w.row == Pending && IsLatest(w.journal, SECOND) && SECOND in w.chain.committed
    ensures Reaches(true, o, w.(row := AvailableOnChain, journal := Marked(w.journal, SECOND, CommittedTx)))
  {
    LatestIsJournaled(w, SECOND);
    Extend(true, o, w, WorkerMark(SECOND, IsCommitted));
    Extend(true, o, w.(journal := Marked(w.journal, SECOND, CommittedTx)), WorkerAdvance);
  }

  lemma DeadAndJournaled(o: World) returns (w: World)
    requires o == World(EmptyChain, [], Queued, Idle, None)
    ensures Reaches(true, o, w) && w.pc == Idle && w.row == Submitting && w.ref == Some(FIRST)
    ensures w.chain == Chain({}, {}, {}, {FIRST}) && |w.journal| == 2 && w.journal[1] == Fresh(SECOND)
  {
    Queues(o);
    var queued := World(EmptyChain, [Fresh(FIRST)], Queued, Idle, Some(FIRST));
    var c := Evolve(EmptyChain, Condemn(FIRST));
    Extend(true, o, queued, Elsewhere(Condemn(FIRST)));
    DiesBeforeTheOutpoint(o, c, [Fresh(FIRST)]);
    w := World(c, Marked([Fresh(FIRST)], FIRST, Abandoned) + [Fresh(SECOND)], Submitting, Idle, Some(FIRST));
  }

  /** A crash between journaling a rebuilt transaction and recording its outpoint is not made up for
      by the resume: the worker can bring the row to `available_on_chain` while it still names the
      output of the abandoned transaction, which will never exist. A concrete run. */
  lemma ARowAtADeadOutpoint()
    ensures exists o, v :: Initial(o) && Reaches(true, o, v) && v.row == AvailableOnChain
              && v.ref == Some(FIRST) && Dead(v.chain, FIRST) && Journaled(v, SECOND) && SECOND in v.chain.committed
  {
    var o := World(EmptyChain, [], Queued, Idle, None);
    var u := DeadAndJournaled(o);
    var w := SentAgain(o, u);
    TheWorkerIsFaster(o, w);
    var v := w.(pc := MonitorWait(SECOND), row := AvailableOnChain, journal := Marked(w.journal, SECOND, CommittedTx));
    LatestIsJournaled(v, SECOND);
    assert Dead(v.chain, FIRST);
  }
}
