/** Which outpoints the publisher writes to a row: over any run all of them belong to transactions
    that can never commit, except at most one, and that one is the last. */
module PublishedRefs {
  import opened Options
  import opened MessageStates
  import opened Chain
  import opened Journal
  import opened Publisher

  /** The outpoint a step writes, by its transaction: after journaling, and again after the commit. */
  function Written(w: World, e: Event): seq<Tx> {
    if e.Done? && (w.pc.SetRef? || w.pc.MonitorRef?) then [w.pc.tx] else []
  }

  /** What a run writes, oldest first. */
  ghost function Writes(w: World, events: seq<Event>): seq<Tx>
    decreases |events|
  {
    if events == [] then [] else Written(w, events[0]) + Writes(Step(true, w, events[0]), events[1..])
  }

  /** Everything written so far is journaled, and dead unless it is what was written last. */
  ghost predicate WritesOk(w: World, written: seq<Tx>) {
    && (forall i :: 0 <= i < |written| ==> Journaled(w, written[i]))
    && (forall i :: 0 <= i < |written| ==> written[i] == written[|written| - 1] || Dead(w.chain, written[i]))
  }

  /** Records stay and dead transactions stay dead. */
  lemma NothingComesBack(w: World, e: Event)
    requires ChainOk(w.chain)
    ensures forall tx :: Dead(w.chain, tx) ==> Dead(Step(true, w, e).chain, tx)
    ensures forall tx :: Journaled(w, tx) ==> Journaled(Step(true, w, e), tx)
  {
    var v := Step(true, w, e);
    forall tx | Journaled(w, tx) ensures Journaled(v, tx) {
      var i :| 0 <= i < |w.journal| && w.journal[i].tx == tx;
      assert v.journal[i].tx == tx;
    }
    if e.Elsewhere? {
      EvolveKeeps(w.chain, e.move);
    } else if e.Sent? && (w.pc.Send? || w.pc.ResumeSend?) {
      DeliverKeeps(w.chain, OnTheWire(w.pc));
    }
  }

  /** What a journaled transaction is to a call that writes an outpoint: the same, or dead. */
  lemma JournaledIsWrittenOrDead(w: World, tx: Tx)
    requires Inv(w) && (w.pc.SetRef? || w.pc.MonitorRef?) && Journaled(w, tx)
    ensures tx == w.pc.tx || Dead(w.chain, tx)
  {
    var i :| 0 <= i < |w.journal| && w.journal[i].tx == tx;
    if AllDead(w) {
      assert Dead(w.chain, w.journal[i].tx);
    } else {
      assert IsLatest(w.journal, w.pc.tx);
      assert i < |w.journal| - 1 ==> Dead(w.chain, w.journal[i].tx);
    }
  }

  lemma WriteIsLast(w: World, written: seq<Tx>)
    requires Inv(w) && WritesOk(w, written) && (w.pc.SetRef? || w.pc.MonitorRef?)
    ensures WritesOk(w, written + [w.pc.tx])
  {
    LatestIsJournaled(w, w.pc.tx);
    forall i | 0 <= i < |written| ensures written[i] == w.pc.tx || Dead(w.chain, written[i]) {
      JournaledIsWrittenOrDead(w, written[i]);
    }
  }

  lemma WritesStay(w: World, e: Event, written: seq<Tx>)
    requires ChainOk(w.chain) && WritesOk(w, written)
    ensures WritesOk(Step(true, w, e), written)
  {
    NothingComesBack(w, e);
  }

  lemma StepKeepsWrites(w: World, e: Event, written: seq<Tx>)
    requires ChainOk(w.chain) && Inv(w) && WritesOk(w, written)
    ensures WritesOk(Step(true, w, e), written + Written(w, e))
  {
    if Written(w, e) != [] {
      WriteIsLast(w, written);
      WritesStay(w, e, written + [w.pc.tx]);
    } else {
      WritesStay(w, e, written);
      assert written + [] == written;
    }
  }

  /** The invariant of a run, put together. */
  ghost predicate RunOk(w: World, written: seq<Tx>) {
    ChainOk(w.chain) && Inv(w) && WritesOk(w, written)
  }

  lemma StepKeepsRunOk(w: World, e: Event, written: seq<Tx>)
    requires RunOk(w, written)
    ensures RunOk(Step(true, w, e), written + Written(w, e))
  {
    StepKeepsWrites(w, e, written);
    StepKeeps(w, e);
    StepKeepsChain(true, w, e);
  }

  lemma WritesUnfold(w: World, events: seq<Event>, written: seq<Tx>)
    requires events != []
    ensures Run(true, w, events) == Run(true, Step(true, w, events[0]), events[1..])
    ensures written + Writes(w, events)
            == (written + Written(w, events[0])) + Writes(Step(true, w, events[0]), events[1..])
  {
    Associate(written, Written(w, events[0]), Writes(Step(true, w, events[0]), events[1..]));
  }

  lemma Associate(a: seq<Tx>, b: seq<Tx>, c: seq<Tx>)
    ensures a + (b + c) == (a + b) + c
  {
  }

  lemma {:induction false} RunKeepsWrites(w: World, events: seq<Event>, written: seq<Tx>)
    requires RunOk(w, written)
    ensures RunOk(Run(true, w, events), written + Writes(w, events))
    decreases |events|
  {
    if events == [] {
      assert written + [] == written;
    } else {
      StepKeepsRunOk(w, events[0], written);
      RunKeepsWrites(Step(true, w, events[0]), events[1..], written + Written(w, events[0]));
      WritesUnfold(w, events, written);
    }
  }

  // ---------------------------------------------------------------- results

  /** Once one of the message's transactions is committed, its outpoint is the only one that is
      written any more. */
  lemma OnlyTheCommittedIsWritten(w: World, events: seq<Event>, tx: Tx)
    requires Initial(w)
    requires var v := Run(true, w, events); Journaled(v, tx) && tx in v.chain.committed
    ensures var v := Run(true, w, events); v.pc.SetRef? || v.pc.MonitorRef? ==> v.pc.tx == tx
  {
    RunKeeps(w, events);
    var v := Run(true, w, events);
    if v.pc.SetRef? || v.pc.MonitorRef? {
      JournaledIsWrittenOrDead(v, tx);
      CommittedIsAlive(v.chain, tx);
    }
  }

  lemma CommittedIsAlive(c: Chain, tx: Tx)
    requires tx in c.committed
    ensures !Dead(c, tx)
  {
  }

  /** A step that replaces the row's outpoint replaces one that will never exist. */
  lemma ReplacedOutpointsAreDead(w: World, events: seq<Event>, e: Event)
    requires Initial(w)
    requires var v := Run(true, w, events); v.ref.Some? && Step(true, v, e).ref != v.ref
    ensures var v := Run(true, w, events); Dead(v.chain, v.ref.value)
  {
    RunKeeps(w, events);
    var v := Run(true, w, events);
    OnlyWritesChangeTheRef(v, e);
    JournaledIsWrittenOrDead(v, v.ref.value);
  }

  lemma OnlyWritesChangeTheRef(v: World, e: Event)
    requires Step(true, v, e).ref != v.ref
    ensures e.Done? && (v.pc.SetRef? || v.pc.MonitorRef?) && Step(true, v, e).ref == Some(v.pc.tx)
  {
  }

  lemma CommittedIsLast(w: World, written: seq<Tx>, i: nat)
    requires WritesOk(w, written) && i < |written| && written[i] in w.chain.committed
    ensures written[i] == written[|written| - 1]
  {
    CommittedIsAlive(w.chain, written[i]);
  }

  lemma WholeRunOk(w: World, events: seq<Event>)
    requires Initial(w)
    ensures WritesOk(Run(true, w, events), Writes(w, events))
  {
    assert RunOk(w, []);
    RunKeepsWrites(w, events, []);
    assert [] + Writes(w, events) == Writes(w, events);
  }

  /** Over a whole run: of all outpoints written only the last can belong to a committed transaction. */
  lemma OnlyTheLastCanCommit(w: World, events: seq<Event>, i: nat)
    requires Initial(w) && i < |Writes(w, events)|
    requires Writes(w, events)[i] in Run(true, w, events).chain.committed
    ensures Writes(w, events)[i] == Writes(w, events)[|Writes(w, events)| - 1]
  {
    WholeRunOk(w, events);
    CommittedIsLast(Run(true, w, events), Writes(w, events), i);
  }

  // ---------------------------------------------------------------- builds come before the commit

  /** A transaction whose outpoint and envelope id are being recorded has not been sent yet. */
  ghost predicate NotSentYet(w: World) {
    w.pc.SetRef? || w.pc.SetEnvelopeId? ==> AllDead(w) || (IsLatest(w.journal, w.pc.tx) && w.pc.tx !in w.chain.seen)
  }

  lemma RecordingIsNotSending(w: World)
    requires Inv(w) && w.pc.JournalTx?
    ensures NotSentYet(Returns(w))
  {
    var v := Returns(w);
    if !Journaled(w, w.pc.tx) {
      assert v.journal[|v.journal| - 1].tx == w.pc.tx;
    }
  }

  lemma MinedElsewhereKeepsUnsent(w: World, move: ChainEvent)
    requires ChainOk(w.chain) && NotSentYet(w)
    ensures NotSentYet(Step(true, w, Elsewhere(move)))
  {
    EvolveKeeps(w.chain, move);
  }

  lemma MarkingKeepsUnsent(w: World, tx: Tx, status: Status)
    requires NotSentYet(w)
    ensures NotSentYet(Step(true, w, WorkerMark(tx, status)))
  {
    var v := Step(true, w, WorkerMark(tx, status));
    assert SameTxs(w.journal, v.journal) && v.chain == w.chain && v.pc == w.pc;
  }

  lemma OthersKeepUnsent(w: World, e: Event)
    requires NotSentYet(w) && !e.Elsewhere? && !e.WorkerMark? && !e.Done?
    ensures NotSentYet(Step(true, w, e))
  {
  }

  lemma ReturnsKeepUnsent(w: World)
    requires NotSentYet(w) && !w.pc.JournalTx?
    ensures NotSentYet(Returns(w))
  {
  }

  lemma StepKeepsUnsent(w: World, e: Event)
    requires ChainOk(w.chain) && Inv(w) && NotSentYet(w)
    ensures NotSentYet(Step(true, w, e))
  {
    if e.Done? {
      if w.pc.JournalTx? { RecordingIsNotSending(w); } else { ReturnsKeepUnsent(w); }
    } else if e.Elsewhere? {
      MinedElsewhereKeepsUnsent(w, e.move);
    } else if e.WorkerMark? {
      MarkingKeepsUnsent(w, e.tx, e.status);
    } else {
      OthersKeepUnsent(w, e);
    }
  }

  /** The rows that a run has shown at `committed` or later stay committed. */
  lemma CommittedStays(w: World, e: Event)
    requires ChainOk(w.chain) && SomeCommitted(w)
    ensures SomeCommitted(Step(true, w, e))
  {
    var v := Step(true, w, e);
    var i :| 0 <= i < |w.journal| && w.journal[i].tx in w.chain.committed;
    if e.Elsewhere? {
      EvolveKeeps(w.chain, e.move);
    }
    assert v.journal[i].tx == w.journal[i].tx && v.journal[i].tx in v.chain.committed;
  }

  ghost predicate BuildOk(w: World) {
    ChainOk(w.chain) && Inv(w) && NotSentYet(w)
  }

  lemma {:induction false} RunKeepsBuildOk(w: World, events: seq<Event>)
    requires BuildOk(w)
    ensures BuildOk(Run(true, w, events))
    ensures SomeCommitted(w) ==> SomeCommitted(Run(true, w, events))
    decreases |events|
  {
    if events != [] {
      var v := Step(true, w, events[0]);
      StepKeepsUnsent(w, events[0]);
      StepKeeps(w, events[0]);
      StepKeepsChain(true, w, events[0]);
      if SomeCommitted(w) {
        CommittedStays(w, events[0]);
      }
      RunKeepsBuildOk(v, events[1..]);
    }
  }

  lemma {:induction false} RunAppends(w: World, a: seq<Event>, b: seq<Event>)
    ensures Run(true, w, a + b) == Run(true, Run(true, w, a), b)
    decreases |a|
  {
    if a == [] {
      assert a + b == b;
    } else {
      assert (a + b)[0] == a[0] && (a + b)[1..] == a[1..] + b;
      RunAppends(Step(true, w, a[0]), a[1..], b);
    }
  }

  lemma BuildingMeansNothingCommitted(w: World)
    requires ChainOk(w.chain) && Inv(w) && NotSentYet(w) && (w.pc.SetRef? || w.pc.SetEnvelopeId?)
    ensures !SomeCommitted(w)
  {
    forall i | 0 <= i < |w.journal| ensures w.journal[i].tx !in w.chain.committed {
      if !AllDead(w) && i == |w.journal| - 1 {
        assert w.pc.tx !in w.chain.committed;
      } else {
        assert Dead(w.chain, w.journal[i].tx);
      }
    }
  }

  /** Once a row has been shown at `committed` or later no call builds again: none records the
      outpoint or the envelope id of a newly built transaction. */
  lemma BuildsPrecedeTheCommit(w: World, before: seq<Event>, more: seq<Event>)
    requires Initial(w) && Rank(Run(true, w, before).row) >= Rank(Committed)
    ensures var v := Run(true, w, before + more); !v.pc.SetRef? && !v.pc.SetEnvelopeId?
  {
    RunKeepsBuildOk(w, before);
    RunAppends(w, before, more);
    RunKeepsBuildOk(Run(true, w, before), more);
    var v := Run(true, w, before + more);
    if v.pc.SetRef? || v.pc.SetEnvelopeId? {
      BuildingMeansNothingCommitted(v);
    }
  }
}
