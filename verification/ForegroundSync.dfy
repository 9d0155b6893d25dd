/** The foreground sync scheduler: a sweep, a rest, a sweep, driven by calls from the app, by its
    timer firing and by sweeps settling, in any order. */
module ForegroundSync {
  import opened Options

  const CHAT_CADENCE_MS: nat := 10_000
  const IDLE_CADENCE_MS: nat := 30_000

  /** The scheduler's fields, and around it the timers the platform holds armed (with their
      delays), the next timer handle, and the sweeps whose promise has not settled. */
  datatype State = State(handle: Option<nat>, cadenceMs: nat, started: bool, paused: bool, inFlight: bool,
                         armed: map<nat, nat>, nextHandle: nat, sweeps: nat)

  datatype Event =
    | Start(cadence: nat)
    | Stop
    | Pause
    | Resume
    | SetCadence(cadence: nat)
    | RunNow
    | TimerFires(handle: nat)
    | SweepSettles

  const Fresh := State(None, IDLE_CADENCE_MS, false, false, false, map[], 0, 0)

  predicate Running(s: State) {
    s.started && !s.paused
  }

  // ---------------------------------------------------------------- what each step does

  function CancelTimer(s: State): State {
    match s.handle
    case None => s
    case Some(h) => s.(handle := None, armed := s.armed - {h})
  }

  function Rearm(s: State): State {
    var c := CancelTimer(s);
    c.(handle := Some(c.nextHandle), armed := c.armed[c.nextHandle := c.cadenceMs], nextHandle := c.nextHandle + 1)
  }

  /** The sweep itself is the platform's: here it begins. */
  function Sweep(s: State): State {
    if !Running(s) || s.inFlight then s else s.(inFlight := true, sweeps := s.sweeps + 1)
  }

  function CadenceSet(s: State, cadence: nat): State {
    var t := s.(cadenceMs := cadence);
    if cadence < s.cadenceMs && Running(s) && !s.inFlight then Rearm(t) else t
  }

  /** A settled sweep, whether it succeeded or failed. */
  function Settled(s: State): State {
    var t := s.(inFlight := false, sweeps := s.sweeps - if s.sweeps > 0 then 1 else 0);
    if Running(t) then Rearm(t) else t
  }

  /** A timer that is not armed cannot fire, and a sweep that has not begun cannot settle. */
  function Step(s: State, e: Event): State {
    match e
    case Start(cadence) =>
      if s.started then CadenceSet(s, cadence) else Sweep(s.(started := true, paused := false, cadenceMs := cadence))
    case Stop => CancelTimer(s.(started := false, paused := false))
    case Pause => if Running(s) then CancelTimer(s.(paused := true)) else s
    case Resume => if s.started && s.paused then Sweep(s.(paused := false)) else s
    case SetCadence(cadence) => CadenceSet(s, cadence)
    case RunNow => Sweep(s)
    case TimerFires(h) => if h in s.armed then Sweep(s.(handle := None, armed := s.armed - {h})) else s
    case SweepSettles => if s.sweeps > 0 then Settled(s) else s
  }

  function Run(s: State, events: seq<Event>): State
    decreases |events|
  {
    if events == [] then s else Run(Step(s, events[0]), events[1..])
  }

  // ---------------------------------------------------------------- the invariant

  /** The platform holds the timer the scheduler remembers and no other; a sweep is in flight
      exactly when the flag says so; running means a sweep is on or a timer is armed; not running
      means no timer is; and a resting scheduler rests at most the current cadence. */
  predicate Inv(s: State) {
    && s.sweeps == (if s.inFlight then 1 else 0)
    && (s.handle.None? ==> s.armed == map[])
    && (s.handle.Some? ==> s.armed.Keys == {s.handle.value} && s.handle.value < s.nextHandle)
    && (Running(s) ==> s.inFlight || s.handle.Some?)
    && (!Running(s) ==> s.handle.None?)
    && (s.handle.Some? && !s.inFlight ==> s.armed[s.handle.value] <= s.cadenceMs)
  }

  lemma RearmKeeps(s: State)
    requires s.handle.None? ==> s.armed == map[]
    requires s.handle.Some? ==> s.armed.Keys == {s.handle.value} && s.handle.value < s.nextHandle
    ensures Rearm(s).handle == Some(s.nextHandle) && Rearm(s).armed == map[s.nextHandle := s.cadenceMs]
    ensures Rearm(s).nextHandle > s.nextHandle
  {
    assert CancelTimer(s).armed == map[];
  }

  lemma StepKeeps(s: State, e: Event)
    requires Inv(s)
    ensures Inv(Step(s, e))
  {
    RearmKeeps(s);
    match e
    case Start(cadence) => RearmKeeps(s.(cadenceMs := cadence));
    case SetCadence(cadence) => RearmKeeps(s.(cadenceMs := cadence));
    case SweepSettles => RearmKeeps(s.(inFlight := false, sweeps := 0));
    case TimerFires(h) =>
      if h in s.armed {
        assert s.armed - {h} == map[];
      }
    case Stop => assert CancelTimer(s).armed == map[];
    case Pause => assert CancelTimer(s).armed == map[];
    case _ =>
  }

  lemma {:induction false} RunKeeps(s: State, events: seq<Event>)
    requires Inv(s)
    ensures Inv(Run(s, events))
    decreases |events|
  {
    if events != [] {
      StepKeeps(s, events[0]);
      RunKeeps(Step(s, events[0]), events[1..]);
    }
  }

  /** After any sequence of events: sweeps never overlap, at most one timer is armed, a running
      scheduler has a sweep in flight or an armed timer, and a scheduler that is not running has
      no timer. */
  lemma NoOverlapNoStall(events: seq<Event>)
    ensures var s := Run(Fresh, events);
            && s.sweeps <= 1 && |s.armed| <= 1
            && (Running(s) ==> s.sweeps == 1 || |s.armed| == 1)
            && (!Running(s) ==> s.armed == map[])
  {
    RunKeeps(Fresh, events);
    var s := Run(Fresh, events);
    assert s.armed.Keys == if s.handle.Some? then {s.handle.value} else {};
    assert |s.armed| == |s.armed.Keys|;
  }

  /** Tightening takes effect at once: while nothing is in flight, no armed timer waits longer
      than the current cadence, however the cadence was changed before. */
  lemma RestsAtMostTheCadence(events: seq<Event>, h: nat)
    requires h in Run(Fresh, events).armed && Run(Fresh, events).sweeps == 0
    ensures Run(Fresh, events).armed[h] <= Run(Fresh, events).cadenceMs
  {
    RunKeeps(Fresh, events);
  }

  /** The loop goes on: wherever a running scheduler is, the next thing that happens to it (its
      sweep settles or its timer fires) arms a timer of the current cadence or begins a sweep. */
  lemma TheLoopGoesOn(events: seq<Event>)
    requires Running(Run(Fresh, events))
    ensures var s := Run(Fresh, events);
            if s.sweeps == 1
            then Step(s, SweepSettles).sweeps == 0 && exists h :: Step(s, SweepSettles).armed == map[h := s.cadenceMs]
            else exists h :: h in s.armed && Step(s, TimerFires(h)).sweeps == 1
  {
    RunKeeps(Fresh, events);
    var s := Run(Fresh, events);
    if s.sweeps == 1 {
      RearmKeeps(s.(inFlight := false, sweeps := 0));
    } else {
      assert s.handle.value in s.armed;
    }
  }

  // ---------------------------------------------------------------- what the app asked for

  /** Started and not stopped since. */
  ghost predicate AskedToRun(events: seq<Event>) {
    exists i :: 0 <= i < |events| && events[i].Start? && forall j :: i < j < |events| ==> !events[j].Stop?
  }

  /** Paused while started, and neither resumed nor stopped since; starting once more does not resume. */
  ghost predicate AskedToPause(events: seq<Event>) {
    exists i :: 0 <= i < |events| && events[i].Pause? && AskedToRun(events[..i])
      && forall j :: i < j < |events| ==> !events[j].Stop? && !events[j].Resume?
  }

  /** The cadence given last, by whichever call. */
  function AskedCadence(events: seq<Event>): nat {
    if events == [] then 30_000
    else
      match events[|events| - 1]
      case Start(cadence) => cadence
      case SetCadence(cadence) => cadence
      case _ => AskedCadence(events[..|events| - 1])
  }

  lemma {:induction false} RunAppends(s: State, events: seq<Event>, e: Event)
    ensures Run(s, events + [e]) == Step(Run(s, events), e)
    decreases |events|
  {
    if events != [] {
      assert (events + [e])[1..] == events[1..] + [e];
      RunAppends(Step(s, events[0]), events[1..], e);
    } else {
      assert [e][1..] == [];
    }
  }

  lemma RunIsAskedNext(events: seq<Event>, e: Event)
    ensures AskedToRun(events + [e]) <==> e.Start? || (AskedToRun(events) && !e.Stop?)
  {
    var all := events + [e];
    if e.Start? {
      assert all[|events|].Start?;
    }
    if AskedToRun(events) && !e.Stop? {
      var i :| 0 <= i < |events| && events[i].Start? && forall j :: i < j < |events| ==> !events[j].Stop?;
      assert all[i].Start?;
    }
    if AskedToRun(all) && !e.Start? {
      var i :| 0 <= i < |all| && all[i].Start? && forall j :: i < j < |all| ==> !all[j].Stop?;
      assert events[i].Start? && all[|events|] == e;
      assert forall j :: i < j < |events| ==> events[j] == all[j];
    }
  }

  lemma PauseIsAskedNext(events: seq<Event>, e: Event)
    ensures AskedToPause(events + [e])
            <==> if e.Pause? then AskedToRun(events) else AskedToPause(events) && !e.Stop? && !e.Resume?
  {
    var all := events + [e];
    assert all[..|events|] == events;
    assert forall i :: 0 <= i < |events| ==> all[i] == events[i] && all[..i] == events[..i];
    if e.Pause? && AskedToRun(events) {
      assert all[|events|].Pause?;
    }
    if AskedToPause(events) && !e.Stop? && !e.Resume? {
      PausedAtStays(events, e);
    }
    if AskedToPause(all) {
      if e.Pause? {
        PausedMeansRunning(all);
        RunIsAskedNext(events, e);
      } else {
        PausedBefore(events, e);
      }
    }
  }

  lemma PausedBefore(events: seq<Event>, e: Event)
    requires AskedToPause(events + [e]) && !e.Pause?
    ensures AskedToPause(events) && !e.Stop? && !e.Resume?
  {
    var all := events + [e];
    var i :| 0 <= i < |all| && all[i].Pause? && AskedToRun(all[..i])
      && forall j :: i < j < |all| ==> !all[j].Stop? && !all[j].Resume?;
    assert events[i].Pause? && all[..i] == events[..i] && all[|events|] == e;
    assert forall j :: i < j < |events| ==> events[j] == all[j];
  }

  lemma PausedAtStays(events: seq<Event>, e: Event)
    requires AskedToPause(events) && !e.Stop? && !e.Resume?
    ensures AskedToPause(events + [e])
  {
    var all := events + [e];
    var i :| 0 <= i < |events| && events[i].Pause? && AskedToRun(events[..i])
      && forall j :: i < j < |events| ==> !events[j].Stop? && !events[j].Resume?;
    assert all[i].Pause? && all[..i] == events[..i];
  }

  lemma PausedMeansRunning(events: seq<Event>)
    requires AskedToPause(events)
    ensures AskedToRun(events)
  {
    var i :| 0 <= i < |events| && events[i].Pause? && AskedToRun(events[..i])
      && forall j :: i < j < |events| ==> !events[j].Stop? && !events[j].Resume?;
    var front := events[..i];
    var k :| 0 <= k < |front| && front[k].Start? && forall j :: k < j < |front| ==> !front[j].Stop?;
    assert events[k].Start?;
    forall j | k < j < |events| ensures !events[j].Stop? {
      if j < i {
        assert front[j] == events[j];
      }
    }
  }

  /** The scheduler is started, paused and paced as the calls made so far ask, whatever timers and
      sweeps did in between. */
  lemma {:induction false} RunsAsAsked(events: seq<Event>)
    ensures var s := Run(Fresh, events);
            && (s.started <==> AskedToRun(events)) && (s.paused <==> AskedToPause(events))
            && s.cadenceMs == AskedCadence(events)
    decreases |events|
  {
    if events != [] {
      var front, e := events[..|events| - 1], events[|events| - 1];
      assert events == front + [e];
      RunsAsAsked(front);
      RunAppends(Fresh, front, e);
      RunIsAskedNext(front, e);
      PauseIsAskedNext(front, e);
      if AskedToPause(front) {
        PausedMeansRunning(front);
      }
    }
  }

  /** What makes a scheduler sweep at once if it is to run after it: the first start, the end of a
      pause, a sweep on demand, and its timer. A sweep already in flight is the one. */
  lemma SweepsAtOnce(events: seq<Event>, e: Event)
    requires e.RunNow? || (e.Start? && !AskedToRun(events)) || (e.Resume? && AskedToPause(events))
             || (e.TimerFires? && e.handle in Run(Fresh, events).armed)
    ensures var asked := events + [e];
            Run(Fresh, asked).sweeps
            == if AskedToRun(asked) && !AskedToPause(asked) then 1 else Run(Fresh, events).sweeps
  {
    RunKeeps(Fresh, events);
    RunAppends(Fresh, events, e);
    RunsAsAsked(events);
    RunsAsAsked(events + [e]);
  }

  // ---------------------------------------------------------------- the program

  class Scheduler {
    var handle: Option<nat>
    var cadenceMs: nat
    var started: bool
    var paused: bool
    var inFlight: bool
    // The platform: armed timers and sweeps begun but not settled.
    var armed: map<nat, nat>
    var nextHandle: nat
    var sweeps: nat

    function Snapshot(): State
      reads this
    {
      State(handle, cadenceMs, started, paused, inFlight, armed, nextHandle, sweeps)
    }

    constructor ()
      ensures Snapshot() == Fresh
    {
      handle, cadenceMs, started, paused, inFlight := None, IDLE_CADENCE_MS, false, false, false;
      armed, nextHandle, sweeps := map[], 0, 0;
    }

    method CancelTheTimer()
      modifies this
      ensures Snapshot() == CancelTimer(old(Snapshot()))
    {
      if handle.Some? {
        armed := armed - {handle.value};
        handle := None;
      }
    }

    method RearmTimer()
      modifies this
      ensures Snapshot() == Rearm(old(Snapshot()))
    {
      CancelTheTimer();
      handle := Some(nextHandle);
      armed := armed[nextHandle := cadenceMs];
      nextHandle := nextHandle + 1;
    }

    method BeginSweep()
      modifies this
      ensures Snapshot() == Sweep(old(Snapshot()))
    {
      if !started || paused || inFlight {
        return;
      }
      inFlight := true;
      sweeps := sweeps + 1;
    }

    method Start(cadence: nat)
      modifies this
      ensures Snapshot() == Step(old(Snapshot()), Event.Start(cadence))
    {
      if started {
        SetCadence(cadence);
        return;
      }
      started := true;
      paused := false;
      cadenceMs := cadence;
      BeginSweep();
    }

    method SetCadence(cadence: nat)
      modifies this
      ensures Snapshot() == Step(old(Snapshot()), Event.SetCadence(cadence))
    {
      var tightening := cadence < cadenceMs;
      cadenceMs := cadence;
      if tightening && started && !paused && !inFlight {
        RearmTimer();
      }
    }

    method RunNow()
      modifies this
      ensures Snapshot() == Step(old(Snapshot()), Event.RunNow)
    {
      if !inFlight {
        BeginSweep();
      }
    }

    method Pause()
      modifies this
      ensures Snapshot() == Step(old(Snapshot()), Event.Pause)
    {
      if !started || paused {
        return;
      }
      paused := true;
      CancelTheTimer();
    }

    method Resume()
      modifies this
      ensures Snapshot() == Step(old(Snapshot()), Event.Resume)
    {
      if !started || !paused {
        return;
      }
      paused := false;
      if !inFlight {
        BeginSweep();
      }
    }

    method Stop()
      modifies this
      ensures Snapshot() == Step(old(Snapshot()), Event.Stop)
    {
      started := false;
      paused := false;
      CancelTheTimer();
    }

    /** The armed callback. */
    method TimerFired(h: nat)
      requires h in armed
      modifies this
      ensures Snapshot() == Step(old(Snapshot()), TimerFires(h))
    {
      armed := armed - {h};
      handle := None;
      BeginSweep();
    }

    /** The sweep's `finally`. */
    method SweepSettled()
      requires sweeps > 0
      modifies this
      ensures Snapshot() == Step(old(Snapshot()), SweepSettles)
    {
      sweeps := sweeps - 1;
      inFlight := false;
      if started && !paused {
        RearmTimer();
      }
    }
  }
}
