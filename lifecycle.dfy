/**
 * The decision the `run` command makes. The work function runs beside a
 * listener for SIGINT and SIGQUIT; what `Run` returns depends only on the
 * order in which the work function finishing, the signals and the stop hook
 * finishing reach the listener, so the race is replayed here over a sequence
 * of those events.
 */
module Lifecycle {
  import opened Wrappers
  import opened Errors

  datatype Event =
    /** The work function returned `err` on the shared `doneSignal` channel. */
    | WorkDone(err: Option<Error>)
    /** A SIGINT or SIGQUIT arrived on `exitSignal`. */
    | Interrupt
    /** The stop hook returned; its goroutine sends nil on `doneSignal`. */
    | HookDone

  datatype Phase =
    /** Waiting for the work function or a first signal (the outer `select`). */
    | Running
    /** The stop hook is running; waiting for `doneSignal` or a second signal (the inner `select`). */
    | ShuttingDown
    /** `Run` has returned `result`. */
    | Returned(result: Option<Error>)

  /** Where the race stands, and how many times the stop hook has been started. */
  datatype Runner = Runner(phase: Phase, hookStarts: nat)

  const START: Runner := Runner(Running, 0)

  /**
   * One event seen by the listener. `hasHook` says whether a stop hook is
   * registered at the moment the first signal arrives, which is when `run`
   * reads it. In ShuttingDown the work function and the hook send on the
   * same channel, so whichever finishes first ends the run with nil. A hook
   * that finishes before it was started cannot happen and is ignored.
   */
  function Step(r: Runner, e: Event, hasHook: bool): Runner {
    match r.phase
    case Returned(_) => r
    case Running =>
      (match e
       case WorkDone(err) => Runner(Returned(err), r.hookStarts)
       case Interrupt => if hasHook then Runner(ShuttingDown, r.hookStarts + 1) else Runner(Returned(None), r.hookStarts)
       case HookDone => r)
    case ShuttingDown =>
      (match e
       case Interrupt => Runner(Returned(Some(ForceStop)), r.hookStarts)
       case _ => Runner(Returned(None), r.hookStarts))
  }

  /** The runner after the listener has seen `events` in order. */
  function Replay(r: Runner, events: seq<Event>, hasHook: bool): Runner
    decreases |events|
  {
    if events == [] then r else Replay(Step(r, events[0], hasHook), events[1..], hasHook)
  }

  /** What `run` has done after `events`. */
  function Outcome(events: seq<Event>, hasHook: bool): Runner {
    Replay(START, events, hasHook)
  }

  /**
   * The states the race can reach: the hook has been started once in
   * ShuttingDown, never while still Running, and only when one is registered.
   */
  predicate Reachable(r: Runner, hasHook: bool) {
    && r.hookStarts <= 1
    && (r.phase.Running? ==> r.hookStarts == 0)
    && (r.phase.ShuttingDown? ==> r.hookStarts == 1)
    && (r.hookStarts == 1 ==> hasHook)
  }

  /** Once `Run` has returned, later events change nothing. */
  lemma {:induction false} ReturnedIsFinal(r: Runner, events: seq<Event>, hasHook: bool)
    requires r.phase.Returned?
    ensures Replay(r, events, hasHook) == r
    decreases |events|
  {
    if events != [] {
      ReturnedIsFinal(Step(r, events[0], hasHook), events[1..], hasHook);
    }
  }

  /** The hook is started at most once, and never when none is registered. */
  lemma {:induction false} ReplayStaysReachable(r: Runner, events: seq<Event>, hasHook: bool)
    requires Reachable(r, hasHook)
    ensures Reachable(Replay(r, events, hasHook), hasHook)
    decreases |events|
  {
    if events != [] {
      ReplayStaysReachable(Step(r, events[0], hasHook), events[1..], hasHook);
    }
  }

  lemma HookStartedAtMostOnce(events: seq<Event>, hasHook: bool)
    ensures Outcome(events, hasHook).hookStarts <= 1
    ensures Outcome(events, hasHook).hookStarts == 1 ==> hasHook
  {
    ReplayStaysReachable(START, events, hasHook);
  }

  /** The work function finishing before any signal: its error is the result and the hook never starts. */
  lemma WorkFinishesFirst(err: Option<Error>, rest: seq<Event>, hasHook: bool)
    ensures Outcome([WorkDone(err)] + rest, hasHook) == Runner(Returned(err), 0)
  {
    assert ([WorkDone(err)] + rest)[1..] == rest;
    ReturnedIsFinal(Runner(Returned(err), 0), rest, hasHook);
  }

  /** A first signal without a stop hook: the result is nil. */
  lemma InterruptWithoutHook(rest: seq<Event>)
    ensures Outcome([Interrupt] + rest, false) == Runner(Returned(None), 0)
  {
    assert ([Interrupt] + rest)[1..] == rest;
    ReturnedIsFinal(Runner(Returned(None), 0), rest, false);
  }

  /** A first signal with a stop hook: the hook starts and `Run` waits. */
  lemma InterruptStartsHook()
    ensures Outcome([Interrupt], true) == Runner(ShuttingDown, 1)
  {
  }

  /** A second signal during shutdown: the result is the force-stop error. */
  lemma SecondInterruptForcesStop(rest: seq<Event>)
    ensures Outcome([Interrupt, Interrupt] + rest, true) == Runner(Returned(Some(ForceStop)), 1)
  {
    var events := [Interrupt, Interrupt] + rest;
    assert events[1..][1..] == rest;
    assert Outcome(events, true) == Replay(Runner(ShuttingDown, 1), events[1..], true);
    assert Outcome(events, true) == Replay(Runner(Returned(Some(ForceStop)), 1), rest, true);
    ReturnedIsFinal(Runner(Returned(Some(ForceStop)), 1), rest, true);
  }

  /** The hook finishing before a second signal: the result is nil. */
  lemma HookFinishes(rest: seq<Event>)
    ensures Outcome([Interrupt, HookDone] + rest, true) == Runner(Returned(None), 1)
  {
    var events := [Interrupt, HookDone] + rest;
    assert events[1..][1..] == rest;
    assert Outcome(events, true) == Replay(Runner(ShuttingDown, 1), events[1..], true);
    assert Outcome(events, true) == Replay(Runner(Returned(None), 1), rest, true);
    ReturnedIsFinal(Runner(Returned(None), 1), rest, true);
  }

  /**
   * The work function finishing during shutdown also ends the run with nil,
   * because it sends on the channel the inner `select` waits on: its error is lost.
   */
  lemma WorkFinishesDuringShutdown(err: Option<Error>, rest: seq<Event>)
    ensures Outcome([Interrupt, WorkDone(err)] + rest, true) == Runner(Returned(None), 1)
  {
    var events := [Interrupt, WorkDone(err)] + rest;
    assert events[1..][1..] == rest;
    assert Outcome(events, true) == Replay(Runner(ShuttingDown, 1), events[1..], true);
    assert Outcome(events, true) == Replay(Runner(Returned(None), 1), rest, true);
    ReturnedIsFinal(Runner(Returned(None), 1), rest, true);
  }

  /**
   * The force-stop error needs a registered hook and a signal during shutdown;
   * from Running it needs two signals. The work function is assumed not to
   * return that very error value itself.
   */
  lemma {:induction false} ForceStopNeedsTwoSignals(r: Runner, events: seq<Event>, hasHook: bool)
    requires Reachable(r, hasHook)
    requires r.phase != Returned(Some(ForceStop))
    requires WorkDone(Some(ForceStop)) !in events
    requires Replay(r, events, hasHook).phase == Returned(Some(ForceStop))
    ensures hasHook && Interrupt in events
    ensures r.phase.Running? ==> exists i, j :: 0 <= i < j < |events| && events[i] == Interrupt && events[j] == Interrupt
    decreases |events|
  {
    if events == [] {
      assert false;
    } else {
      var next := Step(r, events[0], hasHook);
      if next.phase == Returned(Some(ForceStop)) {
        assert events[0] == Interrupt && r.phase.ShuttingDown?;
      } else if next.phase.Returned? {
        ReturnedIsFinal(next, events[1..], hasHook);
        assert false;
      } else {
        assert WorkDone(Some(ForceStop)) !in events[1..];
        ForceStopNeedsTwoSignals(next, events[1..], hasHook);
        var k :| 0 <= k < |events[1..]| && events[1..][k] == Interrupt;
        assert events[k + 1] == Interrupt;
        if r.phase.Running? {
          if next.phase.ShuttingDown? {
            assert events[0] == Interrupt;
          } else {
            var i, j :| 0 <= i < j < |events[1..]| && events[1..][i] == Interrupt && events[1..][j] == Interrupt;
            assert events[i + 1] == Interrupt && events[j + 1] == Interrupt;
          }
        }
      }
    }
  }
}
