/**
 * `TimerComponent` (packages/engine/src/components/timer.component.ts): a countdown that is
 * idle at zero, restarts only when idle, and publishes TIMEOUT once when a decrement takes
 * it below zero. Publications go to a ghost log; handlers are abstract.
 */
module Timers {

  /** The two stored numbers of a timer. */
  datatype TimerState = TimerState(duration: real, timeLeft: real)

  /** `start(durationInSeconds)`: ignored unless idle; a positive argument replaces the duration. */
  function Started(st: TimerState, durationInSeconds: real): (r: TimerState)
    ensures st.timeLeft != 0.0 ==> r == st
    ensures st.timeLeft == 0.0 && durationInSeconds > 0.0 ==> r == TimerState(durationInSeconds, durationInSeconds)
    ensures st.timeLeft == 0.0 && durationInSeconds <= 0.0 ==> r == TimerState(st.duration, st.duration)
  {
    if st.timeLeft != 0.0 then st
    else
      var duration := if durationInSeconds > 0.0 then durationInSeconds else st.duration;
      TimerState(duration, duration)
  }

  /** `update(delta)`: the new state, and whether TIMEOUT was published. */
  function Updated(st: TimerState, deltaTimeInSeconds: real): (r: (TimerState, bool))
    ensures r.0.duration == st.duration && 0.0 <= r.0.timeLeft
    ensures st.timeLeft == 0.0 ==> r == (st, false)
    ensures r.1 <==> st.timeLeft != 0.0 && st.timeLeft - deltaTimeInSeconds < 0.0
    ensures r.1 ==> r.0.timeLeft == 0.0
    ensures st.timeLeft != 0.0 && !r.1 ==> r.0.timeLeft == st.timeLeft - deltaTimeInSeconds
  {
    if st.timeLeft == 0.0 then (st, false)
    else
      var left := st.timeLeft - deltaTimeInSeconds;
      if left < 0.0 then (st.(timeLeft := 0.0), true) else (st.(timeLeft := left), false)
  }

  /** Running `update` with each delta in turn: the final state and the number of TIMEOUTs. */
  function UpdatedAll(st: TimerState, deltas: seq<real>): (TimerState, nat)
    decreases |deltas|
  {
    if deltas == [] then (st, 0)
    else
      var (next, fired) := Updated(st, deltas[0]);
      var (last, count) := UpdatedAll(next, deltas[1..]);
      (last, count + if fired then 1 else 0)
  }

  /** Once idle, the timer stays idle and silent through any number of updates. */
  lemma {:induction false} IdleStaysIdle(st: TimerState, deltas: seq<real>)
    requires st.timeLeft == 0.0
    ensures UpdatedAll(st, deltas) == (st, 0)
    decreases |deltas|
  {
    if deltas != [] {
      IdleStaysIdle(st, deltas[1..]);
    }
  }

  /** Between two starts at most one TIMEOUT is published, because the timer is idle after it. */
  lemma {:induction false} AtMostOneTimeout(st: TimerState, deltas: seq<real>)
    ensures UpdatedAll(st, deltas).1 <= 1
    ensures UpdatedAll(st, deltas).1 == 1 ==> UpdatedAll(st, deltas).0.timeLeft == 0.0
    decreases |deltas|
  {
    if deltas != [] {
      var (next, fired) := Updated(st, deltas[0]);
      if fired {
        IdleStaysIdle(next, deltas[1..]);
      } else {
        AtMostOneTimeout(next, deltas[1..]);
      }
    }
  }

  /** The sum of a run of deltas. */
  function Total(deltas: seq<real>): real
    decreases |deltas|
  {
    if deltas == [] then 0.0 else deltas[0] + Total(deltas[1..])
  }

  /**
   * As written, a countdown that lands exactly on zero goes idle without publishing: a timer
   * started at 1 second and updated twice by 0.5 seconds never fires.
   */
  lemma ExactExpirySilent()
    ensures Total([0.5, 0.5]) == 1.0
    ensures UpdatedAll(TimerState(1.0, 1.0), [0.5, 0.5]) == (TimerState(1.0, 0.0), 0)
  {
    assert [0.5, 0.5][1..] == [0.5];
    assert [0.5][1..] == [];
  }

  /** The evidently intended `update`: TIMEOUT when the countdown reaches zero or passes it. */
  function UpdatedFixed(st: TimerState, deltaTimeInSeconds: real): (r: (TimerState, bool))
    ensures r.0.duration == st.duration && 0.0 <= r.0.timeLeft
    ensures st.timeLeft == 0.0 ==> r == (st, false)
    ensures r.1 <==> st.timeLeft != 0.0 && st.timeLeft - deltaTimeInSeconds <= 0.0
    ensures r.1 ==> r.0.timeLeft == 0.0
    ensures st.timeLeft != 0.0 && !r.1 ==> r.0.timeLeft == st.timeLeft - deltaTimeInSeconds
  {
    if st.timeLeft == 0.0 then (st, false)
    else
      var left := st.timeLeft - deltaTimeInSeconds;
      if left <= 0.0 then (st.(timeLeft := 0.0), true) else (st.(timeLeft := left), false)
  }

  /** Running the corrected `update` with each delta in turn. */
  function UpdatedAllFixed(st: TimerState, deltas: seq<real>): (TimerState, nat)
    decreases |deltas|
  {
    if deltas == [] then (st, 0)
    else
      var (next, fired) := UpdatedFixed(st, deltas[0]);
      var (last, count) := UpdatedAllFixed(next, deltas[1..]);
      (last, count + if fired then 1 else 0)
  }

  lemma {:induction false} IdleStaysIdleFixed(st: TimerState, deltas: seq<real>)
    requires st.timeLeft == 0.0
    ensures UpdatedAllFixed(st, deltas) == (st, 0)
    decreases |deltas|
  {
    if deltas != [] {
      IdleStaysIdleFixed(st, deltas[1..]);
    }
  }

  /**
   * With the correction, a running timer whose non-negative deltas add up to at least its
   * remaining time publishes TIMEOUT exactly once and ends idle.
   */
  lemma {:induction false} FixedFiresOnExpiry(st: TimerState, deltas: seq<real>)
    requires 0.0 < st.timeLeft <= Total(deltas)
    requires forall i :: 0 <= i < |deltas| ==> 0.0 <= deltas[i]
    ensures UpdatedAllFixed(st, deltas) == (st.(timeLeft := 0.0), 1)
    decreases |deltas|
  {
    var (next, fired) := UpdatedFixed(st, deltas[0]);
    if fired {
      IdleStaysIdleFixed(next, deltas[1..]);
    } else {
      FixedFiresOnExpiry(next, deltas[1..]);
    }
  }

  class Timer {
    var durationInSeconds: real
    var timeLeft: real
    /** The number of TIMEOUT publications so far, and the subscribed handlers. */
    ghost var timeouts: nat
    ghost var handlers: seq<nat>

    function State(): TimerState
      reads this
    {
      TimerState(durationInSeconds, timeLeft)
    }

    /** `new TimerComponent(duration, autoStart = false)`: idle, or started at once. */
    constructor (duration: real, autoStart: bool := false)
      ensures State() == if autoStart then Started(TimerState(duration, 0.0), -1.0) else TimerState(duration, 0.0)
      ensures autoStart ==> timeLeft == duration
      ensures timeouts == 0 && handlers == []
    {
      durationInSeconds, timeLeft := duration, 0.0;
      timeouts, handlers := 0, [];
      new;
      if autoStart {
        Start();
      }
    }

    method Start(durationInSeconds': real := -1.0)
      modifies this
      ensures State() == Started(old(State()), durationInSeconds')
      ensures timeouts == old(timeouts) && handlers == old(handlers)
    {
      if timeLeft != 0.0 {
        return;
      }
      if durationInSeconds' > 0.0 {
        durationInSeconds := durationInSeconds';
      }
      timeLeft := durationInSeconds;
    }

    method Update(deltaTimeInSeconds: real)
      modifies this
      ensures State() == Updated(old(State()), deltaTimeInSeconds).0
      ensures timeouts == old(timeouts) + if Updated(old(State()), deltaTimeInSeconds).1 then 1 else 0
      ensures handlers == old(handlers)
    {
      if timeLeft == 0.0 {
        return;
      }
      timeLeft := timeLeft - deltaTimeInSeconds;
      if timeLeft < 0.0 {
        timeLeft := 0.0;
        timeouts := timeouts + 1;
      }
    }

    method Subscribe(handler: nat)
      modifies this
      ensures handlers == old(handlers) + [handler]
      ensures State() == old(State()) && timeouts == old(timeouts)
    {
      handlers := handlers + [handler];
    }
  }
}
