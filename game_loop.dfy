/**
 * The fixed-timestep `GameLoop` (packages/engine/src/game-loop.ts). Each animation frame
 * adds the elapsed time (clamped to one second) to a lag accumulator, runs whole update
 * steps while the lag covers one, and renders with the leftover fraction of a step.
 *
 * `performance.now()` and `requestAnimationFrame` are inputs: a frame receives the time it
 * starts at, a clock for the readings taken inside the update loop, and the handle of the
 * next frame request. The three callbacks are recorded in a ghost trace.
 */
module Loop {
  import opened Wrappers
  import opened Numeric

  /** `SECOND_IN_MILLISECONDS` (from `./constants`, which is not part of this model). */
  const SecondInMilliseconds: real := 1000.0

  /** The strength of both frame-time filters (`fpsFilterStrength`). */
  const FilterStrength: real := 20.0

  datatype LoopCall = ProcessInput | Update(deltaTimeInMs: real) | Render(extrapolation: real)

  /** `n` update calls, each with the fixed step. */
  function Updates(n: nat, step: real): (calls: seq<LoopCall>)
    ensures |calls| == n && forall i :: 0 <= i < n ==> calls[i] == Update(step)
  {
    seq(n, _ => Update(step))
  }

  /** One step of the exponential moving average: `avg += (sample - avg) / fpsFilterStrength`. */
  function Smooth(avg: real, sample: real): real {
    avg + (sample - avg) / FilterStrength
  }

  /** The filter moves a twentieth of the way to the sample, so it lands between the two. */
  lemma SmoothBetween(avg: real, sample: real)
    ensures Smooth(avg, sample) - avg == (sample - avg) / 20.0
    ensures Min(avg, sample) <= Smooth(avg, sample) <= Max(avg, sample)
    ensures avg != sample ==> Smooth(avg, sample) != sample
  {
  }

  /**
   * The update-time filter after `n` update steps that read the clock at `clock(0)`,
   * `clock(1)`, …: returns the filtered frame time and the last reading.
   */
  function UpdateFilter(avg: real, previous: real, clock: nat -> real, n: nat): (real, real)
    decreases n
  {
    if n == 0 then (avg, previous)
    else
      var (a, p) := UpdateFilter(avg, previous, clock, n - 1);
      (Smooth(a, clock(n - 1) - p), clock(n - 1))
  }

  /**
   * While every update interval lies in [lo, hi], a filter that starts in [lo, hi] stays
   * there, and the last reading is the one the next interval is measured from.
   */
  lemma {:induction false} UpdateFilterBounded(avg: real, previous: real, clock: nat -> real, n: nat, lo: real, hi: real)
    requires lo <= avg <= hi
    requires forall i: nat :: i < n ==> lo <= clock(i) - (if i == 0 then previous else clock(i - 1)) <= hi
    ensures lo <= UpdateFilter(avg, previous, clock, n).0 <= hi
    ensures UpdateFilter(avg, previous, clock, n).1 == if n == 0 then previous else clock(n - 1)
    decreases n
  {
    if n > 0 {
      UpdateFilterBounded(avg, previous, clock, n - 1, lo, hi);
      var (a, p) := UpdateFilter(avg, previous, clock, n - 1);
      assert lo <= clock(n - 1) - p <= hi;
      SmoothBetween(a, clock(n - 1) - p);
    }
  }

  /** What one pass of the update loop changes: the lag, the bookkeeping, the trace and the update-time filter. */
  datatype Progress = Progress(lag: real, consumed: real, total: nat, trace: seq<LoopCall>, avg: real, previous: real)

  /** One pass with step `step` and the clock reading `reading`. */
  function Tick(p: Progress, step: real, reading: real): Progress {
    Progress(p.lag - step, p.consumed + step, p.total + 1, p.trace + [Update(step)], Smooth(p.avg, reading - p.previous), reading)
  }

  /** `n` passes, the k-th reading the clock at `clock(k)`. */
  function Ticks(p: Progress, step: real, clock: nat -> real, n: nat): Progress
    decreases n
  {
    if n == 0 then p else Tick(Ticks(p, step, clock, n - 1), step, clock(n - 1))
  }

  /** After `n` passes, `n` steps were taken from the lag and added to the consumed time, and `n` updates were traced. */
  lemma {:induction false} TicksMeaning(p: Progress, step: real, clock: nat -> real, n: nat)
    ensures Ticks(p, step, clock, n).lag == p.lag - (n as real) * step
    ensures Ticks(p, step, clock, n).consumed == p.consumed + (n as real) * step
    ensures Ticks(p, step, clock, n).total == p.total + n
    ensures Ticks(p, step, clock, n).trace == p.trace + Updates(n, step)
    ensures (Ticks(p, step, clock, n).avg, Ticks(p, step, clock, n).previous) == UpdateFilter(p.avg, p.previous, clock, n)
    decreases n
  {
    if n > 0 {
      TicksMeaning(p, step, clock, n - 1);
      OneMoreStep(step, n - 1);
      assert Updates(n - 1, step) + [Update(step)] == Updates(n, step);
    }
  }

  class GameLoop {
    var previousTimeInMs: real
    var updatePreviousTimeInMs: real
    var frameId: nat
    var lagInMs: real
    var updateStepInMs: real
    var renderFrameTimeInMs: real
    var updateFrameTimeInMs: real
    /** The callbacks invoked so far, in order. */
    ghost var trace: seq<LoopCall>
    /** Every handle returned by `requestAnimationFrame`, and the handles passed to `cancelAnimationFrame`. */
    ghost var requested: seq<nat>
    ghost var cancelled: set<nat>
    /**
     * The number of update calls so far, the sum of the steps they were given, and the sum
     * of every clamped delta added to the lag.
     */
    ghost var totalUpdates: nat
    ghost var consumedInMs: real
    ghost var clampedTotal: real

    /**
     * The lag plus the time consumed by updates is all the clamped time that was added, and
     * every update consumed exactly one step.
     */
    ghost predicate Valid()
      reads this
    {
      && 0.0 < updateStepInMs
      && lagInMs + consumedInMs == clampedTotal
      && consumedInMs == totalUpdates as real * updateStepInMs
    }

    /** `new GameLoop(updateFramesPerSeconds, …)`: the step is one second divided by the rate. */
    constructor (updateFramesPerSeconds: real)
      requires 0.0 < updateFramesPerSeconds
      ensures Valid() && updateStepInMs == SecondInMilliseconds / updateFramesPerSeconds
      ensures previousTimeInMs == 0.0 && updatePreviousTimeInMs == 0.0 && frameId == 0 && lagInMs == 0.0
      ensures renderFrameTimeInMs == 0.0 && updateFrameTimeInMs == 0.0
      ensures trace == [] && requested == [] && cancelled == {}
      ensures totalUpdates == 0 && consumedInMs == 0.0 && clampedTotal == 0.0
    {
      previousTimeInMs, updatePreviousTimeInMs, frameId, lagInMs := 0.0, 0.0, 0, 0.0;
      renderFrameTimeInMs, updateFrameTimeInMs := 0.0, 0.0;
      updateStepInMs := SecondInMilliseconds / updateFramesPerSeconds;
      trace, requested, cancelled, totalUpdates, consumedInMs, clampedTotal := [], [], {}, 0, 0.0, 0.0;
    }

    /** `start`: remembers the current time and requests the first frame. */
    method Start(now: real, handle: nat)
      modifies this
      ensures previousTimeInMs == now && frameId == handle && requested == old(requested) + [handle]
      ensures lagInMs == old(lagInMs) && updateStepInMs == old(updateStepInMs) && trace == old(trace)
      ensures updatePreviousTimeInMs == old(updatePreviousTimeInMs)
      ensures renderFrameTimeInMs == old(renderFrameTimeInMs) && updateFrameTimeInMs == old(updateFrameTimeInMs)
      ensures cancelled == old(cancelled) && totalUpdates == old(totalUpdates)
      ensures consumedInMs == old(consumedInMs) && clampedTotal == old(clampedTotal)
    {
      previousTimeInMs := now;
      frameId := handle;
      requested := requested + [handle];
    }

    /** `stop`: cancels the most recently requested frame. */
    method Stop()
      modifies this
      ensures cancelled == old(cancelled) + {frameId} && requested == old(requested)
      ensures frameId == old(frameId) && previousTimeInMs == old(previousTimeInMs) && lagInMs == old(lagInMs)
      ensures updateStepInMs == old(updateStepInMs) && trace == old(trace)
      ensures updatePreviousTimeInMs == old(updatePreviousTimeInMs)
      ensures renderFrameTimeInMs == old(renderFrameTimeInMs) && updateFrameTimeInMs == old(updateFrameTimeInMs)
      ensures totalUpdates == old(totalUpdates) && consumedInMs == old(consumedInMs) && clampedTotal == old(clampedTotal)
    {
      cancelled := cancelled + {frameId};
    }

    /**
     * One run of `loop`, starting at time `now`. Input is processed once, then whole steps
     * are consumed from the lag, each by one `update(step)`, then `render(lag / step)`.
     * With a non-negative lag, the number of updates is the floor of lag / step and the
     * leftover lag is less than one step.
     */
    method Frame(now: real, updateClock: nat -> real, handle: nat) returns (ghost n: nat)
      requires Valid()
      modifies this
      ensures Valid()
      ensures previousTimeInMs == now
      ensures clampedTotal == old(clampedTotal) + Min(SecondInMilliseconds, now - old(previousTimeInMs))
      ensures consumedInMs == old(consumedInMs) + (n as real) * updateStepInMs
      ensures lagInMs == old(lagInMs) + Min(SecondInMilliseconds, now - old(previousTimeInMs))
                         - (n as real) * updateStepInMs
      ensures lagInMs < updateStepInMs
      ensures var added := old(lagInMs) + Min(SecondInMilliseconds, now - old(previousTimeInMs));
              0.0 <= added ==> 0.0 <= lagInMs && n == (added / updateStepInMs).Floor
      ensures var added := old(lagInMs) + Min(SecondInMilliseconds, now - old(previousTimeInMs));
              0.0 <= added ==> 0.0 <= lagInMs / updateStepInMs < 1.0
      ensures old(lagInMs) + Min(SecondInMilliseconds, now - old(previousTimeInMs)) < updateStepInMs ==> n == 0
      ensures trace == old(trace) + [ProcessInput] + Updates(n, updateStepInMs)
                       + [Render(lagInMs / updateStepInMs)]
      ensures renderFrameTimeInMs == Smooth(old(renderFrameTimeInMs), now - old(previousTimeInMs))
      ensures (updateFrameTimeInMs, updatePreviousTimeInMs)
              == UpdateFilter(old(updateFrameTimeInMs), old(updatePreviousTimeInMs), updateClock,
                              n)
      ensures totalUpdates == old(totalUpdates) + n
      ensures updateStepInMs == old(updateStepInMs)
      ensures frameId == handle && requested == old(requested) + [handle] && cancelled == old(cancelled)
    {
      var deltaTimeInMs := now - previousTimeInMs;
      Advance(now);
      n := CatchUp(updateClock);
      Present(deltaTimeInMs, handle);
    }

    /** The start of `loop`: take the time, add the clamped delta to the lag, process input. */
    method Advance(now: real)
      requires Valid()
      modifies this
      ensures Valid() && previousTimeInMs == now
      ensures lagInMs == old(lagInMs) + Min(SecondInMilliseconds, now - old(previousTimeInMs))
      ensures clampedTotal == old(clampedTotal) + Min(SecondInMilliseconds, now - old(previousTimeInMs))
      ensures trace == old(trace) + [ProcessInput]
      ensures updateStepInMs == old(updateStepInMs) && totalUpdates == old(totalUpdates) && consumedInMs == old(consumedInMs)
      ensures updateFrameTimeInMs == old(updateFrameTimeInMs) && updatePreviousTimeInMs == old(updatePreviousTimeInMs)
      ensures renderFrameTimeInMs == old(renderFrameTimeInMs)
      ensures frameId == old(frameId) && requested == old(requested) && cancelled == old(cancelled)
    {
      var currentTimeInMs := now;
      var deltaTimeInMs := currentTimeInMs - previousTimeInMs;
      previousTimeInMs := currentTimeInMs;
      lagInMs := lagInMs + Min(SecondInMilliseconds, deltaTimeInMs);
      clampedTotal := clampedTotal + Min(SecondInMilliseconds, deltaTimeInMs);
      trace := trace + [ProcessInput];
    }

    /** The end of `loop`: render with the leftover fraction, filter the frame time, request the next frame. */
    method Present(deltaTimeInMs: real, handle: nat)
      requires Valid()
      modifies this
      ensures Valid()
      ensures 0.0 <= lagInMs < updateStepInMs ==> 0.0 <= lagInMs / updateStepInMs < 1.0
      ensures trace == old(trace) + [Render(lagInMs / updateStepInMs)]
      ensures renderFrameTimeInMs == Smooth(old(renderFrameTimeInMs), deltaTimeInMs)
      ensures frameId == handle && requested == old(requested) + [handle] && cancelled == old(cancelled)
      ensures lagInMs == old(lagInMs) && updateStepInMs == old(updateStepInMs) && previousTimeInMs == old(previousTimeInMs)
      ensures totalUpdates == old(totalUpdates) && consumedInMs == old(consumedInMs) && clampedTotal == old(clampedTotal)
      ensures updateFrameTimeInMs == old(updateFrameTimeInMs) && updatePreviousTimeInMs == old(updatePreviousTimeInMs)
    {
      if 0.0 <= lagInMs < updateStepInMs {
        ExtrapolationInUnitRange(lagInMs, updateStepInMs);
      }
      trace := trace + [Render(lagInMs / updateStepInMs)];
      renderFrameTimeInMs := renderFrameTimeInMs + (deltaTimeInMs - renderFrameTimeInMs) / FilterStrength;
      frameId := handle;
      requested := requested + [handle];
    }

    /**
     * The update loop inside `loop`: while the lag covers a step, read the clock, filter
     * the update time, call `update(step)` and take one step from the lag.
     */
    method CatchUp(updateClock: nat -> real) returns (n: nat)
      requires Valid()
      modifies this
      ensures Valid() && totalUpdates == old(totalUpdates) + n
      ensures consumedInMs == old(consumedInMs) + (n as real) * updateStepInMs
      ensures lagInMs == old(lagInMs) - (n as real) * updateStepInMs && lagInMs < updateStepInMs
      ensures 0.0 <= old(lagInMs) ==> 0.0 <= lagInMs && n == (old(lagInMs) / updateStepInMs).Floor
      ensures old(lagInMs) < updateStepInMs ==> n == 0
      ensures trace == old(trace) + Updates(n, updateStepInMs)
      ensures (updateFrameTimeInMs, updatePreviousTimeInMs)
              == UpdateFilter(old(updateFrameTimeInMs), old(updatePreviousTimeInMs), updateClock, n)
      ensures updateStepInMs == old(updateStepInMs) && Untouched() == old(Untouched())
    {
      n := 0;
      var step := updateStepInMs;
      ghost var lag0 := lagInMs;
      ghost var p0 := Snapshot();
      ghost var steps := (lagInMs / step).Floor;
      while lagInMs >= updateStepInMs
        invariant Valid() && updateStepInMs == step
        invariant Snapshot() == Ticks(p0, step, updateClock, n)
        invariant 0.0 <= lag0 ==> 0.0 <= lagInMs
        invariant lag0 < step ==> n == 0
        invariant Untouched() == old(Untouched())
        decreases steps - n
      {
        TicksMeaning(p0, step, updateClock, n);
        StepsLeft(lag0, step, n, lagInMs);
        UpdateOnce(updateClock(n));
        n := n + 1;
      }
      TicksMeaning(p0, step, updateClock, n);
      if 0.0 <= lag0 {
        FloorCount(lag0, n, step, lagInMs);
      }
    }

    /** The part of the state the update loop changes. */
    ghost function Snapshot(): Progress
      reads this
    {
      Progress(lagInMs, consumedInMs, totalUpdates, trace, updateFrameTimeInMs, updatePreviousTimeInMs)
    }

    /** The state the update loop leaves alone. */
    ghost function Untouched(): (real, real, real, nat, seq<nat>, set<nat>)
      reads this
    {
      (previousTimeInMs, clampedTotal, renderFrameTimeInMs, frameId, requested, cancelled)
    }

    /** One pass of the update loop, with the clock reading `updateCurrentTimeInMs`. */
    method UpdateOnce(updateCurrentTimeInMs: real)
      requires Valid() && lagInMs >= updateStepInMs
      modifies this
      ensures Valid()
      ensures lagInMs == old(lagInMs) - updateStepInMs && trace == old(trace) + [Update(updateStepInMs)]
      ensures totalUpdates == old(totalUpdates) + 1 && consumedInMs == old(consumedInMs) + updateStepInMs
      ensures updateFrameTimeInMs == Smooth(old(updateFrameTimeInMs), updateCurrentTimeInMs - old(updatePreviousTimeInMs))
      ensures updatePreviousTimeInMs == updateCurrentTimeInMs
      ensures updateStepInMs == old(updateStepInMs) && previousTimeInMs == old(previousTimeInMs)
      ensures clampedTotal == old(clampedTotal) && renderFrameTimeInMs == old(renderFrameTimeInMs)
      ensures frameId == old(frameId) && requested == old(requested) && cancelled == old(cancelled)
      ensures Snapshot() == Tick(old(Snapshot()), updateStepInMs, updateCurrentTimeInMs)
    {
      var updateDeltaTimeInMs := updateCurrentTimeInMs - updatePreviousTimeInMs;
      updateFrameTimeInMs := updateFrameTimeInMs + (updateDeltaTimeInMs - updateFrameTimeInMs) / FilterStrength;
      updatePreviousTimeInMs := updateCurrentTimeInMs;
      trace := trace + [Update(updateStepInMs)];
      lagInMs := lagInMs - updateStepInMs;
      totalUpdates := totalUpdates + 1;
      consumedInMs := consumedInMs + updateStepInMs;
    }

    /** `getRenderFps`: one second over the filtered frame time; JavaScript's `Infinity` for zero is `None` here. */
    function RenderFps(): (fps: Option<real>)
      reads this
      ensures fps.Some? <==> renderFrameTimeInMs != 0.0
      ensures fps.Some? ==> fps.value * renderFrameTimeInMs == SecondInMilliseconds
    {
      if renderFrameTimeInMs == 0.0 then None else Some(SecondInMilliseconds / renderFrameTimeInMs)
    }

    /** `getUpdateFps`, likewise over the filtered update time. */
    function UpdateFps(): (fps: Option<real>)
      reads this
      ensures fps.Some? <==> updateFrameTimeInMs != 0.0
      ensures fps.Some? ==> fps.value * updateFrameTimeInMs == SecondInMilliseconds
    {
      if updateFrameTimeInMs == 0.0 then None else Some(SecondInMilliseconds / updateFrameTimeInMs)
    }
  }

  /** With a non-negative leftover lag below one step, the extrapolation passed to render is in [0, 1). */
  lemma ExtrapolationInUnitRange(lag: real, step: real)
    requires 0.0 <= lag < step
    ensures 0.0 <= lag / step < 1.0
  {
  }

  lemma DivideShift(x: real, k: real, b: real, r: real)
    requires b > 0.0 && r == x - k * b
    ensures r / b == x / b - k
  {
    assert (r / b) * b == r;
    assert (x / b) * b == x;
  }

  lemma OneMoreStep(step: real, n: nat)
    ensures ((n + 1) as real) * step == (n as real) * step + step
  {
  }

  /** A lag that still covers a step after `n` steps came from one worth more than `n` whole steps. */
  lemma StepsLeft(x: real, b: real, n: nat, r: real)
    requires 0.0 < b <= r && r == x - (n as real) * b
    ensures n + 1 <= (x / b).Floor
  {
    DivideShift(x, n as real, b, r);
    assert 1.0 <= r / b;
  }

  /** `k` whole steps of size `b` taken from `x`, leaving `r` in [0, b), is the floor of x / b. */
  lemma FloorCount(x: real, k: int, b: real, r: real)
    requires b > 0.0 && r == x - (k as real) * b && 0.0 <= r < b
    ensures k == (x / b).Floor
  {
    ExtrapolationInUnitRange(r, b);
    DivideShift(x, k as real, b, r);
  }
}
