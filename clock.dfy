/** The simulation clock of the render loop (src/components/SolarSystem2D.jsx,
    lines 179-186): one abstract day counter `t`, advanced once per frame by the
    clamped real time since the previous frame, unless paused. Times are exact
    reals; the source uses doubles. The speed slider ranges over [0, 3]
    (src/components/ControlPanel.jsx, lines 21-23). */
module Clock {

  /** The largest step, in seconds, that one frame may take. */
  const MaxStep: real := 0.05

  /** Abstract days that pass per second of real time at speed 1. */
  const DaysPerSecond: real := 60.0

  /** The top of the speed slider. */
  const MaxSpeed: real := 3.0

  /** A speed the slider can produce. */
  predicate ValidSpeed(speed: real)
  {
    0.0 <= speed <= MaxSpeed
  }

  /** `Math.min(0.05, (now - last) / 1000)`: the elapsed milliseconds as seconds,
      capped at MaxStep. */
  function StepSeconds(elapsedMs: real): (dt: real)
    ensures dt <= MaxStep && dt <= elapsedMs / 1000.0
    ensures dt == MaxStep || dt == elapsedMs / 1000.0
  {
    var s := elapsedMs / 1000.0;
    if s < MaxStep then s else MaxStep
  }

  /** The counter after one frame that comes `elapsedMs` after the previous one. */
  function Advanced(t: real, elapsedMs: real, paused: bool, speed: real): real
  {
    if paused then t else t + StepSeconds(elapsedMs) * DaysPerSecond * speed
  }

  /** A paused frame leaves the counter unchanged. */
  lemma PausedFreezes(t: real, elapsedMs: real, speed: real)
    ensures Advanced(t, elapsedMs, true, speed) == t
  {
  }

  /** The step of a running frame lies in [0, MaxStep·DaysPerSecond·speed]. */
  lemma StepBounds(t: real, elapsedMs: real, speed: real)
    requires 0.0 <= elapsedMs && 0.0 <= speed
    ensures t <= Advanced(t, elapsedMs, false, speed) <= t + MaxStep * DaysPerSecond * speed
  {
  }

  /** For a slider speed and a frame that does not go back in time, the counter
      never decreases and grows by at most 9 abstract days. */
  lemma TickBounds(t: real, elapsedMs: real, paused: bool, speed: real)
    requires 0.0 <= elapsedMs && ValidSpeed(speed)
    ensures t <= Advanced(t, elapsedMs, paused, speed) <= t + 9.0
  {
    if !paused {
      StepBounds(t, elapsedMs, speed);
    }
  }

  /** The step of a running frame is proportional to the speed. */
  lemma StepLinearInSpeed(t: real, elapsedMs: real, speed: real)
    ensures Advanced(t, elapsedMs, false, speed) - t == speed * (Advanced(t, elapsedMs, false, 1.0) - t)
  {
  }

  /** Within the clamp, running for d milliseconds at speed k advances the counter
      as far as running for d·k milliseconds at speed 1. */
  lemma DurationTradesForSpeed(t: real, d: real, k: real)
    requires 0.0 <= k && d * k / 1000.0 <= MaxStep && d / 1000.0 <= MaxStep
    ensures Advanced(t, d, false, k) == Advanced(t, d * k, false, 1.0)
  {
  }

  /** Past the clamp the trade fails: a 50 ms frame at speed 2 advances the counter
      by 6 days, a 100 ms frame at speed 1 only by 3. */
  lemma ClampBreaksTrade()
    ensures Advanced(0.0, 50.0, false, 2.0) == 6.0
    ensures Advanced(0.0, 100.0, false, 1.0) == 3.0
  {
  }

  /** The counter after a run of frames with the given timestamps, all under the
      same `paused` and `speed`, starting from counter `t` and timestamp `last`. */
  function Run(t: real, last: real, frames: seq<real>, paused: bool, speed: real): real
    decreases |frames|
  {
    if frames == [] then t
    else Run(Advanced(t, frames[0] - last, paused, speed), frames[0], frames[1..], paused, speed)
  }

  /** Timestamps that never go back in time from `last` on. */
  predicate Monotone(last: real, frames: seq<real>)
  {
    && (|frames| > 0 ==> last <= frames[0])
    && forall i :: 0 < i < |frames| ==> frames[i - 1] <= frames[i]
  }

  /** While paused, however many frames go by, the counter stays where it is. */
  lemma {:induction false} RunPaused(t: real, last: real, frames: seq<real>, speed: real)
    ensures Run(t, last, frames, true, speed) == t
    decreases |frames|
  {
    if frames != [] {
      RunPaused(t, frames[0], frames[1..], speed);
    }
  }

  /** Over frames that never go back in time, at a slider speed, the counter
      never decreases and grows by at most 9 days per frame. */
  lemma {:induction false} RunBounds(t: real, last: real, frames: seq<real>, paused: bool, speed: real)
    requires Monotone(last, frames) && ValidSpeed(speed)
    ensures t <= Run(t, last, frames, paused, speed) <= t + 9.0 * |frames| as real
    decreases |frames|
  {
    if frames != [] {
      var t1 := Advanced(t, frames[0] - last, paused, speed);
      TickBounds(t, frames[0] - last, paused, speed);
      assert Monotone(frames[0], frames[1..]) by {
        forall i | 0 < i < |frames[1..]|
          ensures frames[1..][i - 1] <= frames[1..][i]
        {
          assert frames[i] <= frames[i + 1];
        }
        if |frames| > 1 {
          assert frames[0] <= frames[1];
        }
      }
      RunBounds(t1, frames[0], frames[1..], paused, speed);
    }
  }

  /** The loop's clock state: the counter `stateRef.current.t`, which outlives a
      restart of the effect, and the timestamp `last` of the previous frame. */
  class SimClock {
    var t: real
    var last: real

    /** The first mount: the counter starts at 0 and `last` at the current time. */
    constructor (now: real)
      ensures t == 0.0 && last == now
    {
      t := 0.0;
      last := now;
    }

    /** The effect runs again (paused, speed or scale changed): the counter is
        kept and `last` is taken afresh. */
    method Restart(now: real)
      modifies this
      ensures t == old(t) && last == now
    {
      last := now;
    }

    /** One frame of `loop(now)`: clamp the elapsed time, remember `now`, and
        advance the counter unless paused. */
    method Tick(now: real, paused: bool, speed: real)
      modifies this
      ensures last == now
      ensures t == Advanced(old(t), now - old(last), paused, speed)
    {
      var dt := StepSeconds(now - last);
      last := now;
      if !paused {
        t := t + dt * DaysPerSecond * speed;
      }
    }
  }
}
