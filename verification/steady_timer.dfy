/** A restartable stopwatch over the monotonic clock, and the rate conversion
  * `PerSecond`. Time points and durations are whole nanoseconds; the clock reading
  * `now` is a parameter of every call that the source makes with `Now()`. */
module SteadyTimer {
  /** One second in nanoseconds. */
  const SECOND: int := 1_000_000_000

  /** `PerSecond(duration)`: how many such durations fit in one second. The duration
    * is `count` ticks of `num/den` seconds each. */
  function PerSecond(count: int, num: nat, den: nat): (r: real)
    requires count > 0 && num > 0 && den > 0
    ensures r > 0.0
  {
    var oneSec := (den as real) / (num as real);
    oneSec / (count as real)
  }

  /** The rate times the duration in seconds is one. */
  lemma PerSecondInverse(count: int, num: nat, den: nat)
    requires count > 0 && num > 0 && den > 0
    ensures PerSecond(count, num, den) * ((count as real) * (num as real) / (den as real)) == 1.0
  {
    var c, n, d := count as real, num as real, den as real;
    assert (d / n) / c * (c * n / d) == 1.0 by {
      assert (d / n) / c == d / (n * c);
      assert d / (n * c) * (c * n / d) == (d * (c * n)) / ((n * c) * d);
    }
  }

  class Timer {
    /** `mStart`, the time point of the last restart. */
    var start: int

    /** The timer starts at the time it is made. */
    constructor (now: int)
      ensures start == now
    {
      start := now;
    }

    /** `Get(now)`: time elapsed since the last restart. */
    function Get(now: int): (d: int)
      reads this
      ensures now >= start ==> d >= 0
      ensures d + start == now
    {
      now - start
    }

    /** `Restart(now)`: the elapsed time, after which the timer counts from `now`. */
    method Restart(now: int) returns (elapsed: int)
      modifies this
      ensures elapsed == old(Get(now))
      ensures start == now && Get(now) == 0
    {
      elapsed := Get(now);
      start := now;
    }
  }

  /** Restarting twice at the same instant returns zero the second time. */
  method RestartTwice(t: Timer, now: int) returns (first: int, second: int)
    modifies t
    ensures first == old(t.Get(now)) && second == 0 && t.start == now
  {
    first := t.Restart(now);
    second := t.Restart(now);
  }
}
