/** The drift-free frame clock of src/common/clock.cpp, in exact arithmetic: instants are real
    numbers of seconds and the reading of the system clock is a parameter of each call. */
module FrameClock {
  import opened Basics

  /** Remainder of the floating-point division of two non-negative numbers. */
  function Fmod(a: real, b: real): (r: real)
    requires a >= 0.0 && b > 0.0
  {
    a - (a / b).Floor as real * b
  }

  /** Seconds between two frames. */
  function Period(fps: int): (rate: real)
    requires fps > 0
    ensures rate > 0.0
  {
    1.0 / fps as real
  }

  /** The instant of the n-th frame boundary after `start`. */
  function Boundary(start: real, n: int, rate: real): (t: real)
  {
    start + n as real * rate
  }

  /** How many frames one call moves on, said without the clock's arithmetic: one frame when the
      caller is on time, otherwise up to the first frame boundary strictly after `now`. */
  function FramesPassed(sinceStart: real, rate: real): (n: int)
    requires rate > 0.0
  {
    if sinceStart <= rate then 1 else (sinceStart / rate).Floor + 1
  }

  class Clock {
    var start: real
    var end: real

    constructor (now: real)
      ensures start == now && end == now
    {
      start := now;
      end := now;
    }

    method Restart(now: real)
      modifies this`start
      ensures start == now
    {
      start := now;
    }

    /** `now` is the instant at which the call is made; `wakeUp` the one at which it returns. */
    method SleepAndCalcNextIt(fps: int, it: int, now: real) returns (nextIt: int, wakeUp: real)
      requires fps > 0
      modifies this
      ensures end == now
      ensures nextIt == it + FramesPassed(now - old(start), Period(fps))
      ensures start == Boundary(old(start), nextIt - it, Period(fps))
      ensures wakeUp == start
    {
      var rate := Period(fps);
      end := now;
      var x := end - start;
      var rest := rate - x;
      nextIt := it;
      if rest < 0.0 {
        var behind := -rest;
        rest := rate - Fmod(behind, rate);
        var lost := behind + rest;
        LostFrames(x, rate, lost);
        start := start + lost;
        nextIt := nextIt + (lost / rate).Floor;
      }
      wakeUp := now + rest;
      start := start + rate;
      nextIt := nextIt + 1;
    }
  }

  /** The quotient counts the multiples of `b` that fit below `a`. */
  lemma Quotient(a: real, b: real, m: int)
    requires b > 0.0
    ensures m as real * b <= a <==> m <= (a / b).Floor
  {
    var q := a / b;
    assert q * b == a;
    var gap := q - m as real;
    assert gap * b == a - m as real * b;
    if gap > 0.0 { MulPos(gap, b); } else if gap < 0.0 { MulPos(-gap, b); }
  }

  lemma QuotientOfMultiple(a: real, k: int, b: real)
    requires b > 0.0 && a == k as real * b
    ensures (a / b).Floor == k
  {
    Quotient(a, b, k);
    Quotient(a, b, k + 1);
    assert (k + 1) as real * b == a + b;
  }

  /** The quotient of one more period is one more. */
  lemma QuotientShift(a: real, b: real)
    requires b > 0.0
    ensures ((a - b) / b).Floor == (a / b).Floor - 1
  {
    var k := (a / b).Floor;
    Quotient(a, b, k);
    Quotient(a, b, k + 1);
    Quotient(a - b, b, k - 1);
    Quotient(a - b, b, k);
  }

  /** The time given up when late is a whole number of frames. */
  lemma LostFrames(x: real, rate: real, lost: real)
    requires 0.0 < rate < x
    requires lost == (x - rate) + (rate - Fmod(x - rate, rate))
    ensures lost == (FramesPassed(x, rate) - 1) as real * rate
    ensures (lost / rate).Floor == FramesPassed(x, rate) - 1
  {
    QuotientShift(x, rate);
    var k := ((x - rate) / rate).Floor;
    assert lost == k as real * rate + rate == (k + 1) as real * rate;
    QuotientOfMultiple(lost, k + 1, rate);
  }

  /** The wake-up instant is never in the past; a late caller is woken at the first frame boundary
      after `now`, and every boundary skipped had already gone by. */
  lemma WakesAtFirstBoundaryAfterNow(rate: real, start: real, now: real)
    requires rate > 0.0
    ensures var n := FramesPassed(now - start, rate);
            && n >= 1
            && Boundary(start, n, rate) >= now
            && (n > 1 ==> Boundary(start, n, rate) > now)
            && (forall m :: 1 <= m < n ==> Boundary(start, m, rate) <= now)
  {
    var n := FramesPassed(now - start, rate);
    Quotient(now - start, rate, 1);
    Quotient(now - start, rate, n);
    assert 1.0 * rate == rate;
    forall m | 1 <= m < n ensures Boundary(start, m, rate) <= now {
      Quotient(now - start, rate, m);
    }
  }

  lemma BoundariesAdd(start: real, m: int, n: int, rate: real)
    ensures Boundary(Boundary(start, m, rate), n, rate) == Boundary(start, m + n, rate)
  {}

  /** As many frames as the rate says take one second, so n frames take n / fps. */
  lemma FramesFillSeconds(start: real, n: int, fps: int)
    requires fps > 0
    ensures (Boundary(start, n, Period(fps)) - start) * fps as real == n as real
  {
    var rate := Period(fps);
    assert rate * fps as real == 1.0;
    assert n as real * rate * fps as real == n as real * (rate * fps as real);
  }

  /** The iteration counter after a run of calls made at the given instants. */
  function RunIt(rate: real, start: real, it: int, nows: seq<real>): (r: int)
    requires rate > 0.0
    decreases |nows|
  {
    if nows == [] then it
    else
      var n := FramesPassed(nows[0] - start, rate);
      RunIt(rate, Boundary(start, n, rate), it + n, nows[1..])
  }

  /** Drives a clock through a run: whatever the work of each frame took, the frame number alone
      fixes the wake-up instant, so nothing drifts. */
  method Drive(clock: Clock, fps: int, nows: seq<real>) returns (it: int, wakeUp: real)
    requires fps > 0
    modifies clock
    ensures it == RunIt(Period(fps), old(clock.start), 0, nows)
    ensures it >= |nows|
    ensures clock.start == wakeUp == Boundary(old(clock.start), it, Period(fps))
  {
    ghost var rate := Period(fps);
    it, wakeUp := 0, clock.start;
    for i := 0 to |nows|
      invariant it >= i
      invariant clock.start == wakeUp == Boundary(old(clock.start), it, rate)
      invariant RunIt(rate, old(clock.start), 0, nows) == RunIt(rate, clock.start, it, nows[i..])
    {
      ghost var n := FramesPassed(nows[i] - clock.start, rate);
      WakesAtFirstBoundaryAfterNow(rate, clock.start, nows[i]);
      BoundariesAdd(old(clock.start), it, n, rate);
      assert nows[i..][1..] == nows[i + 1..];
      it, wakeUp := clock.SleepAndCalcNextIt(fps, it, nows[i]);
    }
  }
}
