/**
 * The video reference clock: a tick counter that advances by whole vblank
 * intervals while the display's vertical blank is tracked, and follows the
 * raw performance counter (minus an offset) otherwise.
 *
 * The snapshot `ClockState` holds the fields of CVideoReferenceClock that the
 * tick accounting touches; the transition functions below are what each
 * operation does to them, and the class `ReferenceClock` performs the same
 * updates in place. Display queries, the performance counter and the
 * condition-variable wake-up are inputs.
 */
module VideoReferenceClock {
  import opened Arith

  /** Longest wait, in thousandths of one vblank interval. */
  const MAXDELAY: int := 1200

  datatype ClockState = ClockState(
    currTime: int,
    adjustedFrequency: int,
    systemFrequency: int,
    refreshRate: int,
    missedVblanks: int,
    vblankTime: int,
    clockOffset: int,
    useVblank: bool,
    lastRefreshTime: int,
    prevRefreshRate: int,
    width: int,
    height: int)

  /** Ticks of one vblank interval when the clock runs at `freq` ticks per second. */
  function Interval(freq: int, rate: int): int
    requires rate > 0
  {
    TruncDiv(freq, rate)
  }

  /** The vblank count UpdateClock acts on once missed vblanks are discounted. */
  function NetVblanks(s: ClockState, nrVBlanks: int, checkMissed: bool): int
  {
    if checkMissed then nrVBlanks - s.missedVblanks else nrVBlanks
  }

  /** What UpdateClock adds to the current time for `n` net vblanks. */
  function Advance(n: int, adjustedFrequency: int, rate: int): int
    requires rate > 0
  {
    if n > 0 then TruncDiv(n * adjustedFrequency, rate) else 0
  }

  /** UpdateClock(NrVBlanks, CheckMissed). */
  function Updated(s: ClockState, nrVBlanks: int, checkMissed: bool): (t: ClockState)
    requires s.refreshRate > 0
    requires IsInt64(NetVblanks(s, nrVBlanks, checkMissed) * s.adjustedFrequency)
    ensures checkMissed ==> t.missedVblanks == 0
    ensures !checkMissed ==> t.missedVblanks == s.missedVblanks
    ensures t.currTime == s.currTime + Advance(NetVblanks(s, nrVBlanks, checkMissed), s.adjustedFrequency, s.refreshRate)
    ensures t.(currTime := s.currTime, missedVblanks := s.missedVblanks) == s
  {
    var n := NetVblanks(s, nrVBlanks, checkMissed);
    var s1 := if checkMissed then s.(missedVblanks := 0) else s;
    if n > 0 then s1.(currTime := s1.currTime + TruncDiv(n * s1.adjustedFrequency, s1.refreshRate)) else s1
  }

  /** Integer division of a value lying between two multiples of the divisor. */
  lemma DivBetween(x: int, d: int, lo: int, hi: int)
    requires d > 0 && lo * d <= x < hi * d
    ensures lo <= x / d < hi
  {
    var k := x / d;
    assert k * d <= x < (k + 1) * d;
    if k < lo {
      MulMonotone(k + 1, lo, d);
    }
    if k >= hi {
      MulMonotone(hi, k, d);
    }
  }

  /** A positive advance of `n` vblanks is at least `n` whole intervals and short of `n` more ticks. */
  lemma {:induction false} AdvanceBounds(n: int, freq: int, rate: int)
    requires n > 0 && freq >= 0 && rate > 0
    ensures n * Interval(freq, rate) <= Advance(n, freq, rate) < n * Interval(freq, rate) + n
  {
    var q, r := freq / rate, freq % rate;
    assert n * freq == (n * q) * rate + n * r by {
      assert freq == q * rate + r;
      assert n * (q * rate + r) == (n * q) * rate + n * r;
    }
    assert 0 <= n * r;
    assert n * r < n * rate by {
      MulMonotone(r + 1, rate, n);
      assert (r + 1) * n == n * r + n;
    }
    assert (n * q + n) * rate == (n * q) * rate + n * rate;
    DivBetween(n * freq, rate, n * q, n * q + n);
    TruncDivNonNeg(n * freq, rate);
    TruncDivNonNeg(freq, rate);
  }

  /** With a non-negative frequency, UpdateClock never moves the clock back. */
  lemma UpdateNeverDecreases(s: ClockState, nrVBlanks: int, checkMissed: bool)
    requires s.refreshRate > 0 && s.adjustedFrequency >= 0
    requires IsInt64(NetVblanks(s, nrVBlanks, checkMissed) * s.adjustedFrequency)
    ensures Updated(s, nrVBlanks, checkMissed).currTime >= s.currTime
    ensures NetVblanks(s, nrVBlanks, checkMissed) <= 0 ==>
              Updated(s, nrVBlanks, checkMissed).currTime == s.currTime
  {
    var n := NetVblanks(s, nrVBlanks, checkMissed);
    if n > 0 {
      AdvanceBounds(n, s.adjustedFrequency, s.refreshRate);
      assert n * Interval(s.adjustedFrequency, s.refreshRate) >= 0;
    }
  }

  /** The late path of Wait: one synthesised vblank. */
  function AfterLateWait(s: ClockState): (t: ClockState)
    requires s.refreshRate > 0 && IsInt64(s.adjustedFrequency)
    ensures t.missedVblanks == s.missedVblanks + 1
    ensures t.vblankTime == s.vblankTime + Interval(s.systemFrequency, s.refreshRate)
    ensures t.currTime == s.currTime + Advance(1, s.adjustedFrequency, s.refreshRate)
  {
    var s1 := s.(missedVblanks := s.missedVblanks + 1,
                 vblankTime := s.vblankTime + Interval(s.systemFrequency, s.refreshRate));
    Updated(s1, 1, false)
  }

  /** Deadline of Wait: the last vblank plus MAXDELAY/1000 of an interval. */
  function Deadline(s: ClockState): int
    requires s.refreshRate > 0
  {
    s.vblankTime + TruncDiv(TruncDiv(s.systemFrequency, s.refreshRate) * MAXDELAY, 1000)
  }

  /** Milliseconds Wait would sleep at raw counter value `now`. */
  function SleepTime(s: ClockState, now: int): int
    requires s.refreshRate > 0 && s.systemFrequency > 0
  {
    TruncDiv((Deadline(s) - now) * 1000, s.systemFrequency)
  }

  /** Wait is late when there is no time left to sleep, or the sleep timed out. */
  predicate IsLate(s: ClockState, now: int, signalled: bool)
    requires s.refreshRate > 0 && s.systemFrequency > 0
  {
    SleepTime(s, now) <= 0 || !signalled
  }

  /** Wait(msecs) in vblank mode, and its no-op in counter mode. */
  function AfterWait(s: ClockState, now: int, signalled: bool): (t: ClockState)
    requires s.refreshRate > 0 && s.systemFrequency > 0 && IsInt64(s.adjustedFrequency)
  {
    if s.useVblank && IsLate(s, now, signalled) then AfterLateWait(s) else s
  }

  /** A computed sleep time of zero or less exactly when less than a millisecond remains. */
  lemma {:induction false} LateWhenNoSleepLeft(s: ClockState, now: int)
    requires s.refreshRate > 0 && s.systemFrequency > 0
    ensures SleepTime(s, now) <= 0 <==> (Deadline(s) - now) * 1000 < s.systemFrequency
    ensures now >= Deadline(s) ==> IsLate(s, now, true)
  {
    var d := (Deadline(s) - now) * 1000;
    if d >= 0 {
      TruncDivNonNeg(d, s.systemFrequency);
    } else {
      assert TruncDiv(d, s.systemFrequency) <= 0;
    }
  }

  /** The counter-reset branch of RunGLX: exactly one interval, missed vblanks untouched. */
  function AfterCounterReset(s: ClockState): (t: ClockState)
    requires s.refreshRate > 0
    ensures t.currTime == s.currTime + Interval(s.adjustedFrequency, s.refreshRate)
    ensures t.(currTime := s.currTime) == s
  {
    s.(currTime := s.currTime + TruncDiv(s.adjustedFrequency, s.refreshRate))
  }

  /** UpdateRefreshrate on GLX, `rate` being what RandR reports. */
  function RefreshedGlx(s: ClockState, rate: int): (r: (ClockState, bool))
    ensures r.1 ==> r.0.refreshRate == rate && r.0.prevRefreshRate == rate && s.prevRefreshRate != rate
    ensures !r.1 ==> r.0.refreshRate == s.refreshRate
    ensures RefreshDue(s) ==> (r.1 <==> rate != s.prevRefreshRate) && r.0.lastRefreshTime == s.currTime
    ensures !RefreshDue(s) ==> r == (s, false)
    ensures r.0.(lastRefreshTime := s.lastRefreshTime, prevRefreshRate := s.prevRefreshRate, refreshRate := s.refreshRate) == s
  {
    if s.currTime - s.lastRefreshTime > s.systemFrequency then
      var s1 := s.(lastRefreshTime := s.currTime);
      if rate != s.prevRefreshRate then (s1.(prevRefreshRate := rate, refreshRate := rate), true)
      else (s1, false)
    else (s, false)
  }

  /** Gate of UpdateRefreshrate: more than one second of clock time since the last query. */
  predicate RefreshDue(s: ClockState)
  {
    s.currTime - s.lastRefreshTime > s.systemFrequency
  }

  lemma RefreshGated(s: ClockState, rate: int)
    ensures !RefreshDue(s) ==> RefreshedGlx(s, rate) == (s, false)
    ensures !RefreshDue(s) ==> RefreshedD3dAsWritten(s, rate, 0, 0) == (s, false)
    ensures RefreshDue(s) ==> RefreshedGlx(s, rate).0.lastRefreshTime == s.currTime
  {
  }

  /**
   * UpdateRefreshrate on Win32 as written: like GLX it asks the display for its
   * mode, maps 0 Hz to 60 Hz and reports a change of rate or size, but it never
   * records when it last asked.
   */
  function RefreshedD3dAsWritten(s: ClockState, rate: int, width: int, height: int): (r: (ClockState, bool))
    ensures r.0.lastRefreshTime == s.lastRefreshTime && r.0.currTime == s.currTime
    ensures !RefreshDue(s) ==> r == (s, false)
    ensures RefreshDue(s) ==>
              var rr := if rate == 0 then 60 else rate;
              && r.0.refreshRate == rr && r.0.prevRefreshRate == rr
              && r.0.width == width && r.0.height == height
              && (r.1 <==> rr != s.prevRefreshRate || s.width != width || s.height != height)
  {
    if RefreshDue(s) then
      var rr := if rate == 0 then 60 else rate;
      var rateChanged := rr != s.prevRefreshRate;
      (s.(refreshRate := rr,
          prevRefreshRate := if rateChanged then rr else s.prevRefreshRate,
          width := width, height := height),
       rateChanged || s.width != width || s.height != height)
    else (s, false)
  }

  /** Once the Win32 gate has opened it stays open: every later call queries the display again. */
  lemma D3dGateNeverCloses(s: ClockState, rate: int, width: int, height: int)
    requires RefreshDue(s)
    ensures RefreshDue(RefreshedD3dAsWritten(s, rate, width, height).0)
  {
  }

  lemma D3dQueriesEveryVblank()
    ensures var s := ClockState(3000, 1000, 1000, 60, 0, 0, 0, true, 0, 60, 640, 480);
            RefreshDue(s) && RefreshedD3dAsWritten(s, 50, 640, 480).1 &&
            RefreshDue(RefreshedD3dAsWritten(s, 50, 640, 480).0)
  {
  }

  /**
   * UpdateRefreshrate on Win32, corrected: the query time is recorded, as the
   * GLX branch does; otherwise it is the branch as written.
   */
  function RefreshedD3d(s: ClockState, rate: int, width: int, height: int): (r: (ClockState, bool))
    ensures RefreshDue(s) ==> r.0.refreshRate > 0 || rate < 0
    ensures RefreshDue(s) ==> r.0.lastRefreshTime == s.currTime
    ensures RefreshDue(s) ==> r.0.(lastRefreshTime := s.lastRefreshTime) == RefreshedD3dAsWritten(s, rate, width, height).0
    ensures r.1 == RefreshedD3dAsWritten(s, rate, width, height).1
  {
    if RefreshDue(s) then
      var t := RefreshedD3dAsWritten(s, rate, width, height);
      (t.0.(lastRefreshTime := s.currTime), t.1)
    else (s, false)
  }

  /** With the time recorded, the display is asked at most once per second of clock time. */
  lemma D3dAtMostOncePerSecond(s: ClockState, rate: int, width: int, height: int, later: int)
    requires RefreshDue(s) && s.currTime <= later <= s.currTime + s.systemFrequency
    ensures !RefreshDue(RefreshedD3d(s, rate, width, height).0.(currTime := later))
  {
  }

  /** One pass of RunGLX's loop after glXWaitVideoSyncSGI returned: counters are unsigned 32-bit. */
  function AfterGlxVblank(s: ClockState, vblankCount: int, prevVblankCount: int, now: int, rate: int): (t: ClockState)
    requires 0 <= vblankCount < 0x1_0000_0000 && 0 <= prevVblankCount < 0x1_0000_0000
    requires s.refreshRate > 0 && rate > 0
    requires IsInt64((Wrap32(vblankCount - prevVblankCount) - s.missedVblanks) * s.adjustedFrequency)
    ensures t.refreshRate > 0
    // an increase: the vblank is stamped `now` and the clock advances by the wrapped difference, net of missed vblanks
    ensures vblankCount > prevVblankCount ==>
              && t.vblankTime == now && t.missedVblanks == 0
              && t.currTime == s.currTime + Advance(NetVblanks(s, Wrap32(vblankCount - prevVblankCount), true), s.adjustedFrequency, s.refreshRate)
  {
    if vblankCount > prevVblankCount then
      var s1 := Updated(s.(vblankTime := now), Wrap32(vblankCount - prevVblankCount), true);
      RefreshedGlx(s1, rate).0
    else
      AfterCounterReset(s)
  }

  /** A counter that did not increase advances the clock by one interval and keeps the missed count. */
  lemma GlxResetAdvancesOneInterval(s: ClockState, vblankCount: int, prevVblankCount: int, now: int, rate: int)
    requires 0 <= vblankCount <= prevVblankCount < 0x1_0000_0000
    requires s.refreshRate > 0 && rate > 0
    requires IsInt64((Wrap32(vblankCount - prevVblankCount) - s.missedVblanks) * s.adjustedFrequency)
    ensures AfterGlxVblank(s, vblankCount, prevVblankCount, now, rate).currTime
            == s.currTime + Interval(s.adjustedFrequency, s.refreshRate)
    ensures AfterGlxVblank(s, vblankCount, prevVblankCount, now, rate).missedVblanks == s.missedVblanks
  {
  }

  /**
   * Vblanks that Wait already synthesised are not counted twice: after `k` late
   * waits and a real vblank reporting `n >= k` intervals, the clock has moved by
   * the k synthesised intervals plus the n - k new ones, and nothing is pending.
   */
  function LateWaits(s: ClockState, k: nat): (t: ClockState)
    requires s.refreshRate > 0 && IsInt64(s.adjustedFrequency)
    ensures t.refreshRate == s.refreshRate && t.adjustedFrequency == s.adjustedFrequency
    ensures t.missedVblanks == s.missedVblanks + k
    ensures t.currTime == s.currTime + k * Advance(1, s.adjustedFrequency, s.refreshRate)
    decreases k
  {
    if k == 0 then s else AfterLateWait(LateWaits(s, k - 1))
  }

  lemma {:induction false} MissedNotDoubleCounted(s: ClockState, k: nat, n: int)
    requires s.refreshRate > 0 && IsInt64(s.adjustedFrequency) && s.missedVblanks == 0
    requires IsInt64((n - k) * s.adjustedFrequency)
    ensures var t := Updated(LateWaits(s, k), n, true);
            t.missedVblanks == 0 &&
            t.currTime == s.currTime + k * Advance(1, s.adjustedFrequency, s.refreshRate)
                                     + Advance(n - k, s.adjustedFrequency, s.refreshRate)
  {
    var w := LateWaits(s, k);
    assert NetVblanks(w, n, true) == n - k;
  }

  /** The single missed-vblank case: a late Wait then a real vblank of count 1 nets one interval. */
  lemma LateWaitThenVblank(s: ClockState)
    requires s.refreshRate > 0 && IsInt64(s.adjustedFrequency) && s.missedVblanks == 0
    ensures var t := Updated(AfterLateWait(s), 1, true);
            t.missedVblanks == 0 && t.currTime == s.currTime + Interval(s.adjustedFrequency, s.refreshRate)
  {
    assert NetVblanks(AfterLateWait(s), 1, true) == 0;
  }

  /** Process, on entry: continue from the offset recorded when the clock last stopped. */
  function Started(s: ClockState, now: int): ClockState
  {
    s.(currTime := now - s.clockOffset, adjustedFrequency := s.systemFrequency)
  }

  /** What a successful platform setup leaves behind before RunGLX is entered. */
  function TrackingGlx(s: ClockState, rate: int): (t: ClockState)
    ensures t.useVblank && t.missedVblanks == 0
  {
    var s1 := RefreshedGlx(s.(prevRefreshRate := -1, lastRefreshTime := 0), rate).0;
    s1.(missedVblanks := 0, useVblank := true)
  }

  /** Process, on exit: back to the raw counter, with the offset that keeps the time continuous. */
  function Stopped(s: ClockState, now: int): ClockState
  {
    s.(useVblank := false, clockOffset := now - s.currTime)
  }

  /** GetTime. */
  function TimeAt(s: ClockState, now: int): int
  {
    if s.useVblank then s.currTime else now - s.clockOffset
  }

  /** After stopping, counter time carries on from the last vblank time and never goes below it. */
  lemma StopKeepsTimeContinuous(s: ClockState, stopNow: int, now: int)
    requires now >= stopNow
    ensures TimeAt(Stopped(s, stopNow), stopNow) == s.currTime
    ensures TimeAt(Stopped(s, stopNow), now) == s.currTime + (now - stopNow) >= s.currTime
  {
  }

  /** Restarting picks up exactly where counter time stands: start undoes stop. */
  lemma RestartUndoesStop(s: ClockState, stopNow: int, startNow: int)
    ensures Started(Stopped(s, stopNow), startNow).currTime == TimeAt(Stopped(s, stopNow), startNow)
    ensures Started(Stopped(s, stopNow), stopNow).currTime == s.currTime
  {
  }

  /** SetSpeed with the target frequency already converted to ticks per second. */
  function WithSpeed(s: ClockState, frequency: int): (t: ClockState)
    ensures t.adjustedFrequency != s.adjustedFrequency ==> s.useVblank && t.adjustedFrequency == frequency
    ensures t.(adjustedFrequency := s.adjustedFrequency) == s
  {
    if s.useVblank && frequency != s.adjustedFrequency then s.(adjustedFrequency := frequency) else s
  }

  /** GetSpeed. */
  function SpeedOf(s: ClockState): real
    requires s.systemFrequency > 0
  {
    if s.useVblank then s.adjustedFrequency as real / s.systemFrequency as real else 1.0
  }

  /** GetRefreshRate. */
  function RefreshRateOf(s: ClockState): int
  {
    if s.useVblank then s.refreshRate else -1
  }

  lemma SpeedOutsideVblank(s: ClockState, frequency: int)
    requires s.systemFrequency > 0 && !s.useVblank
    ensures WithSpeed(s, frequency) == s
    ensures SpeedOf(s) == 1.0 && RefreshRateOf(s) == -1
  {
  }

  /** SetSpeed(1.0) restores unit speed after any earlier speed. */
  lemma UnitSpeedRestores(s: ClockState, frequency: int)
    requires s.systemFrequency > 0
    ensures SpeedOf(WithSpeed(WithSpeed(s, frequency), s.systemFrequency)) == 1.0
  {
  }

  /** A clock in vblank mode at speed 2 advances twice as far per vblank (to within rounding). */
  lemma DoubleSpeedDoublesInterval(s: ClockState)
    requires s.useVblank && s.refreshRate > 0 && s.systemFrequency >= 0 && IsInt64(2 * s.systemFrequency)
    requires s.missedVblanks == 0
    ensures var t := Updated(WithSpeed(s, 2 * s.systemFrequency), 1, true);
            t.currTime - s.currTime == Interval(2 * s.systemFrequency, s.refreshRate)
  {
  }

  /** The clock object: the fields CVideoReferenceClock updates under its lock. */
  class ReferenceClock {
    var currTime: int
    var adjustedFrequency: int
    var systemFrequency: int
    var refreshRate: int
    var missedVblanks: int
    var vblankTime: int
    var clockOffset: int
    var useVblank: bool
    var lastRefreshTime: int
    var prevRefreshRate: int
    var width: int
    var height: int

    function State(): ClockState
      reads this
    {
      ClockState(currTime, adjustedFrequency, systemFrequency, refreshRate, missedVblanks,
                 vblankTime, clockOffset, useVblank, lastRefreshTime, prevRefreshRate, width, height)
    }

    /** The constructor: `frequency` is what QueryPerformanceFrequency reports. */
    constructor (frequency: int)
      requires frequency > 0
      ensures systemFrequency == frequency && adjustedFrequency == frequency
      ensures clockOffset == 0 && !useVblank
    {
      systemFrequency, adjustedFrequency := frequency, frequency;
      clockOffset := 0;
      useVblank := false;
    }

    method UpdateClock(nrVBlanks: int, checkMissed: bool)
      requires refreshRate > 0
      requires IsInt64(NetVblanks(State(), nrVBlanks, checkMissed) * adjustedFrequency)
      modifies this
      ensures State() == Updated(old(State()), nrVBlanks, checkMissed)
    {
      var n := nrVBlanks;
      if checkMissed {
        n := n - missedVblanks;
        missedVblanks := 0;
      }
      if n > 0 {
        currTime := currTime + TruncDiv(n * adjustedFrequency, refreshRate);
      }
    }

    /** Wait(msecs): `now` is the counter on entry, `signalled` whether the vblank signal came in time. */
    method Wait(now: int, signalled: bool)
      requires refreshRate > 0 && systemFrequency > 0 && IsInt64(adjustedFrequency)
      modifies this
      ensures State() == AfterWait(old(State()), now, signalled)
    {
      if useVblank {
        var nextVblank := vblankTime + TruncDiv(TruncDiv(systemFrequency, refreshRate) * MAXDELAY, 1000);
        var sleepTime := TruncDiv((nextVblank - now) * 1000, systemFrequency);
        var late := false;
        if sleepTime <= 0 {
          late := true;
        } else if !signalled {
          late := true;
        }
        if late {
          missedVblanks := missedVblanks + 1;
          vblankTime := vblankTime + TruncDiv(systemFrequency, refreshRate);
          UpdateClock(1, false);
        }
      }
    }

    /** The body of RunGLX's loop once the vblank counter has been read. */
    method GlxVblank(vblankCount: int, prevVblankCount: int, now: int, rate: int)
      requires 0 <= vblankCount < 0x1_0000_0000 && 0 <= prevVblankCount < 0x1_0000_0000
      requires refreshRate > 0 && rate > 0
      requires IsInt64((Wrap32(vblankCount - prevVblankCount) - missedVblanks) * adjustedFrequency)
      modifies this
      ensures State() == AfterGlxVblank(old(State()), vblankCount, prevVblankCount, now, rate)
    {
      if vblankCount > prevVblankCount {
        vblankTime := now;
        UpdateClock(Wrap32(vblankCount - prevVblankCount), true);
        var _ := UpdateRefreshrateGlx(rate);
      } else {
        currTime := currTime + TruncDiv(adjustedFrequency, refreshRate);
      }
    }

    method UpdateRefreshrateGlx(rate: int) returns (changed: bool)
      modifies this
      ensures (State(), changed) == RefreshedGlx(old(State()), rate)
    {
      changed := false;
      if currTime - lastRefreshTime > systemFrequency {
        lastRefreshTime := currTime;
        if rate != prevRefreshRate {
          prevRefreshRate := rate;
          refreshRate := rate;
          changed := true;
        }
      }
    }

    method UpdateRefreshrateD3d(rate: int, modeWidth: int, modeHeight: int) returns (changed: bool)
      modifies this
      ensures (State(), changed) == RefreshedD3dAsWritten(old(State()), rate, modeWidth, modeHeight)
    {
      changed := false;
      if currTime - lastRefreshTime > systemFrequency {
        refreshRate := rate;
        if refreshRate == 0 {
          refreshRate := 60;
        }
        if refreshRate != prevRefreshRate {
          prevRefreshRate := refreshRate;
          changed := true;
        }
        if width != modeWidth || height != modeHeight {
          changed := true;
        }
        width := modeWidth;
        height := modeHeight;
      }
    }

    /** Process, before the tracking loop. */
    method Start(now: int)
      modifies this
      ensures State() == Started(old(State()), now)
    {
      currTime := now - clockOffset;
      adjustedFrequency := systemFrequency;
    }

    /** Process, after a successful GLX setup and before RunGLX. */
    method BeginTrackingGlx(rate: int)
      modifies this
      ensures State() == TrackingGlx(old(State()), rate)
    {
      prevRefreshRate := -1;
      lastRefreshTime := 0;
      var _ := UpdateRefreshrateGlx(rate);
      missedVblanks := 0;
      useVblank := true;
    }

    /** Process, after the tracking loop. */
    method Stop(now: int)
      modifies this
      ensures State() == Stopped(old(State()), now)
    {
      useVblank := false;
      clockOffset := now - currTime;
    }

    method GetTime(now: int) returns (time: int)
      ensures time == TimeAt(State(), now)
      ensures !useVblank ==> time == now - clockOffset
    {
      if useVblank {
        time := currTime;
      } else {
        time := now - clockOffset;
      }
    }

    method SetSpeed(frequency: int)
      modifies this
      ensures State() == WithSpeed(old(State()), frequency)
    {
      if useVblank {
        if frequency != adjustedFrequency {
          adjustedFrequency := frequency;
        }
      }
    }

    method GetSpeed() returns (speed: real)
      requires systemFrequency > 0
      ensures speed == SpeedOf(State())
      ensures !useVblank ==> speed == 1.0
    {
      speed := 1.0;
      if useVblank {
        speed := adjustedFrequency as real / systemFrequency as real;
      }
    }

    method GetRefreshRate() returns (rate: int)
      ensures rate == RefreshRateOf(State())
      ensures !useVblank ==> rate == -1
    {
      rate := -1;
      if useVblank {
        rate := refreshRate;
      }
    }
  }
}
