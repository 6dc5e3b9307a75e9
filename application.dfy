/**
 * Playback rules of CApplication: the timeline of a stacked (multi-file)
 * video, seeking across its parts, fast-forward/rewind speed stepping, the
 * hardware volume and mute state, and the song rating step.
 *
 * The stack is represented by the end offsets (in whole seconds) of its
 * parts; the player is an abstract record, and everything the application
 * asks of it is appended to a request log.
 */
module Application {
  import opened Arith

  /** Hardware volume bounds, in millibels. */
  const VOLUME_MINIMUM: int := -6000
  const VOLUME_MAXIMUM: int := 0
  /** The start-offset value that asks for a resume from the stored bookmark. */
  const STARTOFFSET_RESUME: int := -1

  /** What the application can see of the player. */
  datatype Player = Player(loaded: bool, playing: bool, paused: bool, canSeek: bool,
                           timeMs: int, totalTime: real)

  /** What the application asks of the player. */
  datatype Request =
    | PlayPart(index: int)                    // play a stack part as listed
    | PlayPartAt(index: int, startOffset: int) // play a copy of a part from an offset in 1/75 s
    | SeekMs(ms: int)
    | SeekPercent(percent: real)
    | ToFFRW(speed: int)
    | PlayerVolume(level: int)
    | TogglePause

  datatype AppState = AppState(
    stack: seq<int>,        // end offset of each part of m_currentStack, in seconds
    isStack: bool,          // whether the current file item is a stack
    stackPosition: int,
    playSpeed: int,
    player: Player,
    volumeLevel: int,
    drcLevel: int,
    mute: bool,
    preMuteLevel: int,
    requests: seq<Request>)

  predicate IsPlaying(p: Player) { p.loaded && p.playing }

  predicate HasStack(s: AppState) { s.isStack && |s.stack| > 0 }

  predicate NonDecreasing(xs: seq<int>)
  {
    forall i, j :: 0 <= i < j < |xs| ==> xs[i] <= xs[j]
  }

  // ---------------------------------------------------------------- timeline

  /** Sum of whole seconds of the given part durations (in ms), as PlayStack accumulates them. */
  function TotalSeconds(durationsMs: seq<int>): int
  {
    if |durationsMs| == 0 then 0
    else TotalSeconds(durationsMs[..|durationsMs| - 1]) + TruncDiv(durationsMs[|durationsMs| - 1], 1000)
  }

  /** End offset of every part: the running total of whole seconds up to and including it. */
  function EndOffsets(durationsMs: seq<int>): (ends: seq<int>)
    ensures |ends| == |durationsMs|
    ensures |ends| > 0 ==> ends[|ends| - 1] == TotalSeconds(durationsMs)
  {
    if |durationsMs| == 0 then []
    else
      var init := durationsMs[..|durationsMs| - 1];
      EndOffsets(init) + [TotalSeconds(durationsMs)]
  }

  /** With no negative duration, the end offsets never decrease along the stack. */
  lemma {:induction false} EndOffsetsNonDecreasing(durationsMs: seq<int>)
    requires forall i :: 0 <= i < |durationsMs| ==> durationsMs[i] >= 0
    ensures NonDecreasing(EndOffsets(durationsMs))
    decreases |durationsMs|
  {
    if |durationsMs| > 0 {
      var init := durationsMs[..|durationsMs| - 1];
      EndOffsetsNonDecreasing(init);
      var ends := EndOffsets(durationsMs);
      var last := durationsMs[|durationsMs| - 1];
      TruncDivNonNeg(last, 1000);
      assert ends == EndOffsets(init) + [TotalSeconds(init) + TruncDiv(last, 1000)];
      assert forall i :: 0 <= i < |ends| - 1 ==> ends[i] <= TotalSeconds(init) by {
        forall i | 0 <= i < |ends| - 1
          ensures ends[i] <= TotalSeconds(init)
        {
          assert ends[i] == EndOffsets(init)[i] <= EndOffsets(init)[|init| - 1];
        }
      }
    }
  }

  /** One more part extends the end offsets by the new running total. */
  lemma EndOffsetsSnoc(durationsMs: seq<int>, d: int)
    ensures TotalSeconds(durationsMs + [d]) == TotalSeconds(durationsMs) + TruncDiv(d, 1000)
    ensures EndOffsets(durationsMs + [d]) == EndOffsets(durationsMs) + [TotalSeconds(durationsMs + [d])]
  {
    assert (durationsMs + [d])[..|durationsMs|] == durationsMs;
  }

  /** Part j's end offset is the whole seconds of parts 0..j together. */
  lemma {:induction false} EndOffsetsRunningTotal(durationsMs: seq<int>, j: int)
    requires 0 < j <= |durationsMs|
    ensures EndOffsets(durationsMs)[j - 1] == TotalSeconds(durationsMs[..j])
    decreases |durationsMs|
  {
    var init := durationsMs[..|durationsMs| - 1];
    if j < |durationsMs| {
      assert init[..j] == durationsMs[..j];
      EndOffsetsRunningTotal(init, j);
    } else {
      assert durationsMs[..j] == durationsMs;
    }
  }

  /** Start of part `i` on the stack timeline: the previous part's end, 0 for the first. */
  function StackStart(ends: seq<int>, i: int): int
    requires 0 <= i < |ends|
  {
    if i > 0 then ends[i - 1] else 0
  }

  /** Index of the first part from `from` on whose end offset lies after `t`. */
  function FirstPartAfter(ends: seq<int>, t: real, from: nat): (r: Option<nat>)
    requires from <= |ends|
    ensures r.Some? ==> from <= r.value < |ends| && t < ends[r.value] as real
    ensures r.Some? ==> forall j :: from <= j < r.value ==> ends[j] as real <= t
    ensures r.None? <==> forall j :: from <= j < |ends| ==> ends[j] as real <= t
    decreases |ends| - from
  {
    if from == |ends| then None
    else if t < ends[from] as real then Some(from)
    else FirstPartAfter(ends, t, from + 1)
  }

  /** On a non-decreasing timeline the part chosen for `t >= 0` is the one whose span holds `t`. */
  lemma {:induction false} ChosenPartHolds(ends: seq<int>, t: real)
    requires NonDecreasing(ends) && t >= 0.0
    requires FirstPartAfter(ends, t, 0).Some?
    ensures var i := FirstPartAfter(ends, t, 0).value;
            StackStart(ends, i) as real <= t < ends[i] as real
  {
    var i := FirstPartAfter(ends, t, 0).value;
    if i > 0 {
      assert ends[i - 1] as real <= t;
    }
  }

  /** A time before the total always finds a part; one at or past it never does. */
  lemma PartFoundBeforeTotal(ends: seq<int>, t: real)
    requires NonDecreasing(ends) && |ends| > 0
    ensures FirstPartAfter(ends, t, 0).Some? <==> t < ends[|ends| - 1] as real
  {
    if t >= ends[|ends| - 1] as real {
      assert forall j :: 0 <= j < |ends| ==> ends[j] as real <= t by {
        forall j | 0 <= j < |ends| ensures ends[j] as real <= t {
          assert ends[j] <= ends[|ends| - 1] || j == |ends| - 1;
        }
      }
    }
  }

  /** GetTotalTime: on a stack, the last part's end offset, which no part ends after. */
  function TotalTimeOf(s: AppState): (r: real)
    ensures !IsPlaying(s.player) ==> r == 0.0
    ensures IsPlaying(s.player) && HasStack(s) && NonDecreasing(s.stack) ==>
              forall i :: 0 <= i < |s.stack| ==> s.stack[i] as real <= r
    ensures IsPlaying(s.player) && HasStack(s) ==> exists i :: 0 <= i < |s.stack| && s.stack[i] as real == r
    ensures IsPlaying(s.player) && !HasStack(s) ==> r == s.player.totalTime
  {
    if !IsPlaying(s.player) then 0.0
    else if HasStack(s) then s.stack[|s.stack| - 1] as real
    else s.player.totalTime
  }

  /** GetTime: on a stack, the start of the current part plus the player's time. */
  function TimeOf(s: AppState): (r: real)
    requires HasStack(s) ==> 0 <= s.stackPosition < |s.stack|
    ensures !IsPlaying(s.player) ==> r == 0.0
    ensures IsPlaying(s.player) && HasStack(s) ==>
              r - StackStart(s.stack, s.stackPosition) as real == s.player.timeMs as real / 1000.0
    ensures IsPlaying(s.player) && HasStack(s) && s.player.timeMs >= 0 ==> r >= StackStart(s.stack, s.stackPosition) as real
    ensures IsPlaying(s.player) && !HasStack(s) ==> r == s.player.timeMs as real / 1000.0
  {
    if !IsPlaying(s.player) then 0.0
    else if HasStack(s) then StackStart(s.stack, s.stackPosition) as real + s.player.timeMs as real * 0.001
    else s.player.timeMs as real * 0.001
  }

  /** SeekTime(dTime). */
  function SoughtTime(s: AppState, dTime: real): (t: AppState)
    ensures t.stack == s.stack && t.isStack == s.isStack && t.playSpeed == s.playSpeed
    ensures |t.requests| == |s.requests| || |t.requests| == |s.requests| + 1
    ensures t.requests[..|s.requests|] == s.requests
    ensures dTime < 0.0 || !IsPlaying(s.player) || !s.player.canSeek ==> t == s
    ensures t.stackPosition != s.stackPosition ==> HasStack(s) && 0 <= t.stackPosition < |s.stack|
    ensures IsPlaying(s.player) && s.player.canSeek && dTime >= 0.0 ==>
              var found := if HasStack(s) then FirstPartAfter(s.stack, dTime, 0) else None;
              |t.requests| == |s.requests| + 1 &&
              // no part ends after dTime, or no stack: a plain seek in milliseconds
              (found.None? ==> t == s.(requests := s.requests + [SeekMs(TruncReal(dTime * 1000.0))])) &&
              (found.Some? ==>
                 var i := found.value;
                 var inPart := dTime - StackStart(s.stack, i) as real;
                 // the current part: seek within it
                 (i == s.stackPosition ==> t == s.(requests := s.requests + [SeekMs(TruncReal(inPart * 1000.0))])) &&
                 // another part: it becomes current and is played from the offset, in 1/75 s
                 (i != s.stackPosition ==>
                    t == s.(stackPosition := i, requests := s.requests + [PlayPartAt(i, TruncReal(inPart * 75.0))])))
  {
    if !(IsPlaying(s.player) && dTime >= 0.0) || !s.player.canSeek then s
    else
      var found := if HasStack(s) then FirstPartAfter(s.stack, dTime, 0) else None;
      if found.Some? then
        var i := found.value;
        var start := StackStart(s.stack, i) as real;
        if s.stackPosition == i then
          s.(requests := s.requests + [SeekMs(TruncReal((dTime - start) * 1000.0))])
        else
          s.(stackPosition := i, requests := s.requests + [PlayPartAt(i, TruncReal((dTime - start) * 75.0))])
      else
        s.(requests := s.requests + [SeekMs(TruncReal(dTime * 1000.0))])
  }

  /**
   * Seeking inside a stack lands in the part holding the target: the part
   * becomes current, and once the player reports the requested in-file time,
   * GetTime reads the target back to within one millisecond.
   */
  lemma {:induction false} SeekWithinStackRoundTrip(s: AppState, dTime: real)
    requires IsPlaying(s.player) && s.player.canSeek && HasStack(s) && NonDecreasing(s.stack)
    requires 0.0 <= dTime < s.stack[|s.stack| - 1] as real
    ensures var t := SoughtTime(s, dTime);
            var i := t.stackPosition;
            |t.requests| == |s.requests| + 1 &&
            0 <= i < |s.stack| &&
            StackStart(s.stack, i) as real <= dTime < s.stack[i] as real &&
            var req := t.requests[|s.requests|];
            // same part: the player seeks to req.ms, after which GetTime reads dTime back
            (i == s.stackPosition ==>
               req.SeekMs? &&
               var u := t.(player := t.player.(timeMs := req.ms));
               dTime - 0.001 < TimeOf(u) <= dTime) &&
            // another part: it is played from req.startOffset, within 1/75 s before dTime
            (i != s.stackPosition ==>
               req == PlayPartAt(i, req.startOffset) &&
               var at := StackStart(s.stack, i) as real + req.startOffset as real / 75.0;
               dTime - 1.0 / 75.0 < at <= dTime)
  {
    PartFoundBeforeTotal(s.stack, dTime);
    ChosenPartHolds(s.stack, dTime);
    var i := FirstPartAfter(s.stack, dTime, 0).value;
    var start := StackStart(s.stack, i) as real;
    if i == s.stackPosition {
      var x := (dTime - start) * 1000.0;
      var ms := TruncReal(x);
      assert ms as real <= x < ms as real + 1.0;
      assert start + ms as real / 1000.0 <= start + x / 1000.0 == dTime;
    } else {
      var y := (dTime - start) * 75.0;
      var off := TruncReal(y);
      assert off as real <= y < off as real + 1.0;
      assert start + off as real / 75.0 <= start + y / 75.0 == dTime;
    }
  }

  /** `percent` per cent of `total`, as SeekPercentage computes it. */
  function PercentOf(percent: real, total: real): real
  {
    percent * 0.01 * total
  }

  /** SeekPercentage(percent). */
  function SoughtPercentage(s: AppState, percent: real): (t: AppState)
    ensures percent < 0.0 || !IsPlaying(s.player) || !s.player.canSeek ==> t == s
    ensures IsPlaying(s.player) && s.player.canSeek && percent >= 0.0 ==>
              // on a stack: a time seek to that share of the total time
              (HasStack(s) ==> t == SoughtTime(s, PercentOf(percent, TotalTimeOf(s)))) &&
              // otherwise the player seeks by percentage itself
              (!HasStack(s) ==> t == s.(requests := s.requests + [SeekPercent(percent)]))
  {
    if !(IsPlaying(s.player) && percent >= 0.0) || !s.player.canSeek then s
    else if HasStack(s) then SoughtTime(s, PercentOf(percent, TotalTimeOf(s)))
    else s.(requests := s.requests + [SeekPercent(percent)])
  }

  /** Any percentage below 100 of a stack with a positive total lands inside some part. */
  lemma PercentageSeeksIntoStack(s: AppState, percent: real)
    requires IsPlaying(s.player) && s.player.canSeek && HasStack(s) && NonDecreasing(s.stack)
    requires 0.0 <= percent < 100.0 && s.stack[|s.stack| - 1] > 0
    ensures var t := SoughtPercentage(s, percent);
            |t.requests| == |s.requests| + 1 &&
            (t.requests[|s.requests|].PlayPartAt? || t.requests[|s.requests|].SeekMs?) &&
            0 <= t.stackPosition < |s.stack| &&
            StackStart(s.stack, t.stackPosition) as real <= PercentOf(percent, TotalTimeOf(s)) < s.stack[t.stackPosition] as real
  {
    var total := s.stack[|s.stack| - 1] as real;
    var f := percent * 0.01;
    assert 0.0 <= f < 1.0;
    ScaledBelow(f, total);
    var d := PercentOf(percent, total);
    assert d == f * total;
    assert TotalTimeOf(s) == total;
    assert SoughtPercentage(s, percent) == SoughtTime(s, d);
    SeekWithinStackRoundTrip(s, d);
  }

  lemma ScaledBelow(f: real, total: real)
    requires 0.0 <= f < 1.0 && total > 0.0
    ensures 0.0 <= f * total < total
  {
  }

  /** The seconds PlayStack starts at: the item's offset, or the resume bookmark when asked. */
  function StartSeconds(startOffset: int, bookmark: Option<real>): real
  {
    if startOffset == STARTOFFSET_RESUME then (if bookmark.Some? then bookmark.value else 0.0)
    else startOffset as real / 75.0
  }

  /** The part PlayStack starts with and the request it makes. */
  function ResumeTarget(ends: seq<int>, seconds: real): (r: (int, Request))
    requires |ends| > 0
    ensures 0 <= r.0 < |ends|
    ensures r.1.PlayPart? ==> r.0 == 0 && r.1.index == 0
    ensures r.1.PlayPartAt? ==>
              && r.1.index == r.0 && seconds > 0.0
              && StackStart(ends, r.0) as real <= seconds < ends[r.0] as real
              && r.1.startOffset == 75 * TruncReal(seconds - StackStart(ends, r.0) as real) && r.1.startOffset >= 0
    ensures r.1.PlayPart? || r.1.PlayPartAt?
  {
    var found := if seconds > 0.0 then FirstPartAfter(ends, seconds, 0) else None;
    if found.Some? then
      var i := found.value;
      (i, PlayPartAt(i, TruncReal(seconds - StackStart(ends, i) as real) * 75))
    else (0, PlayPart(0))
  }

  /**
   * Resume starts the part holding `seconds`, at the whole seconds into that
   * part (the fraction is dropped before scaling to 1/75 s); a start at or
   * before 0, or at or past the total, plays the first part as listed.
   */
  lemma {:induction false} ResumeTargetMeaning(ends: seq<int>, seconds: real)
    requires |ends| > 0 && NonDecreasing(ends)
    ensures seconds <= 0.0 || seconds >= ends[|ends| - 1] as real ==> ResumeTarget(ends, seconds) == (0, PlayPart(0))
    ensures 0.0 < seconds < ends[|ends| - 1] as real ==>
              var (i, req) := ResumeTarget(ends, seconds);
              req.PlayPartAt? &&
              StackStart(ends, i) as real <= seconds < ends[i] as real &&
              req.startOffset == 75 * TruncReal(seconds - StackStart(ends, i) as real) &&
              var whole := req.startOffset / 75;
              0 <= whole && whole as real <= seconds - StackStart(ends, i) as real < whole as real + 1.0
  {
    PartFoundBeforeTotal(ends, seconds);
    if 0.0 < seconds < ends[|ends| - 1] as real {
      ChosenPartHolds(ends, seconds);
    }
  }

  /** The end offsets PlayStack writes: the stored ones, or the running totals of the probed durations. */
  function StackEnds(storedTimes: Option<seq<int>>, durationsMs: seq<Option<int>>): (ends: seq<int>)
    requires storedTimes.Some? ==> |storedTimes.value| >= |durationsMs|
    requires storedTimes.Some? || AllKnown(durationsMs)
    ensures |ends| == |durationsMs|
  {
    if storedTimes.Some? then storedTimes.value[..|durationsMs|] else EndOffsets(Known(durationsMs))
  }

  /** The known durations, when every part reported one. */
  predicate AllKnown(durationsMs: seq<Option<int>>)
  {
    forall i :: 0 <= i < |durationsMs| ==> durationsMs[i].Some?
  }

  function Known(durationsMs: seq<Option<int>>): (ds: seq<int>)
    requires AllKnown(durationsMs)
    ensures |ds| == |durationsMs|
    ensures forall i :: 0 <= i < |ds| ==> Some(ds[i]) == durationsMs[i]
  {
    seq(|durationsMs|, i requires 0 <= i < |durationsMs| => durationsMs[i].value)
  }

  // ------------------------------------------------------------- play speed

  /** The FF/RW step of OnAction for ACTION_PLAYER_FORWARD (`forward`) or ACTION_PLAYER_REWIND. */
  function FfRwStep(speed: int, forward: bool): (r: int)
    ensures -32 <= r <= 32
  {
    var s :=
      if !forward && speed == 1 then speed * -2
      else if !forward && speed > 1 then speed / 2
      else if forward && speed < 1 then TruncDiv(speed, 2)
      else speed * 2;
    var s1 := if forward && s == -1 then 1 else s;
    if s1 > 32 || s1 < -32 then 1 else s1
  }

  /** The speeds FF/RW stepping moves between. */
  const FfRwSpeeds: set<int> := {1, 2, 4, 8, 16, 32, -2, -4, -8, -16, -32}

  lemma FfRwSpeedsClosed(speed: int, forward: bool)
    requires speed in FfRwSpeeds
    ensures FfRwStep(speed, forward) in FfRwSpeeds
    ensures forward && speed == -2 ==> FfRwStep(speed, forward) == 1
    ensures !forward && speed == 1 ==> FfRwStep(speed, forward) == -2
  {
  }

  /** Rewinding from normal speed then going forward returns to normal speed. */
  lemma RewindThenForward()
    ensures FfRwStep(FfRwStep(1, false), true) == 1
    ensures FfRwStep(32, true) == 1
  {
  }

  /** SetPlaySpeed(iSpeed). */
  function WithPlaySpeed(s: AppState, speed: int): (t: AppState)
    ensures !IsPlaying(s.player) || s.playSpeed == speed || !s.player.canSeek ==> t == s
    ensures t.stack == s.stack && t.stackPosition == s.stackPosition && t.volumeLevel == s.volumeLevel
    ensures IsPlaying(s.player) && s.player.canSeek && s.playSpeed != speed ==>
              // from pause, going faster in the current FF/RW direction keeps the previous speed
              var keep := s.player.paused && ((s.playSpeed > 1 && speed > s.playSpeed) || (s.playSpeed < -1 && speed < s.playSpeed));
              && t.playSpeed == (if keep then s.playSpeed else speed)
              && !t.player.paused
              // unpause first, then the speed, then full volume at normal speed or silence otherwise
              && t.requests == s.requests + (if s.player.paused then [TogglePause] else []) +
                               [ToFFRW(t.playSpeed), PlayerVolume(if t.playSpeed == 1 then s.volumeLevel else VOLUME_MINIMUM)]
              && t == s.(playSpeed := t.playSpeed, player := s.player.(paused := false), requests := t.requests)
  {
    if !IsPlaying(s.player) || s.playSpeed == speed || !s.player.canSeek then s
    else
      var target :=
        if s.player.paused && ((s.playSpeed > 1 && speed > s.playSpeed) || (s.playSpeed < -1 && speed < s.playSpeed))
        then s.playSpeed else speed;
      var s1 := if s.player.paused
                then s.(player := s.player.(paused := false), requests := s.requests + [TogglePause])
                else s;
      var volume := if target == 1 then s.volumeLevel else VOLUME_MINIMUM;
      s1.(playSpeed := target, requests := s1.requests + [ToFFRW(target), PlayerVolume(volume)])
  }

  /** From pause, asking to go faster in the current FF/RW direction resumes the previous speed. */
  lemma PauseKeepsDirection(s: AppState, speed: int)
    requires IsPlaying(s.player) && s.player.canSeek && s.player.paused && s.playSpeed != speed
    requires (s.playSpeed > 1 && speed > s.playSpeed) || (s.playSpeed < -1 && speed < s.playSpeed)
    ensures WithPlaySpeed(s, speed).playSpeed == s.playSpeed
    ensures !WithPlaySpeed(s, speed).player.paused
  {
  }

  /** Once a speed is set, asking for it again changes nothing, unless a paused FF/RW kept its previous speed. */
  lemma SetPlaySpeedSettles(s: AppState, speed: int)
    requires !(s.player.paused && ((s.playSpeed > 1 && speed > s.playSpeed) || (s.playSpeed < -1 && speed < s.playSpeed)))
    ensures WithPlaySpeed(WithPlaySpeed(s, speed), speed) == WithPlaySpeed(s, speed)
    ensures IsPlaying(s.player) && s.player.canSeek ==> WithPlaySpeed(s, speed).playSpeed == speed
  {
  }

  /** Powers of two, for the shift loop of CheckPlayingProgress. */
  predicate IsPow2(n: int)
    decreases if n < 0 then 0 else n
  {
    n == 1 || (n >= 2 && n % 2 == 0 && IsPow2(n / 2))
  }

  function Log2(n: int): (k: nat)
    requires IsPow2(n)
    decreases if n < 0 then 0 else n
  {
    if n == 1 then 0 else 1 + Log2(n / 2)
  }

  function Pow2(k: nat): (p: int)
    ensures p >= 1
  {
    if k == 0 then 1 else 2 * Pow2(k - 1)
  }

  lemma {:induction false} Log2Inverse(n: int)
    requires IsPow2(n)
    ensures Pow2(Log2(n)) == n
    decreases if n < 0 then 0 else n
  {
    if n != 1 {
      Log2Inverse(n / 2);
    }
  }

  lemma {:induction false} Pow2IsPow2(k: nat)
    ensures IsPow2(Pow2(k)) && Log2(Pow2(k)) == k
  {
    if k > 0 {
      Pow2IsPow2(k - 1);
      assert Pow2(k) / 2 == Pow2(k - 1);
    }
  }

  /** CheckPlayingProgress, given the info manager's play time in ms. */
  function CheckedProgress(s: AppState, playTimeMs: int): (t: AppState)
    requires IsPlaying(s.player) && s.playSpeed < 1 ==> IsPow2(-s.playSpeed)
  {
    if IsPlaying(s.player) && s.playSpeed < 1 && TruncDiv(playTimeMs, 1000) < Log2(-s.playSpeed)
    then SoughtTime(WithPlaySpeed(s, 1), 0.0)
    else s
  }

  /**
   * Rewinding at 2^k with fewer than k whole seconds played returns to normal
   * speed and seeks to 0: the first part of a stack from its start, or the
   * start of a plain file.
   */
  lemma RewindPastStart(s: AppState, playTimeMs: int)
    requires IsPlaying(s.player) && s.player.canSeek && s.playSpeed <= -2 && IsPow2(-s.playSpeed)
    requires 0 <= playTimeMs < 1000 * Log2(-s.playSpeed)
    ensures var t := CheckedProgress(s, playTimeMs);
            && t.playSpeed == 1 && !t.player.paused
            && |t.requests| == |WithPlaySpeed(s, 1).requests| + 1
            && t.requests[..|t.requests| - 1] == WithPlaySpeed(s, 1).requests
            && (!HasStack(s) ==> t.requests[|t.requests| - 1] == SeekMs(0))
            && (HasStack(s) && s.stack[0] > 0 ==>
                  t.stackPosition == 0 &&
                  t.requests[|t.requests| - 1] == (if s.stackPosition == 0 then SeekMs(0) else PlayPartAt(0, 0)))
  {
    TruncDivNonNeg(playTimeMs, 1000);
  }

  /** With at least k whole seconds played, CheckPlayingProgress leaves the rewind at 2^k alone. */
  lemma RewindWithinMargin(s: AppState, playTimeMs: int)
    requires s.playSpeed <= -2 && IsPow2(-s.playSpeed)
    requires playTimeMs >= 1000 * Log2(-s.playSpeed)
    ensures CheckedProgress(s, playTimeMs) == s
  {
    assert TruncDiv(playTimeMs, 1000) == playTimeMs / 1000;
  }

  /** Rewinding at 2^k counts k seconds of margin: the loop's power is the exponent. */
  // ------------------------------------------------------------------ volume

  function Clamp(x: int, lo: int, hi: int): int
    requires lo <= hi
  {
    if x < lo then lo else if x > hi then hi else x
  }

  /** SetHardwareVolume(hardwareVolume). */
  function WithHardwareVolume(s: AppState, hardwareVolume: int): (t: AppState)
    ensures t.volumeLevel == Clamp(hardwareVolume, VOLUME_MINIMUM, VOLUME_MAXIMUM)
    ensures t.drcLevel == 0
    ensures t.mute <==> t.volumeLevel == VOLUME_MINIMUM
    ensures t.requests == s.requests + (if s.player.loaded then [PlayerVolume(t.volumeLevel)] else [])
  {
    var v := if hardwareVolume >= VOLUME_MAXIMUM then VOLUME_MAXIMUM else hardwareVolume;
    var v2 := if v <= VOLUME_MINIMUM then VOLUME_MINIMUM else v;
    var drc := if v2 > VOLUME_MAXIMUM then v2 - VOLUME_MAXIMUM else 0;
    var level := if v2 > VOLUME_MAXIMUM then VOLUME_MAXIMUM else v2;
    var mute :=
      if !s.mute && v2 <= VOLUME_MINIMUM then true
      else if s.mute && v2 > VOLUME_MINIMUM then false
      else s.mute;
    s.(volumeLevel := level, drcLevel := drc, mute := mute,
       requests := s.requests + (if s.player.loaded then [PlayerVolume(level)] else []))
  }

  /** The hardware level SetVolume asks for: the percentage scaled onto the millibel range. */
  function PercentToHardware(percent: int): int
  {
    TruncReal(percent as real * 0.01 * (VOLUME_MAXIMUM - VOLUME_MINIMUM) as real + VOLUME_MINIMUM as real)
  }

  /** GetVolume: the level as a rounded percentage. */
  function VolumePercent(s: AppState): int
  {
    TruncReal((s.volumeLevel + s.drcLevel - VOLUME_MINIMUM) as real / (VOLUME_MAXIMUM - VOLUME_MINIMUM) as real * 100.0 + 0.5)
  }

  /** Mute(): toggle, remembering the level to restore. */
  function Muted(s: AppState): AppState
  {
    if s.mute then
      var p := if s.preMuteLevel == 0 then 1 else s.preMuteLevel;
      WithHardwareVolume(s.(preMuteLevel := p), PercentToHardware(p))
    else
      WithHardwareVolume(s.(preMuteLevel := VolumePercent(s)), PercentToHardware(0))
  }

  /** The volume settings SetHardwareVolume and Mute keep. */
  predicate VolumeInv(s: AppState)
  {
    VOLUME_MINIMUM <= s.volumeLevel <= VOLUME_MAXIMUM && s.drcLevel == 0 &&
    (s.mute <==> s.volumeLevel == VOLUME_MINIMUM) && s.preMuteLevel >= 0
  }

  lemma PercentToHardwareExact(p: int)
    ensures PercentToHardware(p) == 60 * p + VOLUME_MINIMUM
  {
    var x := p as real * 0.01 * 6000.0 + -6000.0;
    assert x == (60 * p - 6000) as real;
  }

  /** Mute flips the mute state and keeps the volume settings consistent. */
  lemma {:induction false} MuteToggles(s: AppState)
    requires VolumeInv(s)
    ensures Muted(s).mute == !s.mute
    ensures VolumeInv(Muted(s))
  {
    PercentToHardwareExact(0);
    if s.mute {
      var p := if s.preMuteLevel == 0 then 1 else s.preMuteLevel;
      PercentToHardwareExact(p);
    } else {
      var x := (s.volumeLevel - VOLUME_MINIMUM) as real / 6000.0 * 100.0 + 0.5;
      assert x >= 0.0;
    }
  }

  /** Muting and unmuting restores the level to within one percentage step of the range. */
  lemma {:induction false} MuteTwiceRestores(s: AppState)
    requires VolumeInv(s) && !s.mute
    ensures !Muted(Muted(s)).mute
    ensures Abs(Muted(Muted(s)).volumeLevel - s.volumeLevel) <= 60
  {
    MuteToggles(s);
    MuteToggles(Muted(s));
    var level := s.volumeLevel;
    var x := (level - VOLUME_MINIMUM) as real / 6000.0 * 100.0 + 0.5;
    var p := TruncReal(x);
    assert p as real <= x < p as real + 1.0;
    assert x == (level + 6000) as real / 60.0 + 0.5;
    assert 60 * p - 30 <= level + 6000 < 60 * p + 30 by {
      assert (60 * p) as real <= (level + 6000) as real + 30.0;
      assert (level + 6000) as real + 30.0 < (60 * p + 60) as real;
    }
    var q := if p == 0 then 1 else p;
    PercentToHardwareExact(q);
  }

  // ------------------------------------------------------------------ rating

  /** The C `char` codes of the lowest and highest rating. */
  const RATING_MIN: int := '0' as int
  const RATING_MAX: int := '5' as int

  /** The rating step of OnAction on the tag's `char` rating: the new rating, or None when it stays. */
  function RatingStep(rating: int, increase: bool): (r: Option<int>)
    ensures r.Some? && increase ==> r.value == rating + 1 && rating < RATING_MAX
    ensures r.Some? && !increase ==> r.value == rating - 1 && rating > RATING_MIN
    ensures r.None? <==> (if increase then rating >= RATING_MAX else rating <= RATING_MIN)
  {
    if rating > RATING_MIN && !increase then Some(rating - 1)
    else if rating < RATING_MAX && increase then Some(rating + 1)
    else None
  }

  /** Ratings stay within '0'..'5', and a step up then down comes back. */
  lemma RatingStaysInRange(rating: int, increase: bool)
    requires RATING_MIN <= rating <= RATING_MAX
    ensures RatingStep(rating, increase).Some? ==> RATING_MIN <= RatingStep(rating, increase).value <= RATING_MAX
    ensures rating < RATING_MAX ==> RatingStep(RatingStep(rating, true).value, false) == Some(rating)
  {
  }

  // ------------------------------------------------------------- the object

  /**
   * PlayStack's loop without stored times: part i ends at the running total
   * of whole seconds; an unknown duration stops it with failure.
   */
  method RunningEndOffsets(durationsMs: seq<Option<int>>) returns (ok: bool, ends: seq<int>)
    ensures ok <==> AllKnown(durationsMs)
    ensures ok ==> ends == EndOffsets(Known(durationsMs))
  {
    var n := |durationsMs|;
    ends := seq(n, _ => 0);
    ghost var known: seq<int> := [];
    var totalTime := 0;
    var i := 0;
    while i < n
      invariant 0 <= i <= n && |ends| == n && |known| == i
      invariant forall k :: 0 <= k < i ==> durationsMs[k] == Some(known[k])
      invariant ends[..i] == EndOffsets(known) && totalTime == TotalSeconds(known)
    {
      if durationsMs[i].None? {
        return false, ends;
      }
      EndOffsetsSnoc(known, durationsMs[i].value);
      totalTime := totalTime + TruncDiv(durationsMs[i].value, 1000);
      assert ends[i := totalTime][..i + 1] == ends[..i] + [totalTime];
      ends := ends[i := totalTime];
      known := known + [durationsMs[i].value];
      i := i + 1;
    }
    assert known == Known(durationsMs);
    assert ends[..n] == ends;
    return true, ends;
  }

  class App {
    var stack: seq<int>
    var isStack: bool
    var stackPosition: int
    var playSpeed: int
    var player: Player
    var volumeLevel: int
    var drcLevel: int
    var mute: bool
    var preMuteLevel: int
    var requests: seq<Request>

    function State(): AppState
      reads this
    {
      AppState(stack, isStack, stackPosition, playSpeed, player, volumeLevel, drcLevel, mute, preMuteLevel, requests)
    }

    /**
     * PlayStack(item). `itemIsStack`, `startOffset` describe the item;
     * `storedTimes` are the end offsets the video database holds (None when it
     * has none or cannot be opened), `durationsMs` what each part's duration
     * probe reports (one per part), `bookmark` the stored resume point, and
     * `played` what PlayFile reports.
     */
    method PlayStack(itemIsStack: bool, startOffset: int, storedTimes: Option<seq<int>>,
                     durationsMs: seq<Option<int>>, bookmark: Option<real>, played: bool)
      returns (ok: bool)
      requires |durationsMs| > 0
      requires storedTimes.Some? ==> |storedTimes.value| >= |durationsMs|
      modifies this
      ensures !itemIsStack ==> !ok && State() == old(State())
      ensures itemIsStack && !(storedTimes.Some? || AllKnown(durationsMs)) ==>
                !ok && State() == old(State()).(stack := [])
      ensures itemIsStack && (storedTimes.Some? || AllKnown(durationsMs)) ==>
                var ends := StackEnds(storedTimes, durationsMs);
                var target := ResumeTarget(ends, StartSeconds(startOffset, bookmark));
                ok == played &&
                State() == old(State()).(stack := ends, isStack := true, stackPosition := target.0,
                                         requests := old(requests) + [target.1])
    {
      if !itemIsStack {
        return false;
      }
      var loaded := LoadEndOffsets(storedTimes, durationsMs);
      if !loaded {
        return false;
      }
      var seconds := startOffset as real / 75.0;
      if storedTimes.None? || startOffset == STARTOFFSET_RESUME {
        if startOffset == STARTOFFSET_RESUME {
          if bookmark.Some? {
            seconds := bookmark.value;
          } else {
            seconds := 0.0;
          }
        }
      }
      StartStack(seconds);
      return played;
    }

    /**
     * The loop of PlayStack that writes every part's end offset; false once a
     * duration is unknown. Whether the database had the times does not change
     * inside the loop, so each mode is its own loop here.
     */
    method LoadEndOffsets(storedTimes: Option<seq<int>>, durationsMs: seq<Option<int>>) returns (ok: bool)
      requires storedTimes.Some? ==> |storedTimes.value| >= |durationsMs|
      modifies this
      ensures ok <==> storedTimes.Some? || AllKnown(durationsMs)
      ensures ok ==> State() == old(State()).(stack := StackEnds(storedTimes, durationsMs))
      ensures !ok ==> State() == old(State()).(stack := [])
    {
      stack := seq(|durationsMs|, _ => 0);
      if storedTimes.Some? {
        CopyStoredTimes(storedTimes.value);
        ok := true;
      } else {
        var ends;
        ok, ends := RunningEndOffsets(durationsMs);
        stack := if ok then ends else [];
      }
    }

    /** With stored times, part i's end offset is times[i]. */
    method CopyStoredTimes(times: seq<int>)
      requires |times| >= |stack|
      modifies this
      ensures State() == old(State()).(stack := times[..|old(stack)|])
    {
      var i := 0;
      while i < |stack|
        invariant 0 <= i <= |stack| == |old(stack)|
        invariant stack[..i] == times[..i]
        invariant State() == old(State()).(stack := stack)
      {
        stack := stack[i := times[i]];
        assert stack[..i + 1] == times[..i + 1];
        i := i + 1;
      }
      assert stack[..|stack|] == stack;
    }

    /** The end of PlayStack: make the stack current and start the part holding `seconds`. */
    method StartStack(seconds: real)
      requires |stack| > 0
      modifies this
      ensures State() == old(State()).(isStack := true, stackPosition := ResumeTarget(old(stack), seconds).0,
                                       requests := old(requests) + [ResumeTarget(old(stack), seconds).1])
    {
      isStack := true;
      stackPosition := 0;
      if seconds > 0.0 {
        var j := 0;
        while j < |stack|
          invariant 0 <= j <= |stack|
          invariant FirstPartAfter(stack, seconds, 0) == FirstPartAfter(stack, seconds, j)
          invariant State() == old(State()).(isStack := true, stackPosition := 0)
        {
          if seconds < stack[j] as real {
            var start := if j > 0 then stack[j - 1] else 0;
            requests := requests + [PlayPartAt(j, TruncReal(seconds - start as real) * 75)];
            stackPosition := j;
            return;
          }
          j := j + 1;
        }
      }
      requests := requests + [PlayPart(0)];
    }

    /** SeekTime(dTime). */
    method SeekTime(dTime: real)
      modifies this
      ensures State() == SoughtTime(old(State()), dTime)
    {
      if IsPlaying(player) && dTime >= 0.0 {
        if !player.canSeek {
          return;
        }
        if isStack && |stack| > 0 {
          var i := 0;
          while i < |stack|
            invariant 0 <= i <= |stack|
            invariant FirstPartAfter(stack, dTime, 0) == FirstPartAfter(stack, dTime, i)
          {
            if stack[i] as real > dTime {
              var startOfNewFile := if i > 0 then stack[i - 1] else 0;
              if stackPosition == i {
                requests := requests + [SeekMs(TruncReal((dTime - startOfNewFile as real) * 1000.0))];
              } else {
                stackPosition := i;
                requests := requests + [PlayPartAt(i, TruncReal((dTime - startOfNewFile as real) * 75.0))];
              }
              return;
            }
            i := i + 1;
          }
        }
        requests := requests + [SeekMs(TruncReal(dTime * 1000.0))];
      }
    }

    /** SeekPercentage(percent). */
    method SeekPercentage(percent: real)
      modifies this
      ensures State() == SoughtPercentage(old(State()), percent)
    {
      if IsPlaying(player) && percent >= 0.0 {
        if !player.canSeek {
          return;
        }
        if isStack && |stack| > 0 {
          SeekTime(PercentOf(percent, stack[|stack| - 1] as real));
        } else {
          requests := requests + [SeekPercent(percent)];
        }
      }
    }

    /** SetPlaySpeed(iSpeed). */
    method SetPlaySpeed(speed: int)
      modifies this
      ensures State() == WithPlaySpeed(old(State()), speed)
    {
      if !IsPlaying(player) || playSpeed == speed || !player.canSeek {
        return;
      }
      var target := speed;
      if player.paused {
        if (playSpeed > 1 && target > playSpeed) || (playSpeed < -1 && target < playSpeed) {
          target := playSpeed;
        }
        player := player.(paused := false);
        requests := requests + [TogglePause];
      }
      playSpeed := target;
      requests := requests + [ToFFRW(playSpeed)];
      if playSpeed == 1 {
        requests := requests + [PlayerVolume(volumeLevel)];
      } else {
        requests := requests + [PlayerVolume(VOLUME_MINIMUM)];
      }
    }

    /** ACTION_PLAYER_FORWARD / ACTION_PLAYER_REWIND while playing and not paused. */
    method StepPlaySpeed(forward: bool)
      modifies this
      ensures IsPlaying(old(player)) && !old(player).paused ==>
                State() == WithPlaySpeed(old(State()), FfRwStep(old(playSpeed), forward))
      ensures !(IsPlaying(old(player)) && !old(player).paused) ==> State() == old(State())
    {
      if IsPlaying(player) && !player.paused {
        SetPlaySpeed(FfRwStep(playSpeed, forward));
      }
    }

    /** CheckPlayingProgress, given the info manager's play time in ms. */
    method CheckPlayingProgress(playTimeMs: int)
      requires IsPlaying(player) && playSpeed < 1 ==> IsPow2(-playSpeed)
      modifies this
      ensures State() == CheckedProgress(old(State()), playTimeMs)
    {
      if IsPlaying(player) {
        var speed := playSpeed;
        if speed < 1 {
          speed := -speed;
          var power := 0;
          while speed != 1
            invariant IsPow2(speed) && power + Log2(speed) == Log2(-playSpeed)
            decreases speed
          {
            speed := speed / 2;
            power := power + 1;
          }
          if TruncDiv(playTimeMs, 1000) < power {
            SetPlaySpeed(1);
            SeekTime(0.0);
          }
        }
      }
    }

    /** SetHardwareVolume(hardwareVolume). */
    method SetHardwareVolume(hardwareVolume: int)
      modifies this
      ensures State() == WithHardwareVolume(old(State()), hardwareVolume)
    {
      var v := hardwareVolume;
      if v >= VOLUME_MAXIMUM {
        v := VOLUME_MAXIMUM;
      }
      if v <= VOLUME_MINIMUM {
        v := VOLUME_MINIMUM;
      }
      if v > VOLUME_MAXIMUM {
        // the clamp above leaves no level over VOLUME_MAXIMUM for compression
        assert false;
      }
      drcLevel := 0;
      volumeLevel := v;
      if !mute && v <= VOLUME_MINIMUM {
        mute := true;
      } else if mute && v > VOLUME_MINIMUM {
        mute := false;
      }
      if player.loaded {
        requests := requests + [PlayerVolume(volumeLevel)];
      }
    }

    /** Mute(). */
    method Mute()
      modifies this
      ensures State() == Muted(old(State()))
    {
      if mute {
        if preMuteLevel == 0 {
          preMuteLevel := 1;
        }
        SetHardwareVolume(PercentToHardware(preMuteLevel));
      } else {
        preMuteLevel := VolumePercent(State());
        SetHardwareVolume(PercentToHardware(0));
      }
    }

    /**
     * GUI_MSG_PLAYBACK_ENDED (`ended`) or one of the stop messages: a stack
     * with parts left moves on to the next one; otherwise the stack is dropped.
     */
    method OnPlaybackFinished(ended: bool) returns (advanced: bool)
      modifies this
      ensures advanced <==> ended && HasStack(old(State())) && old(stackPosition) < |old(stack)| - 1
      ensures advanced ==> State() == old(State()).(stackPosition := old(stackPosition) + 1,
                                                    requests := old(requests) + [PlayPart(old(stackPosition) + 1)])
      ensures !advanced ==> State() == old(State()).(stack := [], isStack := false)
    {
      if ended {
        if isStack && |stack| > 0 && stackPosition < |stack| - 1 {
          stackPosition := stackPosition + 1;
          requests := requests + [PlayPart(stackPosition)];
          return true;
        }
      }
      isStack := false;
      stack := [];
      return false;
    }
  }

}
