/**
 * The adaptive quality controller: three fixed quality presets, a rolling
 * frame-rate monitor, the 120-frame tier decision with hysteresis, the
 * every-Nth-call frame throttle and the one-shot device classifier.
 *
 * The clock, the animation scheduler and the browser probes are inputs:
 * every timestamp is passed in by the caller and every environment signal
 * is a field of `DeviceSignals`.
 */
module Performance {
  import opened Wrappers

  // ---------------------------------------------------------------------
  // Quality tiers and presets
  // ---------------------------------------------------------------------

  /** The three quality tiers, ordered low < medium < high. */
  datatype QualityLevel = Low | Medium | High

  function Rank(q: QualityLevel): nat
  {
    match q
    case Low => 0
    case Medium => 1
    case High => 2
  }

  datatype QualitySettings = QualitySettings(
    level: QualityLevel,
    transmissionSamples: int,
    transmissionResolution: int,
    geometryDetail: real,
    shadowsEnabled: bool,
    particleCount: real,
    updateThrottle: int)

  /** The preset table: one immutable record per tier. */
  function Preset(q: QualityLevel): (s: QualitySettings)
    ensures s.level == q
    ensures s.transmissionSamples > 0 && s.transmissionResolution > 0
    ensures 0.0 < s.geometryDetail <= 1.0 && 0.0 < s.particleCount <= 1.0
    ensures s.updateThrottle >= 1
    ensures s.shadowsEnabled <==> q != Low
  {
    match q
    case Low => QualitySettings(Low, 2, 256, 0.5, false, 0.3, 2)
    case Medium => QualitySettings(Medium, 4, 512, 0.75, true, 0.6, 1)
    case High => QualitySettings(High, 8, 1024, 1.0, true, 1.0, 1)
  }

  /** A higher tier never asks for less rendering work than a lower one. */
  lemma PresetsMonotone(a: QualityLevel, b: QualityLevel)
    requires Rank(a) <= Rank(b)
    ensures Preset(a).transmissionSamples <= Preset(b).transmissionSamples
    ensures Preset(a).transmissionResolution <= Preset(b).transmissionResolution
    ensures Preset(a).geometryDetail <= Preset(b).geometryDetail
    ensures Preset(a).particleCount <= Preset(b).particleCount
    ensures Preset(a).updateThrottle >= Preset(b).updateThrottle
  {
  }

  // ---------------------------------------------------------------------
  // Frame-rate monitor
  // ---------------------------------------------------------------------

  /** Capacity of the rolling window. */
  const MaxSamples: nat := 60
  /** The average reported for an empty window. */
  const DefaultFps: real := 60.0

  /** Left-to-right sum, in the order of the source's reduce. */
  function Sum(s: seq<real>): real
  {
    if s == [] then 0.0 else Sum(s[..|s| - 1]) + s[|s| - 1]
  }

  /** getAverageFPS: the arithmetic mean of the window, 60 when it is empty. */
  function Mean(s: seq<real>): (r: real)
    ensures s == [] ==> r == DefaultFps
    ensures s != [] ==> r * (|s| as real) == Sum(s)
  {
    if s == [] then DefaultFps else Sum(s) / (|s| as real)
  }

  predicate AllWithin(s: seq<real>, lo: real, hi: real)
  {
    forall i :: 0 <= i < |s| ==> lo < s[i] < hi
  }

  lemma {:induction false} SumWithin(s: seq<real>, lo: real, hi: real)
    requires s != [] && AllWithin(s, lo, hi)
    ensures lo * (|s| as real) < Sum(s) < hi * (|s| as real)
  {
    var n := |s| as real;
    var init := s[..|s| - 1];
    if init == [] {
      assert Sum(s) == s[0];
    } else {
      assert AllWithin(init, lo, hi) by {
        forall i | 0 <= i < |init| ensures lo < init[i] < hi {
          assert init[i] == s[i];
        }
      }
      var k := |init| as real;
      assert Sum(s) == Sum(init) + s[|s| - 1];
      SumWithin(init, lo, hi);
      ScaleStep(lo, k);
      ScaleStep(hi, k);
    }
  }

  lemma ScaleStep(x: real, k: real)
    ensures x * (k + 1.0) == x * k + x
  {
  }

  /** The mean of samples that all lie strictly between two bounds lies between them too. */
  lemma MeanWithin(s: seq<real>, lo: real, hi: real)
    requires s != [] && AllWithin(s, lo, hi)
    ensures lo < Mean(s) < hi
  {
    SumWithin(s, lo, hi);
    QuotientWithin(Sum(s), |s| as real, lo, hi);
  }

  lemma QuotientWithin(x: real, n: real, lo: real, hi: real)
    requires n > 0.0 && lo * n < x < hi * n
    ensures lo < x / n < hi
  {
  }

  /** The mean of a window of identical samples is that sample. */
  lemma {:induction false} MeanOfConstant(s: seq<real>, c: real)
    requires s != [] && forall i :: 0 <= i < |s| ==> s[i] == c
    ensures Mean(s) == c
  {
    SumOfConstant(s, c);
  }

  lemma {:induction false} SumOfConstant(s: seq<real>, c: real)
    requires forall i :: 0 <= i < |s| ==> s[i] == c
    ensures Sum(s) == c * (|s| as real)
  {
    if s != [] {
      var init := s[..|s| - 1];
      assert forall i :: 0 <= i < |init| ==> init[i] == s[i];
      SumOfConstant(init, c);
    }
  }

  /**
   * The frames-per-second sample for a clock delta in milliseconds: none
   * for a non-positive delta, otherwise 1000 / delta, which is positive.
   */
  function FrameSample(delta: real): (r: Option<real>)
    ensures r.Some? <==> delta > 0.0
    ensures r.Some? ==> r.value > 0.0 && r.value * delta == 1000.0
  {
    if delta > 0.0 then Some(1000.0 / delta) else None
  }

  /**
   * Push a sample onto the window and drop the oldest one when the window
   * then holds more than MaxSamples.
   */
  function PushSample(frames: seq<real>, fps: real): (w: seq<real>)
    ensures |frames| <= MaxSamples ==> |w| <= MaxSamples
    ensures |w| == if |frames| < MaxSamples then |frames| + 1 else |frames|
    ensures w == (frames + [fps])[|frames| + 1 - |w|..]
    ensures w[|w| - 1] == fps
  {
    var pushed := frames + [fps];
    if |pushed| > MaxSamples then pushed[1..] else pushed
  }

  /** When the window is full the oldest sample is the one that goes. */
  lemma PushSampleEvictsOldest(frames: seq<real>, fps: real)
    requires |frames| == MaxSamples
    ensures PushSample(frames, fps) == frames[1..] + [fps]
  {
  }

  datatype MonitorState = MonitorState(frames: seq<real>, lastTime: real, frameCount: nat)

  /** The monitor invariant: a bounded window of positive samples. */
  predicate MonitorValid(m: MonitorState)
  {
    |m.frames| <= MaxSamples && forall i :: 0 <= i < |m.frames| ==> m.frames[i] > 0.0
  }

  /** update(): sample the clock, push a sample for a positive delta, count the frame. */
  function MonitorUpdate(m: MonitorState, now: real): (m': MonitorState)
    ensures MonitorValid(m) ==> MonitorValid(m')
    ensures m'.lastTime == now && m'.frameCount == m.frameCount + 1
    ensures now - m.lastTime <= 0.0 ==> m'.frames == m.frames
    ensures now - m.lastTime > 0.0 ==>
              m'.frames == PushSample(m.frames, 1000.0 / (now - m.lastTime))
  {
    var frames :=
      match FrameSample(now - m.lastTime)
      case Some(fps) => PushSample(m.frames, fps)
      case None => m.frames;
    MonitorState(frames, now, m.frameCount + 1)
  }

  /** reset(): an empty window, a zero frame counter and a fresh clock reading. */
  function MonitorReset(now: real): (m: MonitorState)
    ensures MonitorValid(m) && Mean(m.frames) == DefaultFps
  {
    MonitorState([], now, 0)
  }

  class PerformanceMonitor {
    var frames: seq<real>
    var lastTime: real
    var frameCount: nat

    function State(): MonitorState
      reads this
    {
      MonitorState(frames, lastTime, frameCount)
    }

    ghost predicate Valid()
      reads this
    {
      MonitorValid(State())
    }

    constructor (now: real)
      ensures Valid() && State() == MonitorReset(now)
    {
      frames := [];
      lastTime := now;
      frameCount := 0;
    }

    /** getAverageFPS */
    function AverageFps(): (r: real)
      reads this
      ensures frames == [] ==> r == DefaultFps
      ensures frames != [] ==> r * (|frames| as real) == Sum(frames)
    {
      Mean(frames)
    }

    method Update(now: real) returns (avg: real)
      requires Valid()
      modifies this
      ensures Valid()
      ensures State() == MonitorUpdate(old(State()), now)
      ensures avg == AverageFps()
    {
      ghost var m0 := State();
      var delta := now - lastTime;
      lastTime := now;
      if delta > 0.0 {
        var fps := 1000.0 / delta;
        frames := frames + [fps];
        if |frames| > MaxSamples {
          frames := frames[1..];
        }
        assert frames == PushSample(m0.frames, fps);
        assert FrameSample(delta) == Some(fps);
      }
      frameCount := frameCount + 1;
      assert State() == MonitorUpdate(m0, now);
      avg := AverageFps();
    }

    method Reset(now: real)
      modifies this
      ensures Valid() && State() == MonitorReset(now)
      ensures AverageFps() == DefaultFps
    {
      frames := [];
      frameCount := 0;
      lastTime := now;
    }
  }

  // ---------------------------------------------------------------------
  // Tier controller
  // ---------------------------------------------------------------------

  /** Number of frame ticks between two tier decisions. */
  const CheckInterval: nat := 120

  /**
   * The band of average frame rates in which tier q is kept: low holds up
   * to 50, medium from 30 to 58, high from 45 upwards.
   */
  predicate InHoldBand(q: QualityLevel, avg: real)
  {
    match q
    case Low => avg <= 50.0
    case Medium => 30.0 <= avg <= 58.0
    case High => 45.0 <= avg
  }

  /** The decision table, first match wins. */
  function NextQuality(avg: real, q: QualityLevel): (r: QualityLevel)
    ensures r == q <==> InHoldBand(q, avg)
    ensures Rank(r) <= Rank(q) + 1
    ensures Rank(r) > Rank(q) ==> avg > 50.0
    ensures Rank(r) < Rank(q) ==> avg < 45.0
    ensures r == Low <==> avg < 30.0 || (q == Low && avg <= 50.0)
  {
    if avg < 30.0 && q != Low then Low
    else if avg < 45.0 && q == High then Medium
    else if avg > 58.0 && q == Medium then High
    else if avg > 50.0 && q == Low then Medium
    else q
  }

  /** The same decision written tier by tier. */
  function DecisionByTier(avg: real, q: QualityLevel): QualityLevel
  {
    match q
    case High => if avg < 30.0 then Low else if avg < 45.0 then Medium else High
    case Medium => if avg < 30.0 then Low else if avg > 58.0 then High else Medium
    case Low => if avg > 50.0 then Medium else Low
  }

  lemma NextQualityByTier(avg: real, q: QualityLevel)
    ensures NextQuality(avg, q) == DecisionByTier(avg, q)
  {
  }

  /** Between 45 and 50 frames per second every tier is kept. */
  lemma HysteresisBand(avg: real, q: QualityLevel)
    requires 45.0 <= avg <= 50.0
    ensures NextQuality(avg, q) == q
  {
  }

  /**
   * An upgrade followed by a downgrade back needs the average to fall by
   * more than 13 frames per second between the two decisions (above 58
   * then below 45, or above 50 then below 30).
   */
  lemma NoFlapping(a1: real, a2: real, q: QualityLevel)
    requires Rank(NextQuality(a1, q)) > Rank(q)
    requires NextQuality(a2, NextQuality(a1, q)) == q
    ensures a1 - a2 > 13.0
  {
  }

  /** Decisions taken one after another on a series of window averages. */
  function DecideAll(q: QualityLevel, avgs: seq<real>): QualityLevel
    decreases |avgs|
  {
    if avgs == [] then q else DecideAll(NextQuality(avgs[0], q), avgs[1..])
  }

  /** A tier is kept through any number of windows whose averages stay in its band. */
  lemma {:induction false} HoldsThroughBand(q: QualityLevel, avgs: seq<real>)
    requires forall i :: 0 <= i < |avgs| ==> InHoldBand(q, avgs[i])
    ensures DecideAll(q, avgs) == q
  {
    if avgs != [] {
      HoldsThroughBand(q, avgs[1..]);
    }
  }

  /** Over any series of windows the tier climbs by at most one step per window. */
  lemma {:induction false} ClimbsOneStepPerWindow(q: QualityLevel, avgs: seq<real>)
    ensures Rank(DecideAll(q, avgs)) <= Rank(q) + |avgs|
    decreases |avgs|
  {
    if avgs != [] {
      ClimbsOneStepPerWindow(NextQuality(avgs[0], q), avgs[1..]);
    }
  }

  datatype ControllerState = ControllerState(
    quality: QualityLevel,
    settings: QualitySettings,
    monitor: MonitorState,
    checkCount: nat)

  predicate ControllerValid(c: ControllerState)
  {
    c.settings == Preset(c.quality) && c.checkCount < CheckInterval && MonitorValid(c.monitor)
  }

  function InitialController(initial: QualityLevel, now: real): (c: ControllerState)
    ensures ControllerValid(c)
  {
    ControllerState(initial, Preset(initial), MonitorReset(now), 0)
  }

  /**
   * One checkPerformance tick: update the monitor at `now`, count the tick,
   * and on the 120th tick decide, then zero the counter and reset the
   * monitor at `resetNow` (the clock read by reset()).
   */
  function ControllerTick(c: ControllerState, now: real, resetNow: real): (c': ControllerState)
    ensures ControllerValid(c) ==> ControllerValid(c')
    ensures c'.checkCount == if c.checkCount + 1 >= CheckInterval then 0 else c.checkCount + 1
    ensures c'.quality != c.quality || c'.settings != c.settings ==> c.checkCount + 1 >= CheckInterval
  {
    var m := MonitorUpdate(c.monitor, now);
    var count := c.checkCount + 1;
    if count >= CheckInterval then
      var q := NextQuality(Mean(m.frames), c.quality);
      var settings := if q == c.quality then c.settings else Preset(q);
      ControllerState(q, settings, MonitorReset(resetNow), 0)
    else
      ControllerState(c.quality, c.settings, m, count)
  }

  lemma TickPreservesValid(c: ControllerState, now: real, resetNow: real)
    requires ControllerValid(c)
    ensures ControllerValid(ControllerTick(c, now, resetNow))
  {
  }

  /** A tick below the interval only feeds the monitor. */
  lemma TickBeforeInterval(c: ControllerState, now: real, resetNow: real)
    requires ControllerValid(c) && c.checkCount + 1 < CheckInterval
    ensures ControllerTick(c, now, resetNow)
         == c.(monitor := MonitorUpdate(c.monitor, now), checkCount := c.checkCount + 1)
  {
  }

  /**
   * The 120th tick decides on the average that includes its own sample,
   * then resets the monitor and the counter whatever it decided.
   */
  lemma TickAtInterval(c: ControllerState, now: real, resetNow: real)
    requires ControllerValid(c) && c.checkCount + 1 == CheckInterval
    ensures var c' := ControllerTick(c, now, resetNow);
            && c'.quality == NextQuality(Mean(MonitorUpdate(c.monitor, now).frames), c.quality)
            && c'.settings == Preset(c'.quality)
            && c'.monitor == MonitorReset(resetNow)
            && c'.checkCount == 0
  {
  }

  datatype FrameTick = FrameTick(now: real, resetNow: real)

  function RunTicks(c: ControllerState, ticks: seq<FrameTick>): ControllerState
    decreases |ticks|
  {
    if ticks == [] then c
    else RunTicks(ControllerTick(c, ticks[0].now, ticks[0].resetNow), ticks[1..])
  }

  lemma TickCounter(c: ControllerState, now: real, resetNow: real)
    ensures ControllerTick(c, now, resetNow).checkCount
         == if c.checkCount + 1 >= CheckInterval then 0 else c.checkCount + 1
  {
  }

  lemma {:induction false} RunPreservesValid(c: ControllerState, ticks: seq<FrameTick>)
    requires ControllerValid(c)
    ensures ControllerValid(RunTicks(c, ticks))
    decreases |ticks|
  {
    if ticks != [] {
      TickPreservesValid(c, ticks[0].now, ticks[0].resetNow);
      RunPreservesValid(ControllerTick(c, ticks[0].now, ticks[0].resetNow), ticks[1..]);
    }
  }

  /** The tick counter alone: n ticks from `count`, wrapping to 0 on reaching 120. */
  function CounterAfter(count: nat, n: nat): nat
    decreases n
  {
    if n == 0 then count
    else CounterAfter(if count + 1 >= CheckInterval then 0 else count + 1, n - 1)
  }

  lemma {:induction false} RunCounter(c: ControllerState, ticks: seq<FrameTick>)
    ensures RunTicks(c, ticks).checkCount == CounterAfter(c.checkCount, |ticks|)
    decreases |ticks|
  {
    if ticks != [] {
      var c1 := ControllerTick(c, ticks[0].now, ticks[0].resetNow);
      var rest := ticks[1..];
      assert RunTicks(c, ticks) == RunTicks(c1, rest);
      TickCounter(c, ticks[0].now, ticks[0].resetNow);
      assert CounterAfter(c.checkCount, |ticks|) == CounterAfter(c1.checkCount, |rest|);
      RunCounter(c1, rest);
    }
  }

  lemma {:induction false} CounterAfterMod(count: nat, n: nat)
    requires count < CheckInterval
    ensures CounterAfter(count, n) == (count + n) % CheckInterval
    decreases n
  {
    if n == 0 {
      DivUnique(count, CheckInterval, 0, count);
    } else if count + 1 >= CheckInterval {
      CounterAfterMod(0, n - 1);
      DivStep(n - 1, CheckInterval);
    } else {
      CounterAfterMod(count + 1, n - 1);
    }
  }

  /** The counter runs modulo 120, so decisions happen exactly every 120 ticks. */
  lemma Cadence(c: ControllerState, ticks: seq<FrameTick>)
    requires c.checkCount < CheckInterval
    ensures RunTicks(c, ticks).checkCount == (c.checkCount + |ticks|) % CheckInterval
  {
    RunCounter(c, ticks);
    CounterAfterMod(c.checkCount, |ticks|);
  }

  /** No tier change can happen before the counter reaches 120. */
  lemma {:induction false} NoDecisionBeforeInterval(c: ControllerState, ticks: seq<FrameTick>)
    requires ControllerValid(c) && c.checkCount + |ticks| < CheckInterval
    ensures RunTicks(c, ticks).quality == c.quality
    ensures RunTicks(c, ticks).settings == c.settings
    ensures RunTicks(c, ticks).monitor.frameCount == c.monitor.frameCount + |ticks|
    decreases |ticks|
  {
    if ticks != [] {
      var c1 := ControllerTick(c, ticks[0].now, ticks[0].resetNow);
      NoDecisionBeforeInterval(c1, ticks[1..]);
    }
  }

  /** Whether the frame between `last` and `now` measures strictly between lo and hi fps. */
  predicate FrameWithin(last: real, now: real, lo: real, hi: real)
  {
    now - last > 0.0 && lo < 1000.0 / (now - last) < hi
  }

  /** Every frame of a run of ticks, starting from clock reading `last`, is within (lo, hi). */
  predicate TicksWithin(last: real, ticks: seq<FrameTick>, lo: real, hi: real)
    decreases |ticks|
  {
    ticks == [] ||
    (FrameWithin(last, ticks[0].now, lo, hi) && TicksWithin(ticks[0].now, ticks[1..], lo, hi))
  }

  /** Pushing a sample within (lo, hi) keeps every sample of the window within (lo, hi). */
  lemma PushKeepsWithin(frames: seq<real>, fps: real, lo: real, hi: real)
    requires AllWithin(frames, lo, hi) && lo < fps < hi
    ensures AllWithin(PushSample(frames, fps), lo, hi) && PushSample(frames, fps) != []
  {
    var w := PushSample(frames, fps);
    var pushed := frames + [fps];
    forall i | 0 <= i < |w| ensures lo < w[i] < hi {
      assert w[i] == pushed[i + |pushed| - |w|];
    }
  }

  /** A monitor update on a frame within (lo, hi) keeps the window within (lo, hi). */
  lemma UpdateKeepsWithin(m: MonitorState, now: real, lo: real, hi: real)
    requires AllWithin(m.frames, lo, hi) && FrameWithin(m.lastTime, now, lo, hi)
    ensures AllWithin(MonitorUpdate(m, now).frames, lo, hi)
    ensures MonitorUpdate(m, now).frames != []
  {
    PushKeepsWithin(m.frames, 1000.0 / (now - m.lastTime), lo, hi);
  }

  /**
   * When every frame up to a decision measures within (lo, hi), the
   * decision is taken on an average within (lo, hi).
   */
  lemma {:induction false} WindowDecision(c: ControllerState, ticks: seq<FrameTick>, lo: real, hi: real)
    returns (avg: real)
    requires ControllerValid(c) && |ticks| > 0 && c.checkCount + |ticks| == CheckInterval
    requires AllWithin(c.monitor.frames, lo, hi)
    requires TicksWithin(c.monitor.lastTime, ticks, lo, hi)
    ensures lo < avg < hi
    ensures RunTicks(c, ticks).quality == NextQuality(avg, c.quality)
    ensures RunTicks(c, ticks).checkCount == 0
    ensures RunTicks(c, ticks).monitor == MonitorReset(ticks[|ticks| - 1].resetNow)
    decreases |ticks|
  {
    var t := ticks[0];
    var m := MonitorUpdate(c.monitor, t.now);
    UpdateKeepsWithin(c.monitor, t.now, lo, hi);
    var c1 := ControllerTick(c, t.now, t.resetNow);
    assert RunTicks(c, ticks) == RunTicks(c1, ticks[1..]);
    if |ticks| == 1 {
      avg := Mean(m.frames);
      MeanWithin(m.frames, lo, hi);
    } else {
      assert c1 == ControllerState(c.quality, c.settings, m, c.checkCount + 1);
      avg := WindowDecision(c1, ticks[1..], lo, hi);
    }
  }

  /**
   * Starting right after a reset, 120 frames all slower than 30 fps end
   * in the low tier, from any tier.
   */
  lemma SustainedSlowFramesDropToLow(c: ControllerState, ticks: seq<FrameTick>)
    requires ControllerValid(c) && c.checkCount == 0 && c.monitor.frames == []
    requires |ticks| == CheckInterval && TicksWithin(c.monitor.lastTime, ticks, 0.0, 30.0)
    ensures RunTicks(c, ticks).quality == Low
    ensures RunTicks(c, ticks).settings == Preset(Low)
  {
    var avg := WindowDecision(c, ticks, 0.0, 30.0);
    RunPreservesValid(c, ticks);
  }

  /**
   * Starting right after a reset in the medium tier, 120 frames that all
   * measure between 30 and 58 fps keep the medium tier.
   */
  lemma MediumHoldsInBand(c: ControllerState, ticks: seq<FrameTick>)
    requires ControllerValid(c) && c.quality == Medium && c.checkCount == 0 && c.monitor.frames == []
    requires |ticks| == CheckInterval && TicksWithin(c.monitor.lastTime, ticks, 30.0, 58.0)
    ensures RunTicks(c, ticks).quality == Medium
  {
    var avg := WindowDecision(c, ticks, 30.0, 58.0);
  }

  /** useAdaptiveQuality: the tier, its settings, the monitor and the tick counter. */
  class AdaptiveQuality {
    var quality: QualityLevel
    var settings: QualitySettings
    const monitor: PerformanceMonitor
    var checkCount: nat

    function State(): ControllerState
      reads this, monitor
    {
      ControllerState(quality, settings, monitor.State(), checkCount)
    }

    ghost predicate Valid()
      reads this, monitor
    {
      ControllerValid(State())
    }

    constructor (now: real, initial: QualityLevel := High)
      ensures Valid() && fresh(monitor)
      ensures State() == InitialController(initial, now)
    {
      quality := initial;
      settings := Preset(initial);
      monitor := new PerformanceMonitor(now);
      checkCount := 0;
    }

    /** checkPerformance: one frame tick of the controller. */
    method CheckPerformance(now: real, resetNow: real)
      requires Valid()
      modifies this, monitor
      ensures Valid()
      ensures State() == ControllerTick(old(State()), now, resetNow)
    {
      ghost var c0 := State();
      var fps := monitor.Update(now);
      ghost var m1 := monitor.State();
      assert m1 == MonitorUpdate(c0.monitor, now);
      checkCount := checkCount + 1;
      if checkCount >= CheckInterval {
        var avgFps := monitor.AverageFps();
        assert avgFps == Mean(m1.frames);
        if avgFps < 30.0 && quality != Low {
          quality := Low;
          settings := Preset(Low);
        } else if avgFps < 45.0 && quality == High {
          quality := Medium;
          settings := Preset(Medium);
        } else if avgFps > 58.0 && quality == Medium {
          quality := High;
          settings := Preset(High);
        } else if avgFps > 50.0 && quality == Low {
          quality := Medium;
          settings := Preset(Medium);
        }
        assert quality == NextQuality(avgFps, c0.quality);
        checkCount := 0;
        monitor.Reset(resetNow);
      }
    }
  }

  // ---------------------------------------------------------------------
  // Frame throttle
  // ---------------------------------------------------------------------

  /** One call of the throttled wrapper: whether the callback runs, and the new counter. */
  function ThrottleStep(count: int, throttle: int): (r: (bool, int))
    ensures 0 <= count ==> 0 <= r.1
    ensures 0 <= count < throttle ==> r.1 < throttle && (r.0 <==> r.1 == 0)
    ensures throttle <= 1 && 0 <= count ==> r.0
  {
    var next := count + 1;
    if next >= throttle then (true, 0) else (false, next)
  }

  /** The number of callback runs over m calls, and the counter afterwards. */
  function ThrottleRun(count: int, throttle: int, m: nat): (nat, int)
    decreases m
  {
    if m == 0 then (0, count)
    else
      var (fired, next) := ThrottleStep(count, throttle);
      var (runs, last) := ThrottleRun(next, throttle, m - 1);
      ((if fired then 1 else 0) + runs, last)
  }

  lemma MulAtLeast(k: int, n: int)
    requires k >= 1 && n > 0
    ensures k * n >= n
  {
  }

  /** Euclidean division is determined by quotient and remainder. */
  lemma DivUnique(a: int, n: int, q: int, r: int)
    requires n > 0 && 0 <= r < n && a == q * n + r
    ensures a / n == q && a % n == r
  {
    var q0, r0 := a / n, a % n;
    assert a == q0 * n + r0 && 0 <= r0 < n;
    assert (q - q0) * n == r0 - r;
    if q > q0 {
      MulAtLeast(q - q0, n);
    } else if q < q0 {
      MulAtLeast(q0 - q, n);
    }
  }

  lemma DivStep(a: int, n: int)
    requires a >= 0 && n > 0
    ensures (a + n) / n == a / n + 1 && (a + n) % n == a % n
  {
    DivUnique(a + n, n, a / n + 1, a % n);
  }

  /**
   * With throttle N >= 1 and a counter c below N, m calls run the
   * callback (c + m) / N times and leave the counter at (c + m) % N; from
   * a fresh counter that is floor(m / N) runs.
   */
  lemma {:induction false} ThrottleRunCounts(count: int, throttle: int, m: nat)
    requires throttle >= 1 && 0 <= count < throttle
    ensures ThrottleRun(count, throttle, m) == ((count + m) / throttle, (count + m) % throttle)
    decreases m
  {
    if m > 0 {
      if count + 1 >= throttle {
        ThrottleRunCounts(0, throttle, m - 1);
        DivStep(m - 1, throttle);
        assert count + m == m - 1 + throttle;
      } else {
        ThrottleRunCounts(count + 1, throttle, m - 1);
      }
    }
  }

  /** With throttle at most 1 the callback runs on every call. */
  lemma {:induction false} ThrottleAtMostOneRunsAlways(count: int, throttle: int, m: nat)
    requires throttle <= 1 && count >= 0
    ensures ThrottleRun(count, throttle, m).0 == m
    decreases m
  {
    if m > 0 {
      ThrottleAtMostOneRunsAlways(0, throttle, m - 1);
    }
  }

  /** useFrameThrottle: the wrapper with its own counter. */
  class FrameThrottle {
    var count: int
    const throttle: int

    constructor (throttle: int := 1)
      ensures this.throttle == throttle && count == 0
    {
      this.throttle := throttle;
      count := 0;
    }

    /** One call of the wrapper; `fired` says whether the callback ran. */
    method Call() returns (fired: bool)
      modifies this
      ensures (fired, count) == ThrottleStep(old(count), throttle)
    {
      count := count + 1;
      fired := false;
      if count >= throttle {
        fired := true;
        count := 0;
      }
    }
  }

  // ---------------------------------------------------------------------
  // Device capability
  // ---------------------------------------------------------------------

  /** ASCII lower-casing. */
  function LowerChar(c: char): (d: char)
    ensures 'A' <= c <= 'Z' ==> 'a' <= d <= 'z'
    ensures !('A' <= c <= 'Z') ==> d == c
  {
    if 'A' <= c <= 'Z' then (c as int + 32) as char else c
  }

  function Lower(s: string): (t: string)
    ensures |t| == |s| && forall i :: 0 <= i < |s| ==> t[i] == LowerChar(s[i])
  {
    if s == [] then [] else [LowerChar(s[0])] + Lower(s[1..])
  }

  /** Whether `needle` occurs in `s` as a contiguous substring. */
  function Contains(s: string, needle: string): bool
    decreases |s|
  {
    if |needle| > |s| then false
    else s[..|needle|] == needle || (s != [] && Contains(s[1..], needle))
  }

  predicate OccursAt(s: string, needle: string, i: int)
  {
    0 <= i <= |s| - |needle| && s[i..i + |needle|] == needle
  }

  /** Contains agrees with the positional definition of a substring. */
  lemma {:induction false} ContainsAt(s: string, needle: string)
    ensures Contains(s, needle) <==> exists i :: OccursAt(s, needle, i)
    decreases |s|
  {
    if |needle| <= |s| {
      assert s[..|needle|] == needle <==> OccursAt(s, needle, 0);
      if s != [] {
        ContainsAt(s[1..], needle);
        forall i | OccursAt(s[1..], needle, i) ensures OccursAt(s, needle, i + 1) {
          assert s[1..][i..i + |needle|] == s[i + 1..i + 1 + |needle|];
        }
        forall i | OccursAt(s, needle, i) && i > 0 ensures OccursAt(s[1..], needle, i - 1) {
          assert s[1..][i - 1..i - 1 + |needle|] == s[i..i + |needle|];
        }
      }
    }
  }

  /** The lower-cased alternatives of the mobile user-agent pattern. */
  const MobileAgentTokens: seq<string> :=
    ["android", "webos", "iphone", "ipad", "ipod", "blackberry", "iemobile", "opera mini"]

  /** Some token is a substring of s. */
  predicate SomeTokenIn(s: string)
  {
    exists k :: 0 <= k < |MobileAgentTokens| && Contains(s, MobileAgentTokens[k])
  }

  /** Some token occurs in s at some position. */
  ghost predicate SomeTokenAt(s: string)
  {
    exists k, i :: 0 <= k < |MobileAgentTokens| && OccursAt(s, MobileAgentTokens[k], i)
  }

  lemma TokenFoundAt(s: string)
    ensures SomeTokenIn(s) <==> SomeTokenAt(s)
  {
    if k :| 0 <= k < |MobileAgentTokens| && Contains(s, MobileAgentTokens[k]) {
      ContainsAt(s, MobileAgentTokens[k]);
      var i :| OccursAt(s, MobileAgentTokens[k], i);
    }
    if k, i :| 0 <= k < |MobileAgentTokens| && OccursAt(s, MobileAgentTokens[k], i) {
      ContainsAt(s, MobileAgentTokens[k]);
    }
  }

  /**
   * The case-insensitive mobile user-agent test: one of the tokens occurs
   * at some position of the lower-cased agent string, which is then at
   * least as long as the shortest token.
   */
  function IsMobileAgent(userAgent: string): (r: bool)
    ensures r <==> SomeTokenAt(Lower(userAgent))
    ensures r ==> |userAgent| >= 4
  {
    var low := Lower(userAgent);
    TokenFoundAt(low);
    SomeTokenIn(low)
  }

  lemma LowerIdempotent(s: string)
    ensures Lower(Lower(s)) == Lower(s)
  {
    assert forall i :: 0 <= i < |s| ==> Lower(Lower(s))[i] == Lower(s)[i];
  }

  /** The mobile test ignores letter case: lower-casing the agent first changes nothing. */
  lemma MobileAgentIgnoresCase(userAgent: string)
    ensures IsMobileAgent(Lower(userAgent)) == IsMobileAgent(userAgent)
  {
    LowerIdempotent(userAgent);
  }

  /** What the WebGL probe found; `renderer` is absent without the debug-info extension. */
  datatype WebGlInfo = WebGlInfo(renderer: Option<string>)

  datatype DeviceSignals = DeviceSignals(
    userAgent: string,
    webgl: Option<WebGlInfo>,
    deviceMemory: Option<real>)

  /** The renderer string, when reported, contains "intel" once lower-cased. */
  function IntelRenderer(gl: WebGlInfo): (r: bool)
    ensures r <==> gl.renderer.Some? && exists i :: OccursAt(Lower(gl.renderer.value), "intel", i)
  {
    if gl.renderer.None? then false
    else
      var low := Lower(gl.renderer.value);
      var found := Contains(low, "intel");
      ContainsAt(low, "intel");
      found
  }

  /** `deviceMemory && deviceMemory < 4`: absent and 0 are both falsy. */
  function LowMemory(deviceMemory: Option<real>): (r: bool)
    ensures r ==> deviceMemory.Some? && deviceMemory.value < 4.0
    ensures deviceMemory == Some(0.0) ==> !r
    ensures deviceMemory.Some? && 0.0 < deviceMemory.value < 4.0 ==> r
  {
    deviceMemory.Some? && deviceMemory.value != 0.0 && deviceMemory.value < 4.0
  }

  /** detectDeviceCapability over its signals, checked in the source's order. */
  function DetectDeviceCapability(signals: DeviceSignals): (r: QualityLevel)
    ensures IsMobileAgent(signals.userAgent) ==> r == Low
    ensures r == Low <==> IsMobileAgent(signals.userAgent) || signals.webgl.None?
    ensures r == Medium <==>
              && !IsMobileAgent(signals.userAgent)
              && signals.webgl.Some?
              && (IntelRenderer(signals.webgl.value) || LowMemory(signals.deviceMemory))
    ensures r == High <==>
              && !IsMobileAgent(signals.userAgent)
              && signals.webgl.Some?
              && !IntelRenderer(signals.webgl.value)
              && !LowMemory(signals.deviceMemory)
  {
    if IsMobileAgent(signals.userAgent) then Low
    else if signals.webgl.None? then Low
    else if IntelRenderer(signals.webgl.value) then Medium
    else if LowMemory(signals.deviceMemory) then Medium
    else High
  }

  /** A renderer string naming Intel in any letter case is detected. */
  lemma IntelDetectedInAnyCase(prefix: string, word: string, suffix: string)
    requires Lower(word) == "intel"
    ensures IntelRenderer(WebGlInfo(Some(prefix + word + suffix)))
  {
    var s := prefix + word + suffix;
    var low := Lower(s);
    var i := |prefix|;
    forall j | 0 <= j < |word| ensures low[i + j] == Lower(word)[j] {
      assert s[i + j] == word[j];
    }
    assert low[i..i + |word|] == Lower(word);
    assert OccursAt(low, "intel", i);
    ContainsAt(low, "intel");
  }
}
