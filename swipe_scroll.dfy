/**
 * The section navigator of the mobile home page: six sections, a swipe
 * threshold, a transition lock, one exit flag for each of the sections
 * 0 to 4, and completions that run on timers. Timers are explicit: the
 * state records the one timer that can be pending, and `TimerFired` is
 * the event of that timer expiring.
 */
module SwipeScroll {
  import Performance

  /** The sections are numbered 0 (hero) to 5 (footer). */
  const LastSection: int := 5
  /** A swipe must move further than this many pixels to count. */
  const SwipeThreshold: real := 50.0
  /** Duration of a section's exit animation, in milliseconds. */
  const TransitionTime: nat := 1000
  /** Lock kept after the hero exit that a swipe starts. */
  const HeroSwipeBuffer: nat := 100
  /** Lock kept after any other exit animation. */
  const BufferTime: nat := 200
  /** Lock kept after a change without an exit animation. */
  const PlainLockTime: nat := 800

  /**
   * The pending timer with its delay in milliseconds. `ExitTimer` runs
   * out at the end of an exit animation: it moves to `target`, clears exit
   * flag `flag` and starts an unlock timer of `buffer` milliseconds.
   * `UnlockTimer` releases the lock.
   */
  datatype SwipeTimer =
    | NoTimer
    | ExitTimer(flag: int, target: int, delay: nat, buffer: nat)
    | UnlockTimer(delay: nat)

  datatype SwipeState = SwipeState(
    currentSection: int,
    isTransitioning: bool,
    heroExiting: bool,
    productExiting: bool,
    philosophyExiting: bool,
    visionExiting: bool,
    dotExiting: bool,
    timer: SwipeTimer)

  const InitialSwipe: SwipeState :=
    SwipeState(0, false, false, false, false, false, false, NoTimer)

  /** The exit flag of section i: hero, product, philosophy, vision, dot for 0 to 4. */
  function ExitFlag(s: SwipeState, i: int): bool
  {
    if i == 0 then s.heroExiting
    else if i == 1 then s.productExiting
    else if i == 2 then s.philosophyExiting
    else if i == 3 then s.visionExiting
    else if i == 4 then s.dotExiting
    else false
  }

  /** Set the exit flag of section i (0 to 4) to b; other indices change nothing. */
  function SetExiting(s: SwipeState, i: int, b: bool): SwipeState
  {
    if i == 0 then s.(heroExiting := b)
    else if i == 1 then s.(productExiting := b)
    else if i == 2 then s.(philosophyExiting := b)
    else if i == 3 then s.(visionExiting := b)
    else if i == 4 then s.(dotExiting := b)
    else s
  }

  function ExitingCount(s: SwipeState): nat
  {
    (if s.heroExiting then 1 else 0) + (if s.productExiting then 1 else 0)
    + (if s.philosophyExiting then 1 else 0) + (if s.visionExiting then 1 else 0)
    + (if s.dotExiting then 1 else 0)
  }

  predicate NoneExiting(s: SwipeState)
  {
    !s.heroExiting && !s.productExiting && !s.philosophyExiting && !s.visionExiting && !s.dotExiting
  }

  /** Exactly the flag of section f is set, every other flag is clear. */
  predicate OnlyExiting(s: SwipeState, f: int)
  {
    && s.heroExiting == (f == 0)
    && s.productExiting == (f == 1)
    && s.philosophyExiting == (f == 2)
    && s.visionExiting == (f == 3)
    && s.dotExiting == (f == 4)
  }

  /**
   * The navigator invariant: the section is in range; the lock is held
   * exactly while a timer is pending; during an exit animation the flag of
   * the section being left is the only flag set, and otherwise none is.
   */
  predicate SwipeValid(s: SwipeState)
  {
    && 0 <= s.currentSection <= LastSection
    && (s.timer.NoTimer? <==> !s.isTransitioning)
    && match s.timer
       case ExitTimer(flag, target, delay, _) =>
         && flag == s.currentSection && flag < LastSection && delay == TransitionTime
         && 0 <= target <= LastSection && target != flag
         && OnlyExiting(s, flag)
       case _ => NoneExiting(s)
  }

  function Abs(x: real): real
  {
    if x < 0.0 then -x else x
  }

  /** handleSwipe, for a touch that started at startY and ended at endY. */
  function Swipe(s: SwipeState, startY: real, endY: real): (s': SwipeState)
    ensures s.isTransitioning ==> s' == s
    ensures Abs(startY - endY) <= SwipeThreshold ==> s' == s
    ensures !s.isTransitioning && Abs(startY - endY) > SwipeThreshold ==> s'.isTransitioning
    ensures SwipeValid(s) && s'.currentSection != s.currentSection ==> s.currentSection == LastSection
  {
    var distance := startY - endY;
    if s.isTransitioning then s
    else if Abs(distance) <= SwipeThreshold then s
    else if s.currentSection == 0 && distance > 0.0 then
      s.(isTransitioning := true, heroExiting := true, timer := ExitTimer(0, 1, TransitionTime, HeroSwipeBuffer))
    else if 1 <= s.currentSection <= 4 then
      var target := if distance > 0.0 then s.currentSection + 1 else s.currentSection - 1;
      SetExiting(s, s.currentSection, true)
        .(isTransitioning := true, timer := ExitTimer(s.currentSection, target, TransitionTime, BufferTime))
    else
      var next :=
        if distance > 0.0 && s.currentSection < LastSection then s.currentSection + 1
        else if distance < 0.0 && s.currentSection > 0 then s.currentSection - 1
        else s.currentSection;
      s.(isTransitioning := true, currentSection := next, timer := UnlockTimer(PlainLockTime))
  }

  /** scrollToSection(index), from a click on one of the six indicators. */
  function ScrollToSection(s: SwipeState, index: int): (s': SwipeState)
    requires 0 <= index <= LastSection
    ensures s.isTransitioning || index == s.currentSection ==> s' == s
    ensures !s.isTransitioning && index != s.currentSection ==> s'.isTransitioning
    ensures SwipeValid(s) && s'.currentSection != s.currentSection ==> s.currentSection == LastSection
    ensures !s.isTransitioning && index != s.currentSection && 0 <= s.currentSection < LastSection ==>
              s'.timer.ExitTimer? && s'.timer.target == index
  {
    if s.isTransitioning || index == s.currentSection then s
    else if s.currentSection == 0 && index > 0 then
      s.(isTransitioning := true, heroExiting := true, timer := ExitTimer(0, index, TransitionTime, BufferTime))
    else if 1 <= s.currentSection <= 4 then
      SetExiting(s, s.currentSection, true)
        .(isTransitioning := true, timer := ExitTimer(s.currentSection, index, TransitionTime, BufferTime))
    else
      s.(isTransitioning := true, currentSection := index, timer := UnlockTimer(PlainLockTime))
  }

  /**
   * The pending timer expires: an exit timer moves to its target, clears
   * its flag and starts the unlock timer while keeping the lock; an unlock
   * timer releases the lock and changes nothing else.
   */
  function TimerFired(s: SwipeState): (s': SwipeState)
    ensures s.timer.NoTimer? ==> s' == s
    ensures s.timer.ExitTimer? ==>
              && s'.currentSection == s.timer.target && s'.isTransitioning == s.isTransitioning
              && s'.timer == UnlockTimer(s.timer.buffer)
              && (SwipeValid(s) ==> NoneExiting(s'))
    ensures s.timer.UnlockTimer? ==>
              && !s'.isTransitioning && s'.timer == NoTimer
              && s'.currentSection == s.currentSection && ExitingCount(s') == ExitingCount(s)
  {
    match s.timer
    case NoTimer => s
    case ExitTimer(flag, target, _, buffer) =>
      SetExiting(s, flag, false).(currentSection := target, timer := UnlockTimer(buffer))
    case UnlockTimer(_) => s.(isTransitioning := false, timer := NoTimer)
  }

  /** Let every pending timer expire: at most an exit timer and then an unlock timer. */
  function Settle(s: SwipeState): SwipeState
  {
    TimerFired(TimerFired(s))
  }

  /** The section a swipe leads to: one step in its direction, clamped to 0..5. */
  function SwipeTarget(section: int, distance: real): int
  {
    if Abs(distance) <= SwipeThreshold then section
    else if distance > 0.0 then (if section < LastSection then section + 1 else section)
    else (if section > 0 then section - 1 else section)
  }

  lemma InitialValid()
    ensures SwipeValid(InitialSwipe)
  {
  }

  lemma SwipePreservesValid(s: SwipeState, startY: real, endY: real)
    requires SwipeValid(s)
    ensures SwipeValid(Swipe(s, startY, endY))
  {
  }

  lemma ScrollPreservesValid(s: SwipeState, index: int)
    requires SwipeValid(s) && 0 <= index <= LastSection
    ensures SwipeValid(ScrollToSection(s, index))
  {
  }

  lemma TimerPreservesValid(s: SwipeState)
    requires SwipeValid(s)
    ensures SwipeValid(TimerFired(s))
  {
  }

  /** At most one exit flag is ever set. */
  lemma AtMostOneExiting(s: SwipeState)
    requires SwipeValid(s)
    ensures ExitingCount(s) <= 1
    ensures ExitingCount(s) == 1 <==> s.timer.ExitTimer?
    ensures s.timer.ExitTimer? ==> ExitFlag(s, s.currentSection)
  {
  }

  /**
   * The section only changes when a timer fires, apart from the plain
   * change out of section 5: while locked, swipes and clicks are ignored;
   * when unlocked, a swipe or a click changes the section at once only
   * from section 5.
   */
  lemma SectionMovesOnlyOnTimer(s: SwipeState, startY: real, endY: real)
    requires SwipeValid(s)
    ensures s.isTransitioning ==> Swipe(s, startY, endY) == s
    ensures s.isTransitioning ==> forall i :: 0 <= i <= LastSection ==> ScrollToSection(s, i) == s
    ensures Swipe(s, startY, endY).currentSection != s.currentSection ==> s.currentSection == LastSection
    ensures forall i :: 0 <= i <= LastSection && ScrollToSection(s, i).currentSection != s.currentSection
              ==> s.currentSection == LastSection
  {
  }

  /**
   * A swipe, once its timers have fired, leaves the navigator unlocked
   * with no exit flag set, one section further in the swipe's direction
   * (clamped to 0..5), whichever branch of the source handled it.
   */
  lemma SwipeSettlesAtTarget(s: SwipeState, startY: real, endY: real)
    requires SwipeValid(s) && !s.isTransitioning
    ensures var t := Settle(Swipe(s, startY, endY));
            && t.currentSection == SwipeTarget(s.currentSection, startY - endY)
            && !t.isTransitioning && t.timer == NoTimer && NoneExiting(t)
  {
  }

  /** An indicator click, once its timers have fired, leaves the navigator unlocked at the chosen section. */
  lemma ScrollSettlesAtIndex(s: SwipeState, index: int)
    requires SwipeValid(s) && !s.isTransitioning && 0 <= index <= LastSection
    ensures var t := Settle(ScrollToSection(s, index));
            && t.currentSection == index
            && !t.isTransitioning && t.timer == NoTimer && NoneExiting(t)
  {
  }

  /**
   * An upward swipe on the hero: lock and hero exit at once; after 1000 ms
   * section 1 with the hero flag cleared; the lock goes 100 ms later.
   */
  lemma HeroSwipeSequence(s: SwipeState, startY: real, endY: real)
    requires SwipeValid(s) && !s.isTransitioning && s.currentSection == 0
    requires startY - endY > SwipeThreshold
    ensures var s1 := Swipe(s, startY, endY);
            && s1.isTransitioning && s1.heroExiting && s1.currentSection == 0
            && s1.timer == ExitTimer(0, 1, TransitionTime, HeroSwipeBuffer)
    ensures var s2 := TimerFired(Swipe(s, startY, endY));
            && s2.currentSection == 1 && !s2.heroExiting && s2.isTransitioning
            && s2.timer == UnlockTimer(HeroSwipeBuffer)
    ensures !TimerFired(TimerFired(Swipe(s, startY, endY))).isTransitioning
  {
  }

  /** A downward swipe on the hero keeps section 0 but still takes the lock for 800 ms. */
  lemma HeroDownSwipeLocksOnly(s: SwipeState, startY: real, endY: real)
    requires SwipeValid(s) && !s.isTransitioning && s.currentSection == 0
    requires startY - endY < -SwipeThreshold
    ensures Swipe(s, startY, endY) == s.(isTransitioning := true, timer := UnlockTimer(PlainLockTime))
  {
  }

  /** From section 5 an upward swipe stays and a downward one moves to 4 at once. */
  lemma LastSectionSwipes(s: SwipeState, startY: real, endY: real)
    requires SwipeValid(s) && !s.isTransitioning && s.currentSection == LastSection
    requires Abs(startY - endY) > SwipeThreshold
    ensures Swipe(s, startY, endY).currentSection == if startY > endY then LastSection else LastSection - 1
    ensures Swipe(s, startY, endY).timer == UnlockTimer(PlainLockTime)
  {
  }

  /** Sections 1 to 4: only that section's flag is raised, and the move waits for the timer. */
  lemma MiddleSectionSwipe(s: SwipeState, startY: real, endY: real)
    requires SwipeValid(s) && !s.isTransitioning && 1 <= s.currentSection <= 4
    requires Abs(startY - endY) > SwipeThreshold
    ensures var s1 := Swipe(s, startY, endY);
            && s1.currentSection == s.currentSection
            && OnlyExiting(s1, s.currentSection)
            && s1.timer == ExitTimer(s.currentSection,
                                     if startY > endY then s.currentSection + 1 else s.currentSection - 1,
                                     TransitionTime, BufferTime)
    ensures var s2 := TimerFired(Swipe(s, startY, endY));
            && s2.currentSection == (if startY > endY then s.currentSection + 1 else s.currentSection - 1)
            && NoneExiting(s2) && s2.isTransitioning && s2.timer == UnlockTimer(BufferTime)
  {
  }

  // ---------------------------------------------------------------------
  // The imperative component
  // ---------------------------------------------------------------------

  class MobileSwipeScroll {
    var currentSection: int
    var isTransitioning: bool
    var heroExiting: bool
    var productExiting: bool
    var philosophyExiting: bool
    var visionExiting: bool
    var dotExiting: bool
    var timer: SwipeTimer
    var touchStartY: real
    var touchEndY: real

    function State(): SwipeState
      reads this
    {
      SwipeState(currentSection, isTransitioning, heroExiting, productExiting,
                 philosophyExiting, visionExiting, dotExiting, timer)
    }

    ghost predicate Valid()
      reads this
    {
      SwipeValid(State())
    }

    constructor ()
      ensures Valid() && State() == InitialSwipe
    {
      currentSection := 0;
      isTransitioning := false;
      heroExiting, productExiting, philosophyExiting, visionExiting, dotExiting :=
        false, false, false, false, false;
      timer := NoTimer;
      touchStartY, touchEndY := 0.0, 0.0;
    }

    method TouchStart(clientY: real)
      modifies this`touchStartY
      ensures touchStartY == clientY
    {
      touchStartY := clientY;
    }

    method TouchEnd(clientY: real)
      requires Valid()
      modifies this
      ensures Valid()
      ensures touchEndY == clientY && touchStartY == old(touchStartY)
      ensures State() == Swipe(old(State()), old(touchStartY), clientY)
    {
      touchEndY := clientY;
      HandleSwipe();
    }

    method HandleSwipe()
      requires Valid()
      modifies this`currentSection, this`isTransitioning, this`heroExiting, this`productExiting,
               this`philosophyExiting, this`visionExiting, this`dotExiting, this`timer
      ensures Valid()
      ensures State() == Swipe(old(State()), touchStartY, touchEndY)
    {
      SwipePreservesValid(State(), touchStartY, touchEndY);
      if isTransitioning {
        return;
      }
      var swipeDistance := touchStartY - touchEndY;
      if Abs(swipeDistance) > SwipeThreshold {
        if currentSection == 0 && swipeDistance > 0.0 {
          isTransitioning := true;
          heroExiting := true;
          timer := ExitTimer(0, 1, TransitionTime, HeroSwipeBuffer);
          return;
        }
        var forward := swipeDistance > 0.0;
        if currentSection == 1 {
          isTransitioning := true;
          productExiting := true;
          timer := ExitTimer(1, if forward then 2 else 0, TransitionTime, BufferTime);
          return;
        }
        if currentSection == 2 {
          isTransitioning := true;
          philosophyExiting := true;
          timer := ExitTimer(2, if forward then 3 else 1, TransitionTime, BufferTime);
          return;
        }
        if currentSection == 3 {
          isTransitioning := true;
          visionExiting := true;
          timer := ExitTimer(3, if forward then 4 else 2, TransitionTime, BufferTime);
          return;
        }
        if currentSection == 4 {
          isTransitioning := true;
          dotExiting := true;
          timer := ExitTimer(4, if forward then 5 else 3, TransitionTime, BufferTime);
          return;
        }
        isTransitioning := true;
        if swipeDistance > 0.0 && currentSection < LastSection {
          // Only section 0 is below 5 here, and an upward swipe on it returned above.
          assert false;
        } else if swipeDistance < 0.0 && currentSection > 0 {
          currentSection := currentSection - 1;
        }
        timer := UnlockTimer(PlainLockTime);
      }
    }

    method ScrollTo(index: int)
      requires Valid() && 0 <= index <= LastSection
      modifies this`currentSection, this`isTransitioning, this`heroExiting, this`productExiting,
               this`philosophyExiting, this`visionExiting, this`dotExiting, this`timer
      ensures Valid()
      ensures State() == ScrollToSection(old(State()), index)
    {
      ScrollPreservesValid(State(), index);
      if !isTransitioning && index != currentSection {
        if currentSection == 0 && index > 0 {
          isTransitioning := true;
          heroExiting := true;
          timer := ExitTimer(0, index, TransitionTime, BufferTime);
        } else if currentSection == 1 && index != 1 {
          isTransitioning := true;
          productExiting := true;
          timer := ExitTimer(1, index, TransitionTime, BufferTime);
        } else if currentSection == 2 && index != 2 {
          isTransitioning := true;
          philosophyExiting := true;
          timer := ExitTimer(2, index, TransitionTime, BufferTime);
        } else if currentSection == 3 && index != 3 {
          isTransitioning := true;
          visionExiting := true;
          timer := ExitTimer(3, index, TransitionTime, BufferTime);
        } else if currentSection == 4 && index != 4 {
          isTransitioning := true;
          dotExiting := true;
          timer := ExitTimer(4, index, TransitionTime, BufferTime);
        } else {
          isTransitioning := true;
          currentSection := index;
          timer := UnlockTimer(PlainLockTime);
        }
      }
    }

    /** The pending timer callback runs. */
    method OnTimer()
      requires Valid()
      modifies this`currentSection, this`isTransitioning, this`heroExiting, this`productExiting,
               this`philosophyExiting, this`visionExiting, this`dotExiting, this`timer
      ensures Valid()
      ensures State() == TimerFired(old(State()))
    {
      TimerPreservesValid(State());
      match timer
      case NoTimer =>
      case ExitTimer(flag, target, _, buffer) =>
        currentSection := target;
        if flag == 0 {
          heroExiting := false;
        } else if flag == 1 {
          productExiting := false;
        } else if flag == 2 {
          philosophyExiting := false;
        } else if flag == 3 {
          visionExiting := false;
        } else if flag == 4 {
          dotExiting := false;
        }
        timer := UnlockTimer(buffer);
      case UnlockTimer(_) =>
        isTransitioning := false;
        timer := NoTimer;
    }
  }

  // ---------------------------------------------------------------------
  // Per-frame throttle gate of the section scenes
  // ---------------------------------------------------------------------

  /**
   * One frame of a scene's gate: while not exiting it counts frames and
   * runs the body only when the count reaches updateThrottle, then
   * restarts; while exiting it runs every frame and leaves the count alone.
   */
  function GateStep(count: int, isExiting: bool, updateThrottle: int): (r: (bool, int))
    ensures isExiting ==> r == (true, count)
    ensures !isExiting ==> r == Performance.ThrottleStep(count, updateThrottle)
  {
    if isExiting then (true, count)
    else
      var next := count + 1;
      if next < updateThrottle then (false, next) else (true, 0)
  }

  /** Frames of a scene in a row, each with its exiting flag. */
  function GateRun(count: int, exiting: seq<bool>, updateThrottle: int): (nat, int)
    decreases |exiting|
  {
    if exiting == [] then (0, count)
    else
      var (ran, next) := GateStep(count, exiting[0], updateThrottle);
      var (runs, last) := GateRun(next, exiting[1..], updateThrottle);
      ((if ran then 1 else 0) + runs, last)
  }

  /** The number of exiting frames. */
  function CountExiting(exiting: seq<bool>): (n: nat)
    ensures n <= |exiting|
    decreases |exiting|
  {
    if exiting == [] then 0 else (if exiting[0] then 1 else 0) + CountExiting(exiting[1..])
  }

  /**
   * Exiting frames run the body without touching the count, and the other
   * frames behave exactly as calls of the frame throttle.
   */
  lemma {:induction false} GateRunSplits(count: int, exiting: seq<bool>, updateThrottle: int)
    ensures var calm := |exiting| - CountExiting(exiting);
            var (runs, last) := Performance.ThrottleRun(count, updateThrottle, calm);
            GateRun(count, exiting, updateThrottle) == (CountExiting(exiting) + runs, last)
    decreases |exiting|
  {
    if exiting != [] {
      var (ran, next) := GateStep(count, exiting[0], updateThrottle);
      GateRunSplits(next, exiting[1..], updateThrottle);
    }
  }

  /**
   * With updateThrottle N >= 1 and a count c below N, a run of frames runs
   * the body once per exiting frame plus (c + k) / N times for its k other
   * frames.
   */
  lemma GateRunCounts(count: int, exiting: seq<bool>, updateThrottle: int)
    requires updateThrottle >= 1 && 0 <= count < updateThrottle
    ensures var calm := |exiting| - CountExiting(exiting);
            GateRun(count, exiting, updateThrottle)
              == (CountExiting(exiting) + (count + calm) / updateThrottle,
                  (count + calm) % updateThrottle)
  {
    GateRunSplits(count, exiting, updateThrottle);
    Performance.ThrottleRunCounts(count, updateThrottle, |exiting| - CountExiting(exiting));
  }

  class FrameGate {
    var frameThrottle: int

    constructor ()
      ensures frameThrottle == 0
    {
      frameThrottle := 0;
    }

    /** The gate at the top of a scene's per-frame callback; `run` says whether the body runs. */
    method OnFrame(isExiting: bool, updateThrottle: int) returns (run: bool)
      modifies this
      ensures (run, frameThrottle) == GateStep(old(frameThrottle), isExiting, updateThrottle)
    {
      run := true;
      if !isExiting {
        frameThrottle := frameThrottle + 1;
        if frameThrottle < updateThrottle {
          run := false;
          return;
        }
        frameThrottle := 0;
      }
    }
  }
}
