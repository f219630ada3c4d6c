# Adaptive quality, swipe navigation and page transitions of the corporate website

This project models in Dafny the three small state machines of the site's
front end. Everything else in the site is rendering and animation.

- **Adaptive quality controller** (`utils/performance.ts`), module
  `Performance`, file `performance.dfy`. It has:
  - three quality tiers with a fixed preset record each;
  - a `PerformanceMonitor` class: a rolling window of at most 60
    frames-per-second samples, a frame counter, and a mean that is 60 for
    an empty window;
  - an `AdaptiveQuality` class: on every 120th frame tick it applies the
    four-row, first-match hysteresis table, then resets the monitor and
    the counter;
  - the `useFrameThrottle` wrapper (class `FrameThrottle`);
  - `detectDeviceCapability`, a pure classifier of explicit signals.
- **Mobile section navigator** (`components/MobileSwipeScroll.tsx`),
  module `SwipeScroll`, file `swipe_scroll.dfy`. It has:
  - six sections, a 50 px swipe threshold, a transition lock, and one
    exit flag for each of sections 0 to 4;
  - `handleSwipe`, `scrollToSection` and their timed completions, as the
    class `MobileSwipeScroll` and as pure transition functions on
    `SwipeState`;
  - the per-frame throttle gate of the section scenes (class `FrameGate`).
- **Page navigation** (`App.tsx`), module `AppNavigation`, file `app.dfy`.
  It has:
  - `handleNavigate`, with its lock, its same-view guard, the HOME reset
    that bumps `resetKey`, and its two timed phases (1050 ms, then
    150 ms), as the class `App` and as pure functions on `AppState`;
  - the 768 px mobile test;
  - the choice between the swipe UI and the canvas scene, and of the
    scene's mode.
- `wrappers.dfy` (module `Wrappers`) holds the `Option` type.

Each class keeps the source's fields and updates them step by step in its
methods. A pure function of the old state specifies each method, and the
method's `ensures` ties its new `State()` to that function. The
properties are lemmas about those functions.

Time is an input throughout:
- Every read of `performance.now()` is a parameter. `CheckPerformance`
  takes two of them: one for `update()` and one for the `reset()` that
  follows a decision.
- A `setTimeout` callback is the event `TimerFired` / `NavTimerFired`
  (`OnTimer` in the classes). The lock rules out a second timer, so the
  state records the single pending timer with its delay in milliseconds:
  - an exit timer of 1000 ms, which carries the 100 ms or 200 ms unlock
    delay that follows it;
  - an unlock timer of 100, 200 or 800 ms;
  - a swap timer of 1050 ms and a reveal timer of 150 ms.
- FPS values are `real`s.

## Model

| member | source | states |
|---|---|---|
| `Performance.Preset` | utils/performance.ts:15-43 | each tier has one preset whose level is that tier; throttle at least 1; detail and particle factors in (0, 1]; shadows off exactly on low |
| `Performance.PresetsMonotone` | utils/performance.ts:15-43 | a higher tier never has fewer samples, lower resolution, detail or particles, or a larger throttle |
| `Performance.FrameSample` | utils/performance.ts:53-57 | a sample exists exactly for a positive delta; it is positive and equals 1000 / delta |
| `Performance.PushSample` | utils/performance.ts:58-62 | the window grows by one below 60 and keeps its length at 60, so it stays within 60; it is the newest suffix of old window + sample, and its last element is the new sample |
| `Performance.PushSampleEvictsOldest` | utils/performance.ts:58-62 | on a full window the oldest sample is the one removed |
| `Performance.MonitorUpdate` | utils/performance.ts:51-67 | keeps the window bounded and positive; records the clock; always counts the frame; a non-positive delta leaves the window unchanged, a positive one pushes 1000 / delta |
| `Performance.PerformanceMonitor.constructor` | utils/performance.ts:45-48 | a new monitor has an empty window, a zero count and the clock reading it was created at |
| `Performance.MonitorReset` | utils/performance.ts:75-79 | after a reset the window is empty, the count is zero and the average is the default 60 |
| `Performance.PerformanceMonitor.Update` | utils/performance.ts:51-67 | the new monitor state is `MonitorUpdate` of the old one, and the returned value is the current average |
| `Performance.PerformanceMonitor.Reset` | utils/performance.ts:75-79 | empties the window, zeroes the count, takes the new clock reading; the average is then 60 |
| `Performance.Mean` | utils/performance.ts:69-73 | 60 for an empty window; otherwise the value that, times the window length, gives the sum of the samples |
| `Performance.PerformanceMonitor.AverageFps` | utils/performance.ts:69-73 | the monitor's average: 60 while its window is empty, otherwise sum / length of its window |
| `Performance.MeanWithin` | utils/performance.ts:69-73 | the mean of a non-empty window whose samples lie strictly between two bounds lies between them |
| `Performance.SumWithin` | utils/performance.ts:71 | the left-to-right sum of n samples within (lo, hi) lies within (n·lo, n·hi) |
| `Performance.MeanOfConstant` | utils/performance.ts:69-73 | a window of identical samples averages to that sample |
| `Performance.NextQuality` | utils/performance.ts:99-115 | the tier is kept exactly inside its hold band; it goes up by at most one step and only above 50 fps; it goes down only below 45 fps; the result is low exactly below 30 fps, or when it was low and stays at most 50 |
| `Performance.NextQualityByTier` | utils/performance.ts:99-115 | the first-match table equals the per-tier table (high: <30 low, <45 medium; medium: <30 low, >58 high; low: >50 medium) |
| `Performance.HysteresisBand` | utils/performance.ts:99-115 | between 45 and 50 fps every tier is kept |
| `Performance.NoFlapping` | utils/performance.ts:99-115 | an upgrade undone by the next decision needs the average to drop by more than 13 fps (above 58 then below 45, or above 50 then below 30) |
| `Performance.HoldsThroughBand` | utils/performance.ts:99-115 | any number of decisions on averages inside a tier's band keep that tier |
| `Performance.ClimbsOneStepPerWindow` | utils/performance.ts:107-114 | over k decisions the tier rises by at most k steps |
| `Performance.ControllerTick` | utils/performance.ts:92-119 | one tick keeps the controller invariant, counts to 120 and then wraps to 0, and can change the tier or the settings only on the 120th tick |
| `Performance.TickPreservesValid` | utils/performance.ts:92-119 | a tick keeps settings equal to the preset of the tier, the counter below 120 and the monitor valid |
| `Performance.TickBeforeInterval` | utils/performance.ts:93-96 | a tick below the interval only updates the monitor and increments the counter |
| `Performance.TickAtInterval` | utils/performance.ts:96-118 | the 120th tick decides on the monitor's average including its own sample, sets the preset of the new tier, and resets the monitor and the counter whether or not the tier changed |
| `Performance.RunPreservesValid` | utils/performance.ts:92-119 | any run of ticks keeps the controller invariant |
| `Performance.Cadence` | utils/performance.ts:94-117 | after k ticks the counter is (c + k) mod 120 |
| `Performance.NoDecisionBeforeInterval` | utils/performance.ts:94-96 | before the counter reaches 120 neither the tier nor the settings change, and the monitor counts every tick |
| `Performance.WindowDecision` | utils/performance.ts:93-118 | if every frame up to the 120th tick measures within (lo, hi), the decision is taken on an average within (lo, hi) and then resets the monitor |
| `Performance.SustainedSlowFramesDropToLow` | utils/performance.ts:99-101 | after a reset, 120 frames all under 30 fps end in low from any tier, straight from high |
| `Performance.MediumHoldsInBand` | utils/performance.ts:103-111 | after a reset in medium, 120 frames all between 30 and 58 fps keep medium |
| `Performance.AdaptiveQuality.CheckPerformance` | utils/performance.ts:92-119 | one tick: the new controller state is `ControllerTick` of the old one, and the invariant is kept |
| `Performance.AdaptiveQuality.constructor` | utils/performance.ts:82-86 | starts at the initial tier (high when none is given) with its preset, a fresh monitor and a zero counter |
| `Performance.ThrottleRunCounts` | utils/performance.ts:134-143 | with throttle N >= 1 and counter c < N, m calls run the callback (c + m) / N times and leave the counter at (c + m) mod N; from 0 that is floor(m / N) |
| `Performance.ThrottleAtMostOneRunsAlways` | utils/performance.ts:139 | with throttle at most 1 the callback runs on every call |
| `Performance.ThrottleStep` | utils/performance.ts:137-143 | from a counter in [0, N) one call leaves it in [0, N) and runs the callback exactly when it wraps to 0; with N <= 1 every call runs it |
| `Performance.FrameThrottle.constructor` | utils/performance.ts:134-135 | a new wrapper has the given throttle (1 when none is given) and a zero counter |
| `Performance.FrameThrottle.Call` | utils/performance.ts:137-143 | one call increments the counter, runs the callback when it reaches the throttle and then zeroes it |
| `Performance.Lower` | utils/performance.ts:164 | lower-casing keeps the length and lower-cases each character |
| `Performance.ContainsAt` | utils/performance.ts:160-166 | the substring test holds exactly when the needle occurs at some position |
| `Performance.IsMobileAgent` | utils/performance.ts:147 | true exactly when one of the eight tokens occurs at some position of the lower-cased user agent; such an agent has at least 4 characters |
| `Performance.MobileAgentIgnoresCase` | utils/performance.ts:147 | lower-casing the user agent first does not change the mobile test, as the `/i` flag promises |
| `Performance.IntelRenderer` | utils/performance.ts:160-166 | true exactly when a renderer string is reported and "intel" occurs at some position of it once lower-cased |
| `Performance.LowMemory` | utils/performance.ts:169-171 | true only for a reported value below 4; false for 0, which is falsy; true for every value strictly between 0 and 4 |
| `Performance.DetectDeviceCapability` | utils/performance.ts:146-175 | low exactly for a mobile agent or no WebGL; otherwise medium exactly for an Intel renderer or reported memory below 4 (0 counts as absent); otherwise high |
| `Performance.IntelDetectedInAnyCase` | utils/performance.ts:160-166 | a renderer string that contains "intel" in any letter case is detected |
| `SwipeScroll.Swipe` | components/MobileSwipeScroll.tsx:920-1005 | while locked, or for a swipe of 50 px or less, nothing changes; any other swipe takes the lock; only the branch without an exit animation (section 5) moves the section at once |
| `SwipeScroll.ScrollToSection` | components/MobileSwipeScroll.tsx:1007-1058 | a no-op while locked or for the current section; otherwise it takes the lock; from sections 0 to 4 it starts an exit timer towards the clicked section, and only from section 5 does the section change at once |
| `SwipeScroll.TimerFired` | components/MobileSwipeScroll.tsx:936-1055 | an exit timer moves to its target, clears every exit flag (from a valid state) and starts its unlock timer while keeping the lock; an unlock timer releases the lock and changes nothing else |
| `SwipeScroll.SwipePreservesValid` | components/MobileSwipeScroll.tsx:920-1005 | a swipe keeps the section in 0..5, the lock held exactly while a timer is pending, and only the left section's exit flag set during an exit |
| `SwipeScroll.ScrollPreservesValid` | components/MobileSwipeScroll.tsx:1007-1058 | an indicator click keeps the same invariant |
| `SwipeScroll.TimerPreservesValid` | components/MobileSwipeScroll.tsx:936-1055 | a firing timer keeps the same invariant |
| `SwipeScroll.AtMostOneExiting` | components/MobileSwipeScroll.tsx:901-905 | at most one exit flag is set, exactly during an exit animation, and it is the current section's |
| `SwipeScroll.SectionMovesOnlyOnTimer` | components/MobileSwipeScroll.tsx:920-1058 | while locked neither a swipe nor a click changes anything; when unlocked, a swipe or a click changes the section at once only from section 5 |
| `SwipeScroll.SwipeSettlesAtTarget` | components/MobileSwipeScroll.tsx:930-1003 | once its timers have fired, a swipe ends unlocked with no flag set, one section further in its direction, clamped to 0..5 |
| `SwipeScroll.ScrollSettlesAtIndex` | components/MobileSwipeScroll.tsx:1011-1056 | once its timers have fired, a click ends unlocked at the clicked section |
| `SwipeScroll.HeroSwipeSequence` | components/MobileSwipeScroll.tsx:933-941 | an upward swipe on section 0 locks, sets the hero flag and starts a 1000 ms exit timer; when it fires it is section 1 with the flag cleared; the lock goes 100 ms later |
| `SwipeScroll.HeroDownSwipeLocksOnly` | components/MobileSwipeScroll.tsx:996-1003 | a downward swipe on section 0 stays at 0 but locks for 800 ms |
| `SwipeScroll.LastSectionSwipes` | components/MobileSwipeScroll.tsx:996-1003 | on section 5 an upward swipe stays and a downward one moves to 4 at once, locking for 800 ms |
| `SwipeScroll.MiddleSectionSwipe` | components/MobileSwipeScroll.tsx:945-994 | on sections 1 to 4 only that section's flag is set, and the move to s+1 or s-1 waits for the 1000 ms exit timer; when it fires the flag is cleared and the lock stays for a 200 ms unlock timer |
| `SwipeScroll.MobileSwipeScroll.HandleSwipe` | components/MobileSwipeScroll.tsx:920-1005 | the branch-by-branch component update equals `Swipe` and keeps the invariant |
| `SwipeScroll.MobileSwipeScroll.ScrollTo` | components/MobileSwipeScroll.tsx:1007-1058 | the component update equals `ScrollToSection` and keeps the invariant |
| `SwipeScroll.MobileSwipeScroll.OnTimer` | components/MobileSwipeScroll.tsx:936-1055 | the timeout callbacks equal `TimerFired` and keep the invariant |
| `SwipeScroll.MobileSwipeScroll.constructor` | components/MobileSwipeScroll.tsx:899-909 | a new navigator is on section 0, unlocked, with no exit flag and no timer |
| `SwipeScroll.MobileSwipeScroll.TouchStart` | components/MobileSwipeScroll.tsx:911-913 | records where the touch started |
| `SwipeScroll.MobileSwipeScroll.TouchEnd` | components/MobileSwipeScroll.tsx:908-918 | records the end of the touch and handles the swipe from the recorded start |
| `SwipeScroll.GateStep` | components/MobileSwipeScroll.tsx:52-57 | while exiting the body runs and the count is untouched; otherwise the gate is exactly one call of the frame throttle |
| `SwipeScroll.GateRunSplits` | components/MobileSwipeScroll.tsx:52-57 | over a run of frames the body runs once per exiting frame plus the throttle's runs over the other frames |
| `SwipeScroll.GateRunCounts` | components/MobileSwipeScroll.tsx:188-193 | with throttle N >= 1 and count c < N, the body runs e + (c + k) / N times over e exiting and k other frames |
| `SwipeScroll.FrameGate.OnFrame` | components/MobileSwipeScroll.tsx:282-287 | the per-frame gate of a scene equals `GateStep` |
| `AppNavigation.Navigate` | App.tsx:50-56 | a no-op while locked or for the current non-HOME view; otherwise it sets the target and the lock, starts the 1050 ms swap timer, and leaves the view, the key and the canvas alone |
| `AppNavigation.NavTimerFired` | App.tsx:62-83 | the swap hides the canvas, bumps the key when the requested view is the captured one and otherwise switches to it, and starts the 150 ms reveal timer; the reveal shows the canvas and unlocks; nothing else changes |
| `AppNavigation.NavigatePreservesValid` | App.tsx:50-62 | keeps the lock held exactly while a phase is pending, and the captured view equal to the current one |
| `AppNavigation.NavTimerPreservesValid` | App.tsx:62-83 | keeps the same invariant, and the canvas hidden exactly between the two phases |
| `AppNavigation.SameViewIgnored` | App.tsx:53 | navigating to the current view does nothing unless it is HOME |
| `AppNavigation.PhasesInOrder` | App.tsx:62-81 | an accepted navigation starts a 1050 ms swap timer; that phase hides the canvas and bumps the key on a HOME reset, or else switches the view, and starts a 150 ms reveal timer; that phase shows the canvas and unlocks |
| `AppNavigation.NavigationCompletes` | App.tsx:50-84 | a completed navigation ends on the requested view, unlocked, with the canvas shown, and the key bumped exactly for a HOME reset |
| `AppNavigation.NavigationRemountsScene` | App.tsx:106-124 | every completed navigation changes the (view, resetKey) key that the scene and the swipe UI are mounted under |
| `AppNavigation.IsMobileViewport` | App.tsx:17-26 | no window is never mobile; a width up to 768 is mobile and a wider one is not |
| `AppNavigation.MobileViewportMonotone` | App.tsx:19-26 | a window narrower than a mobile one is mobile, and one wider than a desktop one is desktop |
| `AppNavigation.SelectLayer` | App.tsx:101-128 | the swipe UI is drawn exactly on HOME on a mobile viewport; otherwise the canvas, in HOME mode exactly on HOME |
| `AppNavigation.SwipeLayerOnlyOnHome` | App.tsx:15-33 | the swipe UI implies HOME, no content page, and a present width of at most 768 |
| `AppNavigation.App.constructor` | App.tsx:15-42 | starts on HOME, unlocked, canvas shown, key 0; mobile exactly when a window is present and at most 768 wide |
| `AppNavigation.App.Resize` | App.tsx:24-31 | after a resize the viewport is mobile exactly as the mount-time test would judge the new width |
| `AppNavigation.App.HandleNavigate` | App.tsx:50-56 | the component update equals `Navigate` and keeps the invariant |
| `AppNavigation.App.OnTimer` | App.tsx:62-83 | the two timeout callbacks equal `NavTimerFired` and keep the invariant |

## Left out

- The clock (`performance.now`), `requestAnimationFrame` / `cancelAnimationFrame` and `setTimeout` are parameters or explicit events. The tick is not re-registered when the effect re-runs on a tier change; the monitor and the counter persist across that re-run, as refs do.
- The `console.log` line on a tier change is left out because it is output only.
- React state-setter batching is left out: setters are direct assignments, and the `quality` that `checkPerformance` closes over is the current tier.
- The WebGL and navigator probes are the fields of `DeviceSignals`. A `null` renderer string, which would throw in `toLowerCase`, is not modelled.
- `Performance.Lower`: only ASCII letters are lower-cased. JavaScript's `toLowerCase` and the `/i` flag also fold non-ASCII letters.
- `Performance.LowMemory`: a `NaN` memory value (falsy in JavaScript) has no counterpart among Dafny reals.
- Floating point is modelled as exact `real` arithmetic. Rounding in the sum and in `1000 / delta` is not captured.
- Touch coordinates are `real`s. The source's `touches[0]` event plumbing is left out.
- `ViewState` lists the values the components use: HOME, PRODUCT, ABOUT_US, CONTACT, PRIVACY_POLICY. `types.ts` is not part of this model.
- The 2000 ms loader timer (`isLoaded`) in App.tsx is left out because it only gates the loader overlay.
- The curtain label, the custom cursor and the privacy modal of the swipe UI are left out, as are all three.js scenes, shaders, easing and the JSX markup. They are rendering, not state.
- The contact form's network request and mailto fallback are left out because they are I/O.
- `onNavigate` calls made from inside the swipe sections are left out. They reach `AppNavigation.Navigate` like any other navigation.
- `SwipeScroll.MobileSwipeScroll.HandleSwipe`: the fallback's "move up" branch (MobileSwipeScroll.tsx:997-998) cannot be reached. Only section 5, or a downward swipe on section 0, gets there. The method proves the branch dead with `assert false` instead of performing its increment.
- Unmounting a component while one of its timers is pending is left out. A pending timer always fires into the same state machine.
