/**
 * Page navigation of the application shell: a two-phase timed
 * transition guarded by a lock, a HOME-to-HOME "reset" that bumps a key
 * instead of changing the view, the mobile-width test and the choice of
 * what is drawn under the navigation bar. The two timeouts are explicit
 * events: the state records the one timer that can be pending.
 */
module AppNavigation {
  import opened Wrappers

  /** The pages of the site. */
  datatype ViewState = Home | Product | AboutUs | Contact | PrivacyPolicy

  /** Widths up to this many CSS pixels count as mobile. */
  const MobileMaxWidth: int := 768
  /** Delay from an accepted navigation to the view swap, in milliseconds. */
  const SwapDelay: nat := 1050
  /** Delay from the view swap to the reveal, in milliseconds. */
  const RevealDelay: nat := 150

  /**
   * The pending timer with its delay in milliseconds. `SwapTimer` is set
   * by an accepted navigation and holds the requested view and the view
   * captured when the navigation was accepted; `RevealTimer` is set when
   * the swap runs.
   */
  datatype NavTimer =
    | NoNavTimer
    | SwapTimer(newView: ViewState, capturedView: ViewState, delay: nat)
    | RevealTimer(delay: nat)

  datatype AppState = AppState(
    view: ViewState,
    targetView: ViewState,
    isTransitioning: bool,
    isCanvasVisible: bool,
    resetKey: nat,
    timer: NavTimer)

  const InitialApp: AppState := AppState(Home, Home, false, true, 0, NoNavTimer)

  /**
   * The navigation invariant: the lock is held exactly while a timer is
   * pending; the canvas is hidden exactly between the two phases; a
   * pending swap targets `targetView` and captured the current view; once
   * swapped, the view is the target.
   */
  predicate AppValid(s: AppState)
  {
    && (s.timer.NoNavTimer? <==> !s.isTransitioning)
    && (s.isCanvasVisible <==> !s.timer.RevealTimer?)
    && (s.timer.SwapTimer? ==>
          s.timer.capturedView == s.view && s.timer.newView == s.targetView && s.timer.delay == SwapDelay)
    && (s.timer.RevealTimer? ==> s.view == s.targetView && s.timer.delay == RevealDelay)
  }

  /** Whether handleNavigate acts on a request for newView. */
  predicate Accepts(s: AppState, newView: ViewState)
  {
    !s.isTransitioning && (newView != s.view || newView == Home)
  }

  /** handleNavigate(newView): record the target and lock; the view waits for the timer. */
  function Navigate(s: AppState, newView: ViewState): (s': AppState)
    ensures !Accepts(s, newView) ==> s' == s
    ensures Accepts(s, newView) ==>
              && s'.targetView == newView && s'.isTransitioning
              && s'.view == s.view && s'.resetKey == s.resetKey
              && s'.isCanvasVisible == s.isCanvasVisible
              && s'.timer.SwapTimer? && s'.timer.delay == SwapDelay
  {
    if s.isTransitioning then s
    else if newView == s.view && newView != Home then s
    else s.(targetView := newView, isTransitioning := true, timer := SwapTimer(newView, s.view, SwapDelay))
  }

  /**
   * The pending timer expires. The swap hides the canvas, then bumps the
   * key when the requested view was the one captured at acceptance and
   * otherwise switches to it, and sets the reveal timer; the reveal shows
   * the canvas and releases the lock. Nothing else changes.
   */
  function NavTimerFired(s: AppState): (s': AppState)
    ensures s.timer.NoNavTimer? ==> s' == s
    ensures s.timer.SwapTimer? ==>
              && !s'.isCanvasVisible && s'.isTransitioning == s.isTransitioning
              && s'.timer == RevealTimer(RevealDelay) && s'.targetView == s.targetView
              && (s.timer.newView == s.timer.capturedView ==>
                    s'.view == s.view && s'.resetKey == s.resetKey + 1)
              && (s.timer.newView != s.timer.capturedView ==>
                    s'.view == s.timer.newView && s'.resetKey == s.resetKey)
    ensures s.timer.RevealTimer? ==>
              && s'.isCanvasVisible && !s'.isTransitioning && s'.timer == NoNavTimer
              && s'.view == s.view && s'.targetView == s.targetView && s'.resetKey == s.resetKey
  {
    match s.timer
    case NoNavTimer => s
    case SwapTimer(newView, capturedView, _) =>
      var s1 := s.(isCanvasVisible := false, timer := RevealTimer(RevealDelay));
      if newView == capturedView then s1.(resetKey := s.resetKey + 1) else s1.(view := newView)
    case RevealTimer(_) => s.(isCanvasVisible := true, isTransitioning := false, timer := NoNavTimer)
  }

  /** Let both phases of a transition run. */
  function SettleNav(s: AppState): AppState
  {
    NavTimerFired(NavTimerFired(s))
  }

  lemma InitialAppValid()
    ensures AppValid(InitialApp)
  {
  }

  lemma NavigatePreservesValid(s: AppState, newView: ViewState)
    requires AppValid(s)
    ensures AppValid(Navigate(s, newView))
  {
  }

  lemma NavTimerPreservesValid(s: AppState)
    requires AppValid(s)
    ensures AppValid(NavTimerFired(s))
  {
  }

  /** Navigating to the current view does nothing unless that view is HOME. */
  lemma SameViewIgnored(s: AppState, newView: ViewState)
    requires newView == s.view && newView != Home
    ensures Navigate(s, newView) == s
  {
  }

  /**
   * The first phase hides the canvas and either bumps the reset key (a
   * HOME reset) or switches the view; the second shows the canvas and
   * releases the lock.
   */
  lemma PhasesInOrder(s: AppState, newView: ViewState)
    requires AppValid(s) && Accepts(s, newView)
    ensures Navigate(s, newView).timer == SwapTimer(newView, s.view, SwapDelay)
    ensures var s1 := NavTimerFired(Navigate(s, newView));
            && !s1.isCanvasVisible && s1.isTransitioning && s1.timer == RevealTimer(RevealDelay)
            && (newView == s.view ==> s1.view == s.view && s1.resetKey == s.resetKey + 1)
            && (newView != s.view ==> s1.view == newView && s1.resetKey == s.resetKey)
    ensures var s2 := SettleNav(Navigate(s, newView));
            && s2.isCanvasVisible && !s2.isTransitioning && s2.timer == NoNavTimer
  {
  }

  /**
   * A completed navigation ends unlocked with the canvas shown, on the
   * requested view, with the reset key bumped exactly for a HOME reset.
   */
  lemma NavigationCompletes(s: AppState, newView: ViewState)
    requires AppValid(s) && Accepts(s, newView)
    ensures var t := SettleNav(Navigate(s, newView));
            && t.view == newView && t.targetView == newView
            && !t.isTransitioning && t.isCanvasVisible
            && t.resetKey == s.resetKey + (if newView == s.view then 1 else 0)
  {
  }

  /**
   * The key the scene is mounted under: every completed navigation
   * changes it, so the scene (and on mobile the swipe navigator) is
   * mounted afresh.
   */
  function SceneKey(s: AppState): (ViewState, nat)
  {
    (s.view, s.resetKey)
  }

  lemma NavigationRemountsScene(s: AppState, newView: ViewState)
    requires AppValid(s) && Accepts(s, newView)
    ensures SceneKey(SettleNav(Navigate(s, newView))) != SceneKey(s)
  {
  }

  /** useIsMobile: no window counts as desktop; otherwise a width of at most 768. */
  function IsMobileViewport(innerWidth: Option<int>): (r: bool)
    ensures r ==> innerWidth.Some?
    ensures innerWidth.Some? && innerWidth.value < MobileMaxWidth + 1 ==> r
    ensures innerWidth.Some? && innerWidth.value > MobileMaxWidth ==> !r
  {
    innerWidth.Some? && innerWidth.value <= MobileMaxWidth
  }

  /** A narrower window than a mobile one is mobile too; a wider one than a desktop one is desktop. */
  lemma MobileViewportMonotone(narrow: int, wide: int)
    requires narrow <= wide
    ensures IsMobileViewport(Some(wide)) ==> IsMobileViewport(Some(narrow))
    ensures !IsMobileViewport(Some(narrow)) ==> !IsMobileViewport(Some(wide))
  {
  }

  datatype SceneMode = HomeMode | Ambient

  /** What is drawn under the navigation bar. */
  datatype MainLayer = SwipeScrollLayer | CanvasLayer(mode: SceneMode)

  /** The view selection of the shell's render. */
  function SelectLayer(view: ViewState, isMobile: bool): (layer: MainLayer)
    ensures layer == SwipeScrollLayer <==> view == Home && isMobile
    ensures layer.CanvasLayer? ==> (layer.mode == HomeMode <==> view == Home)
  {
    if view == Home && isMobile then SwipeScrollLayer
    else CanvasLayer(if view == Home then HomeMode else Ambient)
  }

  /** The content pages are drawn exactly off HOME. */
  predicate ShowsContentPages(view: ViewState)
  {
    view != Home
  }

  /** The swipe layer and the content pages are never drawn together. */
  lemma SwipeLayerOnlyOnHome(view: ViewState, innerWidth: Option<int>)
    ensures SelectLayer(view, IsMobileViewport(innerWidth)) == SwipeScrollLayer ==>
              !ShowsContentPages(view) && innerWidth.Some? && innerWidth.value <= MobileMaxWidth
  {
  }

  // ---------------------------------------------------------------------
  // The imperative shell
  // ---------------------------------------------------------------------

  class App {
    var view: ViewState
    var targetView: ViewState
    var isTransitioning: bool
    var isCanvasVisible: bool
    var resetKey: nat
    var timer: NavTimer
    var isMobile: bool

    function State(): AppState
      reads this
    {
      AppState(view, targetView, isTransitioning, isCanvasVisible, resetKey, timer)
    }

    ghost predicate Valid()
      reads this
    {
      AppValid(State())
    }

    constructor (innerWidth: Option<int>)
      ensures Valid() && State() == InitialApp
      ensures isMobile == IsMobileViewport(innerWidth)
    {
      view, targetView := Home, Home;
      isTransitioning := false;
      isCanvasVisible := true;
      resetKey := 0;
      timer := NoNavTimer;
      isMobile := innerWidth.Some? && innerWidth.value <= MobileMaxWidth;
    }

    /** The resize listener. */
    method Resize(innerWidth: int)
      modifies this`isMobile
      ensures isMobile == IsMobileViewport(Some(innerWidth))
    {
      isMobile := innerWidth <= MobileMaxWidth;
    }

    method HandleNavigate(newView: ViewState)
      requires Valid()
      modifies this`targetView, this`isTransitioning, this`timer
      ensures Valid()
      ensures State() == Navigate(old(State()), newView)
    {
      if isTransitioning {
        return;
      }
      if newView == view && newView != Home {
        return;
      }
      targetView := newView;
      isTransitioning := true;
      timer := SwapTimer(newView, view, SwapDelay);
    }

    /** The pending timeout callback runs. */
    method OnTimer()
      requires Valid()
      modifies this`view, this`isTransitioning, this`isCanvasVisible, this`resetKey, this`timer
      ensures Valid()
      ensures State() == NavTimerFired(old(State()))
    {
      match timer
      case NoNavTimer =>
      case SwapTimer(newView, capturedView, _) =>
        isCanvasVisible := false;
        if newView == capturedView {
          resetKey := resetKey + 1;
        } else {
          view := newView;
        }
        timer := RevealTimer(RevealDelay);
      case RevealTimer(_) =>
        isCanvasVisible := true;
        isTransitioning := false;
        timer := NoNavTimer;
    }

    /** What the render draws in the current state. */
    function Layer(): MainLayer
      reads this
    {
      SelectLayer(view, isMobile)
    }
  }
}
