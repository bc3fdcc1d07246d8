/** The navigation bar of src/components/Navbar.jsx: a scroll effect that
    shows, hides and detaches the bar as the page scrolls, the animation
    targets that follow its flags, and the mobile drawer's open flag. */
module Navbar {

  // ---------------------------------------------------------------------
  // Scroll visibility: the specification
  // ---------------------------------------------------------------------

  /** How a scroll position relates to the last one the effect saw. */
  datatype ScrollMove = AtTop | Down | Up | Still

  /** The effect's case split. Exactly one case applies to every pair of
      positions: the top wins over any direction, and a repeated position
      away from the top matches none of the effect's branches. */
  function Classify(last: nat, current: nat): (m: ScrollMove)
    ensures m == AtTop <==> current == 0
    ensures m == Down <==> current != 0 && current > last
    ensures m == Up <==> current != 0 && current < last
    ensures m == Still <==> current != 0 && current == last
  {
    if current == 0 then AtTop
    else if current > last then Down
    else if current < last then Up
    else Still
  }

  /** What the scroll effect keeps between events: the last position it
      recorded, the visibility flag and whether the bar's container carries
      the `floating-nav` class. */
  datatype ScrollState = ScrollState(lastScrollY: nat, isNavVisible: bool, floatingNav: bool)

  /** At mount: position 0, bar shown, flush (no `floating-nav`). */
  const InitialScroll: ScrollState := ScrollState(0, true, false)

  /** One run of the effect on the current position. */
  function AfterScroll(s: ScrollState, current: nat): (r: ScrollState)
    ensures r.lastScrollY == current
    ensures Classify(s.lastScrollY, current) == AtTop ==> r.isNavVisible && !r.floatingNav
    ensures Classify(s.lastScrollY, current) == Down ==> !r.isNavVisible && r.floatingNav
    ensures Classify(s.lastScrollY, current) == Up ==> r.isNavVisible && r.floatingNav
    ensures Classify(s.lastScrollY, current) == Still ==>
      r.isNavVisible == s.isNavVisible && r.floatingNav == s.floatingNav
  {
    match Classify(s.lastScrollY, current)
    case AtTop => ScrollState(current, true, false)
    case Down => ScrollState(current, false, true)
    case Up => ScrollState(current, true, true)
    case Still => s.(lastScrollY := current)
  }

  /** What holds of every state the effect can reach from mount: the bar
      floats exactly when the page is not at the top, and at the top it is
      shown. */
  predicate Consistent(s: ScrollState)
  {
    (s.floatingNav <==> s.lastScrollY != 0) && (s.lastScrollY == 0 ==> s.isNavVisible)
  }

  /** The states after each of a sequence of scroll events, in order. */
  function Trace(s: ScrollState, positions: seq<nat>): (t: seq<ScrollState>)
    ensures |t| == |positions|
    ensures forall i :: 0 <= i < |t| ==> t[i].lastScrollY == positions[i]
    ensures |t| > 0 ==> t[0] == AfterScroll(s, positions[0])
    ensures forall i :: 0 < i < |t| ==> t[i] == AfterScroll(t[i - 1], positions[i])
    decreases |positions|
  {
    if positions == [] then []
    else
      var next := AfterScroll(s, positions[0]);
      [next] + Trace(next, positions[1..])
  }

  /** The mount state is consistent, and so is every state after it. */
  lemma {:induction false} TraceConsistent(s: ScrollState, positions: seq<nat>)
    requires Consistent(s)
    ensures forall i :: 0 <= i < |positions| ==> Consistent(Trace(s, positions)[i])
    decreases |positions|
  {
    if positions != [] {
      var next := AfterScroll(s, positions[0]);
      TraceConsistent(next, positions[1..]);
      assert Trace(s, positions) == [next] + Trace(next, positions[1..]);
    }
  }

  /** React runs the effect again once it has recorded the new position; that
      second run, on the same position, changes nothing. */
  lemma EffectRerunIsFixpoint(s: ScrollState, current: nat)
    ensures AfterScroll(AfterScroll(s, current), current) == AfterScroll(s, current)
  {
  }

  /** In any reachable state, seeing the recorded position again is a no-op,
      the top included. */
  lemma SamePositionChangesNothing(s: ScrollState)
    requires Consistent(s)
    ensures AfterScroll(s, s.lastScrollY) == s
  {
  }

  /** Reaching the top shows the bar flush, whatever came before. */
  lemma TopAlwaysFlush(s: ScrollState, positions: seq<nat>)
    requires positions != [] && positions[|positions| - 1] == 0
    ensures Trace(s, positions)[|positions| - 1] == InitialScroll
  {
    var t, n := Trace(s, positions), |positions|;
    if n == 1 {
      assert t[0] == AfterScroll(s, 0);
    } else {
      assert t[n - 1] == AfterScroll(t[n - 2], 0);
    }
  }

  /** Scrolling 0, 50, 120, 80 from mount: shown and flush, hidden, hidden,
      then shown again but floating. */
  lemma ExampleTrace()
    ensures Trace(InitialScroll, [0, 50, 120, 80]) ==
      [ScrollState(0, true, false), ScrollState(50, false, true),
       ScrollState(120, false, true), ScrollState(80, true, true)]
  {
  }

  // ---------------------------------------------------------------------
  // Animation targets (the end values handed to the tweening library)
  // ---------------------------------------------------------------------

  /** A horizontal offset: in pixels (a bare number) or a percentage string. */
  datatype Offset = Px(px: int) | Percent(pct: int)

  /** The overlay's `pointerEvents` value: `"auto"` or `"none"`. */
  datatype PointerEvents = Auto | NoEvents

  datatype NavTween = NavTween(y: int, opacity: int)
  datatype MenuTween = MenuTween(x: Offset, opacity: int)
  datatype OverlayTween = OverlayTween(opacity: int, pointerEvents: PointerEvents)

  /** How far above its place the hidden bar is moved, in pixels. */
  const NavHiddenY: int := -100

  /** The bar's target: in place and opaque exactly when visible, otherwise
      100 pixels up and transparent. */
  function NavTarget(visible: bool): (t: NavTween)
    ensures t.y == 0 <==> visible
    ensures t.opacity == 1 <==> visible
    ensures !visible ==> t.y == NavHiddenY && t.opacity == 0
  {
    if visible then NavTween(0, 1) else NavTween(NavHiddenY, 0)
  }

  /** The drawer's target: on screen and opaque exactly when open, otherwise
      pushed its full width to the right and transparent. */
  function MenuTarget(open: bool): (t: MenuTween)
    ensures t.x == Px(0) <==> open
    ensures t.opacity == 1 <==> open
    ensures !open ==> t.x == Percent(100) && t.opacity == 0
  {
    if open then MenuTween(Px(0), 1) else MenuTween(Percent(100), 0)
  }

  /** The overlay's target mirrors the drawer's opacity and takes clicks only
      while the drawer is open. */
  function OverlayTarget(open: bool): (t: OverlayTween)
    ensures t.opacity == MenuTarget(open).opacity
    ensures t.pointerEvents == Auto <==> open
  {
    if open then OverlayTween(1, Auto) else OverlayTween(0, NoEvents)
  }

  /** Each target determines the flag it came from. */
  lemma TargetsDetermineFlags(a: bool, b: bool)
    ensures NavTarget(a) == NavTarget(b) ==> a == b
    ensures MenuTarget(a) == MenuTarget(b) ==> a == b
    ensures OverlayTarget(a) == OverlayTarget(b) ==> a == b
  {
  }

  // ---------------------------------------------------------------------
  // The mobile drawer's flag
  // ---------------------------------------------------------------------

  /** The three clicks that set the drawer flag: the menu button, the close
      button and a link inside the drawer. */
  datatype MenuAction = MenuButton | CloseButton | DrawerLink

  /** Each click sets the flag to a fixed value, ignoring the old one. */
  function ActionSets(a: MenuAction): (open: bool)
    ensures open <==> a == MenuButton
  {
    match a
    case MenuButton => true
    case CloseButton => false
    case DrawerLink => false
  }

  /** The flag after a sequence of clicks. */
  function AfterClicks(open: bool, actions: seq<MenuAction>): bool
    decreases |actions|
  {
    if actions == [] then open else AfterClicks(ActionSets(actions[0]), actions[1..])
  }

  /** The last click decides the flag, whatever came before it. */
  lemma {:induction false} LastClickWins(open: bool, actions: seq<MenuAction>)
    requires actions != []
    ensures AfterClicks(open, actions) == ActionSets(actions[|actions| - 1])
    decreases |actions|
  {
    if |actions| > 1 {
      LastClickWins(ActionSets(actions[0]), actions[1..]);
    }
  }

  /** Repeating a click changes nothing more. */
  lemma ClickIdempotent(open: bool, a: MenuAction)
    ensures AfterClicks(open, [a, a]) == AfterClicks(open, [a])
  {
  }

  // ---------------------------------------------------------------------
  // The component's state, updated in place
  // ---------------------------------------------------------------------

  /** The navbar's React state and the class list of its container. */
  class NavbarState {
    var lastScrollY: nat
    var isNavVisible: bool
    /** Whether the container carries the `floating-nav` class. */
    var floatingNav: bool
    var mobileOpen: bool

    function Scroll(): ScrollState
      reads this
    {
      ScrollState(lastScrollY, isNavVisible, floatingNav)
    }

    ghost predicate Valid()
      reads this
    {
      Consistent(Scroll())
    }

    constructor ()
      ensures Valid()
      ensures Scroll() == InitialScroll && !mobileOpen
    {
      lastScrollY := 0;
      isNavVisible := true;
      floatingNav := false;
      mobileOpen := false;
    }

    /** The scroll effect, on one scroll position. */
    method OnScroll(current: nat)
      requires Valid()
      modifies this
      ensures Valid()
      ensures Scroll() == AfterScroll(old(Scroll()), current)
      ensures mobileOpen == old(mobileOpen)
    {
      if current == 0 {
        isNavVisible := true;
        floatingNav := false;
      } else if current > lastScrollY {
        isNavVisible := false;
        floatingNav := true;
      } else if current < lastScrollY {
        isNavVisible := true;
        floatingNav := true;
      }
      lastScrollY := current;
    }

    /** The menu button. */
    method OpenMenu()
      requires Valid()
      modifies this
      ensures Valid()
      ensures mobileOpen == AfterClicks(old(mobileOpen), [MenuButton])
      ensures Scroll() == old(Scroll())
    {
      mobileOpen := true;
    }

    /** The close button inside the drawer. */
    method CloseMenu()
      requires Valid()
      modifies this
      ensures Valid()
      ensures mobileOpen == AfterClicks(old(mobileOpen), [CloseButton])
      ensures Scroll() == old(Scroll())
    {
      mobileOpen := false;
    }

    /** A link inside the drawer: it closes the drawer as it navigates. */
    method FollowDrawerLink()
      requires Valid()
      modifies this
      ensures Valid()
      ensures mobileOpen == AfterClicks(old(mobileOpen), [DrawerLink])
      ensures Scroll() == old(Scroll())
    {
      mobileOpen := false;
    }

    /** The targets the component's animation effects hand over for its
        current flags. */
    method Targets() returns (nav: NavTween, menu: MenuTween, overlay: OverlayTween)
      ensures nav == NavTarget(isNavVisible)
      ensures menu == MenuTarget(mobileOpen) && overlay == OverlayTarget(mobileOpen)
      ensures menu.opacity == overlay.opacity
    {
      nav := NavTarget(isNavVisible);
      menu := MenuTarget(mobileOpen);
      overlay := OverlayTarget(mobileOpen);
    }
  }
}
