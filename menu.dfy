/**
 * The mobile navigation menu of the portfolio page.
 *
 * Its open/closed state is held in three places of the page that must agree:
 * the `open` class on the link container, the text of the toggle control
 * ("close" while open, "menu" while closed) and the toggle's `aria-expanded`
 * attribute ("true" / "false").  Two handlers act on it: a click on the toggle
 * and a click on any navigation link inside the container.  Both handlers are
 * installed only when the toggle and the container are both on the page.
 */
module MobileMenu {

  /// The toggle's text while the menu is open (a Material Icons glyph name).
  const OpenLabel: string := "close"
  /// The toggle's text while the menu is closed.
  const ClosedLabel: string := "menu"

  /// The label the toggle handler writes for a given open state.
  function LabelFor(isOpen: bool): (r: string)
    ensures r == OpenLabel <==> isOpen
    ensures r == ClosedLabel <==> !isOpen
  {
    if isOpen then OpenLabel else ClosedLabel
  }

  /// JavaScript's `String(b)` for a boolean: the attribute value written to `aria-expanded`.
  function AriaString(b: bool): (r: string)
    ensures r == "true" <==> b
    ensures r == "false" <==> !b
  {
    if b then "true" else "false"
  }

  /// The menu's page state: whether the container has the `open` class, the
  /// toggle's text content and the toggle's `aria-expanded` attribute.
  datatype MenuState = MenuState(open: bool, toggleLabel: string, ariaExpanded: string)

  /// The closed state every nav-link click produces.
  const Closed: MenuState := MenuState(false, ClosedLabel, AriaString(false))

  /// The three pieces of page state agree with one another.
  predicate Consistent(s: MenuState) {
    (s.open && s.toggleLabel == "close" && s.ariaExpanded == "true") ||
    (!s.open && s.toggleLabel == "menu" && s.ariaExpanded == "false")
  }

  /// The toggle click: `classList.toggle('open')` flips the class and returns
  /// the new value; label and attribute are derived from that value alone,
  /// whatever they held before.
  function Toggled(s: MenuState): (r: MenuState)
    ensures r.open == !s.open
    ensures Consistent(r)
  {
    var isOpen := !s.open;
    MenuState(isOpen, LabelFor(isOpen), AriaString(isOpen))
  }

  /// A nav-link click: removes the class and writes the closed label and
  /// attribute unconditionally.
  function LinkClicked(s: MenuState): (r: MenuState)
    ensures !r.open && r.toggleLabel == "menu" && r.ariaExpanded == "false"
    ensures Consistent(r)
  {
    MenuState(false, ClosedLabel, AriaString(false))
  }

  /// The events that reach the menu.
  datatype MenuEvent = ToggleClick | NavLinkClick

  /// One event.  When the toggle or the container is missing no handler was
  /// installed, so the event changes nothing.
  function Step(present: bool, s: MenuState, e: MenuEvent): (r: MenuState)
    ensures !present ==> r == s
    ensures present ==> Consistent(r)
    ensures present && e == NavLinkClick ==> r == Closed
    ensures present && e == ToggleClick ==> r.open == !s.open
  {
    if !present then s
    else match e
      case ToggleClick => Toggled(s)
      case NavLinkClick => LinkClicked(s)
  }

  /// A sequence of events, handled one after another in arrival order.
  function Run(present: bool, s: MenuState, events: seq<MenuEvent>): (r: MenuState)
    decreases |events|
    ensures !present ==> r == s
    ensures Consistent(s) ==> Consistent(r)
    ensures present && |events| > 0 ==> Consistent(r)
  {
    if events == [] then s
    else Run(present, Step(present, s, events[0]), events[1..])
  }

  /// Handling one more event after a run is the same as one more step.
  lemma {:induction false} RunSnoc(present: bool, s: MenuState, events: seq<MenuEvent>, e: MenuEvent)
    ensures Run(present, s, events + [e]) == Step(present, Run(present, s, events), e)
    decreases |events|
  {
    if events == [] {
      assert [] + [e] == [e];
    } else {
      assert (events + [e])[1..] == events[1..] + [e];
      RunSnoc(present, Step(present, s, events[0]), events[1..], e);
    }
  }

  /// Running two sequences back to back is running their concatenation.
  lemma {:induction false} RunAppend(present: bool, s: MenuState, xs: seq<MenuEvent>, ys: seq<MenuEvent>)
    ensures Run(present, s, xs + ys) == Run(present, Run(present, s, xs), ys)
    decreases |xs|
  {
    if xs == [] {
      assert [] + ys == ys;
    } else {
      assert (xs + ys)[1..] == xs[1..] + ys;
      RunAppend(present, Step(present, s, xs[0]), xs[1..], ys);
    }
  }

  /// Whatever happened before, a nav-link click as the last event leaves the menu closed.
  lemma LastLinkClickCloses(s: MenuState, events: seq<MenuEvent>)
    ensures Run(true, s, events + [NavLinkClick]) == Closed
  {
    RunSnoc(true, s, events, NavLinkClick);
  }

  /// Two toggles give back the open state; they give back the whole state
  /// exactly when it was consistent, since the second toggle rewrites label and
  /// attribute from the open flag.
  lemma ToggleTwice(s: MenuState)
    ensures Toggled(Toggled(s)).open == s.open
    ensures Toggled(Toggled(s)) == s <==> Consistent(s)
  {
  }

  /// A second nav-link click changes nothing; a consistent closed menu is a fixed point of it.
  lemma LinkClickIdempotent(s: MenuState)
    ensures LinkClicked(LinkClicked(s)) == LinkClicked(s)
    ensures Consistent(s) && !s.open ==> LinkClicked(s) == s
  {
  }

  /// `n` clicks on the toggle.
  function Toggles(n: nat): (r: seq<MenuEvent>)
    ensures |r| == n
    ensures forall i :: 0 <= i < n ==> r[i] == ToggleClick
  {
    if n == 0 then [] else [ToggleClick] + Toggles(n - 1)
  }

  /// After `n` toggle clicks the menu is open exactly when it was open before
  /// and `n` is even, or closed before and `n` is odd.
  lemma {:induction false} TogglesParity(s: MenuState, n: nat)
    ensures Run(true, s, Toggles(n)).open == (if n % 2 == 0 then s.open else !s.open)
    decreases n
  {
    if n > 0 {
      assert Toggles(n)[1..] == Toggles(n - 1);
      TogglesParity(Toggled(s), n - 1);
    }
  }

  /// An even number of toggle clicks on a consistent menu restores it completely.
  lemma {:induction false} EvenTogglesRestore(s: MenuState, n: nat)
    requires Consistent(s) && n % 2 == 0
    ensures Run(true, s, Toggles(n)) == s
    decreases n
  {
    if n > 0 {
      assert Toggles(n) == Toggles(2) + Toggles(n - 2) by {
        ToggleSplit(n);
      }
      RunAppend(true, s, Toggles(2), Toggles(n - 2));
      assert Toggles(2) == [ToggleClick, ToggleClick];
      ToggleTwice(s);
      EvenTogglesRestore(s, n - 2);
    }
  }

  /// The split step used by `EvenTogglesRestore`: two toggles, then the remaining `n - 2`.
  lemma ToggleSplit(n: nat)
    requires n >= 2
    ensures Toggles(n) == Toggles(2) + Toggles(n - 2)
  {
  }

  /// The menu component of one page.  `present` records, once, whether both
  /// the toggle control and the link container were found.
  class Menu {
    const present: bool
    var open: bool
    var toggleLabel: string
    var ariaExpanded: string

    function State(): MenuState
      reads this
    {
      MenuState(open, toggleLabel, ariaExpanded)
    }

    /// The page as loaded: the initial class, text and attribute come from the markup.
    constructor (hasToggle: bool, hasLinks: bool, initial: MenuState)
      ensures present == (hasToggle && hasLinks)
      ensures State() == initial
    {
      present := hasToggle && hasLinks;
      open := initial.open;
      toggleLabel := initial.toggleLabel;
      ariaExpanded := initial.ariaExpanded;
    }

    /// A click on the toggle control.
    method Toggle()
      modifies this
      ensures present ==> open == !old(open)
      ensures present ==> toggleLabel == (if open then "close" else "menu")
      ensures present ==> ariaExpanded == (if open then "true" else "false")
      ensures !present ==> unchanged(this)
      ensures State() == Step(present, old(State()), ToggleClick)
    {
      if present {
        var isOpen := !open;
        open := isOpen;
        toggleLabel := LabelFor(isOpen);
        ariaExpanded := AriaString(isOpen);
      }
    }

    /// A click on a navigation link inside the container.
    method LinkClick()
      modifies this
      ensures present ==> !open && toggleLabel == "menu" && ariaExpanded == "false"
      ensures !present ==> unchanged(this)
      ensures State() == Step(present, old(State()), NavLinkClick)
    {
      if present {
        open := false;
        toggleLabel := ClosedLabel;
        ariaExpanded := AriaString(false);
      }
    }

    /// Dispatches an event to its handler; the menu stays consistent once it is.
    method Handle(e: MenuEvent)
      modifies this
      ensures State() == Step(present, old(State()), e)
      ensures Consistent(old(State())) ==> Consistent(State())
    {
      match e
      case ToggleClick => Toggle();
      case NavLinkClick => LinkClick();
    }
  }
}
