/** Sequences of user events. Every handler runs to completion before the
    next event is seen, so a history of events is a left fold of the
    transitions of modules Navbar and MenuItem over the state. */
module Interaction {
  import opened NavTypes
  import opened Navbar
  import MenuItem

  datatype Event =
    | HeaderEnter(width: int, id: string)              // pointer enters a header link
    | HeaderLeave                                      // pointer leaves the header
    | Hamburger                                        // click on the toggler
    | ItemHover(item: NavItem, isDesktop: bool)        // pointer enters a menu entry
    | ItemClick(item: NavItem, isDesktop: bool, hasSearchHandler: bool)

  function Step(s: NavState, e: Event): NavState
  {
    match e
    case HeaderEnter(width, id) => OnMouseEnter(s, width, id)
    case HeaderLeave => OnMouseLeave(s)
    case Hamburger => OnHamburger(s)
    case ItemHover(item, isDesktop) => MenuItem.OnHover(s, item, isDesktop)
    case ItemClick(item, isDesktop, h) => MenuItem.OnClick(s, item, isDesktop, h)
  }

  /** The state after the events of `es`, oldest first. */
  function Run(s: NavState, es: seq<Event>): NavState
  {
    if es == [] then s else Step(Run(s, es[..|es| - 1]), es[|es| - 1])
  }

  /** An event that can only happen at a width of 1024 px or less. */
  predicate IsNarrow(e: Event)
  {
    match e
    case HeaderEnter(width, _) => !IsDesktopWidth(width)
    case ItemHover(_, isDesktop) => !isDesktop
    case ItemClick(_, isDesktop, _) => !isDesktop
    case _ => true
  }

  function HamburgerCount(es: seq<Event>): nat
  {
    if es == [] then 0
    else HamburgerCount(es[..|es| - 1]) + (if es[|es| - 1].Hamburger? then 1 else 0)
  }

  /** On a narrow viewport nothing opens the mega menu: after any narrow
      history it is open only if it was open before, and it is never shown
      when it started closed. */
  lemma {:induction false} NarrowRunNeverOpens(s: NavState, es: seq<Event>, items: seq<NavItem>)
    requires forall i :: 0 <= i < |es| ==> IsNarrow(es[i])
    ensures Run(s, es).isMegaMenuOpen ==> s.isMegaMenuOpen
    ensures !s.isMegaMenuOpen ==> !MegaMenuVisible(Run(s, es), items)
  {
    if es != [] {
      var init := es[..|es| - 1];
      assert forall i :: 0 <= i < |init| ==> IsNarrow(init[i]) by {
        forall i | 0 <= i < |init| ensures IsNarrow(init[i]) {
          assert init[i] == es[i];
        }
      }
      NarrowRunNeverOpens(s, init, items);
      assert IsNarrow(es[|es| - 1]);
    }
  }

  /** The drawer's state depends only on how many times the hamburger was
      clicked: every other event leaves it alone. */
  lemma {:induction false} DrawerFollowsHamburgerParity(s: NavState, es: seq<Event>)
    ensures Run(s, es).isMobileMenuOpen == (s.isMobileMenuOpen != (HamburgerCount(es) % 2 == 1))
  {
    if es != [] {
      DrawerFollowsHamburgerParity(s, es[..|es| - 1]);
    }
  }

  /** Whatever happened before, leaving the header ends with nothing active
      and the panel hidden; the drawer keeps its state. */
  lemma LeaveClears(s: NavState, es: seq<Event>, items: seq<NavItem>)
    ensures var t := Run(s, es + [HeaderLeave]);
      t.activeTabId == None && !t.isMegaMenuOpen && !MegaMenuVisible(t, items) &&
      t.isMobileMenuOpen == Run(s, es).isMobileMenuOpen
  {
  }

  /** A desktop hover on any non-search entry decides the active id and the
      open flag by itself, whatever history came before it. */
  lemma HoverForgetsHistory(s: NavState, es: seq<Event>, es': seq<Event>, item: NavItem)
    requires !MenuItem.IsSearch(item)
    requires Run(s, es).isMobileMenuOpen == Run(s, es').isMobileMenuOpen
    ensures Run(s, es + [ItemHover(item, true)]) == Run(s, es' + [ItemHover(item, true)])
  {
  }
}
