/** The desktop header of the navigation bar: its three state fields, the
    handlers that change them, and the expressions the markup derives from
    them (src/components/Navbar/index.tsx). */
module Navbar {
  import opened NavTypes

  /** Widths strictly above this many pixels count as desktop. */
  const DesktopBreakpoint: int := 1024

  predicate IsDesktopWidth(width: int)
  {
    width > DesktopBreakpoint
  }

  /** The value of the component's state fields at one moment. */
  datatype NavState = NavState(
    activeTabId: Option<string>,
    isMegaMenuOpen: bool,
    isMobileMenuOpen: bool)

  /** The state on mount: no active item, both menus closed. */
  const Initial: NavState := NavState(None, false, false)

  // ---------------------------------------------------------------------
  // Transitions, as functions on a state value. The class below performs
  // them in place; a sequence of events is folded over them in module
  // Interaction.
  // ---------------------------------------------------------------------

  /** Pointer enters a top-level link. */
  function OnMouseEnter(s: NavState, width: int, id: string): NavState
  {
    if IsDesktopWidth(width) then s.(activeTabId := Some(id), isMegaMenuOpen := true)
    else s
  }

  /** Pointer leaves the whole header. */
  function OnMouseLeave(s: NavState): NavState
  {
    s.(activeTabId := None, isMegaMenuOpen := false)
  }

  /** Click on the hamburger toggler. */
  function OnHamburger(s: NavState): NavState
  {
    s.(isMobileMenuOpen := !s.isMobileMenuOpen)
  }

  /** The value the effect writes to the body's `overflow` style. */
  function BodyOverflow(isMobileMenuOpen: bool): string
  {
    if isMobileMenuOpen then "hidden" else "unset"
  }

  // ---------------------------------------------------------------------
  // Derived values
  // ---------------------------------------------------------------------

  /** `navItems.find(item => item.id === id)`, as a position. */
  function FindIndex(items: seq<NavItem>, id: string): (r: Option<nat>)
    ensures r.Some? ==> FirstWithId(items, id, r.value)
    ensures r.None? ==> forall j :: 0 <= j < |items| ==> items[j].id != id
  {
    if items == [] then None
    else if items[0].id == id then Some(0)
    else match FindIndex(items[1..], id)
      case None => None
      case Some(k) => Some(k + 1)
  }

  /** The item whose id equals `activeTabId`; none when it is null, since
      no item id is null. */
  function ActiveItem(items: seq<NavItem>, activeTabId: Option<string>): (r: Option<NavItem>)
    ensures r.None? <==>
      activeTabId.None? || forall j :: 0 <= j < |items| ==> items[j].id != activeTabId.value
    ensures r.Some? ==>
      exists k :: FirstWithId(items, activeTabId.value, k) && r.value == items[k]
  {
    if activeTabId.None? then None
    else match FindIndex(items, activeTabId.value)
      case None => None
      case Some(k) => Some(items[k])
  }

  /** `activeItem?.fields?.columns?.length > 0`. */
  function HasSubmenu(items: seq<NavItem>, activeTabId: Option<string>): (b: bool)
    ensures b <==> (activeTabId.Some? &&
      exists k :: FirstWithId(items, activeTabId.value, k) && ColumnCount(items[k]) > 0)
  {
    match ActiveItem(items, activeTabId)
    case None => false
    case Some(item) => ColumnCount(item) > 0
  }

  /** The columns the mega menu lays out: those of the active item. */
  function ActiveColumns(items: seq<NavItem>, activeTabId: Option<string>): seq<MenuColumn>
  {
    match ActiveItem(items, activeTabId)
    case Some(NavItem(_, _, _, Some(cols))) => cols
    case _ => []
  }

  /** The mega menu gets its open class when it is open AND the active item
      has columns. */
  predicate MegaMenuVisible(s: NavState, items: seq<NavItem>)
  {
    s.isMegaMenuOpen && HasSubmenu(items, s.activeTabId)
  }

  /** JavaScript's `Array.prototype.slice` index resolution: a negative
      index counts from the end, and the result is clamped to [0, len]. */
  function RelativeIndex(k: int, len: nat): (r: nat)
    ensures r <= len
  {
    if k < 0 then (if len + k < 0 then 0 else len + k)
    else if k < len then k
    else len
  }

  /** JavaScript's `s.slice(start, end)`: the elements from the resolved
      start up to, not including, the resolved end; none when the resolved
      end is not past the resolved start. */
  function Slice<T>(s: seq<T>, start: int, end: int): (r: seq<T>)
    ensures var from, to := RelativeIndex(start, |s|), RelativeIndex(end, |s|);
      |r| == (if from < to then to - from else 0) &&
      forall i :: 0 <= i < |r| ==> r[i] == s[from + i]
  {
    var from, to := RelativeIndex(start, |s|), RelativeIndex(end, |s|);
    if from < to then s[from..to] else []
  }

  /** `navItems.slice(1, -2)`: every item except the first (the logo) and
      the last two (rendered in the utility group). */
  function MiddleItems(items: seq<NavItem>): (r: seq<NavItem>)
    ensures |r| == if |items| > 3 then |items| - 3 else 0
    ensures forall i :: 0 <= i < |r| ==> r[i] == items[i + 1]
    ensures |items| >= 3 ==> r == items[1..|items| - 2]
  {
    Slice(items, 1, -2)
  }

  /** Labels whose links stay visible on tablet widths. */
  const TabletVisibleLabels: seq<string> := ["Store", "Mac", "iPad", "Watch", "Vision", "Support"]

  predicate IsTabletLink(labelText: string)
  {
    labelText in TabletVisibleLabels
  }

  /** A top-level link as the header lists it. Hovering it fires the mouse
      enter handler with its id. */
  datatype NavLink = NavLink(id: string, labelText: string, tabletVisible: bool)

  /** The links of the header row; the mobile list shows the same items. */
  function NavLinks(items: seq<NavItem>): (r: seq<NavLink>)
    ensures |r| == |MiddleItems(items)|
    ensures forall i :: 0 <= i < |r| ==>
      r[i] == NavLink(items[i + 1].id, items[i + 1].labelText, IsTabletLink(items[i + 1].labelText))
  {
    var middle := MiddleItems(items);
    seq(|middle|, i requires 0 <= i < |middle| =>
      NavLink(middle[i].id, middle[i].labelText, IsTabletLink(middle[i].labelText)))
  }

  /** Which conditional classes the markup sets. */
  datatype View = View(
    wrapperMobileOpen: bool,
    hamburgerActive: bool,
    megaMenuOpen: bool,
    megaMenuColumns: seq<MenuColumn>,
    mobileOverlayVisible: bool,
    dimOverlayVisible: bool)

  function Render(s: NavState, items: seq<NavItem>): (v: View)
    ensures v.megaMenuOpen <==> s.isMegaMenuOpen && HasSubmenu(items, s.activeTabId)
    ensures v.megaMenuOpen <==> s.isMegaMenuOpen && v.megaMenuColumns != []
    ensures v.megaMenuColumns == ActiveColumns(items, s.activeTabId)
    ensures v.megaMenuColumns != [] ==>
      exists k :: FirstWithId(items, s.activeTabId.value, k) && items[k].columns == Some(v.megaMenuColumns)
    ensures v.dimOverlayVisible == v.megaMenuOpen
    ensures v.megaMenuOpen ==> s.activeTabId.Some?
    ensures v.wrapperMobileOpen == v.hamburgerActive == v.mobileOverlayVisible == s.isMobileMenuOpen
  {
    View(
      s.isMobileMenuOpen,
      s.isMobileMenuOpen,
      MegaMenuVisible(s, items),
      ActiveColumns(items, s.activeTabId),
      s.isMobileMenuOpen,
      MegaMenuVisible(s, items))
  }

  // ---------------------------------------------------------------------
  // The component's state, updated in place
  // ---------------------------------------------------------------------

  class AppleNavbar {
    var activeTabId: Option<string>
    var isMegaMenuOpen: bool
    var isMobileMenuOpen: bool
    /** The body's `overflow` style, kept in step by the effect. */
    var bodyOverflow: string

    /** Background scrolling is locked exactly while the drawer is open. */
    ghost predicate Valid()
      reads this
    {
      bodyOverflow == BodyOverflow(isMobileMenuOpen)
    }

    function State(): NavState
      reads this
    {
      NavState(activeTabId, isMegaMenuOpen, isMobileMenuOpen)
    }

    /** Mount: the three `useState` initial values, then the effect's first run. */
    constructor ()
      ensures Valid()
      ensures State() == Initial
      ensures bodyOverflow == "unset"
    {
      activeTabId := None;
      isMegaMenuOpen := false;
      isMobileMenuOpen := false;
      bodyOverflow := "unset";
    }

    /** Desktop widths re-target the panel and open it; at 1024 px or less
        nothing changes. */
    method HandleMouseEnter(width: int, id: string)
      requires Valid()
      modifies this`activeTabId, this`isMegaMenuOpen
      ensures Valid()
      ensures State() == OnMouseEnter(old(State()), width, id)
      ensures width > 1024 ==> activeTabId == Some(id) && isMegaMenuOpen
      ensures width <= 1024 ==> activeTabId == old(activeTabId) && isMegaMenuOpen == old(isMegaMenuOpen)
    {
      if width > DesktopBreakpoint {
        activeTabId := Some(id);
        isMegaMenuOpen := true;
      }
    }

    /** Leaving the header closes the mega menu and clears the active item,
        whatever the width; the drawer is left alone. */
    method HandleMouseLeave()
      requires Valid()
      modifies this`activeTabId, this`isMegaMenuOpen
      ensures Valid()
      ensures State() == OnMouseLeave(old(State()))
      ensures activeTabId == None && !isMegaMenuOpen
      ensures isMobileMenuOpen == old(isMobileMenuOpen)
    {
      isMegaMenuOpen := false;
      activeTabId := None;
    }

    /** The hamburger flips the drawer; the effect then locks or unlocks
        body scrolling. */
    method ToggleMobileMenu()
      requires Valid()
      modifies this`isMobileMenuOpen, this`bodyOverflow
      ensures Valid()
      ensures State() == OnHamburger(old(State()))
      ensures isMobileMenuOpen == !old(isMobileMenuOpen)
      ensures activeTabId == old(activeTabId) && isMegaMenuOpen == old(isMegaMenuOpen)
      ensures bodyOverflow == (if isMobileMenuOpen then "hidden" else "unset")
    {
      isMobileMenuOpen := !isMobileMenuOpen;
      bodyOverflow := BodyOverflow(isMobileMenuOpen);
    }
  }

  // ---------------------------------------------------------------------
  // Properties
  // ---------------------------------------------------------------------

  /** Hovering a link whose first matching item has no columns opens the
      panel flag but shows nothing; one with columns shows the panel. */
  lemma HoverShowsPanelIffColumns(s: NavState, items: seq<NavItem>, width: int, k: nat)
    requires IsDesktopWidth(width)
    requires k < |items| && FirstWithId(items, items[k].id, k)
    ensures OnMouseEnter(s, width, items[k].id).isMegaMenuOpen
    ensures MegaMenuVisible(OnMouseEnter(s, width, items[k].id), items) <==> ColumnCount(items[k]) > 0
  {
  }

  /** A null or unknown active id never shows a submenu. */
  lemma NoSubmenuForUnknownId(items: seq<NavItem>, activeTabId: Option<string>)
    requires activeTabId.None? || forall j :: 0 <= j < |items| ==> items[j].id != activeTabId.value
    ensures !HasSubmenu(items, activeTabId)
    ensures ActiveColumns(items, activeTabId) == []
  {
  }

  /** The hamburger is an involution and touches nothing but the drawer. */
  lemma HamburgerTwiceRestores(s: NavState)
    ensures OnHamburger(OnHamburger(s)) == s
    ensures OnHamburger(s).activeTabId == s.activeTabId
    ensures OnHamburger(s).isMegaMenuOpen == s.isMegaMenuOpen
  {
  }
}
