/** One top-level entry of the navigation bar and its pointer handlers
    (src/components/Navbar/components/MenuItem.tsx). The entry owns no
    state: its handlers call setters it receives for the active id and the
    open flag. This model takes those setters to update the fields of an
    `AppleNavbar` object. */
module MenuItem {
  import opened NavTypes
  import opened Navbar

  /** The id of the entry that opens the search overlay instead of a menu. */
  const SearchId: string := "search-link"

  predicate IsSearch(item: NavItem)
  {
    item.id == SearchId
  }

  /** `!!item.fields.icon?.value?.src`: a missing or empty source means the
      entry shows its label text instead of an icon. */
  function HasIcon(item: NavItem): (b: bool)
    ensures b <==>
      item.icon.Some? && item.icon.value.value.Some? &&
      item.icon.value.value.value.src.Some? && item.icon.value.value.value.src.value != ""
  {
    match IconSrc(item)
    case None => false
    case Some(src) => src != ""
  }

  /** What an entry shows: its icon image or its label text, and a
      chevron on every entry but search. */
  datatype EntryContent = IconImage(src: string) | LabelText(text: string)
  datatype EntryView = EntryView(content: EntryContent, chevron: bool)

  function RenderEntry(item: NavItem): (v: EntryView)
    ensures v.content.IconImage? <==> HasIcon(item)
    ensures v.content.IconImage? ==> IconSrc(item) == Some(v.content.src) && v.content.src != ""
    ensures v.content.LabelText? ==> v.content.text == item.labelText
    ensures v.chevron <==> item.id != "search-link"
  {
    EntryView(
      if HasIcon(item) then IconImage(IconSrc(item).value) else LabelText(item.labelText),
      !IsSearch(item))
  }

  /** A click on the search entry goes to the search callback, when the
      parent supplied one. */
  predicate DivertsToSearch(item: NavItem, hasSearchHandler: bool)
  {
    IsSearch(item) && hasSearchHandler
  }

  /** Hover: on desktop, any entry but search becomes active, and the panel
      opens exactly when that entry has columns. */
  function OnHover(s: NavState, item: NavItem, isDesktop: bool): NavState
  {
    if isDesktop && !IsSearch(item) then
      s.(activeTabId := Some(item.id), isMegaMenuOpen := ColumnCount(item) > 0)
    else s
  }

  /** Click: the search diversion first; otherwise, on mobile, a tap toggles
      the active id between the entry's id and null. */
  function OnClick(s: NavState, item: NavItem, isDesktop: bool, hasSearchHandler: bool): NavState
  {
    if DivertsToSearch(item, hasSearchHandler) then s
    else if !isDesktop then
      s.(activeTabId := if s.activeTabId == Some(item.id) then None else Some(item.id))
    else s
  }

  /** `handleMouseEnter`. */
  method HandleMouseEnter(nav: AppleNavbar, item: NavItem, isDesktop: bool)
    requires nav.Valid()
    modifies nav`activeTabId, nav`isMegaMenuOpen
    ensures nav.Valid()
    ensures nav.State() == OnHover(old(nav.State()), item, isDesktop)
    ensures isDesktop && !IsSearch(item) ==>
      nav.activeTabId == Some(item.id) && (nav.isMegaMenuOpen <==> ColumnCount(item) > 0)
    ensures !isDesktop || IsSearch(item) ==> nav.State() == old(nav.State())
  {
    if isDesktop && !IsSearch(item) {
      nav.activeTabId := Some(item.id);
      var hasColumns := ColumnCount(item) > 0;
      nav.isMegaMenuOpen := hasColumns;
    }
  }

  /** `handleClick`. `searchInvoked` says whether the search callback was
      called (the callback's own effect is not part of this model). */
  method HandleClick(nav: AppleNavbar, item: NavItem, isDesktop: bool, hasSearchHandler: bool)
    returns (searchInvoked: bool)
    requires nav.Valid()
    modifies nav`activeTabId
    ensures nav.Valid()
    ensures searchInvoked <==> IsSearch(item) && hasSearchHandler
    ensures nav.State() == OnClick(old(nav.State()), item, isDesktop, hasSearchHandler)
    ensures searchInvoked || isDesktop ==> nav.activeTabId == old(nav.activeTabId)
    ensures !searchInvoked && !isDesktop ==>
      nav.activeTabId == if old(nav.activeTabId) == Some(item.id) then None else Some(item.id)
  {
    if IsSearch(item) && hasSearchHandler {
      searchInvoked := true;
      return;
    }
    searchInvoked := false;
    if !isDesktop {
      nav.activeTabId := if nav.activeTabId == Some(item.id) then None else Some(item.id);
    }
  }

  // ---------------------------------------------------------------------
  // Properties
  // ---------------------------------------------------------------------

  /** Hover re-targets straight from any state: no intermediate close is
      needed to move from one open panel to another. */
  lemma HoverRetargets(s: NavState, item: NavItem)
    requires !IsSearch(item) && ColumnCount(item) > 0
    ensures OnHover(s, item, true) == s.(activeTabId := Some(item.id), isMegaMenuOpen := true)
  {
  }

  /** When `item` is the first entry with its id in the content, a desktop
      hover on it shows the mega menu exactly when it has columns. */
  lemma HoverShowsPanelIffColumns(s: NavState, items: seq<NavItem>, k: nat)
    requires k < |items| && FirstWithId(items, items[k].id, k)
    requires !IsSearch(items[k])
    ensures MegaMenuVisible(OnHover(s, items[k], true), items) <==> ColumnCount(items[k]) > 0
  {
  }

  /** Hover while not on desktop, or on the search entry, changes nothing. */
  lemma HoverIgnored(s: NavState, item: NavItem, isDesktop: bool)
    requires !isDesktop || IsSearch(item)
    ensures OnHover(s, item, isDesktop) == s
  {
  }

  /** A desktop click on any entry changes nothing; so does a click that
      goes to the search callback, on either viewport. */
  lemma ClickIgnored(s: NavState, item: NavItem, isDesktop: bool, hasSearchHandler: bool)
    requires isDesktop || DivertsToSearch(item, hasSearchHandler)
    ensures OnClick(s, item, isDesktop, hasSearchHandler) == s
  {
  }

  /** Two mobile taps on the same entry: the active id ends where it began
      when that entry was already active, and at null otherwise. So from an
      inactive entry, tap-tap always closes. */
  lemma TapTwice(s: NavState, item: NavItem, hasSearchHandler: bool)
    requires !DivertsToSearch(item, hasSearchHandler)
    ensures var t := OnClick(OnClick(s, item, false, hasSearchHandler), item, false, hasSearchHandler);
      t.activeTabId == (if s.activeTabId == Some(item.id) then s.activeTabId else None) &&
      t.isMegaMenuOpen == s.isMegaMenuOpen && t.isMobileMenuOpen == s.isMobileMenuOpen
  {
  }
}
