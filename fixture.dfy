/** The navigation content of the component's story
    (src/components/Navbar/Navbar.stories.tsx) and scenarios over it. */
module Fixture {
  import opened NavTypes
  import opened Navbar
  import MenuItem
  import opened Interaction

  function Col(header: string, texts: seq<string>): MenuColumn
  {
    MenuColumn(header, seq(|texts|, i requires 0 <= i < |texts| => MenuLink(texts[i], "#")))
  }

  /** An icon field with an image source, as the story gives the logo,
      search and bag entries. */
  function WithIcon(src: string): Option<IconField>
  {
    Some(IconField(Some(ImageValue(Some(src), Some("Apple Logo")))))
  }

  /** An entry whose icon field is `{ value: {} }`. */
  function Plain(id: string, labelText: string, cols: seq<MenuColumn>): NavItem
  {
    NavItem(id, labelText, Some(IconField(Some(ImageValue(None, None)))), Some(cols))
  }

  const AppleLogo: NavItem := NavItem("apple-logo", "Apple", WithIcon("Apple_logo_black.svg"), Some([]))
  const StoreMenu: NavItem := Plain("store-menu", "Store", [
    Col("Shop", ["Shop the Latest", "Mac", "iPad", "iPhone"]),
    Col("Quick Links", ["Find a Store", "Order Status"])])
  const MacMenu: NavItem := Plain("mac-menu", "Mac", [
    Col("Explore Mac", ["Explore All Mac", "MacBook Air", "MacBook Pro"]),
    Col("Shop Mac", ["Help me choose"])])
  const IpadMenu: NavItem := Plain("ipad-menu", "iPad", [
    Col("Shop", ["Explore all iPads", "iPad Pro", "iPad Air"]),
    Col("Shop iPad", ["shop iPads", "iPad Accessories"])])
  const WatchLink: NavItem := Plain("watch-link", "Watch", [
    Col("Watch", ["Explore All Apple Watch", "Apple Watch Series 11", "Apple Watch SE3"]),
    Col("Shop Watch", ["Shop Apple Watch", "Apple Watch Brand"])])
  const VisionLink: NavItem := Plain("vision-link", "Vision", [
    Col("Explore Vision", ["Explore Apple Vision Pro"]),
    Col("Shop Vision", ["Shop Apple Vision Pro"])])
  const SupportLink: NavItem := Plain("support-link", "Support", [])
  const SearchLink: NavItem := NavItem("search-link", "Search", WithIcon("free-search-icon.png"), Some([]))
  const ShopLink: NavItem := NavItem("shop-link", "Shop", WithIcon("free-shop-icon.png"), Some([]))

  const Items: seq<NavItem> :=
    [AppleLogo, StoreMenu, MacMenu, IpadMenu, WatchLink, VisionLink, SupportLink, SearchLink, ShopLink]

  /** The story's header links are the six product entries, all of which
      stay visible on tablet; logo, search and bag are not among them. */
  lemma FixtureLinks()
    ensures MiddleItems(Items) == [StoreMenu, MacMenu, IpadMenu, WatchLink, VisionLink, SupportLink]
    ensures forall i :: 0 <= i < |NavLinks(Items)| ==> NavLinks(Items)[i].tabletVisible
    ensures AppleLogo !in MiddleItems(Items) && SearchLink !in MiddleItems(Items)
    ensures ShopLink !in MiddleItems(Items)
  {
  }

  /** Only the logo, search and bag entries carry an icon in the story. */
  lemma FixtureIcons()
    ensures forall it :: it in Items ==>
      (MenuItem.HasIcon(it) <==> it == AppleLogo || it == SearchLink || it == ShopLink)
    ensures forall it :: it in Items ==> (MenuItem.IsSearch(it) <==> it == SearchLink)
    ensures forall it :: it in Items && it != AppleLogo && it != SearchLink && it != ShopLink ==>
      MenuItem.RenderEntry(it).content == MenuItem.LabelText(it.labelText)
  {
  }

  /** Header hover on desktop: Store shows its panel; moving to Support
      keeps the open flag but shows nothing; leaving clears both. */
  lemma HeaderHoverScenario(width: int)
    requires width > 1024
    ensures var s1 := Run(Initial, [HeaderEnter(width, "store-menu")]);
      s1.activeTabId == Some("store-menu") && s1.isMegaMenuOpen && MegaMenuVisible(s1, Items) &&
      ActiveColumns(Items, s1.activeTabId) == StoreMenu.columns.value
    ensures var s2 := Run(Initial, [HeaderEnter(width, "store-menu"), HeaderEnter(width, "support-link")]);
      s2.activeTabId == Some("support-link") && s2.isMegaMenuOpen && !MegaMenuVisible(s2, Items)
    ensures var s3 := Run(Initial, [HeaderEnter(width, "store-menu"), HeaderEnter(width, "support-link"), HeaderLeave]);
      s3 == Initial
  {
    var e1, e2 := HeaderEnter(width, "store-menu"), HeaderEnter(width, "support-link");
    assert [e1, e2][..1] == [e1];
    assert [e1, e2, HeaderLeave][..2] == [e1, e2];
    assert FindIndex(Items, "store-menu") == Some(1);
    assert FirstWithId(Items, "support-link", 6);
    FirstWithIdUnique(Items, "support-link", 6, FindIndex(Items, "support-link").value);
  }

  /** The same walk through the entry handlers: hovering Support now also
      clears the open flag because it has no columns. */
  lemma ItemHoverScenario()
    ensures var s1 := Run(Initial, [ItemHover(StoreMenu, true)]);
      s1.activeTabId == Some("store-menu") && s1.isMegaMenuOpen && MegaMenuVisible(s1, Items)
    ensures var s2 := Run(Initial, [ItemHover(StoreMenu, true), ItemHover(SupportLink, true)]);
      s2.activeTabId == Some("support-link") && !s2.isMegaMenuOpen && !MegaMenuVisible(s2, Items)
  {
    var e1, e2 := ItemHover(StoreMenu, true), ItemHover(SupportLink, true);
    assert [e1, e2][..1] == [e1];
    assert FindIndex(Items, "store-menu") == Some(1);
  }

  /** On mobile, tapping Store once makes it the active id and tapping it again
      clears the active id to null. */
  lemma MobileTapScenario(hasSearchHandler: bool)
    ensures Run(Initial, [ItemClick(StoreMenu, false, hasSearchHandler)]).activeTabId == Some("store-menu")
    ensures Run(Initial, [ItemClick(StoreMenu, false, hasSearchHandler),
                          ItemClick(StoreMenu, false, hasSearchHandler)]).activeTabId == None
  {
  }
}
