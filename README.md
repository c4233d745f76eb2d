# Navigation bar interaction state, in Dafny

This project models the interaction state of a responsive site navigation bar
written as React components. It covers three pieces:

- **The desktop header** (`AppleNavbar`). Its state is the active item id, whether
  the mega menu is open, and whether the mobile drawer is open. Hovering a header
  link opens the mega menu, but only above 1024 px. Leaving the header resets the
  menu. The hamburger flips the drawer, and an effect locks body scrolling while
  the drawer is open. The mega menu and the dim overlay show only when the menu
  is open and the active item has columns.
- **The menu entry handlers** (`MenuItem`). They receive setters for the active
  id and the open flag from a parent. A desktop hover re-targets the panel and opens it only
  for an entry with columns. A mobile tap toggles the active id between the entry's id and null. A click
  on the search entry goes to a search callback when one was supplied; without
  one, a mobile click on it toggles like any other entry.
- **The theme store** (`ThemeProvider`). The theme starts at `light`. At mount it
  takes any non-empty value saved under `apple-nav-theme`. A toggle flips the
  theme and writes the new value back to storage.

Layout:

- `nav_types.dfy` (module `NavTypes`): the content records (item, column, link).
- `navbar.dfy` (module `Navbar`): the header.
  - The state is a value, `NavState`. The transitions on it are functions.
  - The class `AppleNavbar` holds the fields and changes them in place. Each
    method's contract ties its new state to the matching transition function.
  - The derived values are functions: the `find` lookup, `hasSubmenu`, the
    JavaScript `slice(1, -2)`, tablet labels and the visibility classes.
- `menu_item.dfy` (module `MenuItem`): the entry predicates, what an entry
  shows, the entry transitions, and the two handlers. The handlers are methods
  that update an `AppleNavbar` object (see the first line under "Left out").
- `theme.dfy` (module `Theme`): the store as a class over a theme string and a
  `map<string, string>` for browser storage.
- `interaction.dfy` (module `Interaction`): a history of events, folded over the
  transitions oldest first, with lemmas about whole histories.
- `fixture.dfy` (module `Fixture`): the story's navigation content and the
  scenarios over it.

Some inputs are parameters. The viewport width is an `int`. The parent's
`isDesktop` flag is a `bool`. Whether a search callback was supplied is a `bool`.
Browser storage is a map.

Behaviour worth knowing:

- Loading accepts any non-empty saved string, not only `light` or `dark`.
  `Theme.UnknownSavedTheme` shows the consequence.
- The hamburger does not clear the active item when it closes the drawer.
- A header hover (`handleMouseEnter` in `index.tsx`) sets the open flag even for
  an item without columns. The entry hover in `MenuItem.tsx` does not. In both
  cases nothing shows without columns.
- Two mobile taps on the same entry end at `null` only when that entry was not
  already active. `MenuItem.TapTwice` states the exact outcome.

## Model

| member | source | states |
|---|---|---|
| `Navbar.AppleNavbar.constructor` | src/components/Navbar/index.tsx:27-36 | On mount: no active id, mega menu and drawer closed (`Navbar.Initial`), body overflow `unset`; the scroll-lock invariant (`Valid`: overflow is `Navbar.BodyOverflow` of the drawer flag, line 35) holds |
| `Navbar.AppleNavbar.HandleMouseEnter` | src/components/Navbar/index.tsx:38-44 | The new state is `Navbar.OnMouseEnter` of the old one. Width > 1024 (`Navbar.IsDesktopWidth`, line 40) sets the active id to `id` and opens the mega menu; width <= 1024 (1024 included) changes nothing; the drawer and body style are untouched |
| `Navbar.AppleNavbar.HandleMouseLeave` | src/components/Navbar/index.tsx:46-49 | The new state is `Navbar.OnMouseLeave` of the old one: it closes the mega menu and clears the active id at any width; the drawer keeps its state |
| `Navbar.AppleNavbar.ToggleMobileMenu` | src/components/Navbar/index.tsx:99 | The new state is `Navbar.OnHamburger` of the old one: it flips the drawer and leaves the active id and mega-menu flag alone. The effect at lines 34-36 keeps the body overflow (`Navbar.BodyOverflow`) `hidden` exactly while the drawer is open |
| `Navbar.FindIndex` | src/components/Navbar/index.tsx:51 | The result is the position of the first item with the id; none means no item has it |
| `Navbar.ActiveItem` | src/components/Navbar/index.tsx:51 | No item for a null id or an id no item has; otherwise the first item carrying the id |
| `Navbar.HasSubmenu` | src/components/Navbar/index.tsx:52 | True iff the id is non-null, some item has it, and the first such item has a non-empty column list; a missing column list counts as empty |
| `Navbar.NoSubmenuForUnknownId` | src/components/Navbar/index.tsx:51-52 | A null or unknown active id gives no submenu and no columns to lay out |
| `Navbar.Render` | src/components/Navbar/index.tsx:110-142 | The mega menu's open class is set iff `isMegaMenuOpen && hasSubmenu` (`Navbar.MegaMenuVisible`), which is the same as the flag being set and the laid-out columns being non-empty. The laid-out columns (`Navbar.ActiveColumns`, line 112) are those of the first item carrying the active id. The dim overlay (line 142) shows exactly when the mega menu does. The wrapper, the hamburger and the mobile overlay all follow the drawer flag |
| `Navbar.HoverShowsPanelIffColumns` | src/components/Navbar/index.tsx:38-52 | A desktop hover (`Navbar.OnMouseEnter`) on an item (the first with its id) always sets the open flag, but the panel shows iff the item has columns |
| `Navbar.HamburgerTwiceRestores` | src/components/Navbar/index.tsx:99 | Two hamburger clicks (`Navbar.OnHamburger`) restore the state; one click changes neither the active id nor the mega-menu flag |
| `Navbar.Slice` | src/components/Navbar/index.tsx:71 | JavaScript `Array.prototype.slice`: a negative index counts from the end and both are clamped to the length (`Navbar.RelativeIndex`); the result holds the elements from the resolved start up to the resolved end, and is empty when the end is not past the start |
| `Navbar.MiddleItems` | src/components/Navbar/index.tsx:71 | JavaScript `slice(1, -2)`: exactly the items at positions 1 to n-3, none when n <= 3; the first item (logo) and the last two are never included |
| `Navbar.NavLinks` | src/components/Navbar/index.tsx:71-87 | One header link per middle item, in order, with that item's id and label, marked tablet-visible iff the label is one of the six listed at line 55 (`Navbar.IsTabletLink`, line 73); the mobile list (line 133) shows the same items |
| `NavTypes.ColumnCount` | src/components/Navbar/components/MenuItem.tsx:28 | `columns?.length ?? 0`: positive iff the column list is present and non-empty |
| `MenuItem.HasIcon` | src/components/Navbar/components/MenuItem.tsx:22 | Through `NavTypes.IconSrc` (`icon?.value?.src`): true iff the icon field, its value and its source are all present and the source is non-empty |
| `MenuItem.RenderEntry` | src/components/Navbar/components/MenuItem.tsx:51-57 | An entry shows its icon, with the source `NavTypes.IconSrc` finds, iff it has one, otherwise its label text. The chevron is on every entry whose id is not `search-link` (`MenuItem.IsSearch`, line 23) |
| `MenuItem.HandleMouseEnter` | src/components/Navbar/components/MenuItem.tsx:25-31 | The new state is `MenuItem.OnHover` of the old one. On desktop and not the search entry (`MenuItem.IsSearch`): the active id becomes the entry's id and the open flag becomes "has columns". Otherwise nothing changes; the drawer is never touched |
| `MenuItem.HandleClick` | src/components/Navbar/components/MenuItem.tsx:33-43 | The new state is `MenuItem.OnClick` of the old one. The search entry with a callback (`MenuItem.DivertsToSearch`, line 34) invokes it and leaves the state alone, on either viewport. Otherwise a mobile click sets the active id to null when the entry is active, else to the entry's id. A desktop click changes nothing |
| `MenuItem.HoverRetargets` | src/components/Navbar/components/MenuItem.tsx:25-31 | From any state, a desktop hover (`MenuItem.OnHover`) on a non-search entry with columns yields that id and an open panel, with no intermediate close |
| `MenuItem.HoverShowsPanelIffColumns` | src/components/Navbar/components/MenuItem.tsx:25-31 | After a desktop hover (`MenuItem.OnHover`) on the first entry with its id, the mega menu is visible iff that entry has columns |
| `MenuItem.HoverIgnored` | src/components/Navbar/components/MenuItem.tsx:26 | Hover (`MenuItem.OnHover`) off desktop, or on the search entry, leaves the state unchanged |
| `MenuItem.ClickIgnored` | src/components/Navbar/components/MenuItem.tsx:33-43 | A desktop click (`MenuItem.OnClick`), or a click diverted to the search callback (`MenuItem.DivertsToSearch`), leaves the state unchanged |
| `MenuItem.TapTwice` | src/components/Navbar/components/MenuItem.tsx:40-42 | Two mobile taps (`MenuItem.OnClick`) on one entry end with null, or with that entry's id when it was active to begin with; nothing else changes |
| `Theme.ThemeProvider.constructor` | src/components/Navbar/context/ThemeContext.tsx:13 | The theme starts as `light`; storage is as given |
| `Theme.LoadedTheme` | src/components/Navbar/context/ThemeContext.tsx:16-19 | Through `Theme.SavedTheme` (lines 17-18): A non-empty value under `apple-nav-theme` becomes the theme unvalidated; an absent key or empty string keeps the current theme |
| `Theme.ThemeProvider.LoadSavedTheme` | src/components/Navbar/context/ThemeContext.tsx:16-29 | The mount effect sets the theme to the saved value iff `Theme.SavedTheme` finds one present and non-empty; storage is not written. The dark-mode class (line 29, `DarkModeClass`) is then on exactly when the saved value is `dark` |
| `Theme.Toggled` | src/components/Navbar/context/ThemeContext.tsx:22 | The result is always `light` or `dark`, and it is `dark` iff the input is `light` |
| `Theme.ThemeProvider.ToggleTheme` | src/components/Navbar/context/ThemeContext.tsx:21-29 | Flips the theme, stores the new theme under `apple-nav-theme`, and keeps every other storage key as it was. Afterwards the dark-mode class (line 29, `DarkModeClass`) is on iff the theme was `light` before |
| `Theme.DarkAfterToggles` | src/components/Navbar/context/ThemeContext.tsx:21-29 | After n toggles of a named theme, the dark-mode class is on iff the start was dark and n is even, or the start was light and n is odd |
| `Theme.ToggleTwice` | src/components/Navbar/context/ThemeContext.tsx:21-25 | Two toggles restore `light` or `dark`; any other loaded value ends at `dark` |
| `Theme.ToggledTimesParity` | src/components/Navbar/context/ThemeContext.tsx:21-25 | After n toggles of a named theme, the theme is the original for even n and the flipped one for odd n |
| `Theme.ToggleThenReload` | src/components/Navbar/context/ThemeContext.tsx:16-24 | Mounting again over the storage a toggle wrote restores the toggled theme |
| `Theme.UnknownSavedTheme` | src/components/Navbar/context/ThemeContext.tsx:17 | A saved `blue` is taken as the theme: it is neither named theme, shows no dark class, and the next toggle gives `light` |
| `Interaction.NarrowRunNeverOpens` | src/components/Navbar/index.tsx:38-49 | Over any history (`Interaction.Run`, folding `Interaction.Step` oldest first) of narrow-viewport events (`Interaction.IsNarrow`; header and entry handlers, under the shared-state assumption in "Left out"), the mega menu can only stay open, never open; from closed it is never shown |
| `Interaction.DrawerFollowsHamburgerParity` | src/components/Navbar/index.tsx:99 | After any history, the drawer is open iff it started open XOR the hamburger was clicked (`Interaction.HamburgerCount`) an odd number of times |
| `Interaction.LeaveClears` | src/components/Navbar/index.tsx:46-49 | After any history followed by leaving the header: no active id, the panel is closed and hidden, and the drawer is as before |
| `Interaction.HoverForgetsHistory` | src/components/Navbar/components/MenuItem.tsx:25-31 | A desktop hover on a non-search entry gives the same state after any two histories whose drawer states agree |
| `Fixture.FixtureLinks` | src/components/Navbar/Navbar.stories.tsx:17-202 | In the story content, the header links are exactly Store, Mac, iPad, Watch, Vision and Support, all tablet-visible; logo, search and bag are excluded |
| `Fixture.FixtureIcons` | src/components/Navbar/Navbar.stories.tsx:17-202 | Of the story's items, exactly the logo, search and bag entries have icons (the others have `icon: { value: {} }`) and show their label text instead; exactly `search-link` is the search entry |
| `Fixture.HeaderHoverScenario` | src/components/Navbar/Navbar.stories.tsx:31-175 | At any desktop width, hovering `store-menu` shows its two columns. Then hovering `support-link` keeps the open flag but shows nothing. Leaving returns to the initial state |
| `Fixture.ItemHoverScenario` | src/components/Navbar/Navbar.stories.tsx:168-175 | Through the entry handlers, Store shows its panel, then Support closes the flag because it has no columns |
| `Fixture.MobileTapScenario` | src/components/Navbar/components/MenuItem.tsx:40-42 | On mobile, tapping Store from the initial state makes it active, and a second tap returns to null |

## Left out

- Shared state between header and entries is a modelling assumption. `index.tsx` never renders `MenuItem`; its header links (lines 76-85) call its own `handleMouseEnter` and have no click handler. `MenuItem.tsx` receives its setters as props from a parent that is not part of this model. The model lets both sets of handlers update one `AppleNavbar` object, taking `setIsOpen` to be the header's `isMegaMenuOpen`. The mixed histories of `Interaction` and `Fixture.ItemHoverScenario` (entry hovers judged by the header's visibility rule) rest on this assumption.
- An absent label. `item.fields.label?.value` may be undefined; `labelText` is always a string. The tablet flag is the same either way, since no listed label is undefined.
- Markup, style classes and rendering. JSX structure, SCSS classes, and the `Text`, `JssImage` and `JssLink` components are left out; the JSS library is not part of this model. Only the conditional classes are modelled, as booleans in `Navbar.View`.
- The lookups at `src/components/Navbar/index.tsx:92` and `:95`. They find the search and bag icons, and only feed rendering.
- Column style. The main/sub link class depends on the column index (line 120); it is presentation.
- The story's icon URLs. `Fixture` keeps short placeholder strings; only whether an icon source is present matters.
- Search overlay, store locator, resizing and going back. The navbar has no state for a search overlay or the store locator, no resize handler and no 'back' action; exclusivity between overlays and the store-locator scroll are not behaviour of these components. `StoreLocator/index.tsx` takes only an `isOpen` prop; `SearchModal.tsx` takes `isOpen` and an `onClose` callback; neither holds navigation state, and focusing the search input is a DOM effect.
- `NavContext.tsx`. It only exposes raw setters. `useNav` and `useTheme` throwing outside their provider is context plumbing.
- React's setter batching. A setter takes effect at the next render. The model applies each handler completely before the next event. The hamburger reads the rendered `isMobileMenuOpen`, which is the current value under that assumption.
- `e.preventDefault()` and what the search callback does. `MenuItem.HandleClick` only reports whether the callback was called.
- Real browser APIs. `window.innerWidth` is a width parameter, and MenuItem's `isDesktop` is a boolean supplied by its parent. Browser storage is a total map, so a storage access that throws is not modelled.
- The components `HeroBanner`, `Card*`, `StoreCard`, `SubMenu`, `SubMenuLink`, the first-version `Navbar/MenuItem.tsx` and `withDatasourceCheck`. They are presentational or library wrappers.
