/** The light/dark theme store (src/components/Navbar/context/ThemeContext.tsx).
    Browser storage is modelled as a map from keys to strings. */
module Theme {
  import opened NavTypes

  /** The storage key the theme is saved under. */
  const StorageKey: string := "apple-nav-theme"

  const Light: string := "light"
  const Dark: string := "dark"

  predicate IsKnownTheme(theme: string)
  {
    theme == Light || theme == Dark
  }

  /** `localStorage.getItem(key)`, kept only when truthy: an absent key and
      an empty string are both ignored. The value is not checked against
      the two theme names. */
  function SavedTheme(storage: map<string, string>): Option<string>
  {
    if StorageKey in storage && storage[StorageKey] != "" then Some(storage[StorageKey])
    else None
  }

  /** The theme after the load effect has run on top of `current`. */
  function LoadedTheme(current: string, storage: map<string, string>): (r: string)
    ensures (StorageKey in storage && storage[StorageKey] != "") ==> r == storage[StorageKey]
    ensures !(StorageKey in storage && storage[StorageKey] != "") ==> r == current
  {
    match SavedTheme(storage)
    case Some(saved) => saved
    case None => current
  }

  /** `theme === 'light' ? 'dark' : 'light'`. */
  function Toggled(theme: string): (r: string)
    ensures IsKnownTheme(r)
    ensures r == Dark <==> theme == Light
  {
    if theme == Light then Dark else Light
  }

  /** `n` toggles in a row. */
  function ToggledTimes(theme: string, n: nat): string
  {
    if n == 0 then theme else Toggled(ToggledTimes(theme, n - 1))
  }

  class ThemeProvider {
    var theme: string
    /** The browser's key/value storage. */
    var storage: map<string, string>

    /** Mount: the state starts at `'light'`, before the load effect runs. */
    constructor (initialStorage: map<string, string>)
      ensures theme == Light
      ensures storage == initialStorage
    {
      theme := Light;
      storage := initialStorage;
    }

    /** The mount effect: take any non-empty saved value. */
    method LoadSavedTheme()
      modifies this`theme
      ensures theme == LoadedTheme(old(theme), storage)
      ensures SavedTheme(storage).Some? ==> theme == storage[StorageKey]
      ensures SavedTheme(storage).None? ==> theme == old(theme)
      ensures SavedTheme(storage) == Some(Dark) ==> DarkModeClass()
      ensures SavedTheme(storage).Some? && SavedTheme(storage) != Some(Dark) ==> !DarkModeClass()
    {
      var saved := if StorageKey in storage then storage[StorageKey] else "";
      if saved != "" {
        theme := saved;
      }
    }

    /** Flip the theme and persist the new value; no other key changes. */
    method ToggleTheme()
      modifies this
      ensures theme == Toggled(old(theme))
      ensures IsKnownTheme(theme)
      ensures DarkModeClass() <==> old(theme) == Light
      ensures storage == old(storage)[StorageKey := theme]
      ensures StorageKey in storage && storage[StorageKey] == theme
      ensures forall key :: key in old(storage) && key != StorageKey ==>
        key in storage && storage[key] == old(storage)[key]
    {
      var finalTheme := if theme == Light then Dark else Light;
      theme := finalTheme;
      storage := storage[StorageKey := finalTheme];
    }

    /** Whether the container carries the dark-mode class: exactly for
        `'dark'`. */
    predicate DarkModeClass()
      reads this
    {
      theme == Dark
    }
  }

  // ---------------------------------------------------------------------
  // Properties
  // ---------------------------------------------------------------------

  /** Toggling twice restores either named theme. Any other (loaded,
      unchecked) value does not come back: two toggles give `'dark'`. */
  lemma ToggleTwice(theme: string)
    ensures IsKnownTheme(theme) ==> Toggled(Toggled(theme)) == theme
    ensures !IsKnownTheme(theme) ==> Toggled(Toggled(theme)) == Dark
  {
  }

  /** After `n` toggles of a named theme, the theme depends only on the
      parity of `n`. */
  lemma {:induction false} ToggledTimesParity(theme: string, n: nat)
    requires IsKnownTheme(theme)
    ensures ToggledTimes(theme, n) == if n % 2 == 0 then theme else Toggled(theme)
  {
    if n > 0 {
      ToggledTimesParity(theme, n - 1);
    }
  }

  /** The dark-mode class after `n` toggles of a named theme: on iff the
      start was dark and `n` is even, or the start was light and `n` is odd. */
  lemma {:induction false} DarkAfterToggles(theme: string, n: nat)
    requires IsKnownTheme(theme)
    ensures ToggledTimes(theme, n) == Dark <==> ((theme == Dark) == (n % 2 == 0))
  {
    ToggledTimesParity(theme, n);
  }

  /** A toggle survives a reload: mounting again over the storage a toggle
      wrote brings back the toggled theme. */
  lemma ToggleThenReload(theme: string, storage: map<string, string>)
    ensures LoadedTheme(Light, storage[StorageKey := Toggled(theme)]) == Toggled(theme)
  {
  }

  /** The saved value is not validated: an unknown string becomes the
      theme, shows the light appearance, and the next toggle gives light. */
  lemma UnknownSavedTheme()
    ensures var t := LoadedTheme(Light, map[StorageKey := "blue"]);
      t == "blue" && !IsKnownTheme(t) && t != Dark && Toggled(t) == Light
  {
  }
}
