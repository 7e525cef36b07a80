/** The light/dark theme provider (src/context/ThemeContext.js). */
module Theme {
  import opened Base
  import Session

  const Light := "light"
  const Dark := "dark"
  const ThemeKey := "theme"

  /** The theme the provider starts with: the stored value, or 'light' when
      none (or an empty one) is stored. */
  function InitialTheme(items: map<string, string>): (t: string)
    ensures Truthy(Session.Lookup(items, ThemeKey)) ==> t == items[ThemeKey]
    ensures !Truthy(Session.Lookup(items, ThemeKey)) ==> t == Light
  {
    OrDefault(Session.Lookup(items, ThemeKey), Light)
  }

  /** The theme after a toggle: 'light' becomes 'dark', anything else 'light'. */
  function Toggled(t: string): string {
    if t == Light then Dark else Light
  }

  /** Whether the `dark` class is on the document element. */
  predicate DarkClass(t: string) {
    t == Dark
  }

  class ThemeProvider {
    var theme: string

    constructor (store: Session.LocalStorage)
      ensures theme == InitialTheme(store.items)
    {
      var stored := store.GetItem(ThemeKey);
      theme := OrDefault(stored, Light);
    }

    /** `toggleTheme`: flips the theme and persists exactly the new value. */
    method ToggleTheme(store: Session.LocalStorage)
      modifies this, store
      ensures theme == Toggled(old(theme))
      ensures store.items == old(store.items)[ThemeKey := theme]
    {
      var next := Toggled(theme);
      theme := next;
      store.SetItem(ThemeKey, next);
    }
  }

  /** A toggle always lands on one of the two themes, and the dark class
      follows it: present exactly after toggling away from 'light'. */
  lemma ToggleLandsOnKnownTheme(t: string)
    ensures Toggled(t) == Light || Toggled(t) == Dark
    ensures DarkClass(Toggled(t)) <==> t == Light
  {
  }

  /** Toggling twice from 'light' or 'dark' returns to the starting theme; any
      other stored value becomes 'light' on the first toggle and so 'dark'
      on the second. */
  lemma ToggleTwice(t: string)
    ensures t == Light || t == Dark ==> Toggled(Toggled(t)) == t
    ensures t != Light && t != Dark ==> Toggled(t) == Light && Toggled(Toggled(t)) == Dark
  {
  }
}
