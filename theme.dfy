/**
 * The light/dark theme switch (class ThemeManager, app.js). The document's `dark`
 * class, the two icon classes `fa-moon` and `fa-sun`, and the stored `theme`
 * entry of local storage are the state it changes.
 */
module Theme {
  import opened Wrappers

  /** The string persisted under the `theme` key for a dark or a light page. */
  function ThemeName(dark: bool): (s: string)
    ensures s == "dark" <==> dark
    ensures s != ""
  {
    if dark then "dark" else "light"
  }

  /** JavaScript truthiness of the stored entry: absent and empty are both false. */
  predicate Truthy(saved: Option<string>)
  {
    saved.Some? && saved.value != ""
  }

  /**
   * The start-up decision: dark when the stored entry says "dark", or when
   * nothing usable is stored and the system prefers dark.
   */
  function InitialDark(saved: Option<string>, systemDark: bool): (dark: bool)
    ensures Truthy(saved) ==> (dark <==> saved.value == "dark")
    ensures !Truthy(saved) ==> dark == systemDark
  {
    saved == Some("dark") || (!Truthy(saved) && systemDark)
  }

  /** What the theme manager looks at and writes. */
  datatype ThemeView = ThemeView(dark: bool, moon: bool, sun: bool, stored: Option<string>)

  /** The icon shows the sun exactly on a dark page, and the moon exactly on a light one. */
  predicate IconMatches(v: ThemeView)
  {
    v.sun == v.dark && v.moon == !v.dark
  }

  /** `setInitialTheme`: add `dark` and replace the moon by the sun when the decision is dark. */
  function Initialized(v: ThemeView, systemDark: bool): ThemeView
  {
    if InitialDark(v.stored, systemDark) then
      v.(dark := true,
         moon := false,
         sun := if v.moon then true else v.sun)
    else v
  }

  /** `toggleTheme`: flip `dark`, persist the new state, flip both icon classes. */
  function Toggled(v: ThemeView): ThemeView
  {
    v.(dark := !v.dark, stored := Some(ThemeName(!v.dark)), moon := !v.moon, sun := !v.sun)
  }

  /**
   * From a light page whose icon shows only the moon (the state
   * `setInitialTheme` presupposes), start-up leaves the icon in
   * agreement with the theme, and the theme is the start-up decision.
   */
  lemma InitializedMatches(stored: Option<string>, systemDark: bool)
    ensures var v := Initialized(ThemeView(false, true, false, stored), systemDark);
      IconMatches(v) && v.dark == InitialDark(stored, systemDark) && v.stored == stored
  {
  }

  /** A toggle flips the theme and persists "dark" exactly when the new theme is dark. */
  lemma ToggledFlips(v: ThemeView)
    ensures Toggled(v).dark == !v.dark
    ensures Toggled(v).stored == Some("dark") <==> Toggled(v).dark
    ensures Toggled(v).stored == Some("light") <==> !Toggled(v).dark
  {
  }

  /** Two toggles restore the theme and the icon; storage then holds the original theme. */
  lemma ToggleTwice(v: ThemeView)
    ensures Toggled(Toggled(v)) == v.(stored := Some(ThemeName(v.dark)))
  {
  }

  /** Toggling keeps the icon in agreement with the theme. */
  lemma ToggleKeepsIcon(v: ThemeView)
    requires IconMatches(v)
    ensures IconMatches(Toggled(v))
  {
  }

  /** After a toggle and a reload, start-up picks the toggled theme whatever the system prefers. */
  lemma ToggleSurvivesReload(v: ThemeView, systemDark: bool)
    ensures InitialDark(Toggled(v).stored, systemDark) == Toggled(v).dark
  {
  }

  /** The theme manager over the document, its toggle icon and local storage. */
  class ThemeManager {
    var dark: bool
    var moon: bool
    var sun: bool
    var stored: Option<string>

    function View(): ThemeView
      reads this
    {
      ThemeView(dark, moon, sun, stored)
    }

    /** Construction runs `setInitialTheme` against the page state and the system preference. */
    constructor (page: ThemeView, systemDark: bool)
      ensures View() == Initialized(page, systemDark)
    {
      dark, moon, sun, stored := page.dark, page.moon, page.sun, page.stored;
      new;
      SetInitialTheme(systemDark);
    }

    /** Read the stored entry and the system preference; go dark if they say so. */
    method SetInitialTheme(systemDark: bool)
      modifies this
      ensures View() == Initialized(old(View()), systemDark)
    {
      var saved := stored;
      if saved == Some("dark") || (!Truthy(saved) && systemDark) {
        dark := true;
        if moon {
          moon := false;
          sun := true;
        }
      }
    }

    /** The click handler of the theme button. */
    method ToggleTheme()
      modifies this
      ensures View() == Toggled(old(View()))
    {
      dark := !dark;
      stored := Some(if dark then "dark" else "light");
      moon := !moon;
      sun := !sun;
    }
  }
}
