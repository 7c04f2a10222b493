/**
 * The theme provider: the rule that picks the initial theme, the update
 * that rewrites the document root's `light`/`dark` class and persists the
 * choice, and the reaction to a change of the OS colour-scheme preference.
 *
 * Local storage is a `map<string, string>`, the root's class list a
 * `set<string>`, and the `prefers-color-scheme: dark` media query a boolean.
 */
module Themes {
  import opened Wrappers

  datatype Theme = Light | Dark | System

  const DefaultTheme := System
  const DefaultStorageKey := "design-system-theme"

  const LightClass := "light"
  const DarkClass := "dark"
  /** The two classes `updateTheme` removes before adding one of them back. */
  const ModeClasses: set<string> := {LightClass, DarkClass}

  /** Reads a stored theme string; anything other than the three names is `None`. */
  function ParseTheme(s: string): (r: Option<Theme>)
    ensures r.Some? <==> s == "light" || s == "dark" || s == "system"
  {
    if s == "light" then Some(Light)
    else if s == "dark" then Some(Dark)
    else if s == "system" then Some(System)
    else None
  }

  /** The string a theme is stored and compared as. */
  function ThemeName(t: Theme): (s: string)
    ensures ParseTheme(s) == Some(t)
  {
    match t
    case Light => "light"
    case Dark => "dark"
    case System => "system"
  }

  /** The class the OS preference selects. */
  function SystemClass(prefersDark: bool): (c: string)
    ensures c in ModeClasses
    ensures c == DarkClass <==> prefersDark
  {
    if prefersDark then DarkClass else LightClass
  }

  /** The mode class a theme puts on the root. */
  function AppliedClass(t: Theme, prefersDark: bool): (c: string)
    ensures c in ModeClasses
    ensures t != System ==> c == ThemeName(t)
    ensures t == System ==> c == SystemClass(prefersDark)
  {
    if t == System then SystemClass(prefersDark) else ThemeName(t)
  }

  /** `localStorage.getItem(key)`: `null` when the key is absent. */
  function GetItem(storage: map<string, string>, key: string): (r: Option<string>)
    ensures r.Some? <==> key in storage
    ensures r.Some? ==> r.value == storage[key]
  {
    if key in storage then Some(storage[key]) else None
  }

  /**
   * The initial-theme rule as written: a stored value that is not empty wins
   * verbatim (the cast to `Theme` checks nothing); otherwise a `system`
   * default resolves against the OS preference, and any other default is
   * used as it is.
   */
  function InitialThemeAsWritten(stored: Option<string>, defaultTheme: Theme, prefersDark: bool): (r: string)
    ensures stored.Some? && stored.value != "" ==> r == stored.value
    ensures (stored.None? || stored.value == "") && defaultTheme == System ==> r == SystemClass(prefersDark)
    ensures (stored.None? || stored.value == "") && defaultTheme != System ==> r == ThemeName(defaultTheme)
    ensures r == "system" ==> stored == Some("system")
  {
    if stored.Some? && stored.value != "" then stored.value
    else if defaultTheme == System then (if prefersDark then "dark" else "light")
    else ThemeName(defaultTheme)
  }

  /** A stored value the `Theme` cast is right about, or no usable stored value at all. */
  predicate WellFormedStored(stored: Option<string>) {
    stored.None? || stored.value == "" || ParseTheme(stored.value).Some?
  }

  /**
   * The initial-theme rule with the stored value checked: a stored theme
   * name wins; anything else falls back to the default resolution. It
   * agrees with the rule as written whenever storage holds a theme name.
   */
  function InitialTheme(stored: Option<string>, defaultTheme: Theme, prefersDark: bool): (t: Theme)
    ensures WellFormedStored(stored) ==> ThemeName(t) == InitialThemeAsWritten(stored, defaultTheme, prefersDark)
    ensures !WellFormedStored(stored) ==> ThemeName(t) == InitialThemeAsWritten(None, defaultTheme, prefersDark)
    ensures stored.Some? && ParseTheme(stored.value).Some? ==> t == ParseTheme(stored.value).value
    ensures t == System ==> stored == Some("system")
  {
    var parsed := if stored.Some? then ParseTheme(stored.value) else None;
    if parsed.Some? then parsed.value
    else if defaultTheme == System then (if prefersDark then Dark else Light)
    else defaultTheme
  }

  /** The root classes after `updateTheme(newTheme)`: both mode classes removed, one added back. */
  function UpdatedClasses(classes: set<string>, newTheme: string, prefersDark: bool): (r: set<string>)
    ensures newTheme == "system" ==> r * ModeClasses == {SystemClass(prefersDark)}
    ensures newTheme != "system" ==> newTheme in r
    ensures newTheme != "system" && newTheme !in ModeClasses ==> r * ModeClasses == {}
    ensures forall c :: c !in ModeClasses && c != newTheme ==> (c in r <==> c in classes)
  {
    (classes - ModeClasses) + {if newTheme == "system" then SystemClass(prefersDark) else newTheme}
  }

  /** For a real theme, the update leaves exactly one mode class and every other class as it was. */
  lemma UpdateSetsOneMode(classes: set<string>, t: Theme, prefersDark: bool)
    ensures UpdatedClasses(classes, ThemeName(t), prefersDark) * ModeClasses == {AppliedClass(t, prefersDark)}
    ensures UpdatedClasses(classes, ThemeName(t), prefersDark) - ModeClasses == classes - ModeClasses
  {
  }

  /** A stored string that is not a theme name survives the unchecked cast and leaves no mode class. */
  lemma UncheckedStoredThemeLeavesNoMode(classes: set<string>, defaultTheme: Theme, prefersDark: bool)
    ensures InitialThemeAsWritten(Some("blue"), defaultTheme, prefersDark) == "blue"
    ensures UpdatedClasses(classes, "blue", prefersDark) * ModeClasses == {}
    ensures ParseTheme("blue").None?
  {
  }

  /** What `useTheme` hands out; `bound` is false for the default's no-op `setTheme`. */
  datatype ThemeContext = ThemeContext(theme: Theme, bound: bool)

  const InitialState := ThemeContext(System, false)
  const OutsideProviderError := "useTheme must be used within a ThemeProvider"

  /**
   * `useTheme`: the nearest provider's value, or the context's default. The
   * default is defined, so the error branch is never taken.
   */
  function UseTheme(nearest: Option<ThemeContext>): (r: Result<ThemeContext, string>)
    ensures r.Ok?
    ensures nearest.None? ==> r.value == InitialState
    ensures nearest.Some? ==> r.value == nearest.value
  {
    var context: Option<ThemeContext> := Some(nearest.GetOr(InitialState));
    if context.None? then Err(OutsideProviderError) else Ok(context.value)
  }

  class ThemeProvider {
    const storageKey: string
    var theme: Theme
    var storage: map<string, string>
    var rootClasses: set<string>
    var prefersDark: bool

    /** The stored value and the root's single mode class both follow `theme`. */
    ghost predicate Valid()
      reads this
    {
      && storageKey in storage && storage[storageKey] == ThemeName(theme)
      && rootClasses * ModeClasses == {AppliedClass(theme, prefersDark)}
    }

    /** Mounting: resolve the initial theme, then run the theme effect once. */
    constructor (defaultTheme: Option<Theme>, storageKey: Option<string>, storage: map<string, string>,
                 rootClasses: set<string>, prefersDark: bool)
      ensures this.storageKey == storageKey.GetOr(DefaultStorageKey) && this.prefersDark == prefersDark
      ensures theme == InitialTheme(GetItem(storage, this.storageKey), defaultTheme.GetOr(DefaultTheme), prefersDark)
      ensures this.storage == storage[this.storageKey := ThemeName(theme)]
      ensures this.rootClasses == UpdatedClasses(rootClasses, ThemeName(theme), prefersDark)
      ensures Valid()
    {
      var key := storageKey.GetOr(DefaultStorageKey);
      this.storageKey := key;
      theme := InitialTheme(GetItem(storage, key), defaultTheme.GetOr(DefaultTheme), prefersDark);
      this.storage := storage;
      this.rootClasses := rootClasses;
      this.prefersDark := prefersDark;
      new;
      UpdateTheme(theme);
    }

    /** Rewrites the root's mode class and persists `newTheme` verbatim. */
    method UpdateTheme(newTheme: Theme)
      modifies this
      ensures storage == old(storage)[storageKey := ThemeName(newTheme)]
      ensures rootClasses == UpdatedClasses(old(rootClasses), ThemeName(newTheme), prefersDark)
      ensures rootClasses * ModeClasses == {AppliedClass(newTheme, prefersDark)}
      ensures rootClasses - ModeClasses == old(rootClasses) - ModeClasses
      ensures theme == old(theme) && prefersDark == old(prefersDark)
    {
      UpdateSetsOneMode(rootClasses, newTheme, prefersDark);
      rootClasses := rootClasses - ModeClasses;
      storage := storage[storageKey := ThemeName(newTheme)];
      if newTheme == System {
        rootClasses := rootClasses + {SystemClass(prefersDark)};
      } else {
        rootClasses := rootClasses + {ThemeName(newTheme)};
      }
    }

    /** `setTheme`: a changed theme re-runs the theme effect; the same theme changes nothing. */
    method SetTheme(newTheme: Theme)
      requires Valid()
      modifies this
      ensures Valid() && theme == newTheme && prefersDark == old(prefersDark)
      ensures old(theme) != newTheme ==>
                && storage == old(storage)[storageKey := ThemeName(newTheme)]
                && rootClasses == UpdatedClasses(old(rootClasses), ThemeName(newTheme), prefersDark)
      ensures old(theme) == newTheme ==> storage == old(storage) && rootClasses == old(rootClasses)
      ensures rootClasses - ModeClasses == old(rootClasses) - ModeClasses
    {
      if newTheme != theme {
        theme := newTheme;
        UpdateTheme(newTheme);
      }
    }

    /** The OS preference changed: only a `system` theme is re-applied. */
    method PreferenceChanged(dark: bool)
      requires Valid()
      modifies this
      ensures Valid() && theme == old(theme) && prefersDark == dark
      ensures storage == old(storage)
      ensures old(theme) != System ==> rootClasses == old(rootClasses)
      ensures old(theme) == System ==> rootClasses == UpdatedClasses(old(rootClasses), "system", dark)
    {
      prefersDark := dark;
      if theme == System {
        UpdateTheme(System);
      }
    }
  }
}
