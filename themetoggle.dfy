/**
 * The theme toggle: a light/dark mode, one of four colour themes, and
 * whether the theme dropdown is open. Two pieces of browser state go with
 * it and are fields here: the class set of the document's root element,
 * which the toggle rewrites, and the local key/value storage that keeps
 * the choice across visits.
 *
 * Mode and theme are kept as strings: the component reads them back from
 * storage with an unchecked cast, so any stored text can end up in them.
 * `Valid()` says they hold one of the known values.
 */
module ThemeToggle {

  const Light := "light"
  const Dark := "dark"
  const Ocean := "ocean"
  const Forest := "forest"
  const Sunset := "sunset"
  const Purple := "purple"

  /** The storage keys. */
  const ModeKey := "theme-mode"
  const ColorKey := "theme-color"

  predicate IsMode(m: string) {
    m == Light || m == Dark
  }

  predicate IsTheme(t: string) {
    t == Ocean || t == Forest || t == Sunset || t == Purple
  }

  /** `theme-${t}`. */
  function ThemeClass(t: string): string {
    "theme-" + t
  }

  const ModeClasses: set<string> := {Light, Dark}

  const ThemeClasses: set<string> := {ThemeClass(Ocean), ThemeClass(Forest), ThemeClass(Sunset), ThemeClass(Purple)}

  /** The six classes `applyTheme` removes before adding the new ones. */
  const ManagedClasses: set<string> := ModeClasses + ThemeClasses

  /** The classes a mode and theme stand for: ocean, the default, has no class of its own. */
  function ActiveClasses(mode: string, theme: string): set<string> {
    {mode} + (if theme != Ocean then {ThemeClass(theme)} else {})
  }

  /** The root's class set after `applyTheme(mode, theme)`. */
  function AppliedClasses(classes: set<string>, mode: string, theme: string): (r: set<string>)
    ensures mode in r
    ensures IsMode(mode) ==> r * ModeClasses == {mode}
    ensures IsMode(mode) && IsTheme(theme) ==> (ThemeClass(theme) in r <==> theme != Ocean)
    ensures IsMode(mode) && IsTheme(theme) ==> r * ThemeClasses == if theme == Ocean then {} else {ThemeClass(theme)}
    ensures forall c :: c !in ManagedClasses && c != mode && c != ThemeClass(theme) ==> (c in r <==> c in classes)
  {
    ThemeClassesDistinct();
    (classes - ManagedClasses) + ActiveClasses(mode, theme)
  }

  lemma ThemeClassesDistinct()
    ensures ThemeClass(Ocean) == "theme-ocean" && ThemeClass(Forest) == "theme-forest"
    ensures ThemeClass(Sunset) == "theme-sunset" && ThemeClass(Purple) == "theme-purple"
    ensures Light !in ThemeClasses && Dark !in ThemeClasses
  {
  }

  /**
   * Applying a valid mode and theme wipes out every trace of an earlier
   * application: only the last one counts.
   */
  lemma LastApplicationWins(classes: set<string>, m1: string, t1: string, m2: string, t2: string)
    requires IsMode(m1) && IsTheme(t1)
    ensures AppliedClasses(AppliedClasses(classes, m1, t1), m2, t2) == AppliedClasses(classes, m2, t2)
  {
    ThemeClassesDistinct();
    assert ActiveClasses(m1, t1) <= ManagedClasses;
  }

  /** The root's managed classes show exactly the mode and theme. */
  predicate InSync(classes: set<string>, mode: string, theme: string) {
    classes * ManagedClasses == ActiveClasses(mode, theme)
  }

  /** Applying a valid mode and theme brings the root in sync with them; once in sync, applying again changes nothing. */
  lemma ApplySyncs(classes: set<string>, mode: string, theme: string)
    requires IsMode(mode) && IsTheme(theme)
    ensures InSync(AppliedClasses(classes, mode, theme), mode, theme)
    ensures InSync(classes, mode, theme) ==> AppliedClasses(classes, mode, theme) == classes
  {
    ThemeClassesDistinct();
    assert ActiveClasses(mode, theme) <= ManagedClasses;
  }

  /** `mode === 'dark' ? 'light' : 'dark'`. */
  function Toggled(mode: string): (r: string)
    ensures IsMode(r)
    ensures IsMode(mode) ==> r != mode
  {
    if mode == Dark then Light else Dark
  }

  /** Toggling a valid mode twice gives it back. */
  lemma ToggledTwice(mode: string)
    requires IsMode(mode)
    ensures Toggled(Toggled(mode)) == mode
  {
  }

  /** `localStorage.getItem(key) || fallback`: a missing or empty entry gives the fallback. */
  function StoredOr(storage: map<string, string>, key: string, fallback: string): (r: string)
    ensures key in storage && storage[key] != "" ==> r == storage[key]
    ensures key !in storage || storage[key] == "" ==> r == fallback
  {
    if key in storage && storage[key] != "" then storage[key] else fallback
  }

  class ThemeToggle {
    var mode: string
    var theme: string
    var showThemes: bool
    /** The class set of the document's root element. */
    var rootClasses: set<string>
    /** The browser's local storage. */
    var storage: map<string, string>

    predicate Valid()
      reads this
    {
      IsMode(mode) && IsTheme(theme)
    }

    predicate Synced()
      reads this
    {
      InSync(rootClasses, mode, theme)
    }

    /** The component's initial state, before its mount effect runs, over the page's current root classes and storage. */
    constructor (classes: set<string>, stored: map<string, string>)
      ensures mode == Dark && theme == Ocean && !showThemes
      ensures rootClasses == classes && storage == stored
      ensures Valid()
    {
      mode := Dark;
      theme := Ocean;
      showThemes := false;
      rootClasses := classes;
      storage := stored;
    }

    /** `applyTheme`: remove the six managed classes, then add the mode and, unless ocean, the theme class. */
    method ApplyTheme(newMode: string, newTheme: string)
      modifies this`rootClasses
      ensures rootClasses == AppliedClasses(old(rootClasses), newMode, newTheme)
    {
      rootClasses := rootClasses - ManagedClasses;
      rootClasses := rootClasses + {newMode};
      if newTheme != Ocean {
        rootClasses := rootClasses + {ThemeClass(newTheme)};
      }
    }

    /**
     * The mount effect: adopt the saved mode and theme when present and
     * non-empty, and apply the saved values, or dark and ocean by default.
     */
    method LoadPreferences()
      modifies this
      ensures storage == old(storage) && showThemes == old(showThemes)
      ensures mode == StoredOr(storage, ModeKey, old(mode))
      ensures theme == StoredOr(storage, ColorKey, old(theme))
      ensures rootClasses == AppliedClasses(old(rootClasses), StoredOr(storage, ModeKey, Dark), StoredOr(storage, ColorKey, Ocean))
      ensures old(mode) == Dark && old(theme) == Ocean ==>
        rootClasses == AppliedClasses(old(rootClasses), mode, theme)
      ensures old(mode) == Dark && old(theme) == Ocean && IsMode(mode) && IsTheme(theme) ==> Valid() && Synced()
    {
      var savedMode := if ModeKey in storage then storage[ModeKey] else "";
      var savedTheme := if ColorKey in storage then storage[ColorKey] else "";
      if savedMode != "" {
        mode := savedMode;
      }
      if savedTheme != "" {
        theme := savedTheme;
      }
      ApplyTheme(if savedMode != "" then savedMode else Dark, if savedTheme != "" then savedTheme else Ocean);
      if IsMode(mode) && IsTheme(theme) {
        ApplySyncs(old(rootClasses), mode, theme);
      }
    }

    /** `toggleMode`: flip the mode, save it under `theme-mode`, and apply it with the current theme. */
    method ToggleMode()
      modifies this
      ensures mode == Toggled(old(mode)) && theme == old(theme) && showThemes == old(showThemes)
      ensures storage == old(storage)[ModeKey := mode]
      ensures rootClasses == AppliedClasses(old(rootClasses), mode, theme)
      ensures IsTheme(theme) ==> Valid() && Synced()
    {
      var newMode := if mode == Dark then Light else Dark;
      mode := newMode;
      storage := storage[ModeKey := newMode];
      ApplyTheme(newMode, theme);
      if IsTheme(theme) {
        ApplySyncs(old(rootClasses), mode, theme);
      }
    }

    /** `selectTheme`: adopt the theme, save it under `theme-color`, apply it, and close the dropdown. */
    method SelectTheme(newTheme: string)
      requires IsTheme(newTheme)
      modifies this
      ensures theme == newTheme && mode == old(mode) && !showThemes
      ensures storage == old(storage)[ColorKey := newTheme]
      ensures rootClasses == AppliedClasses(old(rootClasses), mode, newTheme)
      ensures IsMode(mode) ==> Valid() && Synced()
    {
      theme := newTheme;
      storage := storage[ColorKey := newTheme];
      ApplyTheme(mode, newTheme);
      showThemes := false;
      if IsMode(mode) {
        ApplySyncs(old(rootClasses), mode, theme);
      }
    }

    /** The theme selector button: open or close the dropdown. */
    method ToggleThemeMenu()
      modifies this`showThemes
      ensures showThemes == !old(showThemes)
    {
      showThemes := !showThemes;
    }

    /** A click on the overlay behind the open dropdown closes it. */
    method CloseThemeMenu()
      modifies this`showThemes
      ensures !showThemes
    {
      showThemes := false;
    }
  }

  /**
   * Toggling the mode twice from a valid, synced state gives back the
   * mode, the theme and the root's classes; storage keeps the original mode.
   */
  method ToggleTwice(t: ThemeToggle)
    requires t.Valid() && t.Synced()
    modifies t
    ensures t.mode == old(t.mode) && t.theme == old(t.theme) && t.showThemes == old(t.showThemes)
    ensures t.rootClasses == old(t.rootClasses)
    ensures t.storage == old(t.storage)[ModeKey := t.mode]
  {
    ghost var classes := t.rootClasses;
    t.ToggleMode();
    t.ToggleMode();
    ToggledTwice(old(t.mode));
    LastApplicationWins(classes, Toggled(old(t.mode)), t.theme, t.mode, t.theme);
    ApplySyncs(classes, t.mode, t.theme);
  }
}
