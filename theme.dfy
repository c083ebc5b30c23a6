/** The colour theme (src/contexts/ThemeContext.tsx): a mode that is light, dark or
    "follow the system", the dark flag derived from it, the `themeMode` entry of
    `localStorage`, and the `dark` class on the document body. */
module Theme {
  import opened Common

  datatype ThemeMode = Light | Dark | System

  /** The value written to `localStorage`. */
  function ModeName(m: ThemeMode): string
  {
    match m
    case Light => "light"
    case Dark => "dark"
    case System => "system"
  }

  /** The stored value, when it is one of the three names. */
  function ParseMode(saved: string): (r: Option<ThemeMode>)
    ensures r.Some? <==> saved in {"light", "dark", "system"}
  {
    if saved == "light" then Some(Light)
    else if saved == "dark" then Some(Dark)
    else if saved == "system" then Some(System)
    else None
  }

  /** Reading back what was stored gives the mode that was stored. */
  lemma ParseModeName(m: ThemeMode)
    ensures ParseMode(ModeName(m)) == Some(m)
  {
    match m
    case Light =>
    case Dark => assert "dark" != "light";
    case System => assert "system" != "light" && "system" != "dark";
  }

  /** The initial mode: the stored one when valid, otherwise following the system. */
  function InitialMode(saved: Option<string>): (m: ThemeMode)
    ensures saved.Some? && ParseMode(saved.value).Some? ==> m == ParseMode(saved.value).value
    ensures saved.None? || ParseMode(saved.value).None? ==> m == System
  {
    if saved.Some? && ParseMode(saved.value).Some? then ParseMode(saved.value).value else System
  }

  /** Whether a mode shows dark, given the system preference. */
  function DarkFor(m: ThemeMode, systemDark: bool): (dark: bool)
    ensures m == Light ==> !dark
    ensures m == Dark ==> dark
    ensures m == System ==> dark == systemDark
  {
    match m
    case Light => false
    case Dark => true
    case System => systemDark
  }

  /** The mode toggleTheme switches to. */
  function Toggled(m: ThemeMode, systemDark: bool): (t: ThemeMode)
    ensures t != System
  {
    match m
    case System => if systemDark then Light else Dark
    case Light => Dark
    case Dark => Light
  }

  /** Toggling always flips what is shown, and leaves system mode for an explicit one. */
  lemma ToggleFlipsDark(m: ThemeMode, systemDark: bool)
    ensures DarkFor(Toggled(m, systemDark), systemDark) == !DarkFor(m, systemDark)
    ensures m == System ==> Toggled(m, systemDark) == (if systemDark then Light else Dark)
  {
  }

  /** Toggling twice from an explicit mode comes back to it, whatever the system does
      in between. */
  lemma ToggleTwice(m: ThemeMode, before: bool, after: bool)
    requires m != System
    ensures Toggled(Toggled(m, before), after) == m
  {
  }

  /** The provider's state and the two side effects it owns. */
  class ThemeProvider {
    var themeMode: ThemeMode
    var isDarkMode: bool
    /** `localStorage.getItem('themeMode')` */
    var stored: Option<string>
    /** Whether `document.body` has the class `dark`. */
    var bodyDark: bool

    /** The state after the first render and its class effect. */
    constructor (saved: Option<string>, systemDark: bool)
      ensures themeMode == InitialMode(saved)
      ensures isDarkMode == DarkFor(themeMode, systemDark)
      ensures stored == saved && bodyDark == isDarkMode
    {
      var mode := InitialMode(saved);
      var dark := DarkFor(mode, systemDark);
      themeMode := mode;
      isDarkMode := dark;
      stored := saved;
      bodyDark := dark;
    }

    ghost predicate Synced()
      reads this
    {
      bodyDark == isDarkMode
    }

    /** setThemeMode, followed by the class effect. */
    method SetThemeMode(mode: ThemeMode, systemDark: bool)
      modifies this
      ensures themeMode == mode && stored == Some(ModeName(mode))
      ensures isDarkMode == DarkFor(mode, systemDark)
      ensures Synced()
    {
      themeMode := mode;
      stored := Some(ModeName(mode));
      if mode == System {
        isDarkMode := systemDark;
      } else {
        isDarkMode := mode == Dark;
      }
      bodyDark := isDarkMode;
    }

    /** toggleTheme */
    method ToggleTheme(systemDark: bool)
      modifies this
      ensures themeMode == Toggled(old(themeMode), systemDark) && themeMode != System
      ensures stored == Some(ModeName(themeMode))
      ensures isDarkMode == !DarkFor(old(themeMode), systemDark)
      ensures Synced()
    {
      var newMode;
      if themeMode == System {
        newMode := if systemDark then Light else Dark;
      } else {
        newMode := if themeMode == Light then Dark else Light;
      }
      SetThemeMode(newMode, systemDark);
      ToggleFlipsDark(old(themeMode), systemDark);
    }

    /** The media-query listener: only system mode follows a change of preference. */
    method SystemPreferenceChanged(matches: bool)
      modifies this
      requires Synced()
      ensures themeMode == old(themeMode) && stored == old(stored)
      ensures isDarkMode == if themeMode == System then matches else old(isDarkMode)
      ensures Synced()
    {
      if themeMode == System {
        isDarkMode := matches;
        bodyDark := isDarkMode;
      }
    }
  }
}
