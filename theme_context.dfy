/** The app's light and dark themes and the provider that holds the name of
    the active one, restores it from storage when the app starts and
    flips it on request. */
module ThemeContext {
  import opened Optional

  /** The named colours of a theme. */
  datatype Colors = Colors(background: string, surface: string, surfaceAlt: string,
                           border: string, text: string, textMuted: string,
                           textLight: string, primary: string, secondary: string)

  datatype Theme = Theme(name: string, colors: Colors, gradient: seq<string>)

  const LightTheme: Theme :=
    Theme("light",
          Colors("#f9fafb", "#ffffff", "#f3f4f6", "#e5e7eb", "#111827", "#6b7280",
                 "#9ca3af", "#4c669f", "#3b5998"),
          ["#4c669f", "#3b5998"])

  const DarkTheme: Theme :=
    Theme("dark",
          Colors("#0D1117", "#161B22", "#1F242C", "#30363D", "#E6EDF3", "#9BA3B4",
                 "#7D8694", "#1f6feb", "#58A6FF"),
          ["#1f6feb", "#58A6FF"])

  /** The storage key of the chosen theme's name. */
  const UserThemeKey: string := "@user-theme"

  /** The name `toggleTheme` switches to. */
  function Toggled(name: string): (r: string)
    ensures r == "light" || r == "dark"
    ensures r == "dark" <==> name == "light"
  {
    if name == "light" then "dark" else "light"
  }

  /** The theme shown for a name: the light one for "light" and the dark
      one for every other name. */
  function ThemeFor(name: string): (t: Theme)
    ensures t == LightTheme <==> name == "light"
    ensures t == DarkTheme <==> name != "light"
  {
    if name == "light" then LightTheme else DarkTheme
  }

  /** The name after the stored preference `saved` has been read: it
      replaces `current` only when it is a non-empty string (`null` is
      None). */
  function Restored(current: string, saved: Option<string>): (r: string)
    ensures saved.Some? && saved.value != "" ==> r == saved.value
    ensures saved.None? || saved.value == "" ==> r == current
  {
    if saved.Some? && saved.value != "" then saved.value else current
  }

  /** Toggling twice from either of the two theme names returns to it. */
  lemma ToggleTwice(name: string)
    requires name == "light" || name == "dark"
    ensures Toggled(Toggled(name)) == name
    ensures Toggled(name) != name
  {
  }

  /** Any other name (one read back from storage) toggles to "light" and
      a second toggle gives "dark", so two toggles do not return to it. */
  lemma ToggleTwiceOther(name: string)
    requires name != "light" && name != "dark"
    ensures Toggled(name) == "light" && Toggled(Toggled(name)) == "dark"
  {
  }

  /** The shown theme carries the provider's name exactly when that name is
      one of the two theme names. */
  lemma ThemeNameMatches(name: string)
    ensures ThemeFor(name).name == name <==> name == "light" || name == "dark"
  {
  }

  /** What a toggle writes is what the next start restores. */
  lemma ToggleRestored(name: string, start: string)
    ensures Restored(start, Some(Toggled(name))) == Toggled(name)
  {
  }

  /** Holds `themeName` and the value stored under `@user-theme`. */
  class ThemeProvider {
    var themeName: string
    var stored: Option<string>

    /** After a toggle the name is one of the two theme names and the stored
        preference is that name. */
    predicate Settled()
      reads this
    {
      (themeName == "light" || themeName == "dark") && stored == Some(themeName)
    }

    /** A provider starts with "light", whatever is stored. */
    constructor(stored: Option<string>)
      ensures themeName == "light" && this.stored == stored
    {
      themeName := "light";
      this.stored := stored;
    }

    /** The effect's read of the stored preference, once it resolves. */
    method LoadSaved()
      modifies this
      ensures themeName == Restored(old(themeName), stored)
      ensures stored == old(stored)
    {
      var savedTheme := stored;
      if savedTheme.Some? && savedTheme.value != "" {
        themeName := savedTheme.value;
      }
    }

    /** `toggleTheme`: switches the name and stores the new one. */
    method ToggleTheme()
      modifies this
      ensures themeName == Toggled(old(themeName))
      ensures stored == Some(themeName)
      ensures Settled()
    {
      var newTheme := Toggled(themeName);
      themeName := newTheme;
      stored := Some(newTheme);
    }

    /** The theme the provider passes down. */
    function CurrentTheme(): (t: Theme)
      reads this
      ensures t == LightTheme <==> themeName == "light"
    {
      ThemeFor(themeName)
    }
  }
}
