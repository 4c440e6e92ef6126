/** The theme indicator (components/ThemeIndicator.tsx): a read-only badge that shows the
    appearance actually in effect. It reads three next-themes values, each a string that may
    be undefined: `theme` (the user's choice), `resolvedTheme` (the choice with "system"
    resolved) and `systemTheme` (the operating system's preference). */
module ThemeIndicator {
  import opened Wrappers
  import ThemeToggle

  /** `resolvedTheme || theme`. */
  function CurrentTheme(resolvedTheme: Option<string>, theme: Option<string>): (current: Option<string>)
    ensures Truthy(resolvedTheme) ==> current == resolvedTheme
    ensures !Truthy(resolvedTheme) ==> current == theme
  {
    if Truthy(resolvedTheme) then resolvedTheme else theme
  }

  /** `currentTheme === 'system' ? systemTheme : currentTheme`. */
  function DisplayTheme(current: Option<string>, systemTheme: Option<string>): (display: Option<string>)
    ensures current == Some("system") ==> display == systemTheme
    ensures current != Some("system") ==> display == current
  {
    if current == Some("system") then systemTheme else current
  }

  /** The theme the indicator shows for the three next-themes values. */
  function Shown(theme: Option<string>, resolvedTheme: Option<string>, systemTheme: Option<string>): (shown: Option<string>)
    // a truthy resolution wins, unless it is "system" itself
    ensures Truthy(resolvedTheme) && resolvedTheme != Some("system") ==> shown == resolvedTheme
    // without one the choice shows, unless it is "system"
    ensures !Truthy(resolvedTheme) && theme != Some("system") ==> shown == theme
    // a "system" that survives to display is replaced by the operating system's theme
    ensures resolvedTheme == Some("system") || (!Truthy(resolvedTheme) && theme == Some("system")) ==> shown == systemTheme
    ensures shown in {theme, resolvedTheme, systemTheme}
  {
    DisplayTheme(CurrentTheme(resolvedTheme, theme), systemTheme)
  }

  /** The indicator's `getThemeText`: the same switch as the toggle's, applied to the shown
      theme. */
  function IndicatorText(theme: Option<string>, resolvedTheme: Option<string>, systemTheme: Option<string>): (text: string)
    ensures text == "Light" <==> Shown(theme, resolvedTheme, systemTheme) == Some("light")
    ensures text == "Dark" <==> Shown(theme, resolvedTheme, systemTheme) == Some("dark")
    ensures text == "System" <==> Shown(theme, resolvedTheme, systemTheme) !in {Some("light"), Some("dark")}
  {
    ThemeToggle.ThemeText(Shown(theme, resolvedTheme, systemTheme))
  }

  /** The indicator's `getThemeIcon`. */
  function IndicatorIcon(theme: Option<string>, resolvedTheme: Option<string>, systemTheme: Option<string>): (icon: ThemeToggle.Icon)
    ensures icon == ThemeToggle.Sun <==> Shown(theme, resolvedTheme, systemTheme) == Some("light")
    ensures icon == ThemeToggle.Moon <==> Shown(theme, resolvedTheme, systemTheme) == Some("dark")
  {
    ThemeToggle.ThemeIcon(Shown(theme, resolvedTheme, systemTheme))
  }

  /** The indicator's icon and label make the same three-way split. */
  lemma IndicatorIconMatchesText(theme: Option<string>, resolvedTheme: Option<string>, systemTheme: Option<string>)
    ensures IndicatorIcon(theme, resolvedTheme, systemTheme)
            == ThemeToggle.LabelIcon(IndicatorText(theme, resolvedTheme, systemTheme))
  {
    ThemeToggle.IconMatchesText(Shown(theme, resolvedTheme, systemTheme));
  }

  /** A resolved theme other than "system" decides the badge, whatever the choice and the
      operating system say. */
  lemma ResolvedThemeDecides(theme: Option<string>, resolvedTheme: Option<string>, systemTheme: Option<string>)
    requires Truthy(resolvedTheme) && resolvedTheme != Some("system")
    ensures IndicatorText(theme, resolvedTheme, systemTheme) == ThemeToggle.ThemeText(resolvedTheme)
  {
  }

  /** Before the theme is resolved, a "system" choice shows the operating system's
      preference. */
  lemma UnresolvedSystemShowsSystemTheme(resolvedTheme: Option<string>, systemTheme: Option<string>)
    requires !Truthy(resolvedTheme)
    ensures IndicatorText(Some("system"), resolvedTheme, systemTheme) == ThemeToggle.ThemeText(systemTheme)
  {
  }

  /** The badge shows the appearance where the toggle shows the choice: with "system" chosen
      and resolved to light or dark, the toggle reads "System" while the indicator reads the
      resolved appearance, whatever the operating system reports. */
  lemma IndicatorAndToggleDiffer(resolvedTheme: Option<string>, systemTheme: Option<string>)
    requires resolvedTheme == Some("light") || resolvedTheme == Some("dark")
    ensures ThemeToggle.ThemeText(Some("system")) == "System"
    ensures IndicatorText(Some("system"), resolvedTheme, systemTheme) == ThemeToggle.ThemeText(resolvedTheme)
    ensures IndicatorText(Some("system"), resolvedTheme, systemTheme) != ThemeToggle.ThemeText(Some("system"))
  {
  }

  /** When nothing resolves to light or dark, the badge falls back to "System" with the
      desktop icon. */
  lemma UnknownThemeShowsSystem(theme: Option<string>, resolvedTheme: Option<string>, systemTheme: Option<string>)
    requires !Truthy(resolvedTheme) && theme.None?
    ensures IndicatorText(theme, resolvedTheme, systemTheme) == "System"
    ensures IndicatorIcon(theme, resolvedTheme, systemTheme) == ThemeToggle.Desktop
  {
  }
}
