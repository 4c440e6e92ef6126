/** The theme toggle button (components/ThemeToggle.tsx): the label and icon it shows for the
    chosen theme, and the cycle system → light → dark → system it steps through on a click.
    The theme is the `theme` value of next-themes, a string that may be undefined. */
module ThemeToggle {
  import opened Wrappers

  /** The three icons the component draws. */
  datatype Icon = Sun | Moon | Desktop

  /** The themes the toggle itself ever sets. */
  predicate IsCycleTheme(t: string) {
    t == "system" || t == "light" || t == "dark"
  }

  /** `toggleTheme`: the theme a click sets. */
  function NextTheme(theme: Option<string>): (next: string)
    ensures IsCycleTheme(next)
    ensures next == "light" <==> theme == Some("system")
    ensures next == "dark" <==> theme == Some("light")
    ensures next == "system" <==> theme != Some("system") && theme != Some("light")
  {
    if theme == Some("system") then "light"
    else if theme == Some("light") then "dark"
    else "system"
  }

  /** `getThemeText`. */
  function ThemeText(theme: Option<string>): (text: string)
    ensures text == "Light" <==> theme == Some("light")
    ensures text == "Dark" <==> theme == Some("dark")
    ensures text == "System" <==> theme != Some("light") && theme != Some("dark")
  {
    match theme
    case Some("light") => "Light"
    case Some("dark") => "Dark"
    case _ => "System"
  }

  /** `getThemeIcon`. */
  function ThemeIcon(theme: Option<string>): (icon: Icon)
    ensures icon == Sun <==> theme == Some("light")
    ensures icon == Moon <==> theme == Some("dark")
  {
    match theme
    case Some("light") => Sun
    case Some("dark") => Moon
    case _ => Desktop
  }

  /** The icon drawn beside each label. */
  function LabelIcon(text: string): Icon {
    if text == "Light" then Sun else if text == "Dark" then Moon else Desktop
  }

  /** The icon and the label make the same three-way split: every theme gets the icon that
      belongs to its label. */
  lemma IconMatchesText(theme: Option<string>)
    ensures ThemeIcon(theme) == LabelIcon(ThemeText(theme))
  {
  }

  /** Three clicks from any theme of the cycle come back to it. */
  lemma ThreeTogglesCycle(theme: string)
    requires IsCycleTheme(theme)
    ensures NextTheme(Some(NextTheme(Some(NextTheme(Some(theme)))))) == theme
  {
  }

  /** A theme outside the cycle (undefined, or any other string) joins it at "system" after
      one click, and so settles into the cycle. */
  lemma LeavesNoStrayTheme(theme: Option<string>)
    requires theme.None? || !IsCycleTheme(theme.value)
    ensures NextTheme(theme) == "system"
    ensures ThemeText(Some(NextTheme(theme))) == "System"
  {
  }

  /** The theme state next-themes keeps for the page; `setTheme` replaces it. */
  class ThemeStore {
    var theme: Option<string>

    constructor (theme: Option<string>)
      ensures this.theme == theme
    {
      this.theme := theme;
    }

    /** The label the button shows now. */
    function Label(): (text: string)
      reads this
      ensures text == "Light" || text == "Dark" || text == "System"
    {
      ThemeText(theme)
    }

    /** A click on the button. */
    method Toggle()
      modifies this
      ensures theme == Some(NextTheme(old(theme)))
      ensures IsCycleTheme(theme.value)
    {
      if theme == Some("system") {
        theme := Some("light");
      } else if theme == Some("light") {
        theme := Some("dark");
      } else {
        theme := Some("system");
      }
    }
  }

  /** Clicking three times restores a theme of the cycle, and the label with it. */
  method ToggleThrice(store: ThemeStore)
    requires store.theme.Some? && IsCycleTheme(store.theme.value)
    modifies store
    ensures store.theme == old(store.theme)
    ensures store.Label() == old(store.Label())
  {
    store.Toggle();
    store.Toggle();
    store.Toggle();
    ThreeTogglesCycle(old(store.theme).value);
  }
}
