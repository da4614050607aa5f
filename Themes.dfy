/**
 * Theme selection (src/ThemeContext.js) over the three theme tables of
 * src/themes.js. Only a table's `name` is modelled; its colours and fonts
 * are not part of this model.
 */
module Themes {

  datatype Theme = Theme(name: string)

  const WindowsXP: Theme := Theme("Windows XP")
  const Windows95: Theme := Theme("Windows 95")
  const MacOS: Theme := Theme("macOS")

  /**
   * The `switch` in `toggleTheme`: each table is selected by its own name,
   * and every other name falls back to Windows XP.
   */
  function ThemeNamed(name: string): (t: Theme)
    ensures t == WindowsXP || t == Windows95 || t == MacOS
    ensures t.name == name <==> name in {WindowsXP.name, Windows95.name, MacOS.name}
    ensures name !in {Windows95.name, MacOS.name} ==> t == WindowsXP
  {
    match name
    case "Windows XP" => WindowsXP
    case "Windows 95" => Windows95
    case "macOS" => MacOS
    case _ => WindowsXP
  }

  /** Each table is selected by its own name. */
  lemma SelectedByOwnName(t: Theme)
    requires t == WindowsXP || t == Windows95 || t == MacOS
    ensures ThemeNamed(t.name) == t
  {
  }

  /** A name of no table, such as "Old Radio", selects Windows XP. */
  lemma UnknownNameIsXP()
    ensures ThemeNamed("Old Radio") == WindowsXP
    ensures ThemeNamed("") == WindowsXP
  {
  }

  class ThemeProvider {
    var theme: Theme

    constructor()
      ensures theme == Windows95
    {
      theme := Windows95;
    }

    /** `toggleTheme(name)`: the new theme depends on the name only. */
    method ToggleTheme(themeName: string)
      modifies this
      ensures theme == ThemeNamed(themeName)
    {
      theme := ThemeNamed(themeName);
    }
  }

  /** Toggling twice with the same name is toggling once. */
  lemma ToggleIdempotent(name: string)
    ensures ThemeNamed(ThemeNamed(name).name) == ThemeNamed(name)
  {
  }
}
