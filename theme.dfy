/**
 * The theme button (src/components/ThemeToggle.tsx): a click moves the theme along
 * light, dark, system; the icon and label show the current theme. The theme is the
 * string the theme provider holds, so values outside the three are representable.
 */
module Theme {

  datatype Icon = Sun | Moon

  const Light: string := "light"
  const Dark: string := "dark"
  const System: string := "system"

  /** The theme a click sets. */
  function NextTheme(theme: string): string
  {
    if theme == Light then Dark
    else if theme == Dark then System
    else Light
  }

  predicate IsKnownTheme(theme: string)
  {
    theme == Light || theme == Dark || theme == System
  }

  /** `getIcon`: the moon for dark, the sun for everything else. */
  function ThemeIcon(theme: string): (icon: Icon)
    ensures icon == Moon <==> theme == Dark
  {
    if theme == Light then Sun
    else if theme == Dark then Moon
    else Sun
  }

  /** `getLabel`. */
  function ThemeLabel(theme: string): string
  {
    if theme == Light then "Modo claro"
    else if theme == Dark then "Modo oscuro"
    else "Sistema"
  }

  /** Whatever the theme was, after one click it is one of the three. */
  lemma ToggleLandsOnKnownTheme(theme: string)
    ensures IsKnownTheme(NextTheme(theme))
  {
  }

  /** From any of the three themes, three clicks come back to it. */
  lemma ThreeTogglesReturn(theme: string)
    requires IsKnownTheme(theme)
    ensures NextTheme(NextTheme(NextTheme(theme))) == theme
  {
  }

  /** The three themes get three different labels. */
  lemma LabelsDistinct(a: string, b: string)
    requires IsKnownTheme(a) && IsKnownTheme(b)
    ensures ThemeLabel(a) == ThemeLabel(b) <==> a == b
  {
  }

  /** "system", and any value outside the three, shows the sun and "Sistema". */
  lemma OtherThemesShowSystem(theme: string)
    requires theme != Light && theme != Dark
    ensures ThemeIcon(theme) == Sun && ThemeLabel(theme) == "Sistema"
    ensures NextTheme(theme) == Light
  {
  }

  /** The button's state: the current theme. */
  class ThemeToggle {
    var theme: string

    constructor (initial: string)
      ensures theme == initial
    {
      theme := initial;
    }

    /** `toggleTheme`. */
    method Toggle()
      modifies this
      ensures theme == NextTheme(old(theme))
    {
      if theme == Light {
        theme := Dark;
      } else if theme == Dark {
        theme := System;
      } else {
        theme := Light;
      }
    }

    /** What the button shows: its icon and its label (also its title). */
    method Render() returns (icon: Icon, caption: string)
      ensures icon == ThemeIcon(theme) && caption == ThemeLabel(theme)
    {
      icon := ThemeIcon(theme);
      caption := ThemeLabel(theme);
    }
  }
}
