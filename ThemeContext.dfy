/**
 * The app-wide theme: light or dark, the colour palette each selects, the
 * provider that holds the current theme and the value screens read from it.
 */
module ThemeContext {

  datatype Theme = Light | Dark

  /** The two colour palettes (`lightColors`, `darkColors`), taken as whole values. */
  datatype Palette = LightColors | DarkColors

  /** `palettes[theme]`. */
  function PaletteOf(t: Theme): (p: Palette)
    ensures p == LightColors <==> t == Light
  {
    match t
    case Light => LightColors
    case Dark => DarkColors
  }

  /** The updater `toggleTheme` hands to `setTheme`. */
  function Flip(t: Theme): (r: Theme)
    ensures r != t
  {
    if t == Light then Dark else Light
  }

  /** Toggling twice restores the theme. */
  lemma FlipTwice(t: Theme)
    ensures Flip(Flip(t)) == t
  {
  }

  /** What `useTheme` returns: the theme, its colours, and the effect of
      `toggleTheme` on the provider's theme. */
  datatype ContextValue = ContextValue(theme: Theme, colors: Palette, toggleTheme: Theme -> Theme)

  /** The value seen outside any provider: light, the light palette, and a
      toggle that changes nothing. */
  function DefaultContext(): (v: ContextValue)
    ensures v.theme == Light && v.colors == PaletteOf(v.theme)
    ensures forall t: Theme :: v.toggleTheme(t) == t
  {
    ContextValue(Light, LightColors, t => t)
  }

  /** `ThemeProvider`: the one piece of theme state. */
  class ThemeProvider {
    var theme: Theme

    /** The provider starts light. */
    constructor ()
      ensures theme == Light
    {
      theme := Light;
    }

    /** `colors`: the palette of the current theme. */
    function Colors(): (p: Palette)
      reads this
      ensures p == LightColors <==> theme == Light
    {
      PaletteOf(theme)
    }

    /** `toggleTheme`: light becomes dark and dark becomes light. */
    method ToggleTheme()
      modifies this
      ensures theme == Flip(old(theme))
      ensures theme != old(theme)
    {
      theme := if theme == Light then Dark else Light;
    }

    /** The value the provider hands to the screens. */
    function Value(): (v: ContextValue)
      reads this
      ensures v.theme == theme && v.colors == PaletteOf(theme)
      ensures forall t: Theme :: v.toggleTheme(t) != t
    {
      ContextValue(theme, Colors(), Flip)
    }
  }

  /** Two toggles bring the provider back to its theme and its colours. */
  method ToggleTwice(p: ThemeProvider)
    modifies p
    ensures p.theme == old(p.theme) && p.Colors() == old(p.Colors())
  {
    p.ToggleTheme();
    p.ToggleTheme();
  }
}
