/**
 * The built-in theme table (`createThemes`) and the colours `applyBrightness` writes:
 * the current theme's colour variables, each passed through `adjustColorBrightness`,
 * with the `dark` theme standing in for a theme name the table does not know.
 */
module Themes {
  import opened Colors

  /** A theme: the four reader colour variables and a display name. */
  datatype Theme = Theme(background: string, page: string, text: string, border: string, name: string)

  const Dark := Theme("#111827", "#1e293b", "#f8fafc", "#111827", "Ночное небо")
  const DarkBlue := Theme("#171717", "#202124", "#f1f5f9", "#171717", "Асфальд")
  const DarkWarm := Theme("#1c1917", "#292524", "#e7e5e4", "#1c1917", "Тёмный кофе")
  const Light := Theme("#f8fafc", "#ffffff", "#1f2937", "#e5e7eb", "Классический")
  const LightWarm := Theme("#7e7e8f", "#c6c6d5", "#202020", "#7e7e8f", "Туман")
  const Sepia := Theme("#f5e6d3", "#fdf6e3", "#644339", "#f5e6d3", "Винтаж")
  const Blue := Theme("#edf2f7", "#e2e8f0", "#2d3748", "#bdc4c8", "Современный UI")
  const Green := Theme("#e6ddd6", "#faf8f2", "#302d27", "#e6e7e0", "Старая книга")

  /** The eight built-in themes, keyed by identifier. */
  const Table: map<string, Theme> := map[
    "dark" := Dark, "dark-blue" := DarkBlue, "dark-warm" := DarkWarm, "light" := Light,
    "light-warm" := LightWarm, "sepia" := Sepia, "blue" := Blue, "green" := Green
  ]

  /** A theme whose four colours are lower-case `#RRGGBB` strings. */
  predicate WellFormed(t: Theme) {
    IsLowerHexColor(t.background) && IsLowerHexColor(t.page) && IsLowerHexColor(t.text) && IsLowerHexColor(t.border)
  }

  /** The CSS custom properties of a theme, in the order `Object.keys` lists them, `name` skipped. */
  function Variables(t: Theme): (vars: seq<(string, string)>)
    ensures |vars| == 4
    ensures forall i, j :: 0 <= i < j < 4 ==> vars[i].0 != vars[j].0
    ensures forall i :: 0 <= i < 4 ==> vars[i].0 != "name"
    ensures [vars[0].1, vars[1].1, vars[2].1, vars[3].1] == [t.background, t.page, t.text, t.border]
  {
    [("--reader-background", t.background), ("--reader-page", t.page),
     ("--reader-text", t.text), ("--reader-border", t.border)]
  }

  /** Every theme of the table is well formed. */
  lemma TableWellFormed()
    ensures forall name :: name in Table ==> WellFormed(Table[name])
  {
    DarkThemesWellFormed();
    LightThemesWellFormed();
    assert forall name :: name in Table ==>
      Table[name] in {Dark, DarkBlue, DarkWarm, Light, LightWarm, Sepia, Blue, Green};
  }

  lemma DarkThemesWellFormed()
    ensures WellFormed(Dark) && WellFormed(DarkBlue) && WellFormed(DarkWarm)
  {
  }

  lemma LightThemesWellFormed()
    ensures WellFormed(Light) && WellFormed(LightWarm) && WellFormed(Sepia) && WellFormed(Blue) && WellFormed(Green)
  {
  }

  /** `this.themes[name] || this.themes.dark`: the theme `applyBrightness` starts from. */
  function EffectiveTheme(name: string): (t: Theme)
    ensures WellFormed(t)
  {
    TableWellFormed();
    if name in Table then Table[name] else Dark
  }

  /** A well-formed theme with every colour passed through `adjustColorBrightness`. */
  function AdjustTheme(t: Theme, brightness: real): (adjusted: Theme)
    requires WellFormed(t) && brightness >= 0.0
    ensures WellFormed(adjusted) && adjusted.name == t.name
    ensures brightness == 1.0 ==> adjusted == t
  {
    var adjusted := Theme(AdjustColorBrightness(t.background, brightness), AdjustColorBrightness(t.page, brightness),
                          AdjustColorBrightness(t.text, brightness), AdjustColorBrightness(t.border, brightness), t.name);
    assert brightness == 1.0 ==> adjusted == t by {
      if brightness == 1.0 {
        AdjustIdentity(t.background);
        AdjustIdentity(t.page);
        AdjustIdentity(t.text);
        AdjustIdentity(t.border);
      }
    }
    adjusted
  }

  /**
   * The declarations `applyBrightness` sets on the document root: the colour variables of
   * the effective theme, adjusted for the brightness.
   */
  function BrightnessStyle(themeName: string, brightness: real): (decls: seq<(string, string)>)
    requires brightness >= 0.0
    ensures |decls| == 4
    ensures forall i :: 0 <= i < 4 ==> IsLowerHexColor(decls[i].1)
    ensures brightness == 1.0 ==> decls == Variables(EffectiveTheme(themeName))
  {
    var t := EffectiveTheme(themeName);
    var adjusted := AdjustTheme(t, brightness);
    VariablesWellFormed(adjusted);
    Variables(adjusted)
  }

  /** The four values of a well-formed theme's variables are lower-case colours. */
  lemma VariablesWellFormed(t: Theme)
    requires WellFormed(t)
    ensures forall i :: 0 <= i < 4 ==> IsLowerHexColor(Variables(t)[i].1)
  {
  }

  /** With a theme name missing from the table the brightness style is the `dark` theme's. */
  lemma UnknownThemeFallsBackToDark(themeName: string, brightness: real)
    requires brightness >= 0.0 && themeName !in Table
    ensures BrightnessStyle(themeName, brightness) == BrightnessStyle("dark", brightness)
  {
    DarkEntry();
    assert EffectiveTheme(themeName) == EffectiveTheme("dark");
  }

  /** The table maps `dark` to the dark theme: the display has exactly one `dark` key. */
  lemma DarkEntry()
    ensures "dark" in Table && Table["dark"] == Dark
  {
    assert "dark"[0] != "blue"[0];
    assert |"dark"| != |"dark-blue"| && |"dark"| != |"dark-warm"| && |"dark"| != |"light"|;
    assert |"dark"| != |"light-warm"| && |"dark"| != |"sepia"| && |"dark"| != |"green"|;
  }

  /** At brightness 1.0 every built-in theme is shown with its table colours unchanged. */
  lemma FullBrightnessKeepsEveryTheme()
    ensures forall name :: name in Table ==> BrightnessStyle(name, 1.0) == Variables(Table[name])
  {
  }
}
