/** The theme panel: one-field updates, the six colour presets, the reset
    button, the font select and the slider ranges.

    Every handler hands a whole new `CustomizationData` to `onChange`, and
    the page passes React's state setter as `onChange`, so the state after
    a handler is the last payload it emitted.  `Session` models that state
    holder.  `applyColorPreset` calls `updateTheme` three times, and each
    call builds its payload from the same snapshot of the settings, so the
    three payloads overwrite one another. */
module ThemeCustomizer {
  import opened Types
  import ExportCss

  /** The keys of the theme record. */
  datatype ThemeField = PrimaryField | AccentField | GradientField | RadiusField | FontSizeField | FontFamilyField

  datatype ThemeValue = Text(s: string) | Number(n: int)

  function Get(t: Theme, f: ThemeField): ThemeValue
  {
    match f
    case PrimaryField => Text(t.primaryColor)
    case AccentField => Text(t.accentColor)
    case GradientField => Text(t.heroGradient)
    case RadiusField => Number(t.borderRadius)
    case FontSizeField => Number(t.fontSize)
    case FontFamilyField => Text(t.fontFamily)
  }

  /** Two themes that agree on every key are equal. */
  lemma {:induction false} ThemeByFields(a: Theme, b: Theme)
    requires forall f :: Get(a, f) == Get(b, f)
    ensures a == b
  {
    assert Get(a, PrimaryField) == Get(b, PrimaryField);
    assert Get(a, AccentField) == Get(b, AccentField);
    assert Get(a, GradientField) == Get(b, GradientField);
    assert Get(a, RadiusField) == Get(b, RadiusField);
    assert Get(a, FontSizeField) == Get(b, FontSizeField);
    assert Get(a, FontFamilyField) == Get(b, FontFamilyField);
  }

  ghost predicate AgreeExcept(a: Theme, b: Theme, changed: set<ThemeField>)
  {
    forall f :: f !in changed ==> Get(a, f) == Get(b, f)
  }

  /** One call of `updateTheme(field, value)`. */
  datatype ThemeEdit =
    | SetPrimary(primary: string)
    | SetAccent(accent: string)
    | SetGradient(gradient: string)
    | SetRadius(radius: int)
    | SetFontSize(size: int)
    | SetFontFamily(family: string)

  function EditField(e: ThemeEdit): ThemeField
  {
    match e
    case SetPrimary(_) => PrimaryField
    case SetAccent(_) => AccentField
    case SetGradient(_) => GradientField
    case SetRadius(_) => RadiusField
    case SetFontSize(_) => FontSizeField
    case SetFontFamily(_) => FontFamilyField
  }

  function EditValue(e: ThemeEdit): ThemeValue
  {
    match e
    case SetPrimary(s) => Text(s)
    case SetAccent(s) => Text(s)
    case SetGradient(s) => Text(s)
    case SetRadius(n) => Number(n)
    case SetFontSize(n) => Number(n)
    case SetFontFamily(s) => Text(s)
  }

  /** `updateTheme`: the edited key takes the value, everything else is
      kept. */
  function UpdateTheme(c: CustomizationData, e: ThemeEdit): (r: CustomizationData)
    ensures Get(r.theme, EditField(e)) == EditValue(e)
    ensures AgreeExcept(r.theme, c.theme, {EditField(e)})
    ensures r.layout == c.layout && r.animations == c.animations
  {
    var t := c.theme;
    c.(theme :=
      match e
      case SetPrimary(s) => t.(primaryColor := s)
      case SetAccent(s) => t.(accentColor := s)
      case SetGradient(s) => t.(heroGradient := s)
      case SetRadius(n) => t.(borderRadius := n)
      case SetFontSize(n) => t.(fontSize := n)
      case SetFontFamily(s) => t.(fontFamily := s))
  }

  // ---------------------------------------------------------------------
  // Colour presets

  datatype ColorPreset = ColorPreset(name: string, primary: string, accent: string, hero: string)

  const ColorPresets: seq<ColorPreset> := [
    ColorPreset("Professional Blue", "230 60% 25%", "225 75% 60%",
                "linear-gradient(135deg, hsl(225 75% 60%) 0%, hsl(250 65% 65%) 100%)"),
    ColorPreset("Vibrant Purple", "270 60% 35%", "285 75% 65%",
                "linear-gradient(135deg, hsl(285 75% 65%) 0%, hsl(300 65% 70%) 100%)"),
    ColorPreset("Emerald Green", "160 60% 30%", "160 75% 55%",
                "linear-gradient(135deg, hsl(160 75% 55%) 0%, hsl(175 65% 60%) 100%)"),
    ColorPreset("Sunset Orange", "25 60% 35%", "35 75% 60%",
                "linear-gradient(135deg, hsl(35 75% 60%) 0%, hsl(20 65% 65%) 100%)"),
    ColorPreset("Rose Pink", "330 60% 35%", "340 75% 65%",
                "linear-gradient(135deg, hsl(340 75% 65%) 0%, hsl(355 65% 70%) 100%)"),
    ColorPreset("Tech Teal", "185 60% 30%", "185 75% 55%",
                "linear-gradient(135deg, hsl(185 75% 55%) 0%, hsl(200 65% 60%) 100%)")
  ]

  /** The three payloads `applyColorPreset` emits, in order, each built by
      `updateTheme` from the same snapshot `c`. */
  function ColorPresetPayloads(c: CustomizationData, p: ColorPreset): (r: seq<CustomizationData>)
    ensures |r| == 3
  {
    [UpdateTheme(c, SetPrimary(p.primary)), UpdateTheme(c, SetAccent(p.accent)),
     UpdateTheme(c, SetGradient(p.hero))]
  }

  /** Each payload differs from the snapshot in one key only: the primary
      colour, then the accent, then the gradient. */
  lemma PayloadsChangeOneKeyEach(c: CustomizationData, p: ColorPreset)
    ensures AgreeExcept(ColorPresetPayloads(c, p)[0].theme, c.theme, {PrimaryField})
    ensures AgreeExcept(ColorPresetPayloads(c, p)[1].theme, c.theme, {AccentField})
    ensures AgreeExcept(ColorPresetPayloads(c, p)[2].theme, c.theme, {GradientField})
    ensures ColorPresetPayloads(c, p)[0].theme.primaryColor == p.primary
    ensures ColorPresetPayloads(c, p)[1].theme.accentColor == p.accent
    ensures ColorPresetPayloads(c, p)[2].theme.heroGradient == p.hero
  {
  }

  /** When the snapshot differs from the preset in all three colours, no
      payload carries all three of them. */
  lemma NoPayloadCarriesPreset(c: CustomizationData, p: ColorPreset, i: int)
    requires c.theme.primaryColor != p.primary && c.theme.accentColor != p.accent
    requires c.theme.heroGradient != p.hero
    requires 0 <= i < 3
    ensures !(ColorPresetPayloads(c, p)[i].theme.primaryColor == p.primary
              && ColorPresetPayloads(c, p)[i].theme.accentColor == p.accent
              && ColorPresetPayloads(c, p)[i].theme.heroGradient == p.hero)
  {
    PayloadsChangeOneKeyEach(c, p);
    var t := ColorPresetPayloads(c, p)[i].theme;
    if i == 0 {
      assert Get(t, AccentField) == Get(c.theme, AccentField);
    } else {
      assert Get(t, PrimaryField) == Get(c.theme, PrimaryField);
    }
  }

  /** What the preset buttons evidently mean to do: all three colours of the
      preset in one update, everything else kept. */
  function ColorPresetIntended(c: CustomizationData, p: ColorPreset): (r: CustomizationData)
    ensures r.theme.primaryColor == p.primary && r.theme.accentColor == p.accent
    ensures r.theme.heroGradient == p.hero
    ensures AgreeExcept(r.theme, c.theme, {PrimaryField, AccentField, GradientField})
    ensures r.layout == c.layout && r.animations == c.animations
  {
    c.(theme := c.theme.(primaryColor := p.primary, accentColor := p.accent, heroGradient := p.hero))
  }

  /** The intended update applies the three edits one after another, each
      to the result of the previous one. */
  lemma ColorPresetIntendedIsChained(c: CustomizationData, p: ColorPreset)
    ensures ColorPresetIntended(c, p)
            == UpdateTheme(UpdateTheme(UpdateTheme(c, SetPrimary(p.primary)), SetAccent(p.accent)),
                           SetGradient(p.hero))
  {
    var a := ColorPresetIntended(c, p);
    var b := UpdateTheme(UpdateTheme(UpdateTheme(c, SetPrimary(p.primary)), SetAccent(p.accent)),
                         SetGradient(p.hero));
    forall f
      ensures Get(a.theme, f) == Get(b.theme, f)
    {
    }
    ThemeByFields(a.theme, b.theme);
  }

  /** The settings state of the page, which every `onChange` call replaces. */
  class Session {
    var current: CustomizationData
    /** Every payload handed to `onChange`, oldest first. */
    var emitted: seq<CustomizationData>

    constructor (initial: CustomizationData)
      ensures current == initial && emitted == []
    {
      current := initial;
      emitted := [];
    }

    /** `onChange`, which is React's state setter: the payload becomes the
        state. */
    method OnChange(next: CustomizationData)
      modifies this
      ensures current == next
      ensures emitted == old(emitted) + [next]
    {
      current := next;
      emitted := emitted + [next];
    }

    /** `applyColorPreset` as written: three `updateTheme` calls over one
        snapshot.  Only the last payload survives, so the state keeps its
        old primary and accent colours and takes only the gradient. */
    method ApplyColorPreset(p: ColorPreset)
      modifies this
      ensures emitted == old(emitted) + ColorPresetPayloads(old(current), p)
      ensures current == UpdateTheme(old(current), SetGradient(p.hero))
      ensures current.theme.primaryColor == old(current).theme.primaryColor
      ensures current.theme.accentColor == old(current).theme.accentColor
    {
      var snapshot := current;
      OnChange(UpdateTheme(snapshot, SetPrimary(p.primary)));
      OnChange(UpdateTheme(snapshot, SetAccent(p.accent)));
      OnChange(UpdateTheme(snapshot, SetGradient(p.hero)));
    }

    /** The corrected handler: one payload with all three colours. */
    method ApplyColorPresetIntended(p: ColorPreset)
      modifies this
      ensures emitted == old(emitted) + [ColorPresetIntended(old(current), p)]
      ensures current == ColorPresetIntended(old(current), p)
    {
      OnChange(ColorPresetIntended(current, p));
    }
  }

  /** From the reset theme, the "Vibrant Purple" preset as written leaves
      the primary colour at `230 60% 25%` instead of `270 60% 35%`, while the
      corrected handler sets it. */
  lemma ColorPresetLosesPrimary(c: CustomizationData)
    requires c.theme == ResetThemeValue
    ensures ColorPresetPayloads(c, ColorPresets[1])[2].theme.primaryColor == "230 60% 25%"
    ensures ColorPresets[1].primary == "270 60% 35%"
    ensures ColorPresetIntended(c, ColorPresets[1]).theme.primaryColor == "270 60% 35%"
  {
  }

  // ---------------------------------------------------------------------
  // Reset

  const ResetThemeValue := Theme(
    "230 60% 25%", "225 75% 60%",
    "linear-gradient(135deg, hsl(225 75% 60%) 0%, hsl(250 65% 65%) 100%)",
    12, 16, "inter")

  /** `resetToDefault`: the whole theme replaced. */
  function ResetTheme(c: CustomizationData): (r: CustomizationData)
    ensures r.layout == c.layout && r.animations == c.animations
    ensures r.theme == ResetThemeValue
  {
    c.(theme := Theme("230 60% 25%", "225 75% 60%",
                      "linear-gradient(135deg, hsl(225 75% 60%) 0%, hsl(250 65% 65%) 100%)",
                      12, 16, "inter"))
  }

  lemma ResetThemeForgets(c: CustomizationData, t: Theme)
    ensures ResetTheme(c.(theme := t)) == ResetTheme(c)
    ensures ResetTheme(ResetTheme(c)) == ResetTheme(c)
  {
  }

  /** The reset colours are those of the first preset. */
  lemma ResetIsFirstPreset()
    ensures ResetThemeValue.primaryColor == ColorPresets[0].primary
    ensures ResetThemeValue.accentColor == ColorPresets[0].accent
    ensures ResetThemeValue.heroGradient == ColorPresets[0].hero
  {
  }

  // ---------------------------------------------------------------------
  // Font select and sliders

  /** The `value`s of the font select. */
  const FontOptions := ["inter", "system", "serif", "mono"]

  /** The select offers exactly the keys of the stylesheet's font table, so
      a font chosen in the panel never falls back. */
  lemma FontOptionsAreTableKeys()
    ensures forall k :: k in FontOptions <==> k in ExportCss.FontTable
    ensures forall k :: k in FontOptions ==> ExportCss.FontStack(k) == ExportCss.FontTable[k]
  {
    ExportCss.FontTableKeys();
  }

  const FontSizeSlider := Slider(12, 20, 1)
  const RadiusSlider := Slider(0, 24, 2)

  predicate ThemeOnSliders(t: Theme)
  {
    OnGrid(t.fontSize, FontSizeSlider) && OnGrid(t.borderRadius, RadiusSlider)
  }

  predicate EditOnWidgets(e: ThemeEdit)
  {
    match e
    case SetFontSize(n) => OnGrid(n, FontSizeSlider)
    case SetRadius(n) => OnGrid(n, RadiusSlider)
    case _ => true
  }

  /** A slider font size is an integer from 12 to 20, a slider radius an
      even number from 0 to 24. */
  lemma SliderValues(t: Theme)
    requires ThemeOnSliders(t)
    ensures 12 <= t.fontSize <= 20
    ensures 0 <= t.borderRadius <= 24 && t.borderRadius % 2 == 0
  {
  }

  /** Widget edits, presets and the reset keep both numeric keys on their
      sliders' grids. */
  lemma ThemeOpsStayOnSliders(c: CustomizationData, e: ThemeEdit, p: ColorPreset)
    requires ThemeOnSliders(c.theme)
    requires EditOnWidgets(e)
    ensures ThemeOnSliders(UpdateTheme(c, e).theme)
    ensures forall i :: 0 <= i < 3 ==> ThemeOnSliders(ColorPresetPayloads(c, p)[i].theme)
    ensures ThemeOnSliders(ColorPresetIntended(c, p).theme)
    ensures ThemeOnSliders(ResetTheme(c).theme)
  {
  }
}
