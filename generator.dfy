/** The page that holds the two records: their initial values and the
    customization actions its three panels offer. */
module Generator {
  import opened Types
  import Form
  import Exporter
  import Preview
  import ThemeCustomizer
  import LayoutCustomizer
  import AnimationCustomizer

  /** `defaultData`: nothing filled in, and one blank project. */
  const DefaultData := PortfolioData("", "", [], [Project("", "")], "", "", "")

  /** `defaultCustomization` */
  const DefaultCustomization := CustomizationData(
    Theme("230 60% 25%", "225 75% 60%",
          "linear-gradient(135deg, hsl(225 75% 60%) 0%, hsl(250 65% 65%) 100%)",
          12, 16, "inter"),
    Layout(Vertical, Center, 48, 1200, 400, true, false),
    Animations(Fade, true, 300, 100, false))

  /** The initial content cannot be downloaded, disables the button, shows
      the preview's placeholder, and satisfies the form's invariant. */
  lemma DefaultDataIsEmpty()
    ensures Exporter.EmptyForExport(DefaultData)
    ensures !Exporter.ButtonEnabled(DefaultData, false)
    ensures !Preview.HasContent(DefaultData)
    ensures Form.FormInvariant(DefaultData)
  {
    Preview.PlaceholderMatchesButton(DefaultData);
  }

  /** Each panel's reset button restores exactly its part of the initial
      settings, so resetting all three panels from any state gives the
      initial settings back. */
  lemma ResetsRestoreDefaults(c: CustomizationData)
    ensures DefaultCustomization.theme == ThemeCustomizer.ResetThemeValue
    ensures DefaultCustomization.layout == LayoutCustomizer.ResetLayoutValue
    ensures DefaultCustomization.animations == AnimationCustomizer.ResetAnimationsValue
    ensures AnimationCustomizer.ResetAnimations(LayoutCustomizer.ResetLayout(ThemeCustomizer.ResetTheme(c)))
            == DefaultCustomization
  {
  }

  /** Every numeric setting on its slider's grid. */
  predicate SettingsOnSliders(c: CustomizationData)
  {
    ThemeCustomizer.ThemeOnSliders(c.theme)
    && LayoutCustomizer.LayoutOnSliders(c.layout)
    && AnimationCustomizer.AnimationsOnSliders(c.animations)
  }

  /** The initial settings are values the sliders offer: font size 16,
      radius 12, spacing 48, width 1200, hero height 400, speed 300 and
      stagger 100. */
  lemma DefaultsOnSliders()
    ensures SettingsOnSliders(DefaultCustomization)
  {
  }

  /** One action in the settings panels. */
  datatype SettingsAction =
    | EditTheme(te: ThemeCustomizer.ThemeEdit)
    | ColorPreset(cp: ThemeCustomizer.ColorPreset)
    | ResetTheme
    | EditLayout(le: LayoutCustomizer.LayoutEdit)
    | LayoutPreset(lp: LayoutCustomizer.LayoutPreset)
    | ResetLayout
    | EditAnimation(ae: AnimationCustomizer.AnimationEdit)
    | AnimationPreset(ap: AnimationCustomizer.AnimationPreset)
    | ResetAnimations

  /** An action a panel can produce: slider values on their grids and
      presets from the panels' tables. */
  predicate FromWidgets(a: SettingsAction)
  {
    match a
    case EditTheme(e) => ThemeCustomizer.EditOnWidgets(e)
    case ColorPreset(_) => true
    case EditLayout(e) => LayoutCustomizer.EditOnSliders(e)
    case LayoutPreset(p) => p in LayoutCustomizer.LayoutPresets
    case EditAnimation(e) => AnimationCustomizer.EditOnSliders(e)
    case AnimationPreset(p) => p in AnimationCustomizer.AnimationPresets
    case _ => true
  }

  /** The actions of the theme panel. */
  predicate ThemeAction(a: SettingsAction)
  {
    a.EditTheme? || a.ColorPreset? || a.ResetTheme?
  }

  /** The actions of the layout panel. */
  predicate LayoutAction(a: SettingsAction)
  {
    a.EditLayout? || a.LayoutPreset? || a.ResetLayout?
  }

  /** The settings after an action, as the page applies the panels'
      updates: each panel changes only its own part of the settings.  A
      colour preset leaves the last of its three updates in place, so of
      the preset only the gradient sticks (see
      `ThemeCustomizer.ColorPresetLosesPrimary`). */
  function Apply(c: CustomizationData, a: SettingsAction): (r: CustomizationData)
    ensures ThemeAction(a) ==> r.layout == c.layout && r.animations == c.animations
    ensures LayoutAction(a) ==> r.theme == c.theme && r.animations == c.animations
    ensures !ThemeAction(a) && !LayoutAction(a) ==> r.theme == c.theme && r.layout == c.layout
    ensures a.ColorPreset? ==> r.theme.heroGradient == a.cp.hero
                               && r.theme.primaryColor == c.theme.primaryColor
                               && r.theme.accentColor == c.theme.accentColor
  {
    match a
    case EditTheme(e) => ThemeCustomizer.UpdateTheme(c, e)
    case ColorPreset(p) =>
      ThemeCustomizer.PayloadsChangeOneKeyEach(c, p);
      ThemeCustomizer.ColorPresetPayloads(c, p)[2]
    case ResetTheme => ThemeCustomizer.ResetTheme(c)
    case EditLayout(e) => LayoutCustomizer.UpdateLayout(c, e)
    case LayoutPreset(p) => LayoutCustomizer.ApplyLayoutPreset(c, p)
    case ResetLayout => LayoutCustomizer.ResetLayout(c)
    case EditAnimation(e) => AnimationCustomizer.UpdateAnimation(c, e)
    case AnimationPreset(p) => AnimationCustomizer.ApplyAnimationPreset(c, p)
    case ResetAnimations => AnimationCustomizer.ResetAnimations(c)
  }

  lemma ApplyStaysOnSliders(c: CustomizationData, a: SettingsAction)
    requires SettingsOnSliders(c) && FromWidgets(a)
    ensures SettingsOnSliders(Apply(c, a))
  {
    match a
    case EditTheme(e) => ThemeCustomizer.ThemeOpsStayOnSliders(c, e, ThemeCustomizer.ColorPresets[0]);
    case ColorPreset(p) => ThemeCustomizer.ThemeOpsStayOnSliders(c, ThemeCustomizer.SetPrimary(""), p);
    case ResetTheme =>
    case EditLayout(e) => LayoutCustomizer.LayoutOpsStayOnSliders(c, e, LayoutCustomizer.LayoutPresets[0]);
    case LayoutPreset(p) => LayoutCustomizer.LayoutOpsStayOnSliders(c, LayoutCustomizer.SetCompact(false), p);
    case ResetLayout =>
    case EditAnimation(e) =>
      AnimationCustomizer.AnimationOpsStayOnSliders(c, e, AnimationCustomizer.AnimationPresets[0]);
    case AnimationPreset(p) => AnimationCustomizer.AnimationOpsStayOnSliders(c, AnimationCustomizer.SetHover(false), p);
    case ResetAnimations =>
  }

  function ApplyAll(c: CustomizationData, acts: seq<SettingsAction>): CustomizationData
    decreases |acts|
  {
    if acts == [] then c else ApplyAll(Apply(c, acts[0]), acts[1..])
  }

  /** Starting from the initial settings, any sequence of panel actions
      leaves every numeric setting on its slider's grid. */
  lemma {:induction false} ActionsStayOnSliders(c: CustomizationData, acts: seq<SettingsAction>)
    requires SettingsOnSliders(c)
    requires forall i :: 0 <= i < |acts| ==> FromWidgets(acts[i])
    ensures SettingsOnSliders(ApplyAll(c, acts))
    decreases |acts|
  {
    if acts != [] {
      ApplyStaysOnSliders(c, acts[0]);
      ActionsStayOnSliders(Apply(c, acts[0]), acts[1..]);
    }
  }

  /** Any sequence of content edits from the initial content keeps the
      form's invariant. */
  lemma ContentSessionValid(edits: seq<Form.Edit>)
    ensures Form.FormInvariant(Form.ApplyEdits(DefaultData, edits))
  {
    DefaultDataIsEmpty();
    Form.ApplyEditsKeepsInvariant(DefaultData, edits);
  }
}
