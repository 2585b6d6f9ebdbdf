/** The layout panel: one-field updates, the four layout presets, the
    reset button, and the slider ranges its numeric fields come from. */
module LayoutCustomizer {
  import opened Types

  /** The keys of the layout record. */
  datatype LayoutField =
    | ModeField | AlignField | SpacingField | WidthField
    | HeroHeightField | DividersField | CompactField

  /** A value stored in one of those keys. */
  datatype LayoutValue = ModeValue(mode: LayoutMode) | AlignValue(align: HeroAlign) | Number(n: int) | Flag(b: bool)

  function Get(l: Layout, f: LayoutField): LayoutValue
  {
    match f
    case ModeField => ModeValue(l.layout)
    case AlignField => AlignValue(l.heroAlign)
    case SpacingField => Number(l.sectionSpacing)
    case WidthField => Number(l.contentWidth)
    case HeroHeightField => Number(l.heroHeight)
    case DividersField => Flag(l.showSectionDividers)
    case CompactField => Flag(l.compactMode)
  }

  /** Two layouts that agree on every key are the same layout. */
  lemma {:induction false} LayoutByFields(a: Layout, b: Layout)
    requires forall f :: Get(a, f) == Get(b, f)
    ensures a == b
  {
    assert Get(a, ModeField) == Get(b, ModeField);
    assert Get(a, AlignField) == Get(b, AlignField);
    assert Get(a, SpacingField) == Get(b, SpacingField);
    assert Get(a, WidthField) == Get(b, WidthField);
    assert Get(a, HeroHeightField) == Get(b, HeroHeightField);
    assert Get(a, DividersField) == Get(b, DividersField);
    assert Get(a, CompactField) == Get(b, CompactField);
  }

  /** `a` and `b` agree on every key outside `changed`. */
  ghost predicate AgreeExcept(a: Layout, b: Layout, changed: set<LayoutField>)
  {
    forall f :: f !in changed ==> Get(a, f) == Get(b, f)
  }

  /** One call of `updateLayout(field, value)`, as the panel's widgets make
      it: each widget writes a value of its key's type. */
  datatype LayoutEdit =
    | SetMode(mode: LayoutMode)
    | SetAlign(align: HeroAlign)
    | SetSpacing(spacing: int)
    | SetWidth(width: int)
    | SetHeroHeight(height: int)
    | SetDividers(dividers: bool)
    | SetCompact(compact: bool)

  function EditField(e: LayoutEdit): LayoutField
  {
    match e
    case SetMode(_) => ModeField
    case SetAlign(_) => AlignField
    case SetSpacing(_) => SpacingField
    case SetWidth(_) => WidthField
    case SetHeroHeight(_) => HeroHeightField
    case SetDividers(_) => DividersField
    case SetCompact(_) => CompactField
  }

  function EditValue(e: LayoutEdit): LayoutValue
  {
    match e
    case SetMode(m) => ModeValue(m)
    case SetAlign(a) => AlignValue(a)
    case SetSpacing(n) => Number(n)
    case SetWidth(n) => Number(n)
    case SetHeroHeight(n) => Number(n)
    case SetDividers(b) => Flag(b)
    case SetCompact(b) => Flag(b)
  }

  /** `updateLayout`: the edited key takes the new value; every other layout
      key, the theme and the animations stay as they were. */
  function UpdateLayout(c: CustomizationData, e: LayoutEdit): (r: CustomizationData)
    ensures Get(r.layout, EditField(e)) == EditValue(e)
    ensures AgreeExcept(r.layout, c.layout, {EditField(e)})
    ensures r.theme == c.theme && r.animations == c.animations
  {
    var l := c.layout;
    c.(layout :=
      match e
      case SetMode(m) => l.(layout := m)
      case SetAlign(a) => l.(heroAlign := a)
      case SetSpacing(n) => l.(sectionSpacing := n)
      case SetWidth(n) => l.(contentWidth := n)
      case SetHeroHeight(n) => l.(heroHeight := n)
      case SetDividers(b) => l.(showSectionDividers := b)
      case SetCompact(b) => l.(compactMode := b))
  }

  /** Repeating an edit changes nothing more. */
  lemma UpdateLayoutIdempotent(c: CustomizationData, e: LayoutEdit)
    ensures UpdateLayout(UpdateLayout(c, e), e) == UpdateLayout(c, e)
  {
    var once := UpdateLayout(c, e);
    var twice := UpdateLayout(once, e);
    forall f
      ensures Get(twice.layout, f) == Get(once.layout, f)
    {
    }
    LayoutByFields(twice.layout, once.layout);
  }

  // ---------------------------------------------------------------------
  // Presets

  datatype LayoutPreset = LayoutPreset(
    name: string,
    layout: LayoutMode,
    heroAlign: HeroAlign,
    sectionSpacing: int,
    contentWidth: int,
    description: string)

  const LayoutPresets: seq<LayoutPreset> := [
    LayoutPreset("Classic", Vertical, Center, 48, 1200, "Traditional vertical layout"),
    LayoutPreset("Modern", Grid, Left, 32, 1400, "Grid-based modern design"),
    LayoutPreset("Compact", Vertical, Center, 24, 800, "Tight spacing, focused content"),
    LayoutPreset("Spacious", Vertical, Center, 64, 1600, "Generous whitespace")
  ]

  /** The four keys a preset writes. */
  const PresetFields := {ModeField, AlignField, SpacingField, WidthField}

  /** `applyLayoutPreset`: the preset's mode, alignment, spacing and width
      replace the current ones; hero height, dividers, compact mode, the
      theme and the animations are kept. */
  function ApplyLayoutPreset(c: CustomizationData, p: LayoutPreset): (r: CustomizationData)
    ensures r.layout.layout == p.layout && r.layout.heroAlign == p.heroAlign
    ensures r.layout.sectionSpacing == p.sectionSpacing && r.layout.contentWidth == p.contentWidth
    ensures AgreeExcept(r.layout, c.layout, PresetFields)
    ensures r.theme == c.theme && r.animations == c.animations
  {
    c.(layout := c.layout.(layout := p.layout, heroAlign := p.heroAlign,
                           sectionSpacing := p.sectionSpacing, contentWidth := p.contentWidth))
  }

  lemma ApplyLayoutPresetIdempotent(c: CustomizationData, p: LayoutPreset)
    ensures ApplyLayoutPreset(ApplyLayoutPreset(c, p), p) == ApplyLayoutPreset(c, p)
  {
    var once := ApplyLayoutPreset(c, p);
    var twice := ApplyLayoutPreset(once, p);
    forall f
      ensures Get(twice.layout, f) == Get(once.layout, f)
    {
    }
    LayoutByFields(twice.layout, once.layout);
  }

  /** Applying one preset after another is the same as applying only the
      second. */
  lemma ApplyLayoutPresetLastWins(c: CustomizationData, p: LayoutPreset, q: LayoutPreset)
    ensures ApplyLayoutPreset(ApplyLayoutPreset(c, p), q) == ApplyLayoutPreset(c, q)
  {
    var a := ApplyLayoutPreset(ApplyLayoutPreset(c, p), q);
    var b := ApplyLayoutPreset(c, q);
    forall f
      ensures Get(a.layout, f) == Get(b.layout, f)
    {
    }
    LayoutByFields(a.layout, b.layout);
  }

  // ---------------------------------------------------------------------
  // Reset

  const ResetLayoutValue := Layout(Vertical, Center, 48, 1200, 400, true, false)

  /** `resetToDefault`: the whole layout replaced by fixed settings. */
  function ResetLayout(c: CustomizationData): (r: CustomizationData)
    ensures r.theme == c.theme && r.animations == c.animations
    ensures r.layout == ResetLayoutValue
  {
    c.(layout := Layout(Vertical, Center, 48, 1200, 400, true, false))
  }

  /** The result does not depend on the layout it started from, and a
      second reset changes nothing. */
  lemma ResetLayoutForgets(c: CustomizationData, l: Layout)
    ensures ResetLayout(c.(layout := l)) == ResetLayout(c)
    ensures ResetLayout(ResetLayout(c)) == ResetLayout(c)
  {
  }

  // ---------------------------------------------------------------------
  // Sliders

  const WidthSlider := Slider(800, 1800, 100)
  const SpacingSlider := Slider(16, 96, 8)
  const HeroHeightSlider := Slider(200, 600, 20)

  /** The numeric layout keys as the sliders can set them. */
  predicate LayoutOnSliders(l: Layout)
  {
    OnGrid(l.contentWidth, WidthSlider) && OnGrid(l.sectionSpacing, SpacingSlider)
    && OnGrid(l.heroHeight, HeroHeightSlider)
  }

  /** What a slider can produce for the key an edit writes. */
  predicate EditOnSliders(e: LayoutEdit)
  {
    match e
    case SetSpacing(n) => OnGrid(n, SpacingSlider)
    case SetWidth(n) => OnGrid(n, WidthSlider)
    case SetHeroHeight(n) => OnGrid(n, HeroHeightSlider)
    case _ => true
  }

  /** Every preset's spacing and width are values the sliders offer. */
  lemma PresetsOnSliders()
    ensures forall p :: p in LayoutPresets ==>
              OnGrid(p.sectionSpacing, SpacingSlider) && OnGrid(p.contentWidth, WidthSlider)
  {
    forall p | p in LayoutPresets
      ensures OnGrid(p.sectionSpacing, SpacingSlider) && OnGrid(p.contentWidth, WidthSlider)
    {
      assert p == LayoutPresets[0] || p == LayoutPresets[1] || p == LayoutPresets[2] || p == LayoutPresets[3];
    }
  }

  /** Edits from the widgets, presets and the reset keep every numeric key
      on its slider's grid. */
  lemma LayoutOpsStayOnSliders(c: CustomizationData, e: LayoutEdit, p: LayoutPreset)
    requires LayoutOnSliders(c.layout)
    requires EditOnSliders(e)
    requires p in LayoutPresets
    ensures LayoutOnSliders(UpdateLayout(c, e).layout)
    ensures LayoutOnSliders(ApplyLayoutPreset(c, p).layout)
    ensures LayoutOnSliders(ResetLayout(c).layout)
  {
    PresetsOnSliders();
  }

  /** The preview's gap, `sectionSpacing / 8` pixels. */
  function PreviewGap(sectionSpacing: int): (r: int)
    requires OnGrid(sectionSpacing, SpacingSlider)
    ensures r * 8 == sectionSpacing
    ensures 2 <= r <= 12
  {
    GridMultipleOfEight(sectionSpacing);
    sectionSpacing / 8
  }

  /** Every value of the spacing slider is a multiple of eight, so the
      division leaves no fraction. */
  lemma GridMultipleOfEight(s: int)
    requires OnGrid(s, SpacingSlider)
    ensures s % 8 == 0
  {
    var k := (s - 16) / 8;
    assert s == 8 * (k + 2);
  }

  /** The preview's column template. */
  function PreviewColumns(l: Layout): (r: string)
    ensures r == "repeat(2, 1fr)" <==> l.layout == Grid
  {
    if l.layout == Grid then "repeat(2, 1fr)" else "1fr"
  }
}
