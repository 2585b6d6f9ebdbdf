/** The animation panel: one-field updates, the four animation presets,
    the reset button, the table of entrance kinds behind the summary
    label, and the timing of the three preview boxes. */
module AnimationCustomizer {
  import opened Types
  import opened Text

  /** The keys of the animation record. */
  datatype AnimationField = EntranceField | HoverField | SpeedField | StaggerField | ParallaxField

  datatype AnimationValue = Kind(kind: Entrance) | Flag(b: bool) | Number(n: int)

  function Get(a: Animations, f: AnimationField): AnimationValue
  {
    match f
    case EntranceField => Kind(a.entranceAnimation)
    case HoverField => Flag(a.hoverEffects)
    case SpeedField => Number(a.animationSpeed)
    case StaggerField => Number(a.staggerDelay)
    case ParallaxField => Flag(a.parallaxEffect)
  }

  /** Two settings records that agree on every key are equal. */
  lemma {:induction false} AnimationsByFields(a: Animations, b: Animations)
    requires forall f :: Get(a, f) == Get(b, f)
    ensures a == b
  {
    assert Get(a, EntranceField) == Get(b, EntranceField);
    assert Get(a, HoverField) == Get(b, HoverField);
    assert Get(a, SpeedField) == Get(b, SpeedField);
    assert Get(a, StaggerField) == Get(b, StaggerField);
    assert Get(a, ParallaxField) == Get(b, ParallaxField);
  }

  ghost predicate AgreeExcept(a: Animations, b: Animations, changed: set<AnimationField>)
  {
    forall f :: f !in changed ==> Get(a, f) == Get(b, f)
  }

  /** One call of `updateAnimation(field, value)` from the panel's widgets. */
  datatype AnimationEdit =
    | SetEntrance(kind: Entrance)
    | SetHover(hover: bool)
    | SetSpeed(speed: int)
    | SetStagger(stagger: int)
    | SetParallax(parallax: bool)

  function EditField(e: AnimationEdit): AnimationField
  {
    match e
    case SetEntrance(_) => EntranceField
    case SetHover(_) => HoverField
    case SetSpeed(_) => SpeedField
    case SetStagger(_) => StaggerField
    case SetParallax(_) => ParallaxField
  }

  function EditValue(e: AnimationEdit): AnimationValue
  {
    match e
    case SetEntrance(k) => Kind(k)
    case SetHover(b) => Flag(b)
    case SetSpeed(n) => Number(n)
    case SetStagger(n) => Number(n)
    case SetParallax(b) => Flag(b)
  }

  /** `updateAnimation`: the edited key takes the value, everything else
      is kept. */
  function UpdateAnimation(c: CustomizationData, e: AnimationEdit): (r: CustomizationData)
    ensures Get(r.animations, EditField(e)) == EditValue(e)
    ensures AgreeExcept(r.animations, c.animations, {EditField(e)})
    ensures r.theme == c.theme && r.layout == c.layout
  {
    var a := c.animations;
    c.(animations :=
      match e
      case SetEntrance(k) => a.(entranceAnimation := k)
      case SetHover(b) => a.(hoverEffects := b)
      case SetSpeed(n) => a.(animationSpeed := n)
      case SetStagger(n) => a.(staggerDelay := n)
      case SetParallax(b) => a.(parallaxEffect := b))
  }

  // ---------------------------------------------------------------------
  // Presets

  datatype AnimationPreset = AnimationPreset(
    name: string,
    entranceAnimation: Entrance,
    hoverEffects: bool,
    animationSpeed: int,
    description: string)

  const AnimationPresets: seq<AnimationPreset> := [
    AnimationPreset("Subtle", Fade, true, 300, "Gentle fade-in effects"),
    AnimationPreset("Dynamic", SlideUp, true, 200, "Slide and bounce animations"),
    AnimationPreset("Minimal", NoEntrance, false, 100, "No animations, fast loading"),
    AnimationPreset("Playful", Bounce, true, 400, "Bouncy and fun animations")
  ]

  const PresetFields := {EntranceField, HoverField, SpeedField}

  /** `applyAnimationPreset`: entrance, hover and speed come from the
      preset; stagger, parallax, the theme and the layout are kept. */
  function ApplyAnimationPreset(c: CustomizationData, p: AnimationPreset): (r: CustomizationData)
    ensures r.animations.entranceAnimation == p.entranceAnimation
    ensures r.animations.hoverEffects == p.hoverEffects
    ensures r.animations.animationSpeed == p.animationSpeed
    ensures AgreeExcept(r.animations, c.animations, PresetFields)
    ensures r.theme == c.theme && r.layout == c.layout
  {
    c.(animations := c.animations.(entranceAnimation := p.entranceAnimation,
                                   hoverEffects := p.hoverEffects,
                                   animationSpeed := p.animationSpeed))
  }

  lemma ApplyAnimationPresetIdempotent(c: CustomizationData, p: AnimationPreset)
    ensures ApplyAnimationPreset(ApplyAnimationPreset(c, p), p) == ApplyAnimationPreset(c, p)
  {
    var once := ApplyAnimationPreset(c, p);
    var twice := ApplyAnimationPreset(once, p);
    forall f
      ensures Get(twice.animations, f) == Get(once.animations, f)
    {
    }
    AnimationsByFields(twice.animations, once.animations);
  }

  // ---------------------------------------------------------------------
  // Reset

  const ResetAnimationsValue := Animations(Fade, true, 300, 100, false)

  /** `resetToDefault`: the whole animation record replaced. */
  function ResetAnimations(c: CustomizationData): (r: CustomizationData)
    ensures r.theme == c.theme && r.layout == c.layout
    ensures r.animations == ResetAnimationsValue
  {
    c.(animations := Animations(Fade, true, 300, 100, false))
  }

  lemma ResetAnimationsForgets(c: CustomizationData, a: Animations)
    ensures ResetAnimations(c.(animations := a)) == ResetAnimations(c)
    ensures ResetAnimations(ResetAnimations(c)) == ResetAnimations(c)
  {
  }

  // ---------------------------------------------------------------------
  // Sliders

  const SpeedSlider := Slider(100, 800, 50)
  const StaggerSlider := Slider(0, 300, 25)

  predicate AnimationsOnSliders(a: Animations)
  {
    OnGrid(a.animationSpeed, SpeedSlider) && OnGrid(a.staggerDelay, StaggerSlider)
  }

  predicate EditOnSliders(e: AnimationEdit)
  {
    match e
    case SetSpeed(n) => OnGrid(n, SpeedSlider)
    case SetStagger(n) => OnGrid(n, StaggerSlider)
    case _ => true
  }

  lemma PresetsOnSliders()
    ensures forall p :: p in AnimationPresets ==> OnGrid(p.animationSpeed, SpeedSlider)
  {
    forall p | p in AnimationPresets
      ensures OnGrid(p.animationSpeed, SpeedSlider)
    {
      assert p == AnimationPresets[0] || p == AnimationPresets[1]
          || p == AnimationPresets[2] || p == AnimationPresets[3];
    }
  }

  /** Widget edits, presets and the reset keep speed and stagger on their
      sliders' grids. */
  lemma AnimationOpsStayOnSliders(c: CustomizationData, e: AnimationEdit, p: AnimationPreset)
    requires AnimationsOnSliders(c.animations)
    requires EditOnSliders(e)
    requires p in AnimationPresets
    ensures AnimationsOnSliders(UpdateAnimation(c, e).animations)
    ensures AnimationsOnSliders(ApplyAnimationPreset(c, p).animations)
    ensures AnimationsOnSliders(ResetAnimations(c).animations)
  {
    PresetsOnSliders();
  }

  // ---------------------------------------------------------------------
  // The entrance kinds and the summary label

  datatype AnimationType = AnimationType(value: Entrance, name: string, demo: string)

  const AnimationTypes: seq<AnimationType> := [
    AnimationType(NoEntrance, "None", "—"),
    AnimationType(Fade, "Fade In", "○"),
    AnimationType(SlideUp, "Slide Up", "↑"),
    AnimationType(SlideLeft, "Slide Left", "←"),
    AnimationType(Bounce, "Bounce", "⤴"),
    AnimationType(Scale, "Scale", "⚬")
  ]

  /** `types.find(t => t.value === kind)`: the first entry for `kind`. */
  function Find(types: seq<AnimationType>, kind: Entrance): (r: Option<AnimationType>)
    ensures r.Some? ==> r.value in types && r.value.value == kind
    ensures r.None? ==> forall t :: t in types ==> t.value != kind
  {
    if types == [] then None
    else if types[0].value == kind then Some(types[0])
    else Find(types[1..], kind)
  }

  /** The table lists every entrance kind, so the lookup always succeeds. */
  lemma AnimationTypesComplete(kind: Entrance)
    ensures Find(AnimationTypes, kind).Some?
  {
    var i := match kind
      case NoEntrance => 0 case Fade => 1 case SlideUp => 2
      case SlideLeft => 3 case Bounce => 4 case Scale => 5;
    assert AnimationTypes[i].value == kind;
  }

  /** No entrance kind is listed twice. */
  lemma AnimationTypesDistinct()
    ensures forall i, j :: 0 <= i < j < |AnimationTypes| ==> AnimationTypes[i].value != AnimationTypes[j].value
  {
    var kinds := [NoEntrance, Fade, SlideUp, SlideLeft, Bounce, Scale];
    assert forall i :: 0 <= i < |AnimationTypes| ==> AnimationTypes[i].value == kinds[i];
  }

  /** The line under the preview: `No entrance animation`, or the kind's
      label and the speed.  Were the lookup to fail, `?.label` would print
      `undefined`. */
  function SummaryLabel(a: Animations): (r: string)
  {
    if a.entranceAnimation == NoEntrance then "No entrance animation"
    else
      var name := match Find(AnimationTypes, a.entranceAnimation)
        case Some(t) => t.name
        case None => "undefined";
      name + " animation (" + IntToDecimal(a.animationSpeed) + "ms)"
  }

  /** For every kind other than `none`, the label is the table's label for
      that kind; `undefined` never appears. */
  lemma SummaryLabelUsesTable(a: Animations)
    requires a.entranceAnimation != NoEntrance
    ensures exists t :: t in AnimationTypes && t.value == a.entranceAnimation
              && SummaryLabel(a) == t.name + " animation (" + IntToDecimal(a.animationSpeed) + "ms)"
  {
    AnimationTypesComplete(a.entranceAnimation);
  }

  /** `animationDelay` and `animationDuration` of preview box `i`. */
  function PreviewBoxTiming(a: Animations, i: int): (r: (int, int))
    requires 1 <= i <= 3
  {
    (i * a.staggerDelay, a.animationSpeed)
  }

  /** With slider values the boxes start in order, one stagger apart, all
      within 900 ms, and each runs for the chosen speed. */
  lemma PreviewBoxesStaggered(a: Animations, i: int)
    requires AnimationsOnSliders(a)
    requires 1 <= i < 3
    ensures PreviewBoxTiming(a, i + 1).0 - PreviewBoxTiming(a, i).0 == a.staggerDelay
    ensures 0 <= PreviewBoxTiming(a, i).0 <= PreviewBoxTiming(a, i + 1).0 <= 900
    ensures PreviewBoxTiming(a, i).1 == PreviewBoxTiming(a, i + 1).1 == a.animationSpeed
  {
  }
}
