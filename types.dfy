/** The two records the editor hands to the preview and the exporter: the
    portfolio content and the customization settings.  Strings are Dafny
    strings; the numeric settings are integers, which is what the sliders
    produce. */
module Types {

  datatype Option<T> = None | Some(value: T)

  /** One entry of the project list. */
  datatype Project = Project(title: string, description: string)

  datatype PortfolioData = PortfolioData(
    fullName: string,
    role: string,
    skills: seq<string>,
    projects: seq<Project>,
    email: string,
    github: string,
    linkedin: string)

  /** `layout: 'vertical' | 'grid'` */
  datatype LayoutMode = Vertical | Grid

  /** `heroAlign: 'left' | 'center' | 'right'` */
  datatype HeroAlign = Left | Center | Right

  /** `entranceAnimation: 'none' | 'fade' | 'slideUp' | 'slideLeft' | 'bounce' | 'scale'` */
  datatype Entrance = NoEntrance | Fade | SlideUp | SlideLeft | Bounce | Scale

  /** The font family stays an open string: the exporter and the preview
      both fall back to a default for a key they do not know. */
  datatype Theme = Theme(
    primaryColor: string,
    accentColor: string,
    heroGradient: string,
    borderRadius: int,
    fontSize: int,
    fontFamily: string)

  datatype Layout = Layout(
    layout: LayoutMode,
    heroAlign: HeroAlign,
    sectionSpacing: int,
    contentWidth: int,
    heroHeight: int,
    showSectionDividers: bool,
    compactMode: bool)

  datatype Animations = Animations(
    entranceAnimation: Entrance,
    hoverEffects: bool,
    animationSpeed: int,
    staggerDelay: int,
    parallaxEffect: bool)

  datatype CustomizationData = CustomizationData(
    theme: Theme,
    layout: Layout,
    animations: Animations)

  /** The name an entrance kind has in the source, which is also the
      name of its CSS keyframes. */
  function EntranceName(e: Entrance): (name: string)
    ensures (name == "none") <==> e == NoEntrance
  {
    match e
    case NoEntrance => "none"
    case Fade => "fade"
    case SlideUp => "slideUp"
    case SlideLeft => "slideLeft"
    case Bounce => "bounce"
    case Scale => "scale"
  }

  function HeroAlignName(a: HeroAlign): string
  {
    match a
    case Left => "left"
    case Center => "center"
    case Right => "right"
  }

  /** A slider's range: `min`, `max` and `step`. */
  datatype Slider = Slider(min: int, max: int, step: nat)

  /** The values a slider can produce. */
  predicate OnGrid(v: int, s: Slider)
  {
    s.min <= v <= s.max && s.step > 0 && (v - s.min) % s.step == 0
  }
}
