/** The live preview's decisions, which repeat the exporter's in a second
    code path: the placeholder gate, which sections show, the entrance
    class, the font family, the section spacing, the heading dividers, the
    hero alignment, the project grid and the stagger delays.  Each is
    defined here from the preview's own expressions; all but the stagger
    delays, which the stylesheet does not have, are then compared with the
    exporter's. */
module Preview {
  import opened Types
  import ExportHtml
  import ExportCss
  import Exporter

  predicate ShowsSkills(d: PortfolioData)
  {
    |d.skills| > 0
  }

  /** `data.projects.some(p => p.title || p.description)` */
  predicate ShowsProjects(d: PortfolioData)
  {
    exists p :: p in d.projects && (p.title != "" || p.description != "")
  }

  predicate ShowsContact(d: PortfolioData)
  {
    d.email != "" || d.github != "" || d.linkedin != ""
  }

  /** The preview's own `hasContent`. */
  predicate HasContent(d: PortfolioData): (r: bool)
    ensures r <==> Exporter.HasContent(d)
  {
    ShowsProjectsAgrees(d);
    d.fullName != "" || d.role != "" || ShowsSkills(d) || ShowsProjects(d) || d.email != ""
  }

  /** The preview's project test is the exporter's. */
  lemma ShowsProjectsAgrees(d: PortfolioData)
    ensures ShowsProjects(d) <==> ExportHtml.AnyNonEmptyProject(d.projects)
  {
    if ShowsProjects(d) {
      var p :| p in d.projects && (p.title != "" || p.description != "");
      var i :| 0 <= i < |d.projects| && d.projects[i] == p;
      assert ExportHtml.NonEmptyProject(d.projects[i]);
    }
    if ExportHtml.AnyNonEmptyProject(d.projects) {
      var i :| 0 <= i < |d.projects| && ExportHtml.NonEmptyProject(d.projects[i]);
      assert d.projects[i] in d.projects;
    }
  }

  /** The placeholder is shown exactly when the download button is
      disabled for want of content: the two `hasContent` tests agree, and
      GitHub and LinkedIn alone count for neither. */
  lemma PlaceholderMatchesButton(d: PortfolioData)
    ensures !HasContent(d) <==> !Exporter.ButtonEnabled(d, false)
    ensures d.fullName == "" && d.role == "" && d.skills == [] && d.email == ""
            && (forall i :: 0 <= i < |d.projects| ==> d.projects[i] == Project("", ""))
            ==> !HasContent(d)
  {
    ShowsProjectsAgrees(d);
  }

  // ---------------------------------------------------------------------
  // Sections

  /** Each section of the preview shows exactly when the exported page has
      that section. */
  lemma SectionsAgree(d: PortfolioData)
    ensures ShowsSkills(d) <==> ExportHtml.SkillsHTML(d.skills) != ""
    ensures ShowsProjects(d) <==> ExportHtml.ProjectsHTML(d.projects) != ""
    ensures ShowsContact(d) <==> ExportHtml.ContactHTML(ExportHtml.ContactLinks(d)) != ""
  {
    ExportHtml.SectionsNonEmpty(d);
    ShowsProjectsAgrees(d);
  }

  /** The preview's card list, `projects.filter(...)`, is the exporter's. */
  function PreviewCards(ps: seq<Project>): (r: seq<Project>)
    ensures r == ExportHtml.ShownProjects(ps)
  {
    if ps == [] then []
    else (if ps[0].title != "" || ps[0].description != "" then [ps[0]] else []) + PreviewCards(ps[1..])
  }

  // ---------------------------------------------------------------------
  // Animation classes and delays

  /** `getAnimationClass(delay)`.  The delay is accepted and never used. */
  function AnimationClass(a: Animations, delay: int): (r: string)
    ensures r == "" <==> a.entranceAnimation == NoEntrance
  {
    match a.entranceAnimation
    case NoEntrance => ""
    case Fade => "animate-fade-in"
    case SlideUp => "animate-slide-up"
    case SlideLeft => "animate-slide-left"
    case Bounce => "animate-bounce-in"
    case Scale => "animate-scale-in"
  }

  /** The hero and the three sections pass delays 0, 100, 200 and 300, and
      all get the same class. */
  lemma AnimationClassIgnoresDelay(a: Animations, d1: int, d2: int)
    ensures AnimationClass(a, d1) == AnimationClass(a, d2)
  {
  }

  /** The preview animates the hero and the sections exactly when the
      stylesheet gives the hero title and the sections an `animation`. */
  lemma AnimationClassAgrees(c: CustomizationData)
    ensures AnimationClass(c.animations, 0) != ""
            <==> exists v :: ExportCss.Decl("animation", v) in ExportCss.SectionRule(c).decls
    ensures AnimationClass(c.animations, 0) != ""
            <==> exists v :: ExportCss.Decl("animation", v) in ExportCss.HeroTitleRule(c).decls
  {
    ExportCss.EntranceAnimation(c);
    if c.animations.entranceAnimation != NoEntrance {
      var v := ExportCss.Keyword(EntranceName(c.animations.entranceAnimation) + " var(--animation-speed) ease-out");
      assert ExportCss.Decl("animation", v) in ExportCss.SectionRule(c).decls;
      assert ExportCss.Decl("animation", v) in ExportCss.HeroTitleRule(c).decls;
    }
  }

  /** Distinct entrance kinds get distinct classes. */
  lemma AnimationClassInjective(a: Animations, b: Animations)
    requires AnimationClass(a, 0) == AnimationClass(b, 0)
    ensures a.entranceAnimation == b.entranceAnimation
  {
    var x, y := AnimationClass(a, 0), AnimationClass(b, 0);
    if x != "" {
      assert x[8] == y[8] && x[14] == y[14];
    }
  }

  /** `animationDelay` of skill badge `index`. */
  function BadgeDelay(a: Animations, index: nat): int
  {
    index * a.staggerDelay
  }

  /** `animationDelay` of card `index` of the filtered list. */
  function CardDelay(a: Animations, index: nat): int
  {
    (index + 2) * a.staggerDelay
  }

  /** Badges and cards each start one stagger after the previous one; the
      first card starts two staggers in, like a third badge would. */
  lemma DelaysStaggered(a: Animations, index: nat)
    ensures BadgeDelay(a, index + 1) - BadgeDelay(a, index) == a.staggerDelay
    ensures CardDelay(a, index + 1) - CardDelay(a, index) == a.staggerDelay
    ensures CardDelay(a, index) == BadgeDelay(a, index + 2)
    ensures a.staggerDelay >= 0 ==> BadgeDelay(a, index) <= BadgeDelay(a, index + 1)
  {
  }

  // ---------------------------------------------------------------------
  // Styles

  /** The `fontFamily` of `getCustomStyles`. */
  function FontFamily(key: string): (r: string)
    ensures key !in {"serif", "mono", "system"} ==> r == "Inter, sans-serif"
  {
    if key == "serif" then "Georgia, serif"
    else if key == "mono" then "monospace"
    else if key == "system" then "system-ui"
    else "Inter, sans-serif"
  }

  /** The preview's font table is not the stylesheet's: for every key the
      two families differ, although both fall back to an Inter family. */
  lemma FontTablesDiffer(key: string)
    ensures FontFamily(key) != ExportCss.FontStack(key)
    ensures key !in ExportCss.FontTable ==> FontFamily(key) == FontFamily("inter")
    ensures key !in ExportCss.FontTable ==> ExportCss.FontStack(key) == ExportCss.FontStack("inter")
  {
    ExportCss.FontTableKeys();
    var p, s := FontFamily(key), ExportCss.FontStack(key);
    assert |p| != |s|;
  }

  /** `marginBottom` of a section, in pixels. */
  function SectionMargin(l: Layout): int
  {
    if l.compactMode then 24 else l.sectionSpacing
  }

  /** The preview and the stylesheet space the sections alike. */
  lemma SectionMarginAgrees(l: Layout)
    ensures ExportCss.SectionMargin(l) == ExportCss.Px(SectionMargin(l) as real)
  {
  }

  /** `borderBottom` and `paddingBottom` of a section heading. */
  function Divider(l: Layout): (r: (string, string))
    ensures r.0 != "none" <==> l.showSectionDividers
  {
    if l.showSectionDividers then ("2px solid hsl(var(--border))", "8px") else ("none", "0")
  }

  /** The heading underline shows in the preview exactly when the
      stylesheet declares one. */
  lemma DividerAgrees(l: Layout)
    ensures Divider(l).0 != "none" <==> ExportCss.DividerDecls(l) != []
  {
  }

  /** The hero's `justifyContent`. */
  function Justify(a: HeroAlign): (r: string)
  {
    if a == Center then "center" else if a == Right then "flex-end" else "flex-start"
  }

  lemma JustifyAgrees(a: HeroAlign)
    ensures Justify(a) == ExportCss.Justify(a)
    ensures Justify(a) == "center" <==> a == Center
    ensures Justify(a) == "flex-end" <==> a == Right
  {
  }

  /** The project list's `display`. */
  function ProjectsDisplay(l: Layout): (r: string)
  {
    if l.layout == Grid then "grid" else "flex"
  }

  /** The preview lays the cards out the way the stylesheet does: a grid in
      grid mode, a flex column otherwise. */
  lemma ProjectsDisplayAgrees(l: Layout)
    ensures ExportCss.ProjectsGridRule(l).decls[0] == ExportCss.Text("display", ProjectsDisplay(l))
  {
  }
}
