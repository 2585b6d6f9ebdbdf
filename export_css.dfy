/** The style half of the exporter: `generateCSS` turns the customization
    record into one stylesheet.  The stylesheet is modelled as the ordered
    list of its blocks (comments, rules, keyframes and media queries) with
    typed values; the text layout of the blocks is not rendered.

    A selector is a closed set of names here, since every selector the
    exporter writes is fixed; property names stay strings. */
module ExportCss {
  import opened Types

  /** The stylesheet's selectors, from `*` and `:root` to `footer`. */
  datatype Selector =
    | Universal | Root | Page | Hero | HeroTitle | HeroRole | Main
    | SectionBox | SectionHeading | SkillsGrid | SkillBadge | SkillBadgeHover
    | ProjectsGrid | ProjectCard | ProjectCardHover | ProjectCardTitle | ProjectCardText
    | ContactLinks | ContactLink | ContactLinkHover | Footer

  /** A declaration's value: a length in pixels, a duration in milliseconds,
      or any other CSS text. */
  datatype Value = Px(px: real) | Ms(ms: int) | Keyword(text: string)

  datatype Decl = Decl(property: string, value: Value)

  datatype Rule = Rule(selector: Selector, decls: seq<Decl>)

  datatype Block =
    | Comment(text: string)
    | Style(rule: Rule)
    | Keyframes(name: string, from: string, to: string)
    | Media(maxWidth: nat, rules: seq<Rule>)

  // ---------------------------------------------------------------------
  // Lookups

  /** `fontFamilyMap` */
  const FontTable: map<string, string> := map[
    "inter" := "-apple-system, BlinkMacSystemFont, \"Segoe UI\", Roboto, \"Inter\", \"Helvetica Neue\", Arial, sans-serif",
    "system" := "system-ui, -apple-system, sans-serif",
    "serif" := "Georgia, \"Times New Roman\", serif",
    "mono" := "\"SF Mono\", Monaco, \"Cascadia Code\", \"Roboto Mono\", Consolas, \"Courier New\", monospace"]

  /** `selectedFont`: the stack for the chosen key, or the inter stack when
      the key is not in the table. */
  function FontStack(key: string): (r: string)
    ensures r in FontTable.Values
    ensures key in FontTable ==> r == FontTable[key]
    ensures r == FontTable["inter"] <==> key !in {"system", "serif", "mono"}
  {
    if key in FontTable then FontTable[key] else FontTable["inter"]
  }

  /** The table has exactly four keys. */
  lemma FontTableKeys()
    ensures FontTable.Keys == {"inter", "system", "serif", "mono"}
  {
  }

  /** The hero's `justify-content` for its alignment. */
  function Justify(a: HeroAlign): string
  {
    if a == Center then "center" else if a == Right then "flex-end" else "flex-start"
  }

  // ---------------------------------------------------------------------
  // The rules

  function Text(property: string, text: string): Decl
  {
    Decl(property, Keyword(text))
  }

  /** The `animation` declaration, present only when an entrance is chosen. */
  function EntranceDecls(a: Animations): seq<Decl>
  {
    if a.entranceAnimation != NoEntrance then
      [Text("animation", EntranceName(a.entranceAnimation) + " var(--animation-speed) ease-out")]
    else []
  }

  function RootRule(c: CustomizationData): Rule
  {
    Rule(Root, [
      Text("--primary", "hsl(" + c.theme.primaryColor + ")"),
      Text("--primary-foreground", "hsl(0, 0%, 98%)"),
      Text("--accent", "hsl(" + c.theme.accentColor + ")"),
      Text("--background", "hsl(250, 250%, 99%)"),
      Text("--foreground", "hsl(230, 15%, 15%)"),
      Text("--muted", "hsl(230, 25%, 96%)"),
      Text("--muted-foreground", "hsl(230, 10%, 45%)"),
      Text("--border", "hsl(230, 20%, 90%)"),
      Text("--card", "hsl(0, 0%, 100%)"),
      Text("--hero-gradient", c.theme.heroGradient),
      Text("--card-shadow", "0 4px 6px -1px hsl(230, 25%, 85%, 0.1), 0 2px 4px -2px hsl(230, 25%, 85%, 0.1)"),
      Text("--card-shadow-lg", "0 20px 25px -5px hsl(230, 25%, 80%, 0.1), 0 8px 10px -6px hsl(230, 25%, 80%, 0.1)"),
      Decl("--border-radius", Px(c.theme.borderRadius as real)),
      Decl("--font-size", Px(c.theme.fontSize as real)),
      Decl("--animation-speed", Ms(c.animations.animationSpeed))])
  }

  function PageRule(c: CustomizationData): Rule
  {
    Rule(Page, [
      Text("font-family", FontStack(c.theme.fontFamily)),
      Text("line-height", "1.6"),
      Text("color", "var(--foreground)"),
      Text("background", "var(--background)"),
      Text("font-size", "var(--font-size)")])
  }

  function HeroRule(c: CustomizationData): Rule
  {
    Rule(Hero, [
      Text("background", "var(--hero-gradient)"),
      Text("color", "var(--primary-foreground)"),
      Text("text-align", HeroAlignName(c.layout.heroAlign)),
      Text("padding", "4rem 2rem"),
      Decl("min-height", Px(c.layout.heroHeight as real)),
      Text("display", "flex"),
      Text("align-items", "center"),
      Text("justify-content", Justify(c.layout.heroAlign))])
  }

  function HeroTitleRule(c: CustomizationData): Rule
  {
    Rule(HeroTitle, [
      Decl("font-size", Px(c.theme.fontSize as real * 2.5)),
      Text("font-weight", "700"),
      Text("margin-bottom", "1rem"),
      Text("letter-spacing", "-0.02em")]
      + EntranceDecls(c.animations))
  }

  function HeroRoleRule(c: CustomizationData): Rule
  {
    Rule(HeroRole, [
      Decl("font-size", Px(c.theme.fontSize as real * 1.25)),
      Text("opacity", "0.9"),
      Text("font-weight", "400")])
  }

  function MainRule(c: CustomizationData): Rule
  {
    Rule(Main, [
      Decl("max-width", Px(c.layout.contentWidth as real)),
      Text("margin", "0 auto"),
      Text("padding", "3rem 2rem")])
  }

  /** `24px` in compact mode, the chosen spacing otherwise. */
  function SectionMargin(l: Layout): Value
  {
    if l.compactMode then Px(24.0) else Px(l.sectionSpacing as real)
  }

  function SectionRule(c: CustomizationData): Rule
  {
    Rule(SectionBox, [Decl("margin-bottom", SectionMargin(c.layout))] + EntranceDecls(c.animations))
  }

  /** The heading underline, present only when dividers are on. */
  function DividerDecls(l: Layout): seq<Decl>
  {
    if l.showSectionDividers then
      [Text("border-bottom", "2px solid var(--border)"), Text("padding-bottom", "0.5rem")]
    else []
  }

  function SectionHeadingRule(c: CustomizationData): Rule
  {
    Rule(SectionHeading, [
      Decl("font-size", Px(c.theme.fontSize as real * 1.5)),
      Text("font-weight", "600"),
      Text("margin-bottom", "2rem"),
      Text("color", "var(--foreground)")]
      + DividerDecls(c.layout))
  }

  function SkillBadgeRule(c: CustomizationData): Rule
  {
    Rule(SkillBadge, [
      Text("display", "inline-block"),
      Text("background", "var(--muted)"),
      Text("color", "var(--foreground)"),
      Text("padding", "0.5rem 1rem"),
      Text("border-radius", "var(--border-radius)"),
      Decl("font-size", Px(c.theme.fontSize as real * 0.875)),
      Text("font-weight", "500"),
      Text("border", "1px solid var(--border)"),
      Text("transition", "all var(--animation-speed) ease")])
  }

  /** The lift shared by the badge and the contact-link hover rules. */
  function LiftDecls(): seq<Decl>
  {
    [Text("background", "var(--accent)"),
     Text("color", "var(--primary-foreground)"),
     Text("transform", "translateY(-1px) scale(1.05)"),
     Text("box-shadow", "var(--card-shadow-lg)")]
  }

  /** `display: grid` with auto-fit columns in grid layout, a flex column
      otherwise. */
  function ProjectsGridRule(l: Layout): Rule
  {
    Rule(ProjectsGrid,
      (if l.layout == Grid then
         [Text("display", "grid"), Text("grid-template-columns", "repeat(auto-fit, minmax(300px, 1fr))")]
       else
         [Text("display", "flex"), Text("flex-direction", "column")])
      + [Text("gap", "2rem")])
  }

  function ProjectCardTitleRule(c: CustomizationData): Rule
  {
    Rule(ProjectCardTitle, [
      Decl("font-size", Px(c.theme.fontSize as real * 1.25)),
      Text("font-weight", "600"),
      Text("margin-bottom", "1rem"),
      Text("color", "var(--foreground)")])
  }

  function ContactLinkRule(c: CustomizationData): Rule
  {
    Rule(ContactLink, [
      Text("display", "inline-flex"),
      Text("align-items", "center"),
      Text("padding", "0.75rem 1.5rem"),
      Text("background", "var(--card)"),
      Text("color", "var(--foreground)"),
      Text("text-decoration", "none"),
      Text("border", "1px solid var(--border)"),
      Text("border-radius", "var(--border-radius)"),
      Text("font-weight", "500"),
      Text("transition", "all var(--animation-speed) ease"),
      Text("box-shadow", "var(--card-shadow)"),
      Decl("font-size", Px(c.theme.fontSize as real * 0.875))])
  }

  function FooterRule(c: CustomizationData): Rule
  {
    Rule(Footer, [
      Text("text-align", "center"),
      Text("padding", "2rem"),
      Text("color", "var(--muted-foreground)"),
      Text("border-top", "1px solid var(--border)"),
      Text("background", "var(--muted)"),
      Decl("font-size", Px(c.theme.fontSize as real * 0.875))])
  }

  /** The names of the five keyframe animations, in the order written. */
  const KeyframeNames: seq<string> := ["fade", "slideUp", "slideLeft", "bounce", "scale"]

  /** The five `@keyframes`, present only when an entrance is chosen. */
  function KeyframeBlocks(a: Animations): (r: seq<Block>)
    ensures forall k :: 0 <= k < |r| ==> r[k].Keyframes?
  {
    if a.entranceAnimation != NoEntrance then
      [Keyframes("fade", "opacity: 0; transform: translateY(10px);", "opacity: 1; transform: translateY(0);"),
       Keyframes("slideUp", "opacity: 0; transform: translateY(30px);", "opacity: 1; transform: translateY(0);"),
       Keyframes("slideLeft", "opacity: 0; transform: translateX(30px);", "opacity: 1; transform: translateX(0);"),
       Keyframes("bounce", "opacity: 0; transform: translateY(-10px) scale(0.95);", "opacity: 1; transform: translateY(0) scale(1);"),
       Keyframes("scale", "opacity: 0; transform: scale(0.95);", "opacity: 1; transform: scale(1);")]
    else []
  }

  /** `Math.max(heroHeight * 0.8, 200)` */
  function SmallHeroHeight(h: int): (r: real)
    ensures r >= 200.0
    ensures r >= h as real * 0.8
    ensures r == 200.0 || r == h as real * 0.8
  {
    if h as real * 0.8 >= 200.0 then h as real * 0.8 else 200.0
  }

  function TabletRules(c: CustomizationData): seq<Rule>
  {
    [Rule(HeroTitle, [Decl("font-size", Px(c.theme.fontSize as real * 2.0))]),
     Rule(HeroRole, [Decl("font-size", Px(c.theme.fontSize as real * 1.1))]),
     Rule(Main, [Text("padding", "2rem 1rem")]),
     Rule(SectionHeading, [Decl("font-size", Px(c.theme.fontSize as real * 1.25))]),
     Rule(ContactLinks, [Text("flex-direction", "column")]),
     Rule(ContactLink, [Text("justify-content", "center")]),
     Rule(ProjectsGrid, [Text("grid-template-columns", "1fr")])]
  }

  function PhoneRules(c: CustomizationData): seq<Rule>
  {
    [Rule(Hero, [Text("padding", "3rem 1rem"), Decl("min-height", Px(SmallHeroHeight(c.layout.heroHeight)))]),
     Rule(HeroTitle, [Decl("font-size", Px(c.theme.fontSize as real * 1.75))]),
     Rule(ProjectCard, [Text("padding", "1.5rem")])]
  }

  /** The keyframes and the two media queries. */
  function TailBlocks(c: CustomizationData): seq<Block>
  {
    [Comment("Animation Keyframes")]
    + KeyframeBlocks(c.animations)
    + [Comment("Responsive Design"), Media(768, TabletRules(c)), Media(480, PhoneRules(c))]
  }

  /** The selectors of the top-level rules, in the order the stylesheet
      writes them. */
  const SelectorOrder: seq<Selector> := [
    Universal, Root, Page, Hero, HeroTitle, HeroRole, Main, SectionBox, SectionHeading,
    SkillsGrid, SkillBadge, SkillBadgeHover, ProjectsGrid, ProjectCard, ProjectCardHover,
    ProjectCardTitle, ProjectCardText, ContactLinks, ContactLink, ContactLinkHover, Footer]

  /** The rules `ruleFor` gives for `sels`, in order, skipping a selector
      whose rule is switched off. */
  function Styles(ruleFor: Selector -> Option<Rule>, sels: seq<Selector>): (r: seq<Block>)
    ensures |r| <= |sels|
    ensures forall b :: b in r ==> b.Style?
  {
    if sels == [] then []
    else match ruleFor(sels[0])
      case Some(rule) => [Style(rule)] + Styles(ruleFor, sels[1..])
      case None => Styles(ruleFor, sels[1..])
  }

  /** `generateCSS()`: the opening comment, the top-level rules, then the
      keyframes and the media queries. */
  function GenerateCSS(c: CustomizationData): (r: seq<Block>)
    ensures |r| >= 3
    ensures r[0] == Comment("Portfolio Styles - Custom Theme")
    ensures r[|r| - 2] == Media(768, TabletRules(c)) && r[|r| - 1] == Media(480, PhoneRules(c))
    ensures forall i, j :: 0 <= i < j < |r| && r[j].Style? ==> r[i].Comment? || r[i].Style?
  {
    var rules := Styles(sel => RuleFor(c, sel), SelectorOrder);
    TailHasNoStyles(c);
    RulesFirst(Comment("Portfolio Styles - Custom Theme"), rules, TailBlocks(c));
    [Comment("Portfolio Styles - Custom Theme")] + rules + TailBlocks(c)
  }

  lemma TailHasNoStyles(c: CustomizationData)
    ensures |TailBlocks(c)| >= 2
    ensures TailBlocks(c)[|TailBlocks(c)| - 2] == Media(768, TabletRules(c))
    ensures TailBlocks(c)[|TailBlocks(c)| - 1] == Media(480, PhoneRules(c))
    ensures forall k :: 0 <= k < |TailBlocks(c)| ==> !TailBlocks(c)[k].Style?
  {
  }

  /** A heading, rules, then blocks that are not rules: every rule comes
      before the first keyframes or media block. */
  lemma RulesFirst(head: Block, rules: seq<Block>, tail: seq<Block>)
    requires head.Comment?
    requires forall b :: b in rules ==> b.Style?
    requires |tail| >= 2 && forall k :: 0 <= k < |tail| ==> !tail[k].Style?
    ensures |[head] + rules + tail| >= 3 && ([head] + rules + tail)[0] == head
    ensures ([head] + rules + tail)[|[head] + rules + tail| - 2] == tail[|tail| - 2]
    ensures ([head] + rules + tail)[|[head] + rules + tail| - 1] == tail[|tail| - 1]
    ensures forall i, j :: 0 <= i < j < |[head] + rules + tail| && ([head] + rules + tail)[j].Style?
              ==> ([head] + rules + tail)[i].Comment? || ([head] + rules + tail)[i].Style?
  {
    var r := [head] + rules + tail;
    forall i, j | 0 <= i < j < |r| && r[j].Style?
      ensures r[i].Comment? || r[i].Style?
    {
      if i > 0 {
        assert r[i] == rules[i - 1];
      }
    }
  }

  // ---------------------------------------------------------------------
  // Reading the stylesheet

  /** Some top-level rule for `sel` declares `property: v`. */
  ghost predicate Declares(css: seq<Block>, sel: Selector, property: string, v: Value)
  {
    exists r :: Style(r) in css && r.selector == sel && Decl(property, v) in r.decls
  }

  // ---------------------------------------------------------------------
  // One rule per selector

  /** The top-level rule the stylesheet holds for each selector, if any:
      the hover rules exist only with hover effects on. */
  function RuleFor(c: CustomizationData, sel: Selector): Option<Rule>
  {
    match sel
    case Universal => Some(Rule(Universal, [Text("margin", "0"), Text("padding", "0"), Text("box-sizing", "border-box")]))
    case Root => Some(RootRule(c))
    case Page => Some(PageRule(c))
    case Hero => Some(HeroRule(c))
    case HeroTitle => Some(HeroTitleRule(c))
    case HeroRole => Some(HeroRoleRule(c))
    case Main => Some(MainRule(c))
    case SectionBox => Some(SectionRule(c))
    case SectionHeading => Some(SectionHeadingRule(c))
    case SkillsGrid => Some(Rule(SkillsGrid, [Text("display", "flex"), Text("flex-wrap", "wrap"), Text("gap", "0.75rem")]))
    case SkillBadge => Some(SkillBadgeRule(c))
    case SkillBadgeHover => if c.animations.hoverEffects then Some(Rule(SkillBadgeHover, LiftDecls())) else None
    case ProjectsGrid => Some(ProjectsGridRule(c.layout))
    case ProjectCard => Some(Rule(ProjectCard, [
         Text("background", "var(--card)"),
         Text("padding", "2rem"),
         Text("border-radius", "var(--border-radius)"),
         Text("border", "1px solid var(--border)"),
         Text("box-shadow", "var(--card-shadow)"),
         Text("transition", "all var(--animation-speed) ease")]))
    case ProjectCardHover =>
      if c.animations.hoverEffects then
        Some(Rule(ProjectCardHover, [Text("box-shadow", "var(--card-shadow-lg)"), Text("transform", "translateY(-2px)")]))
      else None
    case ProjectCardTitle => Some(ProjectCardTitleRule(c))
    case ProjectCardText => Some(Rule(ProjectCardText, [
         Text("color", "var(--muted-foreground)"),
         Text("line-height", "1.7"),
         Text("font-size", "var(--font-size)")]))
    case ContactLinks => Some(Rule(ContactLinks, [Text("display", "flex"), Text("flex-wrap", "wrap"), Text("gap", "1rem")]))
    case ContactLink => Some(ContactLinkRule(c))
    case ContactLinkHover => if c.animations.hoverEffects then Some(Rule(ContactLinkHover, LiftDecls())) else None
    case Footer => Some(FooterRule(c))
  }

  /** `RuleFor` files each rule under its own selector. */
  lemma RuleForSelector(c: CustomizationData, sel: Selector)
    ensures RuleFor(c, sel).Some? ==> RuleFor(c, sel).value.selector == sel
  {
  }

  /** A rule table that files each rule under its own selector. */
  ghost predicate FiledBySelector(ruleFor: Selector -> Option<Rule>)
  {
    forall s :: ruleFor(s).Some? ==> ruleFor(s).value.selector == s
  }

  lemma {:induction false} StylesMembers(ruleFor: Selector -> Option<Rule>, sels: seq<Selector>, r: Rule)
    requires FiledBySelector(ruleFor)
    ensures Style(r) in Styles(ruleFor, sels) <==> (r.selector in sels && ruleFor(r.selector) == Some(r))
  {
    if sels != [] {
      StylesMembers(ruleFor, sels[1..], r);
      assert sels == [sels[0]] + sels[1..];
    }
  }

  /** Every selector has its place in the order. */
  lemma OrderComplete(sel: Selector)
    ensures sel in SelectorOrder
  {
    match sel
    case Universal => assert SelectorOrder[0] == sel;
    case Root => assert SelectorOrder[1] == sel;
    case Page => assert SelectorOrder[2] == sel;
    case Hero => assert SelectorOrder[3] == sel;
    case HeroTitle => assert SelectorOrder[4] == sel;
    case HeroRole => assert SelectorOrder[5] == sel;
    case Main => assert SelectorOrder[6] == sel;
    case SectionBox => assert SelectorOrder[7] == sel;
    case SectionHeading => assert SelectorOrder[8] == sel;
    case SkillsGrid => assert SelectorOrder[9] == sel;
    case SkillBadge => assert SelectorOrder[10] == sel;
    case SkillBadgeHover => assert SelectorOrder[11] == sel;
    case ProjectsGrid => assert SelectorOrder[12] == sel;
    case ProjectCard => assert SelectorOrder[13] == sel;
    case ProjectCardHover => assert SelectorOrder[14] == sel;
    case ProjectCardTitle => assert SelectorOrder[15] == sel;
    case ProjectCardText => assert SelectorOrder[16] == sel;
    case ContactLinks => assert SelectorOrder[17] == sel;
    case ContactLink => assert SelectorOrder[18] == sel;
    case ContactLinkHover => assert SelectorOrder[19] == sel;
    case Footer => assert SelectorOrder[20] == sel;
  }

  /** The stylesheet holds exactly the top-level rules `RuleFor` gives: one
      per selector at most, and the hover rules only with hover effects on. */
  lemma RulesBySelector(c: CustomizationData, r: Rule)
    ensures Style(r) in GenerateCSS(c) <==> RuleFor(c, r.selector) == Some(r)
  {
    FiledRuleFor(c);
    StylesMembers(sel => RuleFor(c, sel), SelectorOrder, r);
    OrderComplete(r.selector);
    TailHasNoRules(c, r);
  }

  lemma FiledRuleFor(c: CustomizationData)
    ensures FiledBySelector(sel => RuleFor(c, sel))
  {
    forall s {
      RuleForSelector(c, s);
    }
  }

  lemma TailHasNoRules(c: CustomizationData, r: Rule)
    ensures Style(r) !in TailBlocks(c)
  {
  }

  /** The keyframes and the media queries all sit after the rules. */
  lemma TailBlocksOnly(c: CustomizationData, b: Block)
    requires !b.Style? && !b.Comment?
    ensures b in GenerateCSS(c) <==> b in TailBlocks(c)
  {
  }

  /** What a selector declares is what its rule in `RuleFor` declares. */
  lemma DeclaresVia(c: CustomizationData, sel: Selector, property: string, v: Value)
    ensures Declares(GenerateCSS(c), sel, property, v)
            <==> (RuleFor(c, sel).Some? && Decl(property, v) in RuleFor(c, sel).value.decls)
  {
    if Declares(GenerateCSS(c), sel, property, v) {
      var r :| Style(r) in GenerateCSS(c) && r.selector == sel && Decl(property, v) in r.decls;
      RulesBySelector(c, r);
    }
    if RuleFor(c, sel).Some? {
      RuleForSelector(c, sel);
      RulesBySelector(c, RuleFor(c, sel).value);
    }
  }

  // ---------------------------------------------------------------------
  // Properties of the rules

  /** The hero title and the sections get an `animation` exactly when an
      entrance is chosen, naming the keyframes of that entrance. */
  lemma EntranceAnimation(c: CustomizationData)
    ensures forall v :: (Decl("animation", v) in HeroTitleRule(c).decls
            <==> (c.animations.entranceAnimation != NoEntrance
                  && v == Keyword(EntranceName(c.animations.entranceAnimation) + " var(--animation-speed) ease-out")))
    ensures forall v :: (Decl("animation", v) in SectionRule(c).decls
            <==> (c.animations.entranceAnimation != NoEntrance
                  && v == Keyword(EntranceName(c.animations.entranceAnimation) + " var(--animation-speed) ease-out")))
  {
  }

  /** Sections are spaced `24px` apart in compact mode and by the chosen
      spacing otherwise. */
  lemma SectionSpacing(c: CustomizationData)
    ensures forall v :: (Decl("margin-bottom", v) in SectionRule(c).decls
            <==> v == (if c.layout.compactMode then Px(24.0) else Px(c.layout.sectionSpacing as real)))
  {
  }

  /** The section heading is underlined and padded exactly when dividers
      are on. */
  lemma SectionDividers(c: CustomizationData)
    ensures forall v :: (Decl("border-bottom", v) in SectionHeadingRule(c).decls
            <==> (c.layout.showSectionDividers && v == Keyword("2px solid var(--border)")))
    ensures forall v :: (Decl("padding-bottom", v) in SectionHeadingRule(c).decls
            <==> (c.layout.showSectionDividers && v == Keyword("0.5rem")))
  {
  }

  /** The three hover rules exist exactly when hover effects are on. */
  lemma HoverRules(c: CustomizationData)
    ensures RuleFor(c, SkillBadgeHover).Some? <==> c.animations.hoverEffects
    ensures RuleFor(c, ProjectCardHover).Some? <==> c.animations.hoverEffects
    ensures RuleFor(c, ContactLinkHover).Some? <==> c.animations.hoverEffects
  {
  }

  /** The projects grid is a CSS grid of auto-fit 300px columns in grid
      layout and a flex column otherwise. */
  lemma ProjectsGridLayout(l: Layout)
    ensures forall v :: (Decl("display", v) in ProjectsGridRule(l).decls
            <==> v == Keyword(if l.layout == Grid then "grid" else "flex"))
    ensures forall v :: (Decl("grid-template-columns", v) in ProjectsGridRule(l).decls
            <==> (l.layout == Grid && v == Keyword("repeat(auto-fit, minmax(300px, 1fr))")))
    ensures forall v :: (Decl("flex-direction", v) in ProjectsGridRule(l).decls
            <==> (l.layout != Grid && v == Keyword("column")))
  {
  }

  /** The body font is the table's stack for the chosen key, and the inter
      stack for a key the table does not hold. */
  lemma BodyFont(c: CustomizationData)
    ensures forall v :: (Decl("font-family", v) in PageRule(c).decls <==> v == Keyword(FontStack(c.theme.fontFamily)))
    ensures c.theme.fontFamily !in {"inter", "system", "serif", "mono"} ==> FontStack(c.theme.fontFamily) == FontStack("inter")
  {
  }

  /** The hero content is centred for center, pushed to the end for right
      and to the start for left. */
  lemma HeroJustify(c: CustomizationData)
    ensures forall v :: (Decl("justify-content", v) in HeroRule(c).decls <==> v == Keyword(Justify(c.layout.heroAlign)))
    ensures Justify(c.layout.heroAlign) == "center" <==> c.layout.heroAlign == Center
    ensures Justify(c.layout.heroAlign) == "flex-end" <==> c.layout.heroAlign == Right
    ensures Justify(c.layout.heroAlign) == "flex-start" <==> c.layout.heroAlign == Left
  {
  }

  /** The hero title is 2.5 times the base size. */
  lemma HeroTitleSize(c: CustomizationData)
    ensures forall v :: (Decl("font-size", v) in HeroTitleRule(c).decls <==> v == Px(c.theme.fontSize as real * 2.5))
  {
  }

  /** The role line is 1.25 times the base size. */
  lemma HeroRoleSize(c: CustomizationData)
    ensures forall v :: (Decl("font-size", v) in HeroRoleRule(c).decls <==> v == Px(c.theme.fontSize as real * 1.25))
  {
  }

  /** Section headings are 1.5 times the base size. */
  lemma SectionHeadingSize(c: CustomizationData)
    ensures forall v :: (Decl("font-size", v) in SectionHeadingRule(c).decls <==> v == Px(c.theme.fontSize as real * 1.5))
  {
  }

  /** Project card titles are 1.25 times the base size. */
  lemma CardTitleSize(c: CustomizationData)
    ensures forall v :: (Decl("font-size", v) in ProjectCardTitleRule(c).decls <==> v == Px(c.theme.fontSize as real * 1.25))
  {
  }

  /** Skill badges are 0.875 times the base size. */
  lemma BadgeSize(c: CustomizationData)
    ensures forall v :: (Decl("font-size", v) in SkillBadgeRule(c).decls <==> v == Px(c.theme.fontSize as real * 0.875))
  {
  }

  /** Contact links are 0.875 times the base size. */
  lemma ContactLinkSize(c: CustomizationData)
    ensures forall v :: (Decl("font-size", v) in ContactLinkRule(c).decls <==> v == Px(c.theme.fontSize as real * 0.875))
  {
  }

  /** The footer is 0.875 times the base size. */
  lemma FooterSize(c: CustomizationData)
    ensures forall v :: (Decl("font-size", v) in FooterRule(c).decls <==> v == Px(c.theme.fontSize as real * 0.875))
  {
  }

  /** Below 768px the title, role and headings shrink to 2, 1.1 and 1.25
      times the base size; below 480px the hero is 80% as tall but never
      under 200px, and the title is 1.75 times the base size. */
  lemma SmallScreens(c: CustomizationData)
    ensures var f := c.theme.fontSize as real;
      && Rule(HeroTitle, [Decl("font-size", Px(f * 2.0))]) in TabletRules(c)
      && Rule(HeroRole, [Decl("font-size", Px(f * 1.1))]) in TabletRules(c)
      && Rule(SectionHeading, [Decl("font-size", Px(f * 1.25))]) in TabletRules(c)
      && Rule(HeroTitle, [Decl("font-size", Px(f * 1.75))]) in PhoneRules(c)
    ensures forall r :: (r in PhoneRules(c) && r.selector == Hero
            ==> Decl("min-height", Px(SmallHeroHeight(c.layout.heroHeight))) in r.decls)
    ensures SmallHeroHeight(c.layout.heroHeight) >= 200.0
    ensures c.layout.heroHeight >= 250 ==> SmallHeroHeight(c.layout.heroHeight) == c.layout.heroHeight as real * 0.8
    ensures c.layout.heroHeight <= 250 ==> SmallHeroHeight(c.layout.heroHeight) == 200.0
  {
    assert TabletRules(c)[0] == Rule(HeroTitle, [Decl("font-size", Px(c.theme.fontSize as real * 2.0))]);
    assert PhoneRules(c)[1] == Rule(HeroTitle, [Decl("font-size", Px(c.theme.fontSize as real * 1.75))]);
  }

  /** The two media queries are the only ones, at 768px and 480px (and,
      by `TailBlocksOnly`, the only ones in the stylesheet). */
  lemma MediaQueries(c: CustomizationData, w: nat, rules: seq<Rule>)
    ensures Media(w, rules) in TailBlocks(c)
            <==> ((w == 768 && rules == TabletRules(c)) || (w == 480 && rules == PhoneRules(c)))
  {
  }

  /** The five keyframes are written exactly when an entrance is chosen. */
  lemma KeyframesPresent(a: Animations, name: string)
    ensures (exists f, t :: Keyframes(name, f, t) in KeyframeBlocks(a))
            <==> (a.entranceAnimation != NoEntrance && name in KeyframeNames)
  {
    if a.entranceAnimation != NoEntrance && name in KeyframeNames {
      var i :| 0 <= i < 5 && KeyframeNames[i] == name;
      assert KeyframeBlocks(a)[i].name == name;
    }
  }

  /** The animation a chosen entrance names is one of the keyframes
      written, so it is always defined. */
  lemma EntranceHasKeyframes(e: Entrance)
    requires e != NoEntrance
    ensures EntranceName(e) in KeyframeNames
  {
    match e
    case Fade => assert KeyframeNames[0] == EntranceName(e);
    case SlideUp => assert KeyframeNames[1] == EntranceName(e);
    case SlideLeft => assert KeyframeNames[2] == EntranceName(e);
    case Bounce => assert KeyframeNames[3] == EntranceName(e);
    case Scale => assert KeyframeNames[4] == EntranceName(e);
  }
}
