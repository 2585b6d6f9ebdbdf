/** The markup half of the exporter: `generateHTML` turns the portfolio
    content into one HTML document.  User text is interpolated raw, with
    no escaping, exactly as the template literals do.

    Next to the generator are small readers for the fragments it emits
    (skill badges, project cards, contact links).  They are the inverse the
    properties are stated against: every fragment list reads back to what
    it was made from, as long as the user text holds no `<` (no `"` for the
    link targets).  Without that restriction the output is ambiguous, which
    `RawSkillForgesBadges` shows. */
module ExportHtml {
  import opened Types
  import opened Text

  // ---------------------------------------------------------------------
  // Fixed tag text of the fragment templates

  /** The literal text around each interpolated value in the badge, card
      and contact-link templates. */
  datatype Markup = Markup(
    badgeOpen: string, badgeClose: string,
    cardOpen: string, titleOpen: string, titleClose: string, cardMid: string,
    descOpen: string, descClose: string, cardClose: string,
    linkOpen: string, mailPrefix: string,
    emailTail: string, gitHubTail: string, linkedInTail: string)

  const Tags := Markup(
    "<span class=\"skill-badge\">", "</span>",
    "\n                <div class=\"project-card\">\n                  ", "<h3>", "</h3>", "\n                  ",
    "<p>", "</p>", "\n                </div>\n              ",
    "<a href=\"", "mailto:",
    "\" class=\"contact-link\">" + "\U{1F4E7} Email</a>",
    NewTabLink + "\U{1F517} GitHub</a>",
    NewTabLink + "\U{1F4BC} LinkedIn</a>")

  /** The attributes shared by the two links that open in a new tab. */
  const NewTabLink := "\" target=\"_blank\" class=\"contact-link\">"

  /** `a || b` on strings: the first operand that is not empty, or the
      second when both are. */
  function OrElse(a: string, b: string): (r: string)
    ensures r == a || r == b
    ensures r == "" <==> a == "" && b == ""
    ensures a != "" ==> r == a
  {
    if a != "" then a else b
  }

  // ---------------------------------------------------------------------
  // Skills

  /** One `skill-badge` span. */
  function Badge(m: Markup, skill: string): string
  {
    m.badgeOpen + skill + m.badgeClose
  }

  /** `data.skills.map(skill => ...)`, before the `join('')`. */
  function Badges(m: Markup, skills: seq<string>): (r: seq<string>)
    ensures |r| == |skills|
    ensures forall i :: 0 <= i < |skills| ==> r[i] == Badge(m, skills[i])
  {
    if skills == [] then [] else [Badge(m, skills[0])] + Badges(m, skills[1..])
  }

  /** The three optional sections share one shape: an opening with the
      heading and the grid `div`, the joined fragments, and a fixed close. */
  function Section(open: string, body: string): string
  {
    open + body + SectionClose
  }

  const SectionClose := "\n          </div>\n        </section>"
  const SkillsOpen := "<section class=\"skills\">\n          <h2>Skills</h2>\n" + "          <div class=\"skills-grid\">\n            "
  const ProjectsOpen := "<section class=\"projects\">\n          <h2>Projects</h2>\n" + "          <div class=\"projects-grid\">\n            "
  const ContactOpen := "<section class=\"contact\">\n          <h2>Contact</h2>\n" + "          <div class=\"contact-links\">\n            "

  /** `skillsHTML`: the skills section, or nothing when there are no skills. */
  function SkillsHTML(skills: seq<string>): string
  {
    if |skills| > 0 then Section(SkillsOpen, Concat(Badges(Tags, skills))) else ""
  }

  // ---------------------------------------------------------------------
  // Projects

  /** `p.title || p.description` */
  predicate NonEmptyProject(p: Project)
  {
    p.title != "" || p.description != ""
  }

  /** `data.projects.some(p => p.title || p.description)` */
  predicate AnyNonEmptyProject(ps: seq<Project>)
  {
    exists i :: 0 <= i < |ps| && NonEmptyProject(ps[i])
  }

  /** `data.projects.filter(p => p.title || p.description)` */
  function ShownProjects(ps: seq<Project>): (r: seq<Project>)
    ensures |r| <= |ps|
    ensures forall i :: 0 <= i < |r| ==> NonEmptyProject(r[i]) && r[i] in ps
    ensures forall i :: 0 <= i < |ps| && NonEmptyProject(ps[i]) ==> ps[i] in r
  {
    if ps == [] then []
    else (if NonEmptyProject(ps[0]) then [ps[0]] else []) + ShownProjects(ps[1..])
  }

  /** `${project.title ? `<h3>${project.title}</h3>` : ''}` and the same
      for the description: the tagged text, or nothing when it is empty. */
  function Optional(open: string, text: string, close: string): string
  {
    if text != "" then open + text + close else ""
  }

  /** One project card; the heading and the paragraph are each left out
      when their field is empty. */
  function Card(m: Markup, p: Project): string
  {
    m.cardOpen + Optional(m.titleOpen, p.title, m.titleClose) + m.cardMid
    + Optional(m.descOpen, p.description, m.descClose) + m.cardClose
  }

  function Cards(m: Markup, ps: seq<Project>): (r: seq<string>)
    ensures |r| == |ps|
    ensures forall i :: 0 <= i < |ps| ==> r[i] == Card(m, ps[i])
  {
    if ps == [] then [] else [Card(m, ps[0])] + Cards(m, ps[1..])
  }

  /** `projectsHTML`: the projects section, or nothing when every project
      is empty. */
  function ProjectsHTML(ps: seq<Project>): string
  {
    if AnyNonEmptyProject(ps) then Section(ProjectsOpen, Concat(Cards(Tags, ShownProjects(ps)))) else ""
  }

  // ---------------------------------------------------------------------
  // Contact

  datatype ContactLink = EmailLink(address: string) | GitHubLink(url: string) | LinkedInLink(url: string)

  /** The position of a link kind in the fixed email, GitHub, LinkedIn order. */
  function Rank(l: ContactLink): nat
  {
    match l
    case EmailLink(_) => 0
    case GitHubLink(_) => 1
    case LinkedInLink(_) => 2
  }

  /** The text a link carries. */
  function LinkText(l: ContactLink): string
  {
    match l
    case EmailLink(a) => a
    case GitHubLink(u) => u
    case LinkedInLink(u) => u
  }

  function LinkHTML(m: Markup, l: ContactLink): string
  {
    match l
    case EmailLink(a) => m.linkOpen + (m.mailPrefix + a) + m.emailTail
    case GitHubLink(u) => m.linkOpen + u + m.gitHubTail
    case LinkedInLink(u) => m.linkOpen + u + m.linkedInTail
  }

  function LinksHTML(m: Markup, ls: seq<ContactLink>): (r: seq<string>)
    ensures |r| == |ls|
    ensures forall i :: 0 <= i < |ls| ==> r[i] == LinkHTML(m, ls[i])
  {
    if ls == [] then [] else [LinkHTML(m, ls[0])] + LinksHTML(m, ls[1..])
  }

  /** The `contactLinks` array after the three conditional pushes: one
      link per non-empty field, in the order email, GitHub, LinkedIn. */
  function ContactLinks(d: PortfolioData): (r: seq<ContactLink>)
    ensures r == [] <==> (d.email == "" && d.github == "" && d.linkedin == "")
    ensures forall i, j :: 0 <= i < j < |r| ==> Rank(r[i]) < Rank(r[j])
    ensures EmailLink(d.email) in r <==> d.email != ""
    ensures GitHubLink(d.github) in r <==> d.github != ""
    ensures LinkedInLink(d.linkedin) in r <==> d.linkedin != ""
    ensures forall l :: l in r ==> l in [EmailLink(d.email), GitHubLink(d.github), LinkedInLink(d.linkedin)]
  {
    (if d.email != "" then [EmailLink(d.email)] else [])
    + (if d.github != "" then [GitHubLink(d.github)] else [])
    + (if d.linkedin != "" then [LinkedInLink(d.linkedin)] else [])
  }

  /** The source builds `contactLinks` by pushing into a local array; this
      is that step-by-step construction. */
  method CollectContactLinks(d: PortfolioData) returns (links: seq<ContactLink>)
    ensures links == ContactLinks(d)
  {
    links := [];
    if d.email != "" {
      links := links + [EmailLink(d.email)];
    }
    if d.github != "" {
      links := links + [GitHubLink(d.github)];
    }
    if d.linkedin != "" {
      links := links + [LinkedInLink(d.linkedin)];
    }
  }

  /** `contactHTML`: the contact section, or nothing when no link was pushed. */
  function ContactHTML(ls: seq<ContactLink>): string
  {
    if |ls| > 0 then Section(ContactOpen, Concat(LinksHTML(Tags, ls))) else ""
  }

  // ---------------------------------------------------------------------
  // The document

  /** The text of `<title>`. */
  function TitleText(d: PortfolioData): string
  {
    OrElse(d.fullName, "Portfolio") + " - Portfolio"
  }

  /** The `content` of the description meta tag. */
  function DescriptionText(d: PortfolioData): string
  {
    "Professional portfolio of " + OrElse(d.fullName, "a talented professional")
    + (if d.role != "" then ", " + d.role else "")
  }

  /** The `<h1>` of the hero, or nothing. */
  function HeroHeading(d: PortfolioData): string
  {
    Optional("<h1>", d.fullName, "</h1>")
  }

  /** The role paragraph of the hero, or nothing. */
  function HeroRole(d: PortfolioData): string
  {
    Optional("<p class=\"role\">", d.role, "</p>")
  }

  /** Everything before `${skillsHTML}`: the head and the hero. */
  function Prelude(d: PortfolioData): string
  {
    "<!DOCTYPE html>\n<html lang=\"en\">\n<head>\n    <meta charset=\"UTF-8\">\n"
    + "    <meta name=\"viewport\" content=\"width=device-width, initial-scale=1.0\">\n"
    + "    <title>" + TitleText(d) + "</title>\n"
    + "    <meta name=\"description\" content=\"" + DescriptionText(d)
    + "\">\n    <link rel=\"stylesheet\" href=\"style.css\">\n</head>\n<body>\n"
    + "    <header class=\"hero\">\n        <div class=\"hero-content\">\n            "
    + HeroHeading(d) + "\n            " + HeroRole(d)
    + "\n        </div>\n    </header>\n\n    <main class=\"main-content\">\n        "
  }

  /** The footer line, with the calendar year given as a parameter. */
  function FooterText(d: PortfolioData, year: nat): string
  {
    "&copy; " + NatToDecimal(year) + " " + OrElse(d.fullName, "Portfolio")
    + ". Generated with Portfolio Generator."
  }

  /** Everything after `${contactHTML}`. */
  function Postlude(d: PortfolioData, year: nat): string
  {
    "\n    </main>\n\n    <footer>\n        <p>" + FooterText(d, year)
    + "</p>\n    </footer>\n</body>\n</html>"
  }

  /** The indentation between two sections of `<main>`. */
  const Gap := "\n        "

  /** The content of `<main>`: the three sections in their fixed order. */
  function Body(d: PortfolioData): string
  {
    SkillsHTML(d.skills) + Gap + ProjectsHTML(d.projects) + Gap + ContactHTML(ContactLinks(d))
  }

  /** `generateHTML(data)`, with `new Date().getFullYear()` as `year`. */
  function GenerateHTML(d: PortfolioData, year: nat): (r: string)
    ensures Contains(r, SkillsHTML(d.skills))
    ensures Contains(r, ProjectsHTML(d.projects))
    ensures Contains(r, ContactHTML(ContactLinks(d)))
  {
    JoinedParts(Prelude(d), SkillsHTML(d.skills), ProjectsHTML(d.projects), ContactHTML(ContactLinks(d)),
                Gap, Postlude(d, year));
    Prelude(d) + Body(d) + Postlude(d, year)
  }

  /** Each of three parts joined by a separator occurs in the whole. */
  lemma JoinedParts(pre: string, x: string, y: string, z: string, gap: string, post: string)
    ensures Contains(pre + (x + gap + y + gap + z) + post, x)
    ensures Contains(pre + (x + gap + y + gap + z) + post, y)
    ensures Contains(pre + (x + gap + y + gap + z) + post, z)
  {
    var b := x + gap + y + gap + z;
    ContainsConcat([], x, gap + y + gap + z);
    assert [] + x + (gap + y + gap + z) == b;
    ContainsGrow(b, x, pre, post);
    ContainsConcat(x + gap, y, gap + z);
    assert x + gap + y + (gap + z) == b;
    ContainsGrow(b, y, pre, post);
    ContainsConcat(x + gap + y + gap, z, []);
    assert x + gap + y + gap + z + [] == b;
    ContainsGrow(b, z, pre, post);
  }

  /** The hero's heading and role paragraph are left out exactly when
      their field is empty. */
  lemma HeroFallbacks(d: PortfolioData)
    ensures HeroHeading(d) == "" <==> d.fullName == ""
    ensures HeroRole(d) == "" <==> d.role == ""
  {
  }

  /** An empty name makes the title and the footer read as if the name
      were "Portfolio", and the description as if it were "a talented
      professional". */
  lemma NameFallbacks(d: PortfolioData, year: nat)
    requires d.fullName == ""
    ensures TitleText(d) == TitleText(d.(fullName := "Portfolio"))
    ensures FooterText(d, year) == FooterText(d.(fullName := "Portfolio"), year)
    ensures DescriptionText(d) == DescriptionText(d.(fullName := "a talented professional"))
  {
  }

  /** A role adds `, role` to the end of the description and changes
      nothing else; without one there is no suffix. */
  lemma RoleSuffix(d: PortfolioData)
    ensures d.role != "" ==> DescriptionText(d) == DescriptionText(d.(role := "")) + ", " + d.role
    ensures d.role == "" ==> DescriptionText(d) == "Professional portfolio of " + OrElse(d.fullName, "a talented professional")
  {
  }

  // ---------------------------------------------------------------------
  // Readers: the inverse of the fragment renderers

  /** `s` without the leading `lit`, if it starts with it. */
  function Strip(s: string, lit: string): (r: Option<string>)
    ensures r.Some? <==> (|lit| <= |s| && s[..|lit|] == lit)
    ensures r.Some? ==> r.value == s[|lit|..]
  {
    if |lit| <= |s| && s[..|lit|] == lit then Some(s[|lit|..]) else None
  }

  /** The index of the first `c` in `s`, or `|s|` if there is none. */
  function FirstIndex(s: string, c: char): (k: nat)
    ensures k <= |s|
    ensures forall i :: 0 <= i < k ==> s[i] != c
    ensures k < |s| ==> s[k] == c
  {
    if s == [] then 0 else if s[0] == c then 0 else 1 + FirstIndex(s[1..], c)
  }

  /** Splits `s` at the first occurrence of `close[0]`, provided `close`
      itself starts there: the text before it and what follows `close`. */
  function ReadUntil(s: string, close: string): (r: Option<(string, string)>)
    requires |close| > 0
    ensures r.Some? ==> |r.value.1| < |s|
  {
    var k := FirstIndex(s, close[0]);
    if k + |close| <= |s| && s[k..k + |close|] == close then
      var rest := s[k + |close|..];
      assert |rest| == |s| - k - |close|;
      Some((s[..k], rest))
    else None
  }

  lemma StripAppend(lit: string, rest: string)
    ensures Strip(lit + rest, lit) == Some(rest)
  {
    assert (lit + rest)[..|lit|] == lit;
    assert (lit + rest)[|lit|..] == rest;
  }

  /** Reading text that does not contain the stopping character returns it
      whole, followed by what comes after `close`. */
  lemma ReadUntilAppend(x: string, close: string, rest: string)
    requires |close| > 0 && close[0] !in x
    ensures ReadUntil(x + close + rest, close) == Some((x, rest))
  {
    var s := x + close + rest;
    assert forall i :: 0 <= i < |x| ==> s[i] == x[i];
    assert s[|x|] == close[0];
    var k := FirstIndex(s, close[0]);
    assert k == |x|;
    assert s[k..k + |close|] == close;
    assert s[..k] == x;
    assert s[k + |close|..] == rest;
  }

  /** Two strings that differ at some position both of them have. */
  ghost predicate Diverge(a: string, b: string)
  {
    exists k :: 0 <= k < |a| && k < |b| && a[k] != b[k]
  }

  /** A tail that is not the one the link was written with does not match. */
  lemma ReadUntilMismatch(x: string, tail: string, other: string, rest: string)
    requires |tail| > 0 && |other| > 0 && tail[0] == other[0] && tail[0] !in x
    requires Diverge(tail, other)
    ensures ReadUntil(x + tail + rest, other) == None
  {
    var k :| 0 <= k < |tail| && k < |other| && tail[k] != other[k];
    var s := x + tail + rest;
    assert forall i :: 0 <= i < |x| ==> s[i] == x[i];
    assert s[|x|] == tail[0];
    assert FirstIndex(s, other[0]) == |x|;
    if |x| + |other| <= |s| {
      assert s[|x| + k] == tail[k];
      assert s[|x|..|x| + |other|][k] == s[|x| + k];
    }
  }

  /** What the readers need of the fixed text: every closing piece starts
      with the character that user text must not contain, and each
      optional piece is told apart from what follows it by its first
      character. */
  ghost predicate Readable(m: Markup)
  {
    && |m.badgeOpen| > 0 && |m.badgeClose| > 0 && m.badgeClose[0] == '<'
    && |m.titleOpen| > 0 && |m.titleClose| > 0 && m.titleClose[0] == '<'
    && |m.descOpen| > 0 && |m.descClose| > 0 && m.descClose[0] == '<'
    && |m.cardOpen| > 0 && |m.cardMid| > 0 && |m.cardClose| > 0
    && m.cardMid[0] != m.titleOpen[0] && m.cardClose[0] != m.descOpen[0]
    && |m.linkOpen| > 0 && '"' !in m.mailPrefix
    && |m.emailTail| > 0 && |m.gitHubTail| > 0 && |m.linkedInTail| > 0
    && m.emailTail[0] == '"' && m.gitHubTail[0] == '"' && m.linkedInTail[0] == '"'
    && Diverge(m.gitHubTail, m.emailTail) && Diverge(m.linkedInTail, m.emailTail)
    && Diverge(m.linkedInTail, m.gitHubTail)
  }

  /** The exporter's own template text satisfies what the readers need. */
  lemma TagsReadable()
    ensures Readable(Tags)
  {
    assert Tags.gitHubTail[2] != Tags.emailTail[2];
    assert Tags.linkedInTail[2] != Tags.emailTail[2];
    assert Tags.linkedInTail[39] != Tags.gitHubTail[39];
  }

  /** Reads a list of skill badges back. */
  function ReadBadges(m: Markup, s: string): Option<seq<string>>
    requires |m.badgeClose| > 0
    decreases |s|
  {
    if s == [] then Some([])
    else match Strip(s, m.badgeOpen)
      case None => None
      case Some(t) =>
        match ReadUntil(t, m.badgeClose)
        case None => None
        case Some(p) =>
          match ReadBadges(m, p.1)
          case None => None
          case Some(more) => Some([p.0] + more)
  }

  predicate NoLt(s: string)
  {
    '<' !in s
  }

  lemma BadgesHead(m: Markup, skills: seq<string>)
    requires skills != []
    ensures Concat(Badges(m, skills)) == m.badgeOpen + (skills[0] + m.badgeClose + Concat(Badges(m, skills[1..])))
  {
    var bs := Badges(m, skills);
    assert bs == [Badge(m, skills[0])] + Badges(m, skills[1..]);
    assert bs[1..] == Badges(m, skills[1..]);
    assert Concat(bs) == bs[0] + Concat(bs[1..]);
    Regroup(m.badgeOpen, skills[0], m.badgeClose, Concat(bs[1..]));
  }

  /** Reading one badge in front of `rest` yields its skill and continues
      with `rest`. */
  lemma ReadBadgesStep(m: Markup, skill: string, rest: string)
    requires |m.badgeOpen| > 0 && |m.badgeClose| > 0 && m.badgeClose[0] == '<' && NoLt(skill)
    ensures ReadBadges(m, m.badgeOpen + (skill + m.badgeClose + rest))
            == match ReadBadges(m, rest) case None => None case Some(more) => Some([skill] + more)
  {
    StripAppend(m.badgeOpen, skill + m.badgeClose + rest);
    ReadUntilAppend(skill, m.badgeClose, rest);
  }

  /** The joined badges read back to exactly the skill list, in order:
      one badge per skill and the skill text untouched. */
  lemma {:induction false} BadgesReadBack(m: Markup, skills: seq<string>)
    requires Readable(m)
    requires forall i :: 0 <= i < |skills| ==> NoLt(skills[i])
    ensures ReadBadges(m, Concat(Badges(m, skills))) == Some(skills)
  {
    if skills != [] {
      BadgesReadBack(m, skills[1..]);
      BadgesStep(m, skills, Concat(Badges(m, skills[1..])));
    }
  }

  lemma BadgesStep(m: Markup, skills: seq<string>, rest: string)
    requires skills != [] && |m.badgeOpen| > 0 && |m.badgeClose| > 0 && m.badgeClose[0] == '<'
    requires NoLt(skills[0])
    requires rest == Concat(Badges(m, skills[1..]))
    requires ReadBadges(m, rest) == Some(skills[1..])
    ensures ReadBadges(m, Concat(Badges(m, skills))) == Some(skills)
  {
    BadgesHead(m, skills);
    ReadBadgesStep(m, skills[0], rest);
    assert [skills[0]] + skills[1..] == skills;
  }

  /** Reads the optional `<tag>text</tag>` of a card. */
  function ReadOptional(s: string, open: string, close: string): (r: (string, string))
    requires |close| > 0
    ensures |r.1| <= |s|
  {
    match Strip(s, open)
    case None => ("", s)
    case Some(t) =>
      match ReadUntil(t, close)
      case None => ("", s)
      case Some(p) => p
  }

  lemma ReadOptionalOf(open: string, x: string, close: string, after: string)
    requires |open| > 0 && |close| > 0 && close[0] !in x
    requires after != [] && after[0] != open[0]
    ensures ReadOptional(Optional(open, x, close) + after, open, close) == (x, after)
  {
    if x != "" {
      Regroup(open, x, close, after);
      StripAppend(open, x + close + after);
      ReadUntilAppend(x, close, after);
    } else {
      assert Optional(open, x, close) + after == after;
    }
  }

  /** Reads one project card, returning the project and what follows it. */
  function ReadCard(m: Markup, s: string): (r: Option<(Project, string)>)
    requires |m.cardOpen| > 0 && |m.titleClose| > 0 && |m.descClose| > 0
    ensures r.Some? ==> |r.value.1| < |s|
  {
    match Strip(s, m.cardOpen)
    case None => None
    case Some(t) =>
      var (title, t1) := ReadOptional(t, m.titleOpen, m.titleClose);
      match Strip(t1, m.cardMid)
      case None => None
      case Some(t2) =>
        var (desc, t3) := ReadOptional(t2, m.descOpen, m.descClose);
        match Strip(t3, m.cardClose)
        case None => None
        case Some(t4) =>
          Some((Project(title, desc), t4))
  }

  function ReadCards(m: Markup, s: string): Option<seq<Project>>
    requires |m.cardOpen| > 0 && |m.titleClose| > 0 && |m.descClose| > 0
    decreases |s|
  {
    if s == [] then Some([])
    else match ReadCard(m, s)
      case None => None
      case Some(p) =>
        match ReadCards(m, p.1)
        case None => None
        case Some(more) => Some([p.0] + more)
  }

  predicate PlainProject(p: Project)
  {
    NoLt(p.title) && NoLt(p.description)
  }

  lemma ReadCardOf(m: Markup, p: Project, rest: string)
    requires Readable(m) && PlainProject(p)
    ensures ReadCard(m, Card(m, p) + rest) == Some((p, rest))
  {
    var h := Optional(m.titleOpen, p.title, m.titleClose);
    var b := Optional(m.descOpen, p.description, m.descClose);
    var afterDesc := m.cardClose + rest;
    var afterTitle := m.cardMid + (b + afterDesc);
    assert Card(m, p) + rest == m.cardOpen + (h + afterTitle);
    StripAppend(m.cardOpen, h + afterTitle);
    ReadOptionalOf(m.titleOpen, p.title, m.titleClose, afterTitle);
    StripAppend(m.cardMid, b + afterDesc);
    ReadOptionalOf(m.descOpen, p.description, m.descClose, afterDesc);
    StripAppend(m.cardClose, rest);
  }

  lemma CardsHead(m: Markup, ps: seq<Project>)
    requires ps != []
    ensures Concat(Cards(m, ps)) == Card(m, ps[0]) + Concat(Cards(m, ps[1..]))
  {
    var cs := Cards(m, ps);
    assert cs == [Card(m, ps[0])] + Cards(m, ps[1..]);
    assert cs[1..] == Cards(m, ps[1..]);
    assert Concat(cs) == cs[0] + Concat(cs[1..]);
  }

  lemma ReadCardsStep(m: Markup, s: string, p: Project, rest: string)
    requires |m.cardOpen| > 0 && |m.titleClose| > 0 && |m.descClose| > 0
    requires ReadCard(m, s) == Some((p, rest))
    ensures ReadCards(m, s)
            == match ReadCards(m, rest) case None => None case Some(more) => Some([p] + more)
  {
  }

  /** The joined cards read back to exactly the projects they were made
      from, in order. */
  lemma {:induction false} CardsReadBack(m: Markup, ps: seq<Project>)
    requires Readable(m)
    requires forall i :: 0 <= i < |ps| ==> PlainProject(ps[i])
    ensures ReadCards(m, Concat(Cards(m, ps))) == Some(ps)
  {
    if ps != [] {
      var rest := Concat(Cards(m, ps[1..]));
      ReadCardOf(m, ps[0], rest);
      CardsReadBack(m, ps[1..]);
      CardsStep(m, ps, rest);
    }
  }

  lemma CardsStep(m: Markup, ps: seq<Project>, rest: string)
    requires ps != [] && |m.cardOpen| > 0 && |m.titleClose| > 0 && |m.descClose| > 0
    requires rest == Concat(Cards(m, ps[1..]))
    requires ReadCard(m, Card(m, ps[0]) + rest) == Some((ps[0], rest))
    requires ReadCards(m, rest) == Some(ps[1..])
    ensures ReadCards(m, Concat(Cards(m, ps))) == Some(ps)
  {
    CardsHead(m, ps);
    ReadCardsStep(m, Card(m, ps[0]) + rest, ps[0], rest);
    assert [ps[0]] + ps[1..] == ps;
  }

  /** Reads one contact link, returning it and what follows it. */
  function ReadLink(m: Markup, s: string): (r: Option<(ContactLink, string)>)
    requires |m.emailTail| > 0 && |m.gitHubTail| > 0 && |m.linkedInTail| > 0
    ensures r.Some? ==> |r.value.1| < |s|
  {
    match Strip(s, m.linkOpen)
    case None => None
    case Some(t) =>
      match ReadUntil(t, m.emailTail)
      case Some(p) =>
        (match Strip(p.0, m.mailPrefix)
         case Some(a) => Some((EmailLink(a), p.1))
         case None => None)
      case None =>
        match ReadUntil(t, m.gitHubTail)
        case Some(p) => Some((GitHubLink(p.0), p.1))
        case None =>
          match ReadUntil(t, m.linkedInTail)
          case Some(p) => Some((LinkedInLink(p.0), p.1))
          case None => None
  }

  function ReadLinks(m: Markup, s: string): Option<seq<ContactLink>>
    requires |m.emailTail| > 0 && |m.gitHubTail| > 0 && |m.linkedInTail| > 0
    decreases |s|
  {
    if s == [] then Some([])
    else match ReadLink(m, s)
      case None => None
      case Some(p) =>
        match ReadLinks(m, p.1)
        case None => None
        case Some(more) => Some([p.0] + more)
  }

  lemma ReadLinkOf(m: Markup, l: ContactLink, rest: string)
    requires Readable(m) && '"' !in LinkText(l)
    ensures ReadLink(m, LinkHTML(m, l) + rest) == Some((l, rest))
  {
    match l
    case EmailLink(a) =>
      var x := m.mailPrefix + a;
      Regroup(m.linkOpen, x, m.emailTail, rest);
      StripAppend(m.linkOpen, x + m.emailTail + rest);
      ReadUntilAppend(x, m.emailTail, rest);
      StripAppend(m.mailPrefix, a);
    case GitHubLink(u) =>
      Regroup(m.linkOpen, u, m.gitHubTail, rest);
      StripAppend(m.linkOpen, u + m.gitHubTail + rest);
      ReadUntilMismatch(u, m.gitHubTail, m.emailTail, rest);
      ReadUntilAppend(u, m.gitHubTail, rest);
    case LinkedInLink(u) =>
      Regroup(m.linkOpen, u, m.linkedInTail, rest);
      StripAppend(m.linkOpen, u + m.linkedInTail + rest);
      ReadUntilMismatch(u, m.linkedInTail, m.emailTail, rest);
      ReadUntilMismatch(u, m.linkedInTail, m.gitHubTail, rest);
      ReadUntilAppend(u, m.linkedInTail, rest);
  }

  lemma LinksHead(m: Markup, ls: seq<ContactLink>)
    requires ls != []
    ensures Concat(LinksHTML(m, ls)) == LinkHTML(m, ls[0]) + Concat(LinksHTML(m, ls[1..]))
  {
    var hs := LinksHTML(m, ls);
    assert hs == [LinkHTML(m, ls[0])] + LinksHTML(m, ls[1..]);
    assert hs[1..] == LinksHTML(m, ls[1..]);
    assert Concat(hs) == hs[0] + Concat(hs[1..]);
  }

  lemma ReadLinksStep(m: Markup, s: string, l: ContactLink, rest: string)
    requires |m.emailTail| > 0 && |m.gitHubTail| > 0 && |m.linkedInTail| > 0
    requires ReadLink(m, s) == Some((l, rest))
    ensures ReadLinks(m, s)
            == match ReadLinks(m, rest) case None => None case Some(more) => Some([l] + more)
  {
  }

  /** The joined contact links read back to exactly the links, in order. */
  lemma {:induction false} LinksReadBack(m: Markup, ls: seq<ContactLink>)
    requires Readable(m)
    requires forall i :: 0 <= i < |ls| ==> '"' !in LinkText(ls[i])
    ensures ReadLinks(m, Concat(LinksHTML(m, ls))) == Some(ls)
  {
    if ls != [] {
      var rest := Concat(LinksHTML(m, ls[1..]));
      ReadLinkOf(m, ls[0], rest);
      LinksReadBack(m, ls[1..]);
      LinksStep(m, ls, rest);
    }
  }

  lemma LinksStep(m: Markup, ls: seq<ContactLink>, rest: string)
    requires ls != [] && |m.emailTail| > 0 && |m.gitHubTail| > 0 && |m.linkedInTail| > 0
    requires rest == Concat(LinksHTML(m, ls[1..]))
    requires ReadLink(m, LinkHTML(m, ls[0]) + rest) == Some((ls[0], rest))
    requires ReadLinks(m, rest) == Some(ls[1..])
    ensures ReadLinks(m, Concat(LinksHTML(m, ls))) == Some(ls)
  {
    LinksHead(m, ls);
    ReadLinksStep(m, LinkHTML(m, ls[0]) + rest, ls[0], rest);
    assert [ls[0]] + ls[1..] == ls;
  }

  // ---------------------------------------------------------------------
  // Projects filter

  /** No project survives the filter exactly when no project has content. */
  lemma {:induction false} ShownProjectsEmpty(ps: seq<Project>)
    ensures ShownProjects(ps) == [] <==> !AnyNonEmptyProject(ps)
  {
    if ps != [] && NonEmptyProject(ps[0]) {
      assert ShownProjects(ps)[0] == ps[0];
    } else if ps != [] {
      ShownProjectsEmpty(ps[1..]);
      assert AnyNonEmptyProject(ps) ==> AnyNonEmptyProject(ps[1..]) by {
        if AnyNonEmptyProject(ps) {
          var i :| 0 <= i < |ps| && NonEmptyProject(ps[i]);
          assert ps[1..][i - 1] == ps[i];
        }
      }
      assert AnyNonEmptyProject(ps[1..]) ==> AnyNonEmptyProject(ps) by {
        if AnyNonEmptyProject(ps[1..]) {
          var i :| 0 <= i < |ps[1..]| && NonEmptyProject(ps[1..][i]);
          assert ps[i + 1] == ps[1..][i];
        }
      }
    }
  }

  /** The filter works element by element, so it keeps the relative order:
      filtering a concatenation concatenates the filtered parts. */
  lemma {:induction false} ShownProjectsAppend(a: seq<Project>, b: seq<Project>)
    ensures ShownProjects(a + b) == ShownProjects(a) + ShownProjects(b)
  {
    if a == [] {
      assert a + b == b;
    } else {
      assert (a + b)[0] == a[0];
      assert (a + b)[1..] == a[1..] + b;
      ShownProjectsAppend(a[1..], b);
    }
  }

  // ---------------------------------------------------------------------
  // Section readers

  /** `s` without the trailing `suffix`, if it ends with it. */
  function DropSuffix(s: string, suffix: string): (r: Option<string>)
    ensures r.Some? <==> (|suffix| <= |s| && s[|s| - |suffix|..] == suffix)
    ensures r.Some? ==> r.value == s[..|s| - |suffix|]
  {
    if |suffix| <= |s| && s[|s| - |suffix|..] == suffix then Some(s[..|s| - |suffix|]) else None
  }

  /** The fragments of a section, once its opening and closing are removed. */
  function SectionBody(s: string, open: string): Option<string>
  {
    match Strip(s, open)
    case None => None
    case Some(t) => DropSuffix(t, SectionClose)
  }

  lemma SectionBodyOf(open: string, body: string)
    ensures |Section(open, body)| >= |open|
    ensures SectionBody(Section(open, body), open) == Some(body)
  {
    assert Section(open, body) == open + (body + SectionClose);
    StripAppend(open, body + SectionClose);
    var t := body + SectionClose;
    assert t[|t| - |SectionClose|..] == SectionClose;
    assert t[..|t| - |SectionClose|] == body;
  }

  /** Reads the skills section back to the skill list; no section is no skill. */
  function ReadSkillsSection(s: string): Option<seq<string>>
  {
    if s == "" then Some([])
    else match SectionBody(s, SkillsOpen)
      case None => None
      case Some(b) => ReadBadges(Tags, b)
  }

  /** The skills section holds one badge per skill, in input order, with
      the text as typed. */
  lemma SkillsSectionReadBack(skills: seq<string>)
    requires forall i :: 0 <= i < |skills| ==> NoLt(skills[i])
    ensures ReadSkillsSection(SkillsHTML(skills)) == Some(skills)
  {
    if skills != [] {
      OpeningsNonEmpty();
      SectionBodyOf(SkillsOpen, Concat(Badges(Tags, skills)));
      TagsReadable();
      BadgesReadBack(Tags, skills);
    }
  }

  /** Reads the projects section back to the projects it shows. */
  function ReadProjectsSection(s: string): Option<seq<Project>>
  {
    if s == "" then Some([])
    else match SectionBody(s, ProjectsOpen)
      case None => None
      case Some(b) => ReadCards(Tags, b)
  }

  /** The cards of the projects section are exactly the filtered projects,
      in their relative order, each with the heading or the paragraph left
      out when that field is empty. */
  lemma ProjectsSectionReadBack(ps: seq<Project>)
    requires forall i :: 0 <= i < |ps| ==> PlainProject(ps[i])
    ensures ReadProjectsSection(ProjectsHTML(ps)) == Some(ShownProjects(ps))
  {
    ShownProjectsEmpty(ps);
    if AnyNonEmptyProject(ps) {
      var shown := ShownProjects(ps);
      ReadProjectsSectionOf(Concat(Cards(Tags, shown)));
      ShownPlain(ps);
      TagsReadable();
      CardsReadBack(Tags, shown);
    }
  }

  lemma ReadProjectsSectionOf(body: string)
    ensures Section(ProjectsOpen, body) != ""
    ensures ReadProjectsSection(Section(ProjectsOpen, body)) == ReadCards(Tags, body)
  {
    OpeningsNonEmpty();
    SectionBodyOf(ProjectsOpen, body);
  }

  lemma ShownPlain(ps: seq<Project>)
    requires forall i :: 0 <= i < |ps| ==> PlainProject(ps[i])
    ensures forall i :: 0 <= i < |ShownProjects(ps)| ==> PlainProject(ShownProjects(ps)[i])
  {
  }

  /** Reads the contact section back to its links. */
  function ReadContactSection(s: string): Option<seq<ContactLink>>
  {
    if s == "" then Some([])
    else match SectionBody(s, ContactOpen)
      case None => None
      case Some(b) => ReadLinks(Tags, b)
  }

  /** The contact section holds exactly the links `ContactLinks` lists:
      email, GitHub, LinkedIn, one per non-empty field. */
  lemma ContactSectionReadBack(d: PortfolioData)
    requires '"' !in d.email && '"' !in d.github && '"' !in d.linkedin
    ensures ReadContactSection(ContactHTML(ContactLinks(d))) == Some(ContactLinks(d))
  {
    var ls := ContactLinks(d);
    if ls != [] {
      OpeningsNonEmpty();
      SectionBodyOf(ContactOpen, Concat(LinksHTML(Tags, ls)));
      TagsReadable();
      LinksPlain(d);
      LinksReadBack(Tags, ls);
    }
  }

  lemma LinksPlain(d: PortfolioData)
    requires '"' !in d.email && '"' !in d.github && '"' !in d.linkedin
    ensures forall i :: 0 <= i < |ContactLinks(d)| ==> '"' !in LinkText(ContactLinks(d)[i])
  {
    var ls := ContactLinks(d);
    forall i | 0 <= i < |ls|
      ensures '"' !in LinkText(ls[i])
    {
      assert ls[i] in [EmailLink(d.email), GitHubLink(d.github), LinkedInLink(d.linkedin)];
    }
  }

  // ---------------------------------------------------------------------
  // The document as a whole

  /** Every element of a list occurs in the joined list. */
  lemma {:induction false} ConcatContains(xs: seq<string>, i: nat)
    requires i < |xs|
    ensures Contains(Concat(xs), xs[i])
  {
    if i == 0 {
      ContainsConcat("", xs[0], Concat(xs[1..]));
      assert "" + xs[0] + Concat(xs[1..]) == Concat(xs);
    } else {
      ConcatContains(xs[1..], i - 1);
      ContainsGrow(Concat(xs[1..]), xs[i], xs[0], "");
      assert xs[0] + Concat(xs[1..]) + "" == Concat(xs);
    }
  }

  /** What occurs in one of three parts occurs in the parts joined with
      separators. */
  lemma ContainsJoined(x: string, y: string, z: string, gap: string, part: string)
    requires Contains(x, part) || Contains(y, part) || Contains(z, part)
    ensures Contains(x + gap + y + gap + z, part)
  {
    if Contains(x, part) {
      ContainsGrow(x, part, "", gap + y + gap + z);
      assert "" + x + (gap + y + gap + z) == x + gap + y + gap + z;
    } else if Contains(y, part) {
      ContainsGrow(y, part, x + gap, gap + z);
      assert x + gap + y + (gap + z) == x + gap + y + gap + z;
    } else {
      ContainsGrow(z, part, x + gap + y + gap, "");
      assert x + gap + y + gap + z + "" == x + gap + y + gap + z;
    }
  }

  /** What occurs in a section occurs in the document. */
  lemma SectionInDocument(d: PortfolioData, year: nat, part: string)
    requires Contains(SkillsHTML(d.skills), part) || Contains(ProjectsHTML(d.projects), part)
             || Contains(ContactHTML(ContactLinks(d)), part)
    ensures Contains(GenerateHTML(d, year), part)
  {
    ContainsJoined(SkillsHTML(d.skills), ProjectsHTML(d.projects), ContactHTML(ContactLinks(d)), Gap, part);
    MainInDocument(d, year, part);
  }

  lemma MainInDocument(d: PortfolioData, year: nat, part: string)
    requires Contains(Body(d), part)
    ensures Contains(GenerateHTML(d, year), part)
  {
    ContainsGrow(Body(d), part, Prelude(d), Postlude(d, year));
  }

  /** Each skill appears in the document verbatim inside its badge: the
      text is interpolated without escaping. */
  lemma DocumentShowsSkill(d: PortfolioData, year: nat, i: nat)
    requires i < |d.skills|
    ensures Contains(GenerateHTML(d, year), "<span class=\"skill-badge\">" + d.skills[i] + "</span>")
  {
    var body := Concat(Badges(Tags, d.skills));
    ConcatContains(Badges(Tags, d.skills), i);
    ContainsGrow(body, Badge(Tags, d.skills[i]), SkillsOpen, SectionClose);
    SectionInDocument(d, year, Badge(Tags, d.skills[i]));
  }

  /** Each project with a title or a description appears in the document
      as its card, with the text verbatim. */
  lemma DocumentShowsProject(d: PortfolioData, year: nat, i: nat)
    requires i < |d.projects| && NonEmptyProject(d.projects[i])
    ensures Contains(GenerateHTML(d, year), Card(Tags, d.projects[i]))
  {
    var shown := ShownProjects(d.projects);
    var k :| 0 <= k < |shown| && shown[k] == d.projects[i];
    assert AnyNonEmptyProject(d.projects);
    var body := Concat(Cards(Tags, shown));
    ConcatContains(Cards(Tags, shown), k);
    ContainsGrow(body, Card(Tags, shown[k]), ProjectsOpen, SectionClose);
    SectionInDocument(d, year, Card(Tags, shown[k]));
  }

  /** Each set contact field appears in the document as its link; the
      email address behind `mailto:`. */
  lemma DocumentShowsContact(d: PortfolioData, year: nat, l: ContactLink)
    requires l in ContactLinks(d)
    ensures Contains(GenerateHTML(d, year), LinkHTML(Tags, l))
  {
    var ls := ContactLinks(d);
    var k :| 0 <= k < |ls| && ls[k] == l;
    var body := Concat(LinksHTML(Tags, ls));
    ConcatContains(LinksHTML(Tags, ls), k);
    ContainsGrow(body, LinkHTML(Tags, l), ContactOpen, SectionClose);
    SectionInDocument(d, year, LinkHTML(Tags, l));
  }

  /** Each section is emitted exactly when its condition holds: skills
      when there is one, projects when one has content, contact when a
      link was pushed (by `ContactLinks`, when a contact field is set). */
  lemma SectionsNonEmpty(d: PortfolioData)
    ensures SkillsHTML(d.skills) == "" <==> d.skills == []
    ensures ProjectsHTML(d.projects) == "" <==> !AnyNonEmptyProject(d.projects)
    ensures ContactHTML(ContactLinks(d)) == "" <==> ContactLinks(d) == []
  {
    OpeningsNonEmpty();
    if d.skills != [] {
      SectionLength(SkillsOpen, Concat(Badges(Tags, d.skills)));
    }
    if AnyNonEmptyProject(d.projects) {
      SectionLength(ProjectsOpen, Concat(Cards(Tags, ShownProjects(d.projects))));
    }
    if ContactLinks(d) != [] {
      SectionLength(ContactOpen, Concat(LinksHTML(Tags, ContactLinks(d))));
    }
  }

  lemma OpeningsNonEmpty()
    ensures |SkillsOpen| > 0 && |ProjectsOpen| > 0 && |ContactOpen| > 0
  {
  }

  lemma SectionLength(open: string, body: string)
    ensures |Section(open, body)| >= |open|
  {
  }

  /** `<main>` holds nothing but indentation exactly when there is nothing
      to show: no skill, no project with content and no contact field. */
  lemma EmptyBody(d: PortfolioData)
    ensures Body(d) == Gap + Gap
            <==> (d.skills == [] && !AnyNonEmptyProject(d.projects)
                  && d.email == "" && d.github == "" && d.linkedin == "")
  {
    SectionsNonEmpty(d);
    JoinedEmpty(SkillsHTML(d.skills), ProjectsHTML(d.projects), ContactHTML(ContactLinks(d)), Gap);
  }

  /** Three parts joined by a separator give two separators exactly when
      all three parts are empty. */
  lemma JoinedEmpty(a: string, b: string, c: string, gap: string)
    ensures a + gap + b + gap + c == gap + gap <==> (a == [] && b == [] && c == [])
  {
    if a + gap + b + gap + c == gap + gap {
      assert |a + gap + b + gap + c| == |a| + |b| + |c| + 2 * |gap|;
    }
    if a == [] && b == [] && c == [] {
      assert a + gap == gap;
    }
  }

  /** Because nothing is escaped, a skill that holds markup forges a second
      badge: the skill `x</span><span class="skill-badge">y` renders exactly
      like the two skills `x` and `y`. */
  lemma RawSkillForgesBadges(m: Markup, x: string, y: string)
    ensures Concat(Badges(m, [x + m.badgeClose + m.badgeOpen + y])) == Concat(Badges(m, [x, y]))
  {
    var o, c := m.badgeOpen, m.badgeClose;
    assert Concat(Badges(m, [x + c + o + y])) == o + (x + c + o + y) + c + "";
    assert Badges(m, [x, y])[1..] == Badges(m, [y]);
    assert Concat(Badges(m, [x, y])) == o + x + c + (o + y + c + "");
  }
}
