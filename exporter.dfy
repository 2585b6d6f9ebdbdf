/** The name `handleDownload` gives the archive it saves. */
module ArchiveName {
  import opened Text

  const ArchiveSuffix := "_portfolio.zip"

  /** The archive name: a non-empty name with each run of white space made
      one underscore and then lower-cased, followed by `_portfolio.zip`;
      `portfolio.zip` for an empty name.  The name is not trimmed. */
  function FileName(fullName: string): (r: string)
    ensures fullName == "" ==> r == "portfolio.zip"
    ensures fullName != "" ==> |r| >= |ArchiveSuffix| && r[|r| - |ArchiveSuffix|..] == ArchiveSuffix
  {
    if fullName != "" then ToLower(CollapseSpace(fullName)) + ArchiveSuffix else "portfolio.zip"
  }

  predicate NoUpper(s: string)
  {
    forall i :: 0 <= i < |s| ==> !('A' <= s[i] <= 'Z')
  }

  /** The archive name holds no white space and no upper-case letter, and
      is never longer than the name plus the suffix. */
  lemma FileNameClean(fullName: string)
    ensures NoSpace(FileName(fullName)) && NoUpper(FileName(fullName))
    ensures |FileName(fullName)| <= |fullName| + |ArchiveSuffix|
  {
    FixedNamesClean();
    if fullName != "" {
      CollapseSpaceNoSpace(fullName);
      CollapseSpaceShorter(fullName);
      LowerClean(CollapseSpace(fullName));
      AppendClean(ToLower(CollapseSpace(fullName)), ArchiveSuffix);
    }
  }

  lemma FixedNamesClean()
    ensures NoSpace(ArchiveSuffix) && NoUpper(ArchiveSuffix)
    ensures NoSpace("portfolio.zip") && NoUpper("portfolio.zip")
  {
  }

  lemma LowerClean(s: string)
    requires NoSpace(s)
    ensures NoSpace(ToLower(s)) && NoUpper(ToLower(s))
  {
  }

  lemma AppendClean(a: string, b: string)
    requires NoSpace(a) && NoUpper(a) && NoSpace(b) && NoUpper(b)
    ensures NoSpace(a + b) && NoUpper(a + b)
  {
  }

  /** `"Jane Doe"` gives `jane_doe_portfolio.zip`. */
  lemma FileNameExample()
    ensures FileName("Jane Doe") == "jane_doe" + ArchiveSuffix
  {
    CollapseJoin("Jane", " ", "Doe");
    CollapseSpaceIdentity("Doe");
    assert "Jane" + " " + "Doe" == "Jane Doe";
    assert "Jane" + "_" + "Doe" == "Jane_Doe";
    LowerJaneDoe();
  }

  lemma LowerJaneDoe()
    ensures ToLower("Jane_Doe") == "jane_doe"
  {
    var l := ToLower("Jane_Doe");
    assert LowerChar('J') == 'j' && LowerChar('D') == 'd';
    assert l[0] == 'j' && l[1] == 'a' && l[2] == 'n' && l[3] == 'e';
    assert l[4] == '_' && l[5] == 'd' && l[6] == 'o' && l[7] == 'e';
  }

  /** The stem of the archive name for any name that is not all white
      space: words separated by runs of white space, with an optional run in
      front and an optional run after.  Each run becomes one underscore and
      the result is lowered; nothing is trimmed. */
  lemma FileNameOfWords(lead: string, w: string, rest: seq<(string, string)>, trail: string)
    requires lead == [] || IsGap(lead)
    requires WordsAndGaps(w, rest)
    requires trail == [] || IsGap(trail)
    ensures FileName(lead + Spaced(w, rest) + trail)
            == ToLower(Under(lead) + Underscored(w, rest) + Under(trail)) + ArchiveSuffix
  {
    CollapseWords(lead, w, rest, trail);
    SpacedStartsWithWord(w, rest);
    assert |lead + Spaced(w, rest) + trail| > 0;
  }

  /** A name made only of white space gives `_portfolio.zip`. */
  lemma FileNameAllSpace(g: string)
    requires IsGap(g)
    ensures FileName(g) == "_" + ArchiveSuffix
  {
    CollapseJoin("", g, "");
    assert "" + g + "" == g;
    assert ToLower("_") == "_";
  }

  /** `"Mary Ann  Smith"`, with two spaces before the surname, gives
      `mary_ann_smith_portfolio.zip`. */
  lemma FileNameTwoRuns()
    ensures FileName("Mary Ann  Smith") == "mary" + "_" + "ann" + "_" + "smith" + ArchiveSuffix
  {
    var rest := [(" ", "Ann"), ("  ", "Smith")];
    MaryAnnSmithWords();
    FileNameOfWords("", "Mary", rest, "");
    MaryAnnSmithSpaced();
    MaryAnnSmithLowered();
  }

  lemma MaryAnnSmithWords()
    ensures WordsAndGaps("Mary", [(" ", "Ann"), ("  ", "Smith")])
  {
    var rest := [(" ", "Ann"), ("  ", "Smith")];
    assert IsGap(rest[0].0) && IsWord(rest[0].1);
    assert IsGap(rest[1].0) && IsWord(rest[1].1);
  }

  lemma MaryAnnSmithSpaced()
    ensures "" + Spaced("Mary", [(" ", "Ann"), ("  ", "Smith")]) + "" == "Mary Ann  Smith"
  {
    var rest := [(" ", "Ann"), ("  ", "Smith")];
    assert rest[1..][1..] == [];
    assert Spaced("Smith", []) == "Smith";
    assert Spaced("Ann", rest[1..]) == "Ann" + "  " + "Smith";
    assert Spaced("Mary", rest) == "Mary" + " " + ("Ann" + "  " + "Smith");
  }

  lemma MaryAnnSmithLowered()
    ensures ToLower(Under("") + Underscored("Mary", [(" ", "Ann"), ("  ", "Smith")]) + Under(""))
            == "mary" + "_" + "ann" + "_" + "smith"
  {
    var rest := [(" ", "Ann"), ("  ", "Smith")];
    assert rest[1..][1..] == [];
    assert Underscored("Smith", []) == "Smith";
    assert Underscored("Ann", rest[1..]) == "Ann" + "_" + "Smith";
    var u := Underscored("Mary", rest);
    assert Under("") + u + Under("") == "Mary" + "_" + "Ann" + "_" + "Smith";
    LowerWord("Mary", "mary");
    LowerWord("Ann", "ann");
    LowerWord("Smith", "smith");
    LowerThreeWords("Mary", "Ann", "Smith");
  }

  /** Lowering three words joined by underscores lowers each word. */
  lemma LowerThreeWords(a: string, b: string, c: string)
    ensures ToLower(a + "_" + b + "_" + c) == ToLower(a) + "_" + ToLower(b) + "_" + ToLower(c)
  {
    ToLowerAppend(a + "_" + b + "_", c);
    ToLowerAppend(a + "_" + b, "_");
    ToLowerAppend(a + "_", b);
    ToLowerAppend(a, "_");
    assert ToLower("_") == "_";
  }

  /** `lower` is `word` with its first letter lowered. */
  lemma LowerWord(word: string, lower: string)
    requires |word| == |lower| > 0 && 'A' <= word[0] <= 'Z' && lower[0] == word[0] - 'A' + 'a'
    requires forall i :: 1 <= i < |word| ==> 'a' <= word[i] <= 'z' && lower[i] == word[i]
    ensures ToLower(word) == lower
  {
  }

  /** Surrounding white space is kept as underscores, not trimmed: a name
      typed as `" Jane\t"` gives `_jane__portfolio.zip`. */
  lemma FileNameKeepsPadding(stem: string)
    requires stem != [] && NoSpace(stem)
    ensures FileName(" " + stem + "\t") == "_" + ToLower(stem) + "_" + ArchiveSuffix
  {
    CollapsePadded(stem);
    LowerPadded(stem);
  }

  lemma LowerPadded(stem: string)
    ensures ToLower("_" + stem + "_") == "_" + ToLower(stem) + "_"
  {
    ToLowerAppend("_", stem + "_");
    ToLowerAppend(stem, "_");
    assert ToLower("_") == "_";
    assert "_" + stem + "_" == "_" + (stem + "_");
  }

  lemma CollapsePadded(stem: string)
    requires stem != [] && NoSpace(stem)
    ensures CollapseSpace(" " + stem + "\t") == "_" + stem + "_"
  {
    var s := " " + stem + "\t";
    CollapseJoin(stem, "\t", "");
    assert stem + "\t" + "" == stem + "\t";
    assert s[1..] == stem + "\t";
    assert !IsSpace((stem + "\t")[0]);
    assert SkipSpace(s[1..]) == stem + "\t";
  }
}

/** The download button around the two generators: the test that makes the
    button clickable, the pre-flight test that aborts a click on an empty
    portfolio, the archive's file name, and what a click produces. */
module Exporter {
  import opened Types
  import opened Text
  import opened ExportHtml
  import ExportCss
  import opened ArchiveName

  /** The pre-flight test of `handleDownload`: no name, no role, no skill
      and no project with a title or a description.  Contact fields do not
      count. */
  predicate EmptyForExport(d: PortfolioData): (r: bool)
    ensures r <==> HeroHeading(d) == "" && HeroRole(d) == ""
                   && SkillsHTML(d.skills) == "" && ProjectsHTML(d.projects) == ""
  {
    HeroFallbacks(d);
    SectionsNonEmpty(d);
    d.fullName == "" && d.role == "" && |d.skills| == 0 && !AnyNonEmptyProject(d.projects)
  }

  /** `hasContent`: the same fields plus the e-mail address, but neither
      GitHub nor LinkedIn. */
  predicate HasContent(d: PortfolioData): (r: bool)
    ensures r <==> !EmptyForExport(d) || d.email != ""
  {
    d.fullName != "" || d.role != "" || |d.skills| > 0
    || AnyNonEmptyProject(d.projects) || d.email != ""
  }

  /** `disabled={!hasContent || isGenerating}`, negated. */
  predicate ButtonEnabled(d: PortfolioData, generating: bool): (r: bool)
    ensures r ==> !generating && (!EmptyForExport(d) || d.email != "")
    ensures !generating && !EmptyForExport(d) ==> r
  {
    HasContent(d) && !generating
  }

  /** The two gates differ only in the e-mail address. */
  lemma GatesRelated(d: PortfolioData)
    ensures HasContent(d) <==> (!EmptyForExport(d) || d.email != "")
    ensures ButtonEnabled(d, false) <==> HasContent(d)
    ensures !ButtonEnabled(d, true)
  {
  }

  /** An e-mail address alone enables the button, and the click then aborts. */
  lemma EmailOnlyEnabledButAborts(email: string)
    requires email != ""
    ensures ButtonEnabled(PortfolioData("", "", [], [], email, "", ""), false)
    ensures EmptyForExport(PortfolioData("", "", [], [], email, "", ""))
  {
  }

  /** A GitHub or LinkedIn address alone leaves the button disabled, even
      though the page would have a contact section. */
  lemma ProfileOnlyDisabled(github: string, linkedin: string)
    requires github != "" || linkedin != ""
    ensures !ButtonEnabled(PortfolioData("", "", [], [], "", github, linkedin), false)
    ensures ContactHTML(ContactLinks(PortfolioData("", "", [], [], "", github, linkedin))) != ""
  {
    SectionsNonEmpty(PortfolioData("", "", [], [], "", github, linkedin));
  }

  /** What a click on the button yields: nothing when the pre-flight test
      finds the portfolio empty, otherwise the two files and the archive
      name. */
  datatype Download =
    | Aborted
    | Package(indexHtml: string, styleCss: seq<ExportCss.Block>, fileName: string)

  /** `handleDownload`, with the calendar year as a parameter and the
      archive's construction and saving left out. */
  function HandleDownload(d: PortfolioData, c: CustomizationData, year: nat): (r: Download)
    ensures r.Aborted? <==> EmptyForExport(d)
  {
    if EmptyForExport(d) then Aborted
    else Package(GenerateHTML(d, year), ExportCss.GenerateCSS(c), FileName(d.fullName))
  }

  /** A page that passes the pre-flight test shows something: a heading,
      a role, or a non-blank body. */
  lemma PackageShowsSomething(d: PortfolioData)
    requires !EmptyForExport(d)
    ensures HeroHeading(d) != "" || HeroRole(d) != "" || Body(d) != Gap + Gap
  {
    EmptyBody(d);
  }

  /** Conversely, every page that is blank apart from the hero text aborts
      unless it has a heading or a role. */
  lemma BlankPageAborts(d: PortfolioData)
    requires HeroHeading(d) == "" && HeroRole(d) == "" && Body(d) == Gap + Gap
    ensures EmptyForExport(d)
  {
    EmptyBody(d);
  }
}
