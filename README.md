# Portfolio generator — a Dafny model of its core

The portfolio generator is a single-page React application. A user fills in a
content form (name, role, skills, up to three projects, e-mail, GitHub and
LinkedIn) and tunes three settings panels (theme, layout, animations). A live
preview shows the result, and a download button packs a static site, `index.html`
and `style.css`, into a ZIP archive. This project models the logic behind those
screens and proves properties of it:

- `types.dfy` (`Types`): the two records the page holds, `PortfolioData` and
  `CustomizationData`, with the closed string unions as enumerations.
- `text.dfy` (`Text`): the string primitives the source relies on. These are
  `trim`, `replace(/\s+/g, '_')`, `toLowerCase`, decimal rendering of numbers
  and `join('')`. It also defines a substring test, which the properties of
  the generated document are stated with.
- `export_html.dfy` (`ExportHtml`): `generateHTML` as the exact string it
  builds, plus readers that parse each section back.
- `export_css.dfy` (`ExportCss`): `generateCSS` as an ordered list of rules,
  keyframes and media queries with typed values.
- `exporter.dfy` (`ArchiveName`, `Exporter`): the archive's file name, the
  pre-flight test of `handleDownload` and the `hasContent` test that enables
  the button.
- `form.dfy` (`Form`): the handlers of the content form, and the invariant
  they keep.
- `layout_customizer.dfy`, `animation_customizer.dfy`, `theme_customizer.dfy`:
  the three settings panels. This covers their one-field updates, presets,
  reset buttons and slider grids. It also covers the preview boxes and the
  summary label of the animation panel. The theme panel's state holder is a
  class, because its colour-preset handler makes three state updates in a row.
- `preview.dfy` (`Preview`): the live preview's own decisions. The content
  gate, the sections shown, the cards, the entrance animation, the font, the
  section spacing, the dividers, the hero alignment and the card layout are
  each compared with the exporter's. The stagger delays are the preview's
  alone: the stylesheet has no stagger.
- `generator.dfy` (`Generator`): the initial records, and sessions of panel
  actions and form edits starting from them.

## Model

| member | source | states |
|---|---|---|
| Types.EntranceName | src/components/PortfolioGenerator.tsx:42 | an entrance kind's name is `none` exactly for the kind that disables animation |
| Text.TrimIsTrimmed | src/components/PortfolioForm.tsx:22 | `trim` leaves no white space at either end |
| Text.TrimIdempotent | src/components/PortfolioForm.tsx:22 | trimming twice is trimming once |
| Text.ToLowerAppend | src/components/DownloadButton.tsx:388 | lowering case distributes over concatenation |
| Text.CollapseSpaceNoSpace | src/components/DownloadButton.tsx:388 | after `replace(/\s+/g, '_')` no white space is left |
| Text.CollapseSpaceIdentity | src/components/DownloadButton.tsx:388 | a string without white space is unchanged by the replacement |
| Text.CollapseJoin | src/components/DownloadButton.tsx:388 | a run of white space of any length after a word becomes exactly one `_`, the word kept as it is |
| Text.CollapseLead | src/components/DownloadButton.tsx:388 | a leading run of white space of any length becomes one `_` |
| Text.CollapseSpaced | src/components/DownloadButton.tsx:388 | any number of words separated by runs of any length becomes the words joined by single `_`, with a trailing run as one trailing `_` |
| Text.CollapseWords | src/components/DownloadButton.tsx:388 | words and runs with an optional leading and trailing run: each run, wherever it is, becomes exactly one `_` |
| Text.CollapseSpaceShorter | src/components/DownloadButton.tsx:388 | the replacement never lengthens the string |
| Text.CollapseSpaceIdempotent | src/components/DownloadButton.tsx:388 | replacing twice is replacing once |
| Text.NatToDecimalRoundTrip | src/components/AnimationCustomizer.tsx:252 | the decimal rendering of a number reads back to that number |
| Text.ConcatAppend | src/components/DownloadButton.tsx:23 | `join('')` of two lists is the join of each, concatenated |
| ExportHtml.OrElse | src/components/DownloadButton.tsx:63 | `a \|\| b` on strings yields one of its operands, the first when it is non-empty, and is empty only when both are |
| ExportHtml.Badges | src/components/DownloadButton.tsx:23 | one badge per skill, in input order |
| ExportHtml.ShownProjects | src/components/DownloadButton.tsx:32-33 | the filter keeps exactly the projects with a title or a description, and no other |
| ExportHtml.Cards | src/components/DownloadButton.tsx:34-39 | one card per shown project, in order |
| ExportHtml.ContactLinks | src/components/DownloadButton.tsx:44-47 | a link for each non-empty contact field and only those, in e-mail, GitHub, LinkedIn order; empty exactly when all three fields are empty |
| ExportHtml.CollectContactLinks | src/components/DownloadButton.tsx:44-47 | the three conditional pushes build exactly `ContactLinks` |
| ExportHtml.HeroFallbacks | src/components/DownloadButton.tsx:70-71 | the `<h1>` is omitted exactly when the name is empty; the role paragraph exactly when the role is empty |
| ExportHtml.NameFallbacks | src/components/DownloadButton.tsx:63-64 | an empty name reads as `Portfolio` in the title and the footer, and as `a talented professional` in the description |
| ExportHtml.RoleSuffix | src/components/DownloadButton.tsx:64 | a role appends `, role` to the description, and no role appends nothing |
| ExportHtml.BadgesReadBack | src/components/DownloadButton.tsx:23 | joined badges parse back to exactly the skill list when no skill contains `<` |
| ExportHtml.CardsReadBack | src/components/DownloadButton.tsx:34-39 | joined cards parse back to exactly the projects when no title or description contains `<` |
| ExportHtml.LinksReadBack | src/components/DownloadButton.tsx:44-53 | joined contact links parse back to exactly the links when no link's contact field contains `"` |
| ExportHtml.ShownProjectsEmpty | src/components/DownloadButton.tsx:28-33 | the filter is empty exactly when `some` is false |
| ExportHtml.ShownProjectsAppend | src/components/DownloadButton.tsx:33 | the filter works element by element, so relative order is kept |
| ExportHtml.SkillsSectionReadBack | src/components/DownloadButton.tsx:19-26 | the skills section holds the skills, in order; no skills gives no section |
| ExportHtml.ProjectsSectionReadBack | src/components/DownloadButton.tsx:28-42 | the projects section holds exactly the filtered projects when no title or description contains `<` |
| ExportHtml.ContactSectionReadBack | src/components/DownloadButton.tsx:49-56 | the contact section holds exactly the pushed links when no contact field contains `"` |
| ExportHtml.DocumentShowsSkill | src/components/DownloadButton.tsx:23 | each skill occurs in the document inside its badge |
| ExportHtml.DocumentShowsProject | src/components/DownloadButton.tsx:34-39 | each project with content occurs in the document as its card |
| ExportHtml.DocumentShowsContact | src/components/DownloadButton.tsx:44-53 | each set contact field occurs in the document as its link |
| ExportHtml.GenerateHTML | src/components/DownloadButton.tsx:18-86 | the document holds the skills, projects and contact sections |
| ExportHtml.JoinedParts | src/components/DownloadButton.tsx:75-79 | each section joined into `<main>` occurs in the whole document |
| ExportHtml.SectionsNonEmpty | src/components/DownloadButton.tsx:19-56 | each section is emitted exactly when its condition holds |
| ExportHtml.EmptyBody | src/components/DownloadButton.tsx:75-79 | `<main>` holds only indentation exactly when there are no skills, no projects with content and no contact fields |
| ExportHtml.RawSkillForgesBadges | src/components/DownloadButton.tsx:23 | skills are not escaped: one skill holding markup renders exactly as two badges |
| ExportCss.FontStack | src/components/DownloadButton.tsx:89-96 | always one of the table's four stacks; the inter stack exactly when the key is not system, serif or mono |
| ExportCss.KeyframeBlocks | src/components/DownloadButton.tsx:288-313 | the animation part holds only `@keyframes` blocks |
| ExportCss.FontTableKeys | src/components/DownloadButton.tsx:89-94 | the font table has exactly the keys inter, system, serif, mono |
| ExportCss.SmallHeroHeight | src/components/DownloadButton.tsx:349 | below 480px the hero keeps 80% of its height, but never less than 200px |
| ExportCss.GenerateCSS | src/components/DownloadButton.tsx:88-360 | the stylesheet opens with its title comment, ends with the 768px and 480px media queries, and has every rule before any keyframes or media query |
| ExportCss.TailHasNoStyles | src/components/DownloadButton.tsx:288-359 | the keyframes and media part holds no top-level rule and ends with the two media queries |
| ExportCss.RulesFirst | src/components/DownloadButton.tsx:88-360 | a title comment, then rules, then other blocks: no rule follows a non-rule block |
| ExportCss.RulesBySelector | src/components/DownloadButton.tsx:98-286 | the stylesheet holds exactly the top-level rules `RuleFor` gives, at most one per selector |
| ExportCss.TailBlocksOnly | src/components/DownloadButton.tsx:288-359 | keyframes and media queries come only from the tail, after the rules |
| ExportCss.DeclaresVia | src/components/DownloadButton.tsx:98-286 | what a selector declares is what its rule declares |
| ExportCss.EntranceAnimation | src/components/DownloadButton.tsx:151-153 | the hero title and the sections get an `animation` exactly when an entrance is chosen, naming that entrance |
| ExportCss.SectionSpacing | src/components/DownloadButton.tsx:169 | section margin is 24px in compact mode and the chosen spacing otherwise |
| ExportCss.SectionDividers | src/components/DownloadButton.tsx:180-183 | headings get a border and padding exactly when dividers are on |
| ExportCss.HoverRules | src/components/DownloadButton.tsx:204-276 | the three hover rules exist exactly when hover effects are on |
| ExportCss.ProjectsGridLayout | src/components/DownloadButton.tsx:213-217 | auto-fit 300px grid columns in grid mode, a flex column otherwise |
| ExportCss.BodyFont | src/components/DownloadButton.tsx:96-125 | the body font is the chosen stack, or the inter stack for an unknown key |
| ExportCss.HeroJustify | src/components/DownloadButton.tsx:140-143 | centre, right and left alignment map to center, flex-end and flex-start |
| ExportCss.HeroTitleSize | src/components/DownloadButton.tsx:147 | the title is 2.5 times the base size |
| ExportCss.HeroRoleSize | src/components/DownloadButton.tsx:157 | the role line is 1.25 times the base size |
| ExportCss.SectionHeadingSize | src/components/DownloadButton.tsx:176 | headings are 1.5 times the base size |
| ExportCss.CardTitleSize | src/components/DownloadButton.tsx:236 | card titles are 1.25 times the base size |
| ExportCss.BadgeSize | src/components/DownloadButton.tsx:198 | badges are 0.875 times the base size |
| ExportCss.ContactLinkSize | src/components/DownloadButton.tsx:266 | contact links are 0.875 times the base size |
| ExportCss.FooterSize | src/components/DownloadButton.tsx:284 | the footer is 0.875 times the base size |
| ExportCss.SmallScreens | src/components/DownloadButton.tsx:316-359 | below 768px the title, role and headings are 2, 1.1 and 1.25 times the base size; below 480px the title is 1.75 times it and the hero is at least 200px high |
| ExportCss.MediaQueries | src/components/DownloadButton.tsx:316-359 | the media queries are at 768px and 480px only |
| ExportCss.KeyframesPresent | src/components/DownloadButton.tsx:288-313 | keyframes are written exactly when an entrance is chosen |
| ExportCss.EntranceHasKeyframes | src/components/DownloadButton.tsx:288-313 | every entrance the rules name has keyframes of that name |
| ArchiveName.FileName | src/components/DownloadButton.tsx:387-389 | `portfolio.zip` for an empty name; otherwise a name ending in `_portfolio.zip` |
| ArchiveName.FileNameOfWords | src/components/DownloadButton.tsx:387-389 | for any name of words separated by runs of white space of any length, with optional runs in front and after, the archive name is the lowered words joined by single `_`, one `_` per outer run, then `_portfolio.zip` |
| ArchiveName.FileNameAllSpace | src/components/DownloadButton.tsx:387-389 | a name of white space only gives `_portfolio.zip` |
| ArchiveName.FileNameTwoRuns | src/components/DownloadButton.tsx:388 | `Mary Ann  Smith`, with two spaces before the surname, gives `mary_ann_smith_portfolio.zip` |
| ArchiveName.LowerThreeWords | src/components/DownloadButton.tsx:388 | lowering words joined by `_` lowers each word |
| ArchiveName.FileNameClean | src/components/DownloadButton.tsx:387-389 | the archive name has no white space and no capital letter, and is no longer than the name plus the suffix |
| ArchiveName.FileNameExample | src/components/DownloadButton.tsx:388 | `Jane Doe` gives `jane_doe_portfolio.zip` |
| ArchiveName.FileNameKeepsPadding | src/components/DownloadButton.tsx:388 | surrounding white space is not trimmed: it becomes leading and trailing `_` |
| Exporter.EmptyForExport | src/components/DownloadButton.tsx:363 | the pre-flight test finds the portfolio empty exactly when the page would have no heading, no role, no skills section and no projects section |
| Exporter.HasContent | src/components/DownloadButton.tsx:409-410 | the content test passes exactly when the pre-flight test passes or an e-mail address is set |
| Exporter.ButtonEnabled | src/components/DownloadButton.tsx:415 | an enabled button means no download is running and there is content or an e-mail address; any content that passes the pre-flight test enables it when idle |
| Exporter.GatesRelated | src/components/DownloadButton.tsx:363-415 | the button test is the pre-flight test widened by the e-mail address; generating always disables the button |
| Exporter.EmailOnlyEnabledButAborts | src/components/DownloadButton.tsx:363-415 | an e-mail address alone enables the button, and the click then aborts |
| Exporter.ProfileOnlyDisabled | src/components/DownloadButton.tsx:409-415 | a GitHub or LinkedIn address alone leaves the button disabled, though the page would have a contact section |
| Exporter.HandleDownload | src/components/DownloadButton.tsx:362-406 | the download aborts exactly when the pre-flight test finds the portfolio empty |
| Exporter.PackageShowsSomething | src/components/DownloadButton.tsx:363-380 | a page that passes the pre-flight test shows a heading, a role or a section |
| Exporter.BlankPageAborts | src/components/DownloadButton.tsx:363-380 | a page that would show no heading, no role and no section is refused |
| Form.UpdateField | src/components/PortfolioForm.tsx:17-19 | the field takes the value and nothing else changes |
| Form.UpdateFieldTwice | src/components/PortfolioForm.tsx:17-19 | writing a field twice keeps only the second value |
| Form.AddSkill | src/components/PortfolioForm.tsx:21-25 | the trimmed skill is appended exactly when it is non-empty and new; otherwise nothing changes |
| Form.AddSkillKeepsValid | src/components/PortfolioForm.tsx:21-25 | skills stay trimmed, non-empty and distinct |
| Form.AddSkillIdempotent | src/components/PortfolioForm.tsx:21-25 | adding the same text twice adds it once |
| Form.RemoveAt | src/components/PortfolioForm.tsx:28 | filtering by index drops one element in range and none out of range |
| Form.RemoveAtSlices | src/components/PortfolioForm.tsx:28 | the filter is exactly the list without the element at the index |
| Form.RemoveSkill | src/components/PortfolioForm.tsx:27-29 | only the skill list changes |
| Form.RemoveSkillKeepsValid | src/components/PortfolioForm.tsx:27-29 | skills stay valid, and the removed skill is gone |
| Form.AddProject | src/components/PortfolioForm.tsx:40-42 | one empty project is appended, and the earlier ones are kept |
| Form.UpdateProject | src/components/PortfolioForm.tsx:44-49 | only the indexed project's field changes |
| Form.RemoveProject | src/components/PortfolioForm.tsx:51-55 | a no-op with one project or none; otherwise the index filter |
| Form.RemoveProjectKeepsOne | src/components/PortfolioForm.tsx:51-55 | at least one project is always left |
| Form.ApplyEditKeepsInvariant | src/components/PortfolioForm.tsx:17-55 | every form action keeps the skills valid and the project count between 1 and 3, given the add button's limit at line 126 |
| Form.ApplyEditsKeepsInvariant | src/components/PortfolioForm.tsx:17-55 | so does any sequence of form actions |
| LayoutCustomizer.UpdateLayout | src/components/LayoutCustomizer.tsx:51-56 | the edited key takes the value; every other key, the theme and the animations are kept |
| LayoutCustomizer.UpdateLayoutIdempotent | src/components/LayoutCustomizer.tsx:51-56 | repeating an edit changes nothing |
| LayoutCustomizer.ApplyLayoutPreset | src/components/LayoutCustomizer.tsx:58-69 | mode, alignment, spacing and width come from the preset, and the other keys are kept |
| LayoutCustomizer.ApplyLayoutPresetIdempotent | src/components/LayoutCustomizer.tsx:58-69 | applying a preset twice is applying it once |
| LayoutCustomizer.ApplyLayoutPresetLastWins | src/components/LayoutCustomizer.tsx:58-69 | of two presets in a row, only the second counts |
| LayoutCustomizer.ResetLayout | src/components/LayoutCustomizer.tsx:71-84 | the whole layout is replaced by the fixed defaults, and nothing else changes |
| LayoutCustomizer.ResetLayoutForgets | src/components/LayoutCustomizer.tsx:71-84 | the reset does not depend on the previous layout |
| LayoutCustomizer.LayoutOpsStayOnSliders | src/components/LayoutCustomizer.tsx:15-204 | edits, presets and the reset keep width, spacing and hero height on their sliders' grids |
| LayoutCustomizer.PreviewGap | src/components/LayoutCustomizer.tsx:244 | the preview gap is spacing / 8 with no fraction, from 2 to 12 |
| LayoutCustomizer.PreviewColumns | src/components/LayoutCustomizer.tsx:243 | two columns exactly in grid mode |
| AnimationCustomizer.UpdateAnimation | src/components/AnimationCustomizer.tsx:57-62 | the edited key takes the value, and everything else is kept |
| AnimationCustomizer.ApplyAnimationPreset | src/components/AnimationCustomizer.tsx:64-74 | entrance, hover and speed come from the preset; stagger and parallax are kept |
| AnimationCustomizer.ApplyAnimationPresetIdempotent | src/components/AnimationCustomizer.tsx:64-74 | applying a preset twice is applying it once |
| AnimationCustomizer.ResetAnimations | src/components/AnimationCustomizer.tsx:76-87 | the animation record is replaced by the defaults |
| AnimationCustomizer.ResetAnimationsForgets | src/components/AnimationCustomizer.tsx:76-87 | the reset does not depend on the previous record |
| AnimationCustomizer.AnimationOpsStayOnSliders | src/components/AnimationCustomizer.tsx:16-190 | edits, presets and the reset keep speed and stagger on their grids |
| AnimationCustomizer.Find | src/components/AnimationCustomizer.tsx:251 | `find` returns a table entry of the kind asked for, or none when the table has no such entry |
| AnimationCustomizer.AnimationTypesComplete | src/components/AnimationCustomizer.tsx:47-54 | every entrance kind is in the table |
| AnimationCustomizer.AnimationTypesDistinct | src/components/AnimationCustomizer.tsx:47-54 | no kind is listed twice |
| AnimationCustomizer.SummaryLabelUsesTable | src/components/AnimationCustomizer.tsx:250-253 | the label is the table's name for the kind plus the speed; `undefined` never appears |
| AnimationCustomizer.PreviewBoxesStaggered | src/components/AnimationCustomizer.tsx:233-245 | the boxes start one stagger apart, in order, within 900 ms, each running for the chosen speed |
| ThemeCustomizer.UpdateTheme | src/components/ThemeCustomizer.tsx:25-30 | the edited key takes the value, and everything else is kept |
| ThemeCustomizer.ColorPresetPayloads | src/components/ThemeCustomizer.tsx:32-36 | three payloads, all built from the same snapshot |
| ThemeCustomizer.PayloadsChangeOneKeyEach | src/components/ThemeCustomizer.tsx:32-36 | each payload changes one colour of the snapshot only |
| ThemeCustomizer.NoPayloadCarriesPreset | src/components/ThemeCustomizer.tsx:32-36 | no payload carries the whole preset |
| ThemeCustomizer.Session.OnChange | src/components/PortfolioGenerator.tsx:141 | the payload replaces the state |
| ThemeCustomizer.Session.ApplyColorPreset | src/components/ThemeCustomizer.tsx:32-36 | the final state is the snapshot with only the gradient changed; primary and accent are lost |
| ThemeCustomizer.ColorPresetLosesPrimary | src/components/ThemeCustomizer.tsx:32-36 | from the reset theme, Vibrant Purple leaves the old primary colour |
| ThemeCustomizer.ColorPresetIntended | src/components/ThemeCustomizer.tsx:32-36 | all three colours are set and nothing else changes |
| ThemeCustomizer.ColorPresetIntendedIsChained | src/components/ThemeCustomizer.tsx:32-36 | the corrected update is the three edits chained, each on the previous result |
| ThemeCustomizer.Session.ApplyColorPresetIntended | src/components/ThemeCustomizer.tsx:32-36 | one payload with all three colours |
| ThemeCustomizer.ResetTheme | src/components/ThemeCustomizer.tsx:38-50 | the theme is replaced by the defaults |
| ThemeCustomizer.ResetThemeForgets | src/components/ThemeCustomizer.tsx:38-50 | the reset does not depend on the previous theme |
| ThemeCustomizer.ResetIsFirstPreset | src/components/ThemeCustomizer.tsx:15-50 | the reset colours are the first preset's |
| ThemeCustomizer.FontOptionsAreTableKeys | src/components/ThemeCustomizer.tsx:144-153 | the select offers exactly the stylesheet's font keys |
| ThemeCustomizer.SliderValues | src/components/ThemeCustomizer.tsx:160-187 | font size 12 to 20; radius even, from 0 to 24 |
| ThemeCustomizer.ThemeOpsStayOnSliders | src/components/ThemeCustomizer.tsx:25-187 | edits, presets and the reset keep size and radius on their grids |
| Preview.HasContent | src/components/PortfolioPreview.tsx:14-15 | the preview's content test is the download button's |
| Preview.ShowsProjectsAgrees | src/components/PortfolioPreview.tsx:149 | the preview's project test is the exporter's |
| Preview.PlaceholderMatchesButton | src/components/PortfolioPreview.tsx:14-56 | the placeholder shows exactly when the download button is disabled |
| Preview.SectionsAgree | src/components/PortfolioPreview.tsx:110-208 | each preview section shows exactly when the export has it |
| Preview.PreviewCards | src/components/PortfolioPreview.tsx:174 | the preview's cards are the exporter's filtered projects |
| Preview.AnimationClass | src/components/PortfolioPreview.tsx:17-29 | no class exactly when the entrance is none |
| Preview.AnimationClassAgrees | src/components/PortfolioPreview.tsx:17-29 | the preview animates the hero and the sections exactly when the stylesheet gives the hero title and the sections an `animation` |
| Preview.AnimationClassIgnoresDelay | src/components/PortfolioPreview.tsx:17-29 | the delay argument has no effect |
| Preview.AnimationClassInjective | src/components/PortfolioPreview.tsx:20-26 | distinct kinds get distinct classes |
| Preview.DelaysStaggered | src/components/PortfolioPreview.tsx:138-182 | badges and cards start one stagger apart, and the first card two staggers in |
| Preview.FontFamily | src/components/PortfolioPreview.tsx:41-43 | unknown keys fall back to Inter |
| Preview.FontTablesDiffer | src/components/PortfolioPreview.tsx:41-43 | the preview's font differs from the export's for every key |
| Preview.SectionMarginAgrees | src/components/PortfolioPreview.tsx:114 | the preview spaces sections as the stylesheet does |
| Preview.Divider | src/components/PortfolioPreview.tsx:121-122 | a border exactly when dividers are on |
| Preview.DividerAgrees | src/components/PortfolioPreview.tsx:121-122 | the preview shows a divider exactly when the stylesheet declares one |
| Preview.JustifyAgrees | src/components/PortfolioPreview.tsx:72-73 | the hero's alignment matches the stylesheet's |
| Preview.ProjectsDisplayAgrees | src/components/PortfolioPreview.tsx:169 | the card list is displayed the way the stylesheet displays it |
| Generator.DefaultDataIsEmpty | src/components/PortfolioGenerator.tsx:50-58 | the initial content aborts a download, disables the button, shows the placeholder and keeps the form invariant |
| Generator.ResetsRestoreDefaults | src/components/PortfolioGenerator.tsx:60-85 | each panel's reset restores exactly its part of the initial settings |
| Generator.DefaultsOnSliders | src/components/PortfolioGenerator.tsx:60-85 | every initial numeric setting is a value its slider offers |
| Generator.Apply | src/components/PortfolioGenerator.tsx:139-156 | each panel's action changes only that panel's part of the settings; a colour preset sets the gradient and keeps the primary and accent colours, as the page behaves |
| Generator.ApplyStaysOnSliders | src/components/PortfolioGenerator.tsx:139-156 | one panel action from settings on the sliders' grids keeps every numeric setting on its grid |
| Generator.ActionsStayOnSliders | src/components/PortfolioGenerator.tsx:88-156 | from settings on the sliders' grids, such as the initial ones, any sequence of panel actions, colour presets as the page applies them, keeps every numeric setting on its grid |
| Generator.ContentSessionValid | src/components/PortfolioGenerator.tsx:88 | any sequence of form edits from the initial content keeps the form invariant |

## Left out

- I/O and libraries are not modelled: JSZip, `generateAsync`, `saveAs`, toasts and `console.error`. A download is modelled as its two file contents and the file name. The failure path of the `try`/`catch` is not modelled.
- `isGenerating` is a parameter of the button test. The asynchronous lifecycle that sets and clears it is not modelled.
- The calendar year in the footer, `new Date().getFullYear()`, is a parameter.
- The stylesheet is modelled as an ordered list of rules with typed values (pixels as exact reals, milliseconds as integers). Its whitespace and JavaScript's number-to-text formatting are not modelled. The fixed declarations that never vary are kept as text.
- JSX rendering, Tailwind class names and widgets are not modelled. The preview's inline styles that only scale the font size are not modelled either.
- `handleSkillInput` (PortfolioForm.tsx:31-38), the Enter-key wiring of `addSkill`, is not modelled. `addSkill` itself is.
- The handlers accept `value: any`. Writes of a value of the wrong type cannot be represented, because each edit is a typed datatype holding the value its widget produces.
- `parallaxEffect` is stored and updated, but no output reads it.
- White space for `trim` and `\s` is ASCII only: space, tab, line feed, vertical tab, form feed and carriage return. `toLowerCase` lowers ASCII letters only. String lengths are in characters, not UTF-16 code units.
- The font lookup does not model keys inherited from JavaScript's object prototype, such as `constructor`.
- The section readers invert the renderers only for text free of markup: no `<` in skills, project titles and descriptions, and no `"` in contact fields. The source escapes nothing, so other text does not read back (see `ExportHtml.RawSkillForgesBadges`).
- Exporter.HandleDownload: its contract states only when the download aborts. The package contents, `GenerateHTML`, `GenerateCSS` and `FileName`, are given by its definition and by the lemmas about those three functions.

## Findings

| source | as written | input that shows it | evidently intended | confidence | as-written member | corrected member |
|---|---|---|---|---|---|---|
| src/components/ThemeCustomizer.tsx:32-36 | `applyColorPreset` calls `updateTheme` three times. Each call spreads the same render-time `customization`, so each payload overwrites the previous one, and only `heroGradient` survives | the reset theme and the "Vibrant Purple" preset: the primary colour stays `230 60% 25%` instead of `270 60% 35%` | all three preset colours applied at once | not executed | ThemeCustomizer.Session.ApplyColorPreset, ThemeCustomizer.ColorPresetLosesPrimary | ThemeCustomizer.ColorPresetIntended, ThemeCustomizer.Session.ApplyColorPresetIntended |

`Generator.Apply` models the page as written: a colour preset leaves the last of the three payloads. `ThemeCustomizer.ColorPresetIntended` is the corrected update, and `ThemeCustomizer.ThemeOpsStayOnSliders` proves it keeps the theme on the sliders' grids like the other theme actions.
