/** The content editor's handlers.  Each builds a new `PortfolioData` from
    the current one and hands it to `onChange`; here each is a function
    from the old record to the new one. */
module Form {
  import opened Types
  import opened Text

  /** The plain text fields of `PortfolioData`. */
  datatype TextField = FullName | Role | Email | GitHub | LinkedIn

  function TextOf(d: PortfolioData, f: TextField): string
  {
    match f
    case FullName => d.fullName
    case Role => d.role
    case Email => d.email
    case GitHub => d.github
    case LinkedIn => d.linkedin
  }

  /** `updateField(field, value)` for a text field: that field takes the
      value and every other field keeps its own. */
  function UpdateField(d: PortfolioData, f: TextField, value: string): (r: PortfolioData)
    ensures TextOf(r, f) == value
    ensures forall g :: g != f ==> TextOf(r, g) == TextOf(d, g)
    ensures r.skills == d.skills && r.projects == d.projects
  {
    match f
    case FullName => d.(fullName := value)
    case Role => d.(role := value)
    case Email => d.(email := value)
    case GitHub => d.(github := value)
    case LinkedIn => d.(linkedin := value)
  }

  /** A record is determined by its text fields, skills and projects. */
  lemma {:induction false} SameFields(a: PortfolioData, b: PortfolioData)
    requires forall f :: TextOf(a, f) == TextOf(b, f)
    requires a.skills == b.skills && a.projects == b.projects
    ensures a == b
  {
    assert TextOf(a, FullName) == TextOf(b, FullName);
    assert TextOf(a, Role) == TextOf(b, Role);
    assert TextOf(a, Email) == TextOf(b, Email);
    assert TextOf(a, GitHub) == TextOf(b, GitHub);
    assert TextOf(a, LinkedIn) == TextOf(b, LinkedIn);
  }

  /** Writing a field twice keeps the second value. */
  lemma UpdateFieldTwice(d: PortfolioData, f: TextField, v1: string, v2: string)
    ensures UpdateField(UpdateField(d, f, v1), f, v2) == UpdateField(d, f, v2)
  {
    var a, b := UpdateField(UpdateField(d, f, v1), f, v2), UpdateField(d, f, v2);
    forall g
      ensures TextOf(a, g) == TextOf(b, g)
    {
    }
    SameFields(a, b);
  }

  // ---------------------------------------------------------------------
  // Skills

  /** `addSkill(skill)`: the trimmed text is appended when it is not empty
      and not already listed; otherwise nothing changes. */
  function AddSkill(d: PortfolioData, skill: string): (r: PortfolioData)
    ensures Trim(skill) != "" && Trim(skill) !in d.skills ==> r.skills == d.skills + [Trim(skill)]
    ensures Trim(skill) == "" || Trim(skill) in d.skills ==> r == d
    ensures r.(skills := d.skills) == d
  {
    var t := Trim(skill);
    if t != "" && t !in d.skills then d.(skills := d.skills + [t]) else d
  }

  /** What the editor keeps true of the skill list: every skill trimmed and
      non-empty, and no skill twice. */
  predicate SkillsValid(skills: seq<string>)
  {
    && (forall i :: 0 <= i < |skills| ==> skills[i] != "" && Trimmed(skills[i]))
    && (forall i, j :: 0 <= i < j < |skills| ==> skills[i] != skills[j])
  }

  lemma AddSkillKeepsValid(d: PortfolioData, skill: string)
    requires SkillsValid(d.skills)
    ensures SkillsValid(AddSkill(d, skill).skills)
  {
    var t := Trim(skill);
    TrimIsTrimmed(skill);
    if t != "" && t !in d.skills {
      var s := d.skills + [t];
      forall i | 0 <= i < |s|
        ensures s[i] != "" && Trimmed(s[i])
      {
        if i < |d.skills| {
          assert s[i] == d.skills[i];
        }
      }
      forall i, j | 0 <= i < j < |s|
        ensures s[i] != s[j]
      {
        assert s[i] == d.skills[i];
        if j < |d.skills| {
          assert s[j] == d.skills[j];
        }
      }
    }
  }

  /** Entering the same text twice adds it once. */
  lemma AddSkillIdempotent(d: PortfolioData, skill: string)
    ensures AddSkill(AddSkill(d, skill), skill) == AddSkill(d, skill)
  {
    var t := Trim(skill);
    if t != "" && t !in d.skills {
      assert AddSkill(d, skill).skills[|d.skills|] == t;
    }
  }

  /** `xs.filter((_, i) => i !== index)` */
  function RemoveAt<T>(xs: seq<T>, index: int): (r: seq<T>)
    ensures 0 <= index < |xs| ==> |r| == |xs| - 1
    ensures !(0 <= index < |xs|) ==> r == xs
  {
    if xs == [] then []
    else (if index == 0 then [] else [xs[0]]) + RemoveAt(xs[1..], index - 1)
  }

  /** Filtering by index deletes exactly the element at `index` and keeps
      the others in order. */
  lemma {:induction false} RemoveAtSlices<T>(xs: seq<T>, index: int)
    requires 0 <= index < |xs|
    ensures RemoveAt(xs, index) == xs[..index] + xs[index + 1..]
  {
    if index > 0 {
      RemoveAtSlices(xs[1..], index - 1);
      assert xs[1..][..index - 1] == xs[1..index];
      assert xs[1..][index..] == xs[index + 1..];
      assert [xs[0]] + xs[1..index] == xs[..index];
    }
  }

  /** `removeSkill(index)` */
  function RemoveSkill(d: PortfolioData, index: int): (r: PortfolioData)
    ensures r.(skills := d.skills) == d
  {
    d.(skills := RemoveAt(d.skills, index))
  }

  lemma RemoveSkillKeepsValid(d: PortfolioData, index: int)
    requires SkillsValid(d.skills)
    ensures SkillsValid(RemoveSkill(d, index).skills)
    ensures 0 <= index < |d.skills| ==> d.skills[index] !in RemoveSkill(d, index).skills
  {
    if 0 <= index < |d.skills| {
      var s := d.skills;
      RemoveAtSlices(s, index);
      var r := s[..index] + s[index + 1..];
      forall i | 0 <= i < |r|
        ensures r[i] == s[if i < index then i else i + 1]
      {
      }
    }
  }

  // ---------------------------------------------------------------------
  // Projects

  /** `addProject()`: one empty project at the end. */
  function AddProject(d: PortfolioData): (r: PortfolioData)
    ensures |r.projects| == |d.projects| + 1
    ensures r.projects[..|d.projects|] == d.projects
    ensures r.projects[|d.projects|] == Project("", "")
    ensures r.(projects := d.projects) == d
  {
    d.(projects := d.projects + [Project("", "")])
  }

  /** The add button is disabled from three projects on. */
  predicate CanAddProject(d: PortfolioData)
  {
    |d.projects| < 3
  }

  datatype ProjectField = Title | Description

  function WithField(p: Project, f: ProjectField, value: string): Project
  {
    match f
    case Title => p.(title := value)
    case Description => p.(description := value)
  }

  /** `updateProject(index, field, value)`: the `map` that rewrites one
      field of the project at `index`. */
  function UpdateProject(d: PortfolioData, index: int, f: ProjectField, value: string): (r: PortfolioData)
    ensures |r.projects| == |d.projects|
    ensures forall j :: 0 <= j < |d.projects| && j != index ==> r.projects[j] == d.projects[j]
    ensures 0 <= index < |d.projects| ==>
              (if f == Title then r.projects[index] == Project(value, d.projects[index].description)
               else r.projects[index] == Project(d.projects[index].title, value))
    ensures r.(projects := d.projects) == d
  {
    d.(projects := seq(|d.projects|, j requires 0 <= j < |d.projects| =>
                         if j == index then WithField(d.projects[j], f, value) else d.projects[j]))
  }

  /** `removeProject(index)`: a no-op while there is one project or none,
      otherwise the project at `index` is removed. */
  function RemoveProject(d: PortfolioData, index: int): (r: PortfolioData)
    ensures |d.projects| <= 1 ==> r == d
    ensures |d.projects| > 1 ==> r.projects == RemoveAt(d.projects, index)
    ensures r.(projects := d.projects) == d
  {
    if |d.projects| > 1 then d.(projects := RemoveAt(d.projects, index)) else d
  }

  /** Removing never leaves fewer than one project behind once there is one. */
  lemma RemoveProjectKeepsOne(d: PortfolioData, index: int)
    requires |d.projects| >= 1
    ensures |RemoveProject(d, index).projects| >= 1
    ensures 0 <= index < |d.projects| && |d.projects| > 1 ==>
              RemoveProject(d, index).projects == d.projects[..index] + d.projects[index + 1..]
  {
    if 0 <= index < |d.projects| && |d.projects| > 1 {
      RemoveAtSlices(d.projects, index);
    }
  }

  // ---------------------------------------------------------------------
  // The editor as a whole

  /** One user action in the content form.  A click on the disabled add
      button is a `NewProject` that does nothing. */
  datatype Edit =
    | EditText(field: TextField, value: string)
    | EnterSkill(text: string)
    | DeleteSkill(index: int)
    | NewProject
    | EditProject(index: int, pfield: ProjectField, value: string)
    | DeleteProject(index: int)

  function ApplyEdit(d: PortfolioData, e: Edit): PortfolioData
  {
    match e
    case EditText(f, v) => UpdateField(d, f, v)
    case EnterSkill(t) => AddSkill(d, t)
    case DeleteSkill(i) => RemoveSkill(d, i)
    case NewProject => if CanAddProject(d) then AddProject(d) else d
    case EditProject(i, f, v) => UpdateProject(d, i, f, v)
    case DeleteProject(i) => RemoveProject(d, i)
  }

  /** What the form keeps true: valid skills and one to three projects. */
  predicate FormInvariant(d: PortfolioData)
  {
    SkillsValid(d.skills) && 1 <= |d.projects| <= 3
  }

  lemma ApplyEditKeepsInvariant(d: PortfolioData, e: Edit)
    requires FormInvariant(d)
    ensures FormInvariant(ApplyEdit(d, e))
  {
    match e
    case EditText(f, v) =>
    case EnterSkill(t) => AddSkillKeepsValid(d, t);
    case DeleteSkill(i) => RemoveSkillKeepsValid(d, i);
    case NewProject =>
    case EditProject(i, f, v) =>
    case DeleteProject(i) => RemoveProjectKeepsOne(d, i);
  }

  function ApplyEdits(d: PortfolioData, es: seq<Edit>): PortfolioData
    decreases |es|
  {
    if es == [] then d else ApplyEdits(ApplyEdit(d, es[0]), es[1..])
  }

  /** Any sequence of form actions keeps the invariant. */
  lemma {:induction false} ApplyEditsKeepsInvariant(d: PortfolioData, es: seq<Edit>)
    requires FormInvariant(d)
    ensures FormInvariant(ApplyEdits(d, es))
    decreases |es|
  {
    if es != [] {
      ApplyEditKeepsInvariant(d, es[0]);
      ApplyEditsKeepsInvariant(ApplyEdit(d, es[0]), es[1..]);
    }
  }
}
