/**
 * The rows of core/models.py and the comma join its forms (core/forms.py)
 * and its registration view write into the skill columns. The choice
 * columns use the enumerations of `Choices`; the nullable text columns are
 * an `Option<string>`.
 */
module CoreModels {
  import opened Choices
  import opened PyText
  import opened SkillCodec

  type UserId = nat
  type ProjectId = nat

  /** UserProfile: the comma-separated tech stack and the role, both
      nullable. */
  datatype Profile = Profile(techStack: Option<string>, role: Option<Role>)

  datatype Project = Project(
    title: string,
    description: string,
    requiredSkills: Option<string>,
    teamSize: int,
    duration: string,
    status: ProjectStatus,
    creator: UserId)

  datatype Application = Application(
    project: ProjectId,
    applicant: UserId,
    status: RequestStatus,
    message: Option<string>)

  /** The profile the `create_profile` signal makes for a new user: every
      column at its default, NULL. */
  const NewProfile := Profile(None, None)

  /** `UserProfile.get_tech_stack_list` */
  function TechStackList(p: Profile): seq<string>
  {
    SplitList(p.techStack)
  }

  /** `Project.get_required_skills_list` */
  function RequiredSkillsList(p: Project): seq<string>
  {
    SplitList(p.requiredSkills)
  }

  /** A NULL or empty tech stack gives no entries; otherwise one entry per
      comma plus one, none holding a comma, and joining them gives the
      column back. */
  lemma TechStackListShape(p: Profile)
    ensures !Present(p.techStack) ==> TechStackList(p) == []
    ensures Present(p.techStack) ==>
      && |TechStackList(p)| == Occurrences(p.techStack.value, ',') + 1
      && NoCommas(TechStackList(p))
      && JoinSkills(TechStackList(p)) == p.techStack.value
  {
    SplitListShape(p.techStack);
  }

  /** The same shape for a project's required skills. */
  lemma RequiredSkillsListShape(p: Project)
    ensures !Present(p.requiredSkills) ==> RequiredSkillsList(p) == []
    ensures Present(p.requiredSkills) ==>
      && |RequiredSkillsList(p)| == Occurrences(p.requiredSkills.value, ',') + 1
      && NoCommas(RequiredSkillsList(p))
      && JoinSkills(RequiredSkillsList(p)) == p.requiredSkills.value
  {
    SplitListShape(p.requiredSkills);
  }

  /** The pieces are not stripped and blank ones are kept: a column
      "Python, ,Vue" gives three entries, the middle one a single space. */
  lemma RequiredSkillsListKeepsBlanks(p: Project)
    requires p.requiredSkills == Some("Python, ,Vue")
    ensures RequiredSkillsList(p) == ["Python", " ", "Vue"]
  {
    assert JoinSkills(["Python", " ", "Vue"]) == "Python, ,Vue";
    SplitListRoundTrip(["Python", " ", "Vue"]);
  }

  // ---------------------------------------------------------------------
  // The form saves
  // ---------------------------------------------------------------------

  /** What `UserProfileForm.save` and `ProjectForm.save` leave in the skill
      column: the comma join of the selection when something is selected,
      the column's current value otherwise. */
  function FormField(current: Option<string>, selection: seq<string>): Option<string>
  {
    if |selection| > 0 then Some(JoinSkills(selection)) else current
  }

  /** A clean list holds no comma and is not the single blank entry. */
  lemma CleanHasNoCommas(selection: seq<string>)
    requires AllClean(selection)
    ensures NoCommas(selection)
    ensures selection != [""]
  {
    assert selection == [""] ==> !CleanSkill(selection[0]);
  }

  /** An empty selection leaves the column as it was (it is not cleared);
      a non-empty selection of TECH_CHOICES is read back by the raw parser
      exactly, in order. */
  lemma FormFieldRoundTrip(current: Option<string>, selection: seq<string>)
    requires SelectedFrom(selection, TechChoices)
    ensures |selection| == 0 ==> FormField(current, selection) == current
    ensures |selection| > 0 ==> SplitList(FormField(current, selection)) == selection
  {
    if |selection| > 0 {
      TechChoicesClean();
      SelectionClean(selection, TechChoices);
      CleanHasNoCommas(selection);
      SplitListRoundTrip(selection);
    }
  }

  /** The registration view joins whatever the request lists, with no
      check against TECH_CHOICES, so an entry holding a comma is read back
      as two skills. */
  lemma RegisterSelectionNotChecked()
    ensures SplitList(FormField(None, ["Python,Vue"])) == ["Python", "Vue"]
  {
    assert JoinSkills(["Python,Vue"]) == "Python,Vue";
    assert JoinSkills(["Python", "Vue"]) == "Python,Vue";
    SplitListRoundTrip(["Python", "Vue"]);
  }
}
