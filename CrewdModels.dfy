/**
 * The rows of crewd/projects/models.py. Identifiers are natural numbers;
 * the choice columns use the enumerations of `Choices`, so a stored status
 * is always one of the declared values.
 */
module CrewdModels {
  import opened Choices
  import opened SkillCodec

  type UserId = nat
  type ProjectId = nat
  type GroupId = nat

  /** A project; `requiredSkills` is the nullable comma-separated column. */
  datatype Project = Project(
    title: string,
    description: string,
    requiredSkills: Option<string>,
    teamSize: int,
    duration: string,
    status: ProjectStatus,
    creator: UserId)

  /** The role a member holds in a project ('admin' or 'member'). */
  datatype MemberRole = Admin | Member

  datatype Membership = Membership(user: UserId, project: ProjectId, role: MemberRole)

  datatype Application = Application(
    project: ProjectId,
    applicant: UserId,
    status: RequestStatus,
    message: Option<string>)

  datatype Invitation = Invitation(
    project: ProjectId,
    sender: UserId,
    recipient: UserId,
    status: RequestStatus,
    message: Option<string>)

  /** A project's group chat. */
  datatype Group = Group(name: string, project: ProjectId)

  /** A chat message; the group column is nullable. */
  datatype Message = Message(group: Option<GroupId>, sender: UserId, content: string)

  /** `Project.get_required_skills_list`. */
  function RequiredSkillsList(p: Project): seq<string>
  {
    SkillList(p.requiredSkills)
  }

  /** The list is the stripped, non-blank pieces of the skills column, none
      of which holds a comma; a null or empty column gives no skills. */
  lemma RequiredSkillsListShape(p: Project)
    ensures !Present(p.requiredSkills) ==> RequiredSkillsList(p) == []
    ensures AllClean(RequiredSkillsList(p))
    ensures RequiredSkillsList(p) == DropBlanks(StripList(p.requiredSkills))
  {
    SkillListClean(p.requiredSkills);
    SkillListIsStripListWithoutBlanks(p.requiredSkills);
  }

  /** Storing the join of clean skills and reading the list back returns the
      skills, in order. */
  lemma RequiredSkillsRoundTrip(p: Project, selection: seq<string>)
    requires AllClean(selection)
    ensures RequiredSkillsList(p.(requiredSkills := Some(JoinSkills(selection)))) == selection
  {
    SkillListRoundTrip(selection);
  }
}
