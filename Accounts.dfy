/**
 * The user model of crewd/accounts/models.py and the two views of
 * crewd/accounts/views.py that set its columns one by one before saving.
 * The choice list of the forms is the TECH_CHOICES of
 * crewd/accounts/models.py.
 */
module Accounts {
  import opened Choices
  import opened SkillCodec

  /** A user, with the columns the views set. */
  class User {
    var username: string
    var email: string
    var techStack: Option<string>
    var role: Option<Role>

    /** An unsaved user holding the given columns, with the role at its
        default. */
    constructor (username: string, email: string, techStack: Option<string>)
      ensures this.username == username && this.email == email
      ensures this.techStack == techStack && role == Some(Applicant)
    {
      this.username := username;
      this.email := email;
      this.techStack := techStack;
      role := Some(Applicant);
    }

    /** `get_tech_stack_list`: [] for NULL or '', otherwise every
        comma-separated piece stripped, blank pieces kept. */
    function TechStackList(): seq<string>
      reads this
    {
      StripList(techStack)
    }

    /** ProfileUpdateView.post: a selection outside the choices makes the
        form invalid and changes nothing; otherwise username and email come
        from the form and the tech stack is always replaced, by '' when
        nothing is selected, so it reads back as the selection. */
    method UpdateProfile(username: string, email: string, selection: seq<string>) returns (o: Outcome)
      modifies this
      ensures !SelectedFrom(selection, CrewdTechChoices) ==> o == InvalidChoice && unchanged(this)
      ensures SelectedFrom(selection, CrewdTechChoices) ==>
        && o == Done
        && this.username == username && this.email == email && role == old(role)
        && techStack == Some(JoinOrEmpty(selection))
        && TechStackList() == selection
    {
      if !SelectedFrom(selection, CrewdTechChoices) {
        return InvalidChoice;
      }
      this.username := username;
      this.email := email;
      techStack := Some(JoinOrEmpty(selection));
      SelectionReadsBack(selection);
      o := Done;
    }
  }

  /** A selection of the choices is stored as the comma join, or '' when
      empty, and the strip parser gives it back. */
  lemma SelectionReadsBack(selection: seq<string>)
    requires SelectedFrom(selection, CrewdTechChoices)
    ensures StripList(Some(JoinOrEmpty(selection))) == selection
  {
    if |selection| > 0 {
      TechChoicesClean();
      SelectionClean(selection, CrewdTechChoices);
      assert selection == [""] ==> !CleanSkill(selection[0]);
      StripListRoundTrip(selection);
    }
  }

  /** The tech stack RegisterView.post saves as written. The registration
      form lists `tech_stack` among its model fields, so
      `form.save(commit=False)` assigns the cleaned list of choices to the
      text column, which stores `str(list)`; a non-empty selection is then
      overwritten by its comma join, but an empty one stays as the text
      "[]". */
  function RegisteredTechStackAsWritten(selection: seq<string>): Option<string>
  {
    if |selection| > 0 then Some(JoinSkills(selection)) else Some("[]")
  }

  /** Registering with nothing selected leaves a user whose tech stack
      lists one skill, "[]". */
  lemma RegisterAsWrittenListsBrackets()
    ensures StripList(RegisteredTechStackAsWritten([])) == ["[]"]
  {
    assert JoinSkills(["[]"]) == "[]";
    StripListRoundTrip(["[]"]);
  }

  /** The tech stack registration is meant to save: the comma join when
      something is selected, and nothing otherwise. */
  function RegisteredTechStack(selection: seq<string>): Option<string>
  {
    if |selection| > 0 then Some(JoinSkills(selection)) else None
  }

  /** A selection of the choices, the empty one included, reads back
      exactly from the intended column. */
  lemma RegisteredTechStackReadsBack(selection: seq<string>)
    requires SelectedFrom(selection, CrewdTechChoices)
    ensures StripList(RegisteredTechStack(selection)) == selection
  {
    if |selection| > 0 {
      SelectionReadsBack(selection);
    }
  }

  /** RegisterView.post, corrected: a selection outside the choices makes
      the form invalid and no user is made; otherwise the new user is an
      applicant whose tech stack is the comma join of the selection, or
      empty when nothing is selected, and reads back as the selection. */
  method Register(username: string, email: string, selection: seq<string>)
      returns (o: Outcome, u: User?)
    ensures !SelectedFrom(selection, CrewdTechChoices) ==> o == InvalidChoice && u == null
    ensures SelectedFrom(selection, CrewdTechChoices) ==>
      && o == Done && u != null && fresh(u)
      && u.username == username && u.email == email && u.role == Some(Applicant)
      && u.techStack == RegisteredTechStack(selection)
      && u.TechStackList() == selection
  {
    if !SelectedFrom(selection, CrewdTechChoices) {
      return InvalidChoice, null;
    }
    u := new User(username, email, None);
    u.role := Some(Applicant);
    if |selection| > 0 {
      u.techStack := Some(JoinSkills(selection));
    }
    RegisteredTechStackReadsBack(selection);
    o := Done;
  }
}
