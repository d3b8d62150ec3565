/**
 * The rows of models.py, the Flask iteration. Its text columns are not
 * restricted to any choice list, so role and status are strings here.
 */
module FlaskModels {
  import opened Choices
  import opened PyText
  import opened SkillCodec

  type UserId = nat
  type ProjectId = nat

  /** A user; username and email are unique columns, tech stack and role
      nullable ones. */
  datatype User = User(username: string, email: string, techStack: Option<string>, role: Option<string>)

  datatype Project = Project(
    title: string,
    description: string,
    requiredSkills: Option<string>,
    teamSize: int,
    duration: string,
    status: string,
    creator: UserId)

  datatype Application = Application(
    project: ProjectId,
    applicant: UserId,
    status: string,
    message: Option<string>)

  /** The column defaults of models.py. */
  const DefaultProjectStatus := "active"
  const DefaultApplicationStatus := "pending"

  /** The application statuses update_application accepts. */
  const ApplicationStatuses: set<string> := {"pending", "accepted", "rejected"}

  /** `User.get_tech_stack_list` */
  function TechStackList(u: User): seq<string>
  {
    SplitList(u.techStack)
  }

  /** `Project.get_required_skills_list` */
  function RequiredSkillsList(p: Project): seq<string>
  {
    SplitList(p.requiredSkills)
  }

  /** Both accessors give [] for NULL or "" and otherwise one unstripped
      piece per comma plus one, none holding a comma. */
  lemma ListAccessorsShape(u: User, p: Project)
    ensures !Present(u.techStack) ==> TechStackList(u) == []
    ensures Present(u.techStack) ==>
      |TechStackList(u)| == Occurrences(u.techStack.value, ',') + 1 && NoCommas(TechStackList(u))
    ensures !Present(p.requiredSkills) ==> RequiredSkillsList(p) == []
    ensures Present(p.requiredSkills) ==>
      |RequiredSkillsList(p)| == Occurrences(p.requiredSkills.value, ',') + 1 && NoCommas(RequiredSkillsList(p))
  {
    SplitListShape(u.techStack);
    SplitListShape(p.requiredSkills);
  }

  /** The empty case is what the join gives anyway, and the stored value
      reads back as the selection for every selection of TECH_CHOICES, the
      empty one included. */
  lemma JoinOrEmptyRoundTrip(selection: seq<string>)
    ensures JoinOrEmpty(selection) == JoinSkills(selection)
    ensures SelectedFrom(selection, TechChoices) ==> SplitList(Some(JoinOrEmpty(selection))) == selection
  {
    if |selection| > 0 && SelectedFrom(selection, TechChoices) {
      TechChoicesClean();
      SelectionClean(selection, TechChoices);
      assert selection == [""] ==> !CleanSkill(selection[0]);
      SplitListRoundTrip(selection);
    }
  }
}

/**
 * The database of the Flask iteration: users, projects and applications.
 */
module FlaskTables {
  import opened Choices
  import opened FlaskModels

  datatype Tables = Tables(
    users: map<UserId, User>,
    projects: map<ProjectId, Project>,
    applications: map<nat, Application>,
    nextId: nat)

  /** Some user other than `except` has this username or this email. */
  predicate NameOrEmailTaken(users: map<UserId, User>, username: string, email: string, except: Option<UserId>)
  {
    exists k :: k in users && Some(k) != except && (users[k].username == username || users[k].email == email)
  }

  predicate HasApplication(apps: map<nat, Application>, project: ProjectId, applicant: UserId)
  {
    exists k :: k in apps && apps[k].project == project && apps[k].applicant == applicant
  }

  // ---------------------------------------------------------------------
  // Invariants
  // ---------------------------------------------------------------------

  predicate Below(ids: set<nat>, n: nat)
  {
    forall k :: k in ids ==> k < n
  }

  /** The `unique=True` columns of User. */
  predicate UniqueNamesAndEmails(users: map<UserId, User>)
  {
    forall a, b :: a in users && b in users && a != b ==> users[a].username != users[b].username && users[a].email != users[b].email
  }

  predicate CreatorsExist(ps: map<ProjectId, Project>, users: set<UserId>)
  {
    forall k :: k in ps ==> ps[k].creator in users
  }

  predicate ApplicationRefs(apps: map<nat, Application>, users: set<UserId>, projects: set<ProjectId>)
  {
    forall k :: k in apps ==> apps[k].applicant in users && apps[k].project in projects
  }

  /** At most one application per project and applicant; the schema does
      not say so, `apply_project` keeps it by checking first. */
  predicate UniqueApplications(apps: map<nat, Application>)
  {
    forall a, b ::
      a in apps && b in apps && apps[a].project == apps[b].project && apps[a].applicant == apps[b].applicant ==> a == b
  }

  /** Every application status is one of the three the handlers write. */
  predicate StatusesKnown(apps: map<nat, Application>)
  {
    forall k :: k in apps ==> apps[k].status in ApplicationStatuses
  }

  predicate ValidTables(t: Tables)
  {
    && Below(t.users.Keys, t.nextId)
    && Below(t.projects.Keys, t.nextId)
    && Below(t.applications.Keys, t.nextId)
    && UniqueNamesAndEmails(t.users)
    && CreatorsExist(t.projects, t.users.Keys)
    && ApplicationRefs(t.applications, t.users.Keys, t.projects.Keys)
    && UniqueApplications(t.applications)
    && StatusesKnown(t.applications)
  }

  const Empty := Tables(map[], map[], map[], 0)

  lemma EmptyValid()
    ensures ValidTables(Empty)
  {
  }

  // ---------------------------------------------------------------------
  // The writes; new rows take `nextId`
  // ---------------------------------------------------------------------

  function WithUser(t: Tables, u: User): Tables
  {
    t.(users := t.users[t.nextId := u], nextId := t.nextId + 1)
  }

  /** The user row with its columns replaced. */
  function WithUserRow(t: Tables, id: UserId, u: User): Tables
  {
    t.(users := t.users[id := u])
  }

  function WithProject(t: Tables, p: Project): Tables
  {
    t.(projects := t.projects[t.nextId := p], nextId := t.nextId + 1)
  }

  function WithApplication(t: Tables, app: Application): Tables
  {
    t.(applications := t.applications[t.nextId := app], nextId := t.nextId + 1)
  }

  function WithApplicationStatus(t: Tables, id: nat, status: string): Tables
    requires id in t.applications
  {
    t.(applications := t.applications[id := t.applications[id].(status := status)])
  }

  // ---------------------------------------------------------------------
  // Each write keeps the tables valid
  // ---------------------------------------------------------------------

  /** A user whose username and email are both unused keeps the columns
      unique. */
  lemma WithUserValid(t: Tables, u: User)
    requires ValidTables(t) && !NameOrEmailTaken(t.users, u.username, u.email, None)
    ensures ValidTables(WithUser(t, u))
    ensures t.nextId !in t.users
  {
  }

  /** Replacing a user's columns with a username and email no other user
      has keeps them unique. */
  lemma WithUserRowValid(t: Tables, id: UserId, u: User)
    requires ValidTables(t) && id in t.users && !NameOrEmailTaken(t.users, u.username, u.email, Some(id))
    ensures ValidTables(WithUserRow(t, id, u))
  {
  }

  lemma WithProjectValid(t: Tables, p: Project)
    requires ValidTables(t) && p.creator in t.users
    ensures ValidTables(WithProject(t, p))
    ensures t.nextId !in t.projects
  {
  }

  /** An application under a fresh id, for a pair without one and with a
      known status, keeps applications unique and statuses known. */
  lemma AddApplicationKeeps(apps: map<nat, Application>, n: nat, app: Application)
    requires UniqueApplications(apps) && StatusesKnown(apps) && n !in apps
    requires !HasApplication(apps, app.project, app.applicant) && app.status in ApplicationStatuses
    ensures UniqueApplications(apps[n := app]) && StatusesKnown(apps[n := app])
  {
    assert n in apps[n := app];
  }

  /** A known status keeps statuses known. */
  lemma SetStatusKeeps(apps: map<nat, Application>, id: nat, status: string)
    requires UniqueApplications(apps) && StatusesKnown(apps) && id in apps && status in ApplicationStatuses
    ensures UniqueApplications(apps[id := apps[id].(status := status)])
    ensures StatusesKnown(apps[id := apps[id].(status := status)])
  {
  }

  lemma WithApplicationValid(t: Tables, app: Application)
    requires ValidTables(t) && app.project in t.projects && app.applicant in t.users
    requires !HasApplication(t.applications, app.project, app.applicant) && app.status in ApplicationStatuses
    ensures ValidTables(WithApplication(t, app))
  {
    AddApplicationKeeps(t.applications, t.nextId, app);
  }

  lemma WithApplicationStatusValid(t: Tables, id: nat, status: string)
    requires ValidTables(t) && id in t.applications && status in ApplicationStatuses
    ensures ValidTables(WithApplicationStatus(t, id, status))
  {
    SetStatusKeeps(t.applications, id, status);
  }
}

/**
 * The handlers of app.py that change or show state, as a store whose
 * methods are the handlers; `current_user` is the `user` argument. A 404,
 * a refusal (a flashed error and a redirect) or a database error is an
 * `Outcome`.
 */
module FlaskApp {
  import opened Choices
  import opened SkillCodec
  import opened FlaskModels
  import opened FlaskTables

  /** What the dashboard shows, by role. */
  datatype DashboardView =
    | ChooseRole
    | ApplicantDashboard(applied: set<ProjectId>, available: set<ProjectId>)
    | LeaderDashboard(projects: set<ProjectId>, projectApplications: map<ProjectId, set<nat>>)
    | CompanyDashboard(projects: set<ProjectId>, applications: set<nat>)
    | Home

  /** `role in ['leader', 'company']` */
  predicate Manages(role: Option<string>)
  {
    role == Some("leader") || role == Some("company")
  }

  /** `not current_user.role`: NULL or ''. */
  predicate NoRole(role: Option<string>)
  {
    role == None || role == Some("")
  }

  /** An applicant's dashboard: the projects they applied to, and every
      active project, applied to or not. */
  ghost predicate IsApplicantView(t: Tables, user: UserId, v: DashboardView)
  {
    && v.ApplicantDashboard?
    && (forall p :: p in v.applied <==> HasApplication(t.applications, p, user))
    && (forall p :: p in v.available <==> p in t.projects && t.projects[p].status == "active")
  }

  /** A leader's dashboard: their projects, each with the ids of its
      applications. */
  ghost predicate IsLeaderView(t: Tables, user: UserId, v: DashboardView)
  {
    && v.LeaderDashboard?
    && (forall p :: p in v.projects <==> p in t.projects && t.projects[p].creator == user)
    && v.projectApplications.Keys == v.projects
    && (forall p, k :: p in v.projectApplications ==>
          (k in v.projectApplications[p] <==> k in t.applications && t.applications[k].project == p))
  }

  /** A company's dashboard: their projects and every application to one
      of them. */
  ghost predicate IsCompanyView(t: Tables, user: UserId, v: DashboardView)
  {
    && v.CompanyDashboard?
    && (forall p :: p in v.projects <==> p in t.projects && t.projects[p].creator == user)
    && (forall k :: k in v.applications <==>
          k in t.applications && t.applications[k].project in t.projects
          && t.projects[t.applications[k].project].creator == user)
  }

  method ApplicantView(t: Tables, user: UserId) returns (v: DashboardView)
    ensures IsApplicantView(t, user, v)
  {
    var applied := set k | k in t.applications && t.applications[k].applicant == user :: t.applications[k].project;
    var available := set p | p in t.projects && t.projects[p].status == "active";
    v := ApplicantDashboard(applied, available);
  }

  /** The leader's loop fills the map one project at a time. */
  method LeaderView(t: Tables, user: UserId) returns (v: DashboardView)
    ensures IsLeaderView(t, user, v)
  {
    var apps := t.applications;
    var own := set p | p in t.projects && t.projects[p].creator == user;
    var byProject: map<ProjectId, set<nat>> := map[];
    var rest := own;
    while rest != {}
      invariant rest <= own
      invariant byProject.Keys == own - rest
      invariant forall p, k :: p in byProject ==> (k in byProject[p] <==> k in apps && apps[k].project == p)
      decreases rest
    {
      var p :| p in rest;
      byProject := byProject[p := set k | k in apps && apps[k].project == p];
      rest := rest - {p};
    }
    v := LeaderDashboard(own, byProject);
  }

  /** The company's loop gathers the applications of one project after
      another. */
  method CompanyView(t: Tables, user: UserId) returns (v: DashboardView)
    ensures IsCompanyView(t, user, v)
  {
    var apps := t.applications;
    var own := set p | p in t.projects && t.projects[p].creator == user;
    var all: set<nat> := {};
    var rest := own;
    while rest != {}
      invariant rest <= own
      invariant forall k :: k in all <==> k in apps && apps[k].project in own - rest
      decreases rest
    {
      var p :| p in rest;
      all := all + set k | k in apps && apps[k].project == p;
      rest := rest - {p};
    }
    v := CompanyDashboard(own, all);
  }

  class FlaskStore {
    var db: Tables

    predicate Valid()
      reads this
    {
      ValidTables(db)
    }

    constructor ()
      ensures Valid() && db == Empty
    {
      db := Empty;
      EmptyValid();
    }

    /** auth, registering: refused when the username or the email is in
        use; otherwise a new user without a role whose tech stack is the
        comma join of the listed technologies, or '' when none are. */
    method Register(username: string, email: string, techStack: seq<string>) returns (o: Outcome, u: UserId)
      requires Valid()
      modifies this
      ensures Valid()
      ensures NameOrEmailTaken(old(db.users), username, email, None) ==> o == Taken && db == old(db)
      ensures !NameOrEmailTaken(old(db.users), username, email, None) ==>
        && o == Done && u == old(db.nextId) && u !in old(db.users)
        && db == WithUser(old(db), User(username, email, Some(JoinOrEmpty(techStack)), None))
        && (SelectedFrom(techStack, TechChoices) ==> TechStackList(db.users[u]) == techStack)
    {
      if NameOrEmailTaken(db.users, username, email, None) {
        return Taken, 0;
      }
      var row := User(username, email, Some(JoinOrEmpty(techStack)), None);
      WithUserValid(db, row);
      JoinOrEmptyRoundTrip(techStack);
      u := db.nextId;
      db := WithUser(db, row);
      o := Done;
    }

    /** role_selection: only 'applicant', 'leader' and 'company' are
        stored; any other value changes nothing. */
    method RoleSelection(user: UserId, role: string) returns (o: Outcome)
      requires Valid() && user in db.users
      modifies this
      ensures Valid()
      ensures role in {"applicant", "leader", "company"} ==>
        o == Done && db == WithUserRow(old(db), user, old(db.users)[user].(role := Some(role)))
      ensures role !in {"applicant", "leader", "company"} ==> o == InvalidChoice && db == old(db)
    {
      if role in {"applicant", "leader", "company"} {
        var row := db.users[user].(role := Some(role));
        WithUserRowValid(db, user, row);
        db := WithUserRow(db, user, row);
        o := Done;
      } else {
        o := InvalidChoice;
      }
    }

    /** dashboard: no role (NULL or '') sends the user to role selection;
        an applicant sees the projects they applied to and every active
        project, applied to or not; a leader sees their projects, each with
        its applications; a company sees their projects and all applications
        to them; any other role goes to the index page. */
    method Dashboard(user: UserId) returns (view: DashboardView)
      requires Valid() && user in db.users
      ensures NoRole(db.users[user].role) <==> view == ChooseRole
      ensures db.users[user].role == Some("applicant") ==> IsApplicantView(db, user, view)
      ensures db.users[user].role == Some("leader") ==> IsLeaderView(db, user, view)
      ensures db.users[user].role == Some("company") ==> IsCompanyView(db, user, view)
      ensures !NoRole(db.users[user].role) && db.users[user].role !in {Some("applicant"), Some("leader"), Some("company")} ==>
        view == Home
    {
      var role := db.users[user].role;
      if NoRole(role) {
        view := ChooseRole;
      } else if role == Some("applicant") {
        view := ApplicantView(db, user);
      } else if role == Some("leader") {
        view := LeaderView(db, user);
      } else if role == Some("company") {
        view := CompanyView(db, user);
      } else {
        view := Home;
      }
    }

    /** create_project with a valid form: only a leader or a company may
        create; the new project is active, owned by the user, and its
        required skills are the comma join of the selection or ''. */
    method CreateProject(user: UserId, title: string, description: string, teamSize: int, duration: string,
                         requiredSkills: seq<string>)
        returns (o: Outcome, id: ProjectId)
      requires Valid() && user in db.users
      modifies this
      ensures Valid()
      ensures !Manages(old(db.users)[user].role) ==> o == Forbidden && db == old(db)
      ensures Manages(old(db.users)[user].role) ==>
        && o == Done && id == old(db.nextId) && id !in old(db.projects)
        && db == WithProject(old(db), Project(title, description, Some(JoinOrEmpty(requiredSkills)), teamSize, duration, "active", user))
        && (SelectedFrom(requiredSkills, TechChoices) ==> RequiredSkillsList(db.projects[id]) == requiredSkills)
    {
      if !Manages(db.users[user].role) {
        return Forbidden, 0;
      }
      var p := Project(title, description, Some(JoinOrEmpty(requiredSkills)), teamSize, duration, "active", user);
      WithProjectValid(db, p);
      JoinOrEmptyRoundTrip(requiredSkills);
      id := db.nextId;
      db := WithProject(db, p);
      o := Done;
    }

    /** apply_project with a valid form: the role is checked before the
        project is looked up, so a non-applicant is refused even for a
        missing project; an existing application blocks a new one; a new
        application is pending. */
    method ApplyProject(user: UserId, projectId: ProjectId, message: string) returns (o: Outcome)
      requires Valid() && user in db.users
      modifies this
      ensures Valid()
      ensures o != Done ==> db == old(db)
      ensures old(db.users)[user].role != Some("applicant") ==> o == Forbidden
      ensures old(db.users)[user].role == Some("applicant") ==>
        if projectId !in old(db.projects) then o == NotFound
        else if HasApplication(old(db.applications), projectId, user) then o == AlreadyApplied
        else o == Done && db == WithApplication(old(db), Application(projectId, user, "pending", Some(message)))
    {
      if db.users[user].role != Some("applicant") {
        return Forbidden;
      }
      if projectId !in db.projects {
        return NotFound;
      }
      if HasApplication(db.applications, projectId, user) {
        return AlreadyApplied;
      }
      var app := Application(projectId, user, DefaultApplicationStatus, Some(message));
      WithApplicationValid(db, app);
      db := WithApplication(db, app);
      o := Done;
    }

    /** update_application: a leader or a company who created the project
        may set any of the three statuses, from any status; other users and
        other values change nothing. */
    method UpdateApplication(user: UserId, applicationId: nat, status: string) returns (o: Outcome)
      requires Valid() && user in db.users
      modifies this
      ensures Valid()
      ensures o != Done ==> db == old(db)
      ensures !Manages(old(db.users)[user].role) ==> o == Forbidden
      ensures Manages(old(db.users)[user].role) ==>
        if applicationId !in old(db.applications) then o == NotFound
        else if old(db.projects)[old(db.applications)[applicationId].project].creator != user then o == Forbidden
        else if status in ApplicationStatuses then
          o == Done && db == WithApplicationStatus(old(db), applicationId, status)
        else o == InvalidChoice
    {
      if !Manages(db.users[user].role) {
        return Forbidden;
      }
      if applicationId !in db.applications {
        return NotFound;
      }
      if db.projects[db.applications[applicationId].project].creator != user {
        return Forbidden;
      }
      if status in ApplicationStatuses {
        WithApplicationStatusValid(db, applicationId, status);
        db := WithApplicationStatus(db, applicationId, status);
        o := Done;
      } else {
        o := InvalidChoice;
      }
    }

    /** profile with a valid form: username and email are overwritten and
        the tech stack is always replaced, by the comma join of the
        selection or by '' when nothing is selected. A username or email
        another user has makes the commit fail, and nothing is saved. */
    method UpdateProfile(user: UserId, username: string, email: string, techStack: seq<string>) returns (o: Outcome)
      requires Valid() && user in db.users
      modifies this
      ensures Valid()
      ensures NameOrEmailTaken(old(db.users), username, email, Some(user)) ==> o == IntegrityError && db == old(db)
      ensures !NameOrEmailTaken(old(db.users), username, email, Some(user)) ==>
        && o == Done
        && db == WithUserRow(old(db), user, old(db.users)[user].(username := username, email := email,
                                                             techStack := Some(JoinOrEmpty(techStack))))
        && (SelectedFrom(techStack, TechChoices) ==> TechStackList(db.users[user]) == techStack)
    {
      if NameOrEmailTaken(db.users, username, email, Some(user)) {
        return IntegrityError;
      }
      var row := db.users[user].(username := username, email := email, techStack := Some(JoinOrEmpty(techStack)));
      WithUserRowValid(db, user, row);
      JoinOrEmptyRoundTrip(techStack);
      db := WithUserRow(db, user, row);
      o := Done;
    }
  }
}
