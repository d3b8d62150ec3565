/**
 * The database behind core/views.py: users, their profiles (one each, made
 * by the post_save signal of core/models.py), projects and applications.
 */
module CoreTables {
  import opened Choices
  import opened CoreModels

  /** Every table at once. Keys are row ids; `nextId` is above all of them. */
  datatype Tables = Tables(
    users: set<UserId>,
    profiles: map<UserId, Profile>,
    projects: map<ProjectId, Project>,
    applications: map<nat, Application>,
    nextId: nat)

  predicate HasApplication(apps: map<nat, Application>, project: ProjectId, applicant: UserId)
  {
    exists k :: k in apps && apps[k].project == project && apps[k].applicant == applicant
  }

  // ---------------------------------------------------------------------
  // Invariants
  // ---------------------------------------------------------------------

  /** Every id in `ids` is below `n`, so `n` is a fresh id. */
  predicate Below(ids: set<nat>, n: nat)
  {
    forall k :: k in ids ==> k < n
  }

  predicate CreatorsExist(ps: map<ProjectId, Project>, users: set<UserId>)
  {
    forall k :: k in ps ==> ps[k].creator in users
  }

  predicate ApplicationRefs(apps: map<nat, Application>, users: set<UserId>, projects: set<ProjectId>)
  {
    forall k :: k in apps ==> apps[k].applicant in users && apps[k].project in projects
  }

  /** At most one application per project and applicant. core/models.py
      declares no such constraint: `apply_project` keeps it by checking
      first. */
  predicate UniqueApplications(apps: map<nat, Application>)
  {
    forall a, b ::
      a in apps && b in apps && apps[a].project == apps[b].project && apps[a].applicant == apps[b].applicant ==> a == b
  }

  /** Fresh ids, existing foreign keys, exactly one profile per user, and
      one application per project and applicant. */
  predicate ValidTables(t: Tables)
  {
    && Below(t.users, t.nextId)
    && Below(t.projects.Keys, t.nextId)
    && Below(t.applications.Keys, t.nextId)
    && t.profiles.Keys == t.users
    && CreatorsExist(t.projects, t.users)
    && ApplicationRefs(t.applications, t.users, t.projects.Keys)
    && UniqueApplications(t.applications)
  }

  /** An empty site. */
  const Empty := Tables({}, map[], map[], map[], 0)

  lemma EmptyValid()
    ensures ValidTables(Empty)
  {
  }

  // ---------------------------------------------------------------------
  // The writes; new rows take `nextId`
  // ---------------------------------------------------------------------

  /** A new user, and the profile the `create_profile` signal adds. */
  function WithUser(t: Tables): Tables
  {
    t.(users := t.users + {t.nextId}, profiles := t.profiles[t.nextId := NewProfile], nextId := t.nextId + 1)
  }

  /** `profile.tech_stack = value; profile.save()` */
  function WithTechStack(t: Tables, user: UserId, value: Option<string>): Tables
    requires user in t.profiles
  {
    t.(profiles := t.profiles[user := t.profiles[user].(techStack := value)])
  }

  /** `profile.role = role; profile.save()` */
  function WithRole(t: Tables, user: UserId, role: Option<Role>): Tables
    requires user in t.profiles
  {
    t.(profiles := t.profiles[user := t.profiles[user].(role := role)])
  }

  function WithProject(t: Tables, p: Project): Tables
  {
    t.(projects := t.projects[t.nextId := p], nextId := t.nextId + 1)
  }

  function WithApplication(t: Tables, app: Application): Tables
  {
    t.(applications := t.applications[t.nextId := app], nextId := t.nextId + 1)
  }

  /** `application.status = status; application.save()` */
  function WithApplicationStatus(t: Tables, id: nat, status: RequestStatus): Tables
    requires id in t.applications
  {
    t.(applications := t.applications[id := t.applications[id].(status := status)])
  }

  // ---------------------------------------------------------------------
  // Each write keeps the tables valid
  // ---------------------------------------------------------------------

  /** A new user gets a fresh id and a profile with NULL columns. */
  lemma WithUserValid(t: Tables)
    requires ValidTables(t)
    ensures ValidTables(WithUser(t))
    ensures t.nextId !in t.users
  {
  }

  lemma WithTechStackValid(t: Tables, user: UserId, value: Option<string>)
    requires ValidTables(t) && user in t.users
    ensures ValidTables(WithTechStack(t, user, value))
  {
  }

  /** Saving a profile whose tech stack did not change changes nothing. */
  lemma WithTechStackSame(t: Tables, user: UserId)
    requires user in t.profiles
    ensures WithTechStack(t, user, t.profiles[user].techStack) == t
  {
    assert t.profiles[user := t.profiles[user].(techStack := t.profiles[user].techStack)] == t.profiles;
  }

  lemma WithRoleValid(t: Tables, user: UserId, role: Option<Role>)
    requires ValidTables(t) && user in t.users
    ensures ValidTables(WithRole(t, user, role))
  {
  }

  /** A project by an existing user keeps the tables valid, and no
      application refers to it yet. */
  lemma WithProjectValid(t: Tables, p: Project)
    requires ValidTables(t) && p.creator in t.users
    ensures ValidTables(WithProject(t, p))
    ensures t.nextId !in t.projects
  {
  }

  /** An application for a pair without one keeps the tables valid, and
      the pair then has one. */
  lemma WithApplicationValid(t: Tables, app: Application)
    requires ValidTables(t) && app.project in t.projects && app.applicant in t.users
    requires !HasApplication(t.applications, app.project, app.applicant)
    ensures ValidTables(WithApplication(t, app))
    ensures HasApplication(WithApplication(t, app).applications, app.project, app.applicant)
  {
    assert t.nextId in WithApplication(t, app).applications;
  }

  lemma WithApplicationStatusValid(t: Tables, id: nat, status: RequestStatus)
    requires ValidTables(t) && id in t.applications
    ensures ValidTables(WithApplicationStatus(t, id, status))
  {
  }
}

/**
 * The views of core/views.py that change or show state, as a store whose
 * methods are the handlers, and the project list's skill filter. A 404, a
 * refusal or an invalid form is an `Outcome`; the pages and redirects a
 * handler renders are not modelled.
 */
module CoreViews {
  import opened Choices
  import opened SkillCodec
  import opened CoreModels
  import opened CoreTables

  /** What the dashboard shows, by role. */
  datatype DashboardView =
    | ChooseRole
    | ApplicantDashboard(applications: set<nat>, applied: set<ProjectId>, available: set<ProjectId>)
    | LeaderDashboard(projects: set<ProjectId>, projectApplications: map<ProjectId, set<nat>>)
    | CompanyDashboard(projects: set<ProjectId>, applications: set<nat>)

  /** An applicant's dashboard: their applications, the projects they
      applied to, and the active projects they have not applied to. */
  ghost predicate IsApplicantView(t: Tables, user: UserId, v: DashboardView)
  {
    && v.ApplicantDashboard?
    && (forall k :: k in v.applications <==> k in t.applications && t.applications[k].applicant == user)
    && (forall p :: p in v.applied <==> HasApplication(t.applications, p, user))
    && (forall p :: p in v.available <==>
          p in t.projects && t.projects[p].status == Active && !HasApplication(t.applications, p, user))
  }

  /** A leader's dashboard: their projects, each with the ids of its
      applications. */
  ghost predicate IsLeaderView(t: Tables, user: UserId, v: DashboardView)
  {
    && v.LeaderDashboard?
    && (forall p :: p in v.projects <==> p in t.projects && t.projects[p].creator == user)
    && v.projectApplications.Keys == v.projects
    && (forall p, k :: p in v.projectApplications ==>
          (k in v.projectApplications[p] <==> k in t.applications && t.applications[k].project == p))
  }

  /** A company's dashboard: their projects and every application to one
      of them. */
  ghost predicate IsCompanyView(t: Tables, user: UserId, v: DashboardView)
  {
    && v.CompanyDashboard?
    && (forall p :: p in v.projects <==> p in t.projects && t.projects[p].creator == user)
    && (forall k :: k in v.applications <==>
          k in t.applications && t.applications[k].project in t.projects
          && t.projects[t.applications[k].project].creator == user)
  }

  method ApplicantView(t: Tables, user: UserId) returns (v: DashboardView)
    ensures IsApplicantView(t, user, v)
  {
    var apps := t.applications;
    var mine := set k | k in apps && apps[k].applicant == user;
    var applied := set k | k in apps && apps[k].applicant == user :: apps[k].project;
    var available := set p | p in t.projects && t.projects[p].status == Active && !HasApplication(apps, p, user);
    v := ApplicantDashboard(mine, applied, available);
  }

  /** The leader's loop fills the map one project at a time. */
  method LeaderView(t: Tables, user: UserId) returns (v: DashboardView)
    ensures IsLeaderView(t, user, v)
  {
    var apps := t.applications;
    var own := set p | p in t.projects && t.projects[p].creator == user;
    var byProject: map<ProjectId, set<nat>> := map[];
    var rest := own;
    while rest != {}
      invariant rest <= own
      invariant byProject.Keys == own - rest
      invariant forall p, k :: p in byProject ==> (k in byProject[p] <==> k in apps && apps[k].project == p)
      decreases rest
    {
      var p :| p in rest;
      byProject := byProject[p := set k | k in apps && apps[k].project == p];
      rest := rest - {p};
    }
    v := LeaderDashboard(own, byProject);
  }

  /** `Application.objects.filter(project__in=projects)` */
  method CompanyView(t: Tables, user: UserId) returns (v: DashboardView)
    ensures IsCompanyView(t, user, v)
  {
    var own := set p | p in t.projects && t.projects[p].creator == user;
    var all := set k | k in t.applications && t.applications[k].project in own;
    v := CompanyDashboard(own, all);
  }

  class CoreStore {
    /** The database. */
    var db: Tables

    predicate Valid()
      reads this
    {
      ValidTables(db)
    }

    constructor ()
      ensures Valid() && db == Empty
    {
      db := Empty;
      EmptyValid();
    }

    // -------------------------------------------------------------------
    // Row operations
    // -------------------------------------------------------------------

    /** `User` creation through a valid registration form; the signal adds
        its profile. */
    method CreateUser() returns (u: UserId)
      requires Valid()
      modifies this
      ensures Valid()
      ensures u == old(db.nextId) && u !in old(db.users)
      ensures db == WithUser(old(db))
    {
      WithUserValid(db);
      u := db.nextId;
      db := WithUser(db);
    }

    method SaveTechStack(user: UserId, value: Option<string>)
      requires Valid() && user in db.users
      modifies this
      ensures Valid()
      ensures db == WithTechStack(old(db), user, value)
    {
      WithTechStackValid(db, user, value);
      db := WithTechStack(db, user, value);
    }

    method SaveRole(user: UserId, role: Option<Role>)
      requires Valid() && user in db.users
      modifies this
      ensures Valid()
      ensures db == WithRole(old(db), user, role)
    {
      WithRoleValid(db, user, role);
      db := WithRole(db, user, role);
    }

    method SaveProject(p: Project) returns (id: ProjectId)
      requires Valid() && p.creator in db.users
      modifies this
      ensures Valid()
      ensures id == old(db.nextId) && id !in old(db.projects)
      ensures db == WithProject(old(db), p)
    {
      WithProjectValid(db, p);
      id := db.nextId;
      db := WithProject(db, p);
    }

    /** `application.save()` for a new application. The database accepts
        any pair, so its caller must have checked that the pair has none. */
    method SaveApplication(app: Application)
      requires Valid() && app.project in db.projects && app.applicant in db.users
      requires !HasApplication(db.applications, app.project, app.applicant)
      modifies this
      ensures Valid()
      ensures db == WithApplication(old(db), app)
      ensures HasApplication(db.applications, app.project, app.applicant)
    {
      WithApplicationValid(db, app);
      db := WithApplication(db, app);
    }

    method SaveApplicationStatus(id: nat, status: RequestStatus)
      requires Valid() && id in db.applications
      modifies this
      ensures Valid()
      ensures db == WithApplicationStatus(old(db), id, status)
    {
      WithApplicationStatusValid(db, id, status);
      db := WithApplicationStatus(db, id, status);
    }

    // -------------------------------------------------------------------
    // The view handlers
    // -------------------------------------------------------------------

    /** register_login_view with a valid registration form: a new user and
        profile, whose tech stack is the comma join of the listed
        technologies when any are listed and stays NULL otherwise. The list
        is taken from the request as it is, without a check against
        TECH_CHOICES. */
    method Register(techStack: seq<string>) returns (u: UserId)
      requires Valid()
      modifies this
      ensures Valid()
      ensures u == old(db.nextId) && u !in old(db.users) && u in db.users
      ensures db == WithTechStack(WithUser(old(db)), u, FormField(None, techStack))
      ensures db.profiles[u].role == None
      ensures |techStack| == 0 ==> db.profiles[u] == NewProfile
      ensures |techStack| > 0 && SelectedFrom(techStack, TechChoices) ==> TechStackList(db.profiles[u]) == techStack
    {
      u := CreateUser();
      SaveTechStack(u, FormField(None, techStack));
      if SelectedFrom(techStack, TechChoices) {
        FormFieldRoundTrip(None, techStack);
      }
    }

    /** UserProfileForm.save: a selection outside TECH_CHOICES makes the
        form invalid and changes nothing; an empty selection leaves the tech
        stack as it was; any other selection replaces it with its comma
        join, which reads back as the selection. */
    method SaveProfileForm(user: UserId, selection: seq<string>) returns (o: Outcome)
      requires Valid() && user in db.users
      modifies this
      ensures Valid()
      ensures !SelectedFrom(selection, TechChoices) ==> o == InvalidChoice && db == old(db)
      ensures SelectedFrom(selection, TechChoices) ==>
        o == Done && db == WithTechStack(old(db), user, FormField(old(db.profiles)[user].techStack, selection))
      ensures SelectedFrom(selection, TechChoices) && |selection| == 0 ==> db == old(db)
      ensures SelectedFrom(selection, TechChoices) && |selection| > 0 ==>
        TechStackList(db.profiles[user]) == selection
    {
      if !SelectedFrom(selection, TechChoices) {
        return InvalidChoice;
      }
      var current := db.profiles[user].techStack;
      WithTechStackSame(db, user);
      SaveTechStack(user, FormField(current, selection));
      FormFieldRoundTrip(current, selection);
      o := Done;
    }

    /** role_selection: only 'applicant', 'leader' and 'company' are
        stored; any other value is refused and changes nothing. */
    method RoleSelection(user: UserId, role: string) returns (o: Outcome)
      requires Valid() && user in db.users
      modifies this
      ensures Valid()
      ensures o == Done <==> role in {"applicant", "leader", "company"}
      ensures o == Done ==> db == WithRole(old(db), user, ParseRole(role))
      ensures o == Done ==> db.profiles[user].role.Some? && RoleName(db.profiles[user].role.value) == role
      ensures o != Done ==> o == InvalidChoice && db == old(db)
    {
      var r := ParseRole(role);
      if r.Some? {
        SaveRole(user, r);
        o := Done;
      } else {
        o := InvalidChoice;
      }
    }

    /** dashboard: a user without a role is sent to role selection;
        otherwise the view of the user's role. */
    method Dashboard(user: UserId) returns (view: DashboardView)
      requires Valid() && user in db.users
      ensures db.profiles[user].role == None <==> view == ChooseRole
      ensures db.profiles[user].role == Some(Applicant) ==> IsApplicantView(db, user, view)
      ensures db.profiles[user].role == Some(Leader) ==> IsLeaderView(db, user, view)
      ensures db.profiles[user].role == Some(Company) ==> IsCompanyView(db, user, view)
    {
      var role := db.profiles[user].role;
      if role == None {
        return ChooseRole;
      }
      match role.value
      case Applicant => view := ApplicantView(db, user);
      case Leader => view := LeaderView(db, user);
      case Company => view := CompanyView(db, user);
    }

    /** create_project with a valid form: a selection outside TECH_CHOICES
        makes the form invalid and changes nothing; otherwise a new active
        project owned by `user`, whatever the user's role, whose required
        skills are the comma join of the selection, or NULL when nothing is
        selected. */
    method CreateProject(user: UserId, title: string, description: string, teamSize: int, duration: string,
                         selection: seq<string>)
        returns (o: Outcome, id: ProjectId)
      requires Valid() && user in db.users
      modifies this
      ensures Valid()
      ensures !SelectedFrom(selection, TechChoices) ==> o == InvalidChoice && db == old(db)
      ensures SelectedFrom(selection, TechChoices) ==>
        && o == Done && id == old(db.nextId) && id !in old(db.projects)
        && db == WithProject(old(db), Project(title, description, FormField(None, selection), teamSize, duration, Active, user))
        && (|selection| == 0 ==> db.projects[id].requiredSkills == None)
        && (|selection| > 0 ==> RequiredSkillsList(db.projects[id]) == selection)
    {
      if !SelectedFrom(selection, TechChoices) {
        return InvalidChoice, 0;
      }
      FormFieldRoundTrip(None, selection);
      id := SaveProject(Project(title, description, FormField(None, selection), teamSize, duration, Active, user));
      o := Done;
    }

    /** apply_project, submitting a valid form: a missing project is a 404;
        a user whose role is not applicant is refused; a second application
        to the same project is refused; otherwise one pending application
        is added. */
    method ApplyProject(user: UserId, projectId: ProjectId, message: Option<string>) returns (o: Outcome)
      requires Valid() && user in db.users
      modifies this
      ensures Valid()
      ensures o != Done ==> db == old(db)
      ensures projectId !in old(db.projects) ==> o == NotFound
      ensures projectId in old(db.projects) ==>
        if old(db.profiles)[user].role != Some(Applicant) then o == Forbidden
        else if HasApplication(old(db.applications), projectId, user) then o == AlreadyApplied
        else o == Done && db == WithApplication(old(db), Application(projectId, user, Pending, message))
    {
      if projectId !in db.projects {
        return NotFound;
      }
      if db.profiles[user].role != Some(Applicant) {
        return Forbidden;
      }
      if HasApplication(db.applications, projectId, user) {
        return AlreadyApplied;
      }
      SaveApplication(Application(projectId, user, Pending, message));
      o := Done;
    }

    /** update_application: a missing application is a 404; anyone but the
        project's creator is refused; 'pending', 'accepted' and 'rejected'
        are stored, in any order; any other value changes nothing. */
    method UpdateApplication(user: UserId, applicationId: nat, status: string) returns (o: Outcome)
      requires Valid()
      modifies this
      ensures Valid()
      ensures applicationId !in old(db.applications) ==> o == NotFound && db == old(db)
      ensures applicationId in old(db.applications) ==>
        if old(db.projects)[old(db.applications)[applicationId].project].creator != user then
          o == Forbidden && db == old(db)
        else if status in {"pending", "accepted", "rejected"} then
          o == Done && db == WithApplicationStatus(old(db), applicationId, ParseStatus(status).value)
          && StatusName(db.applications[applicationId].status) == status
        else
          o == Ignored && db == old(db)
    {
      if applicationId !in db.applications {
        return NotFound;
      }
      if db.projects[db.applications[applicationId].project].creator != user {
        return Forbidden;
      }
      var s := ParseStatus(status);
      if s.Some? {
        SaveApplicationStatus(applicationId, s.value);
        o := Done;
      } else {
        o := Ignored;
      }
    }
  }

  // ---------------------------------------------------------------------
  // project_list
  // ---------------------------------------------------------------------

  /** The projects the filter keeps out of one. */
  function Keep(p: Project, skill: string): seq<Project>
  {
    if skill in RequiredSkillsList(p) then [p] else []
  }

  /** `[p for p in projects if skill in p.get_required_skills_list()]` */
  function SkillFilter(projects: seq<Project>, skill: string): seq<Project>
  {
    if |projects| == 0 then []
    else Keep(projects[0], skill) + SkillFilter(projects[1..], skill)
  }

  /** The filter keeps exactly the projects listing the skill as one of
      their entries, in their order, and adds none. */
  lemma {:induction false} SkillFilterKeeps(projects: seq<Project>, skill: string)
    ensures forall p :: p in SkillFilter(projects, skill) <==> p in projects && skill in RequiredSkillsList(p)
    ensures |SkillFilter(projects, skill)| <= |projects|
    ensures (forall p :: p in projects ==> skill in RequiredSkillsList(p)) ==> SkillFilter(projects, skill) == projects
  {
    if |projects| > 0 {
      SkillFilterKeeps(projects[1..], skill);
      assert projects == [projects[0]] + projects[1..];
    }
  }

  /** An entry matches only as a whole: "Java" does not select a project
      requiring "JavaScript" ... */
  lemma SkillFilterIsNotSubstring(p: Project)
    requires p.requiredSkills == Some("JavaScript")
    ensures SkillFilter([p], "Java") == []
  {
    assert JoinSkills(["JavaScript"]) == "JavaScript";
    SplitListRoundTrip(["JavaScript"]);
    assert [p][1..] == [];
  }

  /** ... while "React" selects a project requiring "Vue,React". */
  lemma SkillFilterMatchesEntry(p: Project)
    requires p.requiredSkills == Some("Vue,React")
    ensures SkillFilter([p], "React") == [p]
  {
    assert JoinSkills(["Vue", "React"]) == "Vue,React";
    SplitListRoundTrip(["Vue", "React"]);
    assert [p][1..] == [];
  }

  lemma SkillFilterCons(p: Project, ps: seq<Project>, skill: string)
    ensures SkillFilter([p] + ps, skill) == Keep(p, skill) + SkillFilter(ps, skill)
  {
    assert ([p] + ps)[0] == p;
    assert ([p] + ps)[1..] == ps;
  }

  /** The filter keeps the order of the projects: filtering two runs of
      projects is filtering each and concatenating. */
  lemma {:induction false} SkillFilterAppend(xs: seq<Project>, ys: seq<Project>, skill: string)
    ensures SkillFilter(xs + ys, skill) == SkillFilter(xs, skill) + SkillFilter(ys, skill)
  {
    if |xs| == 0 {
      assert xs + ys == ys;
    } else {
      assert xs + ys == [xs[0]] + (xs[1..] + ys);
      assert xs == [xs[0]] + xs[1..];
      SkillFilterCons(xs[0], xs[1..] + ys, skill);
      SkillFilterCons(xs[0], xs[1..], skill);
      SkillFilterAppend(xs[1..], ys, skill);
    }
  }

  /** The page project_list renders, or the server error it raises. */
  datatype ProjectPage = Crashed | Listed(projects: seq<Project>)

  /** What the view's `projects` variable holds: a query set, or the Python
      list a comprehension builds from one. */
  datatype Rows = QuerySet(rows: seq<Project>) | PyList(items: seq<Project>)

  function Elements(r: Rows): seq<Project>
  {
    match r
    case QuerySet(rows) => rows
    case PyList(items) => items
  }

  /** Line 158: the comprehension over the skill filter yields a list. */
  function SkillStep(r: Rows, skill: string): Rows
  {
    PyList(SkillFilter(Elements(r), skill))
  }

  /** `projects.order_by(field)`: a query set is ordered (by creation time,
      which is not modelled, so its rows stay in order); a Python list has
      no `order_by`, and the attribute lookup raises. */
  function OrderBy(r: Rows, field: string): ProjectPage
  {
    match r
    case QuerySet(rows) => Listed(rows)
    case PyList(_) => Crashed
  }

  /** project_list as written, given the active projects the search left
      in database order, the `skill` and the `sort` parameters: each step
      of lines 157-164 in turn. */
  function ProjectListAsWritten(active: seq<Project>, skill: Option<string>, sort: string): ProjectPage
  {
    var projects := QuerySet(active);
    var projects := if Present(skill) then SkillStep(projects, skill.value) else projects;
    if sort == "oldest" then OrderBy(projects, "created_at") else OrderBy(projects, "-created_at")
  }

  /** Every request that names a skill ends in a server error, whichever
      way it asks the page to be sorted. */
  lemma ProjectListAsWrittenCrashes(active: seq<Project>, skill: string, sort: string)
    requires skill != ""
    ensures ProjectListAsWritten(active, Some(skill), sort).Crashed?
  {
  }

  /** A request without a skill (absent or empty) shows the intended page. */
  lemma ProjectListAsWrittenWithoutSkill(active: seq<Project>, skill: Option<string>, sort: string)
    requires !Present(skill)
    ensures ProjectListAsWritten(active, skill, sort) == ProjectList(active, skill)
  {
  }

  /** project_list as intended: the skill filter applied to the active
      projects (their order by creation time is not modelled). */
  function ProjectList(active: seq<Project>, skill: Option<string>): ProjectPage
  {
    Listed(if Present(skill) then SkillFilter(active, skill.value) else active)
  }

  /** The intended page lists exactly the active projects that require the
      skill, or all of them when no skill is given. */
  lemma ProjectListShowsMatching(active: seq<Project>, skill: Option<string>)
    ensures ProjectList(active, skill).Listed?
    ensures !Present(skill) ==> ProjectList(active, skill).projects == active
    ensures Present(skill) ==> forall p :: p in ProjectList(active, skill).projects <==>
      p in active && skill.value in RequiredSkillsList(p)
    ensures Present(skill) ==> forall xs, ys :: active == xs + ys ==>
      ProjectList(active, skill).projects == SkillFilter(xs, skill.value) + SkillFilter(ys, skill.value)
  {
    if Present(skill) {
      SkillFilterKeeps(active, skill.value);
      forall xs, ys | active == xs + ys
        ensures SkillFilter(active, skill.value) == SkillFilter(xs, skill.value) + SkillFilter(ys, skill.value)
      {
        SkillFilterAppend(xs, ys, skill.value);
      }
    }
  }
}
