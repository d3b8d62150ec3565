/**
 * The database behind crewd/projects/dashboard_views.py: the tables of
 * crewd/projects/models.py plus each user's profile role, the constraints
 * the models declare, and the lookups the views make.
 */
module StoreTables {
  import opened Choices
  import opened CrewdModels

  /** Every table at once. Keys are row ids; `nextId` is above all of them. */
  datatype Tables = Tables(
    users: set<UserId>,
    roles: map<UserId, Option<Role>>,
    projects: map<ProjectId, Project>,
    memberships: map<nat, Membership>,
    applications: map<nat, Application>,
    invitations: map<nat, Invitation>,
    groups: map<GroupId, Group>,
    messages: seq<Message>,
    nextId: nat)

  // ---------------------------------------------------------------------
  // Lookups
  // ---------------------------------------------------------------------

  predicate IsMember(ms: map<nat, Membership>, user: UserId, project: ProjectId)
  {
    exists k :: k in ms && ms[k].user == user && ms[k].project == project
  }

  predicate HasInvitation(invs: map<nat, Invitation>, project: ProjectId, recipient: UserId)
  {
    exists k :: k in invs && invs[k].project == project && invs[k].recipient == recipient
  }

  predicate HasPendingInvitation(invs: map<nat, Invitation>, project: ProjectId, recipient: UserId)
  {
    exists k :: k in invs && invs[k].project == project && invs[k].recipient == recipient
      && invs[k].status == Pending
  }

  predicate HasApplication(apps: map<nat, Application>, project: ProjectId, applicant: UserId)
  {
    exists k :: k in apps && apps[k].project == project && apps[k].applicant == applicant
  }

  /** The users holding a membership of `project`. */
  function MemberIds(ms: map<nat, Membership>, project: ProjectId): (ids: set<UserId>)
    ensures forall u :: u in ids <==> IsMember(ms, u, project)
  {
    set k | k in ms && ms[k].project == project :: ms[k].user
  }

  /** The messages of group `g`, in the order they were posted. */
  function GroupMessages(ms: seq<Message>, g: GroupId): (r: seq<Message>)
    ensures forall m :: m in r <==> m in ms && m.group == Some(g)
    ensures |r| <= |ms|
  {
    if |ms| == 0 then []
    else
      var init := GroupMessages(ms[..|ms| - 1], g);
      assert forall m :: m in ms <==> m in ms[..|ms| - 1] || m == ms[|ms| - 1];
      if ms[|ms| - 1].group == Some(g) then init + [ms[|ms| - 1]] else init
  }

  /** A posted message is shown last in its own group and does not show in
      any other group. */
  lemma GroupMessagesAppend(ms: seq<Message>, m: Message, g: GroupId)
    ensures m.group == Some(g) ==> GroupMessages(ms + [m], g) == GroupMessages(ms, g) + [m]
    ensures m.group != Some(g) ==> GroupMessages(ms + [m], g) == GroupMessages(ms, g)
  {
    assert (ms + [m])[..|ms|] == ms;
  }

  // ---------------------------------------------------------------------
  // Invariants
  // ---------------------------------------------------------------------

  /** Every id in `ids` is below `n`, so `n` is a fresh id. */
  predicate Below(ids: set<nat>, n: nat)
  {
    forall k :: k in ids ==> k < n
  }

  predicate CreatorsExist(ps: map<ProjectId, Project>, users: set<UserId>)
  {
    forall k :: k in ps ==> ps[k].creator in users
  }

  predicate MembershipRefs(ms: map<nat, Membership>, users: set<UserId>, projects: set<ProjectId>)
  {
    forall k :: k in ms ==> ms[k].user in users && ms[k].project in projects
  }

  predicate ApplicationRefs(apps: map<nat, Application>, users: set<UserId>, projects: set<ProjectId>)
  {
    forall k :: k in apps ==> apps[k].applicant in users && apps[k].project in projects
  }

  predicate InvitationRefs(invs: map<nat, Invitation>, users: set<UserId>, projects: set<ProjectId>)
  {
    forall k :: k in invs ==>
      invs[k].sender in users && invs[k].recipient in users && invs[k].project in projects
  }

  predicate GroupRefs(gs: map<GroupId, Group>, projects: set<ProjectId>)
  {
    forall k :: k in gs ==> gs[k].project in projects
  }

  predicate MessageRefs(ms: seq<Message>, users: set<UserId>, groups: set<GroupId>)
  {
    forall i :: 0 <= i < |ms| ==> ms[i].sender in users && (ms[i].group.Some? ==> ms[i].group.value in groups)
  }

  /** `unique_together = ('user', 'project')` of ProjectMembership. */
  predicate UniqueMemberships(ms: map<nat, Membership>)
  {
    forall a, b ::
      a in ms && b in ms && ms[a].user == ms[b].user && ms[a].project == ms[b].project ==> a == b
  }

  /** `unique_together = ('project', 'applicant')` of Application. */
  predicate UniqueApplications(apps: map<nat, Application>)
  {
    forall a, b ::
      a in apps && b in apps && apps[a].project == apps[b].project && apps[a].applicant == apps[b].applicant ==> a == b
  }

  /** `unique_together = ('project', 'recipient')` of Invitation. */
  predicate UniqueInvitations(invs: map<nat, Invitation>)
  {
    forall a, b ::
      a in invs && b in invs && invs[a].project == invs[b].project && invs[a].recipient == invs[b].recipient ==> a == b
  }

  /** The one-to-one link from Group to Project. */
  predicate OneGroupPerProject(gs: map<GroupId, Group>)
  {
    forall a, b :: a in gs && b in gs && gs[a].project == gs[b].project ==> a == b
  }

  /** Fresh ids, existing foreign keys, a profile for every user, and the
      uniqueness constraints of the models. */
  predicate ValidTables(t: Tables)
  {
    && Below(t.users, t.nextId)
    && Below(t.projects.Keys, t.nextId)
    && Below(t.memberships.Keys, t.nextId)
    && Below(t.applications.Keys, t.nextId)
    && Below(t.invitations.Keys, t.nextId)
    && Below(t.groups.Keys, t.nextId)
    && t.roles.Keys == t.users
    && CreatorsExist(t.projects, t.users)
    && MembershipRefs(t.memberships, t.users, t.projects.Keys)
    && ApplicationRefs(t.applications, t.users, t.projects.Keys)
    && InvitationRefs(t.invitations, t.users, t.projects.Keys)
    && GroupRefs(t.groups, t.projects.Keys)
    && MessageRefs(t.messages, t.users, t.groups.Keys)
    && UniqueMemberships(t.memberships)
    && UniqueApplications(t.applications)
    && UniqueInvitations(t.invitations)
    && OneGroupPerProject(t.groups)
  }

  /** Who may read and post in a project's group: a member or the creator. */
  predicate CanAccess(t: Tables, actor: UserId, project: ProjectId)
  {
    IsMember(t.memberships, actor, project)
    || (project in t.projects && t.projects[project].creator == actor)
  }

  // ---------------------------------------------------------------------
  // Each kind of write keeps the constraints
  // ---------------------------------------------------------------------

  /** A membership under a fresh id for a pair without one keeps
      memberships unique, and the pair is then a member. */
  lemma AddMembershipUnique(ms: map<nat, Membership>, n: nat, m: Membership)
    requires UniqueMemberships(ms) && n !in ms && !IsMember(ms, m.user, m.project)
    ensures UniqueMemberships(ms[n := m])
    ensures IsMember(ms[n := m], m.user, m.project)
  {
    assert n in ms[n := m];
  }

  /** An invitation under a fresh id for a pair without one keeps
      invitations unique. */
  lemma AddInvitationUnique(invs: map<nat, Invitation>, n: nat, inv: Invitation)
    requires UniqueInvitations(invs) && n !in invs && !HasInvitation(invs, inv.project, inv.recipient)
    ensures UniqueInvitations(invs[n := inv])
    ensures HasPendingInvitation(invs[n := inv], inv.project, inv.recipient) <==> inv.status == Pending
  {
    assert n in invs[n := inv];
  }

  /** An application under a fresh id for a pair without one keeps
      applications unique. */
  lemma AddApplicationUnique(apps: map<nat, Application>, n: nat, app: Application)
    requires UniqueApplications(apps) && n !in apps && !HasApplication(apps, app.project, app.applicant)
    ensures UniqueApplications(apps[n := app])
    ensures HasApplication(apps[n := app], app.project, app.applicant)
  {
    assert n in apps[n := app];
  }

  /** Answering an invitation keeps invitations unique and leaves the pair
      with no pending invitation. */
  lemma SetInvitationStatusUnique(invs: map<nat, Invitation>, id: nat, status: RequestStatus)
    requires UniqueInvitations(invs) && id in invs
    ensures UniqueInvitations(invs[id := invs[id].(status := status)])
    ensures status != Pending ==>
      !HasPendingInvitation(invs[id := invs[id].(status := status)], invs[id].project, invs[id].recipient)
  {
  }

  /** Answering an application keeps applications unique. */
  lemma SetApplicationStatusUnique(apps: map<nat, Application>, id: nat, status: RequestStatus)
    requires UniqueApplications(apps) && id in apps
    ensures UniqueApplications(apps[id := apps[id].(status := status)])
  {
  }

  /** A group under a fresh id for a project without one keeps the
      one-to-one link. */
  lemma AddGroupOneToOne(gs: map<GroupId, Group>, n: nat, g: Group)
    requires OneGroupPerProject(gs) && n !in gs && forall k :: k in gs ==> gs[k].project != g.project
    ensures OneGroupPerProject(gs[n := g])
  {
  }

  /** An empty site. */
  const Empty := Tables({}, map[], map[], map[], map[], map[], map[], [], 0)

  lemma EmptyValid()
    ensures ValidTables(Empty)
  {
  }

  // ---------------------------------------------------------------------
  // The writes, one per kind of row change; new rows take `nextId`
  // ---------------------------------------------------------------------

  /** A new user with its profile. */
  function WithUser(t: Tables, role: Option<Role>): Tables
  {
    t.(users := t.users + {t.nextId}, roles := t.roles[t.nextId := role], nextId := t.nextId + 1)
  }

  /** `profile.role = role; profile.save()` */
  function WithRole(t: Tables, user: UserId, role: Option<Role>): Tables
  {
    t.(roles := t.roles[user := role])
  }

  /** `invitation.status = status; invitation.save()` */
  function WithInvitationStatus(t: Tables, id: nat, status: RequestStatus): Tables
    requires id in t.invitations
  {
    t.(invitations := t.invitations[id := t.invitations[id].(status := status)])
  }

  /** `application.status = status; application.save()` */
  function WithApplicationStatus(t: Tables, id: nat, status: RequestStatus): Tables
    requires id in t.applications
  {
    t.(applications := t.applications[id := t.applications[id].(status := status)])
  }

  function WithMembership(t: Tables, m: Membership): Tables
  {
    t.(memberships := t.memberships[t.nextId := m], nextId := t.nextId + 1)
  }

  function WithInvitation(t: Tables, inv: Invitation): Tables
  {
    t.(invitations := t.invitations[t.nextId := inv], nextId := t.nextId + 1)
  }

  function WithApplication(t: Tables, app: Application): Tables
  {
    t.(applications := t.applications[t.nextId := app], nextId := t.nextId + 1)
  }

  /** `invitation.delete()` */
  function WithoutInvitation(t: Tables, id: nat): Tables
  {
    t.(invitations := t.invitations - {id})
  }

  function WithMessage(t: Tables, m: Message): Tables
  {
    t.(messages := t.messages + [m])
  }

  function WithProject(t: Tables, p: Project): Tables
  {
    t.(projects := t.projects[t.nextId := p], nextId := t.nextId + 1)
  }

  function WithGroup(t: Tables, g: Group): Tables
  {
    t.(groups := t.groups[t.nextId := g], nextId := t.nextId + 1)
  }

  // ---------------------------------------------------------------------
  // Each write keeps the tables valid
  // ---------------------------------------------------------------------

  /** A new user gets a fresh id. */
  lemma WithUserValid(t: Tables, role: Option<Role>)
    requires ValidTables(t)
    ensures ValidTables(WithUser(t, role))
    ensures t.nextId !in t.users
  {
  }

  lemma WithRoleValid(t: Tables, user: UserId, role: Option<Role>)
    requires ValidTables(t) && user in t.users
    ensures ValidTables(WithRole(t, user, role))
  {
  }

  /** Answering an invitation keeps the tables valid; afterwards the pair
      has no pending invitation. */
  lemma WithInvitationStatusValid(t: Tables, id: nat, status: RequestStatus)
    requires ValidTables(t) && id in t.invitations
    ensures ValidTables(WithInvitationStatus(t, id, status))
    ensures status != Pending ==>
      !HasPendingInvitation(WithInvitationStatus(t, id, status).invitations, t.invitations[id].project, t.invitations[id].recipient)
  {
    SetInvitationStatusUnique(t.invitations, id, status);
  }

  lemma WithApplicationStatusValid(t: Tables, id: nat, status: RequestStatus)
    requires ValidTables(t) && id in t.applications
    ensures ValidTables(WithApplicationStatus(t, id, status))
  {
    SetApplicationStatusUnique(t.applications, id, status);
  }

  /** A membership for a user and a project without one keeps the tables
      valid, and the user is then a member. */
  lemma WithMembershipValid(t: Tables, m: Membership)
    requires ValidTables(t) && m.user in t.users && m.project in t.projects
    requires !IsMember(t.memberships, m.user, m.project)
    ensures ValidTables(WithMembership(t, m))
    ensures IsMember(WithMembership(t, m).memberships, m.user, m.project)
  {
    AddMembershipUnique(t.memberships, t.nextId, m);
  }

  lemma WithInvitationValid(t: Tables, inv: Invitation)
    requires ValidTables(t) && inv.project in t.projects && inv.sender in t.users && inv.recipient in t.users
    requires !HasInvitation(t.invitations, inv.project, inv.recipient)
    ensures ValidTables(WithInvitation(t, inv))
  {
    AddInvitationUnique(t.invitations, t.nextId, inv);
  }

  lemma WithApplicationValid(t: Tables, app: Application)
    requires ValidTables(t) && app.project in t.projects && app.applicant in t.users
    requires !HasApplication(t.applications, app.project, app.applicant)
    ensures ValidTables(WithApplication(t, app))
  {
    AddApplicationUnique(t.applications, t.nextId, app);
  }

  /** Deleting an invitation keeps the tables valid: no row refers to one. */
  lemma WithoutInvitationValid(t: Tables, id: nat)
    requires ValidTables(t)
    ensures ValidTables(WithoutInvitation(t, id))
  {
  }

  lemma WithMessageValid(t: Tables, m: Message)
    requires ValidTables(t) && m.sender in t.users && m.group.Some? && m.group.value in t.groups
    ensures ValidTables(WithMessage(t, m))
  {
  }

  /** A project by an existing user keeps the tables valid, and nothing
      refers to the new project yet. */
  lemma WithProjectValid(t: Tables, p: Project)
    requires ValidTables(t) && p.creator in t.users
    ensures ValidTables(WithProject(t, p))
    ensures t.nextId !in t.projects
    ensures forall k :: k in t.groups ==> t.groups[k].project != t.nextId
    ensures forall u :: !IsMember(t.memberships, u, t.nextId)
  {
  }

  /** A group for a project without one keeps the tables valid. */
  lemma WithGroupValid(t: Tables, g: Group)
    requires ValidTables(t) && g.project in t.projects
    requires forall k :: k in t.groups ==> t.groups[k].project != g.project
    ensures ValidTables(WithGroup(t, g))
  {
    AddGroupOneToOne(t.groups, t.nextId, g);
  }
}

/**
 * The collaboration workflow of crewd/projects/dashboard_views.py as a
 * store with one field per table: row operations (one save, create or
 * delete each) and one method per view handler built from them. A handler
 * that the site answers with a 404, a refusal or a database error returns
 * an `Outcome` saying so. Writes are committed one by one (Django's
 * autocommit), so a status saved before a failing insert stays saved.
 */
module Workflow {
  import opened Choices
  import opened PyText
  import opened CrewdModels
  import opened StoreTables
  import Matching

  class Store {
    /** The database. */
    var db: Tables

    predicate Valid()
      reads this
    {
      ValidTables(db)
    }

    constructor ()
      ensures Valid() && db == Empty
    {
      db := Empty;
      EmptyValid();
    }

    // -------------------------------------------------------------------
    // Row operations: one save, create or delete each
    // -------------------------------------------------------------------

    /** A new user with its profile (the profile's role is given). */
    method AddUser(role: Option<Role>) returns (u: UserId)
      requires Valid()
      modifies this
      ensures Valid()
      ensures u == old(db.nextId) && u !in old(db.users) && u in db.users
      ensures db == WithUser(old(db), role)
    {
      WithUserValid(db, role);
      u := db.nextId;
      db := WithUser(db, role);
    }

    /** `profile.role = role; profile.save()` */
    method SaveRole(user: UserId, role: Option<Role>)
      requires Valid() && user in db.users
      modifies this
      ensures Valid()
      ensures db == WithRole(old(db), user, role)
    {
      WithRoleValid(db, user, role);
      db := WithRole(db, user, role);
    }

    /** `invitation.status = status; invitation.save()` */
    method SaveInvitationStatus(id: nat, status: RequestStatus)
      requires Valid() && id in db.invitations
      modifies this
      ensures Valid()
      ensures db == WithInvitationStatus(old(db), id, status)
    {
      WithInvitationStatusValid(db, id, status);
      db := WithInvitationStatus(db, id, status);
    }

    /** `application.status = status; application.save()` */
    method SaveApplicationStatus(id: nat, status: RequestStatus)
      requires Valid() && id in db.applications
      modifies this
      ensures Valid()
      ensures db == WithApplicationStatus(old(db), id, status)
    {
      WithApplicationStatusValid(db, id, status);
      db := WithApplicationStatus(db, id, status);
    }

    /** `ProjectMembership.objects.create(...)`: refused by the database
        when the user is a member of the project already. */
    method CreateMembership(user: UserId, project: ProjectId, role: MemberRole) returns (o: Outcome)
      requires Valid() && user in db.users && project in db.projects
      modifies this
      ensures Valid()
      ensures IsMember(old(db.memberships), user, project) ==> o == IntegrityError && db == old(db)
      ensures !IsMember(old(db.memberships), user, project) ==>
        o == Done && db == WithMembership(old(db), Membership(user, project, role))
      ensures IsMember(db.memberships, user, project)
    {
      if IsMember(db.memberships, user, project) {
        return IntegrityError;
      }
      WithMembershipValid(db, Membership(user, project, role));
      db := WithMembership(db, Membership(user, project, role));
      o := Done;
    }

    /** `Invitation.objects.create(...)`: a new invitation is pending; the
        database refuses a second one for the same project and recipient,
        whatever the first one's status. */
    method CreateInvitation(project: ProjectId, sender: UserId, recipient: UserId, message: Option<string>)
        returns (o: Outcome)
      requires Valid() && project in db.projects && sender in db.users && recipient in db.users
      modifies this
      ensures Valid()
      ensures HasInvitation(old(db.invitations), project, recipient) ==> o == IntegrityError && db == old(db)
      ensures !HasInvitation(old(db.invitations), project, recipient) ==>
        o == Done && db == WithInvitation(old(db), Invitation(project, sender, recipient, Pending, message))
    {
      if HasInvitation(db.invitations, project, recipient) {
        return IntegrityError;
      }
      WithInvitationValid(db, Invitation(project, sender, recipient, Pending, message));
      db := WithInvitation(db, Invitation(project, sender, recipient, Pending, message));
      o := Done;
    }

    /** `Application.objects.create(...)`: a new application is pending;
        the database refuses a second one for the same project and
        applicant. */
    method CreateApplication(project: ProjectId, applicant: UserId, message: Option<string>) returns (o: Outcome)
      requires Valid() && project in db.projects && applicant in db.users
      modifies this
      ensures Valid()
      ensures HasApplication(old(db.applications), project, applicant) ==> o == IntegrityError && db == old(db)
      ensures !HasApplication(old(db.applications), project, applicant) ==>
        o == Done && db == WithApplication(old(db), Application(project, applicant, Pending, message))
    {
      if HasApplication(db.applications, project, applicant) {
        return IntegrityError;
      }
      WithApplicationValid(db, Application(project, applicant, Pending, message));
      db := WithApplication(db, Application(project, applicant, Pending, message));
      o := Done;
    }

    /** `invitation.delete()` */
    method DeleteInvitation(id: nat)
      requires Valid()
      modifies this
      ensures Valid()
      ensures db == WithoutInvitation(old(db), id) && id !in db.invitations
    {
      WithoutInvitationValid(db, id);
      db := WithoutInvitation(db, id);
    }

    /** `Message.objects.create(group=group, sender=sender, content=content)` */
    method CreateMessage(group: GroupId, sender: UserId, content: string)
      requires Valid() && group in db.groups && sender in db.users
      modifies this
      ensures Valid()
      ensures db == WithMessage(old(db), Message(Some(group), sender, content))
    {
      WithMessageValid(db, Message(Some(group), sender, content));
      db := WithMessage(db, Message(Some(group), sender, content));
    }

    /** `project.save()` for a new project: its id is fresh, and no group
        or membership refers to it yet. */
    method CreateProjectRow(p: Project) returns (id: ProjectId)
      requires Valid() && p.creator in db.users
      modifies this
      ensures Valid()
      ensures id == old(db.nextId) && id !in old(db.projects)
      ensures db == WithProject(old(db), p)
      ensures forall k :: k in db.groups ==> db.groups[k].project != id
      ensures forall u :: !IsMember(db.memberships, u, id)
    {
      WithProjectValid(db, p);
      id := db.nextId;
      db := WithProject(db, p);
    }

    /** `Group.objects.create(name=name, project=project)`: refused by the
        database when the project has a group already. */
    method CreateGroup(name: string, project: ProjectId) returns (o: Outcome)
      requires Valid() && project in db.projects
      modifies this
      ensures Valid()
      ensures (exists k :: k in old(db.groups) && old(db.groups)[k].project == project) ==>
        o == IntegrityError && db == old(db)
      ensures (forall k :: k in old(db.groups) ==> old(db.groups)[k].project != project) ==>
        o == Done && db == WithGroup(old(db), Group(name, project))
    {
      if exists k :: k in db.groups && db.groups[k].project == project {
        return IntegrityError;
      }
      WithGroupValid(db, Group(name, project));
      db := WithGroup(db, Group(name, project));
      o := Done;
    }

    // -------------------------------------------------------------------
    // The view handlers
    // -------------------------------------------------------------------

    /** SwitchRoleView.post: a valid role string becomes the profile's role;
        anything else is refused and changes nothing. */
    method SwitchRole(actor: UserId, role: string) returns (o: Outcome)
      requires Valid() && actor in db.users
      modifies this
      ensures Valid()
      ensures o == Done <==> role in {"applicant", "leader", "company"}
      ensures o == Done ==> db == WithRole(old(db), actor, ParseRole(role))
      ensures o == Done ==> db.roles[actor].Some? && RoleName(db.roles[actor].value) == role
      ensures o != Done ==> o == InvalidChoice && db == old(db)
    {
      var r := ParseRole(role);
      if r.Some? {
        SaveRole(actor, r);
        o := Done;
      } else {
        o := InvalidChoice;
      }
    }

    /** UpdateInvitationView.post, for an invitation addressed to `actor`.
        'accept' saves the status first, then inserts the membership, which
        fails if the user is a member already (the status stays saved);
        'reject' only saves the status, whatever happened before; other
        actions change nothing. */
    method UpdateInvitation(actor: UserId, invitationId: nat, action: string) returns (o: Outcome)
      requires Valid() && actor in db.users
      modifies this
      ensures Valid()
      ensures !(invitationId in old(db.invitations) && old(db.invitations)[invitationId].recipient == actor) ==>
        o == NotFound && db == old(db)
      ensures invitationId in old(db.invitations) && old(db.invitations)[invitationId].recipient == actor ==>
        var accepted := WithInvitationStatus(old(db), invitationId, Accepted);
        var project := old(db.invitations)[invitationId].project;
        if action == "accept" then
          if IsMember(old(db.memberships), actor, project) then
            o == IntegrityError && db == accepted
          else
            o == Done && db == WithMembership(accepted, Membership(actor, project, Member))
        else if action == "reject" then
          o == Done && db == WithInvitationStatus(old(db), invitationId, Rejected)
        else
          o == Ignored && db == old(db)
    {
      if !(invitationId in db.invitations && db.invitations[invitationId].recipient == actor) {
        return NotFound;
      }
      var project := db.invitations[invitationId].project;
      if action == "accept" {
        SaveInvitationStatus(invitationId, Accepted);
        o := CreateMembership(actor, project, Member);
      } else if action == "reject" {
        SaveInvitationStatus(invitationId, Rejected);
        o := Done;
      } else {
        o := Ignored;
      }
    }

    /** UpdateApplicationView.post, for an application to a project `actor`
        created; the same accept/reject behaviour as invitations, with the
        applicant as the new member. */
    method UpdateApplication(actor: UserId, applicationId: nat, action: string) returns (o: Outcome)
      requires Valid() && actor in db.users
      modifies this
      ensures Valid()
      ensures !(applicationId in old(db.applications)
                && old(db.projects)[old(db.applications)[applicationId].project].creator == actor) ==>
        o == NotFound && db == old(db)
      ensures applicationId in old(db.applications)
              && old(db.projects)[old(db.applications)[applicationId].project].creator == actor ==>
        var app := old(db.applications)[applicationId];
        var accepted := WithApplicationStatus(old(db), applicationId, Accepted);
        if action == "accept" then
          if IsMember(old(db.memberships), app.applicant, app.project) then
            o == IntegrityError && db == accepted
          else
            o == Done && db == WithMembership(accepted, Membership(app.applicant, app.project, Member))
        else if action == "reject" then
          o == Done && db == WithApplicationStatus(old(db), applicationId, Rejected)
        else
          o == Ignored && db == old(db)
    {
      if !(applicationId in db.applications && db.projects[db.applications[applicationId].project].creator == actor) {
        return NotFound;
      }
      var app := db.applications[applicationId];
      if action == "accept" {
        SaveApplicationStatus(applicationId, Accepted);
        o := CreateMembership(app.applicant, app.project, Member);
      } else if action == "reject" {
        SaveApplicationStatus(applicationId, Rejected);
        o := Done;
      } else {
        o := Ignored;
      }
    }

    /** ViewGroupView.get: a member or the creator sees the group's
        messages in posting order; anyone else is refused. */
    method ViewGroup(actor: UserId, groupId: GroupId) returns (o: Outcome, shown: seq<Message>)
      requires Valid()
      ensures groupId !in db.groups ==> o == NotFound && shown == []
      ensures groupId in db.groups && !CanAccess(db, actor, db.groups[groupId].project) ==>
        o == Forbidden && shown == []
      ensures groupId in db.groups && CanAccess(db, actor, db.groups[groupId].project) ==>
        o == Done && shown == GroupMessages(db.messages, groupId)
    {
      if groupId !in db.groups {
        return NotFound, [];
      }
      if !CanAccess(db, actor, db.groups[groupId].project) {
        return Forbidden, [];
      }
      o, shown := Done, GroupMessages(db.messages, groupId);
    }

    /** ViewGroupView.post: a member or the creator posts the stripped
        content, and only when it is not empty. */
    method PostMessage(actor: UserId, groupId: GroupId, content: string) returns (o: Outcome)
      requires Valid() && actor in db.users
      modifies this
      ensures Valid()
      ensures groupId !in old(db.groups) ==> o == NotFound && db == old(db)
      ensures groupId in old(db.groups) && !CanAccess(old(db), actor, old(db.groups)[groupId].project) ==>
        o == Forbidden && db == old(db)
      ensures groupId in old(db.groups) && CanAccess(old(db), actor, old(db.groups)[groupId].project) ==>
        if Strip(content) != "" then
          o == Done && db == WithMessage(old(db), Message(Some(groupId), actor, Strip(content)))
        else
          o == Ignored && db == old(db)
    {
      if groupId !in db.groups {
        return NotFound;
      }
      if !CanAccess(db, actor, db.groups[groupId].project) {
        return Forbidden;
      }
      var text := Strip(content);
      if text != "" {
        CreateMessage(groupId, actor, text);
        o := Done;
      } else {
        o := Ignored;
      }
    }

    /** CreateProjectView.post with a valid form: an active project without
        required skills (the form has no such field), then a group named
        after it, then an admin membership for the creator. */
    method CreateProject(actor: UserId, title: string, description: string, teamSize: int, duration: string)
        returns (projectId: ProjectId)
      requires Valid() && actor in db.users
      modifies this
      ensures Valid()
      ensures projectId == old(db.nextId) && projectId !in old(db.projects)
      ensures db == WithMembership(
        WithGroup(
          WithProject(old(db), Project(title, description, None, teamSize, duration, Active, actor)),
          Group(title + " Group", projectId)),
        Membership(actor, projectId, Admin))
    {
      projectId := CreateProjectRow(Project(title, description, None, teamSize, duration, Active, actor));
      var g := CreateGroup(title + " Group", projectId);
      var m := CreateMembership(actor, projectId, Admin);
    }

    /** InviteContributorView.post: only a membership or a pending
        invitation is checked first, so an answered invitation for the same
        pair makes the insert fail. */
    method InviteContributor(actor: UserId, projectId: ProjectId, userId: UserId, message: string)
        returns (o: Outcome)
      requires Valid() && actor in db.users
      modifies this
      ensures Valid()
      ensures o != Done ==> db == old(db)
      ensures !(projectId in old(db.projects) && old(db.projects)[projectId].creator == actor) || userId !in old(db.users)
        ==> o == NotFound
      ensures projectId in old(db.projects) && old(db.projects)[projectId].creator == actor && userId in old(db.users) ==>
        if IsMember(old(db.memberships), userId, projectId) then o == AlreadyMember
        else if HasPendingInvitation(old(db.invitations), projectId, userId) then o == AlreadyInvited
        else if HasInvitation(old(db.invitations), projectId, userId) then o == IntegrityError
        else o == Done && db == WithInvitation(old(db), Invitation(projectId, actor, userId, Pending, Some(message)))
    {
      if !(projectId in db.projects && db.projects[projectId].creator == actor) || userId !in db.users {
        return NotFound;
      }
      if IsMember(db.memberships, userId, projectId) {
        return AlreadyMember;
      }
      if HasPendingInvitation(db.invitations, projectId, userId) {
        return AlreadyInvited;
      }
      o := CreateInvitation(projectId, actor, userId, Some(message));
    }

    /** CancelInvitationView.post: the sender deletes a pending invitation;
        an answered one is left as it is. */
    method CancelInvitation(actor: UserId, invitationId: nat) returns (o: Outcome)
      requires Valid()
      modifies this
      ensures Valid()
      ensures !(invitationId in old(db.invitations) && old(db.invitations)[invitationId].sender == actor) ==>
        o == NotFound && db == old(db)
      ensures invitationId in old(db.invitations) && old(db.invitations)[invitationId].sender == actor ==>
        if old(db.invitations)[invitationId].status == Pending then
          o == Done && db == WithoutInvitation(old(db), invitationId)
        else
          o == NotPending && db == old(db)
    {
      if !(invitationId in db.invitations && db.invitations[invitationId].sender == actor) {
        return NotFound;
      }
      if db.invitations[invitationId].status == Pending {
        DeleteInvitation(invitationId);
        o := Done;
      } else {
        o := NotPending;
      }
    }

    /** FindContributorsView's candidate set for a project `actor` created:
        every profile except the project's members and `actor`. */
    method FindCandidates(actor: UserId, projectId: ProjectId, profiles: seq<Matching.Profile>)
        returns (o: Outcome, candidates: seq<Matching.Profile>)
      requires Valid()
      ensures !(projectId in db.projects && db.projects[projectId].creator == actor) ==> o == NotFound && candidates == []
      ensures projectId in db.projects && db.projects[projectId].creator == actor ==>
        o == Done && candidates == Matching.Candidates(profiles, MemberIds(db.memberships, projectId), actor)
      ensures forall p :: p in candidates ==>
        p in profiles && !IsMember(db.memberships, p.user, projectId) && p.user != actor
    {
      if !(projectId in db.projects && db.projects[projectId].creator == actor) {
        return NotFound, [];
      }
      o, candidates := Done, Matching.Candidates(profiles, MemberIds(db.memberships, projectId), actor);
    }
  }
}
