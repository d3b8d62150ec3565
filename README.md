# crewd — a verified model of its core

crewd is a small web site that brings together people who want to work on
software projects. Applicants list their tech stack. Team leaders and
companies publish projects with required skills. Applicants apply to
projects, leaders invite contributors, and every project has a group where
its members talk. The repository holds three iterations of the site:

- a Flask app (`app.py`, `models.py`, `utils.py`);
- a Django `core` app (`core/models.py`, `core/forms.py`, `core/views.py`,
  `core/utils.py`);
- a Django `crewd` project (`crewd/projects/models.py`,
  `crewd/projects/dashboard_views.py`, `crewd/accounts/models.py`,
  `crewd/accounts/views.py`).

The model is written in Dafny. It has these modules.

- `Choices`: an `Option` type, the outcome tags the handlers return, and
  the role and status choices with their parsers (`role in [...]`,
  `status in [...]`).
- `PyText`: the Python string operations the core relies on: `split`,
  `join`, `strip`, `rsplit('.', 1)`, `count`, the string order `<`, and
  `lower` restricted to the ASCII letters.
- `SkillCodec`: how skill lists are stored (`','.join(selection)`) and
  the three parsers that read them back:
  - the raw `split(',')` of the Flask and core models;
  - the strip-but-keep-blanks parser of `crewd/accounts/models.py`;
  - the strip-and-drop-blanks parser of `crewd/projects/models.py`.

  It also holds the two `TECH_CHOICES` lists and proves every entry of
  them clean.
- `Upload`, `UploadExamples`, `CoreUtils`: the `allowed_file` check on
  upload names.
- `Matching`: skill matching and ranking in the crewd project's
  dashboards. It covers the score, the percentage, the stable descending
  sort, the page of contributors and the set of technologies.
- `CrewdModels`, `StoreTables`, `Workflow`: the crewd project's rows and
  their uniqueness constraints, and a `Store` class whose `db` field is
  the database. Its methods are the POST handlers of `dashboard_views.py`,
  built from one-row saves, creates and deletes.
  - The handlers do not check every constraint. When a create would break
    one, the database refuses it, and the model returns `IntegrityError`.
  - The database is in autocommit: a status saved before a failing insert
    stays saved.
- `CoreModels`, `CoreTables`, `CoreViews`: the core app.
  - Its profile and project rows.
  - The comma-join form saves.
  - A `CoreStore` class with the view functions: registration, role
    selection, dashboard, create project, apply, update application and
    profile.
  - The skill filter of `project_list`.
- `FlaskModels`, `FlaskTables`, `FlaskApp`: the Flask app.
  - Its rows, where roles and statuses are plain strings.
  - The unique username and email.
  - A `FlaskStore` class with the routes: register, role selection,
    dashboard, create project, apply, update application and profile.
- `Accounts`: the crewd project's `User` as a class with its fields, its
  `get_tech_stack_list`, the profile update that sets the user's fields,
  and registration.

Every table is a `map` from ids to rows. A single counter hands out the
fresh ids. Every store keeps a validity predicate: ids are fresh, foreign
keys exist, and the uniqueness constraints hold. Every row operation
proves that it keeps that predicate.

## Model

| member | source | states |
|---|---|---|
| Choices.ParseRole | core/views.py:54-59 | only 'applicant', 'leader' and 'company' give a role; each gives its own role, and any other string gives none |
| Choices.ParseRoleName | crewd/accounts/models.py:22-26 | parsing the stored name of a role gives that role back |
| Choices.ParseStatus | core/views.py:231-233 | only 'pending', 'accepted' and 'rejected' give a status; any other string gives none |
| Choices.ParseStatusName | crewd/projects/models.py:80-88 | parsing the stored name of a status gives that status back |
| PyText.OccurrencesZero | core/models.py:24 | a string has no occurrence of a character exactly when it does not contain it |
| PyText.LastIndexOf | utils.py:8 | the index is -1 when the character is absent; otherwise it holds the character and nothing after it does |
| PyText.AfterLast | utils.py:8 | the text after the last dot holds no dot, and the name is some head, that dot, then the text |
| PyText.AfterLastOfSplit | utils.py:8 | for head + "." + tail with a dot-free tail, `rsplit('.', 1)[1]` is the tail, whatever the head holds |
| PyText.Split | core/models.py:24 | the pieces of `split(',')` |
| PyText.SplitPiecesHaveNoSeparator | core/models.py:24 | no piece of a split holds the separator |
| PyText.SplitCount | core/models.py:24 | a split has one piece more than there are separators |
| PyText.JoinConsHead | core/forms.py:32 | joining a list whose first piece starts with a character gives that character first |
| PyText.JoinSplit | core/models.py:24 | joining the pieces of a split gives the string back |
| PyText.SplitAfterPlainPrefix | core/models.py:24 | a separator-free prefix lengthens only the first piece |
| PyText.SplitJoin | core/forms.py:32 | splitting the join of separator-free pieces gives the pieces back |
| PyText.JoinEmpty | app.py:77 | a join of at least one piece is empty only for [""] |
| PyText.LeftEnd | crewd/accounts/models.py:33 | the first position that is not leading white space |
| PyText.RightEnd | crewd/accounts/models.py:33 | the last position that is not trailing white space |
| PyText.StripShape | crewd/accounts/models.py:33 | `strip()` returns a contiguous slice of its argument that is empty or has no white space at either end |
| PyText.StripFixes | crewd/projects/models.py:33 | a stripped string is left alone, so `strip` is idempotent |
| PyText.StripAllSpace | crewd/projects/models.py:33 | a string of white space strips to "" |
| PyText.StripKeepsAbsent | crewd/accounts/models.py:33 | stripping adds no character, so a comma-free piece stays comma-free |
| PyText.LowerChar | utils.py:8 | ASCII capitals map to their small letters and every other character is unchanged |
| PyText.Lower | utils.py:8 | ASCII lower-casing keeps the length and lower-cases position by position |
| PyText.LowerIdempotent | utils.py:8 | ASCII lower-casing twice is lower-casing once |
| PyText.LowerAppend | utils.py:8 | ASCII lower-casing distributes over concatenation |
| PyText.StrLessIrreflexive | crewd/projects/dashboard_views.py:203 | no string is below itself in Python's string order |
| PyText.StrLessTransitive | crewd/projects/dashboard_views.py:203 | Python's string order is transitive |
| PyText.StrLessTotal | crewd/projects/dashboard_views.py:203 | of two different strings, one is below the other |
| SkillCodec.StripEach | crewd/accounts/models.py:33 | one stripped entry per piece, in order |
| SkillCodec.SplitListShape | core/models.py:23-24 | [] for NULL or ""; otherwise one piece per comma plus one, none holding a comma, and their join is the column |
| SkillCodec.SplitListKeepsBlanksAndSpaces | models.py:27-28 | "a,,b" gives three entries, the middle one empty |
| SkillCodec.SplitListRoundTrip | core/forms.py:50-51 | the join of a non-empty, comma-free selection other than [""] is split back into that selection |
| SkillCodec.StripEachStripped | crewd/accounts/models.py:33 | every entry of the stripped list is stripped |
| SkillCodec.StripListShape | crewd/accounts/models.py:29-33 | [] for NULL or ""; otherwise one stripped, comma-free entry per comma plus one, in order |
| SkillCodec.StripListIsSplitListStripped | crewd/accounts/models.py:33 | the strip parser is the raw parser with each entry stripped |
| SkillCodec.StripListKeepsBlankPiece | crewd/accounts/models.py:33 | a piece of white space survives as "" |
| SkillCodec.StripEachOfStripped | crewd/accounts/models.py:33 | stripping already stripped entries changes nothing |
| SkillCodec.StripListRoundTrip | crewd/accounts/views.py:79 | the join of a non-empty selection of comma-free, stripped entries other than [""] is read back exactly |
| SkillCodec.StripNonBlankIsDropBlanksOfStripEach | crewd/projects/models.py:33 | keeping the non-blank stripped pieces is stripping all and dropping the empty ones |
| SkillCodec.SkillListIsStripListWithoutBlanks | crewd/projects/models.py:29-33 | the filtering parser is the strip parser with blank entries dropped, order kept |
| SkillCodec.StripNonBlankClean | crewd/projects/models.py:33 | every kept piece is non-empty, stripped and comma-free |
| SkillCodec.SkillListClean | crewd/projects/models.py:29-33 | [] for NULL or ""; every entry is non-empty, equals its stripped form and holds no comma |
| SkillCodec.StripNonBlankOfClean | crewd/projects/models.py:33 | clean entries pass the filter unchanged |
| SkillCodec.SkillListRoundTrip | crewd/projects/models.py:33 | the join of clean entries is read back exactly, in order |
| SkillCodec.SkillListIdempotent | crewd/projects/models.py:33 | parsing the join of a parsed list gives the same list |
| SkillCodec.AllCleanConcat | core/models.py:6-10 | a concatenation of clean lists is clean |
| SkillCodec.TechChoicesClean | core/models.py:6-10 | no entry of either choice list is empty, holds a comma or has white space at an end |
| SkillCodec.TechChoicesAClean | models.py:9 | the first line of the Flask and core choices is clean |
| SkillCodec.TechChoicesBClean | models.py:10 | the second line is clean |
| SkillCodec.TechChoicesCClean | models.py:11 | the third line is clean |
| SkillCodec.CrewdTechChoicesAClean | crewd/accounts/models.py:7 | the first line of the crewd choices is clean |
| SkillCodec.CrewdTechChoicesBClean | crewd/accounts/models.py:8 | line 8 of the crewd choices is clean |
| SkillCodec.CrewdTechChoicesCClean | crewd/accounts/models.py:9 | line 9 of the crewd choices is clean |
| SkillCodec.CrewdTechChoicesDClean | crewd/accounts/models.py:10 | line 10 of the crewd choices is clean |
| SkillCodec.CrewdTechChoicesEClean | crewd/accounts/models.py:11 | line 11 of the crewd choices is clean |
| SkillCodec.CrewdTechChoicesFClean | crewd/accounts/models.py:12 | line 12 of the crewd choices is clean |
| SkillCodec.CrewdTechChoicesGClean | crewd/accounts/models.py:13 | line 13 of the crewd choices is clean |
| SkillCodec.CrewdTechChoicesHClean | crewd/accounts/models.py:14 | line 14 of the crewd choices is clean |
| SkillCodec.SelectionClean | core/forms.py:19-23 | a selection taken from clean choices is clean |
| Upload.AllowedFileOfParts | utils.py:5-8 | stem + "." + ext with a dot-free ext is accepted exactly when the lower-cased ext is png, jpg or jpeg |
| Upload.AllowedFileIff | utils.py:5-8 | a name is accepted exactly when it holds a dot and the lower-cased text after its last dot is png, jpg or jpeg; a name without a dot is refused |
| Upload.LowerKeepsDots | utils.py:8 | lower-casing keeps every dot in place and adds none |
| Upload.LowerAroundDot | utils.py:8 | lower-casing a name split at a dot lower-cases both sides |
| Upload.AllowedFileIgnoresCase | utils.py:8 | a name and its lower-case form get the same answer |
| UploadExamples.PngAccepted | utils.py:8 | any stem followed by ".png" is accepted, so "a.exe.png" is |
| UploadExamples.ExeRejected | utils.py:8 | any stem followed by ".exe" is refused, so "a.png.exe" is |
| UploadExamples.UpperCaseAccepted | utils.py:8 | "X.PNG" style names are accepted |
| UploadExamples.MixedCaseAccepted | utils.py:8 | "y.JpEg" style names are accepted |
| UploadExamples.BareExtensionAccepted | utils.py:8 | ".png" is accepted |
| UploadExamples.EmptyExtensionRejected | utils.py:7-8 | a name ending in a dot is refused |
| UploadExamples.GifRejected | utils.py:7-8 | ".gif" names are refused |
| CoreUtils.AllowedFile | core/utils.py:3-6 | gives the same answer as utils.py for every name |
| CrewdModels.RequiredSkillsListShape | crewd/projects/models.py:29-33 | [] for NULL or ""; the entries are the clean, non-blank pieces in order |
| CrewdModels.RequiredSkillsRoundTrip | crewd/projects/models.py:29-33 | a project storing the join of clean skills lists exactly those skills |
| Matching.DistinctSize | crewd/projects/dashboard_views.py:182 | `len(set(xs))` is at most `len(xs)` |
| Matching.SubsetSize | crewd/projects/dashboard_views.py:182 | a subset is no larger than its superset |
| Matching.MatchScore | crewd/projects/dashboard_views.py:182 | the score is the size of the intersection of both distinct-skill sets, so it is at most either list's length |
| Matching.CommonSkills | crewd/projects/dashboard_views.py:182 | the score is positive exactly when the lists share a skill, and 0 when either is empty |
| Matching.MatchScoreSymmetric | crewd/projects/dashboard_views.py:182 | the score does not depend on which list is the user's |
| Matching.Percentage | crewd/projects/dashboard_views.py:184 | 0 for a zero total; 0..100 for a count within the total |
| Matching.PercentageFloor | crewd/projects/dashboard_views.py:493 | for a non-zero total, p*total <= 100*count < (p+1)*total |
| Matching.PercentageIsFloor | crewd/projects/dashboard_views.py:493 | any p meeting those bounds is the percentage |
| Matching.Insert | crewd/projects/dashboard_views.py:190 | one insertion step of the stable descending sort: one element more, same multiset plus x |
| Matching.SortDescPermutation | crewd/projects/dashboard_views.py:190 | the sort's output is a permutation of its input |
| Matching.InsertOrdered | crewd/projects/dashboard_views.py:190 | inserting into an ordered list keeps it in non-increasing key order |
| Matching.SortDescOrdered | crewd/projects/dashboard_views.py:190 | the sort's output is in non-increasing key order |
| Matching.InsertWithKey | crewd/projects/dashboard_views.py:190 | an insertion keeps the relative order of the elements of each key |
| Matching.SortDescStable | crewd/projects/dashboard_views.py:190 | the sort is stable: the elements of each key keep their query order |
| Matching.ScoreProject | crewd/projects/dashboard_views.py:181-186 | one annotated project: its score and a 0..100 percentage, 0 when the user lists no skills |
| Matching.ScoreProjects | crewd/projects/dashboard_views.py:179-186 | every project annotated, in query order |
| Matching.BrowseProjects | crewd/projects/dashboard_views.py:154-193 | every project is scored; without user skills, the filtered rows themselves, unannotated, as a fresh query; with skills, a permutation of the annotated projects in non-increasing score order, ties in query order |
| Matching.Candidates | crewd/projects/dashboard_views.py:452-458 | exactly the profiles that are neither members nor the requester |
| Matching.CandidatesAppend | crewd/projects/dashboard_views.py:452-458 | the exclusion keeps query order: excluding from two runs is excluding from each and concatenating |
| Matching.ScoreContributor | crewd/projects/dashboard_views.py:489-495 | one candidate: its score and a 0..100 percentage of the project's skills, 0 for a project without skills |
| Matching.ScoreContributors | crewd/projects/dashboard_views.py:488-495 | every candidate of the page annotated, in order |
| Matching.FindContributorsPage | crewd/projects/dashboard_views.py:484-503 | without project skills, the page as it is; with skills, a stable, non-increasing re-sort of the annotated page only |
| Matching.UnionMembers | crewd/projects/dashboard_views.py:199-201 | a skill is in the union exactly when some list holds it |
| Matching.SkillListsOf | crewd/projects/dashboard_views.py:199-201 | one skill list per project, in order |
| Matching.CollectSkillSet | crewd/projects/dashboard_views.py:198-201 | the set holds exactly the skills some project lists, each clean |
| Matching.InsertSortedIncreasing | crewd/projects/dashboard_views.py:203 | inserting a new string into an increasing list keeps it increasing and adds exactly that string |
| Matching.SortedSet | crewd/projects/dashboard_views.py:203 | `sorted(s)`: every element of the set once, in strictly increasing string order |
| Matching.CollectTechChoices | crewd/projects/dashboard_views.py:195-203 | `sorted(tech_choices)`: exactly the skills some project lists, each once, in increasing order, each clean |
| StoreTables.MemberIds | crewd/projects/dashboard_views.py:452-455 | exactly the users with a membership of the project |
| StoreTables.GroupMessages | crewd/projects/dashboard_views.py:303-306 | the group's messages in posting order, each of that group |
| StoreTables.GroupMessagesAppend | crewd/projects/dashboard_views.py:329-334 | a posted message shows last in its own group and in no other |
| StoreTables.AddMembershipUnique | crewd/projects/models.py:61-62 | a membership for a new pair under a fresh id keeps memberships unique and makes the user a member |
| StoreTables.AddInvitationUnique | crewd/projects/models.py:128-129 | a new (project, recipient) pair under a fresh id keeps invitations unique |
| StoreTables.AddApplicationUnique | crewd/projects/models.py:92-93 | a new (project, applicant) pair under a fresh id keeps applications unique |
| StoreTables.SetInvitationStatusUnique | crewd/projects/models.py:116-124 | answering an invitation keeps invitations unique and leaves its pair without a pending one |
| StoreTables.SetApplicationStatusUnique | crewd/projects/models.py:80-88 | changing a status keeps applications unique |
| StoreTables.AddGroupOneToOne | crewd/projects/models.py:138-142 | a group for a project without one keeps at most one group per project |
| StoreTables.EmptyValid | crewd/projects/models.py:61-62 | the empty database meets every constraint |
| StoreTables.WithUserValid | crewd/projects/dashboard_views.py:27-47 | a new user keeps the tables valid under a fresh id |
| StoreTables.WithRoleValid | crewd/projects/dashboard_views.py:30-33 | saving a role keeps the tables valid |
| StoreTables.WithInvitationStatusValid | crewd/projects/dashboard_views.py:228-243 | saving an invitation's status keeps the tables valid and leaves no pending invitation for the pair |
| StoreTables.WithApplicationStatusValid | crewd/projects/dashboard_views.py:638-653 | saving an application's status keeps the tables valid |
| StoreTables.WithMembershipValid | crewd/projects/dashboard_views.py:372-376 | a membership for a pair without one keeps the tables valid, and the user is then a member |
| StoreTables.WithInvitationValid | crewd/projects/dashboard_views.py:554-560 | an invitation for a pair without one keeps the tables valid |
| StoreTables.WithApplicationValid | crewd/projects/models.py:92-93 | an application for a pair without one keeps the tables valid |
| StoreTables.WithoutInvitationValid | crewd/projects/dashboard_views.py:582-586 | deleting an invitation keeps the tables valid |
| StoreTables.WithMessageValid | crewd/projects/dashboard_views.py:329-334 | a message by an existing user in an existing group keeps the tables valid |
| StoreTables.WithProjectValid | crewd/projects/dashboard_views.py:360-363 | a project by an existing user keeps the tables valid; no group or membership refers to it |
| StoreTables.WithGroupValid | crewd/projects/dashboard_views.py:366-369 | a group for a project without one keeps the tables valid |
| Workflow.Store.constructor | crewd/projects/models.py:61-62 | the empty store is valid |
| Workflow.Store.AddUser | crewd/projects/dashboard_views.py:27-47 | a new user with its profile role under a fresh id; nothing else changes |
| Workflow.Store.SaveRole | crewd/projects/dashboard_views.py:30-33 | only that profile's role changes |
| Workflow.Store.SaveInvitationStatus | crewd/projects/dashboard_views.py:228-229 | only that invitation's status changes |
| Workflow.Store.SaveApplicationStatus | crewd/projects/dashboard_views.py:638-639 | only that application's status changes |
| Workflow.Store.CreateMembership | crewd/projects/dashboard_views.py:233-237 | IntegrityError with nothing changed when the user is a member already; otherwise one membership is added |
| Workflow.Store.CreateInvitation | crewd/projects/dashboard_views.py:554-560 | IntegrityError with nothing changed when any invitation for the pair exists; otherwise one pending invitation is added |
| Workflow.Store.CreateApplication | crewd/projects/models.py:92-93 | IntegrityError with nothing changed when the pair has applied; otherwise one pending application is added |
| Workflow.Store.DeleteInvitation | crewd/projects/dashboard_views.py:585 | only that invitation is removed |
| Workflow.Store.CreateMessage | crewd/projects/dashboard_views.py:329-334 | one message is appended |
| Workflow.Store.CreateProjectRow | crewd/projects/dashboard_views.py:360-363 | one project under a fresh id |
| Workflow.Store.CreateGroup | crewd/projects/models.py:138-142 | IntegrityError with nothing changed when the project has a group; otherwise one group is added |
| Workflow.Store.SwitchRole | crewd/projects/dashboard_views.py:27-47 | a valid role string becomes the profile's role; any other string is refused and nothing changes |
| Workflow.Store.UpdateInvitation | crewd/projects/dashboard_views.py:224-246 | NotFound or Forbidden change nothing; 'accept' saves accepted and then adds a member membership, or fails with the status still saved; 'reject' saves rejected and leaves memberships alone; other actions change nothing |
| Workflow.Store.UpdateApplication | crewd/projects/dashboard_views.py:629-656 | the same for an application to the actor's own project, with the applicant as the new member |
| Workflow.Store.ViewGroup | crewd/projects/dashboard_views.py:291-313 | a member or the creator sees the group's messages in order; anyone else is refused |
| Workflow.Store.PostMessage | crewd/projects/dashboard_views.py:315-337 | a member or the creator appends the stripped content when it is not blank; otherwise nothing changes |
| Workflow.Store.CreateProject | crewd/projects/dashboard_views.py:357-382 | one active project, one group named title + " Group" and one admin membership for the creator |
| Workflow.Store.InviteContributor | crewd/projects/dashboard_views.py:528-563 | a member or a pending invitation leaves the invitations unchanged; an answered invitation makes the insert fail; otherwise exactly one pending invitation from the actor is added |
| Workflow.Store.CancelInvitation | crewd/projects/dashboard_views.py:579-588 | the sender's pending invitation is deleted; an answered one is left as it is |
| Workflow.Store.FindCandidates | crewd/projects/dashboard_views.py:440-458 | for the creator of the project, exactly the profiles that are not members and not the actor; anyone else gets NotFound and no candidates |
| CoreModels.TechStackListShape | core/models.py:23-24 | [] for NULL or ""; otherwise one piece per comma plus one, comma-free, joining back to the column |
| CoreModels.RequiredSkillsListShape | core/models.py:43-44 | the same shape for a project's required skills |
| CoreModels.RequiredSkillsListKeepsBlanks | core/models.py:44 | "Python, ,Vue" gives three entries, the middle one a single space |
| CoreModels.CleanHasNoCommas | core/models.py:6-10 | a clean selection holds no comma and is not [""] |
| CoreModels.FormFieldRoundTrip | core/forms.py:29-35 | an empty selection leaves the column as it was; a non-empty TECH_CHOICES selection is read back exactly |
| CoreModels.RegisterSelectionNotChecked | core/views.py:27-29 | registration joins unchecked entries, so "Python,Vue" reads back as two skills |
| CoreTables.EmptyValid | core/models.py:67-70 | the empty database is valid |
| CoreTables.WithUserValid | core/models.py:67-70 | a new user under a fresh id, with its one profile, keeps every user paired with a profile |
| CoreTables.WithTechStackValid | core/forms.py:31-32 | saving a tech stack keeps the tables valid |
| CoreTables.WithTechStackSame | core/forms.py:31-32 | writing a profile's own tech stack back changes nothing |
| CoreTables.WithRoleValid | core/views.py:56-57 | saving a role keeps the tables valid |
| CoreTables.WithProjectValid | core/views.py:114-116 | a project by an existing user keeps the tables valid |
| CoreTables.WithApplicationValid | core/views.py:190-193 | an application for a pair without one keeps the tables valid, and the pair has then applied |
| CoreTables.WithApplicationStatusValid | core/views.py:233-234 | saving a status keeps the tables valid |
| CoreViews.ApplicantView | core/views.py:71-81 | the user's applications, the projects they applied to, and the active projects they have not applied to |
| CoreViews.LeaderView | core/views.py:83-94 | the user's projects, and one key per own project mapping to exactly its applications |
| CoreViews.CompanyView | core/views.py:96-104 | the user's projects and exactly the applications to them |
| CoreViews.CoreStore.constructor | core/models.py:67-70 | the empty store is valid |
| CoreViews.CoreStore.CreateUser | core/models.py:67-70 | a new user and its profile under a fresh id |
| CoreViews.CoreStore.SaveTechStack | core/forms.py:31-34 | only that profile's tech stack changes |
| CoreViews.CoreStore.SaveRole | core/views.py:56-57 | only that profile's role changes |
| CoreViews.CoreStore.SaveProject | core/views.py:114-116 | one project under a fresh id |
| CoreViews.CoreStore.SaveApplication | core/views.py:190-193 | one application under a fresh id |
| CoreViews.CoreStore.SaveApplicationStatus | core/views.py:233-234 | only that application's status changes |
| CoreViews.CoreStore.Register | core/views.py:19-31 | a new user whose profile has no role and the joined selection as tech stack, or NULL for an empty selection; a TECH_CHOICES selection is read back |
| CoreViews.CoreStore.SaveProfileForm | core/forms.py:17-35 | a selection outside TECH_CHOICES is refused; an empty one changes nothing; otherwise the profile lists exactly the selection |
| CoreViews.CoreStore.RoleSelection | core/views.py:51-61 | a valid role string becomes the profile's role; anything else changes nothing |
| CoreViews.CoreStore.Dashboard | core/views.py:64-106 | a user without a role is sent to role selection; each role gets its own view, as the three view predicates state |
| CoreViews.CoreStore.CreateProject | core/views.py:109-125 | a selection outside TECH_CHOICES is refused; otherwise one active project by the user whose skills read back as the selection |
| CoreViews.CoreStore.ApplyProject | core/views.py:173-202 | a missing project, a user who is not an applicant, or a second application is refused with nothing changed; otherwise one pending application |
| CoreViews.CoreStore.UpdateApplication | core/views.py:222-237 | a missing application or a user who is not the creator is refused; only the three statuses are saved; anything else changes nothing |
| CoreViews.SkillFilterKeeps | core/views.py:157-158 | a project is kept exactly when its split skill list holds the skill; the result is no longer than the input, and is the input when every project matches |
| CoreViews.SkillFilterCons | core/views.py:158 | the first project is kept or dropped on its own, before the rest |
| CoreViews.SkillFilterAppend | core/views.py:158 | the filter keeps the order of the projects: filtering two runs is filtering each and concatenating |
| CoreViews.SkillFilterIsNotSubstring | core/views.py:158 | "Java" does not match a project requiring "JavaScript" |
| CoreViews.SkillFilterMatchesEntry | core/views.py:158 | "React" matches a project requiring "Vue,React" |
| CoreViews.ProjectListAsWrittenCrashes | core/views.py:157-164 | from the steps as written (the comprehension builds a list, `order_by` on a list raises), any non-empty skill makes the view fail for every `sort` value |
| CoreViews.ProjectListAsWrittenWithoutSkill | core/views.py:147-164 | without a skill the steps as written give the intended page |
| CoreViews.ProjectListShowsMatching | core/views.py:145-170 | without a skill, all active projects; with one, exactly the active projects listing it, in their order |
| FlaskModels.ListAccessorsShape | models.py:27-28 | both accessors give [] for NULL or "", and otherwise one piece per comma plus one |
| FlaskModels.JoinOrEmptyRoundTrip | app.py:77 | the stored value is the comma join, "" for an empty selection, and a TECH_CHOICES selection reads back exactly |
| FlaskTables.EmptyValid | models.py:16-17 | the empty database is valid |
| FlaskTables.WithUserValid | app.py:53-56 | a user whose username and email are both unused keeps them unique |
| FlaskTables.WithUserRowValid | app.py:301-306 | a profile update that takes no other user's username or email keeps them unique |
| FlaskTables.WithProjectValid | app.py:170-182 | a project by an existing user keeps the tables valid |
| FlaskTables.AddApplicationKeeps | app.py:232-241 | a new pair's application keeps applications unique |
| FlaskTables.SetStatusKeeps | app.py:286-288 | a known status keeps every status known |
| FlaskTables.WithApplicationValid | app.py:232-241 | a pending application for a new pair keeps the tables valid |
| FlaskTables.WithApplicationStatusValid | app.py:286-288 | saving one of the three statuses keeps the tables valid |
| FlaskApp.ApplicantView | app.py:107-122 | the projects the user applied to and every active project |
| FlaskApp.LeaderView | app.py:124-138 | one key per own project, mapping to exactly its applications |
| FlaskApp.CompanyView | app.py:140-154 | the user's projects and every application to them |
| FlaskApp.FlaskStore.constructor | models.py:16-17 | the empty store is valid |
| FlaskApp.FlaskStore.Register | app.py:52-84 | a taken username or email is refused with nothing changed; otherwise a user without a role whose tech stack is the comma join or "" |
| FlaskApp.FlaskStore.RoleSelection | app.py:90-99 | only the three role strings are saved; anything else changes nothing |
| FlaskApp.FlaskStore.Dashboard | app.py:103-156 | no role goes to role selection; each valid role gets its view; another role string goes home |
| FlaskApp.FlaskStore.CreateProject | app.py:160-187 | only a leader or a company may create; the project is active, theirs, and stores the comma join or "" |
| FlaskApp.FlaskStore.ApplyProject | app.py:212-246 | a non-applicant is refused first, then a missing project, then a second application; otherwise one pending application with the message |
| FlaskApp.FlaskStore.UpdateApplication | app.py:272-293 | the role check, the lookup and the ownership check come in that order; only the three statuses are saved, any transition between them allowed |
| FlaskApp.FlaskStore.UpdateProfile | app.py:297-327 | a username or email taken by another user fails; otherwise username, email and tech stack are overwritten, "" for an empty selection |
| Accounts.User.constructor | crewd/accounts/models.py:17-26 | a new user has the given columns and the role at its default 'applicant' |
| Accounts.User.UpdateProfile | crewd/accounts/views.py:71-93 | a selection outside TECH_CHOICES is refused; otherwise tech stack is the comma join or "", and the list reads back as the selection |
| Accounts.SelectionReadsBack | crewd/accounts/views.py:79 | a TECH_CHOICES selection is read back exactly by `get_tech_stack_list` |
| Accounts.RegisterAsWrittenListsBrackets | crewd/accounts/views.py:30-40 | registering as written with nothing selected leaves the text "[]", which lists one skill "[]" |
| Accounts.RegisteredTechStackReadsBack | crewd/accounts/views.py:38-40 | the intended column (the join, or nothing) reads back as any selection of the choices, the empty one included |
| Accounts.Register | crewd/accounts/views.py:25-54 | a selection outside TECH_CHOICES is refused; otherwise a fresh user with role 'applicant' whose tech stack is the join when something is selected and empty otherwise, and reads back as the selection |

## Left out

- ORM querying, pagination, template rendering, redirects and flash
  messages. The tables are in-memory maps, and each handler returns an
  outcome tag together with what the page would show.
- Authentication, sessions and password hashing. The acting user is an
  input id, and the password columns are not modelled.
- File upload and disk I/O: saving and deleting pictures, and
  `get_upload_dir` in `utils.py`. Only `allowed_file` is modelled.
- The `icontains` search filters in both Django iterations. Their
  semantics depend on the database collation. `CoreViews.ProjectList`
  takes the `search` step as given: its input is the list after that step.
- Timestamps and every ordering by `created_at`. Query results come in
  id order.
- The form libraries' validation (WTForms, Django forms). A valid form is
  the precondition of the modelled POST path. The one form rule kept is
  the `MultipleChoiceField` restriction to `TECH_CHOICES`, which becomes
  an `InvalidChoice` outcome.
- Matching.Percentage: Python computes `int((a / b) * 100)` in floating
  point. The model uses integer division, which can differ by one where
  the float product rounds below an integer.
- Ids: a single counter hands out ids for every table. Databases number
  each table on its own, which matters only for the values of the ids.
- The crewd profile accessors (`request.user.profile`, `UserProfile`)
  used by `dashboard_views.py` are not defined in
  `crewd/accounts/models.py`. The store keeps the profile role in a map
  keyed by user.
- The `TECH_CHOICES` imported at `crewd/accounts/views.py:12` from
  `projects.models` does not exist there. The model uses the list in
  `crewd/accounts/models.py`.
- PyText.Lower: only the ASCII capitals are mapped. Python's `lower()`
  also maps other letters ('É'), can lengthen a string ('İ') and applies
  the final-sigma rule, so `LowerChar`, `Lower` and `LowerAppend` hold of
  the model and not of Python in general. The verdict of `allowed_file`
  is unaffected: no non-ASCII character lower-cases to any letter of png,
  jpg or jpeg, so a name is accepted by Python exactly when the model
  accepts it.
- FlaskApp.FlaskStore.ApplyProject: the message field's `DataRequired`
  validation is a form rule. Any message string is accepted.
- Workflow.Store.CreateProject: the crewd project form has no skills
  field, so a new project's `required_skills` is NULL.
- GET requests that only render a form, and every view that only lists
  rows (invitation, group, contribution and application lists), as well
  as the Flask `view_project`, `project_list` and `application_list`
  routes.
- The core `profile` view's username and email update. It writes two
  `auth.User` columns taken straight from the request, and only the
  profile form's tech stack is modelled (`SaveProfileForm`).
- The stale `crewd/projects/views.py`, and URL routing, admin and
  settings.

## Findings

| source | as written | input that shows it | evidently intended | confidence | as-written member | corrected member |
|---|---|---|---|---|---|---|
| core/views.py:157-164 | with a `skill` parameter the queryset becomes a Python list, and `order_by` is then called on that list, which raises `AttributeError` | `GET /projects/?skill=Python` | filter the active projects by the skill, then order them | not executed | CoreViews.ProjectListAsWritten (shown failing by CoreViews.ProjectListAsWrittenCrashes) | CoreViews.ProjectList (proved by CoreViews.ProjectListShowsMatching) |
| crewd/accounts/views.py:30-40 | the registration form lists `tech_stack` among its model fields (crewd/accounts/forms.py:21), so `form.save(commit=False)` assigns the cleaned list to the text column; with nothing selected line 39 does not overwrite it, and the column stores `str([])` | registering with no technology ticked | an empty tech stack, listing no skill | not executed; rests on Django's `construct_instance` assigning every listed form field and on the text field storing `str(value)` | Accounts.RegisteredTechStackAsWritten (shown by Accounts.RegisterAsWrittenListsBrackets) | Accounts.RegisteredTechStack (proved by Accounts.RegisteredTechStackReadsBack, used by Accounts.Register) |
