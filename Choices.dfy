/**
 * Values shared by the iterations: the nullable column (`Option`) and the
 * declared choice lists of the Django models, each with its stored text
 * and the lookup that handlers use to validate a submitted value.
 */
module Choices {

  datatype Option<+T> = None | Some(value: T)

  /** How a handler ends, when it does not simply render a page. */
  datatype Outcome =
    | Done
    | NotFound          // the row looked up with get_or_404 does not exist or is not the user's
    | Forbidden         // the user's role or relation to the row does not allow the action
    | InvalidChoice     // a submitted value outside the declared choices
    | AlreadyMember     // the invitee is a member already
    | AlreadyInvited    // the invitee has a pending invitation already
    | AlreadyApplied    // the user has applied to the project already
    | Taken             // the username or email belongs to another account
    | NotPending        // the invitation has been answered
    | IntegrityError    // the database refuses a write that breaks a uniqueness constraint
    | Ignored           // the request changes nothing

  /** The user roles ('applicant', 'leader', 'company'). */
  datatype Role = Applicant | Leader | Company

  function RoleName(r: Role): string
  {
    match r
    case Applicant => "applicant"
    case Leader => "leader"
    case Company => "company"
  }

  /** `role in ['applicant', 'leader', 'company']`, giving the role. */
  function ParseRole(s: string): (r: Option<Role>)
    ensures r.Some? <==> s in {"applicant", "leader", "company"}
    ensures r.Some? ==> RoleName(r.value) == s
  {
    if s == "applicant" then Some(Applicant)
    else if s == "leader" then Some(Leader)
    else if s == "company" then Some(Company)
    else None
  }

  lemma ParseRoleName(r: Role)
    ensures ParseRole(RoleName(r)) == Some(r)
  {
  }

  /** Project status ('active', 'completed', 'cancelled'). */
  datatype ProjectStatus = Active | Completed | Cancelled

  /** Application and invitation status ('pending', 'accepted', 'rejected'). */
  datatype RequestStatus = Pending | Accepted | Rejected

  function StatusName(s: RequestStatus): string
  {
    match s
    case Pending => "pending"
    case Accepted => "accepted"
    case Rejected => "rejected"
  }

  /** `status in ['pending', 'accepted', 'rejected']`, giving the status. */
  function ParseStatus(s: string): (r: Option<RequestStatus>)
    ensures r.Some? <==> s in {"pending", "accepted", "rejected"}
    ensures r.Some? ==> StatusName(r.value) == s
  {
    if s == "pending" then Some(Pending)
    else if s == "accepted" then Some(Accepted)
    else if s == "rejected" then Some(Rejected)
    else None
  }

  lemma ParseStatusName(s: RequestStatus)
    ensures ParseStatus(StatusName(s)) == Some(s)
  {
  }
}
