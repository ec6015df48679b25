/** The two Express middlewares of src/middleware/authorized.ts. Each one
    either hands the request on (`next()`) or answers it with a 401; the
    outcome type makes the two exclusive, so a gate never does both. */
module Authorized {
  import opened Common

  datatype GateOutcome = Next | Reject(status: int, message: string)

  const NotLoggedInMessage := "You are not logged in"
  const NotManagerMessage := "User must be admin or manager to perform this action"

  /** The roles isManager admits. */
  predicate IsPrivileged(role: Option<Role>) {
    role == Some(Admin) || role == Some(Manager)
  }

  /** isLoggedIn: proceeds exactly when the request is authenticated. */
  function IsLoggedIn(authenticated: bool): (g: GateOutcome)
    ensures g.Next? <==> authenticated
    ensures !authenticated ==> g == Reject(401, NotLoggedInMessage)
  {
    if authenticated then Next else Reject(401, NotLoggedInMessage)
  }

  /** isManager: proceeds exactly when authenticated with role admin or manager. */
  function IsManager(authenticated: bool, role: Option<Role>): (g: GateOutcome)
    ensures g.Next? <==> authenticated && (role == Some(Admin) || role == Some(Manager))
    ensures g.Reject? ==> g == Reject(401, NotManagerMessage)
  {
    if authenticated && IsPrivileged(role) then Next else Reject(401, NotManagerMessage)
  }

  /** A normal user, or one without a role, never gets past isManager. */
  lemma NormalOrAbsentRoleNeverManager(authenticated: bool, role: Option<Role>)
    requires role == Some(Normal) || role == None
    ensures IsManager(authenticated, role) == Reject(401, NotManagerMessage)
  {
  }

  /** Whatever isManager lets through, isLoggedIn lets through as well. */
  lemma ManagerImpliesLoggedIn(authenticated: bool, role: Option<Role>)
    requires IsManager(authenticated, role).Next?
    ensures IsLoggedIn(authenticated).Next?
  {
  }
}
