/**
  The API's permission classes. Each grants access from the requesting
  user alone: the view being accessed is never consulted, so it is not an
  argument here.
 */
module Permissions {
  import opened Models

  datatype Permission = IsAdmin | IsManager | IsAccountant | IsDriver | IsAdminOrManager

  /** The roles each class admits, as an independent table. */
  function AdmittedRoles(p: Permission): set<Role>
  {
    match p
    case IsAdmin => {Admin}
    case IsManager => {Manager}
    case IsAccountant => {Accountant}
    case IsDriver => {Driver}
    case IsAdminOrManager => {Admin, Manager}
  }

  /** The classes that test for one role. */
  predicate SingleRole(p: Permission)
  {
    !p.IsAdminOrManager?
  }

  /** `has_permission`: authentication first, then a comparison of the stored role string. */
  function HasPermission(p: Permission, user: Requester): (granted: bool)
    ensures granted ==> IsAuthenticated(user)
    ensures granted <==> IsAuthenticated(user) && ParseRole(user.role) in AdmittedRoles(p)
  {
    match p
    case IsAdmin => user.Member? && user.role == "admin"
    case IsManager => user.Member? && user.role == "manager"
    case IsAccountant => user.Member? && user.role == "accountant"
    case IsDriver => user.Member? && user.role == "driver"
    case IsAdminOrManager => user.Member? && user.role in ["admin", "manager"]
  }

  /** An anonymous visitor is refused by every class. */
  lemma AnonymousDenied(p: Permission)
    ensures !HasPermission(p, Anonymous)
  {
  }

  /** The combined class grants exactly when one of its two parts does. */
  lemma AdminOrManagerIsUnion(user: Requester)
    ensures HasPermission(IsAdminOrManager, user) <==> HasPermission(IsAdmin, user) || HasPermission(IsManager, user)
  {
  }

  /** No user passes two different single-role classes. */
  lemma SingleRolesExclusive(p: Permission, q: Permission, user: Requester)
    requires SingleRole(p) && SingleRole(q) && p != q
    ensures !(HasPermission(p, user) && HasPermission(q, user))
  {
  }

  /** A user whose role is missing from the declared choices can still be granted `IsManager`. */
  lemma ManagerOutsideChoices(id: nat)
    ensures !IsRoleChoice(ParseRole("manager"))
    ensures HasPermission(IsManager, Member(id, "manager"))
  {
  }
}
