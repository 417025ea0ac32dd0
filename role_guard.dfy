/** The `RoleGuard` component of src/components/role-guard.tsx: a capability
    check wrapping a subtree, with a fallback or a permission notice on denial. */
module RoleGuard {
  import opened Types
  import opened Auth

  /** The guard's props other than the children and the fallback. */
  datatype Requirement = Requirement(requiredRole: Option<Role>, adminOnly: bool, brokerOnly: bool)

  const Unrestricted := Requirement(None, false, false)
  const AdminOnly := Requirement(None, true, false)
  const BrokerOnly := Requirement(None, false, true)

  /** The `hasAccess` flag, computed by the if / else-if chain of the source:
      the first failing check clears it. */
  function HasAccess(user: Option<User>, req: Requirement): bool {
    if req.adminOnly && !IsAdmin(user) then false
    else if req.brokerOnly && !IsBroker(user) then false
    else if req.requiredRole.Some? && !HasRole(user, req.requiredRole.value) then false
    else true
  }

  /** Reference reading: every requirement that is set holds. */
  predicate Satisfies(user: Option<User>, req: Requirement) {
    && (req.adminOnly ==> IsAdmin(user))
    && (req.brokerOnly ==> IsBroker(user))
    && (req.requiredRole.Some? ==> HasRole(user, req.requiredRole.value))
  }

  /** The chain grants access exactly when every set requirement holds, so
      the order of its branches decides only which check fires first. */
  lemma HasAccessIffSatisfies(user: Option<User>, req: Requirement)
    ensures HasAccess(user, req) <==> Satisfies(user, req)
  {
  }

  lemma UnrestrictedAdmitsEveryone(user: Option<User>)
    ensures HasAccess(user, Unrestricted)
  {
  }

  lemma SingleFlagGuards(user: Option<User>)
    ensures HasAccess(user, AdminOnly) <==> user.Some? && user.value.role == Admin
    ensures HasAccess(user, BrokerOnly) <==> user.Some? && user.value.role == Broker
  {
  }

  /** Setting both flags locks everybody out. */
  lemma BothFlagsDenyAll(user: Option<User>, role: Option<Role>)
    ensures !HasAccess(user, Requirement(role, true, true))
  {
  }

  predicate AnyRequirement(req: Requirement) {
    req.adminOnly || req.brokerOnly || req.requiredRole.Some?
  }

  /** Without a user, any requirement denies. */
  lemma NullUserDenied(req: Requirement)
    requires AnyRequirement(req)
    ensures !HasAccess(None, req)
  {
  }

  /** The role shown in the default notice: `requiredRole`, else Admin when
      `adminOnly`, else Broker. */
  function NoticeRole(req: Requirement): Role {
    if req.requiredRole.Some? then req.requiredRole.value
    else if req.adminOnly then Admin
    else Broker
  }

  /** Exactly one of the three requirements is set. */
  predicate SingleRequirement(req: Requirement) {
    if req.requiredRole.Some? then !req.adminOnly && !req.brokerOnly
    else req.adminOnly != req.brokerOnly
  }

  /** With a single requirement, a denied user never holds the role the
      notice names. */
  lemma NoticeNamesMissingRole(user: Option<User>, req: Requirement)
    requires SingleRequirement(req)
    requires !HasAccess(user, req)
    ensures !HasRole(user, NoticeRole(req))
  {
  }

  /** With combined requirements the notice can name a role the user already
      has: an Admin denied by `adminOnly brokerOnly` is told "Admin". */
  lemma NoticeMayNameHeldRole()
    ensures var req := Requirement(None, true, true);
      !HasAccess(Some(AdminUser), req) && NoticeRole(req) == Admin && HasRole(Some(AdminUser), Admin)
  {
  }

  /** What the guard renders. A falsy `fallback` is `None`. */
  datatype Rendered<N> = Children(node: N) | Fallback(node: N) | PermissionDenied(role: Role)

  function Guard<N>(user: Option<User>, req: Requirement, children: N, fallback: Option<N>): Rendered<N> {
    if !HasAccess(user, req) then
      if fallback.Some? then Fallback(fallback.value) else PermissionDenied(NoticeRole(req))
    else Children(children)
  }

  /** The guard shows its children, unchanged, exactly when every set
      requirement holds; otherwise the fallback if there is one, else the
      notice. */
  lemma GuardOutcome<N>(user: Option<User>, req: Requirement, children: N, fallback: Option<N>)
    ensures Guard(user, req, children, fallback) == Children(children) <==> Satisfies(user, req)
    ensures !Satisfies(user, req) && fallback.Some? ==> Guard(user, req, children, fallback) == Fallback(fallback.value)
    ensures !Satisfies(user, req) && fallback.None? ==> Guard(user, req, children, fallback) == PermissionDenied(NoticeRole(req))
  {
  }
}
