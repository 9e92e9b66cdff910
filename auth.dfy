/** The permission and role checks of the `useAuth` hook (src/hooks/useAuth.ts). */
module Auth {
  import opened Js

  /** The signed-in user as the hook reads it: a role and an optional permission list. */
  datatype User = User(role: string, permissions: Option<seq<string>>)

  /** `user?.permissions?.includes(permission) || false` */
  function HasPermission(user: Option<User>, permission: string): (r: bool)
    ensures r <==> user.Some? && user.value.permissions.Some? && permission in user.value.permissions.value
  {
    match user
    case None => false
    case Some(u) =>
      match u.permissions
      case None => false
      case Some(ps) => permission in ps
  }

  /** `user?.role === role` */
  function HasRole(user: Option<User>, role: string): (r: bool)
    ensures r <==> user.Some? && user.value.role == role
  {
    user.Some? && user.value.role == role
  }

  /** There is no wildcard: a permission list `['all']` grants the string 'all' and nothing else. */
  lemma NoWildcard(role: string, permission: string)
    ensures HasPermission(Some(User(role, Some(["all"]))), permission) <==> permission == "all"
  {
  }

  /** A role grants no permission by itself: a user without a permission list has the role and no
      permission, whatever the role is called. */
  lemma RoleGrantsNoPermission(role: string, permission: string)
    ensures HasRole(Some(User(role, None)), role)
    ensures !HasPermission(Some(User(role, None)), permission)
  {
  }

  /** Signed out, every check fails. */
  lemma SignedOutHasNothing(role: string, permission: string)
    ensures !HasRole(None, role) && !HasPermission(None, permission)
  {
  }
}
