/** The role gate in front of protected routes (`backend/src/middlewares/role.middleware.js`). */
module RoleMiddleware {
  import opened Common
  import opened Response

  /** `req.user` as the auth middleware leaves it; `role` is None when missing. */
  datatype User = User(role: Option<string>)

  /**
   * `requireRole(...roles)` on one request: 401 without a user or role, 403
   * for a role outside `roles`, and `next()` otherwise.
   */
  function RequireRole(roles: seq<string>, user: Option<User>): (r: Outcome)
    ensures r.CallNext? <==> user.Some? && Present(user.value.role) && user.value.role.value in roles
    ensures (user.None? || !Present(user.value.role)) ==> r == Respond(SendError(401, "Unauthorized", None))
    ensures user.Some? && Present(user.value.role) && user.value.role.value !in roles ==>
      r == Respond(SendError(403, "Forbidden", None))
  {
    if user.None? || !Present(user.value.role) then Respond(SendError(401, "Unauthorized", None))
    else if user.value.role.value !in roles then Respond(SendError(403, "Forbidden", None))
    else CallNext
  }

  /** Granting more roles never turns an admitted request away. */
  lemma {:induction false} RequireRoleMonotone(roles: seq<string>, more: seq<string>, user: Option<User>)
    requires forall x :: x in roles ==> x in more
    requires RequireRole(roles, user).CallNext?
    ensures RequireRole(more, user).CallNext?
  {
    assert user.value.role.value in roles;
  }
}
