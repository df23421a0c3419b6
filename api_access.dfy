/**
 * Route authorisation (control_server/api/api.go): CheckRole wraps every
 * route's handler and decides whether it runs, and checkSameUser lets a user
 * reach a resource named after them.
 */
module ApiAccess {
  import opened Wrappers
  import opened Http

  /** The user roles (pkg/model/user). */
  const ROLE_USER: string := "user"
  const ROLE_MODERATOR: string := "moderator"
  const ROLE_ADMIN: string := "admin"

  /** The parts of a Route CheckRole reads. */
  datatype Route = Route(permissions: seq<string>, userAllowed: bool)

  /** The wrapped handler either runs or the request is refused with an http.Error. */
  datatype Verdict = Serve | Refuse(status: nat, msg: string)

  /**
   * checkSameUser: the route lets users in, the session holds a username,
   * and the URI's "name" variable is present, non-empty and equal to it.
   */
  predicate CheckSameUser(route: Route, req: Request)
  {
    route.userAllowed && req.sessionUsername.Some? &&
    "name" in req.vars && req.vars["name"] != "" &&
    req.sessionUsername.value == req.vars["name"]
  }

  /** The closure's loop over the permissions: found ends true iff the role is among them. */
  method RoleFound(role: string, permissions: seq<string>) returns (found: bool)
    ensures found <==> role in permissions
  {
    found := false;
    var i := 0;
    while i < |permissions|
      invariant 0 <= i <= |permissions|
      invariant found <==> role in permissions[..i]
    {
      assert permissions[..i + 1] == permissions[..i] + [permissions[i]];
      if role == permissions[i] {
        found := true;
      }
      i := i + 1;
    }
    assert permissions[..i] == permissions;
  }

  /** Who gets through: system requests, and on user routes a permitted role or the resource's owner who has a role. */
  function Admitted(route: Route, req: Request): bool
  {
    req.typeHeader == SYSTEM_TYPE ||
    (route.userAllowed && req.sessionRole.Some? &&
     (req.sessionRole.value in route.permissions || CheckSameUser(route, req)))
  }

  /**
   * CheckRole's closure: a system request always runs the handler; otherwise
   * a route closed to users gives 400, a session without a role 404, and a
   * role that is neither permitted nor the owner of the resource 403.
   */
  method CheckRole(route: Route, req: Request) returns (v: Verdict)
    ensures v == Serve <==> Admitted(route, req)
    ensures req.typeHeader == SYSTEM_TYPE ==> v == Serve
    ensures req.typeHeader != SYSTEM_TYPE && !route.userAllowed ==>
      v == Refuse(STATUS_BAD_REQUEST, "Users are not allowed to access this endpoint")
    ensures req.typeHeader != SYSTEM_TYPE && route.userAllowed && req.sessionRole.None? ==>
      v == Refuse(STATUS_NOT_FOUND, "User's role not found")
    ensures req.typeHeader != SYSTEM_TYPE && route.userAllowed && req.sessionRole.Some? ==>
      (v == Serve <==> req.sessionRole.value in route.permissions || CheckSameUser(route, req)) &&
      (v.Refuse? ==> v == Refuse(STATUS_FORBIDDEN,
        "User role '" + req.sessionRole.value + "' not permitted to access this resource."))
  {
    if req.typeHeader == SYSTEM_TYPE {
      return Serve;
    } else if !route.userAllowed {
      return Refuse(STATUS_BAD_REQUEST, "Users are not allowed to access this endpoint");
    }
    if req.sessionRole.None? {
      return Refuse(STATUS_NOT_FOUND, "User's role not found");
    }
    var role := req.sessionRole.value;
    var found := RoleFound(role, route.permissions);
    if !found && !CheckSameUser(route, req) {
      return Refuse(STATUS_FORBIDDEN, "User role '" + role + "' not permitted to access this resource.");
    }
    return Serve;
  }
}
