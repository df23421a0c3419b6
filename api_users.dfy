/**
 * The user handlers' decisions (control_server/api/users.go): the checks
 * CreateUser makes before storing a user, and who may read a user. The
 * store is a value mapping usernames to users; whether storing fails is a
 * parameter.
 */
module ApiUsers {
  import opened Wrappers
  import opened Http
  import ApiAccess

  datatype UserModel = UserModel(username: string, name: string, email: string, role: string)

  datatype UserStore = UserStore(users: map<string, UserModel>)

  /** What a user handler writes as a body: a user's JSON encoding, or plain text. */
  datatype UserBody = UserJson(user: UserModel) | Text(text: string)

  type Writes = seq<Write<UserBody>>

  /** The first field CreateUser finds empty, in its order of checking, with the message for it. */
  function MissingField(user: UserModel): (r: Option<string>)
    ensures r.None? <==> user.username != "" && user.name != "" && user.email != "" && user.role != ""
    ensures user.username == "" ==> r == Some("No username given")
    ensures user.username != "" && user.name == "" ==> r == Some("No name given")
    ensures user.username != "" && user.name != "" && user.email == "" ==> r == Some("No email given")
    ensures user.username != "" && user.name != "" && user.email != "" && user.role == "" ==> r == Some("No role given")
  {
    if user.username == "" then Some("No username given")
    else if user.name == "" then Some("No name given")
    else if user.email == "" then Some("No email given")
    else if user.role == "" then Some("No role given")
    else None
  }

  /**
   * CreateUser: a decode error gives 400 before any field is looked at; then
   * the first empty field gives 400; only then is the user stored, a store
   * error giving 500 and success a confirmation text.
   */
  function CreateUser(decoded: UserModel, decodeErr: bool, createErr: Option<string>, store: UserStore): (r: (Writes, UserStore))
    ensures decodeErr ==> r == ([HttpError(STATUS_BAD_REQUEST, "invalid user given")], store)
    ensures !decodeErr && MissingField(decoded).Some? ==>
      r == ([HttpError(STATUS_BAD_REQUEST, MissingField(decoded).value)], store)
    ensures r.1 != store ==>
      (!decodeErr && MissingField(decoded).None? && createErr.None? &&
       r.1.users == store.users[decoded.username := decoded])
    ensures !decodeErr && MissingField(decoded).None? ==>
      (createErr.Some? <==> Status(r.0) == STATUS_INTERNAL_SERVER_ERROR) &&
      (createErr.None? ==> r == ([Body(Text("Successfully created user\n"))], UserStore(store.users[decoded.username := decoded])))
  {
    if decodeErr then ([HttpError(STATUS_BAD_REQUEST, "invalid user given")], store)
    else match MissingField(decoded)
      case Some(msg) => ([HttpError(STATUS_BAD_REQUEST, msg)], store)
      case None =>
        if createErr.Some? then ([HttpError(STATUS_INTERNAL_SERVER_ERROR, "couldn't create user")], store)
        else ([Body(Text("Successfully created user\n"))], UserStore(store.users[decoded.username := decoded]))
  }

  /** GetLoggedInUser: 400 without a session username, 404 when the store has no such user, else the user. */
  function GetLoggedInUser(req: Request, store: UserStore): (r: Writes)
    ensures req.sessionUsername.None? ==> r == [HttpError(STATUS_BAD_REQUEST, "Cannot find username")]
    ensures req.sessionUsername.Some? && req.sessionUsername.value !in store.users ==>
      r == [HttpError(STATUS_NOT_FOUND, "Cannot find user: " + req.sessionUsername.value)]
    ensures Status(r) == STATUS_OK <==> req.sessionUsername.Some? && req.sessionUsername.value in store.users
    ensures Status(r) == STATUS_OK ==> r == [Body(UserJson(store.users[req.sessionUsername.value]))]
  {
    match req.sessionUsername
    case None => [HttpError(STATUS_BAD_REQUEST, "Cannot find username")]
    case Some(username) =>
      if username !in store.users then [HttpError(STATUS_NOT_FOUND, "Cannot find user: " + username)]
      else [Body(UserJson(store.users[username]))]
  }

  /**
   * GetUser: 400 without a session username or a URI name, 500 when the
   * named user cannot be fetched, and 401 unless that user is an admin or
   * is the session's own user.
   */
  function GetUser(req: Request, store: UserStore): (r: Writes)
    ensures req.sessionUsername.None? ==> r == [HttpError(STATUS_BAD_REQUEST, "Username not found")]
    ensures req.sessionUsername.Some? && !("name" in req.vars && req.vars["name"] != "") ==>
      r == [HttpError(STATUS_BAD_REQUEST, "name not found")]
    ensures Status(r) == STATUS_OK <==>
      req.sessionUsername.Some? && "name" in req.vars && req.vars["name"] != "" && req.vars["name"] in store.users &&
      (store.users[req.vars["name"]].role == ApiAccess.ROLE_ADMIN ||
       store.users[req.vars["name"]].username == req.sessionUsername.value)
    ensures Status(r) == STATUS_OK ==> r == [Body(UserJson(store.users[req.vars["name"]]))]
  {
    match req.sessionUsername
    case None => [HttpError(STATUS_BAD_REQUEST, "Username not found")]
    case Some(username) =>
      if "name" !in req.vars || req.vars["name"] == "" then [HttpError(STATUS_BAD_REQUEST, "name not found")]
      else
        var name := req.vars["name"];
        if name !in store.users then [HttpError(STATUS_INTERNAL_SERVER_ERROR, "couldn't get users")]
        else
          var user := store.users[name];
          if user.role != ApiAccess.ROLE_ADMIN && user.username != username then
            [HttpError(STATUS_UNAUTHORIZED, "Cannot access this user")]
          else [Body(UserJson(user))]
  }

  /** GetUser never looks at the requester's own role: a plain user can read any admin's profile. */
  lemma GetUserIgnoresRequesterRole(req: Request, store: UserStore, role: Option<string>)
    ensures GetUser(req.(sessionRole := role), store) == GetUser(req, store)
  {
  }

  /** A stored user can read their own profile, through either handler. */
  lemma {:induction false} CreatedUserReadsSelf(decoded: UserModel, store: UserStore, req: Request)
    requires Status(CreateUser(decoded, false, None, store).0) == STATUS_OK
    requires req.sessionUsername == Some(decoded.username) && req.vars == map["name" := decoded.username]
    ensures GetUser(req, CreateUser(decoded, false, None, store).1) == [Body(UserJson(decoded))]
    ensures GetLoggedInUser(req, CreateUser(decoded, false, None, store).1) == [Body(UserJson(decoded))]
  {
    assert MissingField(decoded).None?;
  }
}
