/** The login, registration and session-check handlers
    (`controllers/authController.ts`). Each is a decision over the request
    and the results of the model calls it awaits; `jwt.sign` is a
    parameter. */
module AuthController {
  import opened Js
  import opened Sql
  import opened Http
  import UserModel

  /** A user as the model reads it back; the password column holds a hash. */
  datatype UserRecord = UserRecord(id: string, username: string, password: Value, name: string, role: string, active: bool)

  /** A user as it is answered: every field but the password. */
  datatype PublicUser = PublicUser(id: string, username: string, name: string, role: string)

  /** The claims signed into a token. */
  datatype Claims = Claims(id: string, username: string, role: string)

  datatype AuthData = LoginData(user: PublicUser, token: string) | Registered(userId: string) | CurrentUser(user: PublicUser)

  datatype AuthMessage =
    | MissingCredentials | InvalidCredentials | AccountSuspended | LoggedIn | LoginError
    | MissingFields | UsernameTaken | InvalidRole | RegisteredOk | RegisterError
    | NotLoggedIn | AccountInvalid | CheckError

  function Public(u: UserRecord): PublicUser {
    PublicUser(u.id, u.username, u.name, u.role)
  }

  /** `login`: missing fields are 400 before any lookup; an unknown user and
      a wrong password are the same 401; an inactive account is a 401 of its
      own, decided before the password is compared; otherwise 200 with the
      user (no password) and a token signed over its id, name and role. */
  function Login(username: Opt<string>, password: Opt<string>, found: Outcome<Option<UserRecord>>,
                 sign: Claims -> string): (r: Response<AuthMessage, AuthData>)
    ensures !Truthy(username) || !Truthy(password) ==> r == Fail(400, MissingCredentials)
    ensures r.status == 200 <==>
      && Truthy(username) && Truthy(password) && found.Ok? && found.value.Some?
      && found.value.value.active && UserModel.ComparePassword(password.v, found.value.value.password)
    ensures r.status == 200 ==> var u := found.value.value;
      r.success && r.data == Some(LoginData(Public(u), sign(Claims(u.id, u.username, u.role))))
    ensures r.status == 500 <==> Truthy(username) && Truthy(password) && found.Throws?
  {
    if !Truthy(username) || !Truthy(password) then Fail(400, MissingCredentials)
    else if found.Throws? then Fail(500, LoginError)
    else if found.value.None? then Fail(401, InvalidCredentials)
    else
      var user := found.value.value;
      if !user.active then Fail(401, AccountSuspended)
      else if !UserModel.ComparePassword(password.v, user.password) then Fail(401, InvalidCredentials)
      else
        var token := sign(Claims(user.id, user.username, user.role));
        Succeed(200, Some(LoggedIn), Some(LoginData(Public(user), token)))
  }

  /** Whether the name is unknown or the password wrong, the answer is the
      same, so a caller cannot tell which. */
  lemma UnknownAndWrongPasswordAlike(username: string, password: string, user: UserRecord, sign: Claims -> string)
    requires username != "" && password != ""
    requires user.active && !UserModel.ComparePassword(password, user.password)
    ensures Login(Val(username), Val(password), Ok(None), sign) == Login(Val(username), Val(password), Ok(Some(user)), sign)
    ensures Login(Val(username), Val(password), Ok(None), sign) == Fail(401, InvalidCredentials)
  {
  }

  /** An inactive account is refused with its own message whatever the
      password, right or wrong. */
  lemma InactiveBeforePassword(username: string, password: string, user: UserRecord, sign: Claims -> string)
    requires username != "" && password != "" && !user.active
    ensures Login(Val(username), Val(password), Ok(Some(user)), sign) == Fail(401, AccountSuspended)
    ensures Fail<AuthMessage, AuthData>(401, AccountSuspended) != Fail(401, InvalidCredentials)
  {
  }

  /** The roles a registration may ask for. */
  const Roles: seq<string> := ["admin", "teacher", "staff"]

  /** What `register` hands to the model: the fields as given, active. */
  function RegisterDto(username: string, password: string, name: string, role: string): (d: UserModel.CreateUserDto)
    ensures d.active == Val(true) && d.password == password
  {
    UserModel.CreateUserDto(username, password, name, role, Val(true))
  }

  /** A registered user is stored active, with the hash of its password. */
  lemma RegisteredActive(uuid: string, username: string, password: string, name: string, role: string)
    ensures UserModel.CreateQuery(uuid, RegisterDto(username, password, name, role)).params[5] == VBool(true)
    ensures UserModel.CreateQuery(uuid, RegisterDto(username, password, name, role)).params[2] == VHash(password)
  {
  }

  /** `register`, in order: a missing field is 400, a taken username 409, a
      role outside admin/teacher/staff 400; otherwise the user is created and
      its id answered with 201. A failed lookup or insert is 500. */
  function Register(username: Opt<string>, password: Opt<string>, name: Opt<string>, role: Opt<string>,
                    found: Outcome<Option<UserRecord>>, created: Outcome<string>): (r: Response<AuthMessage, AuthData>)
    ensures !Truthy(username) || !Truthy(password) || !Truthy(name) || !Truthy(role) ==> r == Fail(400, MissingFields)
    ensures Truthy(username) && Truthy(password) && Truthy(name) && Truthy(role) ==>
      && (found.Ok? && found.value.Some? ==> r == Fail(409, UsernameTaken))
      && (found.Ok? && found.value.None? && role.v !in Roles ==> r == Fail(400, InvalidRole))
    ensures r.status == 201 <==>
      && Truthy(username) && Truthy(password) && Truthy(name) && Truthy(role)
      && found == Ok(None) && role.v in Roles && created.Ok?
    ensures r.status == 201 ==> r.data == Some(Registered(created.value))
  {
    if !Truthy(username) || !Truthy(password) || !Truthy(name) || !Truthy(role) then Fail(400, MissingFields)
    else if found.Throws? then Fail(500, RegisterError)
    else if found.value.Some? then Fail(409, UsernameTaken)
    else if role.v !in Roles then Fail(400, InvalidRole)
    else if created.Throws? then Fail(500, RegisterError)
    else Succeed(201, Some(RegisteredOk), Some(Registered(created.value)))
  }

  /** A taken username is reported before the role is looked at. */
  lemma TakenBeforeRole(username: string, password: string, name: string, role: string, user: UserRecord, created: Outcome<string>)
    requires username != "" && password != "" && name != "" && role != ""
    ensures Register(Val(username), Val(password), Val(name), Val(role), Ok(Some(user)), created).status == 409
  {
  }

  /** `checkAuth`: no user id on the request, or a user that is gone or
      inactive, is 401; otherwise 200 with the current user, no password. */
  function CheckAuth(userId: Opt<string>, found: Outcome<Option<UserRecord>>): (r: Response<AuthMessage, AuthData>)
    ensures !Truthy(userId) ==> r == Fail(401, NotLoggedIn)
    ensures Truthy(userId) && found.Ok? && (found.value.None? || !found.value.value.active) ==> r == Fail(401, AccountInvalid)
    ensures r.status == 200 <==> Truthy(userId) && found.Ok? && found.value.Some? && found.value.value.active
    ensures r.status == 200 ==> r.data == Some(CurrentUser(Public(found.value.value)))
    ensures r.status in {200, 401, 500}
  {
    if !Truthy(userId) then Fail(401, NotLoggedIn)
    else if found.Throws? then Fail(500, CheckError)
    else if found.value.None? || !found.value.value.active then Fail(401, AccountInvalid)
    else Succeed(200, None, Some(CurrentUser(Public(found.value.value))))
  }
}
