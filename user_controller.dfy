/** The user-administration handlers (`controllers/userController.ts`): the
    listing, the lookup without its password, creation with the duplicate
    username rule, update and deletion. Each is a decision over the request
    and the results of the model calls it awaits; a call that throws is
    `Throws`, and the username lookup is a function of the name asked. */
module UserController {
  import opened Js
  import opened Sql
  import opened Http
  import UserModel

  datatype UserMessage =
    | NotFound | MissingFields | UsernameTaken | Created | NotUpdated | Updated
    | NotDeleted | Deleted | ServerError

  datatype UserData = Users(users: seq<Row>) | User(user: Row) | CreatedId(id: string)

  /** `const { password, ...userData } = user`: every column but the
      password, unchanged. */
  function WithoutPassword(user: Row): (r: Row)
    ensures "password" !in r
    ensures forall k :: k in r <==> k in user && k != "password"
    ensures forall k :: k in r ==> r[k] == user[k]
  {
    map k | k in user && k != "password" :: user[k]
  }

  /** `getAllUsers`: the model's listing, or 500 when it throws. */
  function GetAll(listed: Outcome<seq<Row>>): (r: Response<UserMessage, UserData>)
    ensures r.status == 200 <==> listed.Ok?
    ensures listed.Ok? ==> r.data == Some(Users(listed.value))
    ensures listed.Throws? ==> r == Fail(500, ServerError)
  {
    if listed.Throws? then Fail(500, ServerError) else Succeed(200, None, Some(Users(listed.value)))
  }

  /** Neither listing answers a password: the model selects no password
      column, so the 200 reply carries none. */
  lemma ListingHasNoPasswords(db: Outcome<seq<Row>>)
    ensures var r := GetAll(UserModel.FindAll(db));
      r.status == 200 ==> forall i :: 0 <= i < |r.data.value.users| ==> "password" !in r.data.value.users[i]
  {
  }

  /** `getUserById`: 404 for an unknown id, otherwise 200 with the user
      stripped of its password. */
  function GetById(found: Outcome<Option<Row>>): (r: Response<UserMessage, UserData>)
    ensures found == Ok(None) ==> r == Fail(404, NotFound)
    ensures r.status == 200 <==> found.Ok? && found.value.Some?
    ensures r.status == 200 ==> r.data == Some(User(WithoutPassword(found.value.value)))
    ensures r.status == 200 ==> "password" !in r.data.value.user
    ensures found.Throws? ==> r == Fail(500, ServerError)
  {
    if found.Throws? then Fail(500, ServerError)
    else if found.value.None? then Fail(404, NotFound)
    else Succeed(200, None, Some(User(WithoutPassword(found.value.value))))
  }

  /** `createUser`: any of username, password, name or role missing or
      empty is 400; a username already taken is 400; otherwise the model
      creates the user and its id is the 201 reply. */
  function Create(username: Opt<string>, password: Opt<string>, name: Opt<string>, role: Opt<string>,
                  findByUsername: string -> Outcome<Option<Row>>, created: Outcome<string>): (r: Response<UserMessage, UserData>)
    ensures !Truthy(username) || !Truthy(password) || !Truthy(name) || !Truthy(role) ==> r == Fail(400, MissingFields)
    ensures Truthy(username) && Truthy(password) && Truthy(name) && Truthy(role)
            && findByUsername(username.v).Ok? && findByUsername(username.v).value.Some?
            ==> r == Fail(400, UsernameTaken)
    ensures r.status == 201 <==>
      && Truthy(username) && Truthy(password) && Truthy(name) && Truthy(role)
      && findByUsername(username.v) == Ok(None) && created.Ok?
    ensures r.status == 201 ==> r.data == Some(CreatedId(created.value))
    ensures r.status in {201, 400, 500}
  {
    if !Truthy(username) || !Truthy(password) || !Truthy(name) || !Truthy(role) then Fail(400, MissingFields)
    else if findByUsername(username.v).Throws? then Fail(500, ServerError)
    else if findByUsername(username.v).value.Some? then Fail(400, UsernameTaken)
    else if created.Throws? then Fail(500, ServerError)
    else Succeed(201, Some(Created), Some(CreatedId(created.value)))
  }

  /** Whether `updateUser` looks the new username up: only when one is given
      and it differs from the user's current one. */
  predicate RenameChecked(d: UserModel.UpdateUserDto, existing: Row) {
    Truthy(d.username) && Get(existing, "username") != VText(d.username.v)
  }

  /** `updateUser`: 404 for an unknown id; a new username taken by someone
      is 400; a model answer of false (nothing to set, or no row affected)
      is 400; otherwise 200. */
  function Update(d: UserModel.UpdateUserDto, before: Outcome<Option<Row>>,
                  findByUsername: string -> Outcome<Option<Row>>, updated: Outcome<bool>): (r: Response<UserMessage, UserData>)
    ensures before == Ok(None) ==> r == Fail(404, NotFound)
    ensures before.Ok? && before.value.Some? && RenameChecked(d, before.value.value)
            && findByUsername(d.username.v).Ok? && findByUsername(d.username.v).value.Some?
            ==> r == Fail(400, UsernameTaken)
    ensures r.status == 200 <==>
      && before.Ok? && before.value.Some?
      && (RenameChecked(d, before.value.value) ==> findByUsername(d.username.v) == Ok(None))
      && updated == Ok(true)
    ensures r.status in {200, 400, 404, 500}
  {
    if before.Throws? then Fail(500, ServerError)
    else if before.value.None? then Fail(404, NotFound)
    else if RenameChecked(d, before.value.value) && findByUsername(d.username.v).Throws? then Fail(500, ServerError)
    else if RenameChecked(d, before.value.value) && findByUsername(d.username.v).value.Some? then Fail(400, UsernameTaken)
    else if updated.Throws? then Fail(500, ServerError)
    else if !updated.value then Fail(400, NotUpdated)
    else Succeed(200, Some(Updated), None)
  }

  /** Keeping one's own username is never a clash: when the given username
      is the current one, what a lookup of it would answer does not matter. */
  lemma OwnUsernameIsNoClash(d: UserModel.UpdateUserDto, existing: Row,
                             one: string -> Outcome<Option<Row>>, other: string -> Outcome<Option<Row>>, updated: Outcome<bool>)
    requires d.username.Val? && Get(existing, "username") == VText(d.username.v)
    ensures Update(d, Ok(Some(existing)), one, updated) == Update(d, Ok(Some(existing)), other, updated)
  {
  }

  /** An update that asks for no column is refused with 400: the model sets
      nothing and answers false. */
  lemma EmptyBodyRefused(d: UserModel.UpdateUserDto, existing: Row, findByUsername: string -> Outcome<Option<Row>>)
    requires forall c :: !UserModel.Asks(d, c)
    ensures SetColumns(UserModel.UpdateSlots(d)) == []
    ensures Update(d, Ok(Some(existing)), findByUsername, Ok(false)) == Fail(400, NotUpdated)
  {
    UserModel.UpdateNothing(d);
  }

  /** `deleteUser`: 404 for an unknown id, 400 when the model answers false,
      200 once the row is gone. */
  function Delete(before: Outcome<Option<Row>>, deleted: Outcome<bool>): (r: Response<UserMessage, UserData>)
    ensures before == Ok(None) ==> r == Fail(404, NotFound)
    ensures before.Ok? && before.value.Some? && deleted == Ok(false) ==> r == Fail(400, NotDeleted)
    ensures r.status == 200 <==> before.Ok? && before.value.Some? && deleted == Ok(true)
    ensures r.status in {200, 400, 404, 500}
  {
    if before.Throws? then Fail(500, ServerError)
    else if before.value.None? then Fail(404, NotFound)
    else if deleted.Throws? then Fail(500, ServerError)
    else if !deleted.value then Fail(400, NotDeleted)
    else Succeed(200, Some(Deleted), None)
  }
}
