/** User accounts (`userModel.ts`): the lookups by username and by id, the
    listing without passwords, creation with a hashed password and an
    `active` default, the field-by-field UPDATE builder and deletion.
    bcrypt is the uninterpreted `VHash`; the uuid is a parameter. */
module UserModel {
  import opened Js
  import opened Sql

  datatype CreateUserDto = CreateUserDto(username: string, password: string, name: string, role: string, active: Opt<bool>)

  datatype UpdateUserDto = UpdateUserDto(
    username: Opt<string>, password: Opt<string>, name: Opt<string>, role: Opt<string>, active: Opt<bool>)

  // ---------------------------------------------------------------------
  // lookups
  // ---------------------------------------------------------------------

  const ByUsernameSelect := "SELECT * FROM users WHERE username = "
  const ByIdSelect := "SELECT * FROM users WHERE id = "

  function ByUsernameQuery(username: string): (q: Query)
    ensures Paired(q) && q.params == [VText(username)]
  {
    Query(Placeholder(ByUsernameSelect), [VText(username)])
  }

  function ByIdQuery(id: string): (q: Query)
    ensures Paired(q) && q.params == [VText(id)]
  {
    Query(Placeholder(ByIdSelect), [VText(id)])
  }

  /** `rows.length > 0 ? rows[0] : null`, an error rethrown: the answer of
      `findByUsername` and `findById`. */
  function FirstUser(db: Outcome<seq<Row>>): (r: Outcome<Option<Row>>)
    ensures r.Ok? <==> db.Ok?
    ensures r.Ok? ==> (r.value.Some? <==> |db.value| > 0)
    ensures r.Ok? && r.value.Some? ==> r.value.value == db.value[0]
  {
    if db.Throws? then Throws else Ok(FirstOrNull(db.value))
  }

  /** The columns `findAll` selects. */
  const ListColumns: seq<string> := ["id", "username", "name", "role", "active", "created_at", "updated_at"]

  /** What the server answers for the listing: each stored row cut down to
      the selected columns. */
  function Selected(row: Row): (r: Row)
    ensures r.Keys <= row.Keys
    ensures forall k :: k in r ==> k in ListColumns && r[k] == row[k]
    ensures forall k :: k in row && k in ListColumns ==> k in r
  {
    map k | k in row && k in ListColumns :: row[k]
  }

  /** `findAll`: every user, and no row carries a password. */
  function FindAll(db: Outcome<seq<Row>>): (r: Outcome<seq<Row>>)
    ensures r.Ok? <==> db.Ok?
    ensures r.Ok? ==> |r.value| == |db.value|
    ensures r.Ok? ==> forall i :: 0 <= i < |r.value| ==> "password" !in r.value[i] && r.value[i] == Selected(db.value[i])
  {
    if db.Throws? then Throws
    else Ok(seq(|db.value|, i requires 0 <= i < |db.value| => Selected(db.value[i])))
  }

  // ---------------------------------------------------------------------
  // create
  // ---------------------------------------------------------------------

  /** `active !== undefined ? active : true` */
  function ActiveOrTrue(active: Opt<bool>): (v: Value)
    ensures !Defined(active) ==> v == VBool(true)
    ensures active.Val? ==> v == VBool(active.v)
  {
    match active
    case Undef => VBool(true)
    case Null => VNull
    case Val(b) => VBool(b)
  }

  const InsertHead := "INSERT INTO users (id, username, password, name, role, active) VALUES ("

  /** The INSERT of `create`: the fresh id, the password only as its hash,
      and `active` true unless given. */
  function CreateQuery(uuid: string, d: CreateUserDto): (q: Query)
    ensures Paired(q)
    ensures q.params == [VText(uuid), VText(d.username), VHash(d.password), VText(d.name), VText(d.role), ActiveOrTrue(d.active)]
  {
    Query(Then(After(InsertHead, HoleList(6, ", ")), ")"),
      [VText(uuid), VText(d.username), VHash(d.password), VText(d.name), VText(d.role), ActiveOrTrue(d.active)])
  }

  /** `create` answers the fresh id once the INSERT succeeds. */
  function Create(uuid: string, d: CreateUserDto, db: Outcome<()>): (r: (Query, Outcome<string>))
    ensures r.0 == CreateQuery(uuid, d)
    ensures r.1 == if db.Ok? then Ok(uuid) else Throws
  {
    (CreateQuery(uuid, d), if db.Ok? then Ok(uuid) else Throws)
  }

  /** The plain password is never bound: the INSERT carries its hash, and
      nothing else in it is a hash. */
  lemma CreateStoresHash(uuid: string, d: CreateUserDto)
    ensures VHash(d.password) in CreateQuery(uuid, d).params
    ensures forall i :: 0 <= i < 6 && CreateQuery(uuid, d).params[i].VHash? ==> i == 2
  {
  }

  // ---------------------------------------------------------------------
  // update
  // ---------------------------------------------------------------------

  /** The columns `update` may set, in the order it tests them. */
  datatype UserColumn = Username | Password | Name | RoleColumn | Active

  function ColumnName(c: UserColumn): string {
    match c
    case Username => "username"
    case Password => "password"
    case Name => "name"
    case RoleColumn => "role"
    case Active => "active"
  }

  /** Whether the DTO asks for a column: the four text fields when truthy
      (an empty string is skipped), `active` whenever it is not undefined,
      false included. */
  predicate Asks(d: UpdateUserDto, c: UserColumn) {
    match c
    case Username => Truthy(d.username)
    case Password => Truthy(d.password)
    case Name => Truthy(d.name)
    case RoleColumn => Truthy(d.role)
    case Active => Defined(d.active)
  }

  /** The value bound for a column; the password is bound as its hash. */
  function ColumnValue(d: UpdateUserDto, c: UserColumn): Value
    requires Asks(d, c)
  {
    match c
    case Username => VText(d.username.v)
    case Password => VHash(d.password.v)
    case Name => VText(d.name.v)
    case RoleColumn => VText(d.role.v)
    case Active => if d.active.Val? then VBool(d.active.v) else VNull
  }

  function SlotFor(d: UpdateUserDto, c: UserColumn): (s: Slot<UserColumn>)
    ensures s.column == c && (s.value.Some? <==> Asks(d, c))
  {
    Slot(c, if Asks(d, c) then Some(ColumnValue(d, c)) else None)
  }

  /** The five slots of the update, in source order. */
  function UpdateSlots(d: UpdateUserDto): (s: seq<Slot<UserColumn>>)
    ensures |s| == 5
    ensures forall k :: 0 <= k < 5 ==> s[k] == SlotFor(d, [Username, Password, Name, RoleColumn, Active][k])
  {
    [SlotFor(d, Username), SlotFor(d, Password), SlotFor(d, Name), SlotFor(d, RoleColumn), SlotFor(d, Active)]
  }

  const UpdateHead: seq<Tok> := [Word("UPDATE users SET ")]

  function UpdateQuery(id: string, d: UpdateUserDto): Query {
    UpdateById(UpdateHead, SetFrags(UpdateSlots(d), ColumnName), SetValues(UpdateSlots(d)), VText(id))
  }

  /** The field-by-field pushes of `update`: one `column = ?` fragment and
      one value for each column the DTO asks for, in the fixed order. */
  method CollectUpdate(d: UpdateUserDto) returns (updateFields: seq<seq<Tok>>, values: seq<Value>)
    ensures updateFields == SetFrags(UpdateSlots(d), ColumnName) && values == SetValues(UpdateSlots(d))
  {
    var s := UpdateSlots(d);
    values := [];
    updateFields := [];
    assert s[..0] == [];
    updateFields, values := PushSlot(updateFields, values, s, 0, s[0], ColumnName);
    updateFields, values := PushSlot(updateFields, values, s, 1, s[1], ColumnName);
    updateFields, values := PushSlot(updateFields, values, s, 2, s[2], ColumnName);
    updateFields, values := PushSlot(updateFields, values, s, 3, s[3], ColumnName);
    updateFields, values := PushSlot(updateFields, values, s, 4, s[4], ColumnName);
    assert s[..5] == s;
  }

  /** `update`: nothing to set answers false without a statement; otherwise
      one `column = ?` per asked column, in the fixed order, the id as the
      last parameter, and the answer is whether a row was affected. */
  method Update(id: string, d: UpdateUserDto, db: Outcome<nat>) returns (q: Option<Query>, r: Outcome<bool>)
    ensures SetColumns(UpdateSlots(d)) == [] ==> q == None && r == Ok(false)
    ensures SetColumns(UpdateSlots(d)) != [] ==>
      && q == Some(UpdateQuery(id, d))
      && Paired(q.value)
      && q.value.params == SetValues(UpdateSlots(d)) + [VText(id)]
      && r == AffectedAny(db)
  {
    var s := UpdateSlots(d);
    var updateFields, values := CollectUpdate(d);
    SetCounts(s, ColumnName);
    if |updateFields| == 0 {
      return None, Ok(false);
    }
    var query := UpdateHead + JoinToks(updateFields, ", ") + [Word(" WHERE id = "), Hole];
    values := values + [VText(id)];
    q := Some(Query(query, values));
    UpdateByIdPaired(UpdateHead, SetFrags(s, ColumnName), SetValues(s), VText(id));
    r := AffectedAny(db);
  }

  /** The position of a column among the five slots. */
  function Position(c: UserColumn): (k: nat)
    ensures k < 5 && [Username, Password, Name, RoleColumn, Active][k] == c
  {
    match c
    case Username => 0
    case Password => 1
    case Name => 2
    case RoleColumn => 3
    case Active => 4
  }

  /** A column is set exactly when the DTO asks for it: an `active` of
      false is written, an empty username, password, name or role is not. */
  lemma UpdateColumns(d: UpdateUserDto, c: UserColumn)
    ensures c in SetColumns(UpdateSlots(d)) <==> Asks(d, c)
  {
    var s := UpdateSlots(d);
    assert s[Position(c)] == SlotFor(d, c);
    forall j | 0 <= j < 5 && j != Position(c) ensures s[j].column != c {
      assert Position(s[j].column) == j;
    }
    SetColumnsAt(s, Position(c));
  }

  /** An update sets nothing exactly when no field asks for its column. */
  lemma UpdateNothing(d: UpdateUserDto)
    ensures SetColumns(UpdateSlots(d)) == [] <==> forall c :: !Asks(d, c)
  {
    var s := UpdateSlots(d);
    SetColumnsEmpty(s);
    if SetColumns(s) == [] {
      forall c ensures !Asks(d, c) {
        assert s[Position(c)] == SlotFor(d, c);
      }
    }
  }

  /** A new password reaches the UPDATE only as its hash, and the only hash
      the UPDATE binds is that of the new password. */
  lemma UpdateStoresHash(d: UpdateUserDto)
    ensures Truthy(d.password) ==> VHash(d.password.v) in SetValues(UpdateSlots(d))
    ensures forall v :: v in SetValues(UpdateSlots(d)) && v.VHash? ==> Truthy(d.password) && v == VHash(d.password.v)
  {
    var s := UpdateSlots(d);
    if Truthy(d.password) {
      assert s[1].value == Some(VHash(d.password.v));
      SetValuesMember(s, VHash(d.password.v));
    }
    forall v | v in SetValues(s) && v.VHash? ensures Truthy(d.password) && v == VHash(d.password.v) {
      SetValuesMember(s, v);
      var i :| 0 <= i < 5 && s[i].value == Some(v);
      assert s[i] == SlotFor(d, [Username, Password, Name, RoleColumn, Active][i]);
    }
  }

  // ---------------------------------------------------------------------
  // delete / password check
  // ---------------------------------------------------------------------

  function DeleteQuery(id: string): (q: Query)
    ensures Paired(q) && q.params == [VText(id)]
  {
    Query(Placeholder("DELETE FROM users WHERE id = "), [VText(id)])
  }

  /** `delete`: whether a row was removed; an error is rethrown. */
  function Delete(id: string, db: Outcome<nat>): (r: (Query, Outcome<bool>))
    ensures r.0 == DeleteQuery(id) && r.1 == AffectedAny(db)
  {
    (DeleteQuery(id), AffectedAny(db))
  }

  /** `bcrypt.compare(password, hash)`: the hash is that of this password. */
  predicate ComparePassword(password: string, hashed: Value) {
    hashed == VHash(password)
  }
}
