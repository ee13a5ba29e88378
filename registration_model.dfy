/** Registrations (`registrationModel.ts`): the filtered, counted and
    paginated listing, the lookup by id, and creation, update and deletion,
    each of the last three inside a transaction on a pooled connection. The
    table is an abstract map from id to row. */
module RegistrationModel {
  import opened Js
  import opened Sql
  import opened Transaction

  /** A stored registration; a column holds the value it was last bound to. */
  datatype Registration = Registration(
    registration_date: Value,
    student_id: Value,
    classroom: Value,
    level: Value,
    school_year: Value,
    paid: Value,
    created_at: Value,
    updated_at: Value)

  /** The `registrations` table: id to row. */
  type Table = map<string, Registration>

  datatype CreateRegistrationDto = CreateRegistrationDto(
    student_id: Opt<string>,
    student_name: Opt<string>,
    student_phone: Opt<string>,
    classroom: Opt<string>,
    level: Opt<string>,
    school_year: Opt<string>,
    paid: Opt<bool>)

  datatype UpdateRegistrationDto = UpdateRegistrationDto(
    student_id: Opt<string>,
    student_name: Opt<string>,
    student_phone: Opt<string>,
    classroom: Opt<string>,
    level: Opt<string>,
    school_year: Opt<string>,
    paid: Opt<bool>)

  datatype RegistrationFilters = RegistrationFilters(
    search: Opt<string>, schoolYear: Opt<string>, paid: Opt<bool>, limit: Opt<Num>, offset: Opt<Num>)

  // ---------------------------------------------------------------------
  // findAll
  // ---------------------------------------------------------------------

  const ListHead: seq<Tok> :=
    [Word("SELECT r.*, s.student_name_lao as student_name, s.guardian_phone as student_phone FROM registrations r LEFT JOIN students s ON r.student_id = s.student_id WHERE 1=1")]

  const SearchLikes: seq<string> := [" AND (r.student_id LIKE ", " OR s.student_name_lao LIKE ", " OR r.id LIKE "]

  /** The ` AND ...` text each active filter appends to `WHERE 1=1`: the
      search over three columns, the school year when truthy, and the paid
      flag whenever it is not undefined (false included). */
  function FilterSql(f: RegistrationFilters): (s: seq<Tok>)
    ensures Holes(s) == |FilterParams(f)|
  {
    var search := if Truthy(f.search) then Then(Placeholders(SearchLikes), ")") else [];
    var year := if Truthy(f.schoolYear) then Placeholder(" AND r.school_year = ") else [];
    var paid := if Defined(f.paid) then Placeholder(" AND r.paid = ") else [];
    HolesConcat(search, year);
    HolesConcat(search + year, paid);
    search + year + paid
  }

  /** The parameters of the active filters, in the same order. */
  function FilterParams(f: RegistrationFilters): seq<Value> {
    (if Truthy(f.search) then [Contains(f.search.v), Contains(f.search.v), Contains(f.search.v)] else [])
    + (if Truthy(f.schoolYear) then [VText(f.schoolYear.v)] else [])
    + (if Defined(f.paid) then [BoolValue(f.paid)] else [])
  }

  /** The filtered listing before ordering and pagination. */
  function Filtered(f: RegistrationFilters): (s: seq<Tok>)
    ensures Holes(s) == |FilterParams(f)|
  {
    HolesConcat(ListHead, FilterSql(f));
    ListHead + FilterSql(f)
  }

  const CountSelect := "SELECT COUNT(*) as count FROM ("
  const CountClose := ") AS count_query"

  /** `SELECT COUNT(*) as count FROM (<filtered listing>) AS count_query` */
  function CountQuery(f: RegistrationFilters): (q: Query)
    ensures Paired(q) && q.params == FilterParams(f)
  {
    Query(After(CountSelect, Then(Filtered(f), CountClose)), FilterParams(f))
  }

  /** `LIMIT ?` when the limit is truthy and, independently, `OFFSET ?` when
      the offset is truthy: 0 is ignored and an offset needs no limit. */
  function Pagination(f: RegistrationFilters): (s: seq<Tok>)
    ensures Holes(s) == |PaginationParams(f)|
  {
    var limit := if TruthyNum(f.limit) then Placeholder(" LIMIT ") else [];
    var offset := if TruthyNum(f.offset) then Placeholder(" OFFSET ") else [];
    HolesConcat(limit, offset);
    limit + offset
  }

  function PaginationParams(f: RegistrationFilters): seq<Value> {
    (if TruthyNum(f.limit) then [NumOptValue(f.limit)] else [])
    + (if TruthyNum(f.offset) then [NumOptValue(f.offset)] else [])
  }

  /** The listing query: filtered, newest registration first, paginated. */
  function ListQuery(f: RegistrationFilters): (q: Query)
    ensures Paired(q)
  {
    var sql := Then(Filtered(f), " ORDER BY r.registration_date DESC");
    HolesConcat(sql, Pagination(f));
    Query(sql + Pagination(f), FilterParams(f) + PaginationParams(f))
  }

  /** The total is counted before ordering and pagination are added, so no
      limit or offset changes it; and the count binds exactly the filter
      parameters the listing binds first. */
  lemma CountIgnoresPagination(f: RegistrationFilters, limit: Opt<Num>, offset: Opt<Num>)
    ensures CountQuery(f) == CountQuery(f.(limit := limit, offset := offset))
    ensures ListQuery(f).params[..|CountQuery(f).params|] == CountQuery(f).params
  {
    var g := f.(limit := limit, offset := offset);
    assert FilterSql(f) == FilterSql(g);
    assert FilterParams(f) == FilterParams(g);
    assert (FilterParams(f) + PaginationParams(f))[..|FilterParams(f)|] == FilterParams(f);
  }

  /** A paid filter of false still filters: `paid !== undefined` holds. */
  lemma PaidFalseFilters(f: RegistrationFilters)
    requires f.paid == Val(false)
    ensures FilterParams(f)[|FilterParams(f)| - 1] == VBool(false)
    ensures FilterSql(f)[|FilterSql(f)| - 2..] == Placeholder(" AND r.paid = ")
  {
  }

  /** Without filters the listing is the bare `WHERE 1=1` query. */
  lemma NoFilters(f: RegistrationFilters)
    requires !Truthy(f.search) && !Truthy(f.schoolYear) && !Defined(f.paid)
    ensures Filtered(f) == ListHead && FilterParams(f) == []
  {
  }

  /** An offset without a limit still pages, and a zero limit or offset is
      dropped. */
  lemma OffsetWithoutLimit(f: RegistrationFilters)
    requires !TruthyNum(f.limit) && TruthyNum(f.offset)
    ensures Pagination(f) == Placeholder(" OFFSET ") && PaginationParams(f) == [NumOptValue(f.offset)]
  {
  }

  /** `total = parseInt(countResult[0].count)`: the count read back through
      its decimal text is the count itself. */
  function Total(count: nat): (n: Num)
    ensures n == Int(count)
  {
    ParseIntOfNatToString(count);
    ParseInt(NatToString(count))
  }

  /** The filter blocks of `findAll`, appended one after the other. */
  method AppendFilters(f: RegistrationFilters) returns (query: seq<Tok>, queryParams: seq<Value>)
    ensures query == Filtered(f) && queryParams == FilterParams(f)
  {
    query := ListHead;
    queryParams := [];
    if Truthy(f.search) {
      query := query + Then(Placeholders(SearchLikes), ")");
      var searchPattern := Contains(f.search.v);
      queryParams := queryParams + [searchPattern, searchPattern, searchPattern];
    }
    if Truthy(f.schoolYear) {
      query := query + Placeholder(" AND r.school_year = ");
      queryParams := queryParams + [VText(f.schoolYear.v)];
    }
    if Defined(f.paid) {
      query := query + Placeholder(" AND r.paid = ");
      queryParams := queryParams + [BoolValue(f.paid)];
    }
  }

  /** The LIMIT and OFFSET blocks of `findAll`, each on its own. */
  method AppendPagination(query: seq<Tok>, queryParams: seq<Value>, f: RegistrationFilters)
    returns (query': seq<Tok>, queryParams': seq<Value>)
    ensures query' == query + Pagination(f) && queryParams' == queryParams + PaginationParams(f)
  {
    query', queryParams' := query, queryParams;
    if TruthyNum(f.limit) {
      query' := query' + Placeholder(" LIMIT ");
      queryParams' := queryParams' + [NumOptValue(f.limit)];
    }
    if TruthyNum(f.offset) {
      query' := query' + Placeholder(" OFFSET ");
      queryParams' := queryParams' + [NumOptValue(f.offset)];
    }
  }

  /** `findAll`: the count is taken on the filtered query, then ordering and
      pagination are appended and the page is read. An error is rethrown;
      the connection is released on every path and nothing is written. */
  method FindAll(c: Connection<Table>, f: RegistrationFilters, countDb: Outcome<nat>, listDb: Outcome<seq<Row>>)
    returns (sent: seq<Query>, r: Outcome<(seq<Row>, Num)>)
    requires c.Valid() && c.held && !c.inTransaction
    modifies c
    ensures c.Valid() && !c.held && c.committed == old(c.committed)
    ensures sent == if countDb.Ok? then [CountQuery(f), ListQuery(f)] else [CountQuery(f)]
    ensures r.Ok? <==> countDb.Ok? && listDb.Ok?
    ensures r.Ok? ==> r.value == (listDb.value, Int(countDb.value))
  {
    var query, queryParams := AppendFilters(f);
    var countQuery := After(CountSelect, Then(query, CountClose));
    sent := [Query(countQuery, queryParams)];
    if countDb.Throws? {
      c.Release();
      return sent, Throws;
    }
    var total := Total(countDb.value);
    query := Then(query, " ORDER BY r.registration_date DESC");
    query, queryParams := AppendPagination(query, queryParams, f);
    sent := sent + [Query(query, queryParams)];
    c.Release();
    if listDb.Throws? {
      return sent, Throws;
    }
    r := Ok((listDb.value, total));
  }

  // ---------------------------------------------------------------------
  // findById
  // ---------------------------------------------------------------------

  const FindByIdSelect := "SELECT r.*, s.student_name_lao as student_name, s.guardian_phone as student_phone FROM registrations r LEFT JOIN students s ON r.student_id = s.student_id WHERE r.id = "

  function FindByIdQuery(id: string): (q: Query)
    ensures Paired(q) && q.params == [VText(id)]
  {
    Query(Placeholder(FindByIdSelect), [VText(id)])
  }

  /** `rows[0] || null`, the connection released either way. */
  method FindById(c: Connection<Table>, id: string, db: Outcome<seq<Row>>) returns (q: Query, r: Outcome<Option<Row>>)
    requires c.Valid() && c.held
    modifies c
    ensures c.Valid() && !c.held && c.committed == old(c.committed)
    ensures q == FindByIdQuery(id)
    ensures r.Ok? <==> db.Ok?
    ensures r.Ok? ==> r.value == FirstOrNull(db.value)
  {
    q := FindByIdQuery(id);
    c.Release();
    if db.Throws? {
      return q, Throws;
    }
    r := Ok(FirstOrNull(db.value));
  }

  // ---------------------------------------------------------------------
  // create
  // ---------------------------------------------------------------------

  /** `INV-` and the first eight characters of a uuid. */
  function InvoiceId(uuid: string): (id: string)
    ensures |id| == 4 + (if |uuid| < 8 then |uuid| else 8)
    ensures id[..4] == "INV-" && id[4..] == Prefix(uuid, 8)
  {
    "INV-" + Prefix(uuid, 8)
  }

  /** `new Date().toISOString().split('T')[0]`: the date part of the
      current timestamp, which is a parameter here. */
  function DatePart(isoNow: string): (d: string)
    ensures 'T' !in d
  {
    SplitPiecesHaveNoSeparator(isoNow, 'T');
    Split(isoNow, 'T')[0]
  }

  /** The row `create` inserts: `paid || false` and both timestamps `NOW()`. */
  function NewRow(isoNow: string, d: CreateRegistrationDto): (row: Registration)
    ensures row.paid == VBool(TruthyBool(d.paid)) && row.created_at == row.updated_at == VNow
  {
    Registration(VText(DatePart(isoNow)), TextValue(d.student_id), TextValue(d.classroom), TextValue(d.level),
      TextValue(d.school_year), VBool(TruthyBool(d.paid)), VNow, VNow)
  }

  /** A registration created without a paid flag is unpaid. */
  lemma CreatedUnpaid(isoNow: string, d: CreateRegistrationDto)
    requires !d.paid.Val? || !d.paid.v
    ensures NewRow(isoNow, d).paid == VBool(false)
  {
  }

  const InsertHead := "INSERT INTO registrations (id, registration_date, student_id, classroom, level, school_year, paid, created_at, updated_at) VALUES ("

  function InsertQuery(id: string, isoNow: string, d: CreateRegistrationDto): (q: Query)
    ensures Paired(q)
    ensures q.params == [VText(id), VText(DatePart(isoNow)), TextValue(d.student_id), TextValue(d.classroom),
                         TextValue(d.level), TextValue(d.school_year), VBool(TruthyBool(d.paid))]
  {
    var params := [VText(id), VText(DatePart(isoNow)), TextValue(d.student_id), TextValue(d.classroom),
                   TextValue(d.level), TextValue(d.school_year), VBool(TruthyBool(d.paid))];
    Query(Then(After(InsertHead, HoleList(7, ", ")), ", NOW(), NOW())"), params)
  }

  /** `create`: inserts the row under a fresh invoice id inside a
      transaction (rejected when the id is taken or the server refuses it)
      and answers that id; on failure the transaction is rolled back and the
      error rethrown. The connection is released on every path. */
  method Create(c: Connection<Table>, uuid: string, isoNow: string, d: CreateRegistrationDto, refused: bool)
    returns (q: Query, r: Outcome<string>)
    requires c.Valid() && c.held && !c.inTransaction
    modifies c
    ensures c.Valid() && !c.held && !c.inTransaction
    ensures q == InsertQuery(InvoiceId(uuid), isoNow, d) && Paired(q)
    ensures r.Ok? <==> !refused && InvoiceId(uuid) !in old(c.committed)
    ensures r.Ok? ==> r.value == InvoiceId(uuid) && c.committed == old(c.committed)[r.value := NewRow(isoNow, d)]
    ensures r.Throws? ==> c.committed == old(c.committed)
  {
    c.BeginTransaction();
    var id := InvoiceId(uuid);
    q := InsertQuery(id, isoNow, d);
    var row := NewRow(isoNow, d);
    var ok := c.Run(t => t[id := row], refused || id in c.working);
    if !ok {
      c.Rollback();
      c.Release();
      return q, Throws;
    }
    c.Commit();
    c.Release();
    r := Ok(id);
  }

  // ---------------------------------------------------------------------
  // update
  // ---------------------------------------------------------------------

  /** The columns an update may assign, in the order the source tests them. */
  datatype RegistrationColumn = StudentId | Classroom | Level | SchoolYear | Paid

  /** The text appended for a column: `, <column>`, followed by ` = ?`. */
  function Assigned(c: RegistrationColumn): string {
    match c
    case StudentId => ", student_id"
    case Classroom => ", classroom"
    case Level => ", level"
    case SchoolYear => ", school_year"
    case Paid => ", paid"
  }

  /** Each field is included whenever it is not undefined; the student name
      and phone of the request are never written. */
  function UpdateSlots(d: UpdateRegistrationDto): (s: seq<Slot<RegistrationColumn>>)
    ensures |s| == 5
  {
    [ Slot(StudentId, if Defined(d.student_id) then Some(TextValue(d.student_id)) else None),
      Slot(Classroom, if Defined(d.classroom) then Some(TextValue(d.classroom)) else None),
      Slot(Level, if Defined(d.level) then Some(TextValue(d.level)) else None),
      Slot(SchoolYear, if Defined(d.school_year) then Some(TextValue(d.school_year)) else None),
      Slot(Paid, if Defined(d.paid) then Some(BoolValue(d.paid)) else None) ]
  }

  const UpdateHead: seq<Tok> := [Word("UPDATE registrations SET updated_at = NOW()")]

  /** The UPDATE: `updated_at` always, then one `, column = ?` per defined
      field, and the id as the last parameter. */
  function UpdateQuery(id: string, d: UpdateRegistrationDto): (q: Query)
    ensures Paired(q)
    ensures q.params == SetValues(UpdateSlots(d)) + [VText(id)]
  {
    var frags := SetFrags(UpdateSlots(d), Assigned);
    SetAligned(UpdateSlots(d), Assigned);
    HolesConcatAll(frags);
    HolesConcat(UpdateHead, Concat(frags));
    HolesConcat(UpdateHead + Concat(frags), Placeholder(" WHERE id = "));
    Query(UpdateHead + Concat(frags) + Placeholder(" WHERE id = "), SetValues(UpdateSlots(d)) + [VText(id)])
  }

  /** The name and phone of the request never reach the statement. */
  lemma UpdateIgnoresNameAndPhone(id: string, d: UpdateRegistrationDto, name: Opt<string>, phone: Opt<string>)
    ensures UpdateQuery(id, d) == UpdateQuery(id, d.(student_name := name, student_phone := phone))
  {
    assert UpdateSlots(d) == UpdateSlots(d.(student_name := name, student_phone := phone));
  }

  /** Even an empty update sets `updated_at`, so the SET list is never empty. */
  lemma UpdateNeverEmpty(id: string, d: UpdateRegistrationDto)
    ensures UpdateQuery(id, d).sql[0] == Word("UPDATE registrations SET updated_at = NOW()")
  {
  }

  /** One assignment of the UPDATE. */
  function Set1(row: Registration, c: RegistrationColumn, v: Value): Registration {
    match c
    case StudentId => row.(student_id := v)
    case Classroom => row.(classroom := v)
    case Level => row.(level := v)
    case SchoolYear => row.(school_year := v)
    case Paid => row.(paid := v)
  }

  /** What the UPDATE does to a row: `updated_at` becomes `NOW()` and the
      assigned columns take their values, left to right. */
  function Assign(row: Registration, slots: seq<Slot<RegistrationColumn>>): Registration
    decreases |slots|
  {
    if slots == [] then row.(updated_at := VNow)
    else
      var first := if slots[0].value.Some? then Set1(row, slots[0].column, slots[0].value.value) else row;
      Assign(first, slots[1..])
  }

  /** An update changes only the columns it names, besides `updated_at`:
      the registration date and creation time are kept. */
  lemma {:induction false} AssignKeeps(row: Registration, slots: seq<Slot<RegistrationColumn>>)
    ensures Assign(row, slots).registration_date == row.registration_date
    ensures Assign(row, slots).created_at == row.created_at
    ensures Assign(row, slots).updated_at == VNow
    decreases |slots|
  {
    if slots != [] {
      var first := if slots[0].value.Some? then Set1(row, slots[0].column, slots[0].value.value) else row;
      AssignKeeps(first, slots[1..]);
    }
  }

  /** The table after the UPDATE: only the row with that id changes, if any. */
  function Updated(t: Table, id: string, d: UpdateRegistrationDto): (t': Table)
    ensures t'.Keys == t.Keys
    ensures forall k :: k in t && k != id ==> t'[k] == t[k]
  {
    if id in t then t[id := Assign(t[id], UpdateSlots(d))] else t
  }

  /** `update` appends the fields one after the other, as the source does. */
  method BuildUpdate(id: string, d: UpdateRegistrationDto) returns (q: Query)
    ensures q == UpdateQuery(id, d)
  {
    var s := UpdateSlots(d);
    var updateQuery := UpdateHead;
    var queryParams: seq<Value> := [];
    assert s[..0] == [];
    updateQuery, queryParams := AppendSlot(updateQuery, queryParams, UpdateHead, s, 0, s[0], Assigned);
    updateQuery, queryParams := AppendSlot(updateQuery, queryParams, UpdateHead, s, 1, s[1], Assigned);
    updateQuery, queryParams := AppendSlot(updateQuery, queryParams, UpdateHead, s, 2, s[2], Assigned);
    updateQuery, queryParams := AppendSlot(updateQuery, queryParams, UpdateHead, s, 3, s[3], Assigned);
    updateQuery, queryParams := AppendSlot(updateQuery, queryParams, UpdateHead, s, 4, s[4], Assigned);
    assert s[..5] == s;
    updateQuery := updateQuery + Placeholder(" WHERE id = ");
    queryParams := queryParams + [VText(id)];
    q := Query(updateQuery, queryParams);
  }

  /** `update`: inside a transaction, the UPDATE; true exactly when a row
      has that id. On failure the transaction is rolled back and the error
      rethrown; the connection is released on every path. */
  method Update(c: Connection<Table>, id: string, d: UpdateRegistrationDto, refused: bool)
    returns (q: Query, r: Outcome<bool>)
    requires c.Valid() && c.held && !c.inTransaction
    modifies c
    ensures c.Valid() && !c.held && !c.inTransaction
    ensures q == UpdateQuery(id, d)
    ensures r.Ok? <==> !refused
    ensures r.Ok? ==> r.value == (id in old(c.committed)) && c.committed == Updated(old(c.committed), id, d)
    ensures r.Throws? ==> c.committed == old(c.committed)
  {
    c.BeginTransaction();
    q := BuildUpdate(id, d);
    var affected := id in c.working;
    var ok := c.Run(t => Updated(t, id, d), refused);
    if !ok {
      c.Rollback();
      c.Release();
      return q, Throws;
    }
    c.Commit();
    c.Release();
    r := Ok(affected);
  }

  // ---------------------------------------------------------------------
  // delete
  // ---------------------------------------------------------------------

  function DeleteQuery(id: string): (q: Query)
    ensures Paired(q) && q.params == [VText(id)]
  {
    Query(Placeholder("DELETE FROM registrations WHERE id = "), [VText(id)])
  }

  /** `delete`: inside a transaction; true exactly when a row had that id,
      which is gone afterwards. Rolled back and rethrown on failure; the
      connection is released on every path. */
  method Delete(c: Connection<Table>, id: string, refused: bool) returns (q: Query, r: Outcome<bool>)
    requires c.Valid() && c.held && !c.inTransaction
    modifies c
    ensures c.Valid() && !c.held && !c.inTransaction
    ensures q == DeleteQuery(id)
    ensures r.Ok? <==> !refused
    ensures r.Ok? ==> r.value == (id in old(c.committed)) && c.committed == old(c.committed) - {id}
    ensures r.Throws? ==> c.committed == old(c.committed)
  {
    c.BeginTransaction();
    q := DeleteQuery(id);
    var affected := id in c.working;
    var ok := c.Run((t: Table) => t - {id}, refused);
    if !ok {
      c.Rollback();
      c.Release();
      return q, Throws;
    }
    c.Commit();
    c.Release();
    r := Ok(affected);
  }
}
