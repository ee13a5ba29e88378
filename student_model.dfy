/** The student table access of the back end (`studentModel.ts`): listing
    with search, gender filter and pagination, lookups, creation with a
    sequential zero-padded student id, the partial update and deletion. */
module StudentModel {
  import opened Js
  import opened Sql

  /** The body of a create request; every field may be missing. */
  datatype CreateStudentDto = CreateStudentDto(
    student_id: Opt<string>,
    student_name_lao: Opt<string>,
    guardian_phone: Opt<string>,
    gender: Opt<string>,
    province: Opt<string>,
    district: Opt<string>,
    village: Opt<string>,
    id_number: Opt<string>,
    id_issued_date: Opt<string>,
    birth_village: Opt<string>,
    birth_district: Opt<string>,
    birth_province: Opt<string>,
    ethnicity: Opt<string>,
    religion: Opt<string>,
    nationality: Opt<string>,
    date_of_birth: Opt<string>,
    phone_number: Opt<string>,
    photo_url: Opt<string>)

  /** The body of an update request. */
  datatype UpdateStudentDto = UpdateStudentDto(
    student_name_lao: Opt<string>,
    guardian_phone: Opt<string>,
    gender: Opt<string>,
    province: Opt<string>,
    district: Opt<string>,
    village: Opt<string>,
    id_number: Opt<string>,
    id_issued_date: Opt<string>,
    birth_village: Opt<string>,
    birth_district: Opt<string>,
    birth_province: Opt<string>,
    ethnicity: Opt<string>,
    religion: Opt<string>,
    nationality: Opt<string>,
    date_of_birth: Opt<string>,
    phone_number: Opt<string>,
    photo_url: Opt<string>)

  /** The filters `findAll` accepts. */
  datatype Filters = Filters(search: Opt<string>, gender: Opt<string>, limit: Opt<Num>, offset: Opt<Num>)

  /** `if (student.date_of_birth) ...; if (student.id_issued_date) ...`:
      the two dates of a student row are reformatted, each only when set. */
  function FormatStudent(row: Row): Row {
    FormatDate(FormatDate(row, "date_of_birth"), "id_issued_date")
  }

  /** Formatting keeps every column, rewrites a date column only when its
      value is truthy, and leaves every other column alone. */
  lemma FormatStudentDates(row: Row)
    ensures FormatStudent(row).Keys == row.Keys
    ensures forall k :: k in row && k != "date_of_birth" && k != "id_issued_date" ==> FormatStudent(row)[k] == row[k]
    ensures forall k :: k in row && (k == "date_of_birth" || k == "id_issued_date") ==>
      FormatStudent(row)[k] == if ValueTruthy(row[k]) then VYmd(row[k]) else row[k]
  {
    var once := FormatDate(row, "date_of_birth");
    assert |"date_of_birth"| != |"id_issued_date"|;
    assert "id_issued_date" in row ==> once["id_issued_date"] == row["id_issued_date"];
  }

  // ---------------------------------------------------------------------
  // findById / findByStudentId / delete
  // ---------------------------------------------------------------------

  function FindByIdQuery(id: string): (q: Query)
    ensures Paired(q) && q.params == [VText(id)]
  {
    var q := Query(Placeholder("SELECT * FROM students WHERE id = "), [VText(id)]);
    q
  }

  function FindByStudentIdQuery(studentId: string): (q: Query)
    ensures Paired(q) && q.params == [VText(studentId)]
  {
    Query(Placeholder("SELECT * FROM students WHERE student_id = "), [VText(studentId)])
  }

  /** The first row, formatted, or null; a database error is rethrown. */
  function FindOne(db: Outcome<seq<Row>>): (r: Outcome<Option<Row>>)
    ensures r.Throws? <==> db.Throws?
    ensures db.Ok? ==> (r.value.Some? <==> |db.value| > 0)
    ensures db.Ok? && |db.value| > 0 ==> r.value.value == FormatStudent(db.value[0])
  {
    if db.Throws? then Throws
    else if |db.value| > 0 then Ok(Some(FormatStudent(db.value[0])))
    else Ok(None)
  }

  function DeleteQuery(id: string): (q: Query)
    ensures Paired(q) && q.params == [VText(id)]
  {
    Query(Placeholder("DELETE FROM students WHERE id = "), [VText(id)])
  }

  // ---------------------------------------------------------------------
  // findAll
  // ---------------------------------------------------------------------

  /** The conditions `findAll` pushes: a search over three columns, then the gender. */
  function FindAllConds(f: Filters): seq<seq<Tok>> {
    (if Truthy(f.search) then [SearchCond] else []) + (if Truthy(f.gender) then [Placeholder("gender = ")] else [])
  }

  /** The filter parameters, pushed to both parameter lists. */
  function FindAllParams(f: Filters): seq<Value> {
    (if Truthy(f.search) then [Contains(f.search.v), Contains(f.search.v), Contains(f.search.v)] else [])
    + (if Truthy(f.gender) then [VText(f.gender.v)] else [])
  }

  const SearchCond: seq<Tok> :=
    [Word("(student_id LIKE "), Hole, Word(" OR student_name_lao LIKE "), Hole, Word(" OR phone_number LIKE "), Hole, Word(")")]

  lemma SearchCondHoles()
    ensures Holes(SearchCond) == 3
  {
    var s := SearchCond;
    assert s[1..][1..][1..][1..][1..][1..][1..] == [];
  }

  lemma FindAllCondsHoles(f: Filters)
    ensures HolesAll(FindAllConds(f)) == |FindAllParams(f)|
  {
    SearchCondHoles();
    var a := if Truthy(f.search) then [SearchCond] else [];
    var b := if Truthy(f.gender) then [Placeholder("gender = ")] else [];
    HolesAllConcat(a, b);
    assert a != [] ==> a[1..] == [];
    assert b != [] ==> b[1..] == [];
  }

  /** `LIMIT ?` when a limit is given, and `OFFSET ?` after it only then. */
  function Pagination(f: Filters): (s: seq<Tok>)
    ensures Holes(s) == |PaginationParams(f)|
  {
    if Defined(f.limit) then
      assert Holes([Word(" LIMIT "), Hole]) == 1 by { assert [Word(" LIMIT "), Hole][1..][1..] == []; }
      assert Holes([Word(" OFFSET "), Hole]) == 1 by { assert [Word(" OFFSET "), Hole][1..][1..] == []; }
      HolesConcat([Word(" LIMIT "), Hole], [Word(" OFFSET "), Hole]);
      [Word(" LIMIT "), Hole] + (if Defined(f.offset) then [Word(" OFFSET "), Hole] else [])
    else []
  }

  function PaginationParams(f: Filters): seq<Value> {
    if Defined(f.limit) then [NumOptValue(f.limit)] + (if Defined(f.offset) then [NumOptValue(f.offset)] else [])
    else []
  }

  const SelectAll: seq<Tok> := [Word("SELECT * FROM students")]
  const CountAll: seq<Tok> := [Word("SELECT COUNT(*) as total FROM students")]

  /** The listing query `findAll` issues. */
  function ListQuery(f: Filters): Query {
    Query(SelectAll + Where(FindAllConds(f)) + [Word(" ORDER BY student_id")] + Pagination(f), FindAllParams(f) + PaginationParams(f))
  }

  /** The count query as written: line 167 compares instead of assigning, so
      the text never gets the WHERE clause while the parameters do. */
  function CountQueryAsWritten(f: Filters): Query {
    Query(CountAll, FindAllParams(f))
  }

  /** The count query as intended: the same WHERE clause as the listing. */
  function CountQuery(f: Filters): Query {
    Query(CountAll + Where(FindAllConds(f)), FindAllParams(f))
  }

  /** Whenever a search or gender filter is given, the count statement as
      written has no placeholder for the parameters it is sent. */
  lemma CountQueryAsWrittenUnpaired(f: Filters)
    requires Truthy(f.search) || Truthy(f.gender)
    ensures !Paired(CountQueryAsWritten(f))
    ensures Holes(CountQueryAsWritten(f).sql) == 0 < |CountQueryAsWritten(f).params|
  {
  }

  /** The corrected count query is always paired and counts under the same
      WHERE clause as the listing, without its ordering and pagination. */
  lemma CountQueryPaired(f: Filters)
    ensures Paired(CountQuery(f))
    ensures CountQuery(f).sql[|CountAll|..] == ListQuery(f).sql[|SelectAll|..|SelectAll| + |Where(FindAllConds(f))|]
    ensures CountQuery(f).params == ListQuery(f).params[..|FindAllParams(f)|]
  {
    var w := Where(FindAllConds(f));
    HolesConcat(CountAll, w);
    HolesWhere(FindAllConds(f));
    FindAllCondsHoles(f);
    CountSharesWhere(f, w, FindAllParams(f));
  }

  /** The count's WHERE clause and parameters are those of the listing. */
  lemma CountSharesWhere(f: Filters, w: seq<Tok>, p: seq<Value>)
    requires w == Where(FindAllConds(f)) && p == FindAllParams(f)
    ensures CountQuery(f).sql[|CountAll|..] == ListQuery(f).sql[|SelectAll|..|SelectAll| + |w|]
    ensures CountQuery(f).params == ListQuery(f).params[..|p|]
  {
    var rest := [Word(" ORDER BY student_id")] + Pagination(f);
    MiddleSlice(SelectAll, w, rest);
    MiddleSlice(CountAll, w, []);
    MiddleSlice([], p, PaginationParams(f));
    assert ListQuery(f).sql == SelectAll + w + rest;
    assert ListQuery(f).params == [] + p + PaginationParams(f);
  }

  /** The middle part of a concatenation of three. */
  lemma MiddleSlice<T>(a: seq<T>, b: seq<T>, c: seq<T>)
    ensures a + b + c == a + (b + c)
    ensures (a + b + c)[|a|..|a| + |b|] == b
    ensures (a + b)[|a|..] == b
  {
  }

  lemma ListQueryPaired(f: Filters)
    ensures Paired(ListQuery(f))
  {
    var a := SelectAll + Where(FindAllConds(f));
    HolesConcat(SelectAll, Where(FindAllConds(f)));
    HolesWhere(FindAllConds(f));
    FindAllCondsHoles(f);
    HolesConcat(a, [Word(" ORDER BY student_id")]);
    HolesConcat(a + [Word(" ORDER BY student_id")], Pagination(f));
  }

  /** `countResult[0]?.total || 0` */
  function TotalOf(rows: seq<Row>): Value {
    if |rows| > 0 then ValueOr(Get(rows[0], "total"), VInt(0)) else VInt(0)
  }

  /** The search and gender blocks of `findAll`: the conditions, and the
      parameters pushed alike to the listing and the count. */
  method FindAllFilters(f: Filters) returns (conditions: seq<seq<Tok>>, queryParams: seq<Value>, countParams: seq<Value>)
    ensures conditions == FindAllConds(f)
    ensures queryParams == countParams == FindAllParams(f)
  {
    queryParams, countParams, conditions := [], [], [];
    if Truthy(f.search) {
      var searchParam := Contains(f.search.v);
      conditions := conditions + [SearchCond];
      queryParams := queryParams + [searchParam, searchParam, searchParam];
      countParams := countParams + [searchParam, searchParam, searchParam];
    }
    if Truthy(f.gender) {
      conditions := conditions + [Placeholder("gender = ")];
      queryParams := queryParams + [VText(f.gender.v)];
      countParams := countParams + [VText(f.gender.v)];
    }
  }

  /** `LIMIT ?` only when a limit is given, and `OFFSET ?` only inside it. */
  method AppendPagination(query: seq<Tok>, queryParams: seq<Value>, f: Filters) returns (query': seq<Tok>, queryParams': seq<Value>)
    ensures query' == query + Pagination(f) && queryParams' == queryParams + PaginationParams(f)
  {
    query', queryParams' := query, queryParams;
    if Defined(f.limit) {
      query' := query' + [Word(" LIMIT "), Hole];
      queryParams' := queryParams' + [NumOptValue(f.limit)];
      if Defined(f.offset) {
        query' := query' + [Word(" OFFSET "), Hole];
        queryParams' := queryParams' + [NumOptValue(f.offset)];
      }
    }
  }

  /** `rows.map(...)`: every row with its dates formatted. */
  function FormatAll(rows: seq<Row>): (r: seq<Row>)
    ensures |r| == |rows| && forall i :: 0 <= i < |rows| ==> r[i] == FormatStudent(rows[i])
  {
    seq(|rows|, i requires 0 <= i < |rows| => FormatStudent(rows[i]))
  }

  /** Lists students as written: the filtered, ordered, paginated rows and
      the total from a count statement that, because line 167 compares
      instead of assigning, has no WHERE clause yet is sent the filter
      parameters, so it is unpaired whenever a filter is given. `countDb`
      is the database's answer to that statement. A database error is
      rethrown. */
  method FindAll(f: Filters, listDb: Outcome<seq<Row>>, countDb: Outcome<seq<Row>>)
    returns (list: Query, count: Query, r: Outcome<(seq<Row>, Value)>)
    ensures list == ListQuery(f) && count == CountQueryAsWritten(f)
    ensures Paired(list)
    ensures Paired(count) <==> !Truthy(f.search) && !Truthy(f.gender)
    ensures !Defined(f.limit) ==> list.params == FindAllParams(f)
    ensures r.Ok? <==> listDb.Ok? && countDb.Ok?
    ensures r.Ok? ==> r.value == (FormatAll(listDb.value), TotalOf(countDb.value))
  {
    var conditions, queryParams, countParams := FindAllFilters(f);
    var query := AppendWhere(SelectAll, conditions);
    // The count text keeps its bare form: the WHERE clause is only compared.
    var countQuery := CountAll;
    query := query + [Word(" ORDER BY student_id")];
    query, queryParams := AppendPagination(query, queryParams, f);
    list := Query(query, queryParams);
    count := Query(countQuery, countParams);
    ListQueryPaired(f);
    if Truthy(f.search) || Truthy(f.gender) {
      CountQueryAsWrittenUnpaired(f);
    }
    if listDb.Throws? || countDb.Throws? {
      r := Throws;
    } else {
      r := Ok((FormatAll(listDb.value), TotalOf(countDb.value)));
    }
  }

  /** `findAll` with the count filtered like the listing: both statements
      are paired and the total counts under the listing's filters. */
  method FindAllCorrected(f: Filters, listDb: Outcome<seq<Row>>, countDb: Outcome<seq<Row>>)
    returns (list: Query, count: Query, r: Outcome<(seq<Row>, Value)>)
    ensures list == ListQuery(f) && count == CountQuery(f)
    ensures Paired(list) && Paired(count)
    ensures !Defined(f.limit) ==> list.params == FindAllParams(f)
    ensures r.Ok? <==> listDb.Ok? && countDb.Ok?
    ensures r.Ok? ==> r.value == (FormatAll(listDb.value), TotalOf(countDb.value))
  {
    var conditions, queryParams, countParams := FindAllFilters(f);
    var query := AppendWhere(SelectAll, conditions);
    var countQuery := AppendWhere(CountAll, conditions);
    query := query + [Word(" ORDER BY student_id")];
    query, queryParams := AppendPagination(query, queryParams, f);
    list := Query(query, queryParams);
    count := Query(countQuery, countParams);
    ListQueryPaired(f);
    CountQueryPaired(f);
    if listDb.Throws? || countDb.Throws? {
      r := Throws;
    } else {
      r := Ok((FormatAll(listDb.value), TotalOf(countDb.value)));
    }
  }


  // ---------------------------------------------------------------------
  // create
  // ---------------------------------------------------------------------

  /** `String(Number(maxId) + 1).padStart(3, '0')` */
  function NextStudentId(maxId: nat): (id: string)
    ensures |id| >= 3
  {
    PadStart(NatToString(maxId + 1), 3, '0')
  }

  /** The allocated id reads back as the largest id plus one: it is made of
      decimal digits, and `parseInt` recovers `maxId + 1` from it. */
  lemma NextStudentIdParses(maxId: nat)
    ensures ParseInt10(NextStudentId(maxId)) == Int(maxId + 1)
    ensures forall i :: 0 <= i < |NextStudentId(maxId)| ==> '0' <= NextStudentId(maxId)[i] <= '9'
  {
    ParseIntOfZeroPadded(maxId + 1, 3);
    var id := NextStudentId(maxId);
    ZeroPaddedDigits(NatToString(maxId + 1), 3);
    forall i | 0 <= i < |id| ensures '0' <= id[i] <= '9' {
      assert IsDigitIn(id[i], 10);
    }
  }

  /** Distinct largest ids give distinct new ids. */
  lemma NextStudentIdInjective(m: nat, n: nat)
    requires NextStudentId(m) == NextStudentId(n)
    ensures m == n
  {
    NextStudentIdParses(m);
    NextStudentIdParses(n);
  }

  /** The first id of an empty table is "001". */
  lemma FirstStudentId()
    ensures NextStudentId(0) == "001"
  {
    assert NatToString(1) == ['1'];
  }

  /** Padding never truncates: the id after 999 is "1000". */
  lemma StudentIdAfter999()
    ensures NextStudentId(999) == "1000"
  {
    assert NatToString(1) == ['1'];
    assert NatToString(10) == ['1', '0'];
    assert NatToString(100) == ['1', '0', '0'];
    assert NatToString(1000) == ['1', '0', '0', '0'];
  }

  /** `result[0]?.max_id || 0`, the largest numeric id (NULL on an empty table). */
  function MaxOrZero(maxId: Option<nat>): nat {
    if maxId.Some? then maxId.value else 0
  }

  const MaxIdQuery := Query([Word("SELECT MAX(CAST(student_id AS UNSIGNED)) as max_id FROM students")], [])

  /** `x ? new Date(x) : null` */
  function DateOrNull(x: Opt<string>): Value {
    if Truthy(x) then VDate(x.v) else VNull
  }

  /** The 19 values of the INSERT, in column order. */
  function InsertParams(id: string, studentId: string, d: CreateStudentDto): (p: seq<Value>)
    ensures |p| == 19
  {
    [ VText(id),
      VText(studentId),
      TextValue(d.student_name_lao),
      VText(OrElse(d.guardian_phone, "")),
      TextValue(d.gender),
      VText(OrElse(d.province, "")),
      VText(OrElse(d.district, "")),
      VText(OrElse(d.village, "")),
      VText(OrElse(d.id_number, "")),
      DateOrNull(d.id_issued_date),
      VText(OrElse(d.birth_village, "")),
      VText(OrElse(d.birth_district, "")),
      VText(OrElse(d.birth_province, "")),
      VText(OrElse(d.ethnicity, "")),
      VText(OrElse(d.religion, "")),
      VText(OrElse(d.nationality, "ລາວ")),
      DateOrNull(d.date_of_birth),
      VText(OrElse(d.phone_number, "")),
      VText(OrElse(d.photo_url, "")) ]
  }

  const InsertHead: seq<Tok> := [Word("INSERT INTO students (id, student_id, student_name_lao, guardian_phone, gender, province, district, village, id_number, id_issued_date, birth_village, birth_district, birth_province, ethnicity, religion, nationality, date_of_birth, phone_number, photo_url) VALUES (")]

  /** An INSERT with one placeholder per value. */
  function InsertStatement(params: seq<Value>): (q: Query)
    ensures Paired(q) && q.params == params
  {
    var holes := HoleList(|params|, ", ");
    HolesConcat(InsertHead, holes);
    HolesConcat(InsertHead + holes, [Word(")")]);
    Query(InsertHead + holes + [Word(")")], params)
  }

  function InsertQuery(id: string, studentId: string, d: CreateStudentDto): (q: Query)
    ensures Paired(q) && q.params == InsertParams(id, studentId, d)
  {
    InsertStatement(InsertParams(id, studentId, d))
  }

  /** What is stored for omitted address fields: '' for the optional text
      fields and null for the issue date. */
  lemma InsertDefaultsAddress(id: string, studentId: string, d: CreateStudentDto)
    ensures var p := InsertParams(id, studentId, d);
      && (!Truthy(d.guardian_phone) ==> p[3] == VText(""))
      && (!Truthy(d.province) ==> p[5] == VText(""))
      && (!Truthy(d.district) ==> p[6] == VText(""))
      && (!Truthy(d.village) ==> p[7] == VText(""))
      && (!Truthy(d.id_number) ==> p[8] == VText(""))
      && (!Truthy(d.id_issued_date) ==> p[9] == VNull)
  {
  }

  /** The two ids come first; for the omitted origin fields '' is stored
      for the optional text fields, 'ລາວ' for the nationality and null for the date of birth. */
  lemma InsertDefaultsOrigin(id: string, studentId: string, d: CreateStudentDto)
    ensures var p := InsertParams(id, studentId, d);
      && p[0] == VText(id) && p[1] == VText(studentId)
      && (!Truthy(d.birth_village) ==> p[10] == VText(""))
      && (!Truthy(d.birth_district) ==> p[11] == VText(""))
      && (!Truthy(d.birth_province) ==> p[12] == VText(""))
      && (!Truthy(d.ethnicity) ==> p[13] == VText(""))
      && (!Truthy(d.religion) ==> p[14] == VText(""))
      && (!Truthy(d.nationality) ==> p[15] == VText("ລາວ"))
      && (!Truthy(d.date_of_birth) ==> p[16] == VNull)
      && (!Truthy(d.phone_number) ==> p[17] == VText(""))
      && (!Truthy(d.photo_url) ==> p[18] == VText(""))
  {
  }

  /** Creates a student and answers its fresh internal id (not the student
      id). A truthy supplied student id is stored verbatim; otherwise the
      next one after the largest numeric id is allocated. */
  method Create(uuid: string, d: CreateStudentDto, maxDb: Outcome<Option<nat>>, insertDb: Outcome<()>)
    returns (queries: seq<Query>, r: Outcome<string>)
    ensures forall i :: 0 <= i < |queries| ==> Paired(queries[i])
    ensures Truthy(d.student_id) ==>
      queries == [InsertQuery(uuid, d.student_id.v, d)] && r == (if insertDb.Ok? then Ok(uuid) else Throws)
    ensures !Truthy(d.student_id) && maxDb.Throws? ==> queries == [MaxIdQuery] && r.Throws?
    ensures !Truthy(d.student_id) && maxDb.Ok? ==>
      queries == [MaxIdQuery, InsertQuery(uuid, NextStudentId(MaxOrZero(maxDb.value)), d)]
      && r == (if insertDb.Ok? then Ok(uuid) else Throws)
  {
    var id := uuid;
    var studentId := d.student_id;
    queries := [];
    if !Truthy(studentId) {
      queries := queries + [MaxIdQuery];
      if maxDb.Throws? {
        assert Paired(MaxIdQuery);
        return queries, Throws;
      }
      var maxId := MaxOrZero(maxDb.value);
      studentId := Val(NextStudentId(maxId));
    }
    var insert := InsertQuery(id, studentId.v, d);
    queries := queries + [insert];
    forall i | 0 <= i < |queries|
      ensures Paired(queries[i])
    {
      assert queries[i] == MaxIdQuery || queries[i] == insert;
    }
    if insertDb.Throws? {
      return queries, Throws;
    }
    r := Ok(id);
  }

  // ---------------------------------------------------------------------
  // update
  // ---------------------------------------------------------------------

  /** The columns of `students` an update may assign. */
  datatype StudentColumn =
    | StudentNameLao | GuardianPhone | Gender | Province | District | Village | IdNumber
    | IdIssuedDate | BirthVillage | BirthDistrict | BirthProvince | Ethnicity | Religion
    | Nationality | DateOfBirth | PhoneNumber | PhotoUrl

  function ColumnName(c: StudentColumn): string {
    match c
    case StudentNameLao => "student_name_lao"
    case GuardianPhone => "guardian_phone"
    case Gender => "gender"
    case Province => "province"
    case District => "district"
    case Village => "village"
    case IdNumber => "id_number"
    case IdIssuedDate => "id_issued_date"
    case BirthVillage => "birth_village"
    case BirthDistrict => "birth_district"
    case BirthProvince => "birth_province"
    case Ethnicity => "ethnicity"
    case Religion => "religion"
    case Nationality => "nationality"
    case DateOfBirth => "date_of_birth"
    case PhoneNumber => "phone_number"
    case PhotoUrl => "photo_url"
  }

  /** The field of the update that feeds a column. */
  function FieldOf(d: UpdateStudentDto, c: StudentColumn): Opt<string> {
    match c
    case StudentNameLao => d.student_name_lao
    case GuardianPhone => d.guardian_phone
    case Gender => d.gender
    case Province => d.province
    case District => d.district
    case Village => d.village
    case IdNumber => d.id_number
    case IdIssuedDate => d.id_issued_date
    case BirthVillage => d.birth_village
    case BirthDistrict => d.birth_district
    case BirthProvince => d.birth_province
    case Ethnicity => d.ethnicity
    case Religion => d.religion
    case Nationality => d.nationality
    case DateOfBirth => d.date_of_birth
    case PhoneNumber => d.phone_number
    case PhotoUrl => d.photo_url
  }

  predicate IsDateColumn(c: StudentColumn) {
    c == IdIssuedDate || c == DateOfBirth
  }

  /** Whether the update asks for a column: a text field whenever it is not
      undefined (null and '' included), a date only when it is truthy. */
  predicate Asks(d: UpdateStudentDto, c: StudentColumn) {
    if IsDateColumn(c) then Truthy(FieldOf(d, c)) else Defined(FieldOf(d, c))
  }

  /** The candidate assignment of one column: `x !== undefined` for a text
      field, `x ? new Date(x) : undefined` for a date. */
  function SlotFor(d: UpdateStudentDto, c: StudentColumn): (s: Slot<StudentColumn>)
    ensures s.column == c && (s.value.Some? <==> Asks(d, c))
  {
    var x := FieldOf(d, c);
    if IsDateColumn(c) then Slot(c, if Truthy(x) then Some(VDate(x.v)) else None)
    else Slot(c, if Defined(x) then Some(TextValue(x)) else None)
  }

  /** The position at which the source tests each column. */
  function Position(c: StudentColumn): (k: nat)
    ensures k < 17
  {
    match c
    case StudentNameLao => 0 case GuardianPhone => 1 case Gender => 2 case Province => 3
    case District => 4 case Village => 5 case IdNumber => 6 case IdIssuedDate => 7
    case BirthVillage => 8 case BirthDistrict => 9 case BirthProvince => 10 case Ethnicity => 11
    case Religion => 12 case Nationality => 13 case DateOfBirth => 14 case PhoneNumber => 15
    case PhotoUrl => 16
  }

  /** The column checked at a position. */
  function ColumnAt(k: nat): (c: StudentColumn)
    requires k < 17
    ensures Position(c) == k
  {
    [ StudentNameLao, GuardianPhone, Gender, Province, District, Village, IdNumber,
      IdIssuedDate, BirthVillage, BirthDistrict, BirthProvince, Ethnicity, Religion,
      Nationality, DateOfBirth, PhoneNumber, PhotoUrl ][k]
  }

  lemma ColumnAtPosition(c: StudentColumn)
    ensures ColumnAt(Position(c)) == c
  {
  }

  /** The 17 candidate assignments, in the order the source tests them. */
  function UpdateSlots(d: UpdateStudentDto): (s: seq<Slot<StudentColumn>>)
    ensures |s| == 17
    ensures forall k :: 0 <= k < 17 ==> s[k] == SlotFor(d, ColumnAt(k))
  {
    seq(17, k requires 0 <= k < 17 => SlotFor(d, ColumnAt(k)))
  }

  const UpdateHead: seq<Tok> := [Word("UPDATE students SET ")]

  function UpdateQuery(id: string, d: UpdateStudentDto): Query {
    UpdateById(UpdateHead, SetFrags(UpdateSlots(d), ColumnName), SetValues(UpdateSlots(d)), VText(id))
  }

  /** The seventeen `if (... !== undefined) { updateFields.push(...); values.push(...); }`
      blocks of the update, one per slot, in order. */
  method PushSeventeen(s: seq<Slot<StudentColumn>>) returns (values: seq<Value>, updateFields: seq<seq<Tok>>)
    requires |s| == 17
    ensures updateFields == SetFrags(s, ColumnName) && values == SetValues(s)
  {
    values, updateFields := PushFirstNine(s);
    values, updateFields := PushLastEight(s, values, updateFields);
    assert s[..17] == s;
  }

  /** The blocks of the first nine slots. */
  method PushFirstNine(s: seq<Slot<StudentColumn>>) returns (values: seq<Value>, updateFields: seq<seq<Tok>>)
    requires |s| == 17
    ensures updateFields == SetFrags(s[..9], ColumnName) && values == SetValues(s[..9])
  {
    values := [];
    updateFields := [];
    assert s[..0] == [];
    updateFields, values := PushSlot(updateFields, values, s, 0, s[0], ColumnName);
    updateFields, values := PushSlot(updateFields, values, s, 1, s[1], ColumnName);
    updateFields, values := PushSlot(updateFields, values, s, 2, s[2], ColumnName);
    updateFields, values := PushSlot(updateFields, values, s, 3, s[3], ColumnName);
    updateFields, values := PushSlot(updateFields, values, s, 4, s[4], ColumnName);
    updateFields, values := PushSlot(updateFields, values, s, 5, s[5], ColumnName);
    updateFields, values := PushSlot(updateFields, values, s, 6, s[6], ColumnName);
    updateFields, values := PushSlot(updateFields, values, s, 7, s[7], ColumnName);
    updateFields, values := PushSlot(updateFields, values, s, 8, s[8], ColumnName);
  }

  /** The blocks of the last eight slots, after the first nine. */
  method PushLastEight(s: seq<Slot<StudentColumn>>, values0: seq<Value>, updateFields0: seq<seq<Tok>>)
    returns (values: seq<Value>, updateFields: seq<seq<Tok>>)
    requires |s| == 17
    requires updateFields0 == SetFrags(s[..9], ColumnName) && values0 == SetValues(s[..9])
    ensures updateFields == SetFrags(s[..17], ColumnName) && values == SetValues(s[..17])
  {
    values, updateFields := values0, updateFields0;
    updateFields, values := PushSlot(updateFields, values, s, 9, s[9], ColumnName);
    updateFields, values := PushSlot(updateFields, values, s, 10, s[10], ColumnName);
    updateFields, values := PushSlot(updateFields, values, s, 11, s[11], ColumnName);
    updateFields, values := PushSlot(updateFields, values, s, 12, s[12], ColumnName);
    updateFields, values := PushSlot(updateFields, values, s, 13, s[13], ColumnName);
    updateFields, values := PushSlot(updateFields, values, s, 14, s[14], ColumnName);
    updateFields, values := PushSlot(updateFields, values, s, 15, s[15], ColumnName);
    updateFields, values := PushSlot(updateFields, values, s, 16, s[16], ColumnName);
  }

  /** Updates the given fields of a student. No field to set answers false
      without a statement; otherwise one `column = ?` per field, in the
      fixed order, with the id as the last parameter, and the answer is
      whether a row was affected. */
  method Update(id: string, d: UpdateStudentDto, db: Outcome<nat>) returns (q: Option<Query>, r: Outcome<bool>)
    ensures SetColumns(UpdateSlots(d)) == [] ==> q == None && r == Ok(false)
    ensures SetColumns(UpdateSlots(d)) != [] ==>
      && q == Some(UpdateQuery(id, d))
      && Paired(q.value)
      && q.value.params == SetValues(UpdateSlots(d)) + [VText(id)]
      && r == AffectedAny(db)
  {
    var s := UpdateSlots(d);
    SetAligned(s, ColumnName);
    var values, updateFields := PushSeventeen(s);
    if |updateFields| == 0 {
      return None, Ok(false);
    }
    var query := UpdateHead + JoinToks(updateFields, ", ") + [Word(" WHERE id = "), Hole];
    values := values + [VText(id)];
    q := Some(Query(query, values));
    UpdateByIdPaired(UpdateHead, SetFrags(s, ColumnName), SetValues(s), VText(id));
    r := AffectedAny(db);
  }

  /** A column is set exactly when its field asks for it: a text column
      whenever its field is not undefined, a date column only when its field
      is truthy (a null or '' date leaves the column untouched). */
  lemma UpdateColumns(d: UpdateStudentDto, c: StudentColumn)
    ensures c in SetColumns(UpdateSlots(d)) <==> Asks(d, c)
  {
    var s := UpdateSlots(d);
    var k := Position(c);
    ColumnAtPosition(c);
    SetColumnsAt(s, k);
  }

  /** An update sets nothing exactly when no field asks for its column. */
  lemma UpdateNothing(d: UpdateStudentDto)
    ensures SetColumns(UpdateSlots(d)) == [] <==> forall c :: !Asks(d, c)
  {
    var s := UpdateSlots(d);
    SetColumnsEmpty(s);
    if SetColumns(s) == [] {
      forall c ensures !Asks(d, c) {
        ColumnAtPosition(c);
        assert s[Position(c)] == SlotFor(d, c);
      }
    }
  }
}
