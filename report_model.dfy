/** The report queries of the back end (`reportModel.ts`). Every report turns
    its optional filters into a list of conditions and a parallel list of
    parameters, appends ` WHERE ` and the conditions joined with ` AND ` when
    there is at least one, adds its fixed GROUP BY / ORDER BY tail, and
    answers an empty result (or a zero record) when the database throws. */
module ReportModel {
  import opened Js
  import opened Sql

  // ---------------------------------------------------------------------
  // Filters and their specification
  // ---------------------------------------------------------------------

  /** One optional filter of a report: the text of its condition before the
      `?`, and the argument it tests. */
  datatype Filter =
    | YearFilter(prefix: string, year: Option<Num>)   // `if (year_id)`
    | TextFilter(prefix: string, text: Opt<string>)   // `if (x && x !== 'all')`

  /** Whether the filter pushes a condition: a year that is a nonzero number,
      or a non-empty text other than 'all'. */
  predicate Active(f: Filter) {
    match f
    case YearFilter(_, y) => y.Some? && y.value.Int? && y.value.value != 0
    case TextFilter(_, t) => Truthy(t) && t.v != "all"
  }

  /** The parameter an active filter pushes. */
  function Param(f: Filter): Value
    requires Active(f)
  {
    match f
    case YearFilter(_, y) => VInt(y.value.value)
    case TextFilter(_, t) => VText(t.v)
  }

  /** The active filters, in order. */
  function ActiveFilters(fs: seq<Filter>): (a: seq<Filter>)
    ensures |a| <= |fs|
    ensures forall i :: 0 <= i < |a| ==> Active(a[i])
  {
    if fs == [] then []
    else (if Active(fs[0]) then [fs[0]] else []) + ActiveFilters(fs[1..])
  }

  /** The conditions a filter list pushes. */
  function Conds(fs: seq<Filter>): seq<seq<Tok>> {
    if fs == [] then []
    else (if Active(fs[0]) then [Placeholder(fs[0].prefix)] else []) + Conds(fs[1..])
  }

  /** The parameters a filter list pushes. */
  function Params(fs: seq<Filter>): seq<Value> {
    if fs == [] then []
    else (if Active(fs[0]) then [Param(fs[0])] else []) + Params(fs[1..])
  }

  /** The i-th parameter belongs to the i-th condition: both lists are the
      active filters, in order, each giving one condition and one value. */
  lemma {:induction false} CondsParamsAligned(fs: seq<Filter>)
    ensures |Conds(fs)| == |Params(fs)| == |ActiveFilters(fs)|
    ensures forall i :: 0 <= i < |ActiveFilters(fs)| ==>
      Conds(fs)[i] == Placeholder(ActiveFilters(fs)[i].prefix) && Params(fs)[i] == Param(ActiveFilters(fs)[i])
  {
    if fs != [] {
      CondsParamsAligned(fs[1..]);
      var rest := fs[1..];
      if Active(fs[0]) {
        var a, c, p := ActiveFilters(fs), Conds(fs), Params(fs);
        assert a == [fs[0]] + ActiveFilters(rest);
        assert c == [Placeholder(fs[0].prefix)] + Conds(rest);
        assert p == [Param(fs[0])] + Params(rest);
        forall i | 1 <= i < |a|
          ensures c[i] == Placeholder(a[i].prefix) && p[i] == Param(a[i])
        {
          assert a[i] == ActiveFilters(rest)[i - 1];
          assert c[i] == Conds(rest)[i - 1];
          assert p[i] == Params(rest)[i - 1];
        }
      } else {
        assert ActiveFilters(fs) == ActiveFilters(rest);
        assert Conds(fs) == Conds(rest);
        assert Params(fs) == Params(rest);
      }
    }
  }

  /** Every condition carries exactly one placeholder. */
  lemma {:induction false} HolesConds(fs: seq<Filter>)
    ensures HolesAll(Conds(fs)) == |Params(fs)|
  {
    if fs != [] {
      HolesConds(fs[1..]);
      var first := if Active(fs[0]) then [Placeholder(fs[0].prefix)] else [];
      HolesAllConcat(first, Conds(fs[1..]));
      if Active(fs[0]) {
        assert HolesAll(first) == 1 by { assert first[1..] == []; }
      }
    }
  }

  /** Filters contribute independently: the conditions of a concatenation
      are the concatenation of the conditions. */
  lemma {:induction false} CondsConcat(a: seq<Filter>, b: seq<Filter>)
    ensures Conds(a + b) == Conds(a) + Conds(b)
  {
    if a == [] {
      assert a + b == b;
    } else {
      var ab := a + b;
      assert ab[0] == a[0] && ab[1..] == a[1..] + b;
      CondsConcat(a[1..], b);
      var first := if Active(a[0]) then [Placeholder(a[0].prefix)] else [];
      calc {
        Conds(ab);
        first + Conds(a[1..] + b);
        first + (Conds(a[1..]) + Conds(b));
        (first + Conds(a[1..])) + Conds(b);
      }
    }
  }

  /** The parameters of a concatenation are the concatenation of the parameters. */
  lemma {:induction false} ParamsConcat(a: seq<Filter>, b: seq<Filter>)
    ensures Params(a + b) == Params(a) + Params(b)
  {
    if a == [] {
      assert a + b == b;
    } else {
      var ab := a + b;
      assert ab[0] == a[0] && ab[1..] == a[1..] + b;
      ParamsConcat(a[1..], b);
      var first := if Active(a[0]) then [Param(a[0])] else [];
      calc {
        Params(ab);
        first + Params(a[1..] + b);
        first + (Params(a[1..]) + Params(b));
        (first + Params(a[1..])) + Params(b);
      }
    }
  }

  /** An absent, empty, 'all' or falsy filter adds no condition and no
      parameter, wherever it stands in the list. */
  lemma InactiveAddsNothing(a: seq<Filter>, f: Filter, b: seq<Filter>)
    requires !Active(f)
    ensures Conds(a + [f] + b) == Conds(a + b)
    ensures Params(a + [f] + b) == Params(a + b)
  {
    CondsConcat(a + [f], b);
    CondsConcat(a, [f]);
    CondsConcat(a, b);
    ParamsConcat(a + [f], b);
    ParamsConcat(a, [f]);
    ParamsConcat(a, b);
    assert Conds([f]) == [] && Params([f]) == [] by {
      assert [f][1..] == [];
    }
  }

  /** A filter list with no active filter yields no WHERE at all. */
  lemma NoActiveNoWhere(fs: seq<Filter>)
    requires forall i :: 0 <= i < |fs| ==> !Active(fs[i])
    ensures Where(Conds(fs)) == [] && Params(fs) == []
  {
    CondsParamsAligned(fs);
    NoActiveFilters(fs);
  }

  lemma {:induction false} NoActiveFilters(fs: seq<Filter>)
    requires forall i :: 0 <= i < |fs| ==> !Active(fs[i])
    ensures ActiveFilters(fs) == []
  {
    if fs != [] {
      NoActiveFilters(fs[1..]);
    }
  }

  /** The query a report issues: its fixed head, the WHERE clause of its
      active filters, then its fixed tail; the tail may carry placeholders of
      its own whose values follow the filter parameters. */
  function Filtered(head: seq<Tok>, fs: seq<Filter>, tail: seq<Tok>, extra: seq<Value>): Query {
    Query(head + Where(Conds(fs)) + tail, Params(fs) + extra)
  }

  /** A report query always has exactly one parameter per placeholder. */
  lemma FilteredPaired(head: seq<Tok>, fs: seq<Filter>, tail: seq<Tok>, extra: seq<Value>)
    requires Holes(head) == 0 && Holes(tail) == |extra|
    ensures Paired(Filtered(head, fs, tail, extra))
  {
    HolesConcat(head, Where(Conds(fs)));
    HolesConcat(head + Where(Conds(fs)), tail);
    HolesWhere(Conds(fs));
    HolesConds(fs);
  }

  /** WHERE appears right after the head exactly when a filter is active, and
      the tail (the GROUP BY / ORDER BY clauses) always comes last. */
  lemma FilteredShape(head: seq<Tok>, fs: seq<Filter>, tail: seq<Tok>, extra: seq<Value>)
    ensures var q := Filtered(head, fs, tail, extra);
      q.sql[..|head|] == head
      && q.sql[|q.sql| - |tail|..] == tail
      && (|q.sql| > |head| + |tail| <==> ActiveFilters(fs) != [])
      && (|q.sql| > |head| + |tail| ==> q.sql[|head|] == Word(" WHERE "))
  {
    CondsParamsAligned(fs);
    var q := Filtered(head, fs, tail, extra);
    assert q.sql == head + Where(Conds(fs)) + tail;
  }

  // ---------------------------------------------------------------------
  // The builder steps
  // ---------------------------------------------------------------------

  /** `if (<active>) { conditions.push(<cond>); params.push(<value>); }` */
  method PushFilter(conditions: seq<seq<Tok>>, params: seq<Value>, ghost done: seq<Filter>, f: Filter)
    returns (conditions': seq<seq<Tok>>, params': seq<Value>)
    requires conditions == Conds(done) && params == Params(done)
    ensures conditions' == Conds(done + [f]) && params' == Params(done + [f])
  {
    CondsConcat(done, [f]);
    ParamsConcat(done, [f]);
    assert [f][1..] == [];
    conditions', params' := conditions, params;
    if Active(f) {
      conditions' := conditions' + [Placeholder(f.prefix)];
      params' := params' + [Param(f)];
    }
  }

  /** Builds the query of a report with up to three filters, in the order
      the source tests them. */
  method BuildQuery(head: seq<Tok>, fs: seq<Filter>, tail: seq<Tok>, extra: seq<Value>) returns (q: Query)
    requires |fs| <= 3
    ensures q == Filtered(head, fs, tail, extra)
  {
    var conditions: seq<seq<Tok>> := [];
    var params: seq<Value> := [];
    if |fs| > 0 {
      conditions, params := PushFilter(conditions, params, [], fs[0]);
    }
    if |fs| > 1 {
      conditions, params := PushFilter(conditions, params, fs[..1], fs[1]);
      assert fs[..1] + [fs[1]] == fs[..2];
    }
    if |fs| > 2 {
      conditions, params := PushFilter(conditions, params, fs[..2], fs[2]);
      assert fs[..2] + [fs[2]] == fs[..3];
    }
    assert fs[..|fs|] == fs;
    var sql := AppendWhere(head, conditions);
    sql := sql + tail;
    params := params + extra;
    q := Query(sql, params);
  }

  /** The rows of a query, or none when the database throws. */
  function RowsOr<T>(db: Outcome<seq<T>>): seq<T> {
    if db.Ok? then db.value else []
  }

  // ---------------------------------------------------------------------
  // The reports
  // ---------------------------------------------------------------------

  function StudentListFilters(yearId: Option<Num>, levelId: Opt<string>, classId: Opt<string>): seq<Filter> {
    [YearFilter("r.school_year= ", yearId), TextFilter("r.level = ", levelId), TextFilter("r.classroom = ", classId)]
  }

  const StudentListHead: seq<Tok> := [Word("SELECT <student list> FROM students s JOIN registrations r ON s.id = r.student_id")]

  method GetStudentList(yearId: Option<Num>, levelId: Opt<string>, classId: Opt<string>, db: Outcome<seq<Row>>)
    returns (q: Query, rows: seq<Row>)
    ensures q == Filtered(StudentListHead, StudentListFilters(yearId, levelId, classId), [Word(" ORDER BY s.student_name_lao")], [])
    ensures Paired(q)
    ensures rows == RowsOr(db)
  {
    q := BuildQuery(StudentListHead, StudentListFilters(yearId, levelId, classId), [Word(" ORDER BY s.student_name_lao")], []);
    FilteredPaired(StudentListHead, StudentListFilters(yearId, levelId, classId), [Word(" ORDER BY s.student_name_lao")], []);
    rows := RowsOr(db);
  }

  /** The three filters on the registration's year, level and class ids. */
  function IdFilters(yearId: Option<Num>, levelId: Opt<string>, classId: Opt<string>): seq<Filter> {
    [YearFilter("r.year_id = ", yearId), TextFilter("r.level_id = ", levelId), TextFilter("r.class_id = ", classId)]
  }

  const AttendanceListHead: seq<Tok> := [Word("SELECT <attendance list> FROM students s JOIN registrations r ON s.id = r.student_id JOIN levels l ON r.level_id = l.id JOIN classes c ON r.class_id = c.id LEFT JOIN attendances a ON r.id = a.registration_id")]

  method GetAttendanceList(yearId: Option<Num>, levelId: Opt<string>, classId: Opt<string>, db: Outcome<seq<Row>>)
    returns (q: Query, rows: seq<Row>)
    ensures q == Filtered(AttendanceListHead, IdFilters(yearId, levelId, classId), [Word(" GROUP BY s.id ORDER BY attendance DESC")], [])
    ensures Paired(q)
    ensures rows == RowsOr(db)
  {
    q := BuildQuery(AttendanceListHead, IdFilters(yearId, levelId, classId), [Word(" GROUP BY s.id ORDER BY attendance DESC")], []);
    FilteredPaired(AttendanceListHead, IdFilters(yearId, levelId, classId), [Word(" GROUP BY s.id ORDER BY attendance DESC")], []);
    rows := RowsOr(db);
  }

  const GradesByClassHead: seq<Tok> := [Word("SELECT <grades by class> FROM students s JOIN registrations r ON s.id = r.student_id JOIN levels l ON r.level_id = l.id JOIN classes c ON r.class_id = c.id")]

  method GetGradesByClass(yearId: Option<Num>, levelId: Opt<string>, classId: Opt<string>, db: Outcome<seq<Row>>)
    returns (q: Query, rows: seq<Row>)
    ensures q == Filtered(GradesByClassHead, IdFilters(yearId, levelId, classId), [Word(" ORDER BY average DESC")], [])
    ensures Paired(q)
    ensures rows == RowsOr(db)
  {
    q := BuildQuery(GradesByClassHead, IdFilters(yearId, levelId, classId), [Word(" ORDER BY average DESC")], []);
    FilteredPaired(GradesByClassHead, IdFilters(yearId, levelId, classId), [Word(" ORDER BY average DESC")], []);
    rows := RowsOr(db);
  }

  /** The year and level filters on the registration's ids. */
  function YearLevelFilters(yearId: Option<Num>, levelId: Opt<string>): seq<Filter> {
    [YearFilter("r.year_id = ", yearId), TextFilter("r.level_id = ", levelId)]
  }

  const GradesByLevelHead: seq<Tok> := [Word("SELECT <grades by level> FROM registrations r JOIN levels l ON r.level_id = l.id JOIN classes c ON r.class_id = c.id")]

  method GetGradesByLevel(yearId: Option<Num>, levelId: Opt<string>, db: Outcome<seq<Row>>)
    returns (q: Query, rows: seq<Row>)
    ensures q == Filtered(GradesByLevelHead, YearLevelFilters(yearId, levelId), [Word(" GROUP BY c.id, r.level_id, r.year_id ORDER BY l.id, c.id")], [])
    ensures Paired(q)
    ensures rows == RowsOr(db)
  {
    q := BuildQuery(GradesByLevelHead, YearLevelFilters(yearId, levelId), [Word(" GROUP BY c.id, r.level_id, r.year_id ORDER BY l.id, c.id")], []);
    FilteredPaired(GradesByLevelHead, YearLevelFilters(yearId, levelId), [Word(" GROUP BY c.id, r.level_id, r.year_id ORDER BY l.id, c.id")], []);
    rows := RowsOr(db);
  }

  const RegistrationDataHead: seq<Tok> := [Word("SELECT <registration data> FROM registrations r JOIN students s ON r.student_id = s.id JOIN levels l ON r.level_id = l.id JOIN classes c ON r.class_id = c.id")]

  method GetRegistrationData(yearId: Option<Num>, levelId: Opt<string>, classId: Opt<string>, db: Outcome<seq<Row>>)
    returns (q: Query, rows: seq<Row>)
    ensures q == Filtered(RegistrationDataHead, IdFilters(yearId, levelId, classId), [Word(" ORDER BY r.registration_date DESC")], [])
    ensures Paired(q)
    ensures rows == RowsOr(db)
  {
    q := BuildQuery(RegistrationDataHead, IdFilters(yearId, levelId, classId), [Word(" ORDER BY r.registration_date DESC")], []);
    FilteredPaired(RegistrationDataHead, IdFilters(yearId, levelId, classId), [Word(" ORDER BY r.registration_date DESC")], []);
    rows := RowsOr(db);
  }

  const FinancialHead: seq<Tok> := [Word("SELECT <financial report> FROM financial_transactions")]

  method GetFinancialReportByMonth(yearId: Option<Num>, month: Opt<string>, db: Outcome<seq<Row>>)
    returns (q: Query, rows: seq<Row>)
    ensures q == Filtered(FinancialHead, [YearFilter("academic_year_id = ", yearId), TextFilter("MONTH(transaction_date) = ", month)],
                          [Word(" GROUP BY MONTH(transaction_date), academic_year_id ORDER BY MONTH(transaction_date)")], [])
    ensures Paired(q)
    ensures rows == RowsOr(db)
  {
    var fs := [YearFilter("academic_year_id = ", yearId), TextFilter("MONTH(transaction_date) = ", month)];
    var tail := [Word(" GROUP BY MONTH(transaction_date), academic_year_id ORDER BY MONTH(transaction_date)")];
    q := BuildQuery(FinancialHead, fs, tail, []);
    FilteredPaired(FinancialHead, fs, tail, []);
    rows := RowsOr(db);
  }

  /** `{ male, female, total }` as counted by the database. */
  datatype GenderCounts = GenderCounts(male: int, female: int, total: int)

  const GenderHead: seq<Tok> := [Word("SELECT <gender counts> FROM students s JOIN registrations r ON s.student_id = r.student_id")]

  function GenderFilters(yearId: Option<Num>, levelId: Opt<string>, classId: Opt<string>): seq<Filter> {
    [YearFilter("r.school_year = ", yearId), TextFilter("r.level= ", levelId), TextFilter("r.classroom = ", classId)]
  }

  /** The first row of the counts, and zero counts when there is no row or
      the database throws. */
  method GetStudentsByGender(yearId: Option<Num>, levelId: Opt<string>, classId: Opt<string>, db: Outcome<seq<GenderCounts>>)
    returns (q: Query, r: GenderCounts)
    ensures q == Filtered(GenderHead, GenderFilters(yearId, levelId, classId), [], [])
    ensures Paired(q)
    ensures db.Ok? && |db.value| > 0 ==> r == db.value[0]
    ensures db.Throws? || db.value == [] ==> r == GenderCounts(0, 0, 0)
  {
    q := BuildQuery(GenderHead, GenderFilters(yearId, levelId, classId), [], []);
    FilteredPaired(GenderHead, GenderFilters(yearId, levelId, classId), [], []);
    if db.Throws? {
      r := GenderCounts(0, 0, 0);
    } else if |db.value| > 0 {
      r := db.value[0];
    } else {
      r := GenderCounts(0, 0, 0);
    }
  }

  /** `!level_id || level_id === 'all' || level_id === 'null'`: the level of
      `getStudentsByYear` is ignored. */
  predicate LevelIgnored(levelId: Opt<string>) {
    !Truthy(levelId) || levelId.v == "all" || levelId.v == "null"
  }

  /** The registrations query of `getStudentsByYear`. */
  function YearRegistrationsQuery(year: int, levelId: Opt<string>): (q: Query)
    ensures Paired(q)
    ensures LevelIgnored(levelId) <==> |q.params| == 1
  {
    if LevelIgnored(levelId) then
      var q := Query([Word("SELECT student_id FROM registrations WHERE school_year = "), Hole], [VInt(year)]);
      assert q.sql[1..][1..] == [];
      q
    else
      var q := Query([Word("SELECT student_id FROM registrations WHERE school_year = "), Hole, Word(" AND level = "), Hole], [VInt(year), VText(levelId.v)]);
      assert q.sql[1..][1..][1..][1..] == [];
      q
  }

  /** `rows.map(row => row.student_id)` */
  function StudentIds(rows: seq<Row>): (ids: seq<Value>)
    ensures |ids| == |rows| && forall i :: 0 <= i < |rows| ==> ids[i] == Get(rows[i], "student_id")
  {
    if rows == [] then [] else [Get(rows[0], "student_id")] + StudentIds(rows[1..])
  }

  /** The students query of `getStudentsByYear`: one placeholder per id. */
  function StudentsInQuery(ids: seq<Value>): (q: Query)
    ensures Paired(q) && q.params == ids
  {
    var q := Query([Word("SELECT <student columns> FROM students WHERE student_id IN (")] + HoleList(|ids|, ",") + [Word(")")], ids);
    HolesConcat([Word("SELECT <student columns> FROM students WHERE student_id IN (")], HoleList(|ids|, ","));
    HolesConcat([Word("SELECT <student columns> FROM students WHERE student_id IN (")] + HoleList(|ids|, ","), [Word(")")]);
    q
  }

  /** The students registered in a year (and level), found in two queries.
      A falsy year answers [] without a query; a throwing query answers [];
      no registration answers [] without the second query. */
  method GetStudentsByYear(yearId: Option<Num>, levelId: Opt<string>, regDb: Outcome<seq<Row>>, studentDb: Outcome<seq<Row>>)
    returns (queries: seq<Query>, result: seq<Row>)
    ensures !(yearId.Some? && yearId.value.Int? && yearId.value.value != 0) ==> queries == [] && result == []
    ensures yearId.Some? && yearId.value.Int? && yearId.value.value != 0 ==>
      && |queries| >= 1
      && queries[0] == YearRegistrationsQuery(yearId.value.value, levelId)
      && (regDb.Throws? || regDb.value == [] ==> |queries| == 1 && result == [])
      && (regDb.Ok? && regDb.value != [] ==>
            |queries| == 2 && queries[1] == StudentsInQuery(StudentIds(regDb.value)) && result == RowsOr(studentDb))
  {
    if !(yearId.Some? && yearId.value.Int? && yearId.value.value != 0) {
      return [], [];
    }
    var registrations := YearRegistrationsQuery(yearId.value.value, levelId);
    queries := [registrations];
    result := [];
    if regDb.Ok? {
      var studentIds := StudentIds(regDb.value);
      if |studentIds| != 0 {
        var students := StudentsInQuery(studentIds);
        queries := [registrations, students];
        result := RowsOr(studentDb);
      }
    }
  }

  const StudentsByLevelHead: seq<Tok> := [Word("SELECT <students per level> FROM levels l LEFT JOIN registrations r ON l.id = r.level")]

  method GetStudentsByLevel(yearId: Option<Num>, db: Outcome<seq<Row>>)
    returns (q: Query, rows: seq<Row>)
    ensures q == Filtered(StudentsByLevelHead, [YearFilter("r.school_year = ", yearId)], [Word(" GROUP BY l.id ORDER BY l.id")], [])
    ensures Paired(q)
    ensures rows == RowsOr(db)
  {
    q := BuildQuery(StudentsByLevelHead, [YearFilter("r.school_year = ", yearId)], [Word(" GROUP BY l.id ORDER BY l.id")], []);
    FilteredPaired(StudentsByLevelHead, [YearFilter("r.school_year = ", yearId)], [Word(" GROUP BY l.id ORDER BY l.id")], []);
    rows := RowsOr(db);
  }

  /** `{ paid, unpaid, total }` as counted by the database. */
  datatype TuitionCounts = TuitionCounts(paid: int, unpaid: int, total: int)

  const TuitionHead: seq<Tok> := [Word("SELECT <tuition counts> FROM registrations")]

  function TuitionFilters(yearId: Option<Num>, levelId: Opt<string>, classId: Opt<string>): seq<Filter> {
    [YearFilter("school_year = ", yearId), TextFilter("level = ", levelId), TextFilter("classroom = ", classId)]
  }

  /** The first row of the counts, and zero counts when there is no row or
      the database throws. */
  method GetTuitionStatus(yearId: Option<Num>, levelId: Opt<string>, classId: Opt<string>, db: Outcome<seq<TuitionCounts>>)
    returns (q: Query, r: TuitionCounts)
    ensures q == Filtered(TuitionHead, TuitionFilters(yearId, levelId, classId), [], [])
    ensures Paired(q)
    ensures db.Ok? && |db.value| > 0 ==> r == db.value[0]
    ensures db.Throws? || db.value == [] ==> r == TuitionCounts(0, 0, 0)
  {
    q := BuildQuery(TuitionHead, TuitionFilters(yearId, levelId, classId), [], []);
    FilteredPaired(TuitionHead, TuitionFilters(yearId, levelId, classId), [], []);
    if db.Throws? {
      r := TuitionCounts(0, 0, 0);
    } else if |db.value| > 0 {
      r := db.value[0];
    } else {
      r := TuitionCounts(0, 0, 0);
    }
  }

  const MonthlyPaymentsHead: seq<Tok> := [Word("SELECT <monthly payments> FROM payments")]

  method GetMonthlyPayments(yearId: Option<Num>, month: Opt<string>, db: Outcome<seq<Row>>)
    returns (q: Query, rows: seq<Row>)
    ensures q == Filtered(MonthlyPaymentsHead, [YearFilter("academic_year_id = ", yearId), TextFilter("MONTH(payment_date) = ", month)],
                          [Word(" GROUP BY MONTH(payment_date) ORDER BY MONTH(payment_date)")], [])
    ensures Paired(q)
    ensures rows == RowsOr(db)
  {
    var fs := [YearFilter("academic_year_id = ", yearId), TextFilter("MONTH(payment_date) = ", month)];
    var tail := [Word(" GROUP BY MONTH(payment_date) ORDER BY MONTH(payment_date)")];
    q := BuildQuery(MonthlyPaymentsHead, fs, tail, []);
    FilteredPaired(MonthlyPaymentsHead, fs, tail, []);
    rows := RowsOr(db);
  }

  const ClassAveragesHead: seq<Tok> := [Word("SELECT <class averages> FROM classes c JOIN levels l ON c.level_id = l.id JOIN registrations r ON c.id = r.class_id")]

  method GetClassAverages(yearId: Option<Num>, levelId: Opt<string>, db: Outcome<seq<Row>>)
    returns (q: Query, rows: seq<Row>)
    ensures q == Filtered(ClassAveragesHead, YearLevelFilters(yearId, levelId), [Word(" GROUP BY c.id ORDER BY l.id, c.id")], [])
    ensures Paired(q)
    ensures rows == RowsOr(db)
  {
    q := BuildQuery(ClassAveragesHead, YearLevelFilters(yearId, levelId), [Word(" GROUP BY c.id ORDER BY l.id, c.id")], []);
    FilteredPaired(ClassAveragesHead, YearLevelFilters(yearId, levelId), [Word(" GROUP BY c.id ORDER BY l.id, c.id")], []);
    rows := RowsOr(db);
  }

  const StudentTrendsHead: seq<Tok> := [Word("SELECT <students per year> FROM school_years ay LEFT JOIN registrations r ON ay.id = r.year_id GROUP BY ay.id ORDER BY ay.id")]

  /** The one report without filters: a fixed query with no parameters. */
  method GetStudentTrends(db: Outcome<seq<Row>>) returns (q: Query, rows: seq<Row>)
    ensures q == Query(StudentTrendsHead, []) && Paired(q)
    ensures rows == RowsOr(db)
  {
    q := Query(StudentTrendsHead, []);
    rows := RowsOr(db);
  }

  const AttendanceReportsHead: seq<Tok> := [Word("SELECT <attendance per month> FROM attendances a JOIN registrations r ON a.registration_id = r.id")]

  method GetAttendanceReports(yearId: Option<Num>, classId: Opt<string>, db: Outcome<seq<Row>>)
    returns (q: Query, rows: seq<Row>)
    ensures q == Filtered(AttendanceReportsHead, [YearFilter("r.year_id = ", yearId), TextFilter("r.class_id = ", classId)],
                          [Word(" GROUP BY MONTH(date) ORDER BY MONTH(date)")], [])
    ensures Paired(q)
    ensures rows == RowsOr(db)
  {
    var fs := [YearFilter("r.year_id = ", yearId), TextFilter("r.class_id = ", classId)];
    q := BuildQuery(AttendanceReportsHead, fs, [Word(" GROUP BY MONTH(date) ORDER BY MONTH(date)")], []);
    FilteredPaired(AttendanceReportsHead, fs, [Word(" GROUP BY MONTH(date) ORDER BY MONTH(date)")], []);
    rows := RowsOr(db);
  }

  const ExamComparisonsHead: seq<Tok> := [Word("SELECT <exam comparisons> FROM exams e JOIN subjects s ON e.subject_id = s.id JOIN registrations r ON e.registration_id = r.id JOIN levels l ON r.level_id = l.id JOIN classes c ON r.class_id = c.id")]

  method GetExamComparisons(yearId: Option<Num>, levelId: Opt<string>, db: Outcome<seq<Row>>)
    returns (q: Query, rows: seq<Row>)
    ensures q == Filtered(ExamComparisonsHead, YearLevelFilters(yearId, levelId), [Word(" GROUP BY s.id, r.class_id ORDER BY s.name, l.id, c.id")], [])
    ensures Paired(q)
    ensures rows == RowsOr(db)
  {
    q := BuildQuery(ExamComparisonsHead, YearLevelFilters(yearId, levelId), [Word(" GROUP BY s.id, r.class_id ORDER BY s.name, l.id, c.id")], []);
    FilteredPaired(ExamComparisonsHead, YearLevelFilters(yearId, levelId), [Word(" GROUP BY s.id, r.class_id ORDER BY s.name, l.id, c.id")], []);
    rows := RowsOr(db);
  }

  // ---------------------------------------------------------------------
  // Student performance: a limited query, then one subjects query per student
  // ---------------------------------------------------------------------

  const PerformanceHead: seq<Tok> := [Word("SELECT <student averages> FROM students s JOIN registrations r ON s.id = r.student_id")]
  const PerformanceTail: seq<Tok> := [Word(" ORDER BY r.average_score DESC LIMIT "), Hole]

  /** A student's row together with the subject rows attached to it. */
  datatype Performance = Performance(student: Row, subjects: seq<Row>)

  const SubjectsPrefix := "SELECT sub.name AS subject_name, e.score FROM exams e JOIN subjects sub ON e.subject_id = sub.id WHERE e.registration_id IN (SELECT id FROM registrations WHERE student_id = "

  /** The subjects query issued for one student: its id is the only parameter. */
  function SubjectsQuery(student: Row): (q: Query)
    ensures Paired(q) && q.params == [Get(student, "student_id")]
  {
    HolesConcat(Placeholder(SubjectsPrefix), [Word(")")]);
    assert Holes([Word(")")]) == 0;
    Query(Placeholder(SubjectsPrefix) + [Word(")")], [Get(student, "student_id")])
  }

  /** Attaches to every student the subjects its own query returned; a
      failing subjects query gives that student, and no other, no subjects. */
  function AttachSubjects(rows: seq<Row>, subjectsDb: Value -> Outcome<seq<Row>>): (r: seq<Performance>)
    ensures |r| == |rows|
    ensures forall i :: 0 <= i < |rows| ==> r[i].student == rows[i]
    ensures forall i :: 0 <= i < |rows| ==> r[i].subjects == RowsOr(subjectsDb(Get(rows[i], "student_id")))
  {
    if rows == [] then []
    else [Performance(rows[0], RowsOr(subjectsDb(Get(rows[0], "student_id"))))] + AttachSubjects(rows[1..], subjectsDb)
  }

  /** `limit` is the last parameter, after every filter parameter; it is 10
      when the caller passes none. */
  method GetStudentPerformance(yearId: Option<Num>, classId: Opt<string>, limit: Option<Num>,
                               db: Outcome<seq<Row>>, subjectsDb: Value -> Outcome<seq<Row>>)
    returns (q: Query, result: seq<Performance>)
    ensures var lim := if limit.Some? then limit.value else Int(10);
      q == Filtered(PerformanceHead, [YearFilter("r.year_id = ", yearId), TextFilter("r.class_id = ", classId)], PerformanceTail, [NumValue(lim)])
      && q.params[|q.params| - 1] == NumValue(lim)
    ensures Paired(q)
    ensures db.Throws? ==> result == []
    ensures db.Ok? ==> result == AttachSubjects(db.value, subjectsDb)
  {
    var lim := if limit.Some? then limit.value else Int(10);
    var fs := [YearFilter("r.year_id = ", yearId), TextFilter("r.class_id = ", classId)];
    assert Holes(PerformanceTail) == 1 by { assert PerformanceTail[1..][1..] == []; }
    q := BuildQuery(PerformanceHead, fs, PerformanceTail, [NumValue(lim)]);
    FilteredPaired(PerformanceHead, fs, PerformanceTail, [NumValue(lim)]);
    if db.Throws? {
      result := [];
    } else {
      result := AttachSubjects(db.value, subjectsDb);
    }
  }
}
