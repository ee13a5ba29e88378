/** The report handlers (`controllers/reportController.ts`): the parsing of
    `year_id` and `limit`, the `totalAmount` sum, the empty fallback of the
    financial report and the 500 answer of every handler. Each handler is a
    function of the results of the model calls it awaits, a call that
    throws being `Throws`. The report model catches its own errors and
    answers empty or zero results instead, so with it every handler answers
    200; the 500 and fallback paths are those of the handlers as written. */
module ReportController {
  import opened Js
  import opened Sql
  import opened Http
  import opened ReportModel

  datatype ReportMessage =
    | StudentReportError | FinancialReportError | AcademicReportError | AllReportsError
    | TrendsError | AttendanceError | ExamError | PerformanceError | RegistrationReportError

  datatype ReportData =
    | StudentReports(studentsByGender: GenderCounts, studentsByLevel: seq<Row>, tuitionStatus: TuitionCounts, studentList: seq<Row>)
    | FinancialReports(monthlyPayments: seq<Row>, totalAmount: JsValue, financialReport: seq<Row>)
    | AcademicReports(classAverages: seq<Row>, gradesByClass: seq<Row>, gradesByLevel: seq<Row>)
    | AllReports(
        studentsByGender: GenderCounts, studentsByLevel: seq<Row>, tuitionStatus: TuitionCounts,
        monthlyPayments: seq<Row>, totalAmount: JsValue, classAverages: seq<Row>, studentList: seq<Row>,
        attendanceList: seq<Row>, gradesByClass: seq<Row>, gradesByLevel: seq<Row>,
        registration: seq<Row>, financialReport: seq<Row>)
    | StudentTrends(studentTrends: seq<Row>)
    | AttendanceReports(attendanceReports: seq<Row>, attendanceList: seq<Row>)
    | ExamComparisons(examComparisons: seq<Row>)
    | StudentPerformance(studentPerformance: seq<Performance>)
    | RegistrationReports(registration: seq<Row>)

  // ---------------------------------------------------------------------
  // query parameters
  // ---------------------------------------------------------------------

  /** `year_id ? parseInt(year_id) : undefined`, as the report model takes it. */
  function YearIdOf(yearId: Opt<string>): Option<Num> {
    if Truthy(yearId) then Some(ParseInt(yearId.v)) else None
  }

  /** A year id written in digits reaches the model as that number, and an
      absent or empty one as no year; "0" parses to 0, which the model's
      `if (year_id)` then ignores as it ignores no year. */
  lemma YearIdOfDigits(n: nat)
    ensures YearIdOf(Val(NatToString(n))) == Some(Int(n))
    ensures YearIdOf(Undef) == None && YearIdOf(Val("")) == None
  {
    ParseIntOfNatToString(n);
  }

  /** `limit ? parseInt(limit) : 10` */
  function LimitOf(limit: Opt<string>): Num {
    if Truthy(limit) then ParseInt(limit.v) else Int(10)
  }

  /** Without a limit the performance report lists ten students; a limit
      in digits is taken as written. */
  lemma LimitOfDefault(n: nat)
    ensures LimitOf(Undef) == Int(10) && LimitOf(Val("")) == Int(10)
    ensures LimitOf(Val(NatToString(n))) == Int(n)
  {
    ParseIntOfNatToString(n);
  }

  // ---------------------------------------------------------------------
  // totalAmount
  // ---------------------------------------------------------------------

  /** The values a row can carry from the database driver: text, numbers,
      booleans, null and a missing column. `SUM(amount)` arrives as the text
      of a decimal, or null for a month without amounts. */
  predicate Primitive(v: Value) {
    v.VText? || v.VInt? || v.VNaN? || v.VBool? || v.VNull? || v.VUndefined?
  }

  predicate PrimitiveAmounts(rows: seq<Row>) {
    forall i :: 0 <= i < |rows| ==> Primitive(Get(rows[i], "amount"))
  }

  /** What `sum + item.amount` can be in JavaScript: a number or a string. */
  datatype JsValue = JsNumber(n: Num) | JsText(t: string)

  /** `String(n)` */
  function NumText(n: Num): string {
    if n.NaN? then "NaN" else IntToString(n.value)
  }

  /** `String(v)` for a primitive value. */
  function ValueText(v: Value): string
    requires Primitive(v)
  {
    match v
    case VText(s) => s
    case VInt(i) => IntToString(i)
    case VNaN => "NaN"
    case VBool(b) => if b then "true" else "false"
    case VNull => "null"
    case VUndefined => "undefined"
  }

  /** The digits of a decimal's text after the sign: a whole number,
      optionally followed by a point and zeros. Any other text, a fraction
      that is not zero among them, is NaN here. */
  function UnsignedDecimal(u: string): Num {
    var n := DigitRun(u, 10);
    if n == 0 then NaN
    else if n == |u| then Int(DigitsValue(u, 10))
    else if u[n] == '.' && forall i :: n < i < |u| ==> u[i] == '0' then Int(DigitsValue(u[..n], 10))
    else NaN
  }

  /** `Number(s)` (section 7.1.4.1.1 of ECMA-262) for the texts of whole
      amounts: surrounding white space is ignored, the empty text is 0,
      and one sign may lead. */
  function DecimalValue(s: string): Num {
    var t := Trim(s);
    if t == "" then Int(0)
    else if t[0] == '-' then Negate(UnsignedDecimal(t[1..]))
    else if t[0] == '+' then UnsignedDecimal(t[1..])
    else UnsignedDecimal(t)
  }

  /** `Number(v)` for a primitive value. */
  function ToNumber(v: Value): Num
    requires Primitive(v)
  {
    match v
    case VText(s) => DecimalValue(s)
    case VInt(i) => Int(i)
    case VNaN => NaN
    case VBool(b) => if b then Int(1) else Int(0)
    case VNull => Int(0)
    case VUndefined => NaN
  }

  /** Addition of numbers; NaN absorbs. */
  function NumAdd(a: Num, b: Num): (r: Num)
    ensures r.Int? <==> a.Int? && b.Int?
    ensures r.Int? ==> r.value == a.value + b.value
  {
    if a.NaN? || b.NaN? then NaN else Int(a.value + b.value)
  }

  /** JavaScript's `acc + v`: a string on either side makes the other a
      string and concatenates; otherwise both are added as numbers. */
  function Plus(acc: JsValue, v: Value): JsValue
    requires Primitive(v)
  {
    match acc
    case JsText(t) => JsText(t + ValueText(v))
    case JsNumber(n) =>
      if v.VText? then JsText(NumText(n) + v.s) else JsNumber(NumAdd(n, ToNumber(v)))
  }

  /** `monthlyData.reduce((sum, item) => sum + item.amount, 0)` as written:
      a fold from the left, starting at the number 0. */
  function TotalAmountAsWritten(rows: seq<Row>): JsValue
    requires PrimitiveAmounts(rows)
  {
    if rows == [] then JsNumber(Int(0))
    else Plus(TotalAmountAsWritten(rows[..|rows| - 1]), Get(rows[|rows| - 1], "amount"))
  }

  /** The amount texts of the rows, one after the other. */
  function AmountTexts(rows: seq<Row>): string
    requires TextAmounts(rows)
  {
    if rows == [] then "" else AmountTexts(rows[..|rows| - 1]) + Get(rows[|rows| - 1], "amount").s
  }

  /** As written, the total is a string exactly when some month's amount
      is text; with the driver's decimal texts it always is. */
  lemma {:induction false} TotalTextIffSomeText(rows: seq<Row>)
    requires PrimitiveAmounts(rows)
    ensures TotalAmountAsWritten(rows).JsText? <==> exists i :: 0 <= i < |rows| && Get(rows[i], "amount").VText?
  {
    if rows != [] {
      var front := rows[..|rows| - 1];
      assert forall i :: 0 <= i < |front| ==> front[i] == rows[i];
      TotalTextIffSomeText(front);
      if TotalAmountAsWritten(rows).JsText? && !Get(rows[|rows| - 1], "amount").VText? {
        var i :| 0 <= i < |front| && Get(front[i], "amount").VText?;
        assert Get(rows[i], "amount").VText?;
      }
      if !TotalAmountAsWritten(rows).JsText? {
        forall i | 0 <= i < |rows|
          ensures !Get(rows[i], "amount").VText?
        {
          if i < |front| {
            assert rows[i] == front[i];
          }
        }
      }
    }
  }

  predicate TextAmounts(rows: seq<Row>) {
    forall i :: 0 <= i < |rows| ==> Get(rows[i], "amount").VText?
  }

  /** As written, months whose amounts are all text give "0" followed by
      their texts run together, not their sum. */
  lemma {:induction false} TextAmountsConcatenate(rows: seq<Row>)
    requires rows != [] && TextAmounts(rows)
    ensures PrimitiveAmounts(rows)
    ensures TotalAmountAsWritten(rows) == JsText("0" + AmountTexts(rows))
  {
    var front := rows[..|rows| - 1];
    var last := Get(rows[|rows| - 1], "amount");
    assert TextAmounts(front) by {
      assert forall i :: 0 <= i < |front| ==> front[i] == rows[i];
    }
    if front == [] {
      assert TotalAmountAsWritten(front) == JsNumber(Int(0));
      assert AmountTexts(front) == "";
    } else {
      TextAmountsConcatenate(front);
    }
    assert TotalAmountAsWritten(rows) == Plus(TotalAmountAsWritten(front), last);
    assert AmountTexts(rows) == AmountTexts(front) + last.s;
    assert "0" + AmountTexts(front) + last.s == "0" + (AmountTexts(front) + last.s);
  }

  /** Two months of 150000.00 and 200000.00 kip total the text
      "0150000.00200000.00" as written. */
  lemma DecimalTotalAsWritten(x: string, y: string)
    requires x == "150000.00" && y == "200000.00"
    ensures var rows := [map["amount" := VText(x)], map["amount" := VText(y)]];
      PrimitiveAmounts(rows) && TotalAmountAsWritten(rows) == JsText("0150000.00200000.00")
  {
    var first, second := map["amount" := VText(x)], map["amount" := VText(y)];
    assert Get(first, "amount") == VText(x) && Get(second, "amount") == VText(y);
    AsWrittenOfTwo(first, second);
    assert NumText(Int(0)) == "0";
    DecimalTexts(x, y);
  }

  lemma DecimalTexts(x: string, y: string)
    requires x == "150000.00" && y == "200000.00"
    ensures "0" + x + y == "0150000.00200000.00"
  {
  }

  lemma AsWrittenOfTwo(first: Row, second: Row)
    requires Primitive(Get(first, "amount")) && Primitive(Get(second, "amount"))
    ensures PrimitiveAmounts([first, second])
    ensures TotalAmountAsWritten([first, second]) == Plus(Plus(JsNumber(Int(0)), Get(first, "amount")), Get(second, "amount"))
  {
    var rows := [first, second];
    assert rows[..1] == [first] && [first][..0] == [];
    assert PrimitiveAmounts([first]) && PrimitiveAmounts(rows);
    assert TotalAmountAsWritten([first]) == Plus(TotalAmountAsWritten([]), Get(first, "amount"));
    assert TotalAmountAsWritten(rows) == Plus(TotalAmountAsWritten([first]), Get(second, "amount"));
  }

  /** The total as intended: the amounts read as numbers and added. */
  function TotalAmount(rows: seq<Row>): Num
    requires PrimitiveAmounts(rows)
  {
    if rows == [] then Int(0)
    else NumAdd(TotalAmount(rows[..|rows| - 1]), ToNumber(Get(rows[|rows| - 1], "amount")))
  }

  /** Where no amount is text, the total as written is the intended sum. */
  lemma {:induction false} AsWrittenAgreesOnNumbers(rows: seq<Row>)
    requires PrimitiveAmounts(rows)
    requires forall i :: 0 <= i < |rows| ==> !Get(rows[i], "amount").VText?
    ensures TotalAmountAsWritten(rows) == JsNumber(TotalAmount(rows))
  {
    if rows != [] {
      var front := rows[..|rows| - 1];
      assert forall i :: 0 <= i < |front| ==> front[i] == rows[i];
      AsWrittenAgreesOnNumbers(front);
    }
  }

  /** A whole number written with a point and any zeros reads back as
      that number. */
  lemma DecimalOfWholeNumber(n: nat, k: nat)
    ensures DecimalValue(NatToString(n) + "." + Repeat('0', k)) == Int(n)
  {
    var d := NatToString(n);
    var s := d + "." + Repeat('0', k);
    assert s[0] == d[0] && !IsSpace(s[0]) && s[0] != '-' && s[0] != '+';
    assert !IsSpace(s[|s| - 1]) by {
      if k == 0 { assert s[|s| - 1] == '.'; } else { assert s[|s| - 1] == Repeat('0', k)[k - 1]; }
    }
    TrimUnpadded(s);
    UnsignedOfWholeNumber(n, k);
  }

  lemma UnsignedOfWholeNumber(n: nat, k: nat)
    ensures UnsignedDecimal(NatToString(n) + "." + Repeat('0', k)) == Int(n)
  {
    var d := NatToString(n);
    var z := "." + Repeat('0', k);
    var s := d + z;
    assert s == d + "." + Repeat('0', k);
    DigitRunOfDigits(d, z);
    assert s[..|d|] == d;
    assert s[|d|] == '.';
    assert forall i :: |d| < i < |s| ==> s[i] == Repeat('0', k)[i - |d| - 1];
    DigitsValueOfNatToString(n);
  }

  /** The digit run of digits followed by a non-digit ends at the non-digit. */
  lemma {:induction false} DigitRunOfDigits(d: string, rest: string)
    requires forall i :: 0 <= i < |d| ==> IsDigitIn(d[i], 10)
    requires rest != [] && !IsDigitIn(rest[0], 10)
    ensures DigitRun(d + rest, 10) == |d|
  {
    if d != [] {
      assert (d + rest)[1..] == d[1..] + rest;
      DigitRunOfDigits(d[1..], rest);
    }
  }

  /** Read as numbers, two months whose sums arrive as whole kip with
      cents ".00" (150000.00 and 200000.00, say) total their sum. */
  lemma TwoMonthsCorrected(a: nat, b: nat)
    ensures var rows := [map["amount" := VText(NatToString(a) + ".00")], map["amount" := VText(NatToString(b) + ".00")]];
      PrimitiveAmounts(rows) && TotalAmount(rows) == Int(a + b)
  {
    var first, second := map["amount" := VText(NatToString(a) + ".00")], map["amount" := VText(NatToString(b) + ".00")];
    assert Get(first, "amount") == VText(NatToString(a) + ".00");
    assert Get(second, "amount") == VText(NatToString(b) + ".00");
    DecimalWithCents(NatToString(a) + ".00", a);
    DecimalWithCents(NatToString(b) + ".00", b);
    TotalAmountOfTwo(first, second);
  }

  lemma TotalAmountOfTwo(first: Row, second: Row)
    requires Primitive(Get(first, "amount")) && Primitive(Get(second, "amount"))
    ensures PrimitiveAmounts([first, second])
    ensures TotalAmount([first, second]) == NumAdd(NumAdd(Int(0), ToNumber(Get(first, "amount"))), ToNumber(Get(second, "amount")))
  {
    var rows := [first, second];
    assert rows[..1] == [first] && [first][..0] == [];
    assert PrimitiveAmounts([first]) && PrimitiveAmounts(rows);
    assert TotalAmount([first]) == NumAdd(TotalAmount([]), ToNumber(Get(first, "amount")));
    assert TotalAmount(rows) == NumAdd(TotalAmount([first]), ToNumber(Get(second, "amount")));
  }

  lemma DecimalWithCents(s: string, n: nat)
    requires s == NatToString(n) + ".00"
    ensures DecimalValue(s) == Int(n)
  {
    DecimalOfWholeNumber(n, 2);
    assert Repeat('0', 2) == "00";
    assert NatToString(n) + "." + "00" == s;
  }

  /** The intended total of two runs of months is the sum of their totals. */
  lemma {:induction false} TotalAmountAppend(a: seq<Row>, b: seq<Row>)
    requires PrimitiveAmounts(a) && PrimitiveAmounts(b)
    ensures PrimitiveAmounts(a + b)
    ensures TotalAmount(a + b) == NumAdd(TotalAmount(a), TotalAmount(b))
  {
    assert forall i :: 0 <= i < |a + b| ==> (a + b)[i] == if i < |a| then a[i] else b[i - |a|];
    if b == [] {
      assert a + b == a;
    } else {
      var front := b[..|b| - 1];
      assert PrimitiveAmounts(front);
      assert (a + b)[..|a + b| - 1] == a + front;
      assert (a + b)[|a + b| - 1] == b[|b| - 1];
      TotalAmountAppend(a, front);
    }
  }

  /** Summed from the first month instead, the intended total is the same. */
  lemma TotalAmountFromFirst(rows: seq<Row>)
    requires PrimitiveAmounts(rows) && rows != []
    ensures PrimitiveAmounts(rows[1..])
    ensures TotalAmount(rows) == NumAdd(ToNumber(Get(rows[0], "amount")), TotalAmount(rows[1..]))
  {
    assert rows == [rows[0]] + rows[1..];
    assert PrimitiveAmounts([rows[0]]) && PrimitiveAmounts(rows[1..]);
    TotalAmountAppend([rows[0]], rows[1..]);
    assert [rows[0]][..0] == [];
  }

  /** With every amount a number that is not negative, the intended total
      is a number, not negative, and no month exceeds it. */
  lemma {:induction false} TotalAmountBounds(rows: seq<Row>)
    requires PrimitiveAmounts(rows)
    requires forall i :: 0 <= i < |rows| ==> ToNumber(Get(rows[i], "amount")).Int? && ToNumber(Get(rows[i], "amount")).value >= 0
    ensures TotalAmount(rows).Int? && TotalAmount(rows).value >= 0
    ensures forall i :: 0 <= i < |rows| ==> ToNumber(Get(rows[i], "amount")).value <= TotalAmount(rows).value
  {
    if rows != [] {
      var front := rows[..|rows| - 1];
      assert forall i :: 0 <= i < |front| ==> front[i] == rows[i];
      TotalAmountBounds(front);
    }
  }

  // ---------------------------------------------------------------------
  // handlers
  // ---------------------------------------------------------------------

  /** `getStudentReports`: the four reports, or 500 if any call throws. */
  function GetStudentReports(gender: Outcome<GenderCounts>, levels: Outcome<seq<Row>>,
                             tuition: Outcome<TuitionCounts>, list: Outcome<seq<Row>>): (r: Response<ReportMessage, ReportData>)
    ensures r.status == 200 <==> gender.Ok? && levels.Ok? && tuition.Ok? && list.Ok?
    ensures r.status == 200 ==> r.success && r.data == Some(StudentReports(gender.value, levels.value, tuition.value, list.value))
    ensures r.status != 200 ==> r == Fail(500, StudentReportError)
  {
    if gender.Throws? || levels.Throws? || tuition.Throws? || list.Throws? then Fail(500, StudentReportError)
    else Succeed(200, None, Some(StudentReports(gender.value, levels.value, tuition.value, list.value)))
  }

  /** `getFinancialReports`: the monthly payments, their total and the
      monthly table. When a call throws the inner handler answers success
      with empty lists and a zero total, so this handler never answers 500. */
  function GetFinancialReports(monthly: Outcome<seq<Row>>, report: Outcome<seq<Row>>): (r: Response<ReportMessage, ReportData>)
    requires monthly.Ok? ==> PrimitiveAmounts(monthly.value)
    ensures r.status == 200 && r.success
    ensures monthly.Ok? && report.Ok? ==> r.data == Some(FinancialReports(monthly.value, TotalAmountAsWritten(monthly.value), report.value))
    ensures monthly.Throws? || report.Throws? ==> r.data == Some(FinancialReports([], JsNumber(Int(0)), []))
  {
    if monthly.Throws? then Succeed(200, None, Some(FinancialReports([], JsNumber(Int(0)), [])))
    else
      var totalAmount := TotalAmountAsWritten(monthly.value);
      if report.Throws? then Succeed(200, None, Some(FinancialReports([], JsNumber(Int(0)), [])))
      else Succeed(200, None, Some(FinancialReports(monthly.value, totalAmount, report.value)))
  }

  /** The fallback is the report of a year without payments. */
  lemma FinancialFallbackIsEmptyReport(report: Outcome<seq<Row>>)
    ensures GetFinancialReports(Throws, report) == GetFinancialReports(Ok([]), Ok([]))
  {
  }

  /** `getAcademicReports`: the three reports, or 500. */
  function GetAcademicReports(classes: Outcome<seq<Row>>, byClass: Outcome<seq<Row>>, byLevel: Outcome<seq<Row>>): (r: Response<ReportMessage, ReportData>)
    ensures r.status == 200 <==> classes.Ok? && byClass.Ok? && byLevel.Ok?
    ensures r.status == 200 ==> r.data == Some(AcademicReports(classes.value, byClass.value, byLevel.value))
    ensures r.status != 200 ==> r == Fail(500, AcademicReportError)
  {
    if classes.Throws? || byClass.Throws? || byLevel.Throws? then Fail(500, AcademicReportError)
    else Succeed(200, None, Some(AcademicReports(classes.value, byClass.value, byLevel.value)))
  }

  /** The eleven results `getAllReports` awaits together. */
  datatype AllResults = AllResults(
    gender: Outcome<GenderCounts>, levels: Outcome<seq<Row>>, tuition: Outcome<TuitionCounts>,
    monthly: Outcome<seq<Row>>, classes: Outcome<seq<Row>>, list: Outcome<seq<Row>>,
    attendance: Outcome<seq<Row>>, byClass: Outcome<seq<Row>>, byLevel: Outcome<seq<Row>>,
    registration: Outcome<seq<Row>>, financial: Outcome<seq<Row>>)

  predicate AllOk(a: AllResults) {
    a.gender.Ok? && a.levels.Ok? && a.tuition.Ok? && a.monthly.Ok? && a.classes.Ok? && a.list.Ok?
    && a.attendance.Ok? && a.byClass.Ok? && a.byLevel.Ok? && a.registration.Ok? && a.financial.Ok?
  }

  /** `getAllReports`: every report and the total of the monthly payments,
      or 500 when any of the calls throws (there is no inner fallback). */
  function GetAllReports(a: AllResults): (r: Response<ReportMessage, ReportData>)
    requires a.monthly.Ok? ==> PrimitiveAmounts(a.monthly.value)
    ensures r.status == 200 <==> AllOk(a)
    ensures r.status == 200 ==>
      && r.data.Some? && r.data.value.AllReports?
      && r.data.value.totalAmount == TotalAmountAsWritten(a.monthly.value)
      && r.data.value.monthlyPayments == a.monthly.value
      && r.data.value.financialReport == a.financial.value
    ensures r.status != 200 ==> r == Fail(500, AllReportsError)
  {
    if !AllOk(a) then Fail(500, AllReportsError)
    else
      var totalAmount := TotalAmountAsWritten(a.monthly.value);
      Succeed(200, None, Some(AllReports(
        a.gender.value, a.levels.value, a.tuition.value, a.monthly.value, totalAmount, a.classes.value,
        a.list.value, a.attendance.value, a.byClass.value, a.byLevel.value, a.registration.value, a.financial.value)))
  }

  /** Both handlers answer the same total and the same monthly table. */
  lemma AllAgreesWithFinancial(a: AllResults)
    requires AllOk(a) && PrimitiveAmounts(a.monthly.value)
    ensures GetAllReports(a).data.value.totalAmount == GetFinancialReports(a.monthly, a.financial).data.value.totalAmount
    ensures GetAllReports(a).data.value.financialReport == GetFinancialReports(a.monthly, a.financial).data.value.financialReport
  {
  }

  /** A failing financial table answers 500 from `getAllReports` but an empty
      success from `getFinancialReports`. */
  lemma FallbackOnlyInFinancial(a: AllResults)
    requires a.monthly.Ok? && PrimitiveAmounts(a.monthly.value) && a.financial.Throws?
    ensures GetAllReports(a).status == 500
    ensures GetFinancialReports(a.monthly, a.financial).status == 200
  {
  }

  /** `getStudentTrends`, `getExamComparisons` and `getRegistrationReports`:
      one report, or 500. */
  function GetOneReport(fetched: Outcome<seq<Row>>, wrap: seq<Row> -> ReportData, m: ReportMessage): (r: Response<ReportMessage, ReportData>)
    ensures r.status == 200 <==> fetched.Ok?
    ensures fetched.Ok? ==> r.success && r.data == Some(wrap(fetched.value))
    ensures fetched.Throws? ==> r == Fail(500, m)
  {
    if fetched.Throws? then Fail(500, m) else Succeed(200, None, Some(wrap(fetched.value)))
  }

  function GetStudentTrends(fetched: Outcome<seq<Row>>): Response<ReportMessage, ReportData> {
    GetOneReport(fetched, rows => StudentTrends(rows), TrendsError)
  }

  function GetExamComparisons(fetched: Outcome<seq<Row>>): Response<ReportMessage, ReportData> {
    GetOneReport(fetched, rows => ExamComparisons(rows), ExamError)
  }

  function GetRegistrationReports(fetched: Outcome<seq<Row>>): Response<ReportMessage, ReportData> {
    GetOneReport(fetched, rows => RegistrationReports(rows), RegistrationReportError)
  }

  /** `getAttendanceReports`: the attendance summary and list, or 500. */
  function GetAttendanceReports(summary: Outcome<seq<Row>>, list: Outcome<seq<Row>>): (r: Response<ReportMessage, ReportData>)
    ensures r.status == 200 <==> summary.Ok? && list.Ok?
    ensures r.status == 200 ==> r.data == Some(AttendanceReports(summary.value, list.value))
    ensures r.status != 200 ==> r == Fail(500, AttendanceError)
  {
    if summary.Throws? || list.Throws? then Fail(500, AttendanceError)
    else Succeed(200, None, Some(AttendanceReports(summary.value, list.value)))
  }

  /** `getStudentPerformance`: the model is asked for `LimitOf(limit)`
      students; its answer, or 500. */
  function GetStudentPerformance(limit: Opt<string>, fetched: Outcome<seq<Performance>>): (r: (Option<Num>, Response<ReportMessage, ReportData>))
    ensures r.0 == Some(LimitOf(limit))
    ensures r.1.status == 200 <==> fetched.Ok?
    ensures fetched.Ok? ==> r.1.data == Some(StudentPerformance(fetched.value))
    ensures fetched.Throws? ==> r.1 == Fail(500, PerformanceError)
  {
    (Some(LimitOf(limit)), if fetched.Throws? then Fail(500, PerformanceError) else Succeed(200, None, Some(StudentPerformance(fetched.value))))
  }
}
