/** The academic-year handlers (`controllers/yearController.ts`). Creation
    and update fill the request body in place, as the handlers do, before
    handing it to the model: the name from the period, the dates from a
    period written "A-B" (or, on creation, from the clock), and `is_current`
    false unless given. The clock reading is a parameter. */
module YearController {
  import opened Js
  import opened Sql
  import opened Http
  import opened YearModel

  datatype YearMessage = MissingFields | DuplicatePeriod | NotFound | NotWritten | Created | Updated | Deleted | ServerError

  datatype YearReply = Years(years: seq<YearData>) | Year(year: YearData)

  // ---------------------------------------------------------------------
  // The period "A-B"
  // ---------------------------------------------------------------------

  /** `period.split('-').map(y => parseInt(y.trim()))` and then
      `startYear && endYear`: the two years when the first two pieces both
      parse to non-zero numbers. A missing second piece is undefined, as
      falsy as NaN. */
  function PeriodYears(period: string): (r: Option<(int, int)>)
    ensures r.Some? ==> r.value.0 != 0 && r.value.1 != 0
  {
    var parts := Split(period, '-');
    var startYear := ParseInt(Trim(parts[0]));
    var endYear := if |parts| > 1 then ParseInt(Trim(parts[1])) else NaN;
    if startYear.Int? && startYear.value != 0 && endYear.Int? && endYear.value != 0
    then Some((startYear.value, endYear.value))
    else None
  }

  lemma DigitsUnpadded(n: nat)
    ensures Unpadded(NatToString(n)) && '-' !in NatToString(n)
  {
    var s := NatToString(n);
    assert IsDigitIn(s[0], 10) && IsDigitIn(s[|s| - 1], 10);
    assert forall i :: 0 <= i < |s| ==> s[i] != '-' by {
      forall i | 0 <= i < |s| ensures s[i] != '-' {
        assert IsDigitIn(s[i], 10);
      }
    }
  }

  /** A period written "A-B" with two positive years gives back A and B. */
  lemma PeriodYearsOfDigits(a: nat, b: nat)
    requires a > 0 && b > 0
    ensures PeriodYears(NatToString(a) + "-" + NatToString(b)) == Some((a, b))
  {
    var sa, sb := NatToString(a), NatToString(b);
    DigitsUnpadded(a);
    DigitsUnpadded(b);
    SplitAtFirst(sa, '-', sb);
    SplitWithoutSeparator(sb, '-');
    assert sa + "-" + sb == sa + ['-'] + sb;
    assert Split(sa + "-" + sb, '-') == [sa, sb];
    TrimUnpadded(sa);
    TrimUnpadded(sb);
    ParseIntOfNatToString(a);
    ParseIntOfNatToString(b);
  }

  /** A period with no '-' names no years. */
  lemma PeriodWithoutDash(period: string)
    requires '-' !in period
    ensures PeriodYears(period) == None
  {
    SplitWithoutSeparator(period, '-');
  }

  // ---------------------------------------------------------------------
  // createYear
  // ---------------------------------------------------------------------

  /** `existingYears.some(year => year.period === p || year.name === p)` */
  predicate Duplicate(years: seq<YearData>, p: string) {
    exists i :: 0 <= i < |years| && (years[i].period == Val(p) || years[i].name == Val(p))
  }

  /** The body as `createYear` leaves it: named by its period; when a date
      is missing, both dates from the period's years, or from the current
      year when the period names none; `is_current` false unless given. */
  function Prepared(d: YearData, currentYear: int): YearData
    requires Truthy(d.period)
  {
    var dated := CreateDates(d.(name := d.period), currentYear);
    dated.(is_current := if d.is_current.Undef? then Val(false) else d.is_current)
  }

  /** The dates rule of `createYear` alone. */
  function CreateDates(d: YearData, currentYear: int): YearData
    requires Truthy(d.period)
  {
    if Truthy(d.start_date) && Truthy(d.end_date) then d
    else DatesFrom(d, PeriodYears(d.period.v), currentYear)
  }

  /** Both dates from the years of the period, or from the current year when
      the period names none. */
  function DatesFrom(d: YearData, years: Option<(int, int)>, currentYear: int): YearData {
    match years
    case Some(ys) => d.(start_date := Val(StartDateOf(ys.0)), end_date := Val(EndDateOf(ys.1)))
    case None => d.(start_date := Val(StartDateOf(currentYear)), end_date := Val(EndDateOf(currentYear + 1)))
  }

  /** `createYear`'s date assignments, on the body itself. */
  method FillCreateDates(y: SchoolYear, currentYear: int)
    requires Truthy(y.period)
    modifies y
    ensures y.Data() == CreateDates(old(y.Data()), currentYear)
  {
    if !Truthy(y.start_date) || !Truthy(y.end_date) {
      var years := PeriodYears(y.period.v);
      SetDatesFrom(y, years, currentYear);
    }
  }

  /** The two assignments of `createYear` once the period is parsed. */
  method SetDatesFrom(y: SchoolYear, years: Option<(int, int)>, currentYear: int)
    modifies y
    ensures y.Data() == DatesFrom(old(y.Data()), years, currentYear)
  {
    if years.Some? {
      y.start_date := Val(StartDateOf(years.value.0));
      y.end_date := Val(EndDateOf(years.value.1));
    } else {
      y.start_date := Val(StartDateOf(currentYear));
      y.end_date := Val(EndDateOf(currentYear + 1));
    }
  }

  /** The name is the period, even over a given name; both dates are set;
      given dates survive only when both are given; the id and period are
      kept. */
  lemma PreparedFields(d: YearData, currentYear: int)
    requires Truthy(d.period)
    ensures var e := Prepared(d, currentYear);
      && e.id == d.id && e.period == d.period && e.name == d.period
      && Truthy(e.start_date) && Truthy(e.end_date)
      && (Truthy(d.start_date) && Truthy(d.end_date) ==> e.start_date == d.start_date && e.end_date == d.end_date)
      && (d.is_current.Undef? ==> e.is_current == Val(false))
      && (Defined(d.is_current) ==> e.is_current == d.is_current)
  {
  }

  /** A missing date and a period "A-B" replace both dates, a given one
      included, by the 1st of May of A and the 30th of April of B. */
  lemma PreparedDatesFromPeriod(d: YearData, currentYear: int, a: nat, b: nat)
    requires a > 0 && b > 0 && d.period == Val(NatToString(a) + "-" + NatToString(b))
    requires !Truthy(d.start_date) || !Truthy(d.end_date)
    ensures Prepared(d, currentYear).start_date == Val(StartDateOf(a))
    ensures Prepared(d, currentYear).end_date == Val(EndDateOf(b))
  {
    PeriodYearsOfDigits(a, b);
  }

  /** A missing date and a period that names no years: the academic year
      starting in the current year. */
  lemma PreparedDatesFromClock(d: YearData, currentYear: int)
    requires Truthy(d.period) && PeriodYears(d.period.v) == None
    requires !Truthy(d.start_date) || !Truthy(d.end_date)
    ensures Prepared(d, currentYear).start_date == Val(StartDateOf(currentYear))
    ensures Prepared(d, currentYear).end_date == Val(EndDateOf(currentYear + 1))
  {
  }

  /** The prepared body leaves the model's own defaults nothing to do. */
  lemma PreparedNeedsNoDefaults(d: YearData, currentYear: int, thisYear: int, thisYearAgain: int)
    requires Truthy(d.period)
    ensures WithDefaults(Prepared(d, currentYear), thisYear, thisYearAgain) == Prepared(d, currentYear)
  {
  }

  /** Once a year is stored, creating it again is a duplicate. */
  lemma CreatedYearIsDuplicate(years: seq<YearData>, d: YearData, currentYear: int)
    requires Truthy(d.period)
    ensures Duplicate(years + [Prepared(d, currentYear)], d.period.v)
  {
    assert (years + [Prepared(d, currentYear)])[|years|] == Prepared(d, currentYear);
  }

  /** `createYear`: 400 without an id or a period, 400 when the period is
      already some year's period or name, and otherwise the body is
      prepared in place, handed to the model, and answered with 201; a
      failed listing or insert is 500. The body is untouched by a refusal. */
  method CreateYear(y: SchoolYear, existing: Outcome<seq<YearData>>, currentYear: int,
                    thisYear: int, thisYearAgain: int, db: Outcome<()>)
    returns (sent: Option<Query>, r: Response<YearMessage, YearReply>)
    modifies y
    ensures var d := old(y.Data());
      && (!Truthy(d.id) || !Truthy(d.period) ==> r == Fail(400, MissingFields))
      && (Truthy(d.id) && Truthy(d.period) && existing.Ok? && Duplicate(existing.value, d.period.v) ==> r == Fail(400, DuplicatePeriod))
      && (r.status == 400 ==> y.Data() == d && sent == None)
      && (r.status == 201 <==> Truthy(d.id) && Truthy(d.period) && existing.Ok? && !Duplicate(existing.value, d.period.v) && db.Ok?)
      && (sent.Some? ==> y.Data() == Prepared(d, currentYear) && sent == Some(InsertQuery(Prepared(d, currentYear))))
      && (r.status == 201 ==> r.data == Some(Year(Prepared(d, currentYear))))
      && r.status in {201, 400, 500}
  {
    sent := None;
    if !Truthy(y.id) || !Truthy(y.period) {
      return sent, Fail(400, MissingFields);
    }
    if existing.Throws? {
      return sent, Fail(500, ServerError);
    }
    if Duplicate(existing.value, y.period.v) {
      return sent, Fail(400, DuplicatePeriod);
    }
    ghost var d := y.Data();
    y.name := y.period;
    FillCreateDates(y, currentYear);
    if y.is_current.Undef? {
      y.is_current := Val(false);
    }
    assert y.Data() == Prepared(d, currentYear);
    PreparedNeedsNoDefaults(d, currentYear, thisYear, thisYearAgain);
    var q, newYear := YearModel.CreateYear(y, thisYear, thisYearAgain, db);
    sent := Some(q);
    if newYear.Throws? {
      return sent, Fail(500, ServerError);
    }
    r := Succeed(201, Some(Created), Some(Year(newYear.value.Data())));
  }

  // ---------------------------------------------------------------------
  // updateYear
  // ---------------------------------------------------------------------

  /** The body as `updateYear` leaves it: named by its period when it has
      no name, and, when the period names its years, each missing date
      filled from them; there is no clock fallback. */
  function Refreshed(d: YearData): YearData
    requires Truthy(d.period)
  {
    UpdateDates(if !Truthy(d.name) then d.(name := d.period) else d)
  }

  /** The dates rule of `updateYear` alone. */
  function UpdateDates(d: YearData): YearData
    requires Truthy(d.period)
  {
    if Truthy(d.start_date) && Truthy(d.end_date) then d
    else FillMissingDates(d, PeriodYears(d.period.v))
  }

  /** Each missing date filled from the years of the period, if it names
      them. */
  function FillMissingDates(d: YearData, years: Option<(int, int)>): YearData {
    match years
    case Some(ys) =>
      d.(start_date := if Truthy(d.start_date) then d.start_date else Val(StartDateOf(ys.0)),
         end_date := if Truthy(d.end_date) then d.end_date else Val(EndDateOf(ys.1)))
    case None => d
  }

  /** `updateYear`'s date assignments, on the body itself. */
  method FillUpdateDates(y: SchoolYear)
    requires Truthy(y.period)
    modifies y
    ensures y.Data() == UpdateDates(old(y.Data()))
  {
    if Truthy(y.period) && (!Truthy(y.start_date) || !Truthy(y.end_date)) {
      var years := PeriodYears(y.period.v);
      FillMissingFrom(y, years);
    }
  }

  /** The guarded assignments of `updateYear` once the period is parsed. */
  method FillMissingFrom(y: SchoolYear, years: Option<(int, int)>)
    modifies y
    ensures y.Data() == FillMissingDates(old(y.Data()), years)
  {
    if years.Some? {
      if !Truthy(y.start_date) {
        y.start_date := Val(StartDateOf(years.value.0));
      }
      if !Truthy(y.end_date) {
        y.end_date := Val(EndDateOf(years.value.1));
      }
    }
  }

  /** A given name and given dates are kept; a missing date is filled only
      from the period; `is_current`, id and period are never touched. */
  lemma RefreshedFields(d: YearData)
    requires Truthy(d.period)
    ensures var e := Refreshed(d);
      && e.id == d.id && e.period == d.period && e.is_current == d.is_current
      && Truthy(e.name) && (Truthy(d.name) ==> e.name == d.name)
      && (Truthy(d.start_date) ==> e.start_date == d.start_date)
      && (Truthy(d.end_date) ==> e.end_date == d.end_date)
      && (PeriodYears(d.period.v) == None ==> e.start_date == d.start_date && e.end_date == d.end_date)
      && (PeriodYears(d.period.v).Some? ==> Truthy(e.start_date) && Truthy(e.end_date))
  {
  }

  /** `updateYear`: 400 without a period; otherwise the body is refreshed in
      place and written by the model, and its answer of false (no such id)
      is 404; an error is 500. */
  method UpdateYear(id: string, y: SchoolYear, db: Outcome<nat>)
    returns (sent: Option<Query>, r: Response<YearMessage, YearReply>)
    modifies y
    ensures var d := old(y.Data());
      && (!Truthy(d.period) ==> r == Fail(400, MissingFields) && y.Data() == d && sent == None)
      && (Truthy(d.period) ==> y.Data() == Refreshed(d) && sent == Some(UpdateQuery(id, Refreshed(d))))
      && (Truthy(d.period) && db == Ok(0) ==> r == Fail(404, NotWritten))
      && (r.status == 200 <==> Truthy(d.period) && db.Ok? && db.value > 0)
      && r.status in {200, 400, 404, 500}
  {
    if !Truthy(y.period) {
      return None, Fail(400, MissingFields);
    }
    ghost var d := y.Data();
    if !Truthy(y.name) && Truthy(y.period) {
      y.name := y.period;
    }
    FillUpdateDates(y);
    assert y.Data() == Refreshed(d);
    var q, success := YearModel.UpdateYear(id, y, db);
    sent := Some(q);
    if success.Throws? {
      return sent, Fail(500, ServerError);
    }
    if !success.value {
      return sent, Fail(404, NotWritten);
    }
    r := Succeed(200, Some(Updated), None);
  }

  // ---------------------------------------------------------------------
  // lookups and deletion
  // ---------------------------------------------------------------------

  /** `getAllYears`: the years, or 500. */
  function GetAll(listed: Outcome<seq<YearData>>): (r: Response<YearMessage, YearReply>)
    ensures r.status == 200 <==> listed.Ok?
    ensures listed.Ok? ==> r.data == Some(Years(listed.value))
    ensures listed.Throws? ==> r == Fail(500, ServerError)
  {
    if listed.Throws? then Fail(500, ServerError) else Succeed(200, None, Some(Years(listed.value)))
  }

  /** `getYearById`: 404 when the model finds nothing. */
  function GetById(found: Outcome<Option<YearData>>): (r: Response<YearMessage, YearReply>)
    ensures found == Ok(None) ==> r == Fail(404, NotFound)
    ensures r.status == 200 <==> found.Ok? && found.value.Some?
    ensures r.status == 200 ==> r.data == Some(Year(found.value.value))
    ensures found.Throws? ==> r == Fail(500, ServerError)
  {
    if found.Throws? then Fail(500, ServerError)
    else if found.value.None? then Fail(404, NotFound)
    else Succeed(200, None, Some(Year(found.value.value)))
  }

  /** `deleteYear`: 404 when the model answers false. */
  function Delete(deleted: Outcome<bool>): (r: Response<YearMessage, YearReply>)
    ensures deleted == Ok(false) ==> r == Fail(404, NotWritten)
    ensures r.status == 200 <==> deleted == Ok(true)
    ensures deleted.Throws? ==> r == Fail(500, ServerError)
  {
    if deleted.Throws? then Fail(500, ServerError)
    else if !deleted.value then Fail(404, NotWritten)
    else Succeed(200, Some(Deleted), None)
  }
}
