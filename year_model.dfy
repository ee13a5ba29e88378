/** Academic years (`yearModel.ts`). A year arrives as the request body, a
    record the model fills with defaults in place before it is stored and
    then hands back; the clock readings are parameters. */
module YearModel {
  import opened Js
  import opened Sql

  /** The fields of a year record at one moment. */
  datatype YearData = YearData(
    id: Opt<string>,
    period: Opt<string>,
    name: Opt<string>,
    start_date: Opt<string>,
    end_date: Opt<string>,
    is_current: Opt<bool>)

  /** The year record itself, which the model and the controller update in
      place. */
  class SchoolYear {
    var id: Opt<string>
    var period: Opt<string>
    var name: Opt<string>
    var start_date: Opt<string>
    var end_date: Opt<string>
    var is_current: Opt<bool>

    constructor (d: YearData)
      ensures Data() == d
    {
      id, period, name := d.id, d.period, d.name;
      start_date, end_date, is_current := d.start_date, d.end_date, d.is_current;
    }

    function Data(): YearData
      reads this
    {
      YearData(id, period, name, start_date, end_date, is_current)
    }
  }

  /** `<year>-05-01`, the first day of an academic year. */
  function StartDateOf(year: int): (s: string)
    ensures s != ""
  {
    IntToString(year) + "-05-01"
  }

  /** `<year>-04-30`, the last day of an academic year. */
  function EndDateOf(year: int): (s: string)
    ensures s != ""
  {
    IntToString(year) + "-04-30"
  }

  /** The defaults of `createYear`: the name is the period when absent, the
      dates are the 1st of May of the current year and the 30th of April of
      the next one, and the year is not current. `thisYear` and `thisYearAgain`
      are the two readings of the clock's year. */
  function WithDefaults(d: YearData, thisYear: int, thisYearAgain: int): YearData {
    d.(name := if Truthy(d.name) then d.name else d.period,
       start_date := if Truthy(d.start_date) then d.start_date else Val(StartDateOf(thisYear)),
       end_date := if Truthy(d.end_date) then d.end_date else Val(EndDateOf(thisYearAgain + 1)),
       is_current := if Defined(d.is_current) then d.is_current else Val(false))
  }

  /** Whatever was given is kept; the id and the period are never touched. */
  lemma DefaultsKeepGiven(d: YearData, thisYear: int, thisYearAgain: int)
    ensures var e := WithDefaults(d, thisYear, thisYearAgain);
      && e.id == d.id && e.period == d.period
      && (Truthy(d.name) ==> e.name == d.name)
      && (Truthy(d.start_date) ==> e.start_date == d.start_date)
      && (Truthy(d.end_date) ==> e.end_date == d.end_date)
      && (Defined(d.is_current) ==> e.is_current == d.is_current)
  {
  }

  /** After the defaults both dates are set, `is_current` is defined (false
      unless given), and the name is set whenever a name or a period was. */
  lemma DefaultsFill(d: YearData, thisYear: int, thisYearAgain: int)
    ensures var e := WithDefaults(d, thisYear, thisYearAgain);
      && Truthy(e.start_date) && Truthy(e.end_date) && Defined(e.is_current)
      && (!Defined(d.is_current) ==> e.is_current == Val(false))
      && (Truthy(e.name) <==> Truthy(d.name) || Truthy(d.period))
      && (!Truthy(d.start_date) ==> e.start_date == Val(StartDateOf(thisYear)))
      && (!Truthy(d.end_date) ==> e.end_date == Val(EndDateOf(thisYearAgain + 1)))
  {
  }

  /** Filling the defaults a second time changes nothing. */
  lemma DefaultsIdempotent(d: YearData, thisYear: int, thisYearAgain: int, later: int, laterAgain: int)
    ensures WithDefaults(WithDefaults(d, thisYear, thisYearAgain), later, laterAgain) == WithDefaults(d, thisYear, thisYearAgain)
  {
  }

  const InsertHead := "INSERT INTO school_years (id, period, name, start_date, end_date, is_current) VALUES ("

  /** The INSERT of a year, its six fields in column order. */
  function InsertQuery(d: YearData): (q: Query)
    ensures Paired(q)
    ensures q.params == [TextValue(d.id), TextValue(d.period), TextValue(d.name),
                         TextValue(d.start_date), TextValue(d.end_date), BoolValue(d.is_current)]
  {
    Query(Then(After(InsertHead, HoleList(6, ", ")), ")"),
      [TextValue(d.id), TextValue(d.period), TextValue(d.name), TextValue(d.start_date), TextValue(d.end_date), BoolValue(d.is_current)])
  }

  /** The default assignments of `createYear`, on the record itself. */
  method FillDefaults(y: SchoolYear, thisYear: int, thisYearAgain: int)
    modifies y
    ensures y.Data() == WithDefaults(old(y.Data()), thisYear, thisYearAgain)
  {
    ghost var d := y.Data();
    if !Truthy(y.name) {
      y.name := y.period;
    }
    if !Truthy(y.start_date) {
      y.start_date := Val(StartDateOf(thisYear));
    }
    if !Truthy(y.end_date) {
      var nextYear := thisYearAgain + 1;
      y.end_date := Val(EndDateOf(nextYear));
    }
    if y.is_current.Undef? {
      y.is_current := Val(false);
    }
    assert y.id == d.id && y.period == d.period;
  }

  /** `createYear`: fills the defaults into the record itself, inserts it and
      answers that same record; an error is rethrown, the record already
      filled. */
  method CreateYear(y: SchoolYear, thisYear: int, thisYearAgain: int, db: Outcome<()>)
    returns (q: Query, r: Outcome<SchoolYear>)
    modifies y
    ensures y.Data() == WithDefaults(old(y.Data()), thisYear, thisYearAgain)
    ensures q == InsertQuery(y.Data())
    ensures r.Ok? <==> db.Ok?
    ensures r.Ok? ==> r.value == y
  {
    FillDefaults(y, thisYear, thisYearAgain);
    q := InsertQuery(y.Data());
    if db.Throws? {
      return q, Throws;
    }
    r := Ok(y);
  }

  /** The name rule of `updateYear`: a given period names the year when no
      name is given. Nothing else changes. */
  function NamedByPeriod(d: YearData): (e: YearData)
    ensures e == d.(name := e.name)
    ensures Truthy(d.period) && !Truthy(d.name) ==> e.name == d.period
    ensures !(Truthy(d.period) && !Truthy(d.name)) ==> e == d
  {
    if Truthy(d.period) && !Truthy(d.name) then d.(name := d.period) else d
  }

  const UpdateSql: seq<Tok> :=
    Placeholders(["UPDATE school_years SET period = ", ", name = ", ", start_date = ", ", end_date = ", ", is_current = ", " WHERE id = "])

  /** The UPDATE of a year: all five columns from the record, whatever they
      hold, and the id last. */
  function UpdateQuery(id: string, d: YearData): (q: Query)
    ensures Paired(q)
    ensures q.params == [TextValue(d.period), TextValue(d.name), TextValue(d.start_date),
                         TextValue(d.end_date), BoolValue(d.is_current), VText(id)]
  {
    Query(UpdateSql, [TextValue(d.period), TextValue(d.name), TextValue(d.start_date), TextValue(d.end_date), BoolValue(d.is_current), VText(id)])
  }

  /** `updateYear`: names the record by its period if needed, writes it and
      answers whether a row was affected; an error is rethrown. */
  method UpdateYear(id: string, y: SchoolYear, db: Outcome<nat>) returns (q: Query, r: Outcome<bool>)
    modifies y
    ensures y.Data() == NamedByPeriod(old(y.Data()))
    ensures q == UpdateQuery(id, y.Data())
    ensures r == AffectedAny(db)
  {
    if Truthy(y.period) && !Truthy(y.name) {
      y.name := y.period;
    }
    q := UpdateQuery(id, y.Data());
    r := AffectedAny(db);
  }

  /** A missing date is written as undefined: the update has no date
      defaults of its own. */
  lemma UpdateWritesMissingDates(id: string, d: YearData)
    requires d.start_date.Undef?
    ensures UpdateQuery(id, NamedByPeriod(d)).params[2] == VUndefined
  {
  }

  const ByIdSelect := "SELECT * FROM school_years WHERE id = "

  /** `getYearById`: the first row or null; an error is rethrown. */
  function GetYearById(id: string, db: Outcome<seq<YearData>>): (r: (Query, Outcome<Option<YearData>>))
    ensures Paired(r.0) && r.0.params == [VText(id)]
    ensures r.1.Ok? <==> db.Ok?
    ensures r.1.Ok? ==> (r.1.value.Some? <==> |db.value| > 0) && (r.1.value.Some? ==> r.1.value.value == db.value[0])
  {
    (Query(Placeholder(ByIdSelect), [VText(id)]), if db.Throws? then Throws else Ok(FirstOrNull(db.value)))
  }

  /** `deleteYear`: whether a row was removed; an error is rethrown. */
  function DeleteYear(id: string, db: Outcome<nat>): (r: (Query, Outcome<bool>))
    ensures Paired(r.0) && r.0.params == [VText(id)]
    ensures r.1.Ok? <==> db.Ok?
    ensures r.1.Ok? ==> (r.1.value <==> db.value > 0)
  {
    (Query(Placeholder("DELETE FROM school_years WHERE id = "), [VText(id)]), AffectedAny(db))
  }
}
