/** The tuition-fee handlers (`controllers/tuitionController.ts`): the
    validation of creation and update, the 404 of a write that matched
    nothing, and the trimmed lookup by level and year. Each is a decision
    over the request and the results of the model calls it awaits; a call
    that throws is `Throws`. */
module TuitionController {
  import opened Js
  import opened Sql
  import opened Http

  /** A tuition fee as the client sends it; the amount is a JSON value,
      `NaN` standing for one that is not a number. */
  datatype TuitionBody = TuitionBody(id: Opt<string>, name: Opt<string>, year: Opt<string>, level: Opt<string>, amount: Opt<Num>)

  datatype TuitionMessage = MissingFields | MissingParams | NotFound | NotWritten | Created | Updated | Deleted | ServerError

  datatype TuitionData = Tuitions(tuitions: seq<Row>) | Tuition(tuition: Row) | NewTuition(body: TuitionBody)

  /** JavaScript's `amount <= 0`: undefined and a non-number compare as
      NaN (false), null as 0 (true). */
  predicate AtMostZero(amount: Opt<Num>) {
    match amount
    case Undef => false
    case Null => true
    case Val(n) => n.Int? && n.value <= 0
  }

  /** An amount that is a positive number. */
  predicate PositiveAmount(amount: Opt<Num>) {
    amount.Val? && amount.v.Int? && amount.v.value > 0
  }

  /** `!amount || amount <= 0` rejects every amount that is not positive. */
  lemma FalsyOrAtMostZero(amount: Opt<Num>)
    ensures !TruthyNum(amount) || AtMostZero(amount) <==> !PositiveAmount(amount)
  {
  }

  /** `createTuition`'s test as written: id, name, year and level present,
      and not `amount <= 0`. */
  predicate CreateRejectedAsWritten(t: TuitionBody) {
    !Truthy(t.id) || !Truthy(t.name) || !Truthy(t.year) || !Truthy(t.level) || AtMostZero(t.amount)
  }

  /** The test as `updateTuition` writes it, and as creation needs it: the
      amount must be given and positive as well. */
  predicate CreateRejected(t: TuitionBody) {
    !Truthy(t.id) || !Truthy(t.name) || !Truthy(t.year) || !Truthy(t.level) || !PositiveAmount(t.amount)
  }

  /** `createTuition` as written: a body without an amount, or with one
      that is not a number, passes the check and goes to the INSERT. A
      missing amount reaches `db.execute` as an undefined bind parameter,
      which mysql2 refuses by throwing, so the answer is 500 whatever the
      database would have done; `inserted` is the database's answer
      otherwise. */
  function CreateAsWritten(t: TuitionBody, inserted: Outcome<()>): (r: Response<TuitionMessage, TuitionData>)
    ensures CreateRejectedAsWritten(t) ==> r == Fail(400, MissingFields)
    ensures !CreateRejectedAsWritten(t) && t.amount == Undef ==> r == Fail(500, ServerError)
    ensures r.status == 201 <==> !CreateRejectedAsWritten(t) && t.amount != Undef && inserted.Ok?
  {
    if CreateRejectedAsWritten(t) then Fail(400, MissingFields)
    else if t.amount == Undef || inserted.Throws? then Fail(500, ServerError)
    else Succeed(201, Some(Created), Some(NewTuition(t)))
  }

  /** A body with every text field but no amount passes the check, and the
      insert then fails: the client gets a server error instead of 400. */
  lemma MissingAmountIsServerError(inserted: Outcome<()>)
    ensures var t := TuitionBody(Val("T1"), Val("fee"), Val("2024"), Val("1"), Undef);
      !PositiveAmount(t.amount) && !CreateRejectedAsWritten(t) && CreateAsWritten(t, inserted) == Fail(500, ServerError)
  {
  }

  /** `createTuition` with the amount required, as `updateTuition` requires
      it: 400 unless id, name, year and level are present and the amount is
      a positive number; otherwise the body is inserted and answered with
      201. */
  function Create(t: TuitionBody, inserted: Outcome<()>): (r: Response<TuitionMessage, TuitionData>)
    ensures CreateRejected(t) ==> r == Fail(400, MissingFields)
    ensures r.status == 201 <==> !CreateRejected(t) && inserted.Ok?
    ensures r.status == 201 ==> r.data == Some(NewTuition(t)) && PositiveAmount(t.amount)
    ensures r.status in {201, 400, 500}
  {
    if CreateRejected(t) then Fail(400, MissingFields)
    else if inserted.Throws? then Fail(500, ServerError)
    else Succeed(201, Some(Created), Some(NewTuition(t)))
  }

  /** The corrected check refuses what the written one refuses, and beyond
      that only bodies whose amount is missing or not a number. */
  lemma CreateRejectsMore(t: TuitionBody, inserted: Outcome<()>)
    ensures CreateRejectedAsWritten(t) ==> CreateRejected(t)
    ensures CreateRejected(t) && !CreateRejectedAsWritten(t) ==> t.amount == Undef || t.amount == Val(NaN)
    ensures !CreateRejected(t) ==> Create(t, inserted) == CreateAsWritten(t, inserted)
  {
  }

  /** `updateTuition`'s test: name, year and level present and the amount
      truthy and positive; the id comes from the route. */
  predicate UpdateRejected(t: TuitionBody) {
    !Truthy(t.name) || !Truthy(t.year) || !Truthy(t.level) || !TruthyNum(t.amount) || AtMostZero(t.amount)
  }

  /** `updateTuition`: an invalid body is 400; a model answer of false (no
      row with that id) is 404; otherwise 200. */
  function Update(t: TuitionBody, updated: Outcome<bool>): (r: Response<TuitionMessage, TuitionData>)
    ensures UpdateRejected(t) ==> r == Fail(400, MissingFields)
    ensures !UpdateRejected(t) && updated == Ok(false) ==> r == Fail(404, NotWritten)
    ensures r.status == 200 <==> !UpdateRejected(t) && updated == Ok(true)
    ensures r.status in {200, 400, 404, 500}
  {
    if UpdateRejected(t) then Fail(400, MissingFields)
    else if updated.Throws? then Fail(500, ServerError)
    else if !updated.value then Fail(404, NotWritten)
    else Succeed(200, Some(Updated), None)
  }

  /** An update goes to the model exactly when the amount is a positive
      number and the three text fields are present; the id of the body
      plays no part. */
  lemma UpdateNeedsPositiveAmount(t: TuitionBody, updated: Outcome<bool>, id: Opt<string>)
    ensures !UpdateRejected(t) <==> Truthy(t.name) && Truthy(t.year) && Truthy(t.level) && PositiveAmount(t.amount)
    ensures Update(t.(id := id), updated) == Update(t, updated)
  {
    FalsyOrAtMostZero(t.amount);
  }

  /** `deleteTuition`: 404 when the model answers false, 200 otherwise. */
  function Delete(deleted: Outcome<bool>): (r: Response<TuitionMessage, TuitionData>)
    ensures deleted == Ok(false) ==> r == Fail(404, NotWritten)
    ensures r.status == 200 <==> deleted == Ok(true)
    ensures deleted.Throws? ==> r == Fail(500, ServerError)
  {
    if deleted.Throws? then Fail(500, ServerError)
    else if !deleted.value then Fail(404, NotWritten)
    else Succeed(200, Some(Deleted), None)
  }

  /** `getAllTuitions`: the rows, or 500. */
  function GetAll(listed: Outcome<seq<Row>>): (r: Response<TuitionMessage, TuitionData>)
    ensures r.status == 200 <==> listed.Ok?
    ensures listed.Ok? ==> r.data == Some(Tuitions(listed.value))
    ensures listed.Throws? ==> r == Fail(500, ServerError)
  {
    if listed.Throws? then Fail(500, ServerError) else Succeed(200, None, Some(Tuitions(listed.value)))
  }

  /** `getTuitionById`, and the end of `getTuitionByLevelAndYear`: 404 when
      the model finds nothing. */
  function GetOne(found: Outcome<Option<Row>>): (r: Response<TuitionMessage, TuitionData>)
    ensures found == Ok(None) ==> r == Fail(404, NotFound)
    ensures r.status == 200 <==> found.Ok? && found.value.Some?
    ensures r.status == 200 ==> r.data == Some(Tuition(found.value.value))
    ensures found.Throws? ==> r == Fail(500, ServerError)
  {
    if found.Throws? then Fail(500, ServerError)
    else if found.value.None? then Fail(404, NotFound)
    else Succeed(200, None, Some(Tuition(found.value.value)))
  }

  /** `getTuitionByLevelAndYear`: a missing or empty level or year is 400;
      otherwise both are trimmed and the tuition of that level and year is
      looked up. */
  function ByLevelAndYear(level: Opt<string>, year: Opt<string>,
                          find: (string, string) -> Outcome<Option<Row>>): (r: Response<TuitionMessage, TuitionData>)
    ensures !Truthy(level) || !Truthy(year) ==> r == Fail(400, MissingParams)
    ensures Truthy(level) && Truthy(year) ==> r == GetOne(find(Trim(level.v), Trim(year.v)))
  {
    if !Truthy(level) || !Truthy(year) then Fail(400, MissingParams)
    else GetOne(find(Trim(level.v), Trim(year.v)))
  }

  /** White space around the route parameters does not change the answer. */
  lemma PaddedParamsTrimmed(a: string, level: string, b: string, c: string, year: string, d: string,
                            find: (string, string) -> Outcome<Option<Row>>)
    requires AllSpace(a) && AllSpace(b) && AllSpace(c) && AllSpace(d)
    requires level != "" && year != "" && Unpadded(level) && Unpadded(year)
    ensures ByLevelAndYear(Val(a + level + b), Val(c + year + d), find) == ByLevelAndYear(Val(level), Val(year), find)
  {
    var paddedLevel, paddedYear := a + level + b, c + year + d;
    TrimPadded(a, level, b);
    TrimPadded(c, year, d);
    TrimUnpadded(level);
    TrimUnpadded(year);
    assert Trim(paddedLevel) == Trim(level) && Trim(paddedYear) == Trim(year);
    assert |paddedLevel| >= |level| > 0 && |paddedYear| >= |year| > 0;
    assert ByLevelAndYear(Val(paddedLevel), Val(paddedYear), find) == GetOne(find(level, year));
  }

  /** The presence test runs before trimming: a level of white space only
      is not refused but looked up as the empty level. */
  lemma BlankLevelLookedUp(year: string, find: (string, string) -> Outcome<Option<Row>>)
    requires year != "" && Unpadded(year)
    ensures ByLevelAndYear(Val(" "), Val(year), find) == GetOne(find("", year))
  {
    TrimPadded(" ", [], []);
    assert " " + [] + [] == " ";
    TrimUnpadded(year);
  }
}
