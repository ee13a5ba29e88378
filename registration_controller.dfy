/** The registration handlers (`controllers/registrationController.ts`):
    the parsing of the listing's query string, the required-field check of
    creation and the 404/400 selection of update and deletion. Each is a
    decision over the request and the results of the model calls it awaits;
    a call that throws is `Throws`, and the read-back after a write is a
    function of the id it is asked for. */
module RegistrationController {
  import opened Js
  import opened Sql
  import opened Http
  import RegistrationModel

  datatype RegistrationMessage =
    | NotFound | MissingFields | Created | NotUpdated | Updated | NotDeleted | Deleted | ServerError

  datatype RegistrationData =
    | Registration(registration: Option<Row>)
    | RegistrationList(registrations: seq<Row>, total: Num)

  /** `paid !== undefined ? paid === 'true' : undefined`: only the text
      "true" is true, any other value given (empty, "1", "TRUE") is false. */
  function PaidQuery(paid: Opt<string>): (b: Opt<bool>)
    ensures !Defined(paid) <==> b == Undef
    ensures b == Val(true) <==> paid == Val("true")
    ensures Defined(paid) && paid != Val("true") ==> b == Val(false)
  {
    if Defined(paid) then Val(paid == Val("true")) else Undef
  }

  /** The filters `getAllRegistrations` hands to the model. */
  function ListFilters(search: Opt<string>, schoolYear: Opt<string>, paid: Opt<string>,
                       limit: Opt<string>, offset: Opt<string>): RegistrationModel.RegistrationFilters {
    RegistrationModel.RegistrationFilters(search, schoolYear, PaidQuery(paid), QueryInt(limit), QueryInt(offset))
  }

  /** Any `paid` in the query string filters the listing, on true exactly
      when it reads "true"; without one the listing is not filtered on it. */
  lemma PaidAlwaysFilters(search: Opt<string>, schoolYear: Opt<string>, paid: Opt<string>, limit: Opt<string>, offset: Opt<string>)
    ensures var ps := RegistrationModel.FilterParams(ListFilters(search, schoolYear, paid, limit, offset));
      Defined(paid) ==> |ps| > 0 && ps[|ps| - 1] == VBool(paid == Val("true"))
    ensures !Defined(paid) ==>
      RegistrationModel.FilterParams(ListFilters(search, schoolYear, paid, limit, offset))
      == RegistrationModel.FilterParams(ListFilters(search, schoolYear, Undef, Undef, Undef))
  {
  }

  /** `getAllRegistrations`: the page and its total, or 500. */
  function GetAll(listed: Outcome<(seq<Row>, Num)>): (r: Response<RegistrationMessage, RegistrationData>)
    ensures r.status == 200 <==> listed.Ok?
    ensures listed.Ok? ==> r.data == Some(RegistrationList(listed.value.0, listed.value.1))
    ensures listed.Throws? ==> r == Fail(500, ServerError)
  {
    if listed.Throws? then Fail(500, ServerError)
    else Succeed(200, None, Some(RegistrationList(listed.value.0, listed.value.1)))
  }

  /** `getRegistrationById`: 404 when the model finds nothing. */
  function GetById(found: Outcome<Option<Row>>): (r: Response<RegistrationMessage, RegistrationData>)
    ensures found == Ok(None) ==> r == Fail(404, NotFound)
    ensures r.status == 200 <==> found.Ok? && found.value.Some?
    ensures r.status == 200 ==> r.data == Some(Registration(found.value))
    ensures found.Throws? ==> r == Fail(500, ServerError)
  {
    if found.Throws? then Fail(500, ServerError)
    else if found.value.None? then Fail(404, NotFound)
    else Succeed(200, None, Some(Registration(found.value)))
  }

  /** The four fields a registration cannot be created without. */
  predicate Complete(d: RegistrationModel.CreateRegistrationDto) {
    Truthy(d.student_id) && Truthy(d.classroom) && Truthy(d.level) && Truthy(d.school_year)
  }

  /** `createRegistration`: a missing student id, classroom, level or school
      year is 400; the student is not looked up, so a complete body is
      created and the registration read back by its new id is the 201
      reply. A model call that throws is 500. */
  function Create(d: RegistrationModel.CreateRegistrationDto, created: Outcome<string>,
                  findById: string -> Outcome<Option<Row>>): (r: Response<RegistrationMessage, RegistrationData>)
    ensures !Complete(d) ==> r == Fail(400, MissingFields)
    ensures r.status == 201 <==> Complete(d) && created.Ok? && findById(created.value).Ok?
    ensures r.status == 201 ==> r.data == Some(Registration(findById(created.value).value))
    ensures r.status in {201, 400, 500}
  {
    if !Complete(d) then Fail(400, MissingFields)
    else if created.Throws? then Fail(500, ServerError)
    else
      var newRegistration := findById(created.value);
      if newRegistration.Throws? then Fail(500, ServerError)
      else Succeed(201, Some(Created), Some(Registration(newRegistration.value)))
  }

  /** The student name and phone of the body play no part in the check. */
  lemma NameAndPhoneNotRequired(d: RegistrationModel.CreateRegistrationDto, name: Opt<string>, phone: Opt<string>,
                                created: Outcome<string>, findById: string -> Outcome<Option<Row>>)
    ensures Create(d.(student_name := name, student_phone := phone), created, findById).status
         == Create(d, created, findById).status
  {
  }

  /** `updateRegistration`: 404 for an unknown id, 400 when the model
      answers false, otherwise 200 with the registration read back. */
  function Update(before: Outcome<Option<Row>>, updated: Outcome<bool>, after: Outcome<Option<Row>>): (r: Response<RegistrationMessage, RegistrationData>)
    ensures before == Ok(None) ==> r == Fail(404, NotFound)
    ensures before.Ok? && before.value.Some? && updated == Ok(false) ==> r == Fail(400, NotUpdated)
    ensures r.status == 200 <==> before.Ok? && before.value.Some? && updated == Ok(true) && after.Ok?
    ensures r.status == 200 ==> r.data == Some(Registration(after.value))
    ensures r.status in {200, 400, 404, 500}
  {
    if before.Throws? then Fail(500, ServerError)
    else if before.value.None? then Fail(404, NotFound)
    else if updated.Throws? then Fail(500, ServerError)
    else if !updated.value then Fail(400, NotUpdated)
    else if after.Throws? then Fail(500, ServerError)
    else Succeed(200, Some(Updated), Some(Registration(after.value)))
  }

  /** `deleteRegistration`: 404 for an unknown id, 400 when the model
      answers false, 200 once the row is gone. */
  function Delete(before: Outcome<Option<Row>>, deleted: Outcome<bool>): (r: Response<RegistrationMessage, RegistrationData>)
    ensures before == Ok(None) ==> r == Fail(404, NotFound)
    ensures before.Ok? && before.value.Some? && deleted == Ok(false) ==> r == Fail(400, NotDeleted)
    ensures r.status == 200 <==> before.Ok? && before.value.Some? && deleted == Ok(true)
    ensures r.status in {200, 400, 404, 500}
  {
    if before.Throws? then Fail(500, ServerError)
    else if before.value.None? then Fail(404, NotFound)
    else if deleted.Throws? then Fail(500, ServerError)
    else if !deleted.value then Fail(400, NotDeleted)
    else Succeed(200, Some(Deleted), None)
  }
}
