/** The student handlers (`controllers/studentController.ts`): each is a
    decision over the request and the results of the model calls it awaits.
    A model call that throws is `Throws`; the lookups the handler makes after
    a write are functions of the id they are asked for. */
module StudentController {
  import opened Js
  import opened Sql
  import opened Http
  import StudentModel

  datatype StudentMessage =
    | NotFound | MissingFields | DuplicateStudentId | Created | NotUpdated | Updated
    | NotDeleted | Deleted | ServerError

  /** One student (null when the re-read finds nothing) or a page of them. */
  datatype StudentData = Student(student: Option<Row>) | StudentList(students: seq<Row>, total: Value)

  /** The filters `getAllStudents` hands to the model: search and gender as
      given, limit and offset parsed only when present and non-empty. */
  function ListFilters(search: Opt<string>, gender: Opt<string>, limit: Opt<string>, offset: Opt<string>): StudentModel.Filters {
    StudentModel.Filters(search, gender, QueryInt(limit), QueryInt(offset))
  }

  /** `getAllStudents`: the page and its total, or 500 when the model throws. */
  function GetAll(listed: Outcome<(seq<Row>, Value)>): (r: Response<StudentMessage, StudentData>)
    ensures r.status == 200 <==> listed.Ok?
    ensures listed.Ok? ==> r.success && r.data == Some(StudentList(listed.value.0, listed.value.1))
    ensures listed.Throws? ==> r == Fail(500, ServerError)
  {
    if listed.Throws? then Fail(500, ServerError)
    else Succeed(200, None, Some(StudentList(listed.value.0, listed.value.1)))
  }

  /** An empty `limit` is no limit: the model then adds no pagination. */
  lemma EmptyLimitIsNoLimit(search: Opt<string>, gender: Opt<string>, offset: Opt<string>)
    ensures StudentModel.Pagination(ListFilters(search, gender, Val(""), offset)) == []
    ensures StudentModel.ListQuery(ListFilters(search, gender, Val(""), offset)).params
         == StudentModel.FindAllParams(ListFilters(search, gender, Val(""), offset))
  {
  }

  /** `getStudentById` and `getStudentByStudentId`: 404 when the model finds
      nothing, 200 with the student, 500 when the lookup throws. */
  function GetOne(found: Outcome<Option<Row>>): (r: Response<StudentMessage, StudentData>)
    ensures found == Ok(None) ==> r == Fail(404, NotFound)
    ensures r.status == 200 <==> found.Ok? && found.value.Some?
    ensures r.status == 200 ==> r.data == Some(Student(found.value))
    ensures found.Throws? ==> r == Fail(500, ServerError)
  {
    if found.Throws? then Fail(500, ServerError)
    else if found.value.None? then Fail(404, NotFound)
    else Succeed(200, None, Some(Student(found.value)))
  }

  /** `createStudent`: a missing Lao name or gender is 400 before any lookup;
      a given student id already in use is 400; otherwise the student is
      created and re-read by the id the model answers, and that record is
      the 201 reply. Any model call that throws is 500. */
  function Create(d: StudentModel.CreateStudentDto,
                  findByStudentId: string -> Outcome<Option<Row>>,
                  created: Outcome<string>,
                  findById: string -> Outcome<Option<Row>>): (r: Response<StudentMessage, StudentData>)
    ensures !Truthy(d.student_name_lao) || !Truthy(d.gender) ==> r == Fail(400, MissingFields)
    ensures Truthy(d.student_name_lao) && Truthy(d.gender) && Truthy(d.student_id)
            && findByStudentId(d.student_id.v).Ok? && findByStudentId(d.student_id.v).value.Some?
            ==> r == Fail(400, DuplicateStudentId)
    ensures r.status == 201 <==>
      && Truthy(d.student_name_lao) && Truthy(d.gender)
      && (Truthy(d.student_id) ==> findByStudentId(d.student_id.v) == Ok(None))
      && created.Ok? && findById(created.value).Ok?
    ensures r.status == 201 ==> r.data == Some(Student(findById(created.value).value))
    ensures r.status in {201, 400, 500}
  {
    if !Truthy(d.student_name_lao) || !Truthy(d.gender) then Fail(400, MissingFields)
    else if Truthy(d.student_id) && findByStudentId(d.student_id.v).Throws? then Fail(500, ServerError)
    else if Truthy(d.student_id) && findByStudentId(d.student_id.v).value.Some? then Fail(400, DuplicateStudentId)
    else if created.Throws? then Fail(500, ServerError)
    else
      var newStudent := findById(created.value);
      if newStudent.Throws? then Fail(500, ServerError)
      else Succeed(201, Some(Created), Some(Student(newStudent.value)))
  }

  /** Without a student id (absent or empty) no duplicate check is made: the
      reply does not depend on what a lookup by student id would answer. */
  lemma AbsentStudentIdSkipsCheck(d: StudentModel.CreateStudentDto,
                                  one: string -> Outcome<Option<Row>>, other: string -> Outcome<Option<Row>>,
                                  created: Outcome<string>, findById: string -> Outcome<Option<Row>>)
    requires !Truthy(d.student_id)
    ensures Create(d, one, created, findById) == Create(d, other, created, findById)
  {
  }

  /** `updateStudent`: an unknown id is 404; a model answer of false (an
      update that sets nothing, or a row that vanished) is 400; otherwise 200
      with the record read back after the update. */
  function Update(before: Outcome<Option<Row>>, updated: Outcome<bool>, after: Outcome<Option<Row>>): (r: Response<StudentMessage, StudentData>)
    ensures before == Ok(None) ==> r == Fail(404, NotFound)
    ensures before.Ok? && before.value.Some? && updated == Ok(false) ==> r == Fail(400, NotUpdated)
    ensures r.status == 200 <==> before.Ok? && before.value.Some? && updated == Ok(true) && after.Ok?
    ensures r.status == 200 ==> r.data == Some(Student(after.value))
    ensures r.status in {200, 400, 404, 500}
  {
    if before.Throws? then Fail(500, ServerError)
    else if before.value.None? then Fail(404, NotFound)
    else if updated.Throws? then Fail(500, ServerError)
    else if !updated.value then Fail(400, NotUpdated)
    else if after.Throws? then Fail(500, ServerError)
    else Succeed(200, Some(Updated), Some(Student(after.value)))
  }

  /** An update of an existing student whose body asks for no column is
      refused with 400: the model sets nothing and answers false. */
  lemma EmptyBodyRefused(d: StudentModel.UpdateStudentDto, existing: Row, after: Outcome<Option<Row>>)
    requires forall c :: !StudentModel.Asks(d, c)
    ensures SetColumns(StudentModel.UpdateSlots(d)) == []
    ensures Update(Ok(Some(existing)), Ok(false), after) == Fail(400, NotUpdated)
  {
    StudentModel.UpdateNothing(d);
  }

  /** `deleteStudent`: 404 for an unknown id, 400 when the model answers
      false, 200 once the row is gone. */
  function Delete(before: Outcome<Option<Row>>, deleted: Outcome<bool>): (r: Response<StudentMessage, StudentData>)
    ensures before == Ok(None) ==> r == Fail(404, NotFound)
    ensures before.Ok? && before.value.Some? && deleted == Ok(false) ==> r == Fail(400, NotDeleted)
    ensures r.status == 200 <==> before.Ok? && before.value.Some? && deleted == Ok(true)
    ensures r.status == 200 ==> r.success && r.data.None?
    ensures r.status in {200, 400, 404, 500}
  {
    if before.Throws? then Fail(500, ServerError)
    else if before.value.None? then Fail(404, NotFound)
    else if deleted.Throws? then Fail(500, ServerError)
    else if !deleted.value then Fail(400, NotDeleted)
    else Succeed(200, Some(Deleted), None)
  }
}
