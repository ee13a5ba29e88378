/** The front end's student client (`studentApi.ts`): the mapping between
    the server's snake_case rows and the form's camelCase record, the
    search parameters, the guard of the update, and the getters that turn
    a 404 into null. The HTTP calls themselves are inputs: what the server
    answered, or that the request failed. */
module StudentApi {
  import opened Js
  import opened Sql

  /** A student as the form holds it (`types/student.ts`). `recordId` is
      the optional `_id` property: the server's internal id, kept for
      updates. */
  datatype Student = Student(
    studentId: string, studentNameLao: string, guardianPhone: string, gender: string,
    province: string, district: string, village: string, idNumber: string, idIssuedDate: string,
    birthVillage: string, birthDistrict: string, birthProvince: string, ethnicity: string,
    religion: string, nationality: string, dateOfBirth: string, phoneNumber: string,
    photoUrl: string, searchQuery: string, recordId: Opt<string>)

  /** A student row as the server sends and receives it. `photo_url` may be
      null or absent; `id` is absent from what the client sends. */
  datatype ApiStudent = ApiStudent(
    student_id: string, student_name_lao: string, guardian_phone: string, gender: string,
    province: string, district: string, village: string, id_number: string, id_issued_date: string,
    birth_village: string, birth_district: string, birth_province: string, ethnicity: string,
    religion: string, nationality: string, date_of_birth: string, phone_number: string,
    photo_url: Opt<string>, id: Opt<string>)

  /** `x || ''` */
  function OrEmpty(x: Opt<string>): (s: string)
    ensures Truthy(x) ==> s == x.v
    ensures !Truthy(x) ==> s == ""
  {
    if Truthy(x) then x.v else ""
  }

  /** `mapStudent`: field by field, a missing photo as '', an empty search
      query, and the row's id as `_id`. */
  function MapStudent(a: ApiStudent): (s: Student)
    ensures s.photoUrl == OrEmpty(a.photo_url) && s.searchQuery == "" && s.recordId == a.id
  {
    Student(
      a.student_id, a.student_name_lao, a.guardian_phone, a.gender,
      a.province, a.district, a.village, a.id_number, a.id_issued_date,
      a.birth_village, a.birth_district, a.birth_province, a.ethnicity,
      a.religion, a.nationality, a.date_of_birth, a.phone_number,
      OrEmpty(a.photo_url), "", a.id)
  }

  /** `mapToApiStudent`: the eighteen fields back in snake_case; neither
      the search query nor any id is sent. */
  function MapToApiStudent(s: Student): (a: ApiStudent)
    ensures a.id == Undef && a.photo_url == Val(s.photoUrl)
  {
    ApiStudent(
      s.studentId, s.studentNameLao, s.guardianPhone, s.gender,
      s.province, s.district, s.village, s.idNumber, s.idIssuedDate,
      s.birthVillage, s.birthDistrict, s.birthProvince, s.ethnicity,
      s.religion, s.nationality, s.dateOfBirth, s.phoneNumber,
      Val(s.photoUrl), Undef)
  }

  /** A row read and sent back reproduces the row's fields, except that a
      missing photo is sent as '' and the id is not sent. */
  lemma ApiRoundTrip(a: ApiStudent)
    ensures MapToApiStudent(MapStudent(a)) == a.(photo_url := Val(OrEmpty(a.photo_url)), id := Undef)
    ensures Truthy(a.photo_url) ==> MapToApiStudent(MapStudent(a)) == a.(id := Undef)
  {
  }

  /** A form sent and read back is the same form with an empty search query
      and no `_id`. */
  lemma StudentRoundTrip(s: Student)
    ensures MapStudent(MapToApiStudent(s)) == s.(searchQuery := "", recordId := Undef)
  {
    assert OrEmpty(Val(s.photoUrl)) == s.photoUrl;
  }

  /** A form read from the server and sent back unchanged is read again as
      the same form, apart from `_id`. */
  lemma FormRoundTrip(a: ApiStudent)
    ensures MapStudent(MapToApiStudent(MapStudent(a))) == MapStudent(a).(recordId := Undef)
  {
    StudentRoundTrip(MapStudent(a));
  }

  /** `getAllStudents`: `response.data.data.map(mapStudent)`, an error
      rethrown. */
  function MapAll(response: Outcome<seq<ApiStudent>>): (r: Outcome<seq<Student>>)
    ensures r.Ok? <==> response.Ok?
    ensures r.Ok? ==> |r.value| == |response.value| && forall i :: 0 <= i < |r.value| ==> r.value[i] == MapStudent(response.value[i])
  {
    if response.Throws? then Throws
    else Ok(seq(|response.value|, i requires 0 <= i < |response.value| => MapStudent(response.value[i])))
  }

  /** The query parameters of `searchStudents`: `query` only when non-empty,
      `gender` only when given and other than 'all'. */
  function SearchParams(query: string, gender: Opt<string>): (p: map<string, string>)
    ensures "query" in p <==> query != ""
    ensures "gender" in p <==> Truthy(gender) && gender.v != "all"
    ensures forall k :: k in p ==> k == "query" || k == "gender"
    ensures "query" in p ==> p["query"] == query
    ensures "gender" in p ==> p["gender"] == gender.v
  {
    var p: map<string, string> := map[];
    var p := if query != "" then p["query" := query] else p;
    if Truthy(gender) && gender.v != "all" then p["gender" := gender.v] else p
  }

  /** `searchStudents`: the parameters sent, and the matching students. */
  function SearchStudents(query: string, gender: Opt<string>, response: Outcome<seq<ApiStudent>>): (r: (map<string, string>, Outcome<seq<Student>>))
    ensures r.0 == SearchParams(query, gender) && r.1 == MapAll(response)
  {
    (SearchParams(query, gender), MapAll(response))
  }

  /** What a GET of one record came back with: the record, an HTTP error
      status, or no response at all. */
  datatype Fetched<T> = Got(record: T) | HttpError(status: int) | NoResponse

  /** The catch of the single-record getters: a 404 is null, any other
      failure is rethrown. */
  function NullOn404<T>(f: Fetched<T>): (r: Outcome<Option<T>>)
    ensures r == Ok(None) <==> f == HttpError(404)
    ensures r.Throws? <==> f.NoResponse? || (f.HttpError? && f.status != 404)
    ensures f.Got? ==> r == Ok(Some(f.record))
  {
    match f
    case Got(x) => Ok(Some(x))
    case HttpError(status) => if status == 404 then Ok(None) else Throws
    case NoResponse => Throws
  }

  function MapFound(r: Outcome<Option<ApiStudent>>): Outcome<Option<Student>> {
    match r
    case Ok(Some(a)) => Ok(Some(MapStudent(a)))
    case Ok(None) => Ok(None)
    case Throws => Throws
  }

  /** `getStudentById` and `getStudentByStudentId`: the mapped student,
      null on a 404, an error otherwise. */
  function GetStudent(f: Fetched<ApiStudent>): (r: Outcome<Option<Student>>)
    ensures r == Ok(None) <==> f == HttpError(404)
    ensures r.Throws? <==> f.NoResponse? || (f.HttpError? && f.status != 404)
    ensures f.Got? ==> r == Ok(Some(MapStudent(f.record)))
  {
    MapFound(NullOn404(f))
  }

  /** `createStudent`: the body posted carries no id and no search query,
      and the answer is the new record's id. */
  function CreateStudent(s: Student, response: Outcome<string>): (r: (ApiStudent, Outcome<string>))
    ensures r.0.id == Undef && MapStudent(r.0) == s.(searchQuery := "", recordId := Undef)
    ensures r.1 == response
  {
    StudentRoundTrip(s);
    (MapToApiStudent(s), response)
  }

  /** `updateStudent`: a student without `_id` throws before any request;
      otherwise the mapped body is PUT under `_id` and the answer is true
      unless the request failed. */
  function UpdateStudent(s: Student, response: Outcome<()>): (r: (Option<(string, ApiStudent)>, Outcome<bool>))
    ensures !Truthy(s.recordId) ==> r == (None, Throws)
    ensures Truthy(s.recordId) ==> r.0 == Some((s.recordId.v, MapToApiStudent(s)))
    ensures Truthy(s.recordId) ==> (r.1 == Ok(true) <==> response.Ok?) && (r.1.Throws? <==> response.Throws?)
  {
    if !Truthy(s.recordId) then (None, Throws)
    else (Some((s.recordId.v, MapToApiStudent(s))), if response.Ok? then Ok(true) else Throws)
  }

  /** `deleteStudent`: true once the DELETE succeeds. */
  function DeleteStudent(id: string, response: Outcome<()>): (r: Outcome<bool>)
    ensures r.Ok? <==> response.Ok?
    ensures r.Ok? ==> r.value
  {
    if response.Ok? then Ok(true) else Throws
  }
}
