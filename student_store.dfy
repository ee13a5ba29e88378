/** The front end's student store (`studentStore.ts`): the student list,
    the form being edited, the search inputs and the loading and error
    flags, shared by every component, and the actions that change them.
    Each action that talks to the server takes the server's answers as
    inputs. */
module StudentStore {
  import opened Js
  import opened Sql
  import opened StudentApi
  import StudentModel

  /** The error line the store shows; the Lao wording is left out. */
  datatype Notice = NoNotice | CannotFetch | CannotSearch | CannotAdd | CannotUpdate | CannotDelete | NotFound

  /** `emptyStudent()`: the blank form. It has no `_id` property. */
  const EmptyStudent: Student := Student(
    "", "", "", "M", "", "", "", "", "", "", "", "", "", "", "ລາວ", "", "", "", "", Undef)

  /** `students.find(s => s.studentId === studentId)`: the first student
      with that id. */
  function Find(students: seq<Student>, studentId: string): (r: Option<Student>)
    ensures r.None? <==> forall i :: 0 <= i < |students| ==> students[i].studentId != studentId
    ensures r.Some? ==> exists i :: 0 <= i < |students| && students[i] == r.value
                                    && students[i].studentId == studentId
                                    && forall j :: 0 <= j < i ==> students[j].studentId != studentId
  {
    if students == [] then None
    else if students[0].studentId == studentId then Some(students[0])
    else
      var r := Find(students[1..], studentId);
      assert forall j :: 1 <= j < |students| ==> students[j] == students[1..][j - 1];
      r
  }

  // ---------------------------------------------------------------------
  // student ids
  // ---------------------------------------------------------------------

  /** `parseInt(student.studentId || "0", 10)` */
  function IdNumber(s: Student): Num {
    ParseInt10(if s.studentId != "" then s.studentId else "0")
  }

  /** `students.map(student => parseInt(student.studentId || "0", 10))` */
  function ParsedIds(students: seq<Student>): (ns: seq<Num>)
    ensures |ns| == |students| && forall i :: 0 <= i < |students| ==> ns[i] == IdNumber(students[i])
  {
    seq(|students|, i requires 0 <= i < |students| => IdNumber(students[i]))
  }

  /** `.filter(id => !isNaN(id))`: the numbers, in order. */
  function NotNaN(ns: seq<Num>): (ids: seq<int>)
    ensures |ids| <= |ns|
  {
    if ns == [] then []
    else (if ns[0].Int? then [ns[0].value] else []) + NotNaN(ns[1..])
  }

  /** The ids that parse, in list order; the others are dropped. */
  function NumericIds(students: seq<Student>): (ids: seq<int>)
    ensures |ids| <= |students|
  {
    NotNaN(ParsedIds(students))
  }

  /** The filter keeps exactly the numbers of the list. */
  lemma {:induction false} NotNaNExact(ns: seq<Num>)
    ensures forall x :: x in NotNaN(ns) <==> exists i :: 0 <= i < |ns| && ns[i] == Int(x)
  {
    if ns != [] {
      NotNaNExact(ns[1..]);
      assert NotNaN(ns) == (if ns[0].Int? then [ns[0].value] else []) + NotNaN(ns[1..]);
      forall x | exists i :: 0 <= i < |ns| && ns[i] == Int(x)
        ensures x in NotNaN(ns)
      {
        var i :| 0 <= i < |ns| && ns[i] == Int(x);
        if i > 0 {
          assert ns[1..][i - 1] == Int(x);
        }
      }
      forall x | x in NotNaN(ns)
        ensures exists i :: 0 <= i < |ns| && ns[i] == Int(x)
      {
        if x !in NotNaN(ns[1..]) {
          assert ns[0] == Int(x);
        } else {
          var j :| 0 <= j < |ns[1..]| && ns[1..][j] == Int(x);
          assert ns[j + 1] == Int(x);
        }
      }
    }
  }

  /** A list with no number leaves nothing. */
  lemma {:induction false} NotNaNNone(ns: seq<Num>)
    requires forall i :: 0 <= i < |ns| ==> ns[i] == NaN
    ensures NotNaN(ns) == []
  {
    if ns != [] {
      NotNaNNone(ns[1..]);
    }
  }

  /** The numeric ids are exactly the ids of the students that parse. */
  lemma NumericIdsExact(students: seq<Student>)
    ensures forall x :: x in NumericIds(students) <==> exists i :: 0 <= i < |students| && IdNumber(students[i]) == Int(x)
  {
    NotNaNExact(ParsedIds(students));
  }

  /** `Math.max(...ids)` of a non-empty list. */
  function Max(ids: seq<int>): (m: int)
    requires ids != []
    ensures m in ids && forall x :: x in ids ==> x <= m
  {
    if |ids| == 1 then ids[0]
    else
      var m := Max(ids[1..]);
      assert forall x :: x in ids ==> x == ids[0] || x in ids[1..];
      if ids[0] > m then ids[0] else m
  }

  /** `(maxId + 1).toString().padStart(3, "0")` */
  function NextIdText(maxId: int): string {
    PadStart(IntToString(maxId + 1), 3, '0')
  }

  /** What `generateStudentId` as written leaves in the form's student id,
      None when it leaves it alone: nothing for an empty list, and with no
      numeric id the "001" it sets is overwritten by the text of
      `Math.max()` + 1, which is -Infinity. */
  function GeneratedAsWritten(students: seq<Student>): (r: Option<string>)
    ensures students == [] <==> r.None?
  {
    if students == [] then None
    else if NumericIds(students) == [] then Some("-Infinity")
    else Some(NextIdText(Max(NumericIds(students))))
  }

  /** The student id the form is evidently meant to get: "001" when no
      student has a numeric id, the largest plus one otherwise. */
  function Generated(students: seq<Student>): (id: string)
    ensures |id| >= 3
  {
    if NumericIds(students) == [] then "001" else NextIdText(Max(NumericIds(students)))
  }

  /** With no students, or none whose id is a number, the generated id is
      "001"; with some, as written and corrected agree. */
  lemma GeneratedCases(students: seq<Student>)
    ensures NumericIds(students) == [] ==> Generated(students) == "001"
    ensures NumericIds(students) != [] ==> GeneratedAsWritten(students) == Some(Generated(students))
  {
    if NumericIds(students) != [] {
      assert students != [];
    }
  }

  /** A list with non-negative ids: the generated id is the back end's next
      id after the largest one, it reads back as that number plus one, and
      it is above every student's id. */
  lemma GeneratedAboveAll(students: seq<Student>)
    requires NumericIds(students) != [] && Max(NumericIds(students)) >= 0
    ensures Generated(students) == StudentModel.NextStudentId(Max(NumericIds(students)))
    ensures ParseInt10(Generated(students)) == Int(Max(NumericIds(students)) + 1)
    ensures forall i :: 0 <= i < |students| && IdNumber(students[i]).Int? ==> IdNumber(students[i]).value < ParseInt10(Generated(students)).value
  {
    var ids := NumericIds(students);
    var m := Max(ids);
    var g := Generated(students);
    assert g == NextIdText(m);
    assert IntToString(m + 1) == NatToString(m + 1);
    assert g == StudentModel.NextStudentId(m);
    StudentModel.NextStudentIdParses(m);
    assert ParseInt10(g) == Int(m + 1);
    NumericIdsExact(students);
    forall i | 0 <= i < |students| && IdNumber(students[i]).Int?
      ensures IdNumber(students[i]).value < m + 1
    {
      assert IdNumber(students[i]).value in ids;
    }
  }

  /** A list in which no id is numeric: as written the form's id becomes
      "-Infinity" where "001" is meant. */
  lemma {:induction false} NonNumericIdsAsWritten(students: seq<Student>)
    requires students != []
    requires forall i :: 0 <= i < |students| ==> IdNumber(students[i]) == NaN
    ensures GeneratedAsWritten(students) == Some("-Infinity") && Generated(students) == "001"
  {
    NoNumericIds(students);
  }

  lemma NoNumericIds(students: seq<Student>)
    requires forall i :: 0 <= i < |students| ==> IdNumber(students[i]) == NaN
    ensures NumericIds(students) == []
  {
    NotNaNNone(ParsedIds(students));
  }

  /** The id "abc" is not numeric: `parseInt("abc", 10)` is NaN. */
  lemma AbcIsNotNumeric()
    ensures IdNumber(EmptyStudent.(studentId := "abc")) == NaN
  {
    LetterFirstNotNumeric("abc");
  }

  /** An id starting with a lower-case letter does not parse. */
  lemma LetterFirstNotNumeric(id: string)
    requires id != [] && 'a' <= id[0] <= 'z'
    ensures ParseInt10(id) == NaN
  {
    assert !IsSpace(id[0]);
    assert TrimStart(id) == id;
    assert !IsDigitIn(id[0], 10);
    assert DigitRun(id, 10) == 0;
  }

  // ---------------------------------------------------------------------
  // the new-student form
  // ---------------------------------------------------------------------

  /** `startNew` as written: `Object.assign` of the blank form keeps the
      `_id` of the form before, since the blank form has none, and the
      "001" that `generateStudentId` returns for an empty list is dropped. */
  function NewFormAsWritten(students: seq<Student>, current: Student): (f: Student)
    ensures f.recordId == current.recordId
    ensures students == [] ==> f.studentId == ""
  {
    var blank := EmptyStudent.(recordId := current.recordId);
    match GeneratedAsWritten(students)
    case None => blank
    case Some(id) => blank.(studentId := id)
  }

  /** `startNew` as evidently meant: the blank form with the generated id. */
  function NewForm(students: seq<Student>): (f: Student)
    ensures f.recordId == Undef && f.studentId == Generated(students)
    ensures f.(studentId := "") == EmptyStudent
  {
    EmptyStudent.(studentId := Generated(students))
  }

  /** After editing the student "u1" with an empty list of students, the
      new form as written still carries `_id` "u1" and an empty student id. */
  lemma NewFormKeepsOldIdAsWritten()
    ensures var edited := EmptyStudent.(studentId := "001", recordId := Val("u1"));
      && NewFormAsWritten([], edited).recordId == Val("u1")
      && NewFormAsWritten([], edited).studentId == ""
      && NewForm([]).recordId == Undef
      && NewForm([]).studentId == "001"
  {
    GeneratedCases([]);
  }

  // ---------------------------------------------------------------------
  // tuition
  // ---------------------------------------------------------------------

  /** The fee table of `getTuitionFee`, by level name. */
  const Fees: map<string, nat> := map[
    "ຊັ້ນ ມ 1" := 60000, "ຊັ້ນ ມ 2" := 65000, "ຊັ້ນ ມ 3" := 70000,
    "ຊັ້ນ ມ 4" := 75000, "ຊັ້ນ ມ 5" := 80000, "ຊັ້ນ ມ 6" := 85000]

  /** `fees[yearLevel] || 50000` */
  function TuitionFee(yearLevel: string): (fee: nat)
    ensures yearLevel in Fees ==> fee == Fees[yearLevel]
    ensures yearLevel !in Fees ==> fee == 50000
  {
    if yearLevel in Fees && Fees[yearLevel] != 0 then Fees[yearLevel] else 50000
  }

  /** Every fee is at least the default, and the six listed levels cost
      more than the default. */
  lemma TuitionFeeBounds(yearLevel: string)
    ensures 50000 <= TuitionFee(yearLevel) <= 85000
    ensures yearLevel in Fees <==> TuitionFee(yearLevel) > 50000
  {
  }

  // ---------------------------------------------------------------------
  // the store
  // ---------------------------------------------------------------------

  class Store {
    var students: seq<Student>
    /** The form being filled in. */
    var currentStudent: Student
    var isEditing: bool
    var searchQuery: string
    var selectedGender: string
    var isLoading: bool
    var errorMessage: Notice

    constructor ()
      ensures students == [] && currentStudent == EmptyStudent && !isEditing
      ensures searchQuery == "" && selectedGender == "all" && !isLoading && errorMessage == NoNotice
    {
      students := [];
      currentStudent := EmptyStudent;
      isEditing := false;
      searchQuery := "";
      selectedGender := "all";
      isLoading := false;
      errorMessage := NoNotice;
    }

    /** `fetchAllStudents`: the list is replaced by the server's, or kept
        with an error shown; loading is over on every path. */
    method FetchAllStudents(response: Outcome<seq<ApiStudent>>) returns (ok: bool)
      modifies this
      ensures ok <==> response.Ok?
      ensures ok ==> students == MapAll(response).value && errorMessage == NoNotice
      ensures !ok ==> students == old(students) && errorMessage == CannotFetch
      ensures !isLoading
      ensures currentStudent == old(currentStudent) && isEditing == old(isEditing)
      ensures searchQuery == old(searchQuery) && selectedGender == old(selectedGender)
    {
      isLoading := true;
      errorMessage := NoNotice;
      var data := MapAll(response);
      if data.Throws? {
        errorMessage := CannotFetch;
        ok := false;
      } else {
        students := data.value;
        ok := true;
      }
      isLoading := false;
    }

    /** `searchStudents`: the gender is sent unless it is 'all', and the
        list is replaced by the matches. */
    method SearchStudents(response: Outcome<seq<ApiStudent>>) returns (params: map<string, string>, ok: bool)
      modifies this
      ensures params == SearchParams(old(searchQuery), if old(selectedGender) != "all" then Val(old(selectedGender)) else Undef)
      ensures "gender" in params <==> old(selectedGender) != "all" && old(selectedGender) != ""
      ensures ok <==> response.Ok?
      ensures ok ==> students == MapAll(response).value && errorMessage == NoNotice
      ensures !ok ==> students == old(students) && errorMessage == CannotSearch
      ensures !isLoading
      ensures currentStudent == old(currentStudent) && isEditing == old(isEditing)
      ensures searchQuery == old(searchQuery) && selectedGender == old(selectedGender)
    {
      isLoading := true;
      errorMessage := NoNotice;
      var gender := if selectedGender != "all" then Val(selectedGender) else Undef;
      var sent := StudentApi.SearchStudents(searchQuery, gender, response);
      params := sent.0;
      if sent.1.Throws? {
        errorMessage := CannotSearch;
        ok := false;
      } else {
        students := sent.1.value;
        ok := true;
      }
      isLoading := false;
    }

    /** `addStudent`: the new record's id once created, after which the
        list is fetched again; a failed refetch shows its own error but the
        id is still answered. */
    method AddStudent(student: Student, created: Outcome<string>, refetch: Outcome<seq<ApiStudent>>)
      returns (body: ApiStudent, r: Option<string>)
      modifies this
      ensures body == MapToApiStudent(student)
      ensures r.Some? <==> created.Ok?
      ensures r.Some? ==> r.value == created.value
      ensures students == if created.Ok? && refetch.Ok? then MapAll(refetch).value else old(students)
      ensures errorMessage == if created.Throws? then CannotAdd else if refetch.Throws? then CannotFetch else NoNotice
      ensures !isLoading
      ensures currentStudent == old(currentStudent) && isEditing == old(isEditing)
      ensures searchQuery == old(searchQuery) && selectedGender == old(selectedGender)
    {
      isLoading := true;
      errorMessage := NoNotice;
      var sent := StudentApi.CreateStudent(student, created);
      body := sent.0;
      if sent.1.Throws? {
        errorMessage := CannotAdd;
        r := None;
      } else {
        var _ := FetchAllStudents(refetch);
        r := Some(sent.1.value);
      }
      isLoading := false;
    }

    /** `updateStudent`: a student without `_id` is refused before any
        request; otherwise the PUT, then the list is fetched again. */
    method UpdateStudent(student: Student, response: Outcome<()>, refetch: Outcome<seq<ApiStudent>>)
      returns (sent: Option<(string, ApiStudent)>, ok: bool)
      modifies this
      ensures sent == UpdateStudentRequest(student)
      ensures ok <==> Truthy(student.recordId) && response.Ok?
      ensures students == if ok && refetch.Ok? then MapAll(refetch).value else old(students)
      ensures errorMessage == if !ok then CannotUpdate else if refetch.Throws? then CannotFetch else NoNotice
      ensures !isLoading
      ensures currentStudent == old(currentStudent) && isEditing == old(isEditing)
      ensures searchQuery == old(searchQuery) && selectedGender == old(selectedGender)
    {
      isLoading := true;
      errorMessage := NoNotice;
      var call := StudentApi.UpdateStudent(student, response);
      sent := call.0;
      if call.1.Throws? {
        errorMessage := CannotUpdate;
        ok := false;
      } else {
        var _ := FetchAllStudents(refetch);
        ok := true;
      }
      isLoading := false;
    }

    /** `deleteStudent`: an unknown student id, or a student without `_id`,
        shows "not found" and makes no request; otherwise the DELETE under
        `_id`, then the list is fetched again. */
    method DeleteStudent(studentId: string, response: Outcome<()>, refetch: Outcome<seq<ApiStudent>>)
      returns (sent: Option<string>, ok: bool)
      modifies this
      ensures var found := Find(old(students), studentId);
        sent == if found.Some? && Truthy(found.value.recordId) then Some(found.value.recordId.v) else None
      ensures ok <==> sent.Some? && response.Ok?
      ensures students == if ok && refetch.Ok? then MapAll(refetch).value else old(students)
      ensures errorMessage == if sent.None? then NotFound else if !ok then CannotDelete
                              else if refetch.Throws? then CannotFetch else NoNotice
      ensures !isLoading
      ensures currentStudent == old(currentStudent) && isEditing == old(isEditing)
      ensures searchQuery == old(searchQuery) && selectedGender == old(selectedGender)
    {
      isLoading := true;
      errorMessage := NoNotice;
      var student := Find(students, studentId);
      if student.None? || !Truthy(student.value.recordId) {
        errorMessage := NotFound;
        isLoading := false;
        return None, false;
      }
      sent := Some(student.value.recordId.v);
      var deleted := StudentApi.DeleteStudent(sent.value, response);
      if deleted.Throws? {
        errorMessage := CannotDelete;
        ok := false;
      } else {
        var _ := FetchAllStudents(refetch);
        ok := true;
      }
      isLoading := false;
    }

    /** `startEdit`: the form becomes a copy of the first student with that
        id and editing starts; an unknown id changes nothing. */
    method StartEdit(studentId: string) returns (found: bool)
      modifies this
      ensures found <==> exists i :: 0 <= i < |students| && students[i].studentId == studentId
      ensures found ==> currentStudent == Find(students, studentId).value && isEditing
      ensures !found ==> currentStudent == old(currentStudent) && isEditing == old(isEditing)
      ensures students == old(students) && isLoading == old(isLoading) && errorMessage == old(errorMessage)
      ensures searchQuery == old(searchQuery) && selectedGender == old(selectedGender)
    {
      var student := Find(students, studentId);
      if student.Some? {
        currentStudent := student.value;
        isEditing := true;
        return true;
      }
      return false;
    }

    /** `generateStudentId` as written. */
    method GenerateStudentIdAsWritten() returns (r: Opt<string>)
      modifies this
      ensures r == if old(students) == [] then Val("001") else Undef
      ensures currentStudent == match GeneratedAsWritten(students)
                                case None => old(currentStudent)
                                case Some(id) => old(currentStudent).(studentId := id)
      ensures students == old(students) && isEditing == old(isEditing) && isLoading == old(isLoading)
      ensures errorMessage == old(errorMessage) && searchQuery == old(searchQuery) && selectedGender == old(selectedGender)
    {
      if |students| == 0 {
        return Val("001");
      }
      var numericIds := NumericIds(students);
      if |numericIds| == 0 {
        currentStudent := currentStudent.(studentId := "001");
        currentStudent := currentStudent.(studentId := "-Infinity");
      } else {
        var maxId := Max(numericIds);
        currentStudent := currentStudent.(studentId := NextIdText(maxId));
      }
      r := Undef;
    }

    /** `startNew` as written. */
    method StartNewAsWritten()
      modifies this
      ensures currentStudent == NewFormAsWritten(students, old(currentStudent)) && !isEditing
      ensures students == old(students) && isLoading == old(isLoading) && errorMessage == old(errorMessage)
      ensures searchQuery == old(searchQuery) && selectedGender == old(selectedGender)
    {
      currentStudent := EmptyStudent.(recordId := currentStudent.recordId);
      var _ := GenerateStudentIdAsWritten();
      isEditing := false;
    }

    /** `generateStudentId` as evidently meant: the form's student id is
        "001" when no student has a numeric id. */
    method GenerateStudentId() returns (id: string)
      modifies this
      ensures id == Generated(students) && currentStudent == old(currentStudent).(studentId := id)
      ensures students == old(students) && isEditing == old(isEditing) && isLoading == old(isLoading)
      ensures errorMessage == old(errorMessage) && searchQuery == old(searchQuery) && selectedGender == old(selectedGender)
    {
      var numericIds := NumericIds(students);
      if |numericIds| == 0 {
        id := "001";
      } else {
        var maxId := Max(numericIds);
        id := NextIdText(maxId);
      }
      assert id == Generated(students);
      currentStudent := currentStudent.(studentId := id);
    }

    /** `startNew` as evidently meant: the blank form, without the `_id` of
        the student edited before, with the generated student id. */
    method StartNew()
      modifies this
      ensures currentStudent == NewForm(students) && !isEditing
      ensures students == old(students) && isLoading == old(isLoading) && errorMessage == old(errorMessage)
      ensures searchQuery == old(searchQuery) && selectedGender == old(selectedGender)
    {
      currentStudent := EmptyStudent;
      var _ := GenerateStudentId();
      isEditing := false;
    }

    /** `clearSearch`: the search inputs are reset, then the full list is
        fetched again. */
    method ClearSearch(refetch: Outcome<seq<ApiStudent>>)
      modifies this
      ensures searchQuery == "" && selectedGender == "all"
      ensures students == if refetch.Ok? then MapAll(refetch).value else old(students)
      ensures errorMessage == if refetch.Ok? then NoNotice else CannotFetch
      ensures !isLoading && currentStudent == old(currentStudent) && isEditing == old(isEditing)
    {
      searchQuery := "";
      selectedGender := "all";
      var _ := FetchAllStudents(refetch);
    }
  }

  /** The request `updateStudent` makes: none without `_id`. */
  function UpdateStudentRequest(s: Student): (sent: Option<(string, ApiStudent)>)
    ensures sent.None? <==> !Truthy(s.recordId)
  {
    StudentApi.UpdateStudent(s, Ok(())).0
  }
}
