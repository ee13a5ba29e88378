/** The older student access object (`student.ts`): plain lookups, an
    INSERT that stores the record verbatim, an UPDATE whose SET list is built
    from whatever keys the partial record carries, the three-column search
    and the registration listings. */
module StudentRecord {
  import opened Js
  import opened Sql
  import StudentModel

  /** A `Partial<Student>` as its own keys with their values, in
      `Object.keys` order (insertion order; keys are distinct). */
  type Entries = seq<(string, Value)>

  /** `keys.map(key => key + ' = ?')` */
  function KeyFrags(e: Entries): (frags: seq<seq<Tok>>)
    ensures |frags| == |e|
    ensures forall i :: 0 <= i < |e| ==> frags[i] == Placeholder(e[i].0 + " = ")
  {
    seq(|e|, i requires 0 <= i < |e| => Placeholder(e[i].0 + " = "))
  }

  /** `Object.values(student)` */
  function EntryValues(e: Entries): (values: seq<Value>)
    ensures |values| == |e|
    ensures forall i :: 0 <= i < |e| ==> values[i] == e[i].1
  {
    seq(|e|, i requires 0 <= i < |e| => e[i].1)
  }

  /** One placeholder per key. */
  lemma {:induction false} KeyFragsHoles(e: Entries)
    ensures HolesAll(KeyFrags(e)) == |e|
  {
    if e != [] {
      KeyFragsHoles(e[1..]);
      var frags := KeyFrags(e);
      assert frags == [frags[0]] + KeyFrags(e[1..]);
      HolesAllConcat([frags[0]], KeyFrags(e[1..]));
      assert [frags[0]][1..] == [];
    }
  }

  const UpdateHead: seq<Tok> := [Word("UPDATE students SET ")]

  /** The statement `update` sends: none for an empty partial, otherwise one
      `key = ?` per key, in key order, the values in the same order and the
      id as the last parameter. */
  function UpdateQuery(id: string, e: Entries): (q: Option<Query>)
    ensures q.None? <==> e == []
    ensures q.Some? ==> Paired(q.value)
    ensures q.Some? ==> |q.value.params| == |e| + 1 && q.value.params[|e|] == VText(id)
    ensures q.Some? ==> forall i :: 0 <= i < |e| ==> q.value.params[i] == e[i].1
  {
    if e == [] then None
    else
      KeyFragsHoles(e);
      UpdateByIdPaired(UpdateHead, KeyFrags(e), EntryValues(e), VText(id));
      Some(UpdateById(UpdateHead, KeyFrags(e), EntryValues(e), VText(id)))
  }

  /** `update`: false at once for an empty partial, otherwise whether a row
      was affected; a database error is rethrown. */
  function Update(e: Entries, db: Outcome<nat>): (r: Outcome<bool>)
    ensures e == [] ==> r == Ok(false)
    ensures e != [] ==> (r.Ok? <==> db.Ok?) && (r.Ok? ==> (r.value <==> db.value > 0))
  {
    if e == [] then Ok(false) else AffectedAny(db)
  }

  /** The SET list names exactly the keys of the partial, in order. */
  lemma UpdateNamesKeys(id: string, e: Entries)
    requires e != []
    ensures UpdateQuery(id, e).value.sql == UpdateHead + JoinToks(KeyFrags(e), ", ") + [Word(" WHERE id = "), Hole]
  {
  }

  // ---------------------------------------------------------------------
  // create / lookups / delete
  // ---------------------------------------------------------------------

  /** The 19 values of the INSERT: the fresh id, then the record's fields
      exactly as given, with no defaults. */
  function CreateParams(id: string, d: StudentModel.CreateStudentDto): (p: seq<Value>)
    ensures |p| == 19 && p[0] == VText(id) && p[1] == TextValue(d.student_id)
  {
    [ VText(id), TextValue(d.student_id), TextValue(d.student_name_lao), TextValue(d.guardian_phone),
      TextValue(d.gender), TextValue(d.province), TextValue(d.district), TextValue(d.village),
      TextValue(d.id_number), TextValue(d.id_issued_date), TextValue(d.birth_village),
      TextValue(d.birth_district), TextValue(d.birth_province), TextValue(d.ethnicity),
      TextValue(d.religion), TextValue(d.nationality), TextValue(d.date_of_birth),
      TextValue(d.phone_number), TextValue(d.photo_url) ]
  }

  /** `create`: the statement it sends and the id it answers, which is the
      fresh uuid whatever the record holds. */
  function Create(uuid: string, d: StudentModel.CreateStudentDto, db: Outcome<()>): (r: (Query, Outcome<string>))
    ensures Paired(r.0) && r.0.params == CreateParams(uuid, d)
    ensures r.1 == if db.Ok? then Ok(uuid) else Throws
  {
    (StudentModel.InsertStatement(CreateParams(uuid, d)), if db.Ok? then Ok(uuid) else Throws)
  }

  /** Unlike the newer model, an omitted field is sent as given (undefined
      or null) rather than replaced by a default. */
  lemma CreateHasNoDefaults(uuid: string, d: StudentModel.CreateStudentDto)
    ensures !Defined(d.nationality) ==> CreateParams(uuid, d)[15] == VUndefined
    ensures d.nationality.Null? ==> CreateParams(uuid, d)[15] == VNull
  {
  }

  /** `findAll`: every row with its dates formatted (only the truthy ones). */
  function FindAll(rows: seq<Row>): (r: seq<Row>)
    ensures |r| == |rows|
    ensures forall i :: 0 <= i < |rows| ==> r[i] == StudentModel.FormatStudent(rows[i])
  {
    StudentModel.FormatAll(rows)
  }

  /** `findById` and `findByStudentId`: the first row, formatted, or null. */
  function FindFirst(rows: seq<Row>): (r: Option<Row>)
    ensures r.Some? <==> |rows| > 0
    ensures r.Some? ==> r.value == StudentModel.FormatStudent(rows[0])
  {
    if |rows| > 0 then Some(StudentModel.FormatStudent(rows[0])) else None
  }

  // ---------------------------------------------------------------------
  // search
  // ---------------------------------------------------------------------

  const SearchHead: seq<Tok> :=
    Placeholders(["SELECT * FROM students WHERE student_id LIKE ", " OR student_name_lao LIKE ", " OR phone_number LIKE "])

  /** `search`: the same `%query%` pattern bound to all three LIKEs. */
  function SearchQuery(query: string): (q: Query)
    ensures Paired(q) && |q.params| == 3
    ensures forall i :: 0 <= i < 3 ==> q.params[i] == Contains(query)
  {
    var p := Contains(query);
    Query(SearchHead, [p, p, p])
  }

  // ---------------------------------------------------------------------
  // registrations
  // ---------------------------------------------------------------------

  const RegistrationHead: seq<Tok> :=
    [Word("SELECT r.*, s.student_name_lao as student_name, c.name as classroom, l.name as level, sy.name as school_year, s.phone_number as student_phone FROM registrations r JOIN students s ON r.student_id = s.id JOIN classrooms c ON r.classroom_id = c.id JOIN levels l ON c.level_id = l.id JOIN school_years sy ON r.school_year_id = sy.id")]

  /** `getRegistrations`: `WHERE r.student_id = ?` with its one parameter
      only when a student id is given. */
  function RegistrationsQuery(studentId: Opt<string>): (q: Query)
    ensures Paired(q)
    ensures Truthy(studentId) ==> q == Query(RegistrationHead + Placeholder(" WHERE r.student_id = "), [VText(studentId.v)])
    ensures !Truthy(studentId) ==> q == Query(RegistrationHead, [])
  {
    if Truthy(studentId) then
      HolesConcat(RegistrationHead, Placeholder(" WHERE r.student_id = "));
      Query(RegistrationHead + Placeholder(" WHERE r.student_id = "), [VText(studentId.v)])
    else Query(RegistrationHead, [])
  }

  /** The registration date of a row is reformatted only when set. */
  function FormatRegistration(row: Row): Row {
    FormatDate(row, "registration_date")
  }

  function FormatRegistrations(rows: seq<Row>): (r: seq<Row>)
    ensures |r| == |rows|
    ensures forall i :: 0 <= i < |rows| ==> r[i] == FormatRegistration(rows[i])
  {
    seq(|rows|, i requires 0 <= i < |rows| => FormatRegistration(rows[i]))
  }

  /** `getRegistrationByInvoiceId`: the registration with that invoice id. */
  function ByInvoiceQuery(invoiceId: string): (q: Query)
    ensures Paired(q) && q.params == [VText(invoiceId)]
  {
    HolesConcat(RegistrationHead, Placeholder(" WHERE r.invoice_id = "));
    Query(RegistrationHead + Placeholder(" WHERE r.invoice_id = "), [VText(invoiceId)])
  }

  /** `getRegistrationByInvoiceId`: the first row, its date formatted, or null. */
  function FirstRegistration(rows: seq<Row>): (r: Option<Row>)
    ensures r.Some? <==> |rows| > 0
    ensures r.Some? ==> r.value == FormatRegistration(rows[0])
  {
    if |rows| > 0 then Some(FormatRegistration(rows[0])) else None
  }

  const SearchRegistrationsTail: seq<Tok> :=
    Placeholders([" WHERE r.invoice_id LIKE ", " OR s.student_id LIKE ", " OR s.student_name_lao LIKE ", " OR s.phone_number LIKE "])

  /** `searchRegistrations`: one pattern bound to all four LIKEs. */
  function SearchRegistrationsQuery(query: string): (q: Query)
    ensures Paired(q) && |q.params| == 4
    ensures q.params == seq(4, _ => Contains(query))
  {
    var t := SearchRegistrationsTail;
    HolesConcat(RegistrationHead, t);
    var p := Contains(query);
    Query(RegistrationHead + t, [p, p, p, p])
  }

  /** `updatePaymentStatus`: the flag first, the registration id last. */
  function PaymentStatusQuery(registrationId: string, isPaid: bool): (q: Query)
    ensures Paired(q) && q.params == [VBool(isPaid), VText(registrationId)]
  {
    Query(Placeholders(["UPDATE registrations SET is_paid = ", " WHERE id = "]), [VBool(isPaid), VText(registrationId)])
  }
}
