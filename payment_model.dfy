/** Payments (`paymentModel.ts`): recording a payment inserts it and flags
    its registration as paid inside one transaction; the two lookups read
    payments back. The tables are abstract maps keyed by id. */
module PaymentModel {
  import opened Js
  import opened Sql
  import opened Transaction

  /** A payment as the client sends it. */
  datatype PaymentInfo = PaymentInfo(
    id: Opt<string>,
    registration_id: string,
    amount: Num,
    payment_date: string,
    payment_method: string,
    receipt_number: Opt<string>,
    note: Opt<string>,
    received_by: string)

  /** The stored payments (id to the values of the INSERT) and the paid flag
      of every registration. */
  datatype Tables = Tables(payments: map<string, seq<Value>>, isPaid: map<string, bool>)

  /** `paymentData.id || uuidv4()` */
  function PaymentId(p: PaymentInfo, uuid: string): (id: string)
    ensures Truthy(p.id) ==> id == p.id.v
    ensures !Truthy(p.id) ==> id == uuid
  {
    if Truthy(p.id) then p.id.v else uuid
  }

  /** `x || null` for an optional text column. */
  function TextOrNull(x: Opt<string>): (v: Value)
    ensures Truthy(x) ==> v == VText(x.v)
    ensures !Truthy(x) ==> v == VNull
  {
    if Truthy(x) then VText(x.v) else VNull
  }

  /** The eight values bound to the INSERT, in column order. */
  function PaymentValues(p: PaymentInfo, id: string): (v: seq<Value>)
    ensures |v| == 8 && v[0] == VText(id) && v[1] == VText(p.registration_id)
  {
    [ VText(id), VText(p.registration_id), NumValue(p.amount), VText(p.payment_date),
      VText(p.payment_method), TextOrNull(p.receipt_number), TextOrNull(p.note), VText(p.received_by) ]
  }

  /** A missing or empty receipt number or note is stored as null. */
  lemma MissingNotesAreNull(p: PaymentInfo, id: string)
    ensures !Truthy(p.receipt_number) ==> PaymentValues(p, id)[5] == VNull
    ensures !Truthy(p.note) ==> PaymentValues(p, id)[6] == VNull
    ensures Truthy(p.note) ==> PaymentValues(p, id)[6] == VText(p.note.v)
  {
  }

  const InsertPaymentHead := "INSERT INTO payments (id, registration_id, amount, payment_date, payment_method, receipt_number, note, received_by, created_at, updated_at) VALUES ("

  /** The INSERT with one placeholder for each of the eight values. */
  const InsertPaymentSql: seq<Tok> := Then(After(InsertPaymentHead, HoleList(8, ", ")), ", NOW(), NOW())")

  const FlagPaidSql: seq<Tok> := Placeholder("UPDATE registrations SET is_paid = 1, updated_at = NOW() WHERE id = ")

  /** The INSERT `create` sends. */
  function InsertQuery(p: PaymentInfo, uuid: string): (q: Query)
    ensures Paired(q) && q.params == PaymentValues(p, PaymentId(p, uuid))
  {
    Query(InsertPaymentSql, PaymentValues(p, PaymentId(p, uuid)))
  }

  /** The UPDATE that flags the registration paid. */
  function FlagQuery(p: PaymentInfo): (q: Query)
    ensures Paired(q) && q.params == [VText(p.registration_id)]
  {
    Query(FlagPaidSql, [VText(p.registration_id)])
  }

  /** The INSERT: a new payment row under its id. */
  function InsertPayment(t: Tables, id: string, values: seq<Value>): (t': Tables)
    ensures t'.payments == t.payments[id := values] && t'.isPaid == t.isPaid
  {
    t.(payments := t.payments[id := values])
  }

  /** `UPDATE registrations SET is_paid = 1 ... WHERE id = ?`: flags the
      registration when it exists, and matches nothing otherwise. */
  function FlagPaid(t: Tables, registrationId: string): (t': Tables)
    ensures t'.payments == t.payments
    ensures t'.isPaid.Keys == t.isPaid.Keys
    ensures registrationId in t.isPaid ==> t'.isPaid[registrationId]
    ensures forall r :: r in t.isPaid && r != registrationId ==> t'.isPaid[r] == t.isPaid[r]
  {
    if registrationId in t.isPaid then t.(isPaid := t.isPaid[registrationId := true]) else t
  }

  /** The tables after a payment has been recorded. */
  function Recorded(t: Tables, p: PaymentInfo, uuid: string): Tables {
    var id := PaymentId(p, uuid);
    FlagPaid(InsertPayment(t, id, PaymentValues(p, id)), p.registration_id)
  }

  /** A recorded payment is stored under its id with the values of the
      INSERT, every other payment is kept, the registration it pays for is
      flagged paid and every other registration keeps its flag. */
  lemma RecordedState(t: Tables, p: PaymentInfo, uuid: string)
    ensures var id := PaymentId(p, uuid);
      && Recorded(t, p, uuid).payments == t.payments[id := PaymentValues(p, id)]
      && Recorded(t, p, uuid).isPaid.Keys == t.isPaid.Keys
      && (p.registration_id in t.isPaid ==> Recorded(t, p, uuid).isPaid[p.registration_id])
      && forall r :: r in t.isPaid && r != p.registration_id ==> Recorded(t, p, uuid).isPaid[r] == t.isPaid[r]
  {
    var id := PaymentId(p, uuid);
    var t1 := InsertPayment(t, id, PaymentValues(p, id));
    assert Recorded(t, p, uuid) == FlagPaid(t1, p.registration_id);
  }

  /** `create`: inside one transaction, insert the payment (rejected when its
      id is taken or the server refuses it) and flag the registration. Both
      are committed together and the payment id is answered; on any failure
      both are rolled back and the error rethrown. The connection goes back
      to the pool on every path. */
  method Create(c: Connection<Tables>, uuid: string, p: PaymentInfo, insertRefused: bool, flagRefused: bool)
    returns (sent: seq<Query>, r: Outcome<string>)
    requires c.Valid() && c.held && !c.inTransaction
    modifies c
    ensures c.Valid() && !c.held && !c.inTransaction
    ensures sent == (if PaymentId(p, uuid) in old(c.committed).payments || insertRefused then [InsertQuery(p, uuid)]
                     else [InsertQuery(p, uuid), FlagQuery(p)])
    ensures forall i :: 0 <= i < |sent| ==> Paired(sent[i])
    ensures r.Ok? <==> !insertRefused && PaymentId(p, uuid) !in old(c.committed).payments && !flagRefused
    ensures r.Ok? ==> r.value == PaymentId(p, uuid) && c.committed == Recorded(old(c.committed), p, uuid)
    ensures r.Throws? ==> c.committed == old(c.committed)
  {
    ghost var before := c.committed;
    c.BeginTransaction();
    var ok;
    sent, ok := RunStatements(c, uuid, p, insertRefused, flagRefused);
    forall i | 0 <= i < |sent|
      ensures Paired(sent[i])
    {
      if i == 0 {
        assert sent[i] == InsertQuery(p, uuid);
      } else {
        assert sent[i] == FlagQuery(p);
      }
    }
    if !ok {
      c.Rollback();
      c.Release();
      return sent, Throws;
    }
    ghost var after := c.working;
    assert after == Recorded(before, p, uuid);
    c.Commit();
    c.Release();
    r := Ok(PaymentId(p, uuid));
  }

  /** The statements of `create` inside its open transaction: the INSERT,
      then the flag only when the INSERT went through. */
  method RunStatements(c: Connection<Tables>, uuid: string, p: PaymentInfo, insertRefused: bool, flagRefused: bool)
    returns (sent: seq<Query>, ok: bool)
    requires c.Valid() && c.held && c.inTransaction
    modifies c
    ensures c.Valid() && c.held && c.inTransaction && c.committed == old(c.committed)
    ensures sent == (if PaymentId(p, uuid) in old(c.working).payments || insertRefused then [InsertQuery(p, uuid)]
                     else [InsertQuery(p, uuid), FlagQuery(p)])
    ensures ok <==> !insertRefused && PaymentId(p, uuid) !in old(c.working).payments && !flagRefused
    ensures ok ==> c.working == Recorded(old(c.working), p, uuid)
  {
    var paymentId := PaymentId(p, uuid);
    var paymentValues := PaymentValues(p, paymentId);
    sent := [InsertQuery(p, uuid)];
    var duplicate := paymentId in c.working.payments;
    ok := c.Run(t => InsertPayment(t, paymentId, paymentValues), insertRefused || duplicate);
    if ok {
      sent := sent + [FlagQuery(p)];
      ok := c.Run(t => FlagPaid(t, p.registration_id), flagRefused);
    }
  }

  // ---------------------------------------------------------------------
  // lookups
  // ---------------------------------------------------------------------

  const ByRegistrationSelect := "SELECT id, registration_id, amount, payment_date, payment_method, receipt_number, note, received_by, created_at FROM payments WHERE registration_id = "
  const NewestFirst := " ORDER BY payment_date DESC"

  /** `findByRegistrationId`: the payments of one registration, newest
      payment date first. */
  function ByRegistrationQuery(registrationId: string): (q: Query)
    ensures Paired(q) && q.params == [VText(registrationId)]
    ensures q.sql == Placeholder(ByRegistrationSelect) + [Word(NewestFirst)]
  {
    Query(Then(Placeholder(ByRegistrationSelect), NewestFirst), [VText(registrationId)])
  }

  /** The most rows `search` answers. */
  const SearchLimit: nat := 50

  const SearchSelect := "SELECT p.id, p.registration_id, p.amount, p.payment_date, p.payment_method, p.receipt_number, p.note, p.received_by, p.created_at, r.student_name, r.student_id, r.student_phone FROM payments p JOIN registrations r ON p.registration_id = r.id"
  const SearchLikes: seq<string> := [" WHERE p.receipt_number LIKE ", " OR r.student_name LIKE ", " OR r.student_id LIKE ", " OR p.registration_id LIKE "]

  /** `search`: one pattern bound to the four LIKEs, newest first, at most
      `SearchLimit` rows. */
  function SearchQuery(term: string): (q: Query)
    ensures Paired(q) && |q.params| == 4
    ensures q.params == seq(4, _ => Contains(term))
    ensures q.sql[|q.sql| - 1] == Word(" ORDER BY p.payment_date DESC LIMIT " + IntToString(SearchLimit))
  {
    var pattern := Contains(term);
    var tail := " ORDER BY p.payment_date DESC LIMIT " + IntToString(SearchLimit);
    var likes := Placeholders(SearchLikes);
    var sql := Then(After(SearchSelect, likes), tail);
    assert Holes(sql) == |SearchLikes| == 4;
    Query(sql, [pattern, pattern, pattern, pattern])
  }

  /** What the server answers under `LIMIT n`: the first `n` matching rows. */
  function Limited<T>(rows: seq<T>, n: nat): (r: seq<T>)
    ensures |r| <= n && |r| <= |rows|
    ensures r == rows[..|r|]
    ensures |rows| <= n ==> r == rows
  {
    if |rows| <= n then rows else rows[..n]
  }

  /** `search` answers at most 50 rows, the first of those that match. */
  function Search(matching: Outcome<seq<Row>>): (r: Outcome<seq<Row>>)
    ensures r.Ok? <==> matching.Ok?
    ensures r.Ok? ==> |r.value| <= SearchLimit && |r.value| <= |matching.value| && r.value == matching.value[..|r.value|]
  {
    if matching.Throws? then Throws else Ok(Limited(matching.value, SearchLimit))
  }
}
