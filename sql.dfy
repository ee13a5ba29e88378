/** SQL text as the models hand it to the mysql2 driver: a sequence of tokens
    in which every `?` placeholder is a `Hole`, together with the parameter
    list the driver binds to the holes from left to right. The database
    itself is abstract: what a query returns is an input (`Outcome`). */
module Sql {
  import opened Js

  /** A value bound to a placeholder or stored in a column. `VDate(x)` is
      `new Date(x)`, `VHash(p)` is the bcrypt hash of the password `p`, `VNow`
      is the SQL `NOW()` and `VYmd(d)` is `formatDateToYMD(d)`; all four are
      left uninterpreted. */
  datatype Value =
    | VText(s: string)
    | VInt(i: int)
    | VNaN
    | VBool(b: bool)
    | VNull
    | VUndefined
    | VDate(text: string)
    | VHash(plain: string)
    | VNow
    | VYmd(date: Value)

  /** A JavaScript number bound as a parameter. */
  function NumValue(n: Num): Value {
    if n.NaN? then VNaN else VInt(n.value)
  }

  /** A token of SQL text: fixed text or a `?` placeholder. */
  datatype Tok = Word(text: string) | Hole

  /** A statement and the parameters bound to its placeholders. */
  datatype Query = Query(sql: seq<Tok>, params: seq<Value>)

  /** What a database call gives back: its result, or a thrown error. */
  datatype Outcome<+T> = Ok(value: T) | Throws

  /** A result row, column name to value. */
  type Row = map<string, Value>

  /** `row.key`, undefined when the column is absent. */
  function Get(row: Row, key: string): Value {
    if key in row then row[key] else VUndefined
  }

  /** Number of placeholders in a token sequence. */
  function Holes(s: seq<Tok>): nat {
    if s == [] then 0 else (if s[0] == Hole then 1 else 0) + Holes(s[1..])
  }

  /** Every placeholder has exactly one parameter. */
  predicate Paired(q: Query) {
    Holes(q.sql) == |q.params|
  }

  lemma {:induction false} HolesConcat(a: seq<Tok>, b: seq<Tok>)
    ensures Holes(a + b) == Holes(a) + Holes(b)
  {
    if a == [] {
      assert a + b == b;
    } else {
      HolesConcat(a[1..], b);
      assert (a + b)[1..] == a[1..] + b;
    }
  }

  /** A condition `<prefix>?` with a single placeholder, e.g. `r.level = ?`. */
  function Placeholder(prefix: string): (c: seq<Tok>)
    ensures Holes(c) == 1
  {
    var c := [Word(prefix), Hole];
    assert c[1..][1..] == [];
    assert Holes(c[1..]) == 1;
    c
  }

  /** `s + text`: fixed text appended, no placeholder added. */
  function Then(s: seq<Tok>, text: string): (r: seq<Tok>)
    ensures r == s + [Word(text)] && Holes(r) == Holes(s)
  {
    HolesConcat(s, [Word(text)]);
    s + [Word(text)]
  }

  /** `text + s`: fixed text prepended, no placeholder added. */
  function After(text: string, s: seq<Tok>): (r: seq<Tok>)
    ensures r == [Word(text)] + s && Holes(r) == Holes(s)
  {
    HolesConcat([Word(text)], s);
    [Word(text)] + s
  }

  /** Text with a placeholder after each piece: `<p0>?<p1>?...`. */
  function Placeholders(prefixes: seq<string>): (c: seq<Tok>)
    ensures Holes(c) == |prefixes|
  {
    if prefixes == [] then []
    else
      HolesConcat(Placeholder(prefixes[0]), Placeholders(prefixes[1..]));
      Placeholder(prefixes[0]) + Placeholders(prefixes[1..])
  }

  /** `parts.join(sep)` on token sequences. */
  function JoinToks(parts: seq<seq<Tok>>, sep: string): seq<Tok> {
    if parts == [] then []
    else if |parts| == 1 then parts[0]
    else parts[0] + [Word(sep)] + JoinToks(parts[1..], sep)
  }

  /** The fragments one after the other, with nothing between them. */
  function Concat(parts: seq<seq<Tok>>): seq<Tok> {
    if parts == [] then [] else parts[0] + Concat(parts[1..])
  }

  /** Total number of placeholders in a list of fragments. */
  function HolesAll(parts: seq<seq<Tok>>): nat {
    if parts == [] then 0 else Holes(parts[0]) + HolesAll(parts[1..])
  }

  /** Joining fragments with a fixed separator neither adds nor loses placeholders. */
  lemma {:induction false} HolesJoin(parts: seq<seq<Tok>>, sep: string)
    ensures Holes(JoinToks(parts, sep)) == HolesAll(parts)
  {
    if |parts| > 1 {
      HolesJoin(parts[1..], sep);
      HolesConcat(parts[0] + [Word(sep)], JoinToks(parts[1..], sep));
      HolesConcat(parts[0], [Word(sep)]);
    }
  }

  lemma {:induction false} HolesAllConcat(a: seq<seq<Tok>>, b: seq<seq<Tok>>)
    ensures HolesAll(a + b) == HolesAll(a) + HolesAll(b)
  {
    if a == [] {
      assert a + b == b;
    } else {
      HolesAllConcat(a[1..], b);
      assert (a + b)[1..] == a[1..] + b;
    }
  }

  lemma {:induction false} HolesConcatAll(parts: seq<seq<Tok>>)
    ensures Holes(Concat(parts)) == HolesAll(parts)
  {
    if parts != [] {
      HolesConcatAll(parts[1..]);
      HolesConcat(parts[0], Concat(parts[1..]));
    }
  }

  lemma {:induction false} ConcatAppend(parts: seq<seq<Tok>>, last: seq<Tok>)
    ensures Concat(parts + [last]) == Concat(parts) + last
  {
    if parts == [] {
      assert [] + [last] == [last];
      assert Concat([last][1..]) == [];
    } else {
      assert (parts + [last])[1..] == parts[1..] + [last];
      ConcatAppend(parts[1..], last);
    }
  }

  /** `' WHERE ' + conditions.join(' AND ')` when there is a condition, and nothing otherwise. */
  function Where(conds: seq<seq<Tok>>): (w: seq<Tok>)
    ensures w == [] <==> conds == []
    ensures w != [] ==> w[0] == Word(" WHERE ")
  {
    if conds == [] then [] else [Word(" WHERE ")] + JoinToks(conds, " AND ")
  }

  lemma HolesWhere(conds: seq<seq<Tok>>)
    ensures Holes(Where(conds)) == HolesAll(conds)
  {
    if conds != [] {
      HolesJoin(conds, " AND ");
      HolesConcat([Word(" WHERE ")], JoinToks(conds, " AND "));
    }
  }

  /** `if (conditions.length > 0) sql += ' WHERE ' + conditions.join(' AND ')` */
  method AppendWhere(sql: seq<Tok>, conditions: seq<seq<Tok>>) returns (sql': seq<Tok>)
    ensures sql' == sql + Where(conditions)
  {
    sql' := sql;
    if |conditions| > 0 {
      sql' := sql' + [Word(" WHERE ")] + JoinToks(conditions, " AND ");
    }
  }

  /** A list of `n` placeholders separated by `sep`: `ids.map(() => '?').join(sep)`. */
  function HoleList(n: nat, sep: string): (s: seq<Tok>)
    ensures Holes(s) == n
  {
    if n == 0 then []
    else if n == 1 then [Hole]
    else
      var s := [Hole, Word(sep)] + HoleList(n - 1, sep);
      HolesConcat([Hole, Word(sep)], HoleList(n - 1, sep));
      s
  }


  /** `'%' + q + '%'` as bound to a LIKE placeholder. */
  function Contains(q: string): Value {
    VText("%" + q + "%")
  }

  /** `rows[0] || null`: the first row when there is one. */
  function FirstOrNull<T>(rows: seq<T>): (r: Option<T>)
    ensures r.Some? <==> |rows| > 0
    ensures r.Some? ==> r.value == rows[0]
  {
    if |rows| > 0 then Some(rows[0]) else None
  }

  /** A property of a request body as bound to a placeholder. */
  function TextValue(x: Opt<string>): Value {
    match x
    case Undef => VUndefined
    case Null => VNull
    case Val(t) => VText(t)
  }

  /** A JavaScript boolean as bound to a placeholder. */
  function BoolValue(b: Opt<bool>): Value {
    match b
    case Undef => VUndefined
    case Null => VNull
    case Val(x) => VBool(x)
  }

  /** An optional number as bound to a placeholder. */
  function NumOptValue(x: Opt<Num>): Value {
    match x
    case Undef => VUndefined
    case Null => VNull
    case Val(n) => NumValue(n)
  }

  /** JavaScript truthiness of a column value. */
  predicate ValueTruthy(v: Value) {
    match v
    case VText(t) => t != ""
    case VInt(i) => i != 0
    case VBool(b) => b
    case VNull => false
    case VUndefined => false
    case VNaN => false
    case _ => true
  }

  /** `v || fallback` */
  function ValueOr(v: Value, fallback: Value): Value {
    if ValueTruthy(v) then v else fallback
  }

  /** `result.affectedRows > 0`, or the error the statement threw. */
  function AffectedAny(db: Outcome<nat>): (r: Outcome<bool>)
    ensures r.Ok? <==> db.Ok?
    ensures r.Ok? ==> (r.value <==> db.value > 0)
  {
    if db.Ok? then Ok(db.value > 0) else Throws
  }

  // ---------------------------------------------------------------------
  // SET lists of UPDATE statements
  // ---------------------------------------------------------------------

  /** One candidate `column = ?` assignment: the column (of a model's own
      column type `C`), and the value, or None when the field is skipped. */
  datatype Slot<C> = Slot(column: C, value: Option<Value>)

  /** The `column = ?` fragments of the slots that have a value, in order;
      `name` spells a column. */
  function SetFrags<C>(slots: seq<Slot<C>>, name: C -> string): seq<seq<Tok>> {
    if slots == [] then []
    else (if slots[0].value.Some? then [Placeholder(name(slots[0].column) + " = ")] else []) + SetFrags(slots[1..], name)
  }

  /** The values of the slots that have one, in order. */
  function SetValues<C>(slots: seq<Slot<C>>): seq<Value> {
    if slots == [] then []
    else (if slots[0].value.Some? then [slots[0].value.value] else []) + SetValues(slots[1..])
  }

  /** The columns that are assigned, in order. */
  function SetColumns<C>(slots: seq<Slot<C>>): seq<C> {
    if slots == [] then []
    else (if slots[0].value.Some? then [slots[0].column] else []) + SetColumns(slots[1..])
  }

  /** Exactly one fragment and one value per assigned column, aligned. */
  lemma {:induction false} SetAligned<C>(slots: seq<Slot<C>>, name: C -> string)
    ensures |SetFrags(slots, name)| == |SetValues(slots)| == |SetColumns(slots)|
    ensures HolesAll(SetFrags(slots, name)) == |SetValues(slots)|
    ensures forall i :: 0 <= i < |SetColumns(slots)| ==> SetFrags(slots, name)[i] == Placeholder(name(SetColumns(slots)[i]) + " = ")
  {
    if slots != [] {
      SetAligned(slots[1..], name);
      var first := if slots[0].value.Some? then [Placeholder(name(slots[0].column) + " = ")] else [];
      HolesAllConcat(first, SetFrags(slots[1..], name));
      if slots[0].value.Some? {
        assert HolesAll(first) == 1 by { assert first[1..] == []; }
      }
    }
  }

  /** The counts `SetAligned` states, without its per-position part. */
  lemma SetCounts<C>(slots: seq<Slot<C>>, name: C -> string)
    ensures |SetFrags(slots, name)| == |SetValues(slots)| == |SetColumns(slots)|
    ensures HolesAll(SetFrags(slots, name)) == |SetValues(slots)|
  {
    SetAligned(slots, name);
  }

  /** A column is assigned exactly when one of its slots has a value. */
  lemma {:induction false} SetColumnsMember<C>(slots: seq<Slot<C>>, c: C)
    ensures c in SetColumns(slots) <==> exists i :: 0 <= i < |slots| && slots[i].column == c && slots[i].value.Some?
  {
    if slots != [] {
      SetColumnsMember(slots[1..], c);
      if c in SetColumns(slots[1..]) {
        var i :| 0 <= i < |slots[1..]| && slots[1..][i].column == c && slots[1..][i].value.Some?;
        assert slots[i + 1].column == c;
      }
      if exists i :: 0 <= i < |slots| && slots[i].column == c && slots[i].value.Some? {
        var i :| 0 <= i < |slots| && slots[i].column == c && slots[i].value.Some?;
        if i > 0 {
          assert slots[1..][i - 1] == slots[i];
        }
      }
    }
  }

  /** A value is bound exactly when some slot carries it. */
  lemma {:induction false} SetValuesMember<C>(slots: seq<Slot<C>>, v: Value)
    ensures v in SetValues(slots) <==> exists i :: 0 <= i < |slots| && slots[i].value == Some(v)
  {
    if slots != [] {
      SetValuesMember(slots[1..], v);
      if v in SetValues(slots[1..]) {
        var i :| 0 <= i < |slots[1..]| && slots[1..][i].value == Some(v);
        assert slots[i + 1].value == Some(v);
      }
      if exists i :: 0 <= i < |slots| && slots[i].value == Some(v) {
        var i :| 0 <= i < |slots| && slots[i].value == Some(v);
        if i > 0 {
          assert slots[1..][i - 1] == slots[i];
        }
      }
    }
  }

  /** A column that names a single slot is assigned exactly when that slot has a value. */
  lemma SetColumnsAt<C>(slots: seq<Slot<C>>, k: nat)
    requires k < |slots|
    requires forall j :: 0 <= j < |slots| && j != k ==> slots[j].column != slots[k].column
    ensures slots[k].column in SetColumns(slots) <==> slots[k].value.Some?
  {
    SetColumnsMember(slots, slots[k].column);
  }

  /** Nothing is assigned exactly when no slot has a value. */
  lemma {:induction false} SetColumnsEmpty<C>(slots: seq<Slot<C>>)
    ensures SetColumns(slots) == [] <==> forall i :: 0 <= i < |slots| ==> slots[i].value.None?
  {
    if slots != [] {
      SetColumnsEmpty(slots[1..]);
      if forall i :: 0 <= i < |slots[1..]| ==> slots[1..][i].value.None? {
        assert forall i :: 1 <= i < |slots| ==> slots[i].value.None? by {
          forall i | 1 <= i < |slots| ensures slots[i].value.None? {
            assert slots[1..][i - 1] == slots[i];
          }
        }
      }
    }
  }

  lemma {:induction false} SetFragsConcat<C>(a: seq<Slot<C>>, b: seq<Slot<C>>, name: C -> string)
    ensures SetFrags(a + b, name) == SetFrags(a, name) + SetFrags(b, name)
  {
    if a == [] {
      assert a + b == b;
    } else {
      var ab := a + b;
      assert ab[0] == a[0] && ab[1..] == a[1..] + b;
      SetFragsConcat(a[1..], b, name);
      var first := if a[0].value.Some? then [Placeholder(name(a[0].column) + " = ")] else [];
      calc {
        SetFrags(ab, name);
        first + SetFrags(a[1..] + b, name);
        first + (SetFrags(a[1..], name) + SetFrags(b, name));
        (first + SetFrags(a[1..], name)) + SetFrags(b, name);
      }
    }
  }

  lemma {:induction false} SetValuesConcat<C>(a: seq<Slot<C>>, b: seq<Slot<C>>)
    ensures SetValues(a + b) == SetValues(a) + SetValues(b)
  {
    if a == [] {
      assert a + b == b;
    } else {
      var ab := a + b;
      assert ab[0] == a[0] && ab[1..] == a[1..] + b;
      SetValuesConcat(a[1..], b);
      var first := if a[0].value.Some? then [a[0].value.value] else [];
      calc {
        SetValues(ab);
        first + SetValues(a[1..] + b);
        first + (SetValues(a[1..]) + SetValues(b));
        (first + SetValues(a[1..])) + SetValues(b);
      }
    }
  }

  lemma {:induction false} SetColumnsConcat<C>(a: seq<Slot<C>>, b: seq<Slot<C>>)
    ensures SetColumns(a + b) == SetColumns(a) + SetColumns(b)
  {
    if a == [] {
      assert a + b == b;
    } else {
      var ab := a + b;
      assert ab[0] == a[0] && ab[1..] == a[1..] + b;
      SetColumnsConcat(a[1..], b);
      var first := if a[0].value.Some? then [a[0].column] else [];
      calc {
        SetColumns(ab);
        first + SetColumns(a[1..] + b);
        first + (SetColumns(a[1..]) + SetColumns(b));
        (first + SetColumns(a[1..])) + SetColumns(b);
      }
    }
  }

  lemma SetConcat<C>(a: seq<Slot<C>>, b: seq<Slot<C>>, name: C -> string)
    ensures SetFrags(a + b, name) == SetFrags(a, name) + SetFrags(b, name)
    ensures SetValues(a + b) == SetValues(a) + SetValues(b)
    ensures SetColumns(a + b) == SetColumns(a) + SetColumns(b)
  {
    SetFragsConcat(a, b, name);
    SetValuesConcat(a, b);
    SetColumnsConcat(a, b);
  }

  /** `if (<value present>) { updateFields.push('<column> = ?'); values.push(<value>); }`
      for slot `k` of `slots`, once the slots before it have been pushed. */
  method PushSlot<C>(fields: seq<seq<Tok>>, values: seq<Value>, ghost slots: seq<Slot<C>>, k: nat, s: Slot<C>, name: C -> string)
    returns (fields': seq<seq<Tok>>, values': seq<Value>)
    requires k < |slots| && s == slots[k]
    requires fields == SetFrags(slots[..k], name) && values == SetValues(slots[..k])
    ensures fields' == SetFrags(slots[..k + 1], name) && values' == SetValues(slots[..k + 1])
  {
    SetConcat(slots[..k], [s], name);
    assert [s][1..] == [];
    assert slots[..k] + [s] == slots[..k + 1];
    fields', values' := fields, values;
    if s.value.Some? {
      fields' := fields' + [Placeholder(name(s.column) + " = ")];
      values' := values' + [s.value.value];
    }
  }

  /** `if (<value present>) { sql += '<column> = ?'; values.push(<value>); }`
      for slot `k`, when the fragments are appended to the statement one
      after the other rather than collected and joined. */
  method AppendSlot<C>(sql: seq<Tok>, values: seq<Value>, ghost head: seq<Tok>, ghost slots: seq<Slot<C>>, k: nat, s: Slot<C>, name: C -> string)
    returns (sql': seq<Tok>, values': seq<Value>)
    requires k < |slots| && s == slots[k]
    requires sql == head + Concat(SetFrags(slots[..k], name)) && values == SetValues(slots[..k])
    ensures sql' == head + Concat(SetFrags(slots[..k + 1], name)) && values' == SetValues(slots[..k + 1])
  {
    SetConcat(slots[..k], [s], name);
    assert [s][1..] == [];
    assert slots[..k] + [s] == slots[..k + 1];
    var frags := SetFrags(slots[..k], name);
    sql', values' := sql, values;
    if s.value.None? {
      assert SetFrags([s], name) == [];
      assert frags + [] == frags;
    } else {
      assert SetFrags([s], name) == [Placeholder(name(s.column) + " = ")];
      ConcatAppend(SetFrags(slots[..k], name), Placeholder(name(s.column) + " = "));
      sql' := sql' + Placeholder(name(s.column) + " = ");
      values' := values' + [s.value.value];
    }
  }

  /** `<head> + fields.join(', ') + ' WHERE id = ?'` with the id bound last. */
  function UpdateById(head: seq<Tok>, fields: seq<seq<Tok>>, values: seq<Value>, id: Value): Query {
    Query(head + JoinToks(fields, ", ") + [Word(" WHERE id = "), Hole], values + [id])
  }

  lemma UpdateByIdPaired(head: seq<Tok>, fields: seq<seq<Tok>>, values: seq<Value>, id: Value)
    requires Holes(head) == 0 && HolesAll(fields) == |values|
    ensures Paired(UpdateById(head, fields, values, id))
    ensures UpdateById(head, fields, values, id).params[|values|] == id
  {
    var tail := [Word(" WHERE id = "), Hole];
    assert Holes(tail) == 1 by { assert tail[1..][1..] == []; }
    HolesJoin(fields, ", ");
    HolesConcat(head, JoinToks(fields, ", "));
    HolesConcat(head + JoinToks(fields, ", "), tail);
  }

  // ---------------------------------------------------------------------
  // Row post-processing
  // ---------------------------------------------------------------------

  /** `if (row.key) row.key = formatDateToYMD(row.key)`; the formatting
      library is left uninterpreted as `VYmd`. */
  function FormatDate(row: Row, key: string): (r: Row)
    ensures r.Keys == row.Keys
    ensures forall k :: k in row && k != key ==> r[k] == row[k]
    ensures key in row ==> r[key] == if ValueTruthy(row[key]) then VYmd(row[key]) else row[key]
  {
    if key in row && ValueTruthy(row[key]) then row[key := VYmd(row[key])] else row
  }
}
