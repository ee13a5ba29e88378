/** JavaScript value semantics that the school-administration code relies on,
    stated on Dafny values: properties that may be undefined or null,
    truthiness, `parseInt`, number-to-string conversion, `padStart`,
    `split`, `trim` and `startsWith`. */
module Js {

  /** An object property as the TypeScript code reads it from a request body,
      a query string or a DTO: missing (undefined), null, or a value. */
  datatype Opt<+T> = Undef | Null | Val(v: T)

  /** A lookup that either found something or gave `null`. */
  datatype Option<+T> = None | Some(value: T)

  /** A JavaScript number as `parseInt` produces it: NaN or an integer. */
  datatype Num = NaN | Int(value: int)

  /** `x !== undefined` */
  predicate Defined<T>(x: Opt<T>) { !x.Undef? }

  /** `if (s)` on an optional string: undefined, null and "" are falsy. */
  predicate Truthy(s: Opt<string>) { s.Val? && s.v != "" }

  /** `if (b)` on an optional boolean. */
  predicate TruthyBool(b: Opt<bool>) { b.Val? && b.v }

  /** `if (n)` on an optional number: undefined, null, NaN and 0 are falsy. */
  predicate TruthyNum(n: Opt<Num>) { n.Val? && n.v.Int? && n.v.value != 0 }

  /** `s || fallback` on an optional string. */
  function OrElse(s: Opt<string>, fallback: string): string {
    if Truthy(s) then s.v else fallback
  }

  // ---------------------------------------------------------------------
  // White space and trimming (String.prototype.trim)
  // ---------------------------------------------------------------------

  /** The characters ECMAScript counts as white space or line terminators
      (WhiteSpace and LineTerminator, including every Unicode "Zs" character). */
  predicate IsSpace(c: char) {
    c == '\t' || c == '\U{B}' || c == '\U{C}' || c == ' ' || c == '\U{A0}' || c == '\U{FEFF}'
    || c == '\n' || c == '\r' || c == '\U{2028}' || c == '\U{2029}' || c == '\U{1680}'
    || ('\U{2000}' <= c <= '\U{200A}') || c == '\U{202F}' || c == '\U{205F}' || c == '\U{3000}'
  }

  function TrimStart(s: string): (r: string)
    ensures r == [] || !IsSpace(r[0])
  {
    if s != [] && IsSpace(s[0]) then TrimStart(s[1..]) else s
  }

  function TrimEnd(s: string): (r: string)
    ensures r == [] || !IsSpace(r[|r| - 1])
  {
    if s != [] && IsSpace(s[|s| - 1]) then TrimEnd(s[..|s| - 1]) else s
  }

  /** `trimStart` drops a run of white space from the front and nothing else. */
  lemma {:induction false} TrimStartDropsSpace(s: string)
    ensures exists k :: 0 <= k <= |s| && TrimStart(s) == s[k..] && forall i :: 0 <= i < k ==> IsSpace(s[i])
  {
    if s != [] && IsSpace(s[0]) {
      var p := s[1..];
      TrimStartDropsSpace(p);
      var k :| 0 <= k <= |p| && TrimStart(p) == p[k..] && forall i :: 0 <= i < k ==> IsSpace(p[i]);
      assert p[k..] == s[k + 1..];
      assert forall i :: 0 <= i < k + 1 ==> IsSpace(s[i]) by {
        forall i | 0 <= i < k + 1 ensures IsSpace(s[i]) {
          if i > 0 {
            assert s[i] == p[i - 1];
          }
        }
      }
    } else {
      assert s == s[0..];
    }
  }

  /** `trimEnd` drops a run of white space from the back and nothing else. */
  lemma {:induction false} TrimEndDropsSpace(s: string)
    ensures exists k :: 0 <= k <= |s| && TrimEnd(s) == s[..k] && forall i :: k <= i < |s| ==> IsSpace(s[i])
  {
    if s != [] && IsSpace(s[|s| - 1]) {
      var p := s[..|s| - 1];
      TrimEndDropsSpace(p);
      var k :| 0 <= k <= |p| && TrimEnd(p) == p[..k] && forall i :: k <= i < |p| ==> IsSpace(p[i]);
      assert p[..k] == s[..k];
    } else {
      assert s == s[..|s|];
    }
  }

  function Trim(s: string): string {
    TrimEnd(TrimStart(s))
  }

  predicate AllSpace(s: string) {
    forall i :: 0 <= i < |s| ==> IsSpace(s[i])
  }

  /** Neither end of s is white space. */
  predicate Unpadded(s: string) {
    s == [] || (!IsSpace(s[0]) && !IsSpace(s[|s| - 1]))
  }

  lemma {:induction false} TrimStartSpaces(a: string, s: string)
    requires AllSpace(a) && (s == [] || !IsSpace(s[0]))
    ensures TrimStart(a + s) == s
  {
    if a == [] {
      assert a + s == s;
    } else {
      assert (a + s)[1..] == a[1..] + s;
      TrimStartSpaces(a[1..], s);
    }
  }

  lemma {:induction false} TrimEndSpaces(s: string, b: string)
    requires AllSpace(b) && (s == [] || !IsSpace(s[|s| - 1]))
    ensures TrimEnd(s + b) == s
  {
    if b == [] {
      assert s + b == s;
    } else {
      assert (s + b)[..|s + b| - 1] == s + b[..|b| - 1];
      TrimEndSpaces(s, b[..|b| - 1]);
    }
  }

  lemma TrimUnpadded(s: string)
    requires Unpadded(s)
    ensures Trim(s) == s
  {
    TrimStartSpaces([], s);
    assert [] + s == s;
    TrimEndSpaces(s, []);
    assert s + [] == s;
  }

  /** `trim` removes exactly the white space around a word. */
  lemma TrimPadded(a: string, s: string, b: string)
    requires AllSpace(a) && AllSpace(b) && Unpadded(s)
    ensures Trim(a + s + b) == s
  {
    if s == [] {
      assert a + s + b == a + b;
      TrimStartSpaces(a + b, []);
      assert a + b + [] == a + b;
    } else {
      assert a + s + b == a + (s + b);
      TrimStartSpaces(a, s + b);
      TrimEndSpaces(s, b);
    }
  }

  // ---------------------------------------------------------------------
  // Digits and parseInt (section 19.2.5 of ECMA-262)
  // ---------------------------------------------------------------------

  /** The digit value of c in any radix up to 36, if it is a digit at all. */
  function CharDigit(c: char): Option<nat> {
    if '0' <= c <= '9' then Some(c as int - '0' as int)
    else if 'a' <= c <= 'z' then Some(c as int - 'a' as int + 10)
    else if 'A' <= c <= 'Z' then Some(c as int - 'A' as int + 10)
    else None
  }

  predicate IsDigitIn(c: char, radix: nat) {
    CharDigit(c).Some? && CharDigit(c).value < radix
  }

  /** Length of the longest prefix of s made of radix digits. */
  function DigitRun(s: string, radix: nat): (n: nat)
    ensures n <= |s|
    ensures forall i :: 0 <= i < n ==> IsDigitIn(s[i], radix)
    ensures n < |s| ==> !IsDigitIn(s[n], radix)
  {
    if s != [] && IsDigitIn(s[0], radix) then 1 + DigitRun(s[1..], radix) else 0
  }

  lemma NatProduct(a: nat, b: nat)
    ensures a * b >= 0
  {
  }

  /** The value of a string of radix digits, most significant digit first. */
  function DigitsValue(s: string, radix: nat): nat
    requires forall i :: 0 <= i < |s| ==> IsDigitIn(s[i], radix)
  {
    if s == [] then 0
    else
      assert IsDigitIn(s[|s| - 1], radix);
      var high := DigitsValue(s[..|s| - 1], radix);
      NatProduct(high, radix);
      high * radix + CharDigit(s[|s| - 1]).value
  }

  /** parseInt after leading white space and the sign are gone: the longest
      prefix of digits in the radix, or NaN when there is none. */
  function ParseDigits(s: string, radix: nat): Num {
    var n := DigitRun(s, radix);
    if n == 0 then NaN else Int(DigitsValue(s[..n], radix))
  }

  function Negate(n: Num): Num {
    if n.NaN? then NaN else Int(-n.value)
  }

  /** Strips leading white space and one sign character, then runs `digits`. */
  function ParseSigned(s: string, hexPrefix: bool): Num {
    var t := TrimStart(s);
    var negative := t != [] && t[0] == '-';
    var u := if t != [] && (t[0] == '-' || t[0] == '+') then t[1..] else t;
    var magnitude :=
      if hexPrefix && |u| >= 2 && u[0] == '0' && (u[1] == 'x' || u[1] == 'X') then ParseDigits(u[2..], 16)
      else ParseDigits(u, 10);
    if negative then Negate(magnitude) else magnitude
  }

  /** `parseInt(s, 10)` */
  function ParseInt10(s: string): Num {
    ParseSigned(s, false)
  }

  /** `parseInt(s)` without a radix: a leading "0x" or "0X" switches to hexadecimal. */
  function ParseInt(s: string): Num {
    ParseSigned(s, true)
  }

  // ---------------------------------------------------------------------
  // Number to string
  // ---------------------------------------------------------------------

  function DigitChar(d: nat): (c: char)
    requires d < 10
    ensures IsDigitIn(c, 10) && CharDigit(c).value == d
  {
    ('0' as int + d) as char
  }

  /** `String(n)` for a non-negative integer. */
  function NatToString(n: nat): (s: string)
    ensures |s| >= 1
    ensures forall i :: 0 <= i < |s| ==> IsDigitIn(s[i], 10)
  {
    if n < 10 then [DigitChar(n)] else NatToString(n / 10) + [DigitChar(n % 10)]
  }

  /** `String(i)` for an integer. */
  function IntToString(i: int): string {
    if i < 0 then "-" + NatToString(-i) else NatToString(i)
  }

  /** Reading back the digits NatToString writes gives the number again. */
  lemma {:induction false} DigitsValueOfNatToString(n: nat)
    ensures DigitsValue(NatToString(n), 10) == n
  {
    var s := NatToString(n);
    if n >= 10 {
      DigitsValueOfNatToString(n / 10);
      assert s[..|s| - 1] == NatToString(n / 10);
    }
  }

  /** Leading zeros do not change the value of a digit string. */
  lemma {:induction false} DigitsValueLeadingZeros(k: nat, s: string)
    requires forall i :: 0 <= i < |s| ==> IsDigitIn(s[i], 10)
    ensures DigitsValue(Repeat('0', k) + s, 10) == DigitsValue(s, 10)
  {
    var z := Repeat('0', k);
    if s == [] {
      assert z + s == z;
      ZerosValue(k);
    } else {
      DigitsValueLeadingZeros(k, s[..|s| - 1]);
      assert (z + s)[..|z + s| - 1] == z + s[..|s| - 1];
    }
  }

  lemma {:induction false} ZerosValue(k: nat)
    ensures DigitsValue(Repeat('0', k), 10) == 0
  {
    if k > 0 {
      ZerosValue(k - 1);
      assert Repeat('0', k) == [ '0' ] + Repeat('0', k - 1);
      assert Repeat('0', k)[..k - 1] == Repeat('0', k - 1);
    }
  }

  /** A non-empty string of decimal digits parses to its value, with or
      without an explicit radix (a digit string never starts with "0x"). */
  lemma ParseDecimal(s: string)
    requires |s| > 0 && forall i :: 0 <= i < |s| ==> IsDigitIn(s[i], 10)
    ensures ParseInt10(s) == Int(DigitsValue(s, 10))
    ensures ParseInt(s) == Int(DigitsValue(s, 10))
  {
    assert !IsSpace(s[0]);
    assert TrimStart(s) == s;
    assert s[..DigitRun(s, 10)] == s;
    if |s| >= 2 {
      assert s[1] != 'x' && s[1] != 'X' by { assert IsDigitIn(s[1], 10); }
    }
  }

  /** A decimal rendering of a number parses back to that number. */
  lemma ParseIntOfNatToString(n: nat)
    ensures ParseInt10(NatToString(n)) == Int(n)
    ensures ParseInt(NatToString(n)) == Int(n)
  {
    DigitsValueOfNatToString(n);
    ParseDecimal(NatToString(n));
  }

  /** Padding digits with zeros leaves only digits. */
  lemma ZeroPaddedDigits(s: string, width: nat)
    requires forall i :: 0 <= i < |s| ==> IsDigitIn(s[i], 10)
    ensures forall i :: 0 <= i < |PadStart(s, width, '0')| ==> IsDigitIn(PadStart(s, width, '0')[i], 10)
  {
    var r := PadStart(s, width, '0');
    forall i | 0 <= i < |r| ensures IsDigitIn(r[i], 10) {
      if i >= |r| - |s| {
        assert r[i] == r[|r| - |s|..][i - (|r| - |s|)];
      }
    }
  }

  /** A number padded with zeros still parses back to that number. */
  lemma ParseIntOfZeroPadded(n: nat, width: nat)
    ensures ParseInt10(PadStart(NatToString(n), width, '0')) == Int(n)
    ensures ParseInt(PadStart(NatToString(n), width, '0')) == Int(n)
  {
    var s := NatToString(n);
    DigitsValueOfNatToString(n);
    var r := PadStart(s, width, '0');
    ZeroPaddedDigits(s, width);
    if |s| < width {
      DigitsValueLeadingZeros(width - |s|, s);
      assert r == Repeat('0', width - |s|) + s;
    }
    ParseDecimal(r);
  }

  // ---------------------------------------------------------------------
  // padStart, startsWith, substring
  // ---------------------------------------------------------------------

  function Repeat(c: char, n: nat): (r: string)
    ensures |r| == n && forall i :: 0 <= i < n ==> r[i] == c
  {
    if n == 0 then [] else [c] + Repeat(c, n - 1)
  }

  /** `s.padStart(width, fill)` with a one-character fill: never shortens s. */
  function PadStart(s: string, width: nat, fill: char): (r: string)
    ensures |r| == if |s| >= width then |s| else width
    ensures r[|r| - |s|..] == s
    ensures forall i :: 0 <= i < |r| - |s| ==> r[i] == fill
  {
    if |s| >= width then s else Repeat(fill, width - |s|) + s
  }

  predicate StartsWith(s: string, prefix: string) {
    |prefix| <= |s| && s[..|prefix|] == prefix
  }

  /** `s.substring(0, n)` */
  function Prefix(s: string, n: nat): (r: string)
    ensures |r| == if |s| < n then |s| else n
    ensures StartsWith(s, r)
  {
    if |s| < n then s else s[..n]
  }

  // ---------------------------------------------------------------------
  // split
  // ---------------------------------------------------------------------

  /** `s.split(sep)` for a one-character separator. */
  function Split(s: string, sep: char): (pieces: seq<string>)
    ensures |pieces| >= 1
  {
    if s == [] then [""]
    else if s[0] == sep then [""] + Split(s[1..], sep)
    else
      var rest := Split(s[1..], sep);
      [[s[0]] + rest[0]] + rest[1..]
  }

  /** No piece of a split holds the separator. */
  lemma {:induction false} SplitPiecesHaveNoSeparator(s: string, sep: char)
    ensures forall i :: 0 <= i < |Split(s, sep)| ==> sep !in Split(s, sep)[i]
  {
    if s != [] {
      SplitPiecesHaveNoSeparator(s[1..], sep);
    }
  }

  /** `pieces.join(sep)` */
  function Join(pieces: seq<string>, sep: char): string {
    if pieces == [] then ""
    else if |pieces| == 1 then pieces[0]
    else pieces[0] + [sep] + Join(pieces[1..], sep)
  }

  /** Splitting loses nothing: joining the pieces back gives the string. */
  lemma {:induction false} JoinSplit(s: string, sep: char)
    ensures Join(Split(s, sep), sep) == s
  {
    if s != [] {
      JoinSplit(s[1..], sep);
      var rest := Split(s[1..], sep);
      if s[0] != sep {
        if |rest| == 1 {
          assert s == [s[0]] + s[1..];
        } else {
          assert Join(rest, sep) == rest[0] + [sep] + Join(rest[1..], sep);
          assert s == [s[0]] + s[1..];
        }
      }
    }
  }

  /** A string without the separator is a single piece. */
  lemma {:induction false} SplitWithoutSeparator(s: string, sep: char)
    requires sep !in s
    ensures Split(s, sep) == [s]
  {
    if s != [] {
      SplitWithoutSeparator(s[1..], sep);
      assert [s[0]] + s[1..] == s;
    }
  }

  /** The text before the first separator is the first piece, and the rest
      is split on its own. */
  lemma {:induction false} SplitAtFirst(p: string, sep: char, t: string)
    requires sep !in p
    ensures Split(p + [sep] + t, sep) == [p] + Split(t, sep)
  {
    if p == [] {
      assert p + [sep] + t == [sep] + t;
    } else {
      SplitAtFirst(p[1..], sep, t);
      assert (p + [sep] + t)[1..] == p[1..] + [sep] + t;
      assert [p[0]] + p[1..] == p;
    }
  }
}
