/**
 JavaScript values as `JSON.parse` produces them, and the handful of
 JavaScript operations the request handler applies to them: property
 lookup, truthiness (`!x`, `x || d`) and conversion to a string
 (`'...' + x`, template literals).
 */
module JsValue {

  /** `None` stands for JavaScript's `undefined`: a property that is absent. */
  datatype Option<+T> = None | Some(value: T)

  /** A value `JSON.parse` can return. Numbers are restricted to integers.
      An object lists its members in property order; when the JSON text
      repeats a key, a lookup sees the value of the later member. */
  datatype Json =
    | JNull
    | JBool(b: bool)
    | JNum(n: int)
    | JStr(s: string)
    | JArr(items: seq<Json>)
    | JObj(members: seq<(string, Json)>)

  /** Position of the last member named `key`, if there is one. */
  function LastIndex(members: seq<(string, Json)>, key: string): (r: Option<nat>)
    ensures r.Some? ==> r.value < |members| && members[r.value].0 == key
    ensures r.Some? ==> forall j :: r.value < j < |members| ==> members[j].0 != key
    ensures r.None? <==> forall j :: 0 <= j < |members| ==> members[j].0 != key
    decreases |members|
  {
    if |members| == 0 then None
    else if members[|members| - 1].0 == key then Some(|members| - 1)
    else LastIndex(members[..|members| - 1], key)
  }

  /** The value an object with these members holds under `key`. */
  function Lookup(members: seq<(string, Json)>, key: string): (r: Option<Json>)
    ensures r.None? <==> forall j :: 0 <= j < |members| ==> members[j].0 != key
    ensures r.Some? ==>
      exists j :: 0 <= j < |members| && members[j] == (key, r.value)
                  && forall k :: j < k < |members| ==> members[k].0 != key
  {
    match LastIndex(members, key)
    case None => None
    case Some(i) => Some(members[i].1)
  }

  /** A key that occurs once is looked up at that occurrence. */
  lemma LookupSingle(members: seq<(string, Json)>, key: string, j: nat)
    requires j < |members| && members[j].0 == key
    requires forall i :: 0 <= i < |members| && i != j ==> members[i].0 != key
    ensures Lookup(members, key) == Some(members[j].1)
  {
  }

  /** `Object.keys` of an object literal: its member names in order. */
  function Keys(members: seq<(string, Json)>): (ks: seq<string>)
    ensures |ks| == |members|
    ensures forall i :: 0 <= i < |ks| ==> ks[i] == members[i].0
  {
    if |members| == 0 then [] else [members[0].0] + Keys(members[1..])
  }

  /** `v[key]` for a value that is not null. Only objects have own properties
      under the names the handler reads (id, method, params, sql, table,
      database); arrays, strings, numbers and booleans inherit none of them. */
  function Prop(v: Json, key: string): (r: Option<Json>)
    ensures !v.JObj? ==> r.None?
  {
    match v
    case JObj(members) => Lookup(members, key)
    case _ => None
  }

  /** JavaScript truthiness: `undefined`, `null`, `false`, `0` and `""` are
      falsy, everything else (including empty arrays and objects) is truthy. */
  predicate Truthy(v: Option<Json>) {
    match v
    case None => false
    case Some(JNull) => false
    case Some(JBool(b)) => b
    case Some(JNum(n)) => n != 0
    case Some(JStr(s)) => s != ""
    case Some(_) => true
  }

  /** `x || fallback`: the value itself when it is truthy. */
  function OrElse(v: Option<Json>, fallback: Json): (r: Json)
    ensures Truthy(v) ==> Some(r) == v
    ensures !Truthy(v) ==> r == fallback
  {
    if Truthy(v) then v.value else fallback
  }

  predicate IsDigit(c: char) {
    '0' <= c <= '9'
  }

  function DigitChar(d: int): (c: char)
    requires 0 <= d < 10
    ensures IsDigit(c) && c as int - '0' as int == d
  {
    "0123456789"[d]
  }

  /** Decimal digits of `n`, most significant first, without leading zeros. */
  function NatToDecimal(n: nat): (r: string)
    ensures 0 < |r|
    ensures forall i :: 0 <= i < |r| ==> IsDigit(r[i])
    ensures r[0] == '0' ==> n == 0
    decreases n
  {
    if n < 10 then [DigitChar(n)] else NatToDecimal(n / 10) + [DigitChar(n % 10)]
  }

  /** The number a string of decimal digits denotes. */
  function DecimalValue(s: string): nat
    requires forall i :: 0 <= i < |s| ==> IsDigit(s[i])
  {
    if |s| == 0 then 0
    else
      assert IsDigit(s[|s| - 1]);
      10 * DecimalValue(s[..|s| - 1]) + (s[|s| - 1] as int - '0' as int)
  }

  /** Reading back the digits `NatToDecimal` writes gives the number again. */
  lemma {:induction false} DecimalRoundTrip(n: nat)
    ensures DecimalValue(NatToDecimal(n)) == n
    decreases n
  {
    if n >= 10 {
      var prefix := NatToDecimal(n / 10);
      var r := NatToDecimal(n);
      assert r == prefix + [DigitChar(n % 10)];
      assert r[..|r| - 1] == prefix;
      DecimalRoundTrip(n / 10);
    }
  }

  /** `String(n)` for an integer: an optional minus sign and its digits. */
  function IntToDecimal(n: int): string {
    if n < 0 then "-" + NatToDecimal(-n) else NatToDecimal(n)
  }

  /** Reading a decimal integer back: an optional minus sign followed by
      at least one digit. */
  function ParseDecimal(s: string): Option<int> {
    if |s| > 0 && s[0] == '-' then
      var digits := s[1..];
      if |digits| > 0 && forall i :: 0 <= i < |digits| ==> IsDigit(digits[i])
      then Some(0 - DecimalValue(digits)) else None
    else if |s| > 0 && forall i :: 0 <= i < |s| ==> IsDigit(s[i]) then Some(DecimalValue(s))
    else None
  }

  /** A string of digits reads as its decimal value. */
  lemma ParseDigits(d: string)
    requires |d| > 0 && forall i :: 0 <= i < |d| ==> IsDigit(d[i])
    ensures ParseDecimal(d) == Some(DecimalValue(d))
  {
    assert IsDigit(d[0]);
  }

  /** A minus sign before a string of digits negates its value. */
  lemma ParseNegative(d: string)
    requires |d| > 0 && forall i :: 0 <= i < |d| ==> IsDigit(d[i])
    ensures ParseDecimal("-" + d) == Some(0 - DecimalValue(d))
  {
    var s := "-" + d;
    assert s[0] == '-' && s[1..] == d;
  }

  /** Reading back what `IntToDecimal` writes gives the integer again. */
  lemma IntRoundTrip(n: int)
    ensures ParseDecimal(IntToDecimal(n)) == Some(n)
  {
    var m: nat := if n < 0 then -n else n;
    if n < 0 {
      NegativeRoundTrip(m);
      assert IntToDecimal(n) == "-" + NatToDecimal(m);
    } else {
      DecimalRoundTrip(m);
      ParseDigits(NatToDecimal(m));
    }
  }

  /** Reading back a minus sign and the digits of `m` gives `-m`. */
  lemma NegativeRoundTrip(m: nat)
    ensures ParseDecimal("-" + NatToDecimal(m)) == Some(0 - m)
  {
    DecimalRoundTrip(m);
    ParseNegative(NatToDecimal(m));
  }

  /** The form `String(n)` writes an integer in: an optional minus sign,
      then at least one digit, with no leading zero except in "0" itself
      (so neither "007" nor "-0"). */
  predicate CanonicalDecimal(s: string) {
    if |s| > 0 && s[0] == '-' then
      var d := s[1..];
      |d| > 0 && (forall i :: 0 <= i < |d| ==> IsDigit(d[i])) && d[0] != '0'
    else
      |s| > 0 && (forall i :: 0 <= i < |s| ==> IsDigit(s[i])) && (s[0] == '0' ==> |s| == 1)
  }

  /** `IntToDecimal` writes the canonical form. */
  lemma IntCanonical(n: int)
    ensures CanonicalDecimal(IntToDecimal(n))
  {
  }

  /** Digits that do not start with zero denote a positive number. */
  lemma {:induction false} LeadingDigitPositive(a: string)
    requires |a| > 0 && (forall i :: 0 <= i < |a| ==> IsDigit(a[i])) && a[0] != '0'
    ensures DecimalValue(a) > 0
    decreases |a|
  {
    var p := a[..|a| - 1];
    if |p| > 0 {
      assert p[0] == a[0];
      LeadingDigitPositive(p);
    } else {
      assert IsDigit(a[0]);
    }
  }

  /** Two digit strings without a leading zero that denote the same number
      are the same string. */
  lemma {:induction false} PositiveDigitsUnique(a: string, b: string)
    requires |a| > 0 && (forall i :: 0 <= i < |a| ==> IsDigit(a[i])) && a[0] != '0'
    requires |b| > 0 && (forall i :: 0 <= i < |b| ==> IsDigit(b[i])) && b[0] != '0'
    requires DecimalValue(a) == DecimalValue(b)
    ensures a == b
    decreases |a|
  {
    var pa, pb := a[..|a| - 1], b[..|b| - 1];
    assert IsDigit(a[|a| - 1]) && IsDigit(b[|b| - 1]);
    var da, db := a[|a| - 1] as int - '0' as int, b[|b| - 1] as int - '0' as int;
    assert DecimalValue(a) == 10 * DecimalValue(pa) + da;
    assert DecimalValue(b) == 10 * DecimalValue(pb) + db;
    if |pa| > 0 {
      assert pa[0] == a[0];
      LeadingDigitPositive(pa);
    }
    if |pb| > 0 {
      assert pb[0] == b[0];
      LeadingDigitPositive(pb);
    }
    assert da == db && DecimalValue(pa) == DecimalValue(pb);
    if |pa| > 0 {
      PositiveDigitsUnique(pa, pb);
    }
    assert a == pa + [a[|a| - 1]] && b == pb + [b[|b| - 1]];
  }

  /** The only canonical text starting with zero is "0", denoting zero. */
  lemma ZeroDigit(s: string)
    requires CanonicalDecimal(s) && |s| > 0 && s[0] == '0'
    ensures s == "0" && DecimalValue(s) == 0
  {
    assert s[..0] == [];
  }

  /** At most one canonical text reads back as a given integer, so the
      text `String(n)` writes is determined by `n`. */
  lemma CanonicalUnique(s: string, t: string)
    requires CanonicalDecimal(s) && CanonicalDecimal(t)
    requires ParseDecimal(s) == ParseDecimal(t)
    ensures s == t
  {
    if |s| > 0 && s[0] == '-' {
      LeadingDigitPositive(s[1..]);
      if |t| > 0 && t[0] == '-' {
        LeadingDigitPositive(t[1..]);
        PositiveDigitsUnique(s[1..], t[1..]);
        assert s == [s[0]] + s[1..] && t == [t[0]] + t[1..];
      } else {
        // a negative and a non-negative reading cannot agree
        assert false;
      }
    } else if |t| > 0 && t[0] == '-' {
      LeadingDigitPositive(t[1..]);
      assert false;
    } else if s[0] == '0' {
      ZeroDigit(s);
      if t[0] == '0' {
        ZeroDigit(t);
      } else {
        LeadingDigitPositive(t);
      }
    } else if t[0] == '0' {
      ZeroDigit(t);
      LeadingDigitPositive(s);
    } else {
      PositiveDigitsUnique(s, t);
    }
  }

  /** `Array.prototype.join(",")` over already converted elements. */
  function JoinComma(parts: seq<string>): string {
    if |parts| == 0 then ""
    else if |parts| == 1 then parts[0]
    else JoinComma(parts[..|parts| - 1]) + "," + parts[|parts| - 1]
  }

  /** Converting `v` to a string throws. An object from `JSON.parse` has
      no callable own members, so one with an own `toString` member hides
      `Object.prototype.toString` and leaves the conversion without a
      method that yields a primitive. An array converts each element, so
      it throws when some element, at any depth, does. */
  predicate StringThrows(v: Json)
    decreases v
  {
    match v
    case JObj(members) => Lookup(members, "toString").Some?
    case JArr(items) => exists i :: 0 <= i < |items| && StringThrows(items[i])
    case _ => false
  }

  /** `String(v)` for a value that is not undefined and does not throw.
      Arrays join their elements with commas, writing null elements as the
      empty string; every other object is "[object Object]". */
  function ValueToString(v: Json): string
    decreases v
  {
    match v
    case JNull => "null"
    case JBool(b) => if b then "true" else "false"
    case JNum(n) => IntToDecimal(n)
    case JStr(s) => s
    case JArr(items) =>
      JoinComma(seq(|items|, i requires 0 <= i < |items| =>
                      if items[i].JNull? then "" else ValueToString(items[i])))
    case JObj(_) => "[object Object]"
  }

  /** `String(v)` as string concatenation and template literals apply it:
      `None` when the conversion throws, and "undefined" for an absent
      value. */
  function ToJsString(v: Option<Json>): (r: Option<string>)
    ensures r.None? <==> v.Some? && StringThrows(v.value)
    ensures v.None? ==> r == Some("undefined")
    ensures v == Some(JNull) ==> r == Some("null")
    ensures v == Some(JBool(true)) ==> r == Some("true")
    ensures v == Some(JBool(false)) ==> r == Some("false")
    ensures v.Some? && v.value.JNum? ==>
      r.Some? && CanonicalDecimal(r.value) && ParseDecimal(r.value) == Some(v.value.n)
    ensures v.Some? && v.value.JStr? ==> r == Some(v.value.s)
    ensures v.Some? && v.value.JObj? && r.Some? ==> r.value == "[object Object]"
  {
    match v
    case None => Some("undefined")
    case Some(x) =>
      if StringThrows(x) then None
      else
        if x.JNum? then IntRoundTrip(x.n); IntCanonical(x.n); Some(ValueToString(x))
        else Some(ValueToString(x))
  }
}
