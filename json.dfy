/**
 * The dynamic JavaScript values the editor works on: what `JSON.parse`
 * produces, plus the handful of JavaScript operators the core applies to
 * them (truthiness, `typeof`, the `in` operator, object spread).
 * Numbers are restricted to integers.
 */
module Json {
  import opened Wrappers

  datatype JValue =
    | JNull
    | JBool(b: bool)
    | JNum(n: int)
    | JStr(s: string)
    | JArr(elems: seq<JValue>)
    | JObj(fields: map<string, JValue>)

  /** A property read `m[k]` on an object: `None` stands for `undefined`. */
  function Lookup(m: map<string, JValue>, k: string): (r: Option<JValue>)
    ensures r.Some? <==> k in m
    ensures r.Some? ==> r.value == m[k]
  {
    if k in m then Some(m[k]) else None
  }

  /** JavaScript truthiness: null, false, 0 and "" are falsy. */
  predicate Truthy(v: JValue) {
    match v
    case JNull => false
    case JBool(b) => b
    case JNum(n) => n != 0
    case JStr(s) => s != ""
    case JArr(_) => true
    case JObj(_) => true
  }

  /** The `typeof` operator. Arrays and null are both "object". */
  function TypeOf(v: JValue): string {
    match v
    case JNull => "object"
    case JBool(_) => "boolean"
    case JNum(_) => "number"
    case JStr(_) => "string"
    case JArr(_) => "object"
    case JObj(_) => "object"
  }

  /** `Array.isArray` */
  predicate IsArray(v: JValue) {
    v.JArr?
  }

  // ---------------------------------------------------------------------
  // Index keys: arrays and strings expose their elements under "0", "1", ...

  function DigitChar(d: nat): (c: char)
    requires d < 10
    ensures '0' <= c <= '9' && DigitValue(c) == d
  {
    ('0' as int + d) as char
  }

  /** The number a decimal digit stands for. */
  function DigitValue(c: char): nat
    requires '0' <= c <= '9'
  {
    c as int - '0' as int
  }

  predicate IsDigits(s: string) {
    forall i :: 0 <= i < |s| ==> '0' <= s[i] <= '9'
  }

  /** The number a string of decimal digits stands for, most significant digit first. */
  function DigitsValue(s: string): nat
    requires IsDigits(s)
  {
    if s == [] then 0
    else
      FrontIsDigits(s);
      DigitsValue(s[..|s| - 1]) * 10 + DigitValue(s[|s| - 1])
  }

  /** Dropping the last digit leaves digits. */
  lemma FrontIsDigits(s: string)
    requires |s| >= 1 && IsDigits(s)
    ensures IsDigits(s[..|s| - 1])
  {
    var front := s[..|s| - 1];
    forall i | 0 <= i < |front| ensures '0' <= front[i] <= '9' {
      assert front[i] == s[i];
    }
  }

  /** A canonical decimal spelling: at least one digit, and no leading zero unless it is "0" itself. */
  predicate IsCanonicalDecimal(s: string) {
    |s| >= 1 && IsDigits(s) && (s[0] != '0' || s == "0")
  }

  /** The decimal spelling of a natural number, as `String(n)` writes it. */
  function NatToString(n: nat): (r: string)
    ensures IsCanonicalDecimal(r) && DigitsValue(r) == n
  {
    if n < 10 then [DigitChar(n)]
    else
      var front := NatToString(n / 10);
      var r := front + [DigitChar(n % 10)];
      assert r[..|r| - 1] == front;
      assert front != "0";
      r
  }

  /** The leading digit of a canonical spelling of more than one digit is not zero, so its value is positive. */
  lemma {:induction false} NonZeroLeadPositive(s: string)
    requires |s| >= 1 && IsDigits(s) && s[0] != '0'
    ensures DigitsValue(s) >= 1
  {
    if |s| > 1 {
      var front := s[..|s| - 1];
      assert front[0] == s[0];
      FrontIsDigits(s);
      NonZeroLeadPositive(front);
    }
  }

  /** The decimal spelling is the only canonical string of digits that stands for `n`. */
  lemma {:induction false} DecimalSpellingUnique(s: string, n: nat)
    requires IsCanonicalDecimal(s) && DigitsValue(s) == n
    ensures s == NatToString(n)
  {
    if |s| == 1 {
      assert s[..0] == [];
      assert n == DigitValue(s[0]) < 10;
    } else {
      var front := s[..|s| - 1];
      assert front[0] == s[0] && s[0] != '0';
      FrontIsDigits(s);
      NonZeroLeadPositive(front);
      var d := DigitValue(s[|s| - 1]);
      assert n == DigitsValue(front) * 10 + d && d < 10;
      assert n / 10 == DigitsValue(front) && n % 10 == d;
      DecimalSpellingUnique(front, n / 10);
      assert s == front + [s[|s| - 1]];
      assert DigitChar(n % 10) == s[|s| - 1];
    }
  }

  /** Distinct numbers have distinct decimal spellings. */
  lemma NatToStringInjective(a: nat, b: nat)
    ensures NatToString(a) == NatToString(b) ==> a == b
  {
  }

  /** The own indexed properties of a sequence of elements. */
  function IndexMap(s: seq<JValue>): (m: map<string, JValue>)
    ensures forall k :: k in m ==> IsDigits(k)
    ensures |s| > 0 ==> NatToString(|s| - 1) in m && m[NatToString(|s| - 1)] == s[|s| - 1]
  {
    if s == [] then map[] else IndexMap(s[..|s| - 1])[NatToString(|s| - 1) := s[|s| - 1]]
  }

  /** The characters of a string as one-character strings. */
  function Chars(s: string): (r: seq<JValue>)
    ensures |r| == |s|
    ensures forall i :: 0 <= i < |s| ==> r[i] == JStr([s[i]])
  {
    seq(|s|, i requires 0 <= i < |s| => JStr([s[i]]))
  }

  /** The own property names of an object or an array (an array also has "length"). */
  function OwnKeys(v: JValue): set<string>
    requires v.JObj? || v.JArr?
  {
    if v.JObj? then v.fields.Keys else IndexMap(v.elems).Keys + {"length"}
  }

  /**
   * The `in` operator, `key in v`, which JavaScript only allows on objects.
   * Only own properties are modelled: neither Object.prototype nor
   * Array.prototype defines any of the names the core asks about.
   */
  predicate In(key: string, v: JValue)
    requires v.JObj? || v.JArr?
  {
    key in OwnKeys(v)
  }

  /** No schema key is an index or "length", so only objects can hold one. */
  lemma ArrayHasNoNamedKey(key: string, s: seq<JValue>)
    requires |key| > 0 && !('0' <= key[0] <= '9') && key != "length"
    ensures !In(key, JArr(s))
  {
    assert !IsDigits(key) by { assert !('0' <= key[0] <= '9'); }
  }

  /**
   * The own enumerable properties that the spread `{...v}` copies: an
   * object's fields, the indexed elements of an array or the characters
   * of a string, and nothing for null, booleans and numbers.
   */
  function Spread(v: JValue): (m: map<string, JValue>)
    ensures v.JObj? ==> m == v.fields
    ensures v.JNull? || v.JBool? || v.JNum? ==> m == map[]
    ensures v.JArr? || v.JStr? ==> forall k :: k in m ==> IsDigits(k)
  {
    match v
    case JObj(m) => m
    case JArr(s) => IndexMap(s)
    case JStr(s) => IndexMap(Chars(s))
    case _ => map[]
  }

  /** Spread of an absent (undefined) value is empty as well. */
  function SpreadOpt(v: Option<JValue>): (m: map<string, JValue>)
    ensures v.None? ==> m == map[]
  {
    if v.Some? then Spread(v.value) else map[]
  }

  /**
   * `{ ...item, [key]: v }`: a new object holding the spread properties of
   * `item` with `key` set to `v`.
   */
  function WithField(item: JValue, key: string, v: JValue): (r: JValue)
    ensures r.JObj?
    ensures r.fields.Keys == Spread(item).Keys + {key}
    ensures r.fields[key] == v
    ensures forall k :: k in Spread(item) && k != key ==> r.fields[k] == Spread(item)[k]
  {
    JObj(Spread(item)[key := v])
  }

  /** Setting a field of an object that already holds it keeps its other fields and nothing more. */
  lemma WithFieldOnObject(m: map<string, JValue>, key: string, v: JValue)
    requires key in m
    ensures WithField(JObj(m), key, v) == JObj(m[key := v])
    ensures WithField(JObj(m), key, m[key]) == JObj(m)
  {
  }

  // ---------------------------------------------------------------------
  // Conversion to text

  /** The decimal spelling of an integer, with a leading "-" when negative. */
  function IntToString(n: int): (r: string)
    ensures n >= 0 ==> IsCanonicalDecimal(r) && DigitsValue(r) == n
    ensures n < 0 ==> |r| >= 2 && r[0] == '-' && IsCanonicalDecimal(r[1..]) && r[1..] != "0" && DigitsValue(r[1..]) == -n
  {
    if n < 0 then
      var r := "-" + NatToString(-n);
      assert r[1..] == NatToString(-n);
      r
    else NatToString(n)
  }

  /** Distinct integers print as distinct strings, so the printed text determines the number. */
  lemma IntToStringInjective(a: int, b: int)
    ensures IntToString(a) == IntToString(b) ==> a == b
  {
  }

  /** `String(v)` for a present value; a string converts to itself. */
  function JsString(v: JValue): (r: string)
    ensures v.JStr? ==> r == v.s
    decreases v, if v.JArr? then |v.elems| + 1 else 0
  {
    match v
    case JNull => "null"
    case JBool(b) => if b then "true" else "false"
    case JNum(n) => IntToString(n)
    case JStr(s) => s
    case JArr(s) => JoinElems(v, |s|)
    case JObj(_) => "[object Object]"
  }

  /** `join(",")` over the first `n` elements of an array, where null converts to "". */
  function JoinElems(arr: JValue, n: nat): string
    requires arr.JArr? && n <= |arr.elems|
    decreases arr, n
  {
    if n == 0 then ""
    else
      var e := arr.elems[n - 1];
      var t := if e.JNull? then "" else JsString(e);
      if n == 1 then t else JoinElems(arr, n - 1) + "," + t
  }

  /** `String(v)`, where `None` stands for `undefined`. */
  function ToText(v: Option<JValue>): (r: string)
    ensures v.None? ==> r == "undefined"
    ensures v.Some? && v.value.JStr? ==> r == v.value.s
  {
    if v.None? then "undefined" else JsString(v.value)
  }
}
