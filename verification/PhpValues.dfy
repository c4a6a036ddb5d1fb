/**
 * The loosely typed PHP values that flow through request parameters, decoded
 * JSON bodies and webhook payloads, with the PHP conversions the plugin relies
 * on: `empty()`, truthiness, the string cast, and `is_numeric`.
 */
module PhpValues {
  import opened Wrappers
  import opened PhpArray

  /**
   * A PHP value. `List` is an array with keys 0..n-1 (a JSON array), `Dict` an
   * array with string keys (a JSON object). Floats are not modelled.
   */
  datatype Value =
    | Null
    | Bool(b: bool)
    | Int(i: int)
    | Str(s: string)
    | List(items: seq<Value>)
    | Dict(entries: Entries<Value>)

  /** `$v[$k] ?? null`: reading a key of anything that is not a keyed array gives null. */
  function Get(v: Value, k: string): (r: Value)
    ensures v.Dict? && HasKey(v.entries, k) ==> (k, r) in v.entries
    ensures v.Dict? && !HasKey(v.entries, k) ==> r == Null
    ensures !v.Dict? ==> r == Null
  {
    if v.Dict? then Lookup(v.entries, k).GetOr(Null) else Null
  }

  /** `isset($v[$k])` */
  predicate IsSet(v: Value, k: string) {
    Get(v, k) != Null
  }

  /** `empty($v)`: null, false, 0, "", "0" and the empty array. */
  predicate IsEmpty(v: Value) {
    match v
    case Null => true
    case Bool(b) => !b
    case Int(i) => i == 0
    case Str(s) => s == "" || s == "0"
    case List(items) => items == []
    case Dict(entries) => entries == []
  }

  /** PHP truthiness: a value is true in a condition exactly when it is not empty. */
  predicate Truthy(v: Value) {
    !IsEmpty(v)
  }

  predicate IsDigit(c: char) {
    '0' <= c <= '9'
  }

  predicate AllDigits(s: string) {
    forall c :: c in s ==> IsDigit(c)
  }

  function NatToDecimal(n: nat): (s: string)
    ensures s != [] && AllDigits(s)
    ensures s[0] == '0' ==> n == 0
  {
    if n < 10 then ["0123456789"[n]]
    else NatToDecimal(n / 10) + ["0123456789"[n % 10]]
  }

  /** `strval($i)` for an integer. */
  function IntToDecimal(i: int): string {
    if i < 0 then "-" + NatToDecimal(-i) else NatToDecimal(i)
  }

  /** `(string) $v`; an array converts to "Array". */
  function ToPhpString(v: Value): string {
    match v
    case Null => ""
    case Bool(b) => if b then "1" else ""
    case Int(i) => IntToDecimal(i)
    case Str(s) => s
    case List(_) => "Array"
    case Dict(_) => "Array"
  }

  /**
   * `sanitize_text_field($v)`: the string form of a scalar and "" for an array.
   * Tag stripping and whitespace folding are not modelled.
   */
  function SanitizeText(v: Value): (r: string)
    ensures v.Str? ==> r == v.s
    ensures v.List? || v.Dict? || v.Null? ==> r == ""
  {
    if v.List? || v.Dict? then "" else ToPhpString(v)
  }

  /** `absint($v)`: the magnitude of the integer conversion. */
  function AbsInt(v: Value): (r: nat)
    ensures v.Int? ==> r == if v.i < 0 then -v.i else v.i
    ensures r == 0 <==> IntVal(v) == 0
  {
    var i := IntVal(v);
    if i < 0 then -i else i
  }

  /** `(int) $v`; a string converts by its leading integer text. */
  function IntVal(v: Value): int {
    match v
    case Null => 0
    case Bool(b) => if b then 1 else 0
    case Int(i) => i
    case Str(s) => StringToInt(s)
    case List(items) => if items == [] then 0 else 1
    case Dict(entries) => if entries == [] then 0 else 1
  }

  /** The value of a string of decimal digits, read from the left. */
  function DigitsValue(d: string): nat
    requires AllDigits(d)
  {
    if d == [] then 0
    else
      assert d[|d| - 1] in d;
      DigitsValue(d[..|d| - 1]) * 10 + (d[|d| - 1] as int - '0' as int)
  }

  /** The number of decimal digits at the start of `s`. */
  function LeadingDigits(s: string): (n: nat)
    ensures n <= |s| && AllDigits(s[..n])
    ensures n < |s| ==> !IsDigit(s[n])
  {
    if s != [] && IsDigit(s[0]) then
      var n := 1 + LeadingDigits(s[1..]);
      assert s[..n] == [s[0]] + s[1..][..n - 1];
      n
    else 0
  }

  /**
   * The integer conversion of a string: leading white space, an optional
   * sign and the digits that follow; 0 when there are none.
   */
  function StringToInt(s: string): int {
    var t := TrimLeft(s);
    var neg := t != [] && t[0] == '-';
    var u := if t != [] && (t[0] == '-' || t[0] == '+') then t[1..] else t;
    var n: int := DigitsValue(u[..LeadingDigits(u)]);
    if neg then -n else n
  }

  // is_numeric (PHP 8): optional surrounding white space, an optional sign,
  // a decimal mantissa with at most one '.', and an optional exponent.

  predicate IsSpace(c: char) {
    c == ' ' || c == '\t' || c == '\n' || c == '\r' || c as int == 11 || c as int == 12
  }

  function TrimLeft(s: string): (r: string)
    ensures |r| <= |s| && r == s[|s| - |r|..]
    ensures r == [] || !IsSpace(r[0])
  {
    if s != [] && IsSpace(s[0]) then TrimLeft(s[1..]) else s
  }

  function TrimRight(s: string): (r: string)
    ensures |r| <= |s| && r == s[..|r|]
    ensures r == [] || !IsSpace(r[|r| - 1])
  {
    if s != [] && IsSpace(s[|s| - 1]) then TrimRight(s[..|s| - 1]) else s
  }

  function DropSign(s: string): string {
    if s != [] && (s[0] == '+' || s[0] == '-') then s[1..] else s
  }

  /** Digits with at most one decimal point, and at least one digit. */
  predicate IsMantissa(m: string) {
    || (m != [] && AllDigits(m))
    || (|m| > 1 && exists i | 0 <= i < |m| :: m[i] == '.' && AllDigits(m[..i]) && AllDigits(m[i + 1..]))
  }

  /** Position of the first 'e' or 'E', or the length when there is none. */
  function ExponentAt(s: string): (r: nat)
    ensures r <= |s|
    ensures forall j :: 0 <= j < r ==> s[j] != 'e' && s[j] != 'E'
    ensures r < |s| ==> s[r] == 'e' || s[r] == 'E'
  {
    if s == [] then 0
    else if s[0] == 'e' || s[0] == 'E' then 0
    else 1 + ExponentAt(s[1..])
  }

  predicate IsUnsignedNumber(u: string) {
    var e := ExponentAt(u);
    IsMantissa(u[..e]) && (e == |u| || (DropSign(u[e + 1..]) != [] && AllDigits(DropSign(u[e + 1..]))))
  }

  /** `is_numeric($s)` for a string. */
  predicate IsNumeric(s: string) {
    IsUnsignedNumber(DropSign(TrimRight(TrimLeft(s))))
  }

  /** `is_numeric($v)`: integers are numeric, strings by their text, nothing else is. */
  predicate IsNumericValue(v: Value) {
    v.Int? || (v.Str? && IsNumeric(v.s))
  }

  lemma DigitsAreUnsignedNumber(d: string)
    requires d != [] && AllDigits(d)
    ensures IsUnsignedNumber(d)
  {
    assert forall j :: 0 <= j < |d| ==> d[j] != 'e' && d[j] != 'E' by {
      forall j | 0 <= j < |d| ensures d[j] != 'e' && d[j] != 'E' {
        assert d[j] in d;
      }
    }
    assert ExponentAt(d) == |d|;
    assert d[..|d|] == d;
  }

  lemma TrimKeepsNonSpaceEnds(s: string)
    requires s != [] && !IsSpace(s[0]) && !IsSpace(s[|s| - 1])
    ensures TrimRight(TrimLeft(s)) == s
  {
  }

  /** The decimal text of every integer is numeric, so an integer order id passes the guard. */
  lemma DecimalIsNumeric(i: int)
    ensures IsNumeric(IntToDecimal(i))
  {
    var d := NatToDecimal(if i < 0 then -i else i);
    var s := IntToDecimal(i);
    assert IsDigit(d[0]) && IsDigit(d[|d| - 1]) by {
      assert d[0] in d && d[|d| - 1] in d;
    }
    assert s[0] == '-' || s[0] == d[0];
    assert s[|s| - 1] == d[|d| - 1];
    TrimKeepsNonSpaceEnds(s);
    assert DropSign(s) == d by {
      if i < 0 {
        assert s[1..] == d;
      }
    }
    DigitsAreUnsignedNumber(d);
  }

  lemma {:induction false} DecimalValue(n: nat)
    ensures DigitsValue(NatToDecimal(n)) == n
  {
    if n >= 10 {
      DecimalValue(n / 10);
      var d := NatToDecimal(n);
      assert d[..|d| - 1] == NatToDecimal(n / 10);
    }
  }

  lemma AllDigitsLeading(d: string)
    requires AllDigits(d)
    ensures LeadingDigits(d) == |d|
  {
  }

  lemma DigitsToInt(d: string)
    requires d != [] && AllDigits(d)
    ensures StringToInt(d) == DigitsValue(d)
  {
    assert IsDigit(d[0]) by {
      assert d[0] in d;
    }
    UnsignedToInt(d);
    DigitsReadInFull(d);
  }

  lemma NegativeDigitsToInt(d: string)
    requires d != [] && AllDigits(d)
    ensures StringToInt("-" + d) == 0 - DigitsValue(d)
  {
    var m := "-" + d;
    NegatedToInt(m);
    assert m[1..] == d;
    DigitsReadInFull(d);
  }

  /** Text that starts with neither white space nor a sign converts by its leading digits. */
  lemma UnsignedToInt(s: string)
    requires s != [] && !IsSpace(s[0]) && s[0] != '-' && s[0] != '+'
    ensures StringToInt(s) == DigitsValue(s[..LeadingDigits(s)])
  {
    assert TrimLeft(s) == s;
  }

  /** Text that starts with '-' converts to the negated value of the digits after it. */
  lemma NegatedToInt(s: string)
    requires s != [] && s[0] == '-'
    ensures StringToInt(s) == 0 - DigitsValue(s[1..][..LeadingDigits(s[1..])])
  {
    assert TrimLeft(s) == s;
  }

  /** All of a string of digits is read. */
  lemma DigitsReadInFull(d: string)
    requires AllDigits(d)
    ensures d[..LeadingDigits(d)] == d
  {
    AllDigitsLeading(d);
    assert d[..|d|] == d;
  }

  /** The integer conversion reads back the decimal text of every integer. */
  lemma DecimalRoundTrip(i: int)
    ensures StringToInt(IntToDecimal(i)) == i
    ensures IntVal(Str(IntToDecimal(i))) == i
  {
    var m := if i < 0 then -i else i;
    DigitsToInt(NatToDecimal(m));
    NegativeDigitsToInt(NatToDecimal(m));
    DecimalValue(m);
  }
}
