/**
 * The JSON values a client can store in a user's `memory` dictionary (a `Dict[str, Any]` filled
 * from a request body), with Python's truth test and Python's `str` of them. Numbers with a
 * fraction are not represented; `str` of a list or an object, Python's container `repr`, is
 * a parameter. JavaScript's truth test, which the client applies, is given beside Python's.
 */
module Json {
  datatype Value =
    | Null
    | Bool(b: bool)
    | Int(i: int)
    | Str(s: string)
    | Array(items: seq<Value>)
    | Object(fields: map<string, Value>)

  /** Python's truth test: `None`, `False`, `0`, `""`, `[]` and `{}` are false, all else true. */
  predicate Truthy(v: Value) {
    match v
    case Null => false
    case Bool(b) => b
    case Int(i) => i != 0
    case Str(s) => s != ""
    case Array(items) => |items| > 0
    case Object(fields) => |fields| > 0
  }

  /** JavaScript's truth test on the same value as parsed by the client: `null`, `false`, `0`
      and `""` are false; every array and object, even an empty one, is true. */
  predicate JsTruthy(v: Value) {
    match v
    case Null => false
    case Bool(b) => b
    case Int(i) => i != 0
    case Str(s) => s != ""
    case Array(_) => true
    case Object(_) => true
  }

  function DigitChar(d: nat): (c: char)
    requires d < 10
    ensures '0' <= c <= '9'
  {
    (('0' as int) + d) as char
  }

  /** A non-empty string of decimal digits with no leading zero: how Python writes a number. */
  predicate Canonical(r: string) {
    |r| > 0 && (|r| > 1 ==> r[0] != '0') && forall k :: 0 <= k < |r| ==> '0' <= r[k] <= '9'
  }

  /** The decimal digits of `n`, most significant first, with no leading zero. */
  function Digits(n: nat): (r: string)
    ensures Canonical(r)
    decreases n
  {
    if n < 10 then [DigitChar(n)] else Digits(n / 10) + [DigitChar(n % 10)]
  }

  /** The value of a digit string. */
  function DigitsValue(r: string): int
    decreases |r|
  {
    if |r| == 0 then 0 else DigitsValue(r[..|r| - 1]) * 10 + (r[|r| - 1] as int - '0' as int)
  }

  /** `Digits` writes `n` in base ten: reading the digits back gives `n`. */
  lemma {:induction false} DigitsRoundTrip(n: nat)
    ensures DigitsValue(Digits(n)) == n
    decreases n
  {
    var r := Digits(n);
    if n >= 10 {
      DigitsRoundTrip(n / 10);
      assert r[..|r| - 1] == Digits(n / 10);
    }
  }

  /** A digit string whose first digit is not 0 has a positive value. */
  lemma {:induction false} LeadingDigitPositive(r: string)
    requires |r| > 0 && r[0] != '0' && forall k :: 0 <= k < |r| ==> '0' <= r[k] <= '9'
    ensures DigitsValue(r) >= 1
    decreases |r|
  {
    if |r| > 1 {
      LeadingDigitPositive(r[..|r| - 1]);
    }
  }

  /** A canonical digit string is the one `Digits` writes for its value, so the canonical form
      of a number is unique. */
  lemma {:induction false} CanonicalIsDigits(r: string)
    requires Canonical(r)
    ensures DigitsValue(r) >= 0 && r == Digits(DigitsValue(r))
    decreases |r|
  {
    var d := r[|r| - 1] as int - '0' as int;
    if |r| == 1 {
      assert DigitsValue(r) == d;
      assert Digits(d) == [DigitChar(d)];
    } else {
      var p := r[..|r| - 1];
      assert p[0] == r[0];
      CanonicalIsDigits(p);
      LeadingDigitPositive(p);
      var n := DigitsValue(r);
      assert n == DigitsValue(p) * 10 + d;
      assert n / 10 == DigitsValue(p) && n % 10 == d;
      assert Digits(n) == Digits(n / 10) + [DigitChar(n % 10)];
      assert r == p + [r[|r| - 1]];
    }
  }

  /** `str(n)` for an integer: a `-` exactly for a negative number, then the canonical digits
      of its magnitude. */
  function Decimal(n: int): (r: string)
    ensures n < 0 <==> |r| > 0 && r[0] == '-'
    ensures n >= 0 ==> Canonical(r) && DigitsValue(r) == n
    ensures n < 0 ==> Canonical(r[1..]) && DigitsValue(r[1..]) == -n
  {
    DigitsRoundTrip(if n < 0 then -n else n);
    if n < 0 then "-" + Digits(-n) else Digits(n)
  }

  /** `str(v)`, as an f-string renders it, with `containerRepr` for lists and objects. */
  function Display(v: Value, containerRepr: Value -> string): (r: string)
    ensures v.Str? ==> r == v.s
    ensures v.Bool? ==> r == (if v.b then "True" else "False")
    ensures v.Null? ==> r == "None"
    ensures v.Int? && v.i >= 0 ==> Canonical(r) && DigitsValue(r) == v.i
    ensures v.Int? && v.i < 0 ==> |r| > 0 && r[0] == '-' && Canonical(r[1..]) && DigitsValue(r[1..]) == -v.i
  {
    match v
    case Null => "None"
    case Bool(b) => if b then "True" else "False"
    case Int(i) => Decimal(i)
    case Str(s) => s
    case _ => containerRepr(v)
  }
}
