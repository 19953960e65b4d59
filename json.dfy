/**
 * Decoded JSON values and the few Python operations the proxy applies to
 * them: truth value (`not x`), membership (`key in x`) and `str(x)` when a
 * value is spliced into a URL or a header.
 */
module Json {
  import opened Wrappers

  /** A value as Python's json module decodes it (fractional numbers are not modelled). */
  datatype Value =
    | Null
    | Bool(b: bool)
    | Int(i: int)
    | Str(s: string)
    | List(items: seq<Value>)
    | Obj(fields: map<string, Value>)

  /** Python's `bool(v)`: None, False, 0, "", [] and {} are false. */
  predicate Truthy(v: Value): (r: bool)
    // the falsy values are exactly None, False, 0 and the empty str, list and dict
    ensures !r <==> v in {Null, Bool(false), Int(0), Str(""), List([]), Obj(map[])}
  {
    match v
    case Null => false
    case Bool(b) => b
    case Int(i) => i != 0
    case Str(s) => s != ""
    case List(items) => items != []
    case Obj(fields) => fields != map[]
  }

  /** `{'error': message}`, the error payload every layer of the proxy builds. */
  function ErrorBody(message: string): Value {
    Obj(map["error" := Str(message)])
  }

  /** A dict whose only key is `error`, bound to a string. */
  predicate IsErrorBody(v: Value) {
    v.Obj? && v.fields.Keys == {"error"} && v.fields["error"].Str?
  }

  /** Python's substring test `key in s`, scanning s from the left. */
  predicate Occurs(key: string, s: string)
    decreases |s|
  {
    |key| <= |s| && (s[..|key|] == key || Occurs(key, s[1..]))
  }

  /** key sits in s starting at position i. */
  predicate OccursAtIndex(key: string, s: string, i: int) {
    0 <= i <= |s| - |key| && s[i..i + |key|] == key
  }

  /** Occurs is exactly "some slice of s equals key". */
  lemma {:induction false} OccursAt(key: string, s: string)
    ensures Occurs(key, s) <==> exists i :: OccursAtIndex(key, s, i)
    decreases |s|
  {
    if |key| <= |s| && s[..|key|] != key {
      OccursAt(key, s[1..]);
      if Occurs(key, s[1..]) {
        var i :| OccursAtIndex(key, s[1..], i);
        assert s[i + 1..i + 1 + |key|] == s[1..][i..i + |key|];
        assert OccursAtIndex(key, s, i + 1);
      }
      if exists i :: OccursAtIndex(key, s, i) {
        var i :| OccursAtIndex(key, s, i);
        assert i != 0;
        assert s[1..][i - 1..i - 1 + |key|] == s[i..i + |key|];
        assert OccursAtIndex(key, s[1..], i - 1);
      }
    } else if |key| <= |s| {
      assert OccursAtIndex(key, s, 0);
    }
  }

  /**
   * Python's `key in container`: a key test on a dict, an element test on a
   * list, a substring test on a string, and a TypeError (None) on anything else.
   */
  function In(key: string, container: Value): (r: Option<bool>)
    ensures r.None? <==> container.Null? || container.Bool? || container.Int?
    ensures container.Obj? ==> r == Some(key in container.fields)
    ensures container.List? ==> r == Some(Str(key) in container.items)
  {
    match container
    case Obj(fields) => Some(key in fields)
    case List(items) => Some(Str(key) in items)
    case Str(s) => Some(Occurs(key, s))
    case _ => None
  }

  function DigitChar(d: nat): char
    requires d < 10
  {
    "0123456789"[d]
  }

  predicate IsDigit(c: char) {
    '0' <= c <= '9'
  }

  /** The decimal numeral of n, without leading zeros. */
  function Digits(n: nat): (r: string)
    ensures |r| > 0 && forall i :: 0 <= i < |r| ==> IsDigit(r[i])
    ensures r[0] == '0' ==> n == 0
  {
    if n < 10 then [DigitChar(n)] else Digits(n / 10) + [DigitChar(n % 10)]
  }

  /** The number a string of digits denotes, read left to right. */
  function DigitsValue(s: string): nat
    requires forall i :: 0 <= i < |s| ==> IsDigit(s[i])
  {
    if s == [] then 0
    else
      assert IsDigit(s[|s| - 1]);
      DigitsValue(s[..|s| - 1]) * 10 + (s[|s| - 1] as int - '0' as int)
  }

  /** Reading back the numeral Digits writes gives the number: Digits is Python's `str` of a nat. */
  lemma {:induction false} DigitsRoundTrip(n: nat)
    ensures DigitsValue(Digits(n)) == n
  {
    if n >= 10 {
      var s := Digits(n);
      assert s[..|s| - 1] == Digits(n / 10);
      DigitsRoundTrip(n / 10);
    }
  }

  /** Python's `str(n)` for an int. */
  function Decimal(n: int): (r: string)
    ensures |r| > 0
    ensures n >= 0 ==> r == Digits(n)
    ensures n < 0 ==> r[0] == '-' && r[1..] == Digits(-n)
  {
    if n < 0 then "-" + Digits(-n) else Digits(n)
  }

  /**
   * Python's `str(v)` for the scalars; a list or a dict is rendered as the
   * fixed text "<json>" (see README).
   */
  function Render(v: Value): (r: string)
    ensures v.Str? ==> r == v.s
    ensures v.Int? ==> r == Decimal(v.i)
  {
    match v
    case Null => "None"
    case Bool(b) => if b then "True" else "False"
    case Int(i) => Decimal(i)
    case Str(s) => s
    case _ => "<json>"
  }
}
