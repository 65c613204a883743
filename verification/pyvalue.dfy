/**
 * The dynamically typed values the tool keeps in its settings dictionary
 * (whatever `json.load` can produce), with Python's truthiness and numeric
 * coercion, and the outcome of a call into a library that may raise.
 */
module PyValue {

  datatype Option<T> = None | Some(value: T)

  /** A JSON value as `json.load` returns it: str, int, float, bool, None,
      list or dict. */
  datatype Value =
    | VStr(s: string)
    | VInt(i: int)
    | VReal(r: real)
    | VBool(b: bool)
    | VNull
    | VList(items: seq<Value>)
    | VDict(entries: map<string, Value>)

  /** The outcome of a call into a foreign library: it returns a value or
      raises an exception whose `str(e)` is `message`. */
  datatype Call<T> = Returned(value: T) | Raised(message: string)

  /** Python's `bool(v)`. */
  predicate Truthy(v: Value)
  {
    match v
    case VStr(s) => s != ""
    case VInt(i) => i != 0
    case VReal(r) => r != 0.0
    case VBool(b) => b
    case VNull => false
    case VList(items) => items != []
    case VDict(entries) => entries != map[]
  }

  /** The value `v + 0.0` has in Python, or None where `+` with a float
      raises `TypeError` (str, None, list, dict). */
  function AsReal(v: Value): (r: Option<real>)
    ensures r.Some? <==> (v.VInt? || v.VReal? || v.VBool?)
    ensures v.VReal? ==> r == Some(v.r)
    ensures v.VInt? ==> r == Some(v.i as real)
    ensures v.VBool? ==> r == Some(if v.b then 1.0 else 0.0)
  {
    match v
    case VInt(i) => Some(i as real)
    case VReal(x) => Some(x)
    case VBool(b) => Some(if b then 1.0 else 0.0)
    case _ => None
  }

  /** Python's `min`, `max` and `abs` on integers. */
  function Min(a: int, b: int): int { if a <= b then a else b }
  function Max(a: int, b: int): int { if a <= b then b else a }
  function Abs(a: int): int { if a < 0 then -a else a }

  function DigitChar(d: int): char
    requires 0 <= d < 10
  {
    ('0' as int + d) as char
  }

  /** Decimal digits of a natural number, most significant first. */
  function NatToString(n: nat): (s: string)
    ensures |s| >= 1
    ensures forall k :: 0 <= k < |s| ==> '0' <= s[k] <= '9'
    ensures n > 0 ==> s[0] != '0'
  {
    if n < 10 then [DigitChar(n)] else NatToString(n / 10) + [DigitChar(n % 10)]
  }

  /** The number a string of decimal digits denotes. */
  function DecimalValue(s: string): int
    requires forall k :: 0 <= k < |s| ==> '0' <= s[k] <= '9'
  {
    if s == [] then 0
    else DecimalValue(s[..|s| - 1]) * 10 + (s[|s| - 1] as int - '0' as int)
  }

  /** The digits `NatToString` writes denote the number itself. */
  lemma {:induction false} NatToStringValue(n: nat)
    ensures DecimalValue(NatToString(n)) == n
  {
    if n < 10 {
      assert NatToString(n)[..0] == [];
    } else {
      var s := NatToString(n);
      assert s[..|s| - 1] == NatToString(n / 10);
      NatToStringValue(n / 10);
    }
  }

  /** Python's `str(v)` for the kinds of value a text setting can hold:
      str, int, bool and None. Floats, lists and dicts are shown by kind only. */
  function Show(v: Value): string
  {
    match v
    case VStr(s) => s
    case VInt(i) => if i < 0 then "-" + NatToString(-i) else NatToString(i)
    case VBool(b) => if b then "True" else "False"
    case VNull => "None"
    case VReal(_) => "<float>"
    case VList(_) => "<list>"
    case VDict(_) => "<dict>"
  }
}
