/**
 * Template values as the YAML loader hands them to the generator, Python's
 * truthiness and `str()` on them, and the failures the generator can raise.
 */
module Values {

  /** A loaded template value: the shapes a YAML document decodes into. */
  datatype Value =
    | VStr(s: string)
    | VBool(b: bool)
    | VInt(i: int)
    | VMap(m: map<string, Value>)
    | VList(l: seq<Value>)
    | VNull

  /** The ways generation fails. */
  datatype Error =
    | BadTemplate(formatting: Value)    // BadTemplateException: `formatting` is not a list
    | MissingPlaceholder(name: string)  // str.format found no value for `{name}`
    | BadFormatString(template: string) // str.format rejected the template, or it uses field syntax beyond `{name}`
    | TypeMismatch(what: string)        // a value of the wrong shape reached an operation that needs another

  datatype Result<+T> = Ok(value: T) | Err(error: Error) {
    predicate IsFailure() { Err? }
    function PropagateFailure<U>(): Result<U> requires Err? { Err(error) }
    function Extract(): T requires Ok? { value }
  }

  /** Python's truth value of a template value. */
  predicate Truthy(v: Value)
  {
    match v
    case VStr(s) => s != ""
    case VBool(b) => b
    case VInt(i) => i != 0
    case VMap(m) => m != map[]
    case VList(l) => l != []
    case VNull => false
  }

  /** `d.get(key, dflt)` */
  function Get(m: map<string, Value>, key: string, dflt: Value): Value
  {
    if key in m then m[key] else dflt
  }

  /** The empty mapping `{}`. */
  const Empty: Value := VMap(map[])

  /** The mapping a value holds, or `{}` when it is not a mapping. */
  function AsMap(v: Value): map<string, Value>
  {
    if v.VMap? then v.m else map[]
  }

  /** Decimal digits of a natural number, most significant first, no leading zero. */
  function NatStr(n: nat): (r: string)
    ensures |r| > 0 && AllDigits(r)
    ensures n >= 10 ==> r[0] != '0'
    decreases n
  {
    if n < 10 then [DigitChar(n)] else NatStr(n / 10) + [DigitChar(n % 10)]
  }

  function DigitChar(d: nat): (c: char)
    requires d < 10
    ensures IsDigit(c) && DigitValue(c) == d
  {
    ['0', '1', '2', '3', '4', '5', '6', '7', '8', '9'][d]
  }

  /** ASCII decimal digit, as `str.isdigit` tests it on a byte string. */
  predicate IsDigit(c: char) { '0' <= c <= '9' }

  function DigitValue(c: char): (d: nat)
    requires IsDigit(c)
    ensures d < 10
  {
    (c as int - '0' as int) as nat
  }

  predicate AllDigits(s: string)
  {
    forall i :: 0 <= i < |s| ==> IsDigit(s[i])
  }

  /** `int(s)` on a string of ASCII digits. */
  function ParseDigits(s: string): nat
    requires AllDigits(s)
    decreases |s|
  {
    if s == [] then 0 else 10 * ParseDigits(s[..|s| - 1]) + DigitValue(s[|s| - 1])
  }

  /** `str(n)` for an integer. */
  function IntStr(n: int): (r: string)
    ensures |r| > 0
  {
    if n < 0 then "-" + NatStr(-n) else NatStr(n)
  }

  /** Parsing the printed digits gives the number back. */
  lemma {:induction false} ParseNatStr(n: nat)
    ensures ParseDigits(NatStr(n)) == n
    decreases n
  {
    if n >= 10 {
      var r := NatStr(n);
      assert r[..|r| - 1] == NatStr(n / 10);
      ParseNatStr(n / 10);
    }
  }

  lemma NatStrInjective(a: nat, b: nat)
    requires NatStr(a) == NatStr(b)
    ensures a == b
  {
    ParseNatStr(a);
    ParseNatStr(b);
  }

  /** Distinct integers print differently. */
  lemma IntStrInjective(a: int, b: int)
    requires IntStr(a) == IntStr(b)
    ensures a == b
  {
    var ra, rb := IntStr(a), IntStr(b);
    if a < 0 {
      var na: nat := -a;
      assert ra[0] == '-' && ra[1..] == NatStr(na);
      if b < 0 {
        var nb: nat := -b;
        assert rb[1..] == NatStr(nb);
        NatStrInjective(na, nb);
      }
    } else if b >= 0 {
      NatStrInjective(a, b);
    }
  }

  /**
   * `str(v)` (equivalently `"{}".format(v)`). Lists and dicts get a simplified
   * rendering: Python's repr of their elements is not modelled.
   */
  function Str(v: Value): string
  {
    match v
    case VStr(s) => s
    case VBool(b) => if b then "True" else "False"
    case VInt(i) => IntStr(i)
    case VMap(_) => "{...}"
    case VList(_) => "[...]"
    case VNull => "None"
  }
}
