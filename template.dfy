/**
 * Placeholder substitution: `template.format(**format_options)` restricted to
 * literal text, the `{{` and `}}` escapes and `{name}` fields. Field syntax
 * beyond a bare name (format specs, conversions, attribute or index access,
 * positional fields) and unbalanced braces fail with BadFormatString.
 */
module Template {
  import opened Values

  /** `s` followed by what `r` holds, failing as `r` fails. */
  function Prepend(s: string, r: Result<string>): Result<string>
  {
    if r.Ok? then Ok(s + r.value) else r
  }

  /** A field name looked up among the keyword arguments. */
  predicate PlainName(name: string)
  {
    && name != []
    && !AllDigits(name)
    && forall i :: 0 <= i < |name| ==> name[i] !in "{}:!.["
  }

  /** Index of the first `}` in `t` at or after `i`, or `|t|` when there is none. */
  function CloseBrace(t: string, i: nat): (j: nat)
    requires i <= |t|
    ensures i <= j <= |t|
    ensures j < |t| ==> t[j] == '}'
    ensures forall k :: i <= k < j ==> t[k] != '}'
    decreases |t| - i
  {
    if i == |t| || t[i] == '}' then i else CloseBrace(t, i + 1)
  }

  /** `t.format(**fo)` */
  function Format(t: string, fo: map<string, Value>): Result<string>
    decreases |t|
  {
    if t == [] then Ok([])
    else if |t| > 1 && t[0] == t[1] && (t[0] == '{' || t[0] == '}') then Prepend([t[0]], Format(t[2..], fo))
    else if t[0] == '}' then Err(BadFormatString(t))
    else if t[0] == '{' then
      var j := CloseBrace(t, 1);
      if j == |t| || !PlainName(t[1..j]) then Err(BadFormatString(t))
      else if t[1..j] !in fo then Err(MissingPlaceholder(t[1..j]))
      else Prepend(Str(fo[t[1..j]]), Format(t[j + 1..], fo))
    else Prepend([t[0]], Format(t[1..], fo))
  }

  /** A parsed template: literal characters and named fields. */
  datatype Piece = Lit(c: char) | Field(name: string)

  predicate PlainPieces(ps: seq<Piece>)
  {
    forall i :: 0 <= i < |ps| ==> ps[i].Field? ==> PlainName(ps[i].name)
  }

  /** The template text that denotes `ps`: braces doubled, fields braced. */
  function Unparse(ps: seq<Piece>): string
    decreases |ps|
  {
    if ps == [] then []
    else
      var head := match ps[0]
        case Lit(c) => if c == '{' || c == '}' then [c, c] else [c]
        case Field(n) => "{" + n + "}";
      head + Unparse(ps[1..])
  }

  /**
   * What a template means: the literal characters with each field replaced by
   * `str()` of its value, or the first field that has no value.
   */
  function Render(ps: seq<Piece>, fo: map<string, Value>): Result<string>
    decreases |ps|
  {
    if ps == [] then Ok([])
    else match ps[0]
      case Lit(c) => Prepend([c], Render(ps[1..], fo))
      case Field(n) => if n in fo then Prepend(Str(fo[n]), Render(ps[1..], fo)) else Err(MissingPlaceholder(n))
  }

  /** Formatting the text of a template yields what the template means. */
  lemma {:induction false} FormatUnparse(ps: seq<Piece>, fo: map<string, Value>)
    requires PlainPieces(ps)
    ensures Format(Unparse(ps), fo) == Render(ps, fo)
    decreases |ps|
  {
    if ps != [] {
      var rest := Unparse(ps[1..]);
      assert PlainPieces(ps[1..]) by {
        forall i | 0 <= i < |ps[1..]| ensures ps[1..][i].Field? ==> PlainName(ps[1..][i].name) {
          assert ps[1..][i] == ps[i + 1];
        }
      }
      FormatUnparse(ps[1..], fo);
      var t := Unparse(ps);
      match ps[0]
      case Lit(c) =>
        if c == '{' || c == '}' {
          assert t == [c, c] + rest && t[2..] == rest;
        } else {
          assert t == [c] + rest && t[1..] == rest;
        }
      case Field(n) =>
        assert PlainName(n);
        assert t == "{" + n + "}" + rest;
        var j := CloseBrace(t, 1);
        assert t[|n| + 1] == '}';
        assert forall k :: 1 <= k < |n| + 1 ==> t[k] == n[k - 1];
        assert j == |n| + 1;
        assert t[1..j] == n;
        assert t[j + 1..] == rest;
    }
  }

  /** The pieces of a template that holds only the literal text `s`. */
  function Literal(s: string): (ps: seq<Piece>)
    ensures |ps| == |s| && PlainPieces(ps)
    ensures forall i :: 0 <= i < |s| ==> ps[i] == Lit(s[i])
  {
    seq(|s|, i requires 0 <= i < |s| => Lit(s[i]))
  }

  lemma {:induction false} RenderLiteral(s: string, fo: map<string, Value>)
    ensures Render(Literal(s), fo) == Ok(s)
    decreases |s|
  {
    if s != [] {
      assert Literal(s)[1..] == Literal(s[1..]);
      RenderLiteral(s[1..], fo);
      assert [s[0]] + s[1..] == s;
    }
  }

  /** Doubling every brace of `s` gives a template that formats to `s`, whatever the options. */
  lemma FormatEscaped(s: string, fo: map<string, Value>)
    ensures Format(Unparse(Literal(s)), fo) == Ok(s)
  {
    FormatUnparse(Literal(s), fo);
    RenderLiteral(s, fo);
  }

  /** Text without braces formats to itself. */
  lemma {:induction false} FormatPlain(s: string, fo: map<string, Value>)
    requires forall i :: 0 <= i < |s| ==> s[i] != '{' && s[i] != '}'
    ensures Format(s, fo) == Ok(s)
    decreases |s|
  {
    if s != [] {
      FormatPlain(s[1..], fo);
      assert [s[0]] + s[1..] == s;
    }
  }

  /** A lone field is replaced by `str()` of its value, or fails naming the missing key. */
  lemma FormatField(n: string, fo: map<string, Value>)
    requires PlainName(n)
    ensures n in fo ==> Format("{" + n + "}", fo) == Ok(Str(fo[n]))
    ensures n !in fo ==> Format("{" + n + "}", fo) == Err(MissingPlaceholder(n))
  {
    assert Unparse([Field(n)]) == "{" + n + "}";
    FormatUnparse([Field(n)], fo);
    if n in fo {
      assert Str(fo[n]) + [] == Str(fo[n]);
    }
  }
}
