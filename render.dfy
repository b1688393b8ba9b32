/**
 * Rendering of host blocks: `lines_for`, `proxy_command`, and the string
 * joins that assemble lines into blocks and blocks into the config text.
 */
module Render {
  import opened Values

  /** `"ssh -q {} -W %h:%p".format(host)` */
  function ProxyCommand(host: string): string
  {
    "ssh -q " + host + " -W %h:%p"
  }

  /** Different hosts give different proxy commands, so a command names the one host it goes through. */
  lemma ProxyCommandInjective(a: string, b: string)
    ensures ProxyCommand(a) == ProxyCommand(b) <==> a == b
  {
    if ProxyCommand(a) == ProxyCommand(b) {
      assert ProxyCommand(a)[7..7 + |a|] == a;
      assert ProxyCommand(b)[7..7 + |b|] == b;
    }
  }

  /** The text of a directive value: `True` and `False` become `yes` and `no`. */
  function ValueText(v: Value): string
  {
    if v == VBool(true) then "yes" else if v == VBool(false) then "no" else Str(v)
  }

  /** `"{} {}".format(key, val)` after the yes/no conversion. */
  function Line(item: (string, Value)): string
  {
    item.0 + " " + ValueText(item.1)
  }

  /** `sep.join(parts)` */
  function Join(sep: string, parts: seq<string>): string
    decreases |parts|
  {
    if parts == [] then []
    else if |parts| == 1 then parts[0]
    else parts[0] + sep + Join(sep, parts[1..])
  }

  /** One line per item, in the order given. */
  function Lines(items: seq<(string, Value)>): (r: seq<string>)
    ensures |r| == |items|
    ensures forall i :: 0 <= i < |items| ==> r[i] == Line(items[i])
  {
    seq(|items|, i requires 0 <= i < |items| => Line(items[i]))
  }

  /** `lines_for`: appends a line per item, then joins them with newlines. */
  method LinesFor(items: seq<(string, Value)>) returns (block: string)
    ensures block == Join("\n", Lines(items))
  {
    var lines: seq<string> := [];
    for i := 0 to |items|
      invariant lines == Lines(items[..i])
    {
      var key, val := items[i].0, items[i].1;
      var text := Str(val);
      if val == VBool(true) {
        text := "yes";
      } else if val == VBool(false) {
        text := "no";
      }
      lines := lines + [key + " " + text];
    }
    assert items[..|items|] == items;
    block := Join("\n", lines);
  }

  /** Splits `s` at every occurrence of the one-character separator `sep`. */
  function Split(s: string, sep: char): (r: seq<string>)
    ensures |r| > 0
    decreases |s|
  {
    if s == [] then [[]]
    else
      var rest := Split(s[1..], sep);
      if s[0] == sep then [[]] + rest else [[s[0]] + rest[0]] + rest[1..]
  }

  /** Splitting the text of the first part and the rest, when the first part holds no separator. */
  lemma {:induction false} SplitConcat(a: string, sep: char, b: string)
    requires forall i :: 0 <= i < |a| ==> a[i] != sep
    ensures Split(a + [sep] + b, sep) == [a] + Split(b, sep)
    decreases |a|
  {
    if a == [] {
      assert a + [sep] + b == [sep] + b;
      assert ([sep] + b)[1..] == b;
    } else {
      SplitConcat(a[1..], sep, b);
      assert (a + [sep] + b)[1..] == a[1..] + [sep] + b;
      assert [a[0]] + a[1..] == a;
    }
  }

  lemma {:induction false} SplitPlain(a: string, sep: char)
    requires forall i :: 0 <= i < |a| ==> a[i] != sep
    ensures Split(a, sep) == [a]
    decreases |a|
  {
    if a != [] {
      SplitPlain(a[1..], sep);
      assert [a[0]] + a[1..] == a;
    }
  }

  /**
   * Joined lines split back into the same lines, provided no line holds a
   * newline itself: a block is exactly its lines.
   */
  lemma {:induction false} SplitJoin(lines: seq<string>)
    requires lines != []
    requires forall j, i :: 0 <= j < |lines| && 0 <= i < |lines[j]| ==> lines[j][i] != '\n'
    ensures Split(Join("\n", lines), '\n') == lines
    decreases |lines|
  {
    if |lines| == 1 {
      SplitPlain(lines[0], '\n');
    } else {
      SplitJoin(lines[1..]);
      SplitConcat(lines[0], '\n', Join("\n", lines[1..]));
      assert lines[0] + "\n" + Join("\n", lines[1..]) == lines[0] + ['\n'] + Join("\n", lines[1..]);
    }
  }

  /**
   * The lines of several generators run one after another: their blocks in
   * order, or the error of the first one that fails.
   */
  function Concat(rs: seq<Result<seq<string>>>): Result<seq<string>>
    decreases |rs|
  {
    if rs == [] then Ok([])
    else
      var init :- Concat(rs[..|rs| - 1]);
      var last :- rs[|rs| - 1];
      Ok(init + last)
  }

  /** The concatenation fails exactly when one of the parts does, and then with the first failure. */
  lemma {:induction false} ConcatErr(rs: seq<Result<seq<string>>>)
    ensures Concat(rs).Ok? <==> forall i :: 0 <= i < |rs| ==> rs[i].Ok?
    ensures Concat(rs).Err? ==> exists i :: 0 <= i < |rs| && Concat(rs) == rs[i] && forall j :: 0 <= j < i ==> rs[j].Ok?
    decreases |rs|
  {
    if rs != [] {
      var n := |rs| - 1;
      var init := rs[..n];
      ConcatErr(init);
      assert forall i :: 0 <= i < n ==> init[i] == rs[i];
      if Concat(init).Err? {
        var i :| 0 <= i < n && Concat(init) == init[i] && forall j :: 0 <= j < i ==> init[j].Ok?;
        assert Concat(rs) == rs[i];
      } else if rs[n].Err? {
        assert Concat(rs) == rs[n];
      }
    }
  }

  /** Parts that each give one block concatenate to those blocks, in order. */
  lemma {:induction false} ConcatSingles(rs: seq<Result<seq<string>>>)
    requires forall i :: 0 <= i < |rs| ==> rs[i].Ok? && |rs[i].value| == 1
    ensures Concat(rs).Ok?
    ensures |Concat(rs).value| == |rs| && forall i :: 0 <= i < |rs| ==> Concat(rs).value[i] == rs[i].value[0]
    decreases |rs|
  {
    if rs != [] {
      var n := |rs| - 1;
      var init := rs[..n];
      assert forall i :: 0 <= i < n ==> init[i] == rs[i];
      ConcatSingles(init);
    }
  }

  /** Concatenating two runs of parts concatenates their blocks. */
  lemma {:induction false} ConcatAppend(a: seq<Result<seq<string>>>, b: seq<Result<seq<string>>>)
    ensures Concat(a + b) == if Concat(a).Err? then Concat(a) else if Concat(b).Err? then Concat(b) else Ok(Concat(a).value + Concat(b).value)
    decreases |b|
  {
    if b == [] {
      assert a + b == a;
      if Concat(a).Ok? {
        assert Concat(a).value + [] == Concat(a).value;
      }
    } else {
      var n := |b| - 1;
      assert (a + b)[..|a + b| - 1] == a + b[..n];
      assert (a + b)[|a + b| - 1] == b[n];
      ConcatAppend(a, b[..n]);
      if Concat(a).Ok? && Concat(b[..n]).Ok? && b[n].Ok? {
        assert Concat(a).value + Concat(b[..n]).value + b[n].value == Concat(a).value + (Concat(b[..n]).value + b[n].value);
      }
    }
  }

  /** The blocks of several parts, one part after another. */
  function Flatten(bss: seq<seq<string>>): seq<string>
    decreases |bss|
  {
    if bss == [] then [] else Flatten(bss[..|bss| - 1]) + bss[|bss| - 1]
  }

  /** Parts that all succeed concatenate to their blocks, part after part. */
  lemma {:induction false} ConcatValue(rs: seq<Result<seq<string>>>)
    requires forall i :: 0 <= i < |rs| ==> rs[i].Ok?
    ensures Concat(rs) == Ok(Flatten(seq(|rs|, i requires 0 <= i < |rs| => rs[i].value)))
    decreases |rs|
  {
    if rs != [] {
      var n := |rs| - 1;
      var init := rs[..n];
      ConcatValue(init);
      var all := seq(|rs|, i requires 0 <= i < |rs| => rs[i].value);
      assert all[..n] == seq(|init|, i requires 0 <= i < |init| => init[i].value);
    }
  }

  /** The parts `f(k)` for each of `keys` in turn, concatenated. */
  function ConcatOver(keys: seq<string>, f: string --> Result<seq<string>>): Result<seq<string>>
    requires forall k :: k in keys ==> f.requires(k)
  {
    Concat(seq(|keys|, i requires 0 <= i < |keys| => f(keys[i])))
  }

  /** Concatenating over keys succeeds exactly when every key's part does; no keys give no blocks. */
  lemma ConcatOverSpec(keys: seq<string>, f: string --> Result<seq<string>>)
    requires forall k :: k in keys ==> f.requires(k)
    ensures ConcatOver(keys, f).Ok? <==> forall k :: k in keys ==> f(k).Ok?
    ensures keys == [] ==> ConcatOver(keys, f) == Ok([])
  {
    var rs := seq(|keys|, i requires 0 <= i < |keys| => f(keys[i]));
    ConcatErr(rs);
    forall k | k in keys && ConcatOver(keys, f).Ok? ensures f(k).Ok? {
      var i :| 0 <= i < |keys| && keys[i] == k;
      assert rs[i].Ok?;
    }
    if keys == [] {
      assert rs == [];
    }
  }

  /** Concatenating over keys whose parts all succeed gives each key's blocks in turn. */
  lemma ConcatOverValue(keys: seq<string>, f: string --> Result<seq<string>>)
    requires forall k :: k in keys ==> f.requires(k) && f(k).Ok?
    ensures ConcatOver(keys, f) == Ok(Flatten(seq(|keys|, i requires 0 <= i < |keys| => f(keys[i]).value)))
  {
    var rs := seq(|keys|, i requires 0 <= i < |keys| => f(keys[i]));
    ConcatValue(rs);
    assert seq(|rs|, i requires 0 <= i < |rs| => rs[i].value) == seq(|keys|, i requires 0 <= i < |keys| => f(keys[i]).value);
  }
}
