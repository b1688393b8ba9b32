/**
 * `adjust_format_counts`: renames the counter placeholders of a format-options
 * mapping one level up (`count` to `count1`, `count1` to `count2`, ...) so that
 * a new `count` can be set without losing the outer ones.
 */
module Counters {
  import opened Values
  import opened LexOrder

  /** `key[5:]` */
  function Tail(key: string): string
  {
    if |key| <= 5 then [] else key[5..]
  }

  /**
   * The key filter as written:
   * `(key.startswith("count") and not key[5:]) or key[5:].isdigit()`.
   * The second disjunct does not check the `count` prefix, so `abcde7` passes.
   */
  predicate IsCounterKey(key: string)
  {
    (|key| >= 5 && key[..5] == "count" && Tail(key) == []) || (Tail(key) != [] && AllDigits(Tail(key)))
  }

  /** `'count{}'.format(int(key[5:] or '0') + 1)` */
  function Target(key: string): (t: string)
    requires IsCounterKey(key)
  {
    "count" + NatStr(if Tail(key) == [] then 1 else ParseDigits(Tail(key)) + 1)
  }

  /** The `count<n>` key for level `n`; level 0 is the bare `count`. */
  function CounterName(n: nat): string
  {
    if n == 0 then "count" else "count" + NatStr(n)
  }

  /** The list `counts` the source builds: a (new key, value) pair per counter key, in iteration order. */
  function CounterMoves(fo: map<string, Value>, keys: seq<string>): seq<(string, Value)>
    decreases |keys|
  {
    if keys == [] then []
    else
      var k := keys[|keys| - 1];
      CounterMoves(fo, keys[..|keys| - 1]) + (if IsCounterKey(k) then [(Target(k), Get(fo, k, VNull))] else [])
  }

  /** `for num, val in counts: options['count{}'.format(...)] = val` */
  function Assign(m: map<string, Value>, moves: seq<(string, Value)>): map<string, Value>
    decreases |moves|
  {
    if moves == [] then m else Assign(m[moves[0].0 := moves[0].1], moves[1..])
  }

  /**
   * The mapping after `adjust_format_counts`. Python 2 visits the keys in its
   * own dict order; this model visits them in ascending order, which decides
   * only which value wins when two counter keys get the same new name.
   */
  function Shifted(fo: map<string, Value>): map<string, Value>
  {
    Assign(fo - {"count"}, CounterMoves(fo, SortedKeys(fo.Keys)))
  }

  /**
   * The in-place update of the source: the list comprehension collects the
   * moves, then `count` is deleted and the moves are written one by one.
   */
  method AdjustFormatCounts(options: map<string, Value>) returns (r: map<string, Value>)
    ensures r == Shifted(options)
  {
    var counts := CounterMoves(options, SortedKeys(options.Keys));
    r := options;
    if "count" in r {
      r := r - {"count"};
    }
    assert r == options - {"count"};
    ghost var start := r;
    for j := 0 to |counts|
      invariant Assign(r, counts[j..]) == Assign(start, counts)
    {
      assert counts[j..][1..] == counts[j + 1..];
      r := r[counts[j].0 := counts[j].1];
    }
    assert counts[|counts|..] == [];
  }

  lemma {:induction false} AssignAppend(m: map<string, Value>, a: seq<(string, Value)>, b: seq<(string, Value)>)
    ensures Assign(m, a + b) == Assign(Assign(m, a), b)
    decreases |a|
  {
    if a == [] {
      assert a + b == b;
    } else {
      assert (a + b)[0] == a[0] && (a + b)[1..] == a[1..] + b;
      AssignAppend(m[a[0].0 := a[0].1], a[1..], b);
    }
  }

  /** `key` is a counter key that is renamed to `t`. */
  predicate Renames(key: string, t: string)
  {
    IsCounterKey(key) && Target(key) == t
  }

  /** `keys[i]` is a counter key that is renamed to `t`. */
  predicate IsSource(keys: seq<string>, i: int, t: string)
  {
    0 <= i < |keys| && Renames(keys[i], t)
  }

  /** After the moves, `t` holds the value of the last key renamed to it. */
  lemma {:induction false} MovesAtLast(m: map<string, Value>, fo: map<string, Value>, keys: seq<string>, t: string, i: nat)
    requires forall k :: k in keys ==> k in fo
    requires IsSource(keys, i, t)
    requires forall j :: i < j < |keys| ==> !IsSource(keys, j, t)
    ensures t in Assign(m, CounterMoves(fo, keys)) && Assign(m, CounterMoves(fo, keys))[t] == fo[keys[i]]
    decreases |keys|
  {
    var n := |keys| - 1;
    var init := keys[..n];
    var k := keys[n];
    var step := if IsCounterKey(k) then [(Target(k), Get(fo, k, VNull))] else [];
    AssignAppend(m, CounterMoves(fo, init), step);
    if i < n {
      assert !IsSource(keys, n, t);
      forall j | i < j < |init| ensures !IsSource(init, j, t) {
        assert init[j] == keys[j] && !IsSource(keys, j, t);
      }
      assert init[i] == keys[i];
      MovesAtLast(m, fo, init, t, i);
    }
  }

  /** After the moves, a key nothing is renamed to holds what it held before. */
  lemma {:induction false} MovesAtNone(m: map<string, Value>, fo: map<string, Value>, keys: seq<string>, t: string)
    requires forall k :: k in keys ==> k in fo
    requires forall i :: 0 <= i < |keys| ==> !Renames(keys[i], t)
    ensures t in Assign(m, CounterMoves(fo, keys)) <==> t in m
    ensures t in m ==> Assign(m, CounterMoves(fo, keys))[t] == m[t]
    decreases |keys|
  {
    if keys != [] {
      var n := |keys| - 1;
      var init := keys[..n];
      var k := keys[n];
      var step := if IsCounterKey(k) then [(Target(k), Get(fo, k, VNull))] else [];
      AssignAppend(m, CounterMoves(fo, init), step);
      assert !Renames(keys[n], t);
      forall j | 0 <= j < |init| ensures !Renames(init[j], t) {
        assert init[j] == keys[j];
      }
      MovesAtNone(m, fo, init, t);
    }
  }

  /** The bare `count` never survives: it is deleted and nothing is renamed to it. */
  lemma ShiftedDropsCount(fo: map<string, Value>)
    ensures "count" !in Shifted(fo)
  {
    var keys := SortedKeys(fo.Keys);
    SortedKeysSpec(fo.Keys);
    forall i | 0 <= i < |keys| ensures !Renames(keys[i], "count") {
      if IsCounterKey(keys[i]) {
        assert |Target(keys[i])| > 5;
      }
    }
    MovesAtNone(fo - {"count"}, fo, keys, "count");
  }

  /** A key that exactly one counter key is renamed to receives that key's value. */
  lemma ShiftedTakesOnly(fo: map<string, Value>, t: string, s: string)
    requires s in fo && Renames(s, t)
    requires forall s' :: s' in fo && Renames(s', t) ==> s' == s
    ensures t in Shifted(fo) && Shifted(fo)[t] == fo[s]
  {
    var keys := SortedKeys(fo.Keys);
    SortedKeysSpec(fo.Keys);
    assert s in keys;
    var i :| 0 <= i < |keys| && keys[i] == s;
    forall j | i < j < |keys| ensures !IsSource(keys, j, t) {
      assert Less(keys[i], keys[j]);
      if keys[j] == s {
        LessIrreflexive(s);
      } else {
        assert keys[j] in keys;
      }
    }
    MovesAtLast(fo - {"count"}, fo, keys, t, i);
  }

  /** A key that no counter key is renamed to keeps its value, unless it is `count`. */
  lemma ShiftedKeeps(fo: map<string, Value>, t: string)
    requires forall s :: s in fo ==> !Renames(s, t)
    ensures t in Shifted(fo) <==> t in fo && t != "count"
    ensures t in Shifted(fo) ==> Shifted(fo)[t] == fo[t]
  {
    var keys := SortedKeys(fo.Keys);
    SortedKeysSpec(fo.Keys);
    forall i | 0 <= i < |keys| ensures !Renames(keys[i], t) {
      assert keys[i] in keys;
    }
    MovesAtNone(fo - {"count"}, fo, keys, t);
  }

  /** The new key of a counter key is itself a counter key, and never `count`. */
  lemma TargetIsCounter(key: string)
    requires IsCounterKey(key)
    ensures IsCounterKey(Target(key)) && Target(key) != "count"
  {
    var t := Target(key);
    assert Tail(t) == t[5..];
  }

  /** A format-options mapping whose counter keys are all of the form `count` or `count<n>`, n >= 1, without leading zeros. */
  ghost predicate Canonical(fo: map<string, Value>)
  {
    forall s :: s in fo && IsCounterKey(s) ==> exists n: nat :: s == CounterName(n)
  }

  lemma CounterNameLevel(n: nat)
    ensures IsCounterKey(CounterName(n))
    ensures Target(CounterName(n)) == CounterName(n + 1)
  {
    if n > 0 {
      var s := CounterName(n);
      assert Tail(s) == NatStr(n);
      ParseNatStr(n);
    }
  }

  lemma CounterNameInjective(a: nat, b: nat)
    requires CounterName(a) == CounterName(b)
    ensures a == b
  {
    if a > 0 && b > 0 {
      assert CounterName(a)[5..] == NatStr(a);
      assert CounterName(b)[5..] == NatStr(b);
      NatStrInjective(a, b);
    }
  }

  /** On a canonical mapping, level n + 1 receives the value of level n. */
  lemma ShiftMovesLevel(fo: map<string, Value>, n: nat)
    requires Canonical(fo) && CounterName(n) in fo
    ensures CounterName(n + 1) in Shifted(fo) && Shifted(fo)[CounterName(n + 1)] == fo[CounterName(n)]
  {
    var t := CounterName(n + 1);
    var s := CounterName(n);
    CounterNameLevel(n);
    forall s' | s' in fo && Renames(s', t) ensures s' == s {
      var m: nat :| s' == CounterName(m);
      CounterNameLevel(m);
      CounterNameInjective(m + 1, n + 1);
    }
    ShiftedTakesOnly(fo, t, s);
  }

  /** On a canonical mapping, a level that nothing moves into keeps its value. */
  lemma ShiftKeepsLevel(fo: map<string, Value>, n: nat)
    requires Canonical(fo) && n > 0 && CounterName(n - 1) !in fo
    ensures CounterName(n) in Shifted(fo) <==> CounterName(n) in fo
    ensures CounterName(n) in fo ==> Shifted(fo)[CounterName(n)] == fo[CounterName(n)]
  {
    var t := CounterName(n);
    forall s | s in fo ensures !Renames(s, t) {
      if IsCounterKey(s) {
        var m: nat :| s == CounterName(m);
        CounterNameLevel(m);
        if Target(s) == t {
          CounterNameInjective(m + 1, n);
        }
      }
    }
    ShiftedKeeps(fo, t);
  }

  /** Keys that are not counter keys are left alone. */
  lemma ShiftKeepsOthers(fo: map<string, Value>, k: string)
    requires !IsCounterKey(k)
    ensures k in Shifted(fo) <==> k in fo
    ensures k in fo ==> Shifted(fo)[k] == fo[k]
  {
    forall s | s in fo ensures !Renames(s, k) {
      if IsCounterKey(s) {
        TargetIsCounter(s);
      }
    }
    ShiftedKeeps(fo, k);
  }

  /**
   * On a mapping whose counter keys are `count`, `count1`, `count2`, ...:
   * `count` disappears, level n + 1 receives the value of level n, a level
   * nothing moves into keeps its value, and every other key is untouched.
   */
  lemma ShiftCanonical(fo: map<string, Value>)
    requires Canonical(fo)
    ensures CounterName(0) !in Shifted(fo)
    ensures forall n: nat :: CounterName(n) in fo ==>
              CounterName(n + 1) in Shifted(fo) && Shifted(fo)[CounterName(n + 1)] == fo[CounterName(n)]
    ensures forall n: nat :: n > 0 && CounterName(n - 1) !in fo ==>
              (CounterName(n) in Shifted(fo) <==> CounterName(n) in fo)
              && (CounterName(n) in fo ==> Shifted(fo)[CounterName(n)] == fo[CounterName(n)])
    ensures forall k :: !IsCounterKey(k) ==> (k in Shifted(fo) <==> k in fo) && (k in fo ==> Shifted(fo)[k] == fo[k])
  {
    ShiftedDropsCount(fo);
    forall n: nat | CounterName(n) in fo
      ensures CounterName(n + 1) in Shifted(fo) && Shifted(fo)[CounterName(n + 1)] == fo[CounterName(n)]
    {
      ShiftMovesLevel(fo, n);
    }
    forall n: nat | n > 0 && CounterName(n - 1) !in fo
      ensures (CounterName(n) in Shifted(fo) <==> CounterName(n) in fo)
              && (CounterName(n) in fo ==> Shifted(fo)[CounterName(n)] == fo[CounterName(n)])
    {
      ShiftKeepsLevel(fo, n);
    }
    forall k | !IsCounterKey(k)
      ensures (k in Shifted(fo) <==> k in fo) && (k in fo ==> Shifted(fo)[k] == fo[k])
    {
      ShiftKeepsOthers(fo, k);
    }
  }

  /** Shifting keeps a mapping canonical: every counter key it ends up with is a level name. */
  lemma ShiftedCanonical(fo: map<string, Value>)
    requires Canonical(fo)
    ensures Canonical(Shifted(fo))
  {
    forall s | s in Shifted(fo) && IsCounterKey(s) ensures exists n: nat :: s == CounterName(n) {
      if exists s' :: s' in fo && Renames(s', s) {
        var s' :| s' in fo && Renames(s', s);
        var m: nat :| s' == CounterName(m);
        CounterNameLevel(m);
        assert s == CounterName(m + 1);
      } else {
        ShiftedKeeps(fo, s);
      }
    }
  }

  /** The filter as written also takes `abcde7`, which moves to `count8` and stays in place. */
  lemma StrayCounterKey(v: Value)
    ensures var r := Shifted(map["abcde7" := v]);
      "count8" in r && r["count8"] == v && "abcde7" in r && r["abcde7"] == v
  {
    var fo := map["abcde7" := v];
    var s := "abcde7";
    assert Tail(s) == "7";
    assert IsCounterKey(s);
    assert ParseDigits("7") == 7 by {
      assert "7"[..0] == [];
    }
    assert Target(s) == "count8";
    ShiftedTakesOnly(fo, "count8", s);
    TargetIsCounter(s);
    ShiftedKeeps(fo, s);
  }
}
