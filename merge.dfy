/**
 * `merge_options`: a flat, last-write-wins merge of several mappings into a
 * new one. Falsy inputs (`None`, `{}`, ...) are skipped; any other input that
 * is not a mapping makes `dict.update` fail.
 */
module Merge {
  import opened Values

  /** An input `merge_options` accepts: skipped when falsy, otherwise a mapping. */
  predicate Mergeable(v: Value)
  {
    !Truthy(v) || v.VMap?
  }

  /** Input `i` is a mapping that holds `key`. */
  predicate Holds(inputs: seq<Value>, i: int, key: string)
  {
    0 <= i < |inputs| && inputs[i].VMap? && key in inputs[i].m
  }

  /** One round of the loop: `if opts: new_options.update(opts)`. */
  function Absorb(acc: map<string, Value>, opts: Value): Result<map<string, Value>>
  {
    if !Truthy(opts) then Ok(acc)
    else if opts.VMap? then Ok(acc + opts.m)
    else Err(TypeMismatch("dictionary update sequence"))
  }

  /** `merge_options(*inputs)` */
  function MergeAll(inputs: seq<Value>): Result<map<string, Value>>
    decreases |inputs|
  {
    if inputs == [] then Ok(map[])
    else
      var acc :- MergeAll(inputs[..|inputs| - 1]);
      Absorb(acc, inputs[|inputs| - 1])
  }

  /** The merge that the loop in the source performs, one input at a time. */
  method MergeOptions(inputs: seq<Value>) returns (r: Result<map<string, Value>>)
    ensures r == MergeAll(inputs)
  {
    var newOptions: map<string, Value> := map[];
    for i := 0 to |inputs|
      invariant MergeAll(inputs[..i]) == Ok(newOptions)
    {
      var opts := inputs[i];
      assert inputs[..i + 1][..i] == inputs[..i];
      if Truthy(opts) {
        if !opts.VMap? {
          MergeKeepsError(inputs, i + 1);
          return Err(TypeMismatch("dictionary update sequence"));
        }
        newOptions := newOptions + opts.m;
      }
    }
    assert inputs[..|inputs|] == inputs;
    return Ok(newOptions);
  }

  /** Once a prefix fails, the whole merge fails with the same error. */
  lemma {:induction false} MergeKeepsError(inputs: seq<Value>, n: nat)
    requires n <= |inputs|
    requires MergeAll(inputs[..n]).Err?
    ensures MergeAll(inputs) == MergeAll(inputs[..n])
    decreases |inputs| - n
  {
    if n < |inputs| {
      assert inputs[..n + 1][..n] == inputs[..n];
      MergeKeepsError(inputs, n + 1);
    } else {
      assert inputs[..n] == inputs;
    }
  }

  /** The merge succeeds exactly when every input is falsy or a mapping. */
  lemma {:induction false} MergeOkIff(inputs: seq<Value>)
    ensures MergeAll(inputs).Ok? <==> forall i :: 0 <= i < |inputs| ==> Mergeable(inputs[i])
    decreases |inputs|
  {
    if inputs != [] {
      var init := inputs[..|inputs| - 1];
      MergeOkIff(init);
      assert forall i :: 0 <= i < |init| ==> init[i] == inputs[i];
    }
  }

  /** The merged mapping holds exactly the keys that some input holds. */
  lemma {:induction false} MergeKeys(inputs: seq<Value>, key: string)
    requires MergeAll(inputs).Ok?
    ensures key in MergeAll(inputs).value <==> exists i :: Holds(inputs, i, key)
    decreases |inputs|
  {
    if inputs != [] {
      var n := |inputs| - 1;
      var init := inputs[..n];
      var acc := MergeAll(init).value;
      MergeKeys(init, key);
      assert forall i :: 0 <= i < n ==> (Holds(init, i, key) <==> Holds(inputs, i, key));
      assert key in MergeAll(inputs).value <==> key in acc || Holds(inputs, n, key);
    }
  }

  /** Each key takes its value from the last input that holds it (last write wins). */
  lemma {:induction false} MergeLastWins(inputs: seq<Value>, key: string, i: nat)
    requires MergeAll(inputs).Ok?
    requires Holds(inputs, i, key)
    requires forall j :: i < j < |inputs| ==> !Holds(inputs, j, key)
    ensures key in MergeAll(inputs).value && MergeAll(inputs).value[key] == inputs[i].m[key]
    decreases |inputs|
  {
    var n := |inputs| - 1;
    var init := inputs[..n];
    assert MergeAll(init).Ok?;
    if i < n {
      assert Holds(init, i, key);
      forall j | i < j < n ensures !Holds(init, j, key) {
        assert init[j] == inputs[j] && !Holds(inputs, j, key);
      }
      MergeLastWins(init, key, i);
      assert !Holds(inputs, n, key);
    }
  }

  /** Absorbing an input adds the mapping it holds, and fails exactly when it is truthy but not a mapping. */
  lemma AbsorbSpec(acc: map<string, Value>, v: Value)
    ensures Absorb(acc, v) == if Mergeable(v) then Ok(acc + AsMap(v)) else Err(TypeMismatch("dictionary update sequence"))
  {
    if !Truthy(v) {
      assert AsMap(v) == map[];
      assert acc + map[] == acc;
    }
  }

  /** Merging two inputs: the second laid over the first. */
  lemma MergeTwo(a: Value, b: Value)
    ensures MergeAll([a, b]) == if Mergeable(a) && Mergeable(b) then Ok(AsMap(a) + AsMap(b)) else Err(TypeMismatch("dictionary update sequence"))
  {
    assert [a, b][..1] == [a] && [a][..0] == [];
    AbsorbSpec(map[], a);
    assert map[] + AsMap(a) == AsMap(a);
    assert MergeAll([a]) == Absorb(map[], a);
    AbsorbSpec(AsMap(a), b);
    if Mergeable(a) {
      assert MergeAll([a, b]) == Absorb(AsMap(a), b);
    }
  }
}
