/**
 * Python's ordering of strings (code point by code point, a proper prefix
 * first) and `sorted()` applied to the keys of a mapping.
 */
module LexOrder {

  /** `a < b` on Python strings. */
  predicate Less(a: string, b: string)
    decreases |a|
  {
    if |a| == 0 then |b| > 0
    else if |b| == 0 then false
    else if a[0] == b[0] then Less(a[1..], b[1..])
    else a[0] < b[0]
  }

  predicate LessEq(a: string, b: string)
  {
    a == b || Less(a, b)
  }

  lemma {:induction false} LessIrreflexive(a: string)
    ensures !Less(a, a)
    decreases |a|
  {
    if |a| > 0 {
      LessIrreflexive(a[1..]);
    }
  }

  lemma {:induction false} LessTransitive(a: string, b: string, c: string)
    requires Less(a, b) && Less(b, c)
    ensures Less(a, c)
    decreases |a|
  {
    if |a| > 0 && a[0] == b[0] && b[0] == c[0] {
      LessTransitive(a[1..], b[1..], c[1..]);
    }
  }

  /** Any two strings are comparable: exactly one of `a < b`, `a == b`, `b < a`. */
  lemma {:induction false} LessTrichotomy(a: string, b: string)
    ensures Less(a, b) || a == b || Less(b, a)
    ensures !(Less(a, b) && Less(b, a))
    decreases |a|
  {
    if |a| > 0 && |b| > 0 && a[0] == b[0] {
      LessTrichotomy(a[1..], b[1..]);
      if a[1..] == b[1..] {
        assert a == [a[0]] + a[1..] && b == [b[0]] + b[1..];
      }
    }
  }

  lemma LessEqAntisymmetric(a: string, b: string)
    requires LessEq(a, b) && LessEq(b, a)
    ensures a == b
  {
    LessTrichotomy(a, b);
  }

  /** `s` lists strings in strictly ascending order (so without repeats). */
  predicate Ascending(s: seq<string>)
  {
    forall i, j :: 0 <= i < j < |s| ==> Less(s[i], s[j])
  }

  /** Every non-empty finite set of strings has a least element. */
  lemma {:induction false} LeastExists(keys: set<string>)
    requires keys != {}
    ensures exists k :: k in keys && forall x :: x in keys ==> LessEq(k, x)
    decreases |keys|
  {
    var y :| y in keys;
    var rest := keys - {y};
    if rest == {} {
      forall x | x in keys ensures x == y {
        assert x !in rest;
      }
    } else {
      LeastExists(rest);
      var k :| k in rest && forall x :: x in rest ==> LessEq(k, x);
      LessTrichotomy(k, y);
      if Less(k, y) {
        forall x | x in keys
          ensures LessEq(k, x)
        {
          if x != y {
            assert x in rest;
          }
        }
      } else {
        assert Less(y, k);
        forall x | x in keys
          ensures LessEq(y, x)
        {
          if x != y {
            assert x in rest;
            if k != x {
              LessTransitive(y, k, x);
            }
          }
        }
        assert y in keys;
      }
    }
  }

  /** The least key of a non-empty set. */
  function Least(keys: set<string>): (k: string)
    requires keys != {}
    ensures k in keys && forall x {:trigger LessEq(k, x)} :: x in keys ==> LessEq(k, x)
  {
    LeastExists(keys);
    assert forall a, b :: LessEq(a, b) && LessEq(b, a) ==> a == b by {
      forall a, b | LessEq(a, b) && LessEq(b, a) ensures a == b {
        LessEqAntisymmetric(a, b);
      }
    }
    var k :| k in keys && forall x :: x in keys ==> LessEq(k, x);
    k
  }

  /** `sorted(keys)`: the keys in ascending order, each exactly once (see SortedKeysSpec). */
  function SortedKeys(keys: set<string>): seq<string>
    decreases |keys|
  {
    if keys == {} then []
    else
      var k := Least(keys);
      [k] + SortedKeys(keys - {k})
  }
  /** The sorted keys list every key of the set once, in ascending order. */
  lemma {:induction false} SortedKeysSpec(keys: set<string>)
    ensures |SortedKeys(keys)| == |keys|
    ensures forall x :: x in SortedKeys(keys) <==> x in keys
    ensures Ascending(SortedKeys(keys))
    decreases |keys|
  {
    if keys != {} {
      var k := Least(keys);
      var rest := SortedKeys(keys - {k});
      SortedKeysSpec(keys - {k});
      forall j | 0 <= j < |rest| ensures Less(k, rest[j]) {
        assert rest[j] in rest;
      }
    }
  }

  /**
   * Ascending order determines the enumeration: any ascending listing of a set
   * is the one `SortedKeys` gives.
   */
  lemma {:induction false} AscendingUnique(s: seq<string>, keys: set<string>)
    requires Ascending(s)
    requires forall x :: x in s <==> x in keys
    ensures s == SortedKeys(keys)
    decreases |s|
  {
    if s == [] {
      assert keys == {};
    } else {
      assert s[0] in s;
      var k := Least(keys);
      forall x | x in s[1..] ensures Less(s[0], x) {
        var j :| 1 <= j < |s| && s[j] == x;
      }
      assert s[0] == k by {
        assert LessEq(k, s[0]);
        if k != s[0] {
          var j :| 0 <= j < |s| && s[j] == k;
          assert j != 0;
          assert Less(s[0], k);
          LessTrichotomy(k, s[0]);
        }
      }
      forall x ensures x in s[1..] <==> x in keys - {k} {
        if x in s[1..] {
          LessIrreflexive(k);
        }
        if x in keys - {k} {
          var j :| 0 <= j < |s| && s[j] == x;
          assert j != 0;
        }
      }
      AscendingUnique(s[1..], keys - {k});
    }
  }
}
