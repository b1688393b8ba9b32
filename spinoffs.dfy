/**
 * The concrete hosts a host entry spins off: one per `formatting` variant and
 * per count index, each with its formatted name, alias, options and the
 * merged entries of the hosts it proxies for.
 */
module Spinoffs {
  import opened Values
  import opened LexOrder
  import opened Merge
  import opened Template
  import opened Counters

  /** A host entry: the host-name template and the options it was given. */
  datatype Host = Host(host: string, options: map<string, Value>)

  function Alias(h: Host): Value { Get(h.options, "alias", VNull) }
  function ProxiedBy(h: Host): Value { Get(h.options, "proxied_by", VNull) }
  function Count(h: Host): Value { Get(h.options, "count", VNull) }
  function CountStart(h: Host): Value { Get(h.options, "count_start", VInt(1)) }
  function Proxying(h: Host): Value { Get(h.options, "proxying", Empty) }
  function FormatOptions(h: Host): Value { Get(h.options, "format_options", Empty) }
  function FormattingList(h: Host): Value { Get(h.options, "formatting", VList([])) }

  /** One entry of `formatting` with its missing keys filled in. */
  datatype Variant = Variant(formatOptions: Value, options: Value, proxying: Value, alias: Value, count: Value, countStart: Value)

  /** The variant of a host that has no `formatting` entries. */
  function Implicit(h: Host): Variant
  {
    Variant(VNull, Empty, Proxying(h), Alias(h), Count(h), CountStart(h))
  }

  /** A `formatting` entry: `format_options`, `options` and `proxying` default to `{}`, the rest to the host's own. */
  function VariantOf(h: Host, nxt: Value): Result<Variant>
  {
    if !nxt.VMap? then Err(TypeMismatch("formatting entry is not a mapping"))
    else
      var m := nxt.m;
      Ok(Variant(Get(m, "format_options", Empty), Get(m, "options", Empty), Get(m, "proxying", Empty),
                 Get(m, "alias", Alias(h)), Get(m, "count", Count(h)), Get(m, "count_start", CountStart(h))))
  }

  function Variants(h: Host, l: seq<Value>): (r: Result<seq<Variant>>)
    ensures r.Ok? <==> forall i :: 0 <= i < |l| ==> l[i].VMap?
    ensures r.Err? ==> r.error.TypeMismatch?
    ensures r.Ok? ==> |r.value| == |l| && forall i :: 0 <= i < |l| ==> Ok(r.value[i]) == VariantOf(h, l[i])
    decreases |l|
  {
    if l == [] then Ok([])
    else
      var v :- VariantOf(h, l[0]);
      var rest :- Variants(h, l[1..]);
      Ok([v] + rest)
  }

  /**
   * `list(self.formatting)`: anything but a list is a bad template; an empty
   * list stands for the host's implicit variant; otherwise one variant per
   * entry, in order, each entry being a mapping.
   */
  function Formatting(h: Host): (r: Result<seq<Variant>>)
    ensures r == Err(BadTemplate(FormattingList(h))) <==> !FormattingList(h).VList?
    ensures FormattingList(h) == VList([]) ==> r == Ok([Implicit(h)])
    ensures FormattingList(h).VList? && FormattingList(h).l != [] ==>
              var l := FormattingList(h).l;
              && (r.Ok? <==> forall i :: 0 <= i < |l| ==> l[i].VMap?)
              && (r.Ok? ==> |r.value| == |l| && forall i :: 0 <= i < |l| ==> Ok(r.value[i]) == VariantOf(h, l[i]))
  {
    var f := FormattingList(h);
    if !f.VList? then Err(BadTemplate(f))
    else if f.l == [] then Ok([Implicit(h)])
    else
      Variants(h, f.l)
  }

  /** `if not count: count = 1`, then the integer `range(count)` needs. */
  function Repeats(count: Value): Result<int>
  {
    if !Truthy(count) then Ok(1)
    else match count
      case VInt(i) => Ok(i)
      case VBool(_) => Ok(1)
      case _ => Err(TypeMismatch("range() needs an integer count"))
  }

  /** The integer `index + count_start` adds (a bool counts as 0 or 1). */
  function Start(countStart: Value): Result<int>
  {
    match countStart
    case VInt(i) => Ok(i)
    case VBool(b) => Ok(if b then 1 else 0)
    case _ => Err(TypeMismatch("count_start is not a number"))
  }

  /**
   * The top of each round: unless `count` already holds `str(n)`, the counters
   * move up a level and `count` is set to `str(n)`.
   */
  function Recount(fo: map<string, Value>, n: int): (r: map<string, Value>)
    ensures "count" in r && r["count"] == VStr(IntStr(n))
  {
    if Get(fo, "count", VNull) == VStr(IntStr(n)) then fo else Shifted(fo)["count" := VStr(IntStr(n))]
  }

  /** `alias.format(**fo)` when the alias is truthy; a falsy alias stays as it is. */
  function FormatAlias(alias: Value, fo: map<string, Value>): Result<Value>
  {
    if !Truthy(alias) then Ok(alias)
    else if alias.VStr? then
      var s :- Format(alias.s, fo);
      Ok(VStr(s))
    else Err(TypeMismatch("alias is not a string"))
  }

  /** `merged_proxying[key]` for one entry: a copy whose `format_options` lay the entry's own over `fo`. */
  function MergedEntry(val: Value, fo: map<string, Value>): Result<map<string, Value>>
  {
    var entry :- MergeAll([val]);
    var efo :- MergeAll([VMap(fo), Get(entry, "format_options", VNull)]);
    Ok(entry["format_options" := VMap(efo)])
  }

  /** The merged entries for `keys`, taken in order; the first entry that fails decides the error. */
  function MergedEntries(pm: map<string, Value>, keys: seq<string>, fo: map<string, Value>): Result<map<string, map<string, Value>>>
    decreases |keys|
  {
    if keys == [] then Ok(map[])
    else
      var n := |keys| - 1;
      var acc :- MergedEntries(pm, keys[..n], fo);
      var e :- MergedEntry(Get(pm, keys[n], VNull), fo);
      Ok(acc[keys[n] := e])
  }

  /** `proxying.items()` fails unless `proxying` is a mapping; entries are merged in ascending key order. */
  function MergedProxying(proxying: Value, fo: map<string, Value>): Result<map<string, map<string, Value>>>
  {
    if !proxying.VMap? then Err(TypeMismatch("proxying is not a mapping"))
    else MergedEntries(proxying.m, SortedKeys(proxying.m.Keys), fo)
  }

  /** The entries succeed exactly when each one does, and then there is one merged entry per key. */
  lemma {:induction false} MergedEntriesSpec(pm: map<string, Value>, keys: seq<string>, fo: map<string, Value>)
    requires forall i :: 0 <= i < |keys| ==> keys[i] in pm
    ensures MergedEntries(pm, keys, fo).Ok? <==> forall i :: 0 <= i < |keys| ==> MergedEntry(pm[keys[i]], fo).Ok?
    ensures var r := MergedEntries(pm, keys, fo);
      r.Ok? ==> (forall k :: k in r.value <==> k in keys) && forall k :: k in r.value ==> Ok(r.value[k]) == MergedEntry(pm[k], fo)
    decreases |keys|
  {
    if keys != [] {
      var n := |keys| - 1;
      MergedEntriesSpec(pm, keys[..n], fo);
      assert keys == keys[..n] + [keys[n]];
      assert forall i :: 0 <= i < n ==> keys[..n][i] == keys[i];
    }
  }

  /**
   * `merged_proxying` has an entry for every key of `proxying` and no other:
   * the entry as a new mapping, its `format_options` being the current format
   * options overlaid with the entry's own. It fails exactly when `proxying` is
   * not a mapping or one of its entries cannot be merged.
   */
  lemma MergedProxyingSpec(proxying: Value, fo: map<string, Value>)
    ensures MergedProxying(proxying, fo).Ok? <==> proxying.VMap? && forall k :: k in proxying.m ==> MergedEntry(proxying.m[k], fo).Ok?
    ensures var r := MergedProxying(proxying, fo);
      r.Ok? ==> r.value.Keys == proxying.m.Keys && forall k :: k in r.value ==> Ok(r.value[k]) == MergedEntry(proxying.m[k], fo)
  {
    if proxying.VMap? {
      var keys := SortedKeys(proxying.m.Keys);
      SortedKeysSpec(proxying.m.Keys);
      MergedEntriesSpec(proxying.m, keys, fo);
      if forall i :: 0 <= i < |keys| ==> MergedEntry(proxying.m[keys[i]], fo).Ok? {
        forall k | k in proxying.m ensures MergedEntry(proxying.m[k], fo).Ok? {
          var i :| 0 <= i < |keys| && keys[i] == k;
        }
      }
    }
  }

  /** The format options a proxied entry brings along itself, if any. */
  function OwnFormatOptions(val: Value): map<string, Value>
  {
    if val.VMap? && "format_options" in val.m && val.m["format_options"].VMap? then val.m["format_options"].m else map[]
  }

  /**
   * A merged entry is a copy of the entry, except that its `format_options`
   * are the current format options overlaid with the entry's own. Merging
   * fails exactly when the entry or its own `format_options` is truthy but
   * not a mapping.
   */
  lemma MergedEntrySpec(val: Value, fo: map<string, Value>)
    ensures MergedEntry(val, fo).Ok? <==> Mergeable(val) && (val.VMap? ==> Mergeable(Get(val.m, "format_options", VNull)))
    ensures var r := MergedEntry(val, fo);
      r.Ok? ==> && (forall k :: k != "format_options" ==> (k in r.value <==> val.VMap? && k in val.m))
                && (forall k :: k != "format_options" && k in r.value ==> r.value[k] == val.m[k])
                && r.value["format_options"] == VMap(fo + OwnFormatOptions(val))
  {
    assert [val][..0] == [];
    assert MergeAll([val]) == Absorb(map[], val);
    var entry := MergeAll([val]);
    if entry.Ok? {
      assert entry.value == if val.VMap? then val.m else map[];
      var own := Get(entry.value, "format_options", VNull);
      assert [VMap(fo), own][..1][..0] == [];
      assert [VMap(fo), own][..1] == [VMap(fo)];
      assert [VMap(fo)][..0] == [];
      assert MergeAll([VMap(fo)]) == Absorb(map[], VMap(fo));
      assert map[] + fo == fo;
      assert MergeAll([VMap(fo), own]) == Absorb(fo, own);
    }
  }

  lemma {:induction false} MergedEntriesKeepError(pm: map<string, Value>, keys: seq<string>, fo: map<string, Value>, n: nat)
    requires n <= |keys| && MergedEntries(pm, keys[..n], fo).Err?
    ensures MergedEntries(pm, keys, fo) == MergedEntries(pm, keys[..n], fo)
    decreases |keys| - n
  {
    if n < |keys| {
      assert keys[..n + 1][..n] == keys[..n];
      MergedEntriesKeepError(pm, keys, fo, n + 1);
    } else {
      assert keys[..n] == keys;
    }
  }

  /** Taking one more key: the entries so far, extended by the entry for `keys[j]` unless that one fails. */
  lemma MergedEntriesStep(pm: map<string, Value>, keys: seq<string>, fo: map<string, Value>, j: nat)
    requires j < |keys| && MergedEntries(pm, keys[..j], fo).Ok?
    ensures var e := MergedEntry(Get(pm, keys[j], VNull), fo);
      MergedEntries(pm, keys[..j + 1], fo)
        == if e.Ok? then Ok(MergedEntries(pm, keys[..j], fo).value[keys[j] := e.value]) else Err(e.error)
  {
    assert keys[..j + 1][..j] == keys[..j];
  }

  /** `MergedEntry` in the two steps the loop takes. */
  lemma MergedEntryOf(val: Value, fo: map<string, Value>, entry: Result<map<string, Value>>, efo: Result<map<string, Value>>)
    requires MergeAll([val]) == entry
    requires entry.Ok? ==> MergeAll([VMap(fo), Get(entry.value, "format_options", VNull)]) == efo
    ensures MergedEntry(val, fo) == if entry.Err? then Err(entry.error) else if efo.Err? then Err(efo.error) else Ok(entry.value["format_options" := VMap(efo.value)])
  {
  }

  /** The loop that builds `merged_proxying`. */
  method MergeProxying(proxying: Value, fo: map<string, Value>) returns (r: Result<map<string, map<string, Value>>>)
    ensures r == MergedProxying(proxying, fo)
  {
    if !proxying.VMap? {
      return Err(TypeMismatch("proxying is not a mapping"));
    }
    var keys := SortedKeys(proxying.m.Keys);
    SortedKeysSpec(proxying.m.Keys);
    var merged: map<string, map<string, Value>> := map[];
    for j := 0 to |keys|
      invariant MergedEntries(proxying.m, keys[..j], fo) == Ok(merged)
    {
      var key := keys[j];
      assert key in proxying.m;
      MergedEntriesStep(proxying.m, keys, fo, j);
      var entry := MergeOptions([proxying.m[key]]);
      if entry.Err? {
        MergedEntryOf(proxying.m[key], fo, entry, entry);
        MergedEntriesKeepError(proxying.m, keys, fo, j + 1);
        return Err(entry.error);
      }
      var efo := MergeOptions([VMap(fo), Get(entry.value, "format_options", VNull)]);
      MergedEntryOf(proxying.m[key], fo, entry, efo);
      if efo.Err? {
        MergedEntriesKeepError(proxying.m, keys, fo, j + 1);
        return Err(efo.error);
      }
      merged := merged[key := entry.value["format_options" := VMap(efo.value)]];
    }
    assert keys[..|keys|] == keys;
    return Ok(merged);
  }
  /**
   * One spun-off host: the formatted name (`raw`), the name with its alias
   * (`display`), the variant's options with `HostName` set, the merged entries
   * of the hosts it proxies for, the format options it was formatted with, and
   * the proxying entries as they were given (`sources`).
   */
  datatype Spinoff = Spinoff(
    raw: string, display: string, options: map<string, Value>,
    proxying: map<string, map<string, Value>>, formatOptions: map<string, Value>,
    sources: map<string, Value>)

  /** The body of one round, after the counters are set. */
  function SpinoffAt(h: Host, v: Variant, fo: map<string, Value>): Result<Spinoff>
  {
    var raw :- Format(h.host, fo);
    var alias :- FormatAlias(v.alias, fo);
    if !v.options.VMap? then Err(TypeMismatch("options is not a mapping"))
    else
      var options := v.options.m["HostName" := VStr(raw)];
      var display := if Truthy(alias) then raw + " " + Str(alias) else raw;
      var merged :- MergedProxying(v.proxying, fo);
      Ok(Spinoff(raw, display, options, merged, fo, v.proxying.m))
  }

  /**
   * A spinoff is named by the host template formatted with the round's format
   * options; its options are the variant's with `HostName` set to that name;
   * its displayed name adds the formatted alias when that is non-empty; and its
   * proxied entries are the merged entries of the variant's `proxying`.
   */
  lemma SpinoffAtSpec(h: Host, v: Variant, fo: map<string, Value>)
    ensures var r := SpinoffAt(h, v, fo);
      r.Ok? ==> && Format(h.host, fo) == Ok(r.value.raw) && r.value.formatOptions == fo
                && v.options.VMap? && r.value.options == v.options.m["HostName" := VStr(r.value.raw)]
                && v.proxying == VMap(r.value.sources) && MergedProxying(v.proxying, fo) == Ok(r.value.proxying)
                && (if Truthy(v.alias) && Format(v.alias.s, fo) != Ok("")
                    then r.value.display == r.value.raw + " " + Format(v.alias.s, fo).value
                    else r.value.display == r.value.raw)
    ensures Format(h.host, fo).Err? ==> SpinoffAt(h, v, fo) == Err(Format(h.host, fo).error)
  {
  }

  /** One round's body as the source performs it, after the counters are set. */
  method SpinoffRound(h: Host, v: Variant, fo: map<string, Value>) returns (r: Result<Spinoff>)
    ensures r == SpinoffAt(h, v, fo)
  {
    var host := Format(h.host, fo);
    if host.Err? {
      return Err(host.error);
    }
    var formattedAlias := v.alias;
    if Truthy(v.alias) {
      if !v.alias.VStr? {
        return Err(TypeMismatch("alias is not a string"));
      }
      var a := Format(v.alias.s, fo);
      if a.Err? {
        return Err(a.error);
      }
      formattedAlias := VStr(a.value);
    }
    var rawHost := host.value;
    if !v.options.VMap? {
      return Err(TypeMismatch("options is not a mapping"));
    }
    var options := v.options.m["HostName" := VStr(rawHost)];
    var display := rawHost;
    if Truthy(formattedAlias) {
      display := rawHost + " " + Str(formattedAlias);
    }
    var merged := MergeProxying(v.proxying, fo);
    if merged.Err? {
      return Err(merged.error);
    }
    return Ok(Spinoff(rawHost, display, options, merged.value, fo, v.proxying.m));
  }

  /**
   * The format options of round `j` of a variant that starts from `fo`: the
   * previous round's options (`fo` before the first) with `count` set to
   * `str(j + start)`.
   */
  function RoundAt(fo: map<string, Value>, start: int, j: nat): (o: map<string, Value>)
    ensures "count" in o && o["count"] == VStr(IntStr(j + start))
    decreases j, 1
  {
    Recount(Previous(fo, start, j), j + start)
  }

  /** The format options round `j` starts from: those of round `j - 1`, or `fo` for the first round. */
  function Previous(fo: map<string, Value>, start: int, j: nat): map<string, Value>
    decreases j, 0
  {
    if j == 0 then fo else RoundAt(fo, start, j - 1)
  }

  /** The format options of rounds 0 to `n - 1`. */
  function RoundOptions(fo: map<string, Value>, start: int, n: nat): (os: seq<map<string, Value>>)
    ensures |os| == n && forall j :: 0 <= j < n ==> os[j] == RoundAt(fo, start, j)
  {
    seq(n, j requires 0 <= j => RoundAt(fo, start, j))
  }

  /** The spinoffs of the rounds whose options are `os`; the first round that fails decides the error. */
  function SpinoffsOver(h: Host, v: Variant, os: seq<map<string, Value>>): Result<seq<Spinoff>>
    decreases |os|
  {
    if os == [] then Ok([])
    else
      var init :- SpinoffsOver(h, v, os[..|os| - 1]);
      var sp :- SpinoffAt(h, v, os[|os| - 1]);
      Ok(init + [sp])
  }

  /** `len(range(count))` */
  function RangeLength(count: int): nat
  {
    if count < 0 then 0 else count
  }

  /**
   * All the spinoffs of one variant: its format options are the host's
   * overlaid with its own, and it runs `count` rounds (at least one when the
   * count is falsy). `count_start` is only looked at once a round runs.
   */
  function VariantSpinoffs(h: Host, v: Variant): Result<seq<Spinoff>>
  {
    var fo :- MergeAll([FormatOptions(h), v.formatOptions]);
    var count :- Repeats(v.count);
    if RangeLength(count) == 0 then Ok([])
    else
      var start :- Start(v.countStart);
      SpinoffsOver(h, v, RoundOptions(fo, start, RangeLength(count)))
  }

  /** The spinoffs of the variants `vs`, variant by variant. */
  function AllSpinoffs(h: Host, vs: seq<Variant>): Result<seq<Spinoff>>
    decreases |vs|
  {
    if vs == [] then Ok([])
    else
      var n := |vs| - 1;
      var init :- AllSpinoffs(h, vs[..n]);
      var last :- VariantSpinoffs(h, vs[n]);
      Ok(init + last)
  }

  /** `self.spinoffs`, listed. */
  function SpinoffsOf(h: Host): Result<seq<Spinoff>>
  {
    var vs :- Formatting(h);
    AllSpinoffs(h, vs)
  }

  /**
   * What the generator `self.spinoffs` yields before it stops: the spinoffs
   * it made, in order, and, when it stops by raising, the error it raises.
   */
  datatype Run = Finished(made: seq<Spinoff>) | Raised(made: seq<Spinoff>, error: Error)

  /** `list()` of a run: its spinoffs, or the error it raised. */
  function Listed(run: Run): Result<seq<Spinoff>>
  {
    match run
    case Finished(sps) => Ok(sps)
    case Raised(_, e) => Err(e)
  }

  /** A run followed by another, which only starts when the first finished. */
  function Then(first: Run, next: Run): Run
  {
    match first
    case Raised(_, _) => first
    case Finished(sps) =>
      match next
      case Finished(more) => Finished(sps + more)
      case Raised(more, e) => Raised(sps + more, e)
  }

  /** A step that makes one spinoff, or raises before making it. */
  function Step(r: Result<Spinoff>): Run
  {
    match r
    case Ok(sp) => Finished([sp])
    case Err(e) => Raised([], e)
  }

  /** The rounds whose options are `os`, one after another, up to the first that raises. */
  function RoundsRun(h: Host, v: Variant, os: seq<map<string, Value>>): Run
    decreases |os|
  {
    if os == [] then Finished([])
    else Then(RoundsRun(h, v, os[..|os| - 1]), Step(SpinoffAt(h, v, os[|os| - 1])))
  }

  /** The rounds of one variant, preceded by its format options, count and count start. */
  function VariantRun(h: Host, v: Variant): Run
  {
    match MergeAll([FormatOptions(h), v.formatOptions])
    case Err(e) => Raised([], e)
    case Ok(fo) =>
      match Repeats(v.count)
      case Err(e) => Raised([], e)
      case Ok(count) =>
        if RangeLength(count) == 0 then Finished([])
        else
          match Start(v.countStart)
          case Err(e) => Raised([], e)
          case Ok(start) => RoundsRun(h, v, RoundOptions(fo, start, RangeLength(count)))
  }

  /** The variants `vs`, one after another, up to the first that raises. */
  function VariantsRun(h: Host, vs: seq<Variant>): Run
    decreases |vs|
  {
    if vs == [] then Finished([])
    else Then(VariantsRun(h, vs[..|vs| - 1]), VariantRun(h, vs[|vs| - 1]))
  }

  /** The generator `self.spinoffs`, run until it is exhausted or raises. */
  function RunOf(h: Host): Run
  {
    match Formatting(h)
    case Err(e) => Raised([], e)
    case Ok(vs) => VariantsRun(h, vs)
  }

  /**
   * The rounds' run lists to the rounds' spinoffs, and everything it made
   * before stopping is made by the variant from its own format options.
   */
  lemma {:induction false} RoundsRunSpec(h: Host, v: Variant, os: seq<map<string, Value>>)
    ensures Listed(RoundsRun(h, v, os)) == SpinoffsOver(h, v, os)
    ensures forall sp :: sp in RoundsRun(h, v, os).made ==> SpinoffAt(h, v, sp.formatOptions) == Ok(sp)
    decreases |os|
  {
    if os != [] {
      var n := |os| - 1;
      RoundsRunSpec(h, v, os[..n]);
      SpinoffAtSpec(h, v, os[n]);
    }
  }

  /**
   * A variant's run lists to the variant's spinoffs, and everything it made
   * before stopping is made by the variant from its own format options.
   */
  lemma VariantRunSpec(h: Host, v: Variant)
    ensures Listed(VariantRun(h, v)) == VariantSpinoffs(h, v)
    ensures forall sp :: sp in VariantRun(h, v).made ==> SpinoffAt(h, v, sp.formatOptions) == Ok(sp)
  {
    var fo := MergeAll([FormatOptions(h), v.formatOptions]);
    var count := Repeats(v.count);
    if fo.Ok? && count.Ok? && RangeLength(count.value) > 0 && Start(v.countStart).Ok? {
      RoundsRunSpec(h, v, RoundOptions(fo.value, Start(v.countStart).value, RangeLength(count.value)));
    }
  }

  /**
   * The variants' run lists to the variants' spinoffs, and everything it made
   * before stopping is made by one of the variants.
   */
  lemma {:induction false} VariantsRunSpec(h: Host, vs: seq<Variant>)
    ensures Listed(VariantsRun(h, vs)) == AllSpinoffs(h, vs)
    ensures forall sp :: sp in VariantsRun(h, vs).made ==>
              exists i :: 0 <= i < |vs| && SpinoffAt(h, vs[i], sp.formatOptions) == Ok(sp)
    decreases |vs|
  {
    if vs != [] {
      var n := |vs| - 1;
      VariantsRunSpec(h, vs[..n]);
      VariantRunSpec(h, vs[n]);
      var first := VariantsRun(h, vs[..n]);
      forall sp | sp in VariantsRun(h, vs).made
        ensures exists i :: 0 <= i < |vs| && SpinoffAt(h, vs[i], sp.formatOptions) == Ok(sp)
      {
        if sp in first.made {
          var i :| 0 <= i < n && SpinoffAt(h, vs[..n][i], sp.formatOptions) == Ok(sp);
          assert vs[..n][i] == vs[i];
        } else {
          assert SpinoffAt(h, vs[n], sp.formatOptions) == Ok(sp);
        }
      }
    }
  }

  /**
   * Running `self.spinoffs` to the end lists exactly `SpinoffsOf`: it
   * finishes when the listing succeeds, with the same spinoffs, and otherwise
   * raises the listing's error. Every spinoff it made before stopping comes
   * from one of the host's variants.
   */
  lemma RunOfSpec(h: Host)
    ensures Listed(RunOf(h)) == SpinoffsOf(h)
    ensures RunOf(h).made != [] ==> Formatting(h).Ok?
    ensures forall sp :: sp in RunOf(h).made ==>
              exists i :: 0 <= i < |Formatting(h).value| && SpinoffAt(h, Formatting(h).value[i], sp.formatOptions) == Ok(sp)
  {
    if Formatting(h).Ok? {
      VariantsRunSpec(h, Formatting(h).value);
    }
  }

  lemma {:induction false} AllSpinoffsKeepError(h: Host, vs: seq<Variant>, n: nat)
    requires n <= |vs| && AllSpinoffs(h, vs[..n]).Err?
    ensures AllSpinoffs(h, vs) == AllSpinoffs(h, vs[..n])
    decreases |vs| - n
  {
    if n < |vs| {
      assert vs[..n + 1][..n] == vs[..n];
      AllSpinoffsKeepError(h, vs, n + 1);
    } else {
      assert vs[..n] == vs;
    }
  }

  /** A variant that fails makes the whole listing fail the same way. */
  lemma VariantFails(h: Host, vs: seq<Variant>, k: nat, e: Error)
    requires k < |vs| && AllSpinoffs(h, vs[..k]).Ok? && VariantSpinoffs(h, vs[k]) == Err(e)
    ensures AllSpinoffs(h, vs) == Err(e)
  {
    assert vs[..k + 1][..k] == vs[..k];
    AllSpinoffsKeepError(h, vs, k + 1);
  }

  /** Setting the count keeps the counter keys canonical. */
  lemma RecountCanonical(fo: map<string, Value>, n: int)
    requires Canonical(fo)
    ensures Canonical(Recount(fo, n))
  {
    if Get(fo, "count", VNull) != VStr(IntStr(n)) {
      ShiftedCanonical(fo);
      var r := Recount(fo, n);
      forall s | s in r && IsCounterKey(s) ensures exists k: nat :: s == CounterName(k) {
        if s == "count" {
          assert s == CounterName(0);
        }
      }
    }
  }

  /**
   * On a canonical mapping whose `count` holds `str(n - 1)`, setting the count
   * to `str(n)` moves the previous count to `count1`.
   */
  lemma RecountMovesPrevious(fo: map<string, Value>, n: int)
    requires Canonical(fo) && "count" in fo && fo["count"] == VStr(IntStr(n - 1))
    ensures "count1" in Recount(fo, n) && Recount(fo, n)["count1"] == VStr(IntStr(n - 1))
  {
    var c := VStr(IntStr(n));
    if IntStr(n - 1) == IntStr(n) {
      IntStrInjective(n - 1, n);
    }
    assert Get(fo, "count", VNull) != c;
    assert Recount(fo, n) == Shifted(fo)["count" := c];
    assert CounterName(0) == "count" && CounterName(1) == "count1";
    ShiftMovesLevel(fo, 0);
  }

  /** The rounds of a shorter run are the first rounds of a longer one. */
  lemma RoundOptionsPrefix(fo: map<string, Value>, start: int, n: nat, m: nat)
    requires m <= n
    ensures RoundOptions(fo, start, n)[..m] == RoundOptions(fo, start, m)
  {
  }

  /** From canonical options, every round starts from canonical options. */
  lemma {:induction false} PreviousCanonical(fo: map<string, Value>, start: int, j: nat)
    requires Canonical(fo)
    ensures Canonical(Previous(fo, start, j))
    decreases j
  {
    if j == 0 {
      PreviousStep(fo, start, j);
    } else {
      PreviousCanonical(fo, start, j - 1);
      RecountCanonical(Previous(fo, start, j - 1), j - 1 + start);
      PreviousStep(fo, start, j);
    }
  }

  /** The first round starts from `fo`; each later one from the options the round before made. */
  lemma PreviousStep(fo: map<string, Value>, start: int, j: nat)
    ensures j == 0 ==> Previous(fo, start, j) == fo
    ensures j > 0 ==> Previous(fo, start, j) == Recount(Previous(fo, start, j - 1), j - 1 + start)
  {
  }

  /** From canonical options, from the second round on `count1` holds the previous round's count. */
  lemma RoundOptionsPrevious(fo: map<string, Value>, start: int, n: nat)
    requires Canonical(fo)
    ensures forall j :: 0 < j < n ==> var o := RoundOptions(fo, start, n)[j]; "count1" in o && o["count1"] == VStr(IntStr(j - 1 + start))
  {
    forall j | 0 < j < n ensures "count1" in RoundAt(fo, start, j) && RoundAt(fo, start, j)["count1"] == VStr(IntStr(j - 1 + start)) {
      PreviousCanonical(fo, start, j);
      RecountMovesPrevious(Previous(fo, start, j), j + start);
    }
  }

  /**
   * The rounds succeed exactly when each one does, and then there is one
   * spinoff per round, made from that round's options.
   */
  lemma {:induction false} SpinoffsOverSpec(h: Host, v: Variant, os: seq<map<string, Value>>)
    ensures SpinoffsOver(h, v, os).Ok? <==> forall j :: 0 <= j < |os| ==> SpinoffAt(h, v, os[j]).Ok?
    ensures var r := SpinoffsOver(h, v, os);
      r.Ok? ==> |r.value| == |os| && forall j :: 0 <= j < |os| ==> SpinoffAt(h, v, os[j]) == Ok(r.value[j])
    decreases |os|
  {
    if os != [] {
      var n := |os| - 1;
      var init := os[..n];
      SpinoffsOverSpec(h, v, init);
      assert forall j :: 0 <= j < n ==> init[j] == os[j];
      var last := SpinoffAt(h, v, os[n]);
      if SpinoffsOver(h, v, init).Ok? && last.Ok? {
        assert SpinoffsOver(h, v, os).value == SpinoffsOver(h, v, init).value + [last.value];
      }
    }
  }

  lemma {:induction false} SpinoffsOverKeepError(h: Host, v: Variant, os: seq<map<string, Value>>, m: nat)
    requires m <= |os| && SpinoffsOver(h, v, os[..m]).Err?
    ensures SpinoffsOver(h, v, os) == SpinoffsOver(h, v, os[..m])
    decreases |os| - m
  {
    if m < |os| {
      assert os[..m + 1][..m] == os[..m];
      SpinoffsOverKeepError(h, v, os, m + 1);
    } else {
      assert os[..m] == os;
    }
  }

  /**
   * A variant with `count` N (a falsy count counting as 1) and `count_start`
   * S spins off exactly N hosts, the one of index j being made with `count`
   * set to `str(S + j)`.
   */
  lemma VariantSpinoffsSpec(h: Host, v: Variant)
    requires VariantSpinoffs(h, v).Ok?
    ensures Repeats(v.count).Ok? && MergeAll([FormatOptions(h), v.formatOptions]).Ok?
    ensures var sps := VariantSpinoffs(h, v).value;
      && |sps| == RangeLength(Repeats(v.count).value)
      && (sps != [] ==> Start(v.countStart).Ok?)
      && forall j :: 0 <= j < |sps| ==>
           && "count" in sps[j].formatOptions
           && sps[j].formatOptions["count"] == VStr(IntStr(j + Start(v.countStart).value))
           && SpinoffAt(h, v, sps[j].formatOptions) == Ok(sps[j])
  {
    var fo := MergeAll([FormatOptions(h), v.formatOptions]).value;
    var n := RangeLength(Repeats(v.count).value);
    if n > 0 {
      var start := Start(v.countStart).value;
      var os := RoundOptions(fo, start, n);
      SpinoffsOverSpec(h, v, os);
      var sps := VariantSpinoffs(h, v).value;
      forall j | 0 <= j < n ensures sps[j].formatOptions == os[j] {
        SpinoffAtSpec(h, v, os[j]);
      }
    }
  }

  /** Every spinoff of a variant is made by that variant, from the format options it carries. */
  lemma VariantSpinoffsMade(h: Host, v: Variant)
    requires VariantSpinoffs(h, v).Ok?
    ensures forall sp :: sp in VariantSpinoffs(h, v).value ==> SpinoffAt(h, v, sp.formatOptions) == Ok(sp)
  {
    VariantSpinoffsSpec(h, v);
  }

  /**
   * When the format options start canonical, the host of index j > 0 is made
   * with `count1` holding the previous index's count.
   */
  lemma VariantSpinoffsPrevious(h: Host, v: Variant)
    requires VariantSpinoffs(h, v).Ok? && Canonical(MergeAll([FormatOptions(h), v.formatOptions]).value)
    ensures var sps := VariantSpinoffs(h, v).value;
      forall j :: 0 < j < |sps| ==>
        && Start(v.countStart).Ok?
        && "count1" in sps[j].formatOptions
        && sps[j].formatOptions["count1"] == VStr(IntStr(j - 1 + Start(v.countStart).value))
  {
    var fo := MergeAll([FormatOptions(h), v.formatOptions]).value;
    var n := RangeLength(Repeats(v.count).value);
    if n > 0 {
      var start := Start(v.countStart).value;
      var os := RoundOptions(fo, start, n);
      SpinoffsOverSpec(h, v, os);
      RoundOptionsPrevious(fo, start, n);
      var sps := VariantSpinoffs(h, v).value;
      forall j | 0 <= j < n ensures sps[j].formatOptions == os[j] {
        SpinoffAtSpec(h, v, os[j]);
      }
    }
  }

  /** One more round: its options, and the spinoffs so far extended by its spinoff unless it fails. */
  lemma RoundsStep(h: Host, v: Variant, fo: map<string, Value>, start: int, index: nat, sps: seq<Spinoff>, o: map<string, Value>)
    requires SpinoffsOver(h, v, RoundOptions(fo, start, index)) == Ok(sps)
    requires o == RoundAt(fo, start, index)
    ensures Previous(fo, start, index + 1) == o
    ensures var sp := SpinoffAt(h, v, o);
      SpinoffsOver(h, v, RoundOptions(fo, start, index + 1)) == if sp.Ok? then Ok(sps + [sp.value]) else Err(sp.error)
  {
    PreviousStep(fo, start, index + 1);
    var os := RoundOptions(fo, start, index + 1);
    assert os[..index] == RoundOptions(fo, start, index);
    assert os[index] == o;
  }

  /** A failed round fails the whole run the same way. */
  lemma RoundsFail(h: Host, v: Variant, fo: map<string, Value>, start: int, n: nat, m: nat)
    requires m <= n && SpinoffsOver(h, v, RoundOptions(fo, start, m)).Err?
    ensures SpinoffsOver(h, v, RoundOptions(fo, start, n)) == SpinoffsOver(h, v, RoundOptions(fo, start, m))
  {
    RoundOptionsPrefix(fo, start, n, m);
    SpinoffsOverKeepError(h, v, RoundOptions(fo, start, n), m);
  }

  /** The top of a round: `count` is made to hold `str(n)`, shifting the counters first when it does not. */
  method SetCount(fo: map<string, Value>, n: int) returns (r: map<string, Value>)
    ensures r == Recount(fo, n)
  {
    r := fo;
    var c := VStr(IntStr(n));
    if Get(r, "count", VNull) != c {
      r := AdjustFormatCounts(r);
      r := r["count" := c];
    }
  }

  /** The body of the inner loop of `spinoffs`: round `index`, after `index` rounds that succeeded. */
  method PlayRound(h: Host, v: Variant, fo: map<string, Value>, start: int, index: nat, formatOptions: map<string, Value>, sps: seq<Spinoff>)
    returns (r: Result<(map<string, Value>, seq<Spinoff>)>)
    requires formatOptions == Previous(fo, start, index)
    requires SpinoffsOver(h, v, RoundOptions(fo, start, index)) == Ok(sps)
    ensures r.Ok? ==> && r.value.0 == Previous(fo, start, index + 1)
                      && SpinoffsOver(h, v, RoundOptions(fo, start, index + 1)) == Ok(r.value.1)
    ensures r.Err? ==> SpinoffsOver(h, v, RoundOptions(fo, start, index + 1)) == Err(r.error)
  {
    var options := SetCount(formatOptions, index + start);
    var sp := SpinoffRound(h, v, options);
    RoundsStep(h, v, fo, start, index, sps, options);
    if sp.Err? {
      return Err(sp.error);
    }
    return Ok((options, sps + [sp.value]));
  }

  /** The inner loop of `spinoffs`: the first `n` rounds of a variant, starting from the format options `fo`. */
  method VariantRounds(h: Host, v: Variant, fo: map<string, Value>, start: int, n: nat) returns (r: Result<seq<Spinoff>>)
    ensures r == SpinoffsOver(h, v, RoundOptions(fo, start, n))
  {
    var formatOptions := fo;
    var sps: seq<Spinoff> := [];
    for index := 0 to n
      invariant formatOptions == Previous(fo, start, index)
      invariant SpinoffsOver(h, v, RoundOptions(fo, start, index)) == Ok(sps)
    {
      var next := PlayRound(h, v, fo, start, index, formatOptions, sps);
      if next.Err? {
        RoundsFail(h, v, fo, start, n, index + 1);
        return Err(next.error);
      }
      formatOptions, sps := next.value.0, next.value.1;
    }
    return Ok(sps);
  }

  /** The body of the outer loop of `spinoffs`: all the rounds of one variant. */
  method RunVariant(h: Host, v: Variant) returns (r: Result<seq<Spinoff>>)
    ensures r == VariantSpinoffs(h, v)
  {
    var formatOptions := MergeOptions([FormatOptions(h), v.formatOptions]);
    if formatOptions.Err? {
      return Err(formatOptions.error);
    }
    var count := 1;
    if Truthy(v.count) {
      if v.count.VInt? {
        count := v.count.i;
      } else if !v.count.VBool? {
        return Err(TypeMismatch("range() needs an integer count"));
      }
    }
    if RangeLength(count) == 0 {
      return Ok([]);
    }
    var start := Start(v.countStart);
    if start.Err? {
      return Err(start.error);
    }
    r := VariantRounds(h, v, formatOptions.value, start.value, RangeLength(count));
  }

  /** One more variant that succeeds extends the listing by its spinoffs. */
  lemma AllSpinoffsStep(h: Host, vs: seq<Variant>, k: nat, out: seq<Spinoff>, last: seq<Spinoff>)
    requires k < |vs| && AllSpinoffs(h, vs[..k]) == Ok(out) && VariantSpinoffs(h, vs[k]) == Ok(last)
    ensures AllSpinoffs(h, vs[..k + 1]) == Ok(out + last)
  {
    assert vs[..k + 1][..k] == vs[..k];
  }

  /** `self.spinoffs`, computed by the loops of the source. */
  method ComputeSpinoffs(h: Host) returns (r: Result<seq<Spinoff>>)
    ensures r == SpinoffsOf(h)
  {
    var variants := Formatting(h);
    if variants.Err? {
      return Err(variants.error);
    }
    var vs := variants.value;
    var out: seq<Spinoff> := [];
    for k := 0 to |vs|
      invariant AllSpinoffs(h, vs[..k]) == Ok(out)
    {
      var sps := RunVariant(h, vs[k]);
      if sps.Err? {
        VariantFails(h, vs, k, sps.error);
        return Err(sps.error);
      }
      AllSpinoffsStep(h, vs, k, out, sps.value);
      out := out + sps.value;
    }
    assert vs[..|vs|] == vs;
    return Ok(out);
  }

  /** Every spinoff of the variants `vs` is made by one of them, from the format options it carries. */
  lemma {:induction false} AllSpinoffsFrom(h: Host, vs: seq<Variant>)
    requires AllSpinoffs(h, vs).Ok?
    ensures forall sp :: sp in AllSpinoffs(h, vs).value ==>
              exists i :: 0 <= i < |vs| && SpinoffAt(h, vs[i], sp.formatOptions) == Ok(sp)
    decreases |vs|
  {
    if vs != [] {
      var n := |vs| - 1;
      AllSpinoffsFrom(h, vs[..n]);
      VariantSpinoffsMade(h, vs[n]);
      var init := AllSpinoffs(h, vs[..n]).value;
      var last := VariantSpinoffs(h, vs[n]).value;
      assert AllSpinoffs(h, vs).value == init + last;
      forall sp | sp in AllSpinoffs(h, vs).value
        ensures exists i :: 0 <= i < |vs| && SpinoffAt(h, vs[i], sp.formatOptions) == Ok(sp)
      {
        if sp in init {
          var i :| 0 <= i < n && SpinoffAt(h, vs[..n][i], sp.formatOptions) == Ok(sp);
          assert vs[..n][i] == vs[i];
        } else {
          var j :| 0 <= j < |last| && last[j] == sp;
          assert SpinoffAt(h, vs[n], sp.formatOptions) == Ok(sp);
        }
      }
    }
  }

  /** Text with no braces: a template without placeholders or escapes. */
  predicate NoBraces(s: string)
  {
    forall i :: 0 <= i < |s| ==> s[i] != '{' && s[i] != '}'
  }

  /**
   * A host with no `formatting`, `count`, `count_start`, `format_options` or
   * `proxying`, whose name and alias hold no braces.
   */
  predicate PlainHost(h: Host)
  {
    && "formatting" !in h.options && "count" !in h.options && "count_start" !in h.options
    && "format_options" !in h.options && "proxying" !in h.options
    && NoBraces(h.host)
    && (Alias(h) == VNull || (Alias(h).VStr? && NoBraces(Alias(h).s)))
  }

  /**
   * A plain host spins off exactly one host: named as given, shown with its alias when it has a non-empty one,
   * with `HostName` as its only option and proxying for nobody.
   */
  lemma SingleSpinoff(h: Host)
    requires PlainHost(h)
    ensures SpinoffsOf(h).Ok? && |SpinoffsOf(h).value| == 1
    ensures var sp := SpinoffsOf(h).value[0];
      && sp.raw == h.host
      && sp.display == (if Alias(h).VStr? && Alias(h).s != "" then h.host + " " + Alias(h).s else h.host)
      && sp.options == map["HostName" := VStr(h.host)]
      && sp.proxying == map[]
  {
    var v := Implicit(h);
    MergeTwo(Empty, VNull);
    var fo: map<string, Value> := map[];
    assert MergeAll([FormatOptions(h), v.formatOptions]) == Ok(fo);
    var o := RoundAt(fo, 1, 0);
    FormatPlain(h.host, o);
    if Alias(h).VStr? {
      FormatPlain(Alias(h).s, o);
    }
    assert SortedKeys({}) == [];
    assert MergedProxying(Empty, o) == Ok(map[]);
    var display := if Alias(h).VStr? && Alias(h).s != "" then h.host + " " + Alias(h).s else h.host;
    var sp := Spinoff(h.host, display, map["HostName" := VStr(h.host)], map[], o, map[]);
    assert SpinoffAt(h, v, o) == Ok(sp);
    assert RoundOptions(fo, 1, 1) == [o];
    assert [o][..0] == [];
    var none: seq<Spinoff> := [];
    assert SpinoffsOver(h, v, []) == Ok(none);
    assert SpinoffsOver(h, v, [o]) == Ok(none + [sp]);
    assert none + [sp] == [sp];
    assert VariantSpinoffs(h, v) == Ok([sp]);
    assert [v][..0] == [];
    assert AllSpinoffs(h, [v]) == Ok([] + [sp]);
  }
}
