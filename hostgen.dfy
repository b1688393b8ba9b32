/**
 * `Host.generate`: the text blocks of a host entry. Each spinoff gives one
 * block (its `Host` and `HostName` lines, then the other directives in
 * ascending key order), followed by the blocks of every host it proxies for,
 * generated in turn as hosts of their own that reach the network through it.
 */
module HostGen {
  import opened Values
  import opened LexOrder
  import opened Merge
  import opened Spinoffs
  import opened Render
  import opened Template

  /** The host-level `options`, as `merge_options` reads them. */
  function HostDirectives(h: Host): map<string, Value>
  {
    AsMap(Get(h.options, "options", VNull))
  }

  /**
   * `new_options` of one spinoff: the host-level `options` overlaid with the
   * spinoff's, plus a `ProxyCommand` through `proxied_by` when there is a
   * `proxied_by` and no `ProxyCommand` yet.
   */
  function Directives(h: Host, sp: Spinoff): Result<map<string, Value>>
  {
    var merged :- MergeAll([Get(h.options, "options", VNull), VMap(sp.options)]);
    if Truthy(ProxiedBy(h)) && "ProxyCommand" !in merged
    then Ok(merged["ProxyCommand" := VStr(ProxyCommand(Str(ProxiedBy(h))))])
    else Ok(merged)
  }

  /** The keys of a list of items, in order. */
  function ItemKeys(items: seq<(string, Value)>): (ks: seq<string>)
    ensures |ks| == |items| && forall i :: 0 <= i < |items| ==> ks[i] == items[i].0
  {
    seq(|items|, i requires 0 <= i < |items| => items[i].0)
  }

  /** `sorted((key, val) for key, val in d.items() if key != 'HostName')` */
  function OtherItems(d: map<string, Value>): seq<(string, Value)>
  {
    var keys := SortedKeys(d.Keys - {"HostName"});
    seq(|keys|, i requires 0 <= i < |keys| => (keys[i], Get(d, keys[i], VNull)))
  }

  /** The items of a spinoff's block: `Host`, `HostName`, then the rest. */
  function BlockItems(sp: Spinoff, d: map<string, Value>): seq<(string, Value)>
  {
    [("Host", VStr(sp.display)), ("HostName", Get(d, "HostName", VNull))] + OtherItems(d)
  }

  /** The text block of a spinoff with directives `d`. */
  function Block(sp: Spinoff, d: map<string, Value>): string
  {
    Join("\n", Lines(BlockItems(sp, d)))
  }

  /**
   * The host entry for the proxied host `key` of `sp`: the merged entry, whose
   * `options` lay the entry's own over the parent's directives and then point
   * `ProxyCommand` at the parent's raw host name.
   */
  function ProxiedHost(sp: Spinoff, d: map<string, Value>, key: string): Result<Host>
    requires key in sp.proxying
  {
    var entry := sp.proxying[key];
    var opts :- MergeAll([VMap(d), Get(entry, "options", VNull), VMap(map["ProxyCommand" := VStr(ProxyCommand(sp.raw))])]);
    Ok(Host(key, entry["options" := VMap(opts)]))
  }

  /** `h` was made from the template value `src`, which decides its `proxying` and `formatting`. */
  ghost predicate BuiltFrom(h: Host, src: Value)
  {
    && Proxying(h) == Get(AsMap(src), "proxying", Empty)
    && FormattingList(h) == Get(AsMap(src), "formatting", VList([]))
  }

  /** Entry `e` of a `formatting` list gives the proxying entries `p`. */
  ghost predicate EntryProxying(e: Value, p: map<string, Value>)
  {
    e.VMap? && "proxying" in e.m && e.m["proxying"] == VMap(p)
  }

  /** The proxying entries `p` are written inside `src`: at its top, or in one of its `formatting` entries. */
  ghost predicate ProxyingIn(src: Value, p: map<string, Value>)
  {
    || p == map[]
    || (src.VMap? && "proxying" in src.m && src.m["proxying"] == VMap(p))
    || (src.VMap? && "formatting" in src.m && src.m["formatting"].VList?
        && exists i :: 0 <= i < |src.m["formatting"].l| && EntryProxying(src.m["formatting"].l[i], p))
  }

  /** The entry `e` has the `proxying` and `formatting` that the template value `src` gives. */
  ghost predicate Carries(e: map<string, Value>, src: Value)
  {
    && Get(e, "proxying", Empty) == Get(AsMap(src), "proxying", Empty)
    && Get(e, "formatting", VList([])) == Get(AsMap(src), "formatting", VList([]))
  }

  /**
   * Every proxied entry of `sp` comes from a proxying entry written inside
   * `src`, and keeps that entry's `proxying` and `formatting`.
   */
  ghost predicate Traceable(src: Value, sp: Spinoff)
  {
    && ProxyingIn(src, sp.sources)
    && forall k :: k in sp.proxying ==> k in sp.sources && Carries(sp.proxying[k], sp.sources[k])
  }

  /**
   * `list(host.generate())` for a host made from `src`. Each spinoff is
   * expanded before the next one is made, so the blocks of every spinoff
   * made before `self.spinoffs` raises come first, and their failures win.
   */
  function Generate(h: Host, ghost src: Value): Result<seq<string>>
    requires BuiltFrom(h, src)
    decreases src, 4
  {
    var run := RunOf(h);
    RunTraceable(h, src);
    var blocks :- Concat(Expansions(h, src, run.made));
    if run.Raised? then Err(run.error) else Ok(blocks)
  }

  /** The blocks of each of the spinoffs `sps`, or its failure, in turn. */
  function Expansions(h: Host, ghost src: Value, sps: seq<Spinoff>): seq<Result<seq<string>>>
    requires forall i :: 0 <= i < |sps| ==> Traceable(src, sps[i])
    decreases src, 3
  {
    seq(|sps|, i requires 0 <= i < |sps| => ExpandOne(h, src, sps[i]))
  }

  /** One spinoff's block, then the blocks of the hosts it proxies for. */
  function ExpandOne(h: Host, ghost src: Value, sp: Spinoff): Result<seq<string>>
    requires Traceable(src, sp)
    decreases src, 2
  {
    var d :- Directives(h, sp);
    var proxied :- ProxiedBlocks(src, sp, d);
    Ok([Block(sp, d)] + proxied)
  }

  /** The blocks of the hosts `sp` proxies for, one host after another. */
  function ProxiedBlocks(ghost src: Value, sp: Spinoff, d: map<string, Value>): Result<seq<string>>
    requires Traceable(src, sp)
    decreases src, 1
  {
    var keys := SortedKeys(sp.proxying.Keys);
    SortedKeysSpec(sp.proxying.Keys);
    Concat(seq(|keys|, i requires 0 <= i < |keys| => ProxiedHostBlocks(src, sp, d, keys[i])))
  }

  /** The blocks of the proxied host `key` of `sp`. */
  function ProxiedHostBlocks(ghost src: Value, sp: Spinoff, d: map<string, Value>, key: string): Result<seq<string>>
    requires Traceable(src, sp) && key in sp.proxying
    decreases src, 0
  {
    var ph :- ProxiedHost(sp, d, key);
    assert BuiltFrom(ph, sp.sources[key]);
    SourceWithin(src, sp.sources, key);
    Generate(ph, sp.sources[key])
  }

  /** A proxying entry written inside `src` is a part of `src` (what makes the recursion end). */
  lemma SourceWithin(src: Value, p: map<string, Value>, key: string)
    requires ProxyingIn(src, p) && key in p
    ensures p[key] < src
  {
    if !(src.VMap? && "proxying" in src.m && src.m["proxying"] == VMap(p)) {
      var l := src.m["formatting"].l;
      var i :| 0 <= i < |l| && EntryProxying(l[i], p);
      assert l[i] < src.m["formatting"];
    }
  }

  /** Every spinoff a host made from `src` makes is traceable to `src`. */
  lemma RunTraceable(h: Host, src: Value)
    requires BuiltFrom(h, src)
    ensures var sps := RunOf(h).made; forall i :: 0 <= i < |sps| ==> Traceable(src, sps[i])
  {
    var sps := RunOf(h).made;
    RunOfSpec(h);
    forall i | 0 <= i < |sps| ensures Traceable(src, sps[i]) {
      var vs := Formatting(h).value;
      var sp := sps[i];
      assert sp in sps;
      var j :| 0 <= j < |vs| && SpinoffAt(h, vs[j], sp.formatOptions) == Ok(sp);
      SpinoffCarries(h, vs[j], sp);
      VariantProxyingIn(h, src, j, sp.sources);
    }
  }

  /** The merged entries of a spinoff keep the `proxying` and `formatting` of the entries they come from. */
  lemma SpinoffCarries(h: Host, v: Variant, sp: Spinoff)
    requires SpinoffAt(h, v, sp.formatOptions) == Ok(sp)
    ensures v.proxying == VMap(sp.sources)
    ensures forall k :: k in sp.proxying ==> k in sp.sources && Carries(sp.proxying[k], sp.sources[k])
  {
    SpinoffEntries(h, v, sp);
    forall k | k in sp.proxying ensures k in sp.sources && Carries(sp.proxying[k], sp.sources[k]) {
      MergedEntrySpec(sp.sources[k], sp.formatOptions);
    }
  }

  /** Each merged entry of a spinoff is merged from the proxying entry of the same key. */
  lemma SpinoffEntries(h: Host, v: Variant, sp: Spinoff)
    requires SpinoffAt(h, v, sp.formatOptions) == Ok(sp)
    ensures v.proxying == VMap(sp.sources)
    ensures forall k :: k in sp.proxying ==> k in sp.sources && MergedEntry(sp.sources[k], sp.formatOptions) == Ok(sp.proxying[k])
  {
    SpinoffAtSpec(h, v, sp.formatOptions);
    MergedProxyingSpec(v.proxying, sp.formatOptions);
  }

  /** The `proxying` of any variant of a host made from `src` is written inside `src`. */
  lemma VariantProxyingIn(h: Host, src: Value, j: nat, p: map<string, Value>)
    requires BuiltFrom(h, src) && Formatting(h).Ok? && j < |Formatting(h).value|
    requires Formatting(h).value[j].proxying == VMap(p)
    ensures ProxyingIn(src, p)
  {
    if FormattingList(h) != VList([]) {
      var l := FormattingList(h).l;
      assert Ok(Formatting(h).value[j]) == VariantOf(h, l[j]);
      if "proxying" in l[j].m {
        assert EntryProxying(l[j], p);
      }
    }
  }

  /**
   * The directives of a spinoff: its own options win over the host-level
   * `options`; `ProxyCommand` comes from those two when either has one, and
   * otherwise points through `proxied_by` when that is set. Nothing else is
   * added. Only host-level `options` that are truthy but not a mapping fail.
   */
  lemma DirectivesSpec(h: Host, sp: Spinoff)
    ensures Directives(h, sp).Ok? <==> Mergeable(Get(h.options, "options", VNull))
    ensures Directives(h, sp).Ok? ==>
      var d, ho := Directives(h, sp).value, HostDirectives(h);
      && (forall k :: k in sp.options ==> k in d && d[k] == sp.options[k])
      && (forall k :: k in ho && k !in sp.options ==> k in d && d[k] == ho[k])
      && (forall k :: k in d ==> k in sp.options || k in ho || k == "ProxyCommand")
      && ("ProxyCommand" in d <==> "ProxyCommand" in sp.options || "ProxyCommand" in ho || Truthy(ProxiedBy(h)))
      && ("ProxyCommand" !in sp.options && "ProxyCommand" !in ho && Truthy(ProxiedBy(h)) ==>
            d["ProxyCommand"] == VStr(ProxyCommand(Str(ProxiedBy(h)))))
  {
    var o := Get(h.options, "options", VNull);
    MergeTwo(o, VMap(sp.options));
  }

  /**
   * The other directives of a block: every directive but `HostName`, once
   * each, in ascending key order, each with its value.
   */
  lemma OtherItemsSpec(d: map<string, Value>)
    ensures var items := OtherItems(d);
      && Ascending(ItemKeys(items))
      && (forall k :: k in ItemKeys(items) <==> k in d && k != "HostName")
      && forall i :: 0 <= i < |items| ==> items[i].0 in d && items[i].1 == d[items[i].0]
  {
    var keys := SortedKeys(d.Keys - {"HostName"});
    SortedKeysSpec(d.Keys - {"HostName"});
    assert ItemKeys(OtherItems(d)) == keys;
  }

  /**
   * The lines of a block: `Host` with the displayed name, `HostName` with its
   * value, then one line per other directive; one line per directive in all.
   */
  lemma BlockLines(sp: Spinoff, d: map<string, Value>)
    requires "HostName" in d
    ensures var ls := Lines(BlockItems(sp, d));
      && |ls| == |d| + 1
      && ls[0] == "Host " + sp.display
      && ls[1] == "HostName " + ValueText(d["HostName"])
      && (forall i :: 2 <= i < |ls| ==> ls[i] == Line(OtherItems(d)[i - 2]))
      && forall i :: 2 <= i < |ls| ==>
           var (k, v) := OtherItems(d)[i - 2];
           && (v == VBool(true) ==> ls[i] == k + " yes")
           && (v == VBool(false) ==> ls[i] == k + " no")
           && (v.VStr? ==> ls[i] == k + " " + v.s)
  {
    var items := BlockItems(sp, d);
    assert |OtherItems(d)| == |d| - 1 by {
      SortedKeysSpec(d.Keys - {"HostName"});
      assert |d.Keys - {"HostName"}| == |d.Keys| - 1;
    }
    assert items[0] == ("Host", VStr(sp.display));
    assert forall i :: 2 <= i < |items| ==> items[i] == OtherItems(d)[i - 2];
    forall i | 0 <= i < |OtherItems(d)|
      ensures var (k, v) := OtherItems(d)[i];
        && (v == VBool(true) ==> Line((k, v)) == k + " yes")
        && (v == VBool(false) ==> Line((k, v)) == k + " no")
        && (v.VStr? ==> Line((k, v)) == k + " " + v.s)
    {
      LineText(OtherItems(d)[i].0, OtherItems(d)[i].1);
    }
  }

  /** Directive values render as their text, with `True` and `False` as `yes` and `no`. */
  lemma LineText(key: string, v: Value)
    ensures v == VBool(true) ==> Line((key, v)) == key + " yes"
    ensures v == VBool(false) ==> Line((key, v)) == key + " no"
    ensures v.VStr? ==> Line((key, v)) == key + " " + v.s
  {
  }

  /**
   * A proxied host is named by its key. Its entry is the merged proxying
   * entry, except for `options`: the parent's directives overlaid with the
   * entry's own options, with `ProxyCommand` always going through the parent's
   * raw host name (never its alias). Only entry options that are truthy but
   * not a mapping fail.
   */
  lemma ProxiedHostSpec(sp: Spinoff, d: map<string, Value>, key: string)
    requires key in sp.proxying
    ensures var entry := sp.proxying[key];
      ProxiedHost(sp, d, key).Ok? <==> Mergeable(Get(entry, "options", VNull))
    ensures ProxiedHost(sp, d, key).Ok? ==>
      var ph, entry := ProxiedHost(sp, d, key).value, sp.proxying[key];
      var own := AsMap(Get(entry, "options", VNull));
      && ph.host == key
      && (forall k :: k != "options" ==> (k in ph.options <==> k in entry))
      && (forall k :: k != "options" && k in entry ==> ph.options[k] == entry[k])
      && "options" in ph.options && ph.options["options"].VMap?
      && var o := ph.options["options"].m;
         && "ProxyCommand" in o && o["ProxyCommand"] == VStr(ProxyCommand(sp.raw))
         && (forall k :: k != "ProxyCommand" ==> (k in o <==> k in d || k in own))
         && (forall k :: k != "ProxyCommand" && k in own ==> o[k] == own[k])
         && (forall k :: k != "ProxyCommand" && k in d && k !in own ==> o[k] == d[k])
  {
    var entry := sp.proxying[key];
    var eo := Get(entry, "options", VNull);
    var pc := VMap(map["ProxyCommand" := VStr(ProxyCommand(sp.raw))]);
    var inputs := [VMap(d), eo, pc];
    assert inputs[..2] == [VMap(d), eo];
    MergeTwo(VMap(d), eo);
    AbsorbSpec(d + AsMap(eo), pc);
  }

  /**
   * A proxied host of a spinoff is formatted with the spinoff's format options
   * overlaid with the proxying entry's own.
   */
  lemma ProxiedFormatOptions(h: Host, sp: Spinoff, d: map<string, Value>, key: string)
    requires SpinoffsOf(h).Ok? && sp in SpinoffsOf(h).value
    requires key in sp.proxying && ProxiedHost(sp, d, key).Ok?
    ensures var ph := ProxiedHost(sp, d, key).value;
      && key in sp.sources && "format_options" in ph.options
      && ph.options["format_options"] == VMap(sp.formatOptions + OwnFormatOptions(sp.sources[key]))
  {
    var vs := Formatting(h).value;
    AllSpinoffsFrom(h, vs);
    var j :| 0 <= j < |vs| && SpinoffAt(h, vs[j], sp.formatOptions) == Ok(sp);
    SpinoffEntries(h, vs[j], sp);
    MergedEntrySpec(sp.sources[key], sp.formatOptions);
  }

  /** A `formatting` that is not a list makes generation fail with BadTemplateException. */
  lemma GenerateBadTemplate(h: Host, src: Value)
    requires BuiltFrom(h, src) && !FormattingList(h).VList?
    ensures Generate(h, src) == Err(BadTemplate(FormattingList(h)))
  {
  }

  /** A spinoff's blocks open with its own block; with nothing to proxy, that block is all. */
  lemma ExpandOneSpec(h: Host, src: Value, sp: Spinoff)
    requires Traceable(src, sp)
    ensures ExpandOne(h, src, sp).Ok? ==>
      && Directives(h, sp).Ok?
      && var bs := ExpandOne(h, src, sp).value;
         |bs| >= 1 && bs[0] == Block(sp, Directives(h, sp).value)
    ensures sp.proxying == map[] ==>
      && (ExpandOne(h, src, sp).Ok? <==> Directives(h, sp).Ok?)
      && (ExpandOne(h, src, sp).Ok? ==> ExpandOne(h, src, sp).value == [Block(sp, Directives(h, sp).value)])
  {
    SortedKeysSpec(sp.proxying.Keys);
    if sp.proxying == map[] {
      assert SortedKeys(sp.proxying.Keys) == [];
    }
  }

  /**
   * Generation goes spinoff by spinoff: it succeeds exactly when every
   * spinoff can be made and each one expands, and then gives each spinoff's
   * blocks in turn.
   */
  lemma GenerateBlocks(h: Host, src: Value)
    requires BuiltFrom(h, src)
    ensures var sps := RunOf(h).made; forall i :: 0 <= i < |sps| ==> Traceable(src, sps[i])
    ensures var rs := Expansions(h, src, RunOf(h).made);
      Generate(h, src).Ok? <==> SpinoffsOf(h).Ok? && forall i :: 0 <= i < |rs| ==> rs[i].Ok?
    ensures var rs := Expansions(h, src, RunOf(h).made);
      Generate(h, src).Ok? ==>
        && SpinoffsOf(h) == Ok(RunOf(h).made)
        && Generate(h, src).value == Flatten(seq(|rs|, i requires 0 <= i < |rs| => rs[i].value))
  {
    var run := RunOf(h);
    RunOfSpec(h);
    GenerateRun(h, src);
    StopsAfter(Expansions(h, src, run.made), run, Generate(h, src));
  }

  /**
   * Generation fails with the first failure in generation order: the
   * expansion of a spinoff made before `self.spinoffs` raised, or else the
   * error `self.spinoffs` raised once all those expanded.
   */
  lemma GenerateOrder(h: Host, src: Value)
    requires BuiltFrom(h, src)
    ensures var sps := RunOf(h).made; forall i :: 0 <= i < |sps| ==> Traceable(src, sps[i])
    ensures var rs := Expansions(h, src, RunOf(h).made);
      Generate(h, src).Err? ==>
        || (exists i :: 0 <= i < |rs| && Generate(h, src) == rs[i] && forall j :: 0 <= j < i ==> rs[j].Ok?)
        || ((forall i :: 0 <= i < |rs| ==> rs[i].Ok?) && SpinoffsOf(h).Err? && Generate(h, src) == Err(SpinoffsOf(h).error))
  {
    var run := RunOf(h);
    RunOfSpec(h);
    GenerateRun(h, src);
    StopsAfter(Expansions(h, src, run.made), run, Generate(h, src));
  }

  /**
   * Parts followed by the way a run stopped: the first failing part wins,
   * then the run's own error; otherwise the blocks of all parts in turn.
   */
  lemma StopsAfter(rs: seq<Result<seq<string>>>, run: Run, g: Result<seq<string>>)
    requires g == if Concat(rs).Err? then Concat(rs) else if run.Raised? then Err(run.error) else Concat(rs)
    ensures g.Ok? <==> run.Finished? && forall i :: 0 <= i < |rs| ==> rs[i].Ok?
    ensures g.Ok? ==> g.value == Flatten(seq(|rs|, i requires 0 <= i < |rs| => rs[i].value))
    ensures g.Err? ==>
      || (exists i :: 0 <= i < |rs| && g == rs[i] && forall j :: 0 <= j < i ==> rs[j].Ok?)
      || ((forall i :: 0 <= i < |rs| ==> rs[i].Ok?) && run.Raised? && g == Err(run.error))
  {
    ConcatErr(rs);
    if forall i :: 0 <= i < |rs| ==> rs[i].Ok? {
      ConcatValue(rs);
    }
  }

  /** Generation expands what `self.spinoffs` made, then reports how it stopped. */
  lemma GenerateRun(h: Host, src: Value)
    requires BuiltFrom(h, src)
    ensures var sps := RunOf(h).made; forall i :: 0 <= i < |sps| ==> Traceable(src, sps[i])
    ensures var run := RunOf(h); var e := Concat(Expansions(h, src, run.made));
      Generate(h, src) == if e.Err? then e else if run.Raised? then Err(run.error) else e
  {
    RunTraceable(h, src);
  }

  /** When the spinoffs can all be made, the blocks are those of the listed spinoffs, in turn. */
  lemma GenerateListed(h: Host, src: Value)
    requires BuiltFrom(h, src) && SpinoffsOf(h).Ok?
    ensures var sps := SpinoffsOf(h).value; forall i :: 0 <= i < |sps| ==> Traceable(src, sps[i])
    ensures Generate(h, src) == Concat(Expansions(h, src, SpinoffsOf(h).value))
  {
    RunOfSpec(h);
    RunTraceable(h, src);
  }

  /**
   * A host none of whose spinoffs proxies anything generates exactly one
   * block per spinoff, in spinoff order; it fails only on host-level
   * `options` that are truthy but not a mapping.
   */
  lemma GeneratePlain(h: Host, src: Value)
    requires BuiltFrom(h, src) && SpinoffsOf(h).Ok?
    requires var sps := SpinoffsOf(h).value; forall i :: 0 <= i < |sps| ==> sps[i].proxying == map[]
    ensures var sps := SpinoffsOf(h).value;
      Generate(h, src).Ok? <==> sps == [] || Mergeable(Get(h.options, "options", VNull))
    ensures Generate(h, src).Ok? ==>
      var sps, bs := SpinoffsOf(h).value, Generate(h, src).value;
      && |bs| == |sps|
      && forall i :: 0 <= i < |sps| ==> Directives(h, sps[i]).Ok? && bs[i] == Block(sps[i], Directives(h, sps[i]).value)
  {
    var sps := SpinoffsOf(h).value;
    GenerateListed(h, src);
    var rs := seq(|sps|, i requires 0 <= i < |sps| => ExpandOne(h, src, sps[i]));
    assert Generate(h, src) == Concat(rs);
    ConcatErr(rs);
    var o := Get(h.options, "options", VNull);
    forall i | 0 <= i < |sps|
      ensures rs[i].Ok? <==> Mergeable(o)
      ensures rs[i].Ok? ==> Directives(h, sps[i]).Ok? && rs[i] == Ok([Block(sps[i], Directives(h, sps[i]).value)])
    {
      ExpandOneSpec(h, src, sps[i]);
      MergeTwo(o, VMap(sps[i].options));
    }
    if Mergeable(o) {
      ConcatSingles(rs);
    }
  }

  /**
   * A host entry without formatting, counts, format options or proxying, and
   * whose name and alias hold no braces, gives blocks exactly when its
   * `options` is a mapping (or falsy).
   */
  lemma SingleHostOk(h: Host, src: Value)
    requires BuiltFrom(h, src)
    requires PlainHost(h)
    ensures Generate(h, src).Ok? <==> Mergeable(Get(h.options, "options", VNull))
  {
    SingleSpinoff(h);
    var sps := SpinoffsOf(h).value;
    GeneratePlain(h, src);
  }

  /**
   * Such a host gives a single block: `Host` with the name and its alias,
   * then `HostName` with the name.
   */
  lemma SingleHostBlock(h: Host, src: Value)
    requires BuiltFrom(h, src)
    requires PlainHost(h)
    ensures Generate(h, src).Ok? ==>
      exists ls :: && Generate(h, src).value == [Join("\n", ls)] && |ls| >= 2
                   && ls[0] == "Host " + (if Alias(h).VStr? && Alias(h).s != "" then h.host + " " + Alias(h).s else h.host)
                   && ls[1] == "HostName " + h.host
  {
    SingleSpinoff(h);
    var sps := SpinoffsOf(h).value;
    GeneratePlain(h, src);
    NamedBlock(h, sps[0], h.host);
  }

  /** A block starts with its `Host` line and then its `HostName` line. */
  lemma BlockStart(sp: Spinoff, d: map<string, Value>)
    requires "HostName" in d && d["HostName"].VStr?
    ensures exists ls :: && Block(sp, d) == Join("\n", ls) && |ls| >= 2
                         && ls[0] == "Host " + sp.display && ls[1] == "HostName " + d["HostName"].s
  {
    BlockLines(sp, d);
    LineText("HostName", d["HostName"]);
    var ls := Lines(BlockItems(sp, d));
    assert Block(sp, d) == Join("\n", ls);
  }

  /**
   * Every spinoff the generator makes prints a block whose `HostName` is the
   * host template formatted with that spinoff's format options, and whose
   * `Host` line shows that name followed, when the variant's alias formats
   * to something non-empty, by the formatted alias.
   */
  lemma SpinoffBlockHead(h: Host, sp: Spinoff)
    requires sp in RunOf(h).made
    ensures Formatting(h).Ok?
    ensures Format(h.host, sp.formatOptions) == Ok(sp.raw)
    ensures exists i :: (0 <= i < |Formatting(h).value| &&
      var v, fo := Formatting(h).value[i], sp.formatOptions;
      && (Truthy(v.alias) ==> v.alias.VStr? && Format(v.alias.s, fo).Ok?)
      && sp.display == if Truthy(v.alias) && Format(v.alias.s, fo) != Ok("") then sp.raw + " " + Format(v.alias.s, fo).value else sp.raw)
    ensures Directives(h, sp).Ok? <==> Mergeable(Get(h.options, "options", VNull))
    ensures Directives(h, sp).Ok? ==>
      exists ls :: && Block(sp, Directives(h, sp).value) == Join("\n", ls) && |ls| >= 2
                   && ls[0] == "Host " + sp.display && ls[1] == "HostName " + sp.raw
  {
    RunOfSpec(h);
    var i :| 0 <= i < |Formatting(h).value| && SpinoffAt(h, Formatting(h).value[i], sp.formatOptions) == Ok(sp);
    var v, fo := Formatting(h).value[i], sp.formatOptions;
    SpinoffAtSpec(h, v, fo);
    assert Truthy(v.alias) ==> v.alias.VStr? && Format(v.alias.s, fo).Ok?;
    NamedBlock(h, sp, sp.raw);
  }

  /** A spinoff whose own `HostName` is `name` prints `HostName <name>` second, whatever the host-level options say. */
  lemma NamedBlock(h: Host, sp: Spinoff, name: string)
    requires "HostName" in sp.options && sp.options["HostName"] == VStr(name)
    ensures Directives(h, sp).Ok? <==> Mergeable(Get(h.options, "options", VNull))
    ensures Directives(h, sp).Ok? ==>
      exists ls :: && Block(sp, Directives(h, sp).value) == Join("\n", ls) && |ls| >= 2
                   && ls[0] == "Host " + sp.display && ls[1] == "HostName " + name
  {
    DirectivesSpec(h, sp);
    if Directives(h, sp).Ok? {
      BlockStart(sp, Directives(h, sp).value);
    }
  }
}
