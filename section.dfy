/**
 * `Section`: the walk over the template's tree of sections. A section gives
 * its banner, its verbatim text, the blocks of its hosts and simple aliases,
 * then the blocks of its child sections; every host and child section
 * inherits the section's `options`. `make_ssh_config` joins the blocks of
 * the top section with blank lines.
 */
module SectionGen {
  import opened Values
  import opened LexOrder
  import opened Merge
  import opened Spinoffs
  import opened HostGen
  import opened Render

  /** A section of the template: its name (empty at the top) and its options. */
  datatype Section = Section(name: string, options: map<string, Value>)

  /** `c.upper()` for one character: ASCII letters change case, everything else stays. */
  function UpperChar(c: char): char
  {
    if 'a' <= c <= 'z' then (c as int - 32) as char else c
  }

  /** `s.upper()` */
  function Upper(s: string): (r: string)
    ensures |r| == |s| && forall i :: 0 <= i < |s| ==> r[i] == UpperChar(s[i])
  {
    seq(|s|, i requires 0 <= i < |s| => UpperChar(s[i]))
  }

  /** `'#' * n` */
  function Hashes(n: nat): (r: string)
    ensures |r| == n && forall i :: 0 <= i < n ==> r[i] == '#'
  {
    seq(n, _ => '#')
  }

  /** `banner` of a named section: the upper-cased name between two rows of 25 hashes. */
  function Banner(name: string): string
  {
    Join("\n", [Hashes(25), Hashes(3) + "  " + Upper(name), Hashes(25)])
  }

  /** The characters `str.strip()` removes. */
  predicate IsSpace(c: char)
  {
    c == ' ' || '\t' <= c <= '\r'
  }

  /** The number of whitespace characters `s` starts with. */
  function Lead(s: string): (n: nat)
    ensures n <= |s|
    ensures forall k :: 0 <= k < n ==> IsSpace(s[k])
    ensures n < |s| ==> !IsSpace(s[n])
    decreases |s|
  {
    if s != [] && IsSpace(s[0]) then 1 + Lead(s[1..]) else 0
  }

  /** The number of whitespace characters `s` ends with. */
  function Trail(s: string): (n: nat)
    ensures n <= |s|
    ensures forall k :: |s| - n <= k < |s| ==> IsSpace(s[k])
    ensures n < |s| ==> !IsSpace(s[|s| - n - 1])
    decreases |s|
  {
    if s != [] && IsSpace(s[|s| - 1]) then 1 + Trail(s[..|s| - 1]) else 0
  }

  /** `s.strip()` */
  function Strip(s: string): string
  {
    var t := s[Lead(s)..];
    t[..|t| - Trail(t)]
  }

  /**
   * Stripping removes the whitespace at both ends and nothing else: the
   * result is a slice of `s` that neither starts nor ends with whitespace,
   * with only whitespace around it; it is empty exactly when `s` is all
   * whitespace.
   */
  lemma StripSpec(s: string)
    ensures var r := Strip(s);
      && (r != [] ==> !IsSpace(r[0]) && !IsSpace(r[|r| - 1]))
      && (r == [] <==> forall k :: 0 <= k < |s| ==> IsSpace(s[k]))
      && Lead(s) + |r| <= |s| && r == s[Lead(s)..Lead(s) + |r|]
      && forall k :: 0 <= k < |s| && !(Lead(s) <= k < Lead(s) + |r|) ==> IsSpace(s[k])
  {
    var i := Lead(s);
    var t := s[i..];
    var r := Strip(s);
    var j := Trail(t);
    assert r == s[i..i + |r|];
    forall k | 0 <= k < |s| && !(i <= k < i + |r|) ensures IsSpace(s[k]) {
      if k >= i {
        assert s[k] == t[k - i];
      }
    }
    if i < |s| {
      assert t[0] == s[i];
    }
    if r != [] {
      assert r[0] == s[i];
      assert r[|r| - 1] == t[|t| - j - 1];
    }
  }

  /** Stripping twice strips no more than once. */
  lemma StripIdempotent(s: string)
    ensures Strip(Strip(s)) == Strip(s)
  {
    var r := Strip(s);
    StripSpec(s);
    if r != [] {
      assert Lead(r) == 0;
      assert r[0..] == r;
      assert Trail(r) == 0;
      assert r[..|r|] == r;
    }
  }

  /** `verbatim`: the stripped `verbatim` text, `""` when there is none. */
  function Verbatim(options: map<string, Value>): Result<string>
  {
    var v := Get(options, "verbatim", VStr(""));
    if v.VStr? then Ok(Strip(v.s)) else Err(TypeMismatch("verbatim is not a string"))
  }

  /**
   * `update_options(child)`: a copy of the child's options (none when it is
   * falsy) whose `options` are the section's `options` overlaid with the
   * child's own.
   */
  function Inherited(parent: map<string, Value>, child: Value): Result<map<string, Value>>
  {
    if Truthy(child) && !child.VMap? then Err(TypeMismatch("dictionary update sequence"))
    else
      var own := AsMap(child);
      var merged :- MergeAll([Get(parent, "options", VNull), Get(own, "options", VNull)]);
      Ok(own["options" := VMap(merged)])
  }

  /** `update_options`, step by step as the source builds `new_options`. */
  method UpdateOptions(parent: map<string, Value>, child: Value) returns (r: Result<map<string, Value>>)
    ensures r == Inherited(parent, child)
  {
    var newOptions: map<string, Value> := map[];
    var options: map<string, Value>;
    if Truthy(child) {
      if !child.VMap? {
        return Err(TypeMismatch("dictionary update sequence"));
      }
      newOptions := newOptions + child.m;
      options := child.m;
    } else {
      options := map[];
    }
    assert newOptions == options == AsMap(child);
    var merged := MergeOptions([Get(parent, "options", VNull), Get(options, "options", VNull)]);
    if merged.Err? {
      return Err(merged.error);
    }
    newOptions := newOptions["options" := VMap(merged.value)];
    return Ok(newOptions);
  }

  /**
   * What a child inherits: its `options` are the section's laid under its
   * own, and every other key is the child's own, untouched. A falsy child
   * counts as `{}`. Inheriting fails exactly when the child, the section's
   * `options` or the child's `options` is truthy but not a mapping.
   */
  lemma InheritedSpec(parent: map<string, Value>, child: Value)
    ensures Inherited(parent, child).Ok? <==>
      && Mergeable(child)
      && Mergeable(Get(parent, "options", VNull))
      && Mergeable(Get(AsMap(child), "options", VNull))
    ensures Inherited(parent, child).Ok? ==>
      var r, own := Inherited(parent, child).value, AsMap(child);
      && "options" in r
      && r["options"] == VMap(AsMap(Get(parent, "options", VNull)) + AsMap(Get(own, "options", VNull)))
      && (forall k :: k != "options" ==> (k in r <==> k in own))
      && (forall k :: k != "options" && k in own ==> r[k] == own[k])
  {
    MergeTwo(Get(parent, "options", VNull), Get(AsMap(child), "options", VNull));
  }

  /** A host or section made from `child` keeps the child's `proxying`, `formatting` and `sections`. */
  lemma InheritedKeeps(parent: map<string, Value>, child: Value)
    requires Inherited(parent, child).Ok?
    ensures var r := Inherited(parent, child).value;
      && Get(r, "proxying", Empty) == Get(AsMap(child), "proxying", Empty)
      && Get(r, "formatting", VList([])) == Get(AsMap(child), "formatting", VList([]))
      && Get(r, "sections", Empty) == Get(AsMap(child), "sections", Empty)
  {
    InheritedSpec(parent, child);
  }

  /** The blocks of the host entry `key` of a section with options `parent`. */
  function HostEntryBlocks(parent: map<string, Value>, key: string, val: Value): Result<seq<string>>
  {
    var o :- Inherited(parent, val);
    InheritedKeeps(parent, val);
    Generate(Host(key, o), val)
  }

  /** The mapping a simple alias stands for: `{'alias': alias}`. */
  function AliasEntry(alias: string): Value
  {
    VMap(map["alias" := VStr(alias)])
  }

  /** The blocks of the simple entry `alias: host` of a section with options `parent`. */
  function SimpleBlocks(parent: map<string, Value>, alias: string, host: Value): Result<seq<string>>
  {
    var o :- Inherited(parent, AliasEntry(alias));
    InheritedKeeps(parent, AliasEntry(alias));
    if !host.VStr? then Err(TypeMismatch("host name is not a string"))
    else Generate(Host(host.s, o), AliasEntry(alias))
  }

  /** The blocks of each `hosts` entry of a section, by key. */
  function HostEntryOf(options: map<string, Value>, hosts: map<string, Value>): string --> Result<seq<string>>
  {
    k requires k in hosts => HostEntryBlocks(options, k, hosts[k])
  }

  /** The blocks of each `simple` alias of a section, by alias. */
  function AliasEntryOf(options: map<string, Value>, simple: map<string, Value>): string --> Result<seq<string>>
  {
    a requires a in simple => SimpleBlocks(options, a, simple[a])
  }

  /** The blocks of the `hosts` entries of a section, in ascending key order. */
  function EntriesBlocks(options: map<string, Value>, hosts: map<string, Value>): Result<seq<string>>
  {
    SortedKeysSpec(hosts.Keys);
    ConcatOver(SortedKeys(hosts.Keys), HostEntryOf(options, hosts))
  }

  /** The blocks of the `simple` entries of a section, in ascending alias order. */
  function AliasesBlocks(options: map<string, Value>, simple: map<string, Value>): Result<seq<string>>
  {
    SortedKeysSpec(simple.Keys);
    ConcatOver(SortedKeys(simple.Keys), AliasEntryOf(options, simple))
  }

  /** The blocks of `hosts`, then those of `simple`; each must be a mapping when present. */
  function HostsBlocks(options: map<string, Value>): Result<seq<string>>
  {
    var hosts := Get(options, "hosts", Empty);
    if !hosts.VMap? then Err(TypeMismatch("hosts is not a mapping"))
    else
      var full :- EntriesBlocks(options, hosts.m);
      var simple := Get(options, "simple", Empty);
      if !simple.VMap? then Err(TypeMismatch("simple is not a mapping"))
      else
        var short :- AliasesBlocks(options, simple.m);
        Ok(full + short)
  }

  /** The child sections named `names`, in that order; the first whose options cannot be inherited decides the error. */
  function ChildList(parent: map<string, Value>, secs: map<string, Value>, names: seq<string>): Result<seq<Section>>
    requires forall k :: k in names ==> k in secs
    decreases |names|
  {
    if names == [] then Ok([])
    else
      var n := |names| - 1;
      var init :- ChildList(parent, secs, names[..n]);
      var o :- Inherited(parent, secs[names[n]]);
      Ok(init + [Section(names[n], o)])
  }

  /** `sections`: the child sections in ascending name order, all made before any is walked. */
  function Children(options: map<string, Value>): Result<seq<Section>>
  {
    var secs := Get(options, "sections", Empty);
    if !secs.VMap? then Err(TypeMismatch("sections is not a mapping"))
    else
      SortedKeysSpec(secs.m.Keys);
      ChildList(options, secs.m, SortedKeys(secs.m.Keys))
  }

  /** The children of a section succeed exactly when each inherits, and then each is named and inherits in order. */
  lemma {:induction false} ChildListSpec(parent: map<string, Value>, secs: map<string, Value>, names: seq<string>)
    requires forall k :: k in names ==> k in secs
    ensures ChildList(parent, secs, names).Ok? <==> forall i :: 0 <= i < |names| ==> Inherited(parent, secs[names[i]]).Ok?
    ensures var r := ChildList(parent, secs, names);
      r.Ok? ==> |r.value| == |names| && forall i :: 0 <= i < |names| ==>
        Inherited(parent, secs[names[i]]).Ok? && r.value[i] == Section(names[i], Inherited(parent, secs[names[i]]).value)
    decreases |names|
  {
    if names != [] {
      var n := |names| - 1;
      var init := names[..n];
      assert forall i :: 0 <= i < n ==> init[i] == names[i];
      ChildListSpec(parent, secs, init);
      var step := Inherited(parent, secs[names[n]]);
      if ChildList(parent, secs, init).Ok? && step.Ok? {
        var r := ChildList(parent, secs, names).value;
        assert r == ChildList(parent, secs, init).value + [Section(names[n], step.value)];
        forall i | 0 <= i < |names|
          ensures Inherited(parent, secs[names[i]]).Ok? && r[i] == Section(names[i], Inherited(parent, secs[names[i]]).value)
        {
          if i < n {
            assert init[i] == names[i];
          }
        }
      } else if ChildList(parent, secs, init).Ok? {
        assert !Inherited(parent, secs[names[n]]).Ok?;
      } else {
        var i :| 0 <= i < n && !Inherited(parent, secs[init[i]]).Ok?;
        assert !Inherited(parent, secs[names[i]]).Ok?;
      }
    }
  }

  /** The heading blocks of a section: its banner when it is named, its verbatim text when there is any. */
  function Head(name: string, verbatim: string): seq<string>
  {
    (if name != "" then [Banner(name)] else []) + (if verbatim != "" then [verbatim] else [])
  }

  /** The section `s` was made from the template value `src`, which decides its child sections. */
  ghost predicate SectionFrom(s: Section, src: Value)
  {
    Get(s.options, "sections", Empty) == Get(AsMap(src), "sections", Empty)
  }

  /** `list(section.generate())` for a section made from `src`. */
  function SectionBlocks(s: Section, ghost src: Value): Result<seq<string>>
    requires SectionFrom(s, src)
    decreases src, 1
  {
    var verbatim :- Verbatim(s.options);
    var hosts :- HostsBlocks(s.options);
    var children :- Children(s.options);
    var nested :- Concat(ChildParts(s, src, children));
    Ok(Head(s.name, verbatim) + hosts + nested)
  }

  /** The blocks of each child section of `s`, or its failure, in turn. */
  function ChildParts(s: Section, ghost src: Value, children: seq<Section>): seq<Result<seq<string>>>
    requires SectionFrom(s, src) && Children(s.options) == Ok(children)
    decreases src, 0
  {
    var secs := Get(s.options, "sections", Empty).m;
    var names := SortedKeys(secs.Keys);
    SortedKeysSpec(secs.Keys);
    ChildListSpec(s.options, secs, names);
    ChildrenFrom(s, src, names, children);
    seq(|children|, i requires 0 <= i < |children| => SectionBlocks(children[i], secs[names[i]]))
  }

  /** Each child section is made from its entry in `sections`, which lies inside the parent's template value. */
  lemma ChildrenFrom(s: Section, src: Value, names: seq<string>, children: seq<Section>)
    requires SectionFrom(s, src) && Get(s.options, "sections", Empty).VMap?
    requires var secs := Get(s.options, "sections", Empty).m;
      && (forall k :: k in names ==> k in secs)
      && |children| == |names|
      && forall i :: 0 <= i < |names| ==>
           Inherited(s.options, secs[names[i]]).Ok? && children[i] == Section(names[i], Inherited(s.options, secs[names[i]]).value)
    ensures var secs := Get(s.options, "sections", Empty).m;
      forall i :: 0 <= i < |names| ==> SectionFrom(children[i], secs[names[i]]) && secs[names[i]] < src
  {
    var secs := Get(s.options, "sections", Empty).m;
    forall i | 0 <= i < |names| ensures SectionFrom(children[i], secs[names[i]]) && secs[names[i]] < src {
      InheritedKeeps(s.options, secs[names[i]]);
      assert secs[names[i]] < Get(s.options, "sections", Empty);
    }
  }

  /** `make_ssh_config`: the blocks of the top section joined with blank lines. */
  function MakeSshConfig(template: Value): Result<string>
  {
    if !template.VMap? then Err(TypeMismatch("template is not a mapping"))
    else
      var blocks :- SectionBlocks(Section("", template.m), template);
      Ok(Join("\n\n", blocks))
  }

  /** A banner is three lines: 25 hashes, `###  ` and the upper-cased name, 25 hashes. */
  lemma BannerLines(name: string)
    requires forall i :: 0 <= i < |name| ==> name[i] != '\n'
    ensures Split(Banner(name), '\n') == [Hashes(25), "###  " + Upper(name), Hashes(25)]
  {
    var mid := Hashes(3) + "  " + Upper(name);
    assert Hashes(3) + "  " == "###  ";
    var lines := [Hashes(25), mid, Hashes(25)];
    forall j, i | 0 <= j < |lines| && 0 <= i < |lines[j]| ensures lines[j][i] != '\n' {
      if j == 1 && i >= 5 {
        assert mid[i] == UpperChar(name[i - 5]);
      }
    }
    SplitJoin(lines);
  }

  /**
   * The host entries of a section give blocks exactly when each entry does;
   * no entries give no blocks.
   */
  lemma EntriesBlocksSpec(options: map<string, Value>, hosts: map<string, Value>)
    ensures forall k :: k in SortedKeys(hosts.Keys) ==> k in hosts
    ensures EntriesBlocks(options, hosts).Ok? <==> forall k :: k in hosts ==> HostEntryBlocks(options, k, hosts[k]).Ok?
    ensures hosts == map[] ==> EntriesBlocks(options, hosts) == Ok([])
  {
    var ks := SortedKeys(hosts.Keys);
    SortedKeysSpec(hosts.Keys);
    ConcatOverSpec(ks, HostEntryOf(options, hosts));
  }

  /** When the host entries of a section give blocks, they are the blocks of each entry, entries in ascending key order. */
  lemma EntriesBlocksValue(options: map<string, Value>, hosts: map<string, Value>)
    ensures forall k :: k in SortedKeys(hosts.Keys) ==> k in hosts
    ensures EntriesBlocks(options, hosts).Ok? ==>
      var ks, f := SortedKeys(hosts.Keys), HostEntryOf(options, hosts);
      && (forall i :: 0 <= i < |ks| ==> f(ks[i]).Ok?)
      && EntriesBlocks(options, hosts).value == Flatten(seq(|ks|, i requires 0 <= i < |ks| => f(ks[i]).value))
  {
    var ks := SortedKeys(hosts.Keys);
    SortedKeysSpec(hosts.Keys);
    if EntriesBlocks(options, hosts).Ok? {
      ConcatOverSpec(ks, HostEntryOf(options, hosts));
      ConcatOverValue(ks, HostEntryOf(options, hosts));
    }
  }

  /**
   * The simple aliases of a section give blocks exactly when each alias
   * does; no aliases give no blocks.
   */
  lemma AliasesBlocksSpec(options: map<string, Value>, simple: map<string, Value>)
    ensures forall a :: a in SortedKeys(simple.Keys) ==> a in simple
    ensures AliasesBlocks(options, simple).Ok? <==> forall a :: a in simple ==> SimpleBlocks(options, a, simple[a]).Ok?
    ensures simple == map[] ==> AliasesBlocks(options, simple) == Ok([])
  {
    var names := SortedKeys(simple.Keys);
    SortedKeysSpec(simple.Keys);
    ConcatOverSpec(names, AliasEntryOf(options, simple));
  }

  /** When the simple aliases of a section give blocks, they are the block of each alias, aliases in ascending order. */
  lemma AliasesBlocksValue(options: map<string, Value>, simple: map<string, Value>)
    ensures forall k :: k in SortedKeys(simple.Keys) ==> k in simple
    ensures AliasesBlocks(options, simple).Ok? ==>
      var names, f := SortedKeys(simple.Keys), AliasEntryOf(options, simple);
      && (forall i :: 0 <= i < |names| ==> f(names[i]).Ok?)
      && AliasesBlocks(options, simple).value == Flatten(seq(|names|, i requires 0 <= i < |names| => f(names[i]).value))
  {
    var names := SortedKeys(simple.Keys);
    SortedKeysSpec(simple.Keys);
    if AliasesBlocks(options, simple).Ok? {
      ConcatOverSpec(names, AliasEntryOf(options, simple));
      ConcatOverValue(names, AliasEntryOf(options, simple));
    }
  }

  /**
   * The hosts of a section fail when `hosts` or `simple` is present but not
   * a mapping, succeed only when every entry and alias does, and are empty
   * when the section has neither.
   */
  lemma HostsBlocksSpec(options: map<string, Value>)
    ensures !Get(options, "hosts", Empty).VMap? ==> HostsBlocks(options).Err?
    ensures HostsBlocks(options).Ok? ==>
      && Get(options, "hosts", Empty).VMap? && Get(options, "simple", Empty).VMap?
      && (forall k :: k in Get(options, "hosts", Empty).m ==> HostEntryBlocks(options, k, Get(options, "hosts", Empty).m[k]).Ok?)
      && (forall a :: a in Get(options, "simple", Empty).m ==> SimpleBlocks(options, a, Get(options, "simple", Empty).m[a]).Ok?)
    ensures "hosts" !in options && "simple" !in options ==> HostsBlocks(options) == Ok([])
  {
    var hosts, simple := Get(options, "hosts", Empty), Get(options, "simple", Empty);
    if hosts.VMap? {
      EntriesBlocksSpec(options, hosts.m);
    }
    if simple.VMap? {
      AliasesBlocksSpec(options, simple.m);
    }
    if "hosts" !in options && "simple" !in options {
      assert hosts.m == map[] && simple.m == map[];
      var none: seq<string> := [];
      assert HostsBlocks(options) == Ok(none + none);
      assert none + none == none;
    }
  }

  /**
   * The children of a section, when they can all be made, are one per entry
   * of `sections`, each named by its key and inheriting from the section.
   */
  lemma ChildrenInherit(options: map<string, Value>)
    ensures Children(options).Ok? ==>
      var secs, cs := Get(options, "sections", Empty), Children(options).value;
      && secs.VMap? && |cs| == |secs.m|
      && forall i :: 0 <= i < |cs| ==> cs[i].name in secs.m && Inherited(options, secs.m[cs[i].name]) == Ok(cs[i].options)
  {
    var secs := Get(options, "sections", Empty);
    if secs.VMap? {
      var names := SortedKeys(secs.m.Keys);
      SortedKeysSpec(secs.m.Keys);
      ChildListSpec(options, secs.m, names);
      if Children(options).Ok? {
        var cs := Children(options).value;
        assert |cs| == |names| == |secs.m.Keys| == |secs.m|;
      }
    }
  }

  /** The children of a section come in ascending name order, and every entry of `sections` gives one. */
  lemma ChildrenOrdered(options: map<string, Value>)
    ensures Children(options).Ok? ==>
      var secs, cs := Get(options, "sections", Empty), Children(options).value;
      && (forall i, j :: 0 <= i < j < |cs| ==> Less(cs[i].name, cs[j].name))
      && (forall k :: k in secs.m <==> exists i :: 0 <= i < |cs| && cs[i].name == k)
  {
    var secs := Get(options, "sections", Empty);
    if secs.VMap? {
      var names := SortedKeys(secs.m.Keys);
      SortedKeysSpec(secs.m.Keys);
      ChildListSpec(options, secs.m, names);
      if Children(options).Ok? {
        var cs := Children(options).value;
        assert forall i :: 0 <= i < |cs| ==> cs[i].name == names[i];
        forall i, j | 0 <= i < j < |cs| ensures Less(cs[i].name, cs[j].name) {
          assert Less(names[i], names[j]);
        }
        forall k | k in secs.m ensures exists i :: 0 <= i < |cs| && cs[i].name == k {
          var i :| 0 <= i < |names| && names[i] == k;
          assert cs[i].name == k;
        }
      }
    }
  }

  /**
   * The output of a section is ordered: a bad `verbatim` fails before
   * anything else, bad hosts fail before the child sections are looked at,
   * and a section that succeeds starts with its banner and verbatim text,
   * followed by the blocks of its hosts.
   */
  lemma SectionOrder(s: Section, src: Value)
    requires SectionFrom(s, src)
    ensures Verbatim(s.options).Err? ==> SectionBlocks(s, src) == Err(Verbatim(s.options).error)
    ensures Verbatim(s.options).Ok? && HostsBlocks(s.options).Err? ==> SectionBlocks(s, src) == HostsBlocks(s.options)
    ensures SectionBlocks(s, src).Ok? ==>
      && Verbatim(s.options).Ok? && HostsBlocks(s.options).Ok? && Children(s.options).Ok?
      && var head := Head(s.name, Verbatim(s.options).value) + HostsBlocks(s.options).value;
         |head| <= |SectionBlocks(s, src).value| && SectionBlocks(s, src).value[..|head|] == head
  {
  }

  /**
   * The whole output of a section that succeeds: its banner and verbatim
   * text, the blocks of its `hosts` entries, those of its `simple` aliases,
   * then the blocks of each child section in the order of `Children`.
   */
  lemma SectionBlocksValue(s: Section, src: Value)
    requires SectionFrom(s, src) && SectionBlocks(s, src).Ok?
    ensures Verbatim(s.options).Ok? && Children(s.options).Ok?
    ensures Get(s.options, "hosts", Empty).VMap? && Get(s.options, "simple", Empty).VMap?
    ensures var hosts, simple := Get(s.options, "hosts", Empty).m, Get(s.options, "simple", Empty).m;
      EntriesBlocks(s.options, hosts).Ok? && AliasesBlocks(s.options, simple).Ok?
    ensures var ps := ChildParts(s, src, Children(s.options).value);
      forall i :: 0 <= i < |ps| ==> ps[i].Ok?
    ensures var hosts, simple := Get(s.options, "hosts", Empty).m, Get(s.options, "simple", Empty).m;
      var ps := ChildParts(s, src, Children(s.options).value);
      SectionBlocks(s, src).value ==
        Head(s.name, Verbatim(s.options).value)
        + EntriesBlocks(s.options, hosts).value + AliasesBlocks(s.options, simple).value
        + Flatten(seq(|ps|, i requires 0 <= i < |ps| => ps[i].value))
  {
    SectionUnfold(s, src);
    HostsUnfold(s.options);
    Assemble(SectionBlocks(s, src).value, Head(s.name, Verbatim(s.options).value), HostsBlocks(s.options).value,
             EntriesBlocks(s.options, Get(s.options, "hosts", Empty).m).value,
             AliasesBlocks(s.options, Get(s.options, "simple", Empty).m).value,
             ChildParts(s, src, Children(s.options).value));
  }

  /** Blocks made of a head, hosts split in two runs, and the concatenation of parts that all succeed. */
  lemma Assemble(blocks: seq<string>, head: seq<string>, hosts: seq<string>, full: seq<string>, short: seq<string>,
                 ps: seq<Result<seq<string>>>)
    requires Concat(ps).Ok? && blocks == head + hosts + Concat(ps).value && hosts == full + short
    ensures forall i :: 0 <= i < |ps| ==> ps[i].Ok?
    ensures blocks == head + full + short + Flatten(seq(|ps|, i requires 0 <= i < |ps| => ps[i].value))
  {
    ConcatErr(ps);
    ConcatValue(ps);
  }

  /** A section that succeeds: its head, its hosts' blocks, then its child parts concatenated. */
  lemma SectionUnfold(s: Section, src: Value)
    requires SectionFrom(s, src) && SectionBlocks(s, src).Ok?
    ensures Verbatim(s.options).Ok? && HostsBlocks(s.options).Ok? && Children(s.options).Ok?
    ensures var nested := Concat(ChildParts(s, src, Children(s.options).value));
      && nested.Ok?
      && SectionBlocks(s, src).value == Head(s.name, Verbatim(s.options).value) + HostsBlocks(s.options).value + nested.value
  {
  }

  /** The hosts of a section that succeed: the `hosts` entries' blocks, then the `simple` aliases'. */
  lemma HostsUnfold(options: map<string, Value>)
    requires HostsBlocks(options).Ok?
    ensures Get(options, "hosts", Empty).VMap? && Get(options, "simple", Empty).VMap?
    ensures var hosts, simple := Get(options, "hosts", Empty).m, Get(options, "simple", Empty).m;
      && EntriesBlocks(options, hosts).Ok? && AliasesBlocks(options, simple).Ok?
      && HostsBlocks(options).value == EntriesBlocks(options, hosts).value + AliasesBlocks(options, simple).value
  {
  }

  /**
   * The child parts of a section are, one per child and in the order of
   * `Children`, the blocks of that child, made from its own entry of
   * `sections`.
   */
  lemma ChildPartsSpec(s: Section, src: Value, cs: seq<Section>)
    requires SectionFrom(s, src) && Children(s.options) == Ok(cs)
    ensures Get(s.options, "sections", Empty).VMap?
    ensures var secs := Get(s.options, "sections", Empty).m;
      forall i :: 0 <= i < |cs| ==> cs[i].name in secs && SectionFrom(cs[i], secs[cs[i].name])
    ensures var secs, ps := Get(s.options, "sections", Empty).m, ChildParts(s, src, cs);
      |ps| == |cs| && forall i :: 0 <= i < |cs| ==> ps[i] == SectionBlocks(cs[i], secs[cs[i].name])
  {
    var secs := Get(s.options, "sections", Empty).m;
    var names := SortedKeys(secs.Keys);
    SortedKeysSpec(secs.Keys);
    ChildListSpec(s.options, secs, names);
    ChildrenFrom(s, src, names, cs);
    forall i | 0 <= i < |cs| ensures cs[i].name == names[i] {
    }
  }

  /** A section with no `verbatim`, hosts, simple aliases or child sections gives its banner alone, or nothing at the top. */
  lemma LeafSection(s: Section, src: Value)
    requires SectionFrom(s, src)
    requires "verbatim" !in s.options && "hosts" !in s.options && "simple" !in s.options && "sections" !in s.options
    ensures SectionBlocks(s, src) == Ok(if s.name == "" then [] else [Banner(s.name)])
  {
    assert Strip("") == "";
    HostsBlocksSpec(s.options);
    assert Children(s.options) == Ok([]);
    var nested: seq<Result<seq<string>>> := [];
    assert Concat(nested) == Ok([]);
    var none: seq<string> := [];
    assert SectionBlocks(s, src) == Ok(Head(s.name, "") + none + none);
    assert Head(s.name, "") + none + none == Head(s.name, "");
    var banner: seq<string> := if s.name != "" then [Banner(s.name)] else [];
    assert Head(s.name, "") == banner + none;
    assert banner + none == banner;
  }

  /**
   * The configuration is the top section's blocks joined by blank lines. The
   * top section has no name, so no banner: it opens with the verbatim text,
   * when there is any, then the host blocks, then the child sections.
   */
  lemma MakeSshConfigTop(m: map<string, Value>)
    ensures SectionFrom(Section("", m), VMap(m))
    ensures MakeSshConfig(VMap(m)).Ok? <==> SectionBlocks(Section("", m), VMap(m)).Ok?
    ensures MakeSshConfig(VMap(m)).Ok? ==>
      && Verbatim(m).Ok? && HostsBlocks(m).Ok? && Children(m).Ok?
      && var nested := Concat(ChildParts(Section("", m), VMap(m), Children(m).value));
         && nested.Ok?
         && MakeSshConfig(VMap(m)).value
            == Join("\n\n", (if Verbatim(m).value != "" then [Verbatim(m).value] else []) + HostsBlocks(m).value + nested.value)
  {
    var top := Section("", m);
    if SectionBlocks(top, VMap(m)).Ok? {
      SectionUnfold(top, VMap(m));
      var v := Verbatim(m).value;
      var none: seq<string> := [];
      assert Head("", v) == (if v != "" then [v] else []) by {
        assert Head("", v) == none + (if v != "" then [v] else []);
      }
    }
  }

  /** An empty template gives an empty configuration. */
  lemma MakeSshConfigEmpty()
    ensures MakeSshConfig(VMap(map[])) == Ok("")
  {
    LeafSection(Section("", map[]), VMap(map[]));
  }

  /** A template holding only `verbatim` text gives that text, stripped. */
  lemma MakeSshConfigVerbatim(text: string)
    ensures MakeSshConfig(VMap(map["verbatim" := VStr(text)])) == Ok(Strip(text))
  {
    var m := map["verbatim" := VStr(text)];
    HostsBlocksSpec(m);
    assert Children(m) == Ok([]);
    var nested: seq<Result<seq<string>>> := [];
    assert Concat(nested) == Ok([]);
    var none: seq<string> := [];
    assert SectionBlocks(Section("", m), VMap(m)) == Ok(Head("", Strip(text)) + none + none);
    assert Head("", Strip(text)) + none + none == Head("", Strip(text));
    assert SectionBlocks(Section("", m), VMap(m)) == Ok(Head("", Strip(text)));
  }

  /**
   * A simple alias `alias: host` without braces gives one block whose first
   * line names the host with its alias and whose second line is the host's
   * `HostName`; it fails only when the section's `options` is not a mapping.
   */
  lemma SimpleEntry(parent: map<string, Value>, alias: string, host: string)
    requires NoBraces(host) && NoBraces(alias) && alias != ""
    ensures SimpleBlocks(parent, alias, VStr(host)).Ok? <==> Mergeable(Get(parent, "options", VNull))
    ensures var r := SimpleBlocks(parent, alias, VStr(host));
      r.Ok? ==> exists ls :: && r.value == [Join("\n", ls)] && |ls| >= 2
                              && ls[0] == "Host " + (host + " " + alias) && ls[1] == "HostName " + host
  {
    var entry := AliasEntry(alias);
    InheritedSpec(parent, entry);
    if Inherited(parent, entry).Ok? {
      var h := Host(host, Inherited(parent, entry).value);
      AliasHost(parent, alias, host);
      assert SimpleBlocks(parent, alias, VStr(host)) == Generate(h, entry);
      SingleHostOk(h, entry);
      SingleHostBlock(h, entry);
    }
  }

  /** The host a simple entry makes holds only its alias and the section's merged `options`. */
  lemma AliasHost(parent: map<string, Value>, alias: string, host: string)
    requires Inherited(parent, AliasEntry(alias)).Ok?
    ensures var entry := AliasEntry(alias);
      var h := Host(host, Inherited(parent, entry).value);
      && BuiltFrom(h, entry)
      && Alias(h) == VStr(alias)
      && Mergeable(Get(h.options, "options", VNull))
      && (NoBraces(host) && NoBraces(alias) ==> PlainHost(h))
  {
    var entry := AliasEntry(alias);
    InheritedSpec(parent, entry);
    InheritedKeeps(parent, entry);
    var o := Inherited(parent, entry).value;
    assert AsMap(Get(AsMap(entry), "options", VNull)) == map[];
    assert forall k :: k in o <==> k == "alias" || k == "options";
    assert o["options"].VMap?;
  }
}
