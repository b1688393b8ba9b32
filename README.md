# ssh_config_gen generation engine in Dafny

ssh_config_gen turns a nested YAML template into an SSH client configuration.
This project models its generation engine, `ssh_config_gen/gen.py`:

- `merge_options`;
- the `Section` tree walk (banner, verbatim text, hosts, simple aliases, child sections);
- the inheritance of `options` through `update_options`;
- the `Host` expansion into spinoffs, across `formatting` variants and a `count` loop with counter shifting;
- `str.format` placeholder substitution for host names and aliases;
- the block layout of `lines_for` and the `ProxyCommand` from `proxy_command`;
- the recursive generation of proxied hosts;
- the final join in `make_ssh_config` from `ssh_config_gen/main.py`.

The modules are:

- **Values**
  - Template values as the YAML loader produces them: strings, booleans, integers, mappings with string keys, lists and `None`.
  - Python truthiness, `dict.get`, and `str()` of a value.
  - The four ways generation can fail:
    - `BadTemplate`: the source's `BadTemplateException`;
    - `MissingPlaceholder`: the `KeyError` raised by `str.format`;
    - `BadFormatString`: a template `str.format` rejects, or one whose field syntax goes beyond `{name}`;
    - `TypeMismatch`: a value of the wrong shape, which Python reports as `AttributeError` or `TypeError`.
- **Merge**: `merge_options`, both as a method with the source's `update` loop and as the function the method is proved against.
- **LexOrder**: the lexicographic order Python's `sorted` uses on strings, and the ascending key list of a mapping.
- **Counters**: `adjust_format_counts`, as an in-place method and as the function `Shifted`. The key filter is modelled exactly as written.
- **Template**: `template.format(**format_options)` for literal text, the `{{`/`}}` escapes and `{name}` fields.
- **Spinoffs**:
  - host accessors;
  - `formatting` variants;
  - the `count` rounds;
  - alias display;
  - merged proxying entries;
  - the `spinoffs` generator as loops, each proved against a specification function;
  - the same generator as a `Run`: the spinoffs it makes, and the error it raises after them, if any.
- **Render**: `lines_for`, `proxy_command`, `'\n'.join`, and the chaining of generator outputs. The first failure in generation order wins.
- **HostGen**: `Host.generate`. For each spinoff this is its block, followed by the blocks of the hosts it proxies. Each spinoff is expanded before the next one is made, so an expansion failure beats a failure of a later spinoff.
- **SectionGen**: `Section.generate`, `update_options` and `make_ssh_config`.

Generators become functions that return the whole sequence of blocks or the first error raised while producing them. Recursion through hosts and sections terminates on a ghost parameter: the template value the host or section was built from.

The source's functions and where they are defined and specified:

| source | definition | main lemmas |
|---|---|---|
| `merge_options` | `Merge.MergeAll` | `MergeOptions`, `MergeKeys`, `MergeLastWins`, `MergeOkIff` |
| `adjust_format_counts` | `Counters.Shifted` | `AdjustFormatCounts`, `ShiftCanonical` |
| `str.format` | `Template.Format` | `FormatUnparse`, `FormatField` |
| `Host.spinoffs` | `Spinoffs.SpinoffsOf`, `Spinoffs.RunOf` | `ComputeSpinoffs`, `RunOfSpec`, `VariantSpinoffsSpec` |
| `Host.lines_for` | `Render.LinesFor`, against `Join("\n", Render.Lines(items))` | `LinesFor`, `SplitJoin`, `HostGen.BlockLines` |
| `Host.proxy_command` | `Render.ProxyCommand` | `ProxyCommandInjective`, `HostGen.DirectivesSpec`, `HostGen.ProxiedHostSpec` |
| `Host.generate` | `HostGen.Generate` | `GenerateBlocks`, `GenerateOrder`, `GeneratePlain`, `SpinoffBlockHead` |
| `Section.banner` | `SectionGen.Banner` | `BannerLines` |
| `Section.update_options` | `SectionGen.Inherited` | `UpdateOptions`, `InheritedSpec` |
| `Section.generate` | `SectionGen.SectionBlocks` | `SectionBlocksValue`, `SectionOrder` |
| `make_ssh_config` | `SectionGen.MakeSshConfig` | `MakeSshConfigTop` |

## Model

| member | source | states |
|---|---|---|
| Merge.MergeOptions | ssh_config_gen/gen.py:6-12 | The `update` loop computes exactly the merge `MergeAll` specifies, including the error when a truthy input is not a mapping |
| Merge.MergeOkIff | ssh_config_gen/gen.py:9-11 | The merge succeeds iff every input is falsy (skipped) or a mapping |
| Merge.MergeKeys | ssh_config_gen/gen.py:6-12 | The merged mapping holds a key iff some input mapping holds it; no inputs give `{}` |
| Merge.MergeLastWins | ssh_config_gen/gen.py:9-11 | Each key takes the value of the last input that holds it |
| Merge.MergeKeepsError | ssh_config_gen/gen.py:9-11 | Once a prefix of the inputs fails, the whole merge fails with that error |
| Merge.AbsorbSpec | ssh_config_gen/gen.py:10-11 | One `if opts: update(opts)` step adds the mapping, skips a falsy value, and fails on a truthy non-mapping |
| Merge.MergeTwo | ssh_config_gen/gen.py:6-12 | Merging two inputs lays the second over the first, and fails iff one of them is not mergeable |
| LexOrder.SortedKeysSpec | ssh_config_gen/gen.py:55 | The sorted key list has exactly the mapping's keys, each once, in strictly ascending order |
| LexOrder.AscendingUnique | ssh_config_gen/gen.py:55 | Any strictly ascending list of exactly those keys is the sorted key list |
| Values.ParseNatStr | ssh_config_gen/gen.py:195 | `int()` of the digits printed by `str()` gives the number back |
| Values.IntStrInjective | ssh_config_gen/gen.py:151 | Distinct counts print as distinct strings, so the `!=` test at each round is exact |
| Counters.AdjustFormatCounts | ssh_config_gen/gen.py:188-197 | The delete-then-assign loop leaves exactly the mapping `Shifted` specifies |
| Counters.ShiftedDropsCount | ssh_config_gen/gen.py:191-192 | The bare `count` never survives a shift |
| Counters.ShiftedTakesOnly | ssh_config_gen/gen.py:190-195 | A name that exactly one counter key is renamed to receives that key's value |
| Counters.ShiftedKeeps | ssh_config_gen/gen.py:190-195 | A key nothing is renamed to keeps its value and presence, unless it is `count` |
| Counters.ShiftKeepsOthers | ssh_config_gen/gen.py:190-195 | Keys that fail the counter filter are left untouched |
| Counters.TargetIsCounter | ssh_config_gen/gen.py:190-195 | A renamed key's new name is itself a counter key, never `count` |
| Counters.CounterNameLevel | ssh_config_gen/gen.py:195 | `count` moves to `count1` and `count<n>` to `count<n+1>` |
| Counters.CounterNameInjective | ssh_config_gen/gen.py:195 | Different levels have different key names |
| Counters.ShiftMovesLevel | ssh_config_gen/gen.py:190-195 | On canonical counter keys, level n+1 receives level n's value |
| Counters.ShiftKeepsLevel | ssh_config_gen/gen.py:190-195 | On canonical counter keys, a level nothing moves into keeps its value |
| Counters.ShiftCanonical | ssh_config_gen/gen.py:188-197 | On canonical counter keys: `count` removed, every level moved up one, unmoved levels kept, other keys untouched |
| Counters.ShiftedCanonical | ssh_config_gen/gen.py:188-197 | Shifting keeps the counter keys canonical |
| Counters.StrayCounterKey | ssh_config_gen/gen.py:190 | The filter as written also renames `abcde7` to `count8` and keeps `abcde7` |
| Counters.MovesAtLast | ssh_config_gen/gen.py:194-195 | After the assignments, a renamed-to key holds the value of the last key renamed to it |
| Counters.MovesAtNone | ssh_config_gen/gen.py:194-195 | After the assignments, a key nothing is renamed to is unchanged |
| Counters.AssignAppend | ssh_config_gen/gen.py:194-195 | Assigning two lists of moves is assigning one after the other |
| Template.FormatUnparse | ssh_config_gen/gen.py:155-158 | Formatting any template text built from literals, escaped braces and `{name}` fields gives its rendering: each field's `str()` value, or the first missing name |
| Template.RenderLiteral | ssh_config_gen/gen.py:155-158 | A template of only literal characters renders as itself |
| Template.FormatEscaped | ssh_config_gen/gen.py:155-158 | Doubling every brace in a text and formatting it gives the text back |
| Template.FormatPlain | ssh_config_gen/gen.py:155-158 | A text without braces formats to itself |
| Template.FormatField | ssh_config_gen/gen.py:155-158 | `{name}` becomes the value's `str()`, or fails with a missing placeholder |
| Template.CloseBrace | ssh_config_gen/gen.py:155 | Finds the first `}` after an opening brace, or reports there is none |
| Render.LinesFor | ssh_config_gen/gen.py:173-182 | The append loop joins exactly those lines with newlines |
| Render.SplitJoin | ssh_config_gen/gen.py:182 | Newline-free lines joined with `\n` split back into the same lines |
| Render.ConcatErr | ssh_config_gen/gen.py:31-37 | Chained generators succeed iff each does; otherwise the first failure is the result |
| Render.ConcatSingles | ssh_config_gen/gen.py:82-89 | Chaining generators that each give one block gives those blocks in order |
| Render.ConcatAppend | ssh_config_gen/gen.py:20-37 | Chaining two runs of generators is chaining their outputs, the first failure winning |
| Render.ConcatValue | ssh_config_gen/gen.py:31-37 | When every chained generator succeeds, the output is their outputs one after another |
| Render.ConcatOverValue | ssh_config_gen/gen.py:55-59 | When every key's generator succeeds, the output is their outputs in key-list order |
| Render.ProxyCommandInjective | ssh_config_gen/gen.py:184-186 | Two proxy commands are equal iff they go through the same host |
| Render.ConcatOverSpec | ssh_config_gen/gen.py:55-59 | Generating over a key list succeeds iff each key's generator does; no keys give no blocks |
| Spinoffs.Variants | ssh_config_gen/gen.py:130-133 | One variant per `formatting` element, in list order; fails iff an element is not a mapping |
| Spinoffs.Formatting | ssh_config_gen/gen.py:122-135 | A non-list `formatting` raises BadTemplate; absent or empty gives exactly the implicit host-level variant; otherwise one variant per element, in order |
| Spinoffs.Recount | ssh_config_gen/gen.py:151-153 | After a round's update, `count` holds `str(n)` |
| Spinoffs.SetCount | ssh_config_gen/gen.py:151-153 | The in-place shift-then-set computes `Recount` |
| Spinoffs.RoundAt | ssh_config_gen/gen.py:150-153 | Round j's format options hold `count == str(j + count_start)` |
| Spinoffs.RoundOptionsPrefix | ssh_config_gen/gen.py:150 | The options of the first m rounds do not depend on how many rounds follow |
| Spinoffs.RecountCanonical | ssh_config_gen/gen.py:151-153 | Setting the count keeps the counter keys canonical |
| Spinoffs.RecountMovesPrevious | ssh_config_gen/gen.py:151-153 | When `count` holds `str(n-1)`, setting it to `str(n)` moves the old value to `count1` |
| Spinoffs.PreviousCanonical | ssh_config_gen/gen.py:150-153 | From canonical options, every round starts from canonical options |
| Spinoffs.RoundOptionsPrevious | ssh_config_gen/gen.py:150-153 | From canonical options, `count1` holds the previous round's count in every round after the first |
| Spinoffs.MergedEntrySpec | ssh_config_gen/gen.py:168-169 | A proxying entry is copied, with its `format_options` set to the spinoff's options overlaid by the entry's own; it fails iff the entry or its `format_options` is not mergeable |
| Spinoffs.MergedEntriesSpec | ssh_config_gen/gen.py:166-169 | The merged proxying has exactly the listed keys, each entry merged; it fails iff some entry fails |
| Spinoffs.MergedProxyingSpec | ssh_config_gen/gen.py:166-169 | `merged_proxying` has the same keys as `proxying`, each entry merged; a non-mapping `proxying` fails |
| Spinoffs.MergedEntriesKeepError | ssh_config_gen/gen.py:167-169 | The first failing entry decides the failure |
| Spinoffs.MergedEntriesStep | ssh_config_gen/gen.py:167-169 | One loop step adds one merged entry, or fails with that entry's error |
| Spinoffs.MergeProxying | ssh_config_gen/gen.py:166-169 | The loop over proxying entries computes `MergedProxying` |
| Spinoffs.SpinoffRound | ssh_config_gen/gen.py:155-171 | One loop iteration's body computes `SpinoffAt` |
| Spinoffs.SpinoffsOverSpec | ssh_config_gen/gen.py:150-171 | The rounds succeed iff each does, with one spinoff per round, in round order |
| Spinoffs.SpinoffsOverKeepError | ssh_config_gen/gen.py:150-171 | The first failing round decides the failure |
| Spinoffs.RoundsStep | ssh_config_gen/gen.py:150-171 | One more round appends that round's spinoff, or fails with its error |
| Spinoffs.RoundsFail | ssh_config_gen/gen.py:150-171 | A failure in the first m rounds is the failure of all rounds |
| Spinoffs.PlayRound | ssh_config_gen/gen.py:150-171 | One iteration of the count loop advances the format options and the spinoff list exactly as the specification does |
| Spinoffs.VariantRounds | ssh_config_gen/gen.py:150-171 | The count loop computes the spinoffs of all rounds |
| Spinoffs.RunVariant | ssh_config_gen/gen.py:145-171 | One variant's iteration computes `VariantSpinoffs` |
| Spinoffs.VariantSpinoffsSpec | ssh_config_gen/gen.py:145-171 | A variant gives exactly `range(count)` spinoffs (a falsy count meaning 1). Spinoff j is made with `count == str(count_start + j)` |
| Spinoffs.VariantSpinoffsMade | ssh_config_gen/gen.py:150-171 | Every spinoff of a variant is made from that variant at its own format options |
| Spinoffs.VariantSpinoffsPrevious | ssh_config_gen/gen.py:145-153 | With canonical counter keys, spinoff j's `count1` holds `str(count_start + j - 1)` for j > 0 |
| Spinoffs.AllSpinoffsKeepError | ssh_config_gen/gen.py:145 | A failing variant stops the listing with its error |
| Spinoffs.VariantFails | ssh_config_gen/gen.py:145 | The first failing variant's error is the result |
| Spinoffs.AllSpinoffsStep | ssh_config_gen/gen.py:145 | Each variant appends its spinoffs after the earlier variants' |
| Spinoffs.ComputeSpinoffs | ssh_config_gen/gen.py:142-171 | The nested loops compute `SpinoffsOf` |
| Spinoffs.RoundsRunSpec | ssh_config_gen/gen.py:150-171 | The count loop as a generator: listing it gives the rounds' spinoffs or their first error, and each spinoff it makes is the one its round specifies |
| Spinoffs.VariantRunSpec | ssh_config_gen/gen.py:145-171 | One variant as a generator: listing it gives `VariantSpinoffs`, and each spinoff made is made from that variant |
| Spinoffs.VariantsRunSpec | ssh_config_gen/gen.py:145-171 | All variants as a generator: listing gives `AllSpinoffs`, and each spinoff made comes from some variant |
| Spinoffs.RunOfSpec | ssh_config_gen/gen.py:142-171 | The `spinoffs` generator: listing it gives `SpinoffsOf`; it makes nothing when `formatting` fails; each spinoff made comes from a variant at its own format options |
| Spinoffs.AllSpinoffsFrom | ssh_config_gen/gen.py:145-171 | Every spinoff comes from some variant at its own format options |
| Spinoffs.SingleSpinoff | ssh_config_gen/gen.py:142-171 | A plain host gives exactly one spinoff: its own name, shown with a non-empty alias, `HostName` its only option, no proxying |
| HostGen.RunTraceable | ssh_config_gen/gen.py:91-95 | Every spinoff the generator makes, before any failure, has proxying entries that come from inside the host's template value |
| HostGen.SpinoffCarries | ssh_config_gen/gen.py:166-171 | A spinoff's merged proxying entries are built from the variant's raw entries |
| HostGen.SpinoffEntries | ssh_config_gen/gen.py:166-171 | Each merged proxying entry is `MergedEntry` of the raw entry at the spinoff's format options |
| HostGen.DirectivesSpec | ssh_config_gen/gen.py:85-87 | Spinoff options override host options. `ProxyCommand` to `proxied_by` is added only when neither has one. Nothing else is added. Fails iff the host's `options` is not mergeable |
| HostGen.OtherItemsSpec | ssh_config_gen/gen.py:88 | The remaining directives are every key but `HostName`, each with its value, in ascending key order |
| HostGen.BlockLines | ssh_config_gen/gen.py:89 | A block is `Host <display>`, `HostName <value>`, then one line per other directive, in order; a directive line reads `<key> yes` for `True`, `<key> no` for `False` and `<key> <text>` for a string |
| HostGen.ProxiedHostSpec | ssh_config_gen/gen.py:91-93 | The proxied host has the entry's keys. Its `options` are the parent's directives overlaid by the entry's `options`, with `ProxyCommand` pointing at the parent's raw host. Fails iff the entry's `options` is not mergeable |
| HostGen.ProxiedFormatOptions | ssh_config_gen/gen.py:166-169 | A proxied host's `format_options` are the parent spinoff's overlaid by the entry's own |
| HostGen.GenerateBlocks | ssh_config_gen/gen.py:82-95 | `Host.generate` succeeds iff the spinoffs do and every spinoff's expansion does; the output is the expansions' blocks in spinoff order |
| HostGen.GenerateOrder | ssh_config_gen/gen.py:82-95 | On failure the error is that of the first failing expansion of a spinoff already made, and otherwise the error the spinoff generator raised after its last spinoff |
| HostGen.StopsAfter | ssh_config_gen/gen.py:84-95 | Consuming a generator's items and expanding each, then meeting its raise: success iff all succeed and it finishes; the first expansion failure beats the raise |
| HostGen.GenerateListed | ssh_config_gen/gen.py:82-95 | When the spinoffs list without error, generation is the chained expansion of that list |
| HostGen.GenerateBadTemplate | ssh_config_gen/gen.py:126-127 | A non-list `formatting` makes generation fail with BadTemplate |
| HostGen.ExpandOneSpec | ssh_config_gen/gen.py:84-95 | A spinoff's output starts with its block, and is exactly that block when it proxies nothing |
| HostGen.GeneratePlain | ssh_config_gen/gen.py:82-95 | Without proxying: one block per spinoff, in order; fails iff there are spinoffs and the host's `options` is not mergeable |
| HostGen.SingleHostOk | ssh_config_gen/gen.py:82-95 | A plain host generates iff its `options` is mergeable |
| HostGen.SingleHostBlock | ssh_config_gen/gen.py:82-95 | A plain host gives one block that starts with `Host <name> [<alias>]` and then `HostName <name>` |
| HostGen.NamedBlock | ssh_config_gen/gen.py:85-89 | A spinoff's own `HostName` is the one its block prints second, whatever the host-level options say |
| HostGen.SpinoffBlockHead | ssh_config_gen/gen.py:155-164 | Every spinoff the generator makes is named by the host template formatted with its own format options. Its block prints that name as `HostName`, and `Host <name>`, or `Host <name> <alias>` when the variant's alias formats to non-empty text |
| HostGen.BlockStart | ssh_config_gen/gen.py:89 | A block's first two lines are `Host <display>` and `HostName <name>` |
| SectionGen.BannerLines | ssh_config_gen/gen.py:39-45 | The banner is 25 hashes, `###  NAME`, then 25 hashes |
| SectionGen.Lead | ssh_config_gen/gen.py:50 | The count of leading whitespace characters |
| SectionGen.Trail | ssh_config_gen/gen.py:50 | The count of trailing whitespace characters |
| SectionGen.StripSpec | ssh_config_gen/gen.py:50 | `strip()` gives the middle of the text, with no whitespace at either end, and removes only whitespace; it is empty iff the text is all whitespace |
| SectionGen.StripIdempotent | ssh_config_gen/gen.py:50 | Stripping twice is stripping once |
| SectionGen.UpdateOptions | ssh_config_gen/gen.py:66-74 | The copy-then-assign steps compute `Inherited` |
| SectionGen.InheritedSpec | ssh_config_gen/gen.py:66-74 | The child's `options` become the parent's `options` overlaid by its own; all other child keys are kept; a falsy child counts as `{}`; fails iff one of these is not mergeable |
| SectionGen.InheritedKeeps | ssh_config_gen/gen.py:66-74 | `proxying`, `formatting` and `sections` pass through unchanged |
| SectionGen.ChildListSpec | ssh_config_gen/gen.py:61-64 | One child section per name, in the given order, each with inherited options; fails iff some inheritance fails |
| SectionGen.ChildrenInherit | ssh_config_gen/gen.py:61-64 | There is one child per `sections` entry, with options inherited from the parent |
| SectionGen.ChildrenOrdered | ssh_config_gen/gen.py:64 | Children come in strictly ascending name order and cover every `sections` key |
| SectionGen.EntriesBlocksSpec | ssh_config_gen/gen.py:55-56 | The `hosts` entries generate iff each does; no entries give nothing |
| SectionGen.EntriesBlocksValue | ssh_config_gen/gen.py:55-56 | When they generate, the output is each entry's blocks, entries in ascending name order |
| SectionGen.AliasesBlocksSpec | ssh_config_gen/gen.py:58-59 | The `simple` entries generate iff each does; no entries give nothing |
| SectionGen.AliasesBlocksValue | ssh_config_gen/gen.py:58-59 | When they generate, the output is each alias's block, aliases in ascending order |
| SectionGen.HostsBlocksSpec | ssh_config_gen/gen.py:52-59 | `hosts` and `simple` must be mappings, and every entry must generate; neither present gives nothing |
| SectionGen.SectionBlocksValue | ssh_config_gen/gen.py:20-37 | A successful section gives its banner and verbatim text, then each `hosts` entry's blocks in name order, then each `simple` alias's block in order, then each child section's blocks in name order |
| SectionGen.ChildPartsSpec | ssh_config_gen/gen.py:35-37 | There is one child generator per child section, in order; each child is built from its own `sections` entry |
| SectionGen.SectionOrder | ssh_config_gen/gen.py:20-37 | A verbatim failure comes first, then a hosts failure. Output starts with the banner, the verbatim text, then the host blocks |
| SectionGen.LeafSection | ssh_config_gen/gen.py:20-45 | A section with nothing in it gives only its banner, or nothing when unnamed |
| SectionGen.SimpleEntry | ssh_config_gen/gen.py:58-59 | A simple `alias: host` entry gives one block, `Host <host> <alias>` then `HostName <host>`; fails iff the section's `options` is not mergeable |
| SectionGen.AliasHost | ssh_config_gen/gen.py:58-59 | A simple entry's host holds its alias and the section's merged `options`, and nothing that makes it format or proxy |
| SectionGen.MakeSshConfigTop | ssh_config_gen/main.py:36-39 | The configuration is the unnamed top section's verbatim text, host blocks and child blocks, joined by blank lines; it succeeds iff the section does |
| SectionGen.MakeSshConfigEmpty | ssh_config_gen/main.py:36-39 | An empty template gives an empty config |
| SectionGen.MakeSshConfigVerbatim | ssh_config_gen/main.py:36-39 | A template with only `verbatim` gives its stripped text |

## Left out

- Everything in `ssh_config_gen/main.py` except `make_ssh_config`: argument parsing, YAML loading, file I/O, backups and error printing. The template arrives as a `Value`.
- YAML typing: how the loader turns `yes` into `True`, and similar. Floats, dates and non-string mapping keys are not modelled; values are strings, booleans, integers, mappings, lists or `None`.
- Recursive templates: a YAML anchor that refers to one of its ancestors can build a cyclic template, such as a `proxying` entry that contains itself. On such a template `ssh_config_gen/gen.py:91-95` recurses until Python raises a recursion error. A `Value` is a finite tree, and host and section recursion terminates on it, so the model cannot express that case.
- Dict iteration order: Python 2 iterates `proxying`, `merged_proxying` and the keys seen by `adjust_format_counts` in its own hash order. The model uses ascending key order.
  - For proxying this fixes the order in which sibling proxied hosts are emitted. No lemma claims anything about that order.
  - For counters it decides only which value wins when two keys are renamed to the same name.
  - When two `proxying` entries both fail, it decides which error is reported. The failure can come from merging their `format_options` (`ssh_config_gen/gen.py:166-169`) or from generating their proxied hosts (`ssh_config_gen/gen.py:91-95`).
- Unicode: `upper()`, `strip()` and `isdigit()` are modelled for ASCII characters only.
- `str()` of a value: integers, strings, booleans and `None` print as Python prints them. Mappings and lists print through a simplified rendering, not Python's `repr`.
- `str.format` beyond `{name}`, `{{` and `}}`: format specs, conversions, attribute and index access, and positional fields are reported as `BadFormatString` rather than interpreted.
- In-place mutation of a `formatting` entry's own `options` dict by `options['HostName'] = raw_host`: each spinoff gets a fresh copy, so aliasing between the template and later spinoffs is not modelled.
- Generator laziness: blocks are not produced one at a time. A generator's output is the complete list of blocks, or the first error in the order Python would meet it. That is all `make_ssh_config` observes, since it forces the whole generator before joining.
- `dict.update` with a list of pairs: any truthy non-mapping input to `merge_options` is modelled as a failure.
- Behaviour expected by the repository's tests but absent from `gen.py` is not modelled: `add_hostname`, section-level `format_options`, and zero-padded counts. `gen.py` always prints `HostName`, and passes only `options` to children.
- Spinoffs.VariantSpinoffsPrevious: proved only for format options whose counter keys are canonical (`count`, `count1`, `count2`, …). A stray key such as `abcde7` also takes part in the shift (see `Counters.StrayCounterKey`).
- HostGen.SingleHostBlock: states the first two lines of the block. The remaining lines are given in general by `HostGen.BlockLines` and `HostGen.OtherItemsSpec`.
