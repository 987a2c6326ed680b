# js-features-analyser detection engine, in Dafny

This project models the detection engine of `src/features.js`, a Babel plugin.
The plugin walks a JavaScript syntax tree and lists the ECMAScript runtime
capabilities the code uses: constructors, static methods, instance methods,
`Symbol.iterator` and the `[@@iterator]` method of each iterable type.

The model has three parts:

- **The capability recorder** (module `Recorder`, plus the `Record` and
  `RecordEsRuntimeFeature` methods of class `Analyser.Analyser`). It is an
  insertion-ordered set of strings, modelled as a duplicate-free `seq<string>`.
  `record` skips falsy ids (for strings, only `""`) and ids already present.
  `recordEsRuntimeFeature` records a list element by element. `Add` and `AddAll`
  are the specification functions. `FirstOccurrences` is an independent
  description of the same set, and `AddAllIsFirstOccurrences` connects the two.
- **The visitor hooks** (module `Hooks`). There is one `Node` variant per hook,
  and it carries only what that hook reads. Babel's queries become fields of the
  node: `path.isReferenced()`, `t.isReferenced`, `scope.getBindingIdentifier`,
  `matchesPattern("Symbol.iterator")` and `evaluate()`. The three tables of
  `built-in-definitions` are a `Tables` parameter. A table value is a single id
  or a list of ids (`Feature`). Each hook is a function that returns its
  `recordEsRuntimeFeature` arguments in call order. The contract of each hook
  states its guard as an if-and-only-if, and states what is recorded.
- **The run and the pruning pass** (modules `Pruner` and `Analyser`). Class
  `Analyser.Analyser` holds `builtIns`.
  - `Pre` empties it.
  - `Visit` applies a hook, with its recording loops.
  - `Post` runs the pruning loop over the 37-name constructor catalog, in source
    order. When a catalog name `C` is absent from the current set, every id that
    starts with `C` (a raw string prefix) is filtered out.
  - `Run` does `Pre`, visits a given sequence of enter/exit events, then does
    `Post`.
  - Each method is proved against a specification function:
    `Add`, `AddAll`, `Prune` and `Analysis`.

The proved properties include:

- The set never holds a duplicate or a falsy id, and re-recording is a no-op.
- A list is recorded in list order.
- The pruning is an order-preserving filter. It drops exactly the ids that start
  with a catalog name absent when the loop reaches it. A name that is present
  changes nothing. An id survives only if every catalog name it starts with was
  recorded.
- An absent `"Array"` also drops every `"ArrayBuffer…"` id, because the prefix
  test is a raw string prefix.

Whole-run scenarios are also proved:

- A run whose only event is entering a for-of statement leaves exactly
  `["Symbol", "Symbol.iterator"]`. This is because only the for-of hook records
  the bare `"Symbol"`.
- A run whose only event is a firing call, `in` or `yield*` hook leaves nothing.
  Source text rarely produces such a run. `obj[Symbol.iterator]()` and
  `Symbol.iterator in x` also visit the member access `Symbol.iterator`, and
  its exit hook (src/features.js:178-189) records the global entry of
  `Symbol`. With that entry equal to `"Symbol"`, both `"Symbol"` and
  `"Symbol.iterator"` survive (`ProtocolWithSymbolAccessKeepsPair`). A
  `yield*` sits inside a generator. When that generator is a function
  declaration or expression, its hook also records `"Function"`.
- In `var { m } = String`, a run of the destructuring hook alone prunes `m`'s
  `String…` entry. In source text the identifier hook also fires on the
  initialiser `String`, because its parent is the declarator and not a member
  access. When `globals` maps `String` to `"String"`, both survive.
- An array or string literal alone leaves exactly `"Array"` or `"String"`.
- A numeric, a string and an array literal leave exactly
  `["Number", "String", "Array"]`.

Three behaviours of the code are worth stating on their own, because a reader
might expect otherwise:

- Only the for-of hook records the bare `"Symbol"` (src/features.js:31). The
  call, `in` and `yield*` hooks start their lists at `"Symbol.iterator"`
  (src/features.js:73, 94, 114), so they record one id fewer. This is why a
  for-of event alone keeps `"Symbol"` and `"Symbol.iterator"`
  (`ForOfAloneKeepsSymbol`), while an iterator-protocol event alone keeps
  nothing (`IteratorProtocolAlonePrunesAll`).
- The destructuring hook records only `instanceMethods` entries, never the
  initialiser's own entry (src/features.js:207-217). The pruning loop removes
  every id that starts with an unrecorded catalog name (src/features.js:298-301).
  So in `const { repeat } = String;` a `String…` entry recorded only by the
  destructuring hook is removed (`DestructuringWithoutOwnerPruned`). It survives
  only when another hook records `"String"`. In source text the identifier hook
  on the initialiser does so whenever `globals` maps `String` to `"String"`
  (`DestructuringWithOwnerKept`).
- The destructuring hook tests `computed` on the declarator
  (src/features.js:210), where it is always undefined, not on the property. A
  computed key such as `{ [k]: v }` whose key is an identifier is therefore
  treated like a plain key. The model's `Key` carries no computed flag for this
  reason.

## Model

| member | source | states |
|---|---|---|
| Recorder.Add | src/features.js:13-17 | `record`: the set grows by at most one id and keeps its old contents as a prefix. An id is in the result iff it was already there, or it is the new id and truthy. No-duplicates and all-truthy are preserved. |
| Recorder.AddAll | src/features.js:19-27 | `recordEsRuntimeFeature` on a list, one `record` per element. The old set stays a prefix, and the contents are the old set plus the truthy ids of the list. No-duplicates and all-truthy are preserved. |
| Recorder.FirstOccurrences | src/features.js:13-27 | The reference description of an insertion-ordered set: each truthy id once, at its first occurrence. It is duplicate-free and holds exactly the truthy ids of its input. |
| Recorder.AddAllIsFirstOccurrences | src/features.js:13-27 | Recording a list into a set gives the first occurrences of set followed by list. Ids are kept in list order, and present or falsy ids are skipped. |
| Recorder.FirstOccurrencesOfSet | src/features.js:13-17 | A duplicate-free, all-truthy sequence is its own insertion-ordered set. |
| Recorder.AddAllPresent | src/features.js:14-16 | Recording ids that are all present, or falsy, leaves the set unchanged. |
| Recorder.AddAllIdempotent | src/features.js:13-27 | Recording the same list twice equals recording it once. |
| Recorder.AddAllAppend | src/features.js:19-27 | Recording `a + b` equals recording `a` and then `b`, which is how successive calls compose. |
| Hooks.ForOfFeatures | src/features.js:30-46 | The for-of hook records, in order, the 15-id list: `Symbol`, `Symbol.iterator`, then the 13 `<T>.prototype[@@iterator]` ids. |
| Hooks.IteratorIdsShape | src/features.js:31-45 | The call, `in` and `yield*` list is the for-of list without the leading `"Symbol"`. The id at position i+2 of the for-of list starts with the i-th iterable type. |
| Hooks.IterableTypesInCatalog | src/features.js:257-296 | The 13 iterable types are distinct names of the pruning catalog. |
| Hooks.ForOfIdsDistinct | src/features.js:30-46 | The for-of list has no duplicate and no falsy id. |
| Hooks.ReferencedIdentifierFeatures | src/features.js:50-59 | The identifier hook records something iff the parent is not a member access, the name is a key of `globals`, and no local binding shadows it. What it records is exactly `globals[name]`. |
| Hooks.CallExpressionFeatures | src/features.js:62-86 | The call hook records something iff there are no arguments, the callee is a computed member access, and its property matches `Symbol.iterator`. It then records the protocol list. |
| Hooks.BinaryExpressionFeatures | src/features.js:90-107 | The binary hook records something iff the operator is `in` and the left side matches `Symbol.iterator`. It then records the protocol list. |
| Hooks.YieldExpressionFeatures | src/features.js:111-127 | The yield hook records something iff the yield delegates. It then records the protocol list. |
| Hooks.StaticMethodFeature | src/features.js:141-147 | The static-method lookup matches iff the object has a name that is a key of `staticMethods`, and the property is an identifier whose name is a key of that constructor's table. The property's computed-ness is not checked. On a match it yields that entry. |
| Hooks.InstanceMethodFeature | src/features.js:149-174 | Non-computed: matches iff the property is an identifier that is a table key. Computed: matches iff the key is a string literal that is a table key, or the folded value is a table key. The literal takes precedence over the fold. |
| Hooks.MemberEnterFeatures | src/features.js:132-175 | The member-enter hook records nothing unless the access and its object are referenced. It then records the static match followed by the instance match. |
| Hooks.MemberExitFeatures | src/features.js:178-189 | The member-exit hook records something iff the access is referenced, the object's name is a `globals` key, and it is not shadowed. What it records is exactly that global entry. |
| Hooks.KeyFeatures | src/features.js:207-217 | Over the pattern's keys, every identifier key that is an `instanceMethods` key has its entry recorded. Every recorded feature is such an entry, and no more features are recorded than there are keys. |
| Hooks.VariableDeclaratorFeatures | src/features.js:193-218 | The destructuring hook records nothing unless the declarator is referenced, the id is an object pattern, and the initialiser is referenced and unshadowed. It then records the entries of the identifier keys, and only `instanceMethods` entries: never the initialiser's own global entry. |
| Hooks.LiteralId | src/features.js:220-245 | The id each literal hook records: array gives `"Array"`, boolean `"Boolean"`, function declaration or expression `"Function"`, object `"Object"`, numeric `"Number"`, regexp `"RegExp"`, string `"String"`. BigInt and template literals record nothing. |
| Hooks.LiteralIdInCatalog | src/features.js:220-245 | Each literal hook's id is a truthy name of the pruning catalog. |
| Hooks.OptionFeatures | src/features.js:135-175 | An optional lookup records its entry on a hit and nothing on a miss. |
| Hooks.EnterFeatures | src/features.js:29-245 | The visitor's enter dispatch. Each literal hook records exactly its `LiteralId`. The BigInt and template literal hooks (lines 223, 245) and nodes without a hook record nothing. |
| Hooks.ExitFeatures | src/features.js:131-190 | Only member accesses have an exit hook. For them it records something iff the member-exit guards hold. Every other node records nothing on exit. |
| Hooks.EventFeatures | src/features.js:29-246 | An exit from a node other than a member access records nothing. Entering a literal records exactly its id. |
| Pruner.WithoutAny | src/features.js:300 | The filter by a list of prefixes: an id stays iff it is in the input and starts with none of them. No-duplicates is preserved. |
| Pruner.WithoutAnyIsSubsequence | src/features.js:300 | The filter's result is an order-preserving subsequence of its input. |
| Pruner.Without | src/features.js:300 | `filter(item => !item.startsWith(C))`: an id stays iff it is in the input and does not start with `C`. |
| Pruner.PruneStep | src/features.js:299-301 | One loop iteration. If `C` is present, the set is unchanged. Otherwise an id remains iff it was there and does not start with `C`. The order is stated by `PruneIsFilter`. |
| Pruner.Prune | src/features.js:298-301 | The whole loop keeps a subset of the ids and preserves no-duplicates. |
| Pruner.PruneIsFilter | src/features.js:298-301 | The loop equals one filter by the catalog names absent when the loop reaches them. |
| Pruner.PruneIsSubsequence | src/features.js:298-301 | The pruned set is an order-preserving subsequence of the recorded set. |
| Pruner.AbsentIsRemoved | src/features.js:298-301 | A catalog name absent before the loop is still absent when the loop reaches it, so it filters. |
| Pruner.PruneRemovesAbsent | src/features.js:298-301 | For every catalog name absent from the recorded set, no surviving id starts with it. |
| Pruner.PruneKeeps | src/features.js:298-301 | Recorded ids whose catalog prefixes are all among them all survive. |
| Pruner.PruneClosedUnchanged | src/features.js:298-301 | A set in which every catalog prefix of an id is itself present is left unchanged. |
| Pruner.PruneLeavesHead | src/features.js:298-301 | Suppose a set is `head + rest`, every catalog prefix of `head` is in `head`, and each id of `rest` starts with an unrecorded catalog name. Then exactly `head` remains. |
| Pruner.PruneRemovesExtended | src/features.js:298-301 | An absent catalog name also drops ids that start with any longer string it prefixes. |
| Pruner.ArrayAbsentDropsArrayBuffer | src/features.js:268-269 | When `"Array"` is not recorded, no `"ArrayBuffer…"` id survives, and neither does `"ArrayBuffer"` itself. This is the raw-prefix behaviour. |
| Analyser.Collect | src/features.js:29-246 | Visiting events keeps the set recorded so far as a prefix and preserves no-duplicates and all-truthy. |
| Analyser.CollectDistinct | src/features.js:13-246 | When the hooks pass no id twice and none is falsy, a traversal records exactly what they pass, in order. |
| Analyser.CollectIsAddAll | src/features.js:13-246 | Visiting events from a set `s` equals recording, into `s`, every id the hooks pass, in event order (`AllIds`). |
| Analyser.CollectIsFirstOccurrences | src/features.js:13-246 | From the empty set, a traversal records the first occurrence of each truthy id the hooks pass, and an id is recorded iff some hook passed it and it is truthy. |
| Analyser.Analysis | src/features.js:248-302 | The result of a run is duplicate-free and all-truthy. |
| Analyser.AnalysisFromHooks | src/features.js:248-302 | Every id that survives a run was passed by some hook and is truthy. |
| Analyser.Analyser.constructor | src/features.js:248-252 | A new analyser starts with the given tables and an empty, valid set. |
| Analyser.Analyser.Pre | src/features.js:250-252 | `pre` makes the set empty. |
| Analyser.Analyser.Record | src/features.js:13-17 | `record` updates `builtIns` to `Add(old, id)` and keeps the invariant. |
| Analyser.Analyser.RecordEsRuntimeFeature | src/features.js:19-27 | The loop over a list argument (or one record) updates `builtIns` to `AddAll(old, ids)`. |
| Analyser.Analyser.RecordEach | src/features.js:30-46 | A hook's successive calls update `builtIns` to `AddAll(old, flattened ids)`. |
| Analyser.Analyser.Visit | src/features.js:29-246 | Visiting one event records its hook's features. |
| Analyser.Analyser.PruneBy | src/features.js:298-302 | The `for … of` loop with its in-place reassignment updates `builtIns` to `Prune(old, catalog)`. |
| Analyser.Analyser.Post | src/features.js:253-302 | `post` prunes `builtIns` with the 37-name catalog. |
| Analyser.Analyser.Run | src/features.js:248-302 | `pre`, every event in order, then `post`, leaves `builtIns == Analysis(tables, events)`. |
| Analyser.SymbolCatalogPrefix | src/features.js:257-296 | For an id that starts with `"Symbol"`, the only catalog name that prefixes it is `"Symbol"`. |
| Analyser.StringCatalogPrefix | src/features.js:257-296 | For an id that starts with `"String"`, the only catalog name that prefixes it is `"String"`. |
| Analyser.ArrayCatalogPrefix | src/features.js:268-269 | The only catalog name that prefixes `"Array"` is `"Array"`; `"ArrayBuffer"` is longer. |
| Analyser.ForOfCollected | src/features.js:30-46 | The for-of hook alone records the 15-id list, in order. |
| Analyser.ForOfPruned | src/features.js:298-301 | Pruning the for-of list keeps exactly `["Symbol", "Symbol.iterator"]`. |
| Analyser.ForOfAloneKeepsSymbol | src/features.js:30-46 | A run over a lone for-of statement yields `["Symbol", "Symbol.iterator"]`. |
| Analyser.ProtocolIdsDistinct | src/features.js:72-85 | The protocol list has no duplicate and no falsy id. |
| Analyser.ProtocolCollected | src/features.js:62-127 | An iterator-protocol hook that fires alone records the 14-id protocol list. |
| Analyser.ProtocolPruned | src/features.js:298-301 | Pruning the protocol list leaves nothing, because `"Symbol"` was never recorded. |
| Analyser.IteratorProtocolAlonePrunesAll | src/features.js:62-127 | A run over a lone firing call, `in` or `yield*` hook yields the empty list. |
| Analyser.SymbolPairKept | src/features.js:298-301 | A set holding `"Symbol"` and `"Symbol.iterator"` keeps both through a pruning in which their only catalog prefixes are among them. |
| Analyser.SymbolPairInAnalysis | src/features.js:248-302 | Whenever the hooks pass both `"Symbol"` and `"Symbol.iterator"`, both survive the run. |
| Analyser.ProtocolWithSymbolAccessIds | src/features.js:62-189 | A firing call, `in` or `yield*` hook, followed by the exit of the member access `Symbol.iterator`, passes both `"Symbol.iterator"` and `"Symbol"`. |
| Analyser.ProtocolWithSymbolAccessKeepsPair | src/features.js:62-189 | That run keeps both `"Symbol"` and `"Symbol.iterator"`. |
| Analyser.AnalysisPrefixesRecorded | src/features.js:298-301 | Every catalog name that prefixes a surviving id was recorded during the traversal. |
| Analyser.StringMemberAlonePruned | src/features.js:298-301 | A `String…` id recorded without `"String"` is removed. |
| Analyser.StringMemberWithOwnerKept | src/features.js:298-301 | A `String…` id recorded with `"String"` survives, together with `"String"`. |
| Analyser.DestructuringFeatures | src/features.js:207-217 | `var { m } = …` records `m`'s `instanceMethods` entry. |
| Analyser.GlobalFeatures | src/features.js:50-59 | An unshadowed global identifier outside a member access records its entry. |
| Analyser.DestructuringWithoutOwnerPruned | src/features.js:193-218 | A run over the destructuring hook alone yields nothing for a `String…` entry. |
| Analyser.DestructuringWithOwnerCollected | src/features.js:193-218 | The declarator, then its initialiser as a global identifier, records the entry and then `"String"`. |
| Analyser.DestructuringWithOwnerKept | src/features.js:193-218 | That run yields `[entry, "String"]`. |
| Analyser.LiteralFeatures | src/features.js:220-245 | A literal hook records exactly its one constructor name. |
| Analyser.LiteralCollected | src/features.js:220-245 | A literal hook that fires alone records its name. |
| Analyser.LoneNameKept | src/features.js:298-301 | A lone catalog name with no other catalog prefix survives. |
| Analyser.LiteralAloneKept | src/features.js:220-245 | A lone literal whose name has no other catalog prefix yields exactly that name. |
| Analyser.ArrayLiteralAloneKept | src/features.js:220-222 | A lone array literal yields `["Array"]`. |
| Analyser.StringLiteralAloneKept | src/features.js:242-244 | A lone string literal yields `["String"]`. |
| Analyser.NumberCatalogPrefix | src/features.js:257-296 | The only catalog name that prefixes `"Number"` is `"Number"`. |
| Analyser.ThreeLiteralsIds | src/features.js:220-245 | A numeric, a string and an array literal pass `"Number"`, `"String"` and `"Array"`, in that order. |
| Analyser.ThreeLiteralsCollected | src/features.js:220-245 | Those three literals record `["Number", "String", "Array"]`. |
| Analyser.ThreeNamesKept | src/features.js:298-301 | Pruning `["Number", "String", "Array"]` changes nothing, because the only catalog prefix of each name is the name itself. |
| Analyser.ThreeLiteralsKept | src/features.js:220-301 | A run over those three literals yields exactly `["Number", "String", "Array"]`. |

## Left out

- Reading the plugin options, resolving the output path, `JSON.stringify` and `fs.writeFileSync` (src/features.js:303-310) are file I/O and host configuration. The model ends with the pruned `builtIns`.
- The contents of `built-in-definitions` (src/features.js:3) are not part of this model. The three tables are a parameter.
- Babel's traversal, including which nodes are visited and in what order, is a given sequence of enter/exit events.
- Babel's scope, reference and pattern queries and its constant folding are boolean or optional fields of the node, not implementations.
- `has` (src/features.js:8-10) is Dafny map membership. Two JavaScript effects are not modelled:
  - An object without a `name` yields the key `"undefined"`; the model treats it as no key.
  - The unguarded lookup `instanceMethods[res.value]` (src/features.js:166) can reach inherited keys such as `constructor`; the model does a plain lookup where a miss records nothing.
- A table value is a single id or a list of ids. Other JavaScript values, which would be recorded as they are, are not modelled.
- The folded value of a computed property is modelled already converted to its property-key string.
- `record` and `recordEsRuntimeFeature` ignore their `path` argument, so the model drops it.
- Hooks.KeyFeatures: the contract states which entries are recorded, not the order in which they are recorded. The order is key order, by the body's back recursion.
- Hooks.VariableDeclaratorFeatures: like `KeyFeatures`, the contract states membership, not order.
