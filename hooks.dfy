/** The per-node-kind matching rules. Each visitor hook reads a few fields of the
    node it is called on and yields the arguments of its `recordEsRuntimeFeature`
    calls, in call order. Queries the traversal answers (is a path referenced,
    is a name bound locally, does a path match `Symbol.iterator`, what does an
    expression fold to) are fields of the node. */
module Hooks {
  import opened Recorder
  import opened Pruner

  datatype Option<T> = None | Some(value: T)

  /** The capability tables: global name to capability; constructor name to
      static-method name to capability; instance-method name to capability. */
  datatype Tables = Tables(
    globals: map<string, Feature>,
    staticMethods: map<string, map<string, Feature>>,
    instanceMethods: map<string, Feature>)

  /** A property of a member access, or a key of an object pattern: an
      identifier (its `name`), a string literal (its `value`), or anything else. */
  datatype Key = Ident(name: string) | StrLit(value: string) | OtherKey

  /** A visited node, one variant per hook, each carrying what its hook reads. */
  datatype Node =
    | ForOfStatement
      /** `shadowed`: the scope has a local binding for `name`. */
    | ReferencedIdentifier(name: string, parentIsMember: bool, shadowed: bool)
      /** `calleePropertyIsSymbolIterator`: the callee's property matches `Symbol.iterator`. */
    | CallExpression(argumentCount: nat, calleeIsMember: bool, calleeComputed: bool,
                     calleePropertyIsSymbolIterator: bool)
    | BinaryExpression(operator: string, leftIsSymbolIterator: bool)
    | YieldExpression(delegate: bool)
      /** `objectName`: the name of the object when it has one (an identifier);
          `folded`: the property key the property expression folds to when the
          folding is confident. */
    | MemberExpression(referenced: bool, objectReferenced: bool, objectName: Option<string>,
                       objectShadowed: bool, computed: bool, property: Key, folded: Option<string>)
      /** `keys`: the keys of the pattern's properties when the id is an object
          pattern; `initShadowed`: the initialiser is a name bound locally. */
    | VariableDeclarator(referenced: bool, idIsObjectPattern: bool, keys: seq<Key>,
                         initReferenced: bool, initShadowed: bool)
    | ArrayExpression
    | BigIntLiteral
    | BooleanLiteral
    | FunctionDeclaration
    | FunctionExpression
    | ObjectExpression
    | NumericLiteral
    | RegExpLiteral
    | StringLiteral
    | TemplateLiteral
    | OtherNode

  /** A traversal event: the visitor entering or leaving a node. */
  datatype Event = Enter(node: Node) | Exit(node: Node)

  /** The built-in types whose iterator the iteration hooks record, in the
      order of their `<T>.prototype[@@iterator]` identifiers. */
  const IterableTypes: seq<string> := [
    "Int8Array", "Uint8Array", "Uint8ClampedArray", "Int16Array", "Uint16Array",
    "Int32Array", "Uint32Array", "Float32Array", "Float64Array",
    "Array", "String", "Map", "Set"
  ]

  /** The identifiers the iterator-call, `in` and `yield*` hooks record, in
      their order. */
  const IteratorProtocolIds: seq<string> := [
    "Symbol.iterator",
    "Int8Array.prototype[@@iterator]",
    "Uint8Array.prototype[@@iterator]",
    "Uint8ClampedArray.prototype[@@iterator]",
    "Int16Array.prototype[@@iterator]",
    "Uint16Array.prototype[@@iterator]",
    "Int32Array.prototype[@@iterator]",
    "Uint32Array.prototype[@@iterator]",
    "Float32Array.prototype[@@iterator]",
    "Float64Array.prototype[@@iterator]",
    "Array.prototype[@@iterator]",
    "String.prototype[@@iterator]",
    "Map.prototype[@@iterator]",
    "Set.prototype[@@iterator]"
  ]

  /** The identifiers the for-of hook records, in its order: the same list
      preceded by "Symbol". */
  const ForOfIds: seq<string> := [
    "Symbol",
    "Symbol.iterator",
    "Int8Array.prototype[@@iterator]",
    "Uint8Array.prototype[@@iterator]",
    "Uint8ClampedArray.prototype[@@iterator]",
    "Int16Array.prototype[@@iterator]",
    "Uint16Array.prototype[@@iterator]",
    "Int32Array.prototype[@@iterator]",
    "Uint32Array.prototype[@@iterator]",
    "Float32Array.prototype[@@iterator]",
    "Float64Array.prototype[@@iterator]",
    "Array.prototype[@@iterator]",
    "String.prototype[@@iterator]",
    "Map.prototype[@@iterator]",
    "Set.prototype[@@iterator]"
  ]

  /** Single-identifier features flatten to their identifiers. */
  lemma {:induction false} FlattenOfSingles(r: seq<Feature>, ids: seq<string>)
    requires |r| == |ids| && forall i :: 0 <= i < |ids| ==> r[i] == Id(ids[i])
    ensures Flatten(r) == ids
    decreases |ids|
  {
    if ids != [] {
      FlattenOfSingles(r[..|r| - 1], ids[..|ids| - 1]);
      assert ids == ids[..|ids| - 1] + [ids[|ids| - 1]];
    }
  }

  /** One `recordEsRuntimeFeature` call per identifier, in order. */
  function Singles(ids: seq<string>): (r: seq<Feature>)
    ensures |r| == |ids| && forall i :: 0 <= i < |ids| ==> r[i] == Id(ids[i])
    ensures Flatten(r) == ids
  {
    var r := seq(|ids|, i requires 0 <= i < |ids| => Id(ids[i]));
    FlattenOfSingles(r, ids);
    r
  }

  /** The iterators of the first five typed arrays start with their type's name. */
  lemma TypedArrayIteratorPrefixesLow()
    ensures forall i :: 0 <= i < 5 ==> StartsWith(ForOfIds[i + 2], IterableTypes[i])
  {
  }

  /** The iterators of the last four typed arrays start with their type's name. */
  lemma TypedArrayIteratorPrefixesHigh()
    ensures forall i :: 5 <= i < 9 ==> StartsWith(ForOfIds[i + 2], IterableTypes[i])
  {
  }

  /** The iterators of Array, String, Map and Set start with their type's name. */
  lemma CollectionIteratorPrefixes()
    ensures forall i :: 9 <= i < 13 ==> StartsWith(ForOfIds[i + 2], IterableTypes[i])
  {
  }

  /** The iterator-protocol list is the for-of list without "Symbol"; after
      "Symbol" and "Symbol.iterator" the for-of list holds one iterator
      identifier per iterable type, each starting with that type's name. */
  lemma IteratorIdsShape()
    ensures |ForOfIds| == |IterableTypes| + 2
    ensures IteratorProtocolIds == ForOfIds[1..]
    ensures forall i :: 0 <= i < |IterableTypes| ==> StartsWith(ForOfIds[i + 2], IterableTypes[i])
  {
    TypedArrayIteratorPrefixesLow();
    TypedArrayIteratorPrefixesHigh();
    CollectionIteratorPrefixes();
  }

  /** The iterable types are distinct catalog names. */
  lemma IterableTypesInCatalog()
    ensures NoDup(IterableTypes)
    ensures forall ty :: ty in IterableTypes ==> ty in Catalog
  {
  }

  /** The for-of list has no duplicate and no falsy identifier. */
  lemma ForOfIdsDistinct()
    ensures NoDup(ForOfIds) && AllTruthy(ForOfIds)
  {
  }

  /** The for-of hook: records, unconditionally, the for-of identifier list. */
  function ForOfFeatures(): (r: seq<Feature>)
    ensures Flatten(r) == ForOfIds
  {
    Singles(ForOfIds)
  }

  /** The identifier hook: a global is recorded only outside a member access,
      when its name is a key of the globals table and no local binding shadows it. */
  function ReferencedIdentifierFeatures(t: Tables, n: Node): (r: seq<Feature>)
    requires n.ReferencedIdentifier?
    ensures r != [] <==> !n.parentIsMember && n.name in t.globals && !n.shadowed
    ensures r != [] ==> r == [t.globals[n.name]]
  {
    if n.parentIsMember then []
    else if n.name !in t.globals then []
    else if n.shadowed then []
    else [t.globals[n.name]]
  }

  /** The call hook: `obj[Symbol.iterator]()` with no arguments records the
      iterator-protocol list; any argument, a non-member callee, a non-computed
      callee or another property records nothing. */
  function CallExpressionFeatures(n: Node): (r: seq<Feature>)
    requires n.CallExpression?
    ensures r != [] <==>
      n.argumentCount == 0 && n.calleeIsMember && n.calleeComputed && n.calleePropertyIsSymbolIterator
    ensures r != [] ==> Flatten(r) == ForOfIds[1..]
  {
    if n.argumentCount != 0 then []
    else if !n.calleeIsMember then []
    else if !n.calleeComputed then []
    else if !n.calleePropertyIsSymbolIterator then []
    else Singles(IteratorProtocolIds)
  }

  /** The binary hook: only `Symbol.iterator in x` records the iterator-protocol list. */
  function BinaryExpressionFeatures(n: Node): (r: seq<Feature>)
    requires n.BinaryExpression?
    ensures r != [] <==> n.operator == "in" && n.leftIsSymbolIterator
    ensures r != [] ==> Flatten(r) == ForOfIds[1..]
  {
    if n.operator != "in" then []
    else if !n.leftIsSymbolIterator then []
    else Singles(IteratorProtocolIds)
  }

  /** The yield hook: only a delegating `yield*` records the iterator-protocol list. */
  function YieldExpressionFeatures(n: Node): (r: seq<Feature>)
    requires n.YieldExpression?
    ensures r != [] <==> n.delegate
    ensures r != [] ==> Flatten(r) == ForOfIds[1..]
  {
    if !n.delegate then [] else Singles(IteratorProtocolIds)
  }

  /** The static-method lookup of the member-enter hook: both the object's name
      and the property's name must be keys. The property's name is read whether
      or not the access is computed. */
  function StaticMethodFeature(t: Tables, objectName: Option<string>, property: Key): (r: Option<Feature>)
    ensures r.Some? <==>
      objectName.Some? && objectName.value in t.staticMethods &&
      property.Ident? && property.name in t.staticMethods[objectName.value]
    ensures r.Some? ==> r.value == t.staticMethods[objectName.value][property.name]
  {
    if objectName.Some? && objectName.value in t.staticMethods then
      var methods := t.staticMethods[objectName.value];
      if property.Ident? && property.name in methods then Some(methods[property.name]) else None
    else None
  }

  /** The instance-method lookup of the member-enter hook: a non-computed
      identifier property, or a computed string-literal key, that is a key of
      the table; otherwise, for a computed access, the confidently folded key. */
  function InstanceMethodFeature(t: Tables, computed: bool, property: Key, folded: Option<string>): (r: Option<Feature>)
    ensures !computed ==> (r.Some? <==> property.Ident? && property.name in t.instanceMethods)
    ensures computed ==> (r.Some? <==>
      (property.StrLit? && property.value in t.instanceMethods) ||
      (folded.Some? && folded.value in t.instanceMethods))
    ensures !computed && property.Ident? && property.name in t.instanceMethods ==>
      r == Some(t.instanceMethods[property.name])
    ensures computed && property.StrLit? && property.value in t.instanceMethods ==>
      r == Some(t.instanceMethods[property.value])
    ensures computed && !(property.StrLit? && property.value in t.instanceMethods) &&
            folded.Some? && folded.value in t.instanceMethods ==>
              r == Some(t.instanceMethods[folded.value])
  {
    if !computed && property.Ident? && property.name in t.instanceMethods then
      Some(t.instanceMethods[property.name])
    else if computed then
      if property.StrLit? && property.value in t.instanceMethods then
        Some(t.instanceMethods[property.value])
      else if folded.Some? && folded.value in t.instanceMethods then
        Some(t.instanceMethods[folded.value])
      else None
    else None
  }

  /** The features of an optional lookup result: none on a miss. */
  function OptionFeatures(o: Option<Feature>): (r: seq<Feature>)
    ensures |r| <= 1 && (r != [] <==> o.Some?)
    ensures o.Some? ==> r == [o.value]
  {
    if o.Some? then [o.value] else []
  }

  /** The member-enter hook: nothing unless the access and its object are
      referenced; then the static-method match, then the instance-method match. */
  function MemberEnterFeatures(t: Tables, n: Node): (r: seq<Feature>)
    requires n.MemberExpression?
    ensures !(n.referenced && n.objectReferenced) ==> r == []
    ensures n.referenced && n.objectReferenced ==>
      r == OptionFeatures(StaticMethodFeature(t, n.objectName, n.property)) +
           OptionFeatures(InstanceMethodFeature(t, n.computed, n.property, n.folded))
  {
    if !n.referenced then []
    else if !n.objectReferenced then []
    else
      OptionFeatures(StaticMethodFeature(t, n.objectName, n.property)) +
      OptionFeatures(InstanceMethodFeature(t, n.computed, n.property, n.folded))
  }

  /** The member-exit hook: the object's global entry, when the access is
      referenced, the object's name is a key of the globals table and no local
      binding shadows it. */
  function MemberExitFeatures(t: Tables, n: Node): (r: seq<Feature>)
    requires n.MemberExpression?
    ensures r != [] <==>
      n.referenced && n.objectName.Some? && n.objectName.value in t.globals && !n.objectShadowed
    ensures r != [] ==> r == [t.globals[n.objectName.value]]
  {
    if !n.referenced then []
    else if !(n.objectName.Some? && n.objectName.value in t.globals) then []
    else if n.objectShadowed then []
    else [t.globals[n.objectName.value]]
  }

  /** The instance-method entries of the identifier keys that are table keys,
      in key order. */
  function KeyFeatures(instanceMethods: map<string, Feature>, keys: seq<Key>): (r: seq<Feature>)
    ensures |r| <= |keys|
    ensures forall k :: k in keys && k.Ident? && k.name in instanceMethods ==> instanceMethods[k.name] in r
    ensures forall f :: f in r ==>
      exists k :: k in keys && k.Ident? && k.name in instanceMethods && f == instanceMethods[k.name]
    decreases |keys|
  {
    if keys == [] then []
    else
      var init, last := keys[..|keys| - 1], keys[|keys| - 1];
      assert forall k :: k in init ==> k in keys;
      KeyFeatures(instanceMethods, init) +
      (if last.Ident? && last.name in instanceMethods then [instanceMethods[last.name]] else [])
  }

  /** The destructuring hook: for a referenced declarator whose id is an object
      pattern and whose initialiser is referenced and not bound locally, the
      instance-method entry of each identifier key. It reads no other table, so
      it never records the initialiser's own global entry. */
  function VariableDeclaratorFeatures(t: Tables, n: Node): (r: seq<Feature>)
    requires n.VariableDeclarator?
    ensures !(n.referenced && n.idIsObjectPattern && n.initReferenced && !n.initShadowed) ==> r == []
    ensures n.referenced && n.idIsObjectPattern && n.initReferenced && !n.initShadowed ==>
      forall k :: k in n.keys && k.Ident? && k.name in t.instanceMethods ==> t.instanceMethods[k.name] in r
    ensures forall f :: f in r ==>
      exists k :: k in n.keys && k.Ident? && k.name in t.instanceMethods && f == t.instanceMethods[k.name]
  {
    if !n.referenced then []
    else if !n.idIsObjectPattern then []
    else if !n.initReferenced then []
    else if n.initShadowed then []
    else KeyFeatures(t.instanceMethods, n.keys)
  }

  /** The literal hooks: each records one fixed constructor name of the
      catalog; BigInt and template literals record nothing. */
  function LiteralId(n: Node): (r: Option<string>)
    ensures r.Some? <==>
      n.ArrayExpression? || n.BooleanLiteral? || n.FunctionDeclaration? || n.FunctionExpression? ||
      n.ObjectExpression? || n.NumericLiteral? || n.RegExpLiteral? || n.StringLiteral?
    ensures n.ArrayExpression? ==> r == Some("Array")
    ensures n.BooleanLiteral? ==> r == Some("Boolean")
    ensures n.FunctionDeclaration? || n.FunctionExpression? ==> r == Some("Function")
    ensures n.ObjectExpression? ==> r == Some("Object")
    ensures n.NumericLiteral? ==> r == Some("Number")
    ensures n.RegExpLiteral? ==> r == Some("RegExp")
    ensures n.StringLiteral? ==> r == Some("String")
  {
    match n
    case ArrayExpression => Some("Array")
    case BooleanLiteral => Some("Boolean")
    case FunctionDeclaration => Some("Function")
    case FunctionExpression => Some("Function")
    case ObjectExpression => Some("Object")
    case NumericLiteral => Some("Number")
    case RegExpLiteral => Some("RegExp")
    case StringLiteral => Some("String")
    case _ => None
  }

  /** Each literal hook's name is a (truthy) name of the pruning catalog. */
  lemma LiteralIdInCatalog(n: Node)
    ensures LiteralId(n).Some? ==> LiteralId(n).value in Catalog && Truthy(LiteralId(n).value)
  {
    match n
    case ArrayExpression => assert Catalog[9] == "Array";
    case BooleanLiteral => assert Catalog[11] == "Boolean";
    case FunctionDeclaration => assert Catalog[16] == "Function";
    case FunctionExpression => assert Catalog[16] == "Function";
    case ObjectExpression => assert Catalog[20] == "Object";
    case NumericLiteral => assert Catalog[21] == "Number";
    case RegExpLiteral => assert Catalog[27] == "RegExp";
    case StringLiteral => assert Catalog[30] == "String";
    case _ =>
  }

  /** What the visitor records on entering a node. */
  function EnterFeatures(t: Tables, n: Node): (r: seq<Feature>)
    ensures n.BigIntLiteral? || n.TemplateLiteral? || n.OtherNode? ==> r == []
    ensures LiteralId(n).Some? ==> r == [Id(LiteralId(n).value)]
  {
    match n
    case ForOfStatement => ForOfFeatures()
    case ReferencedIdentifier(_, _, _) => ReferencedIdentifierFeatures(t, n)
    case CallExpression(_, _, _, _) => CallExpressionFeatures(n)
    case BinaryExpression(_, _) => BinaryExpressionFeatures(n)
    case YieldExpression(_) => YieldExpressionFeatures(n)
    case MemberExpression(_, _, _, _, _, _, _) => MemberEnterFeatures(t, n)
    case VariableDeclarator(_, _, _, _, _) => VariableDeclaratorFeatures(t, n)
    case BigIntLiteral => []
    case TemplateLiteral => []
    case OtherNode => []
    case _ => [Id(LiteralId(n).value)]
  }

  /** What the visitor records on leaving a node: only member accesses have an exit hook. */
  function ExitFeatures(t: Tables, n: Node): (r: seq<Feature>)
    ensures !n.MemberExpression? ==> r == []
    ensures n.MemberExpression? ==> (r != [] <==>
      n.referenced && n.objectName.Some? && n.objectName.value in t.globals && !n.objectShadowed)
  {
    if n.MemberExpression? then MemberExitFeatures(t, n) else []
  }

  /** What the visitor records for one traversal event. */
  function EventFeatures(t: Tables, e: Event): (r: seq<Feature>)
    ensures e.Exit? && !e.node.MemberExpression? ==> r == []
    ensures e.Enter? && LiteralId(e.node).Some? ==> r == [Id(LiteralId(e.node).value)]
  {
    match e
    case Enter(n) => EnterFeatures(t, n)
    case Exit(n) => ExitFeatures(t, n)
  }
}
