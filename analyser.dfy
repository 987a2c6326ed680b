/** One run of the analyser: `pre` creates an empty set, the visitor records
    into it for every traversal event, and `post` prunes it. */
module Analyser {
  import opened Recorder
  import opened Pruner
  import opened Hooks

  /** The set after recording the features of `events`, in order, into `s`. */
  function Collect(t: Tables, s: seq<string>, events: seq<Event>): (r: seq<string>)
    ensures |s| <= |r| && r[..|s|] == s
    ensures NoDup(s) && AllTruthy(s) ==> NoDup(r) && AllTruthy(r)
    decreases |events|
  {
    if events == [] then s
    else Collect(t, AddAll(s, Flatten(EventFeatures(t, events[0]))), events[1..])
  }

  /** The identifiers a run over `events` leaves in the set: collected from an
      empty set, then pruned. */
  function Analysis(t: Tables, events: seq<Event>): (r: seq<string>)
    ensures NoDup(r) && AllTruthy(r)
  {
    Prune(Collect(t, [], events), Catalog)
  }

  /** Every identifier the hooks pass to `recordEsRuntimeFeature` over
      `events`, in call order, duplicates and falsy values included. */
  function AllIds(t: Tables, events: seq<Event>): (r: seq<string>)
    decreases |events|
  {
    if events == [] then [] else Flatten(EventFeatures(t, events[0])) + AllIds(t, events[1..])
  }

  /** Visiting `events` is one run of `record` calls over every identifier
      the hooks pass, in traversal and call order. */
  lemma {:induction false} CollectIsAddAll(t: Tables, s: seq<string>, events: seq<Event>)
    ensures Collect(t, s, events) == AddAll(s, AllIds(t, events))
    decreases |events|
  {
    if events != [] {
      var first := Flatten(EventFeatures(t, events[0]));
      CollectIsAddAll(t, AddAll(s, first), events[1..]);
      AddAllAppend(s, first, AllIds(t, events[1..]));
    }
  }

  /** The set collected from an empty start is the insertion-ordered set of
      every identifier the hooks pass: each truthy one once, at its first
      occurrence in the traversal. */
  lemma CollectIsFirstOccurrences(t: Tables, events: seq<Event>)
    ensures Collect(t, [], events) == FirstOccurrences(AllIds(t, events))
    ensures forall x :: x in Collect(t, [], events) <==> x in AllIds(t, events) && Truthy(x)
  {
    CollectIsAddAll(t, [], events);
    AddAllIsFirstOccurrences([], AllIds(t, events));
    assert [] + AllIds(t, events) == AllIds(t, events);
  }

  /** Every identifier a run leaves was passed by some hook during the traversal. */
  lemma AnalysisFromHooks(t: Tables, events: seq<Event>)
    ensures forall x :: x in Analysis(t, events) ==> x in AllIds(t, events) && Truthy(x)
  {
    CollectIsFirstOccurrences(t, events);
  }

  /** The run's state: the plugin's `builtIns` set. */
  class Analyser {
    const tables: Tables
    var builtIns: seq<string>

    /** The set holds no duplicate and no falsy identifier. */
    ghost predicate Valid()
      reads this
    {
      NoDup(builtIns) && AllTruthy(builtIns)
    }

    constructor (tables: Tables)
      ensures this.tables == tables && builtIns == [] && Valid()
    {
      this.tables := tables;
      builtIns := [];
    }

    /** `pre`: a fresh, empty set. */
    method Pre()
      modifies this
      ensures builtIns == [] && Valid()
    {
      builtIns := [];
    }

    /** `record`: adds a truthy identifier that is not yet present. */
    method Record(id: string)
      requires Valid()
      modifies this
      ensures Valid()
      ensures builtIns == Add(old(builtIns), id)
    {
      if id != "" && id !in builtIns {
        builtIns := builtIns + [id];
      }
    }

    /** `recordEsRuntimeFeature`: a list is recorded element by element, in
        order; a single identifier is recorded as it is. */
    method RecordEsRuntimeFeature(f: Feature)
      requires Valid()
      modifies this
      ensures Valid()
      ensures builtIns == AddAll(old(builtIns), FeatureIds(f))
    {
      match f
      case Ids(xs) =>
        for i := 0 to |xs|
          invariant Valid()
          invariant builtIns == AddAll(old(builtIns), xs[..i])
        {
          Record(xs[i]);
          assert xs[..i + 1][..i] == xs[..i];
        }
        assert xs[..|xs|] == xs;
      case Id(x) =>
        Record(x);
        assert [x][..0] == [];
    }

    /** A hook's successive `recordEsRuntimeFeature` calls, in order. */
    method RecordEach(fs: seq<Feature>)
      requires Valid()
      modifies this
      ensures Valid()
      ensures builtIns == AddAll(old(builtIns), Flatten(fs))
    {
      for i := 0 to |fs|
        invariant Valid()
        invariant builtIns == AddAll(old(builtIns), Flatten(fs[..i]))
      {
        RecordEsRuntimeFeature(fs[i]);
        assert fs[..i + 1] == fs[..i] + [fs[i]];
        FlattenSnoc(fs[..i], fs[i]);
        AddAllAppend(old(builtIns), Flatten(fs[..i]), FeatureIds(fs[i]));
      }
      assert fs[..|fs|] == fs;
    }

    /** The visitor's hook for one traversal event. */
    method Visit(e: Event)
      requires Valid()
      modifies this
      ensures Valid()
      ensures builtIns == AddAll(old(builtIns), Flatten(EventFeatures(tables, e)))
    {
      RecordEach(EventFeatures(tables, e));
    }

    /** The pruning loop over a list of constructor names: for each name
        absent from the current set, the set is replaced by its filter. */
    method PruneBy(catalog: seq<string>)
      requires Valid()
      modifies this
      ensures Valid()
      ensures builtIns == Prune(old(builtIns), catalog)
    {
      for i := 0 to |catalog|
        invariant Valid()
        invariant Prune(builtIns, catalog[i..]) == Prune(old(builtIns), catalog)
      {
        var c := catalog[i];
        assert catalog[i..][0] == c && catalog[i..][1..] == catalog[i + 1..];
        if c !in builtIns {
          builtIns := Without(builtIns, c);
        }
      }
    }

    /** `post`: the pruning loop over the constructor catalog. */
    method Post()
      requires Valid()
      modifies this
      ensures Valid()
      ensures builtIns == Prune(old(builtIns), Catalog)
    {
      PruneBy(Catalog);
    }

    /** A whole run: `pre`, every event in traversal order, then `post`. */
    method Run(events: seq<Event>)
      modifies this
      ensures Valid()
      ensures builtIns == Analysis(tables, events)
    {
      Pre();
      for i := 0 to |events|
        invariant Valid()
        invariant Collect(tables, builtIns, events[i..]) == Collect(tables, [], events)
      {
        assert events[i..][0] == events[i] && events[i..][1..] == events[i + 1..];
        Visit(events[i]);
      }
      Post();
    }
  }

  /** Of the catalog names, only "Symbol" is a prefix of an identifier that
      starts with "Symbol". */
  lemma SymbolCatalogPrefix(x: string, k: nat)
    requires StartsWith(x, "Symbol") && k < |Catalog|
    ensures StartsWith(x, Catalog[k]) ==> Catalog[k] == "Symbol"
  {
    var c := Catalog[k];
    assert x[0] == 'S' && x[1] == 'y' && x[2] == 'm' by { assert x[..6] == "Symbol"; }
    if k != 31 {
      if c[0] != 'S' {
        NotStartsWithAt(x, c, 0);
      } else if c[1] != 'y' {
        NotStartsWithAt(x, c, 1);
      } else {
        NotStartsWithAt(x, c, 2);
      }
    }
  }

  /** Of the catalog names, only "String" is a prefix of an identifier that
      starts with "String". */
  lemma StringCatalogPrefix(x: string, k: nat)
    requires StartsWith(x, "String") && k < |Catalog|
    ensures StartsWith(x, Catalog[k]) ==> Catalog[k] == "String"
  {
    var c := Catalog[k];
    assert x[0] == 'S' && x[1] == 't' by { assert x[..6] == "String"; }
    if k != 30 {
      if c[0] != 'S' {
        NotStartsWithAt(x, c, 0);
      } else {
        NotStartsWithAt(x, c, 1);
      }
    }
  }

  /** Every catalog prefix of "Symbol" or "Symbol.iterator" is one of the two
      (it is "Symbol"). */
  lemma SymbolPairClosed()
    ensures forall x, k :: x in ["Symbol", "Symbol.iterator"] && 0 <= k < |Catalog| && StartsWith(x, Catalog[k]) ==>
      Catalog[k] in ["Symbol", "Symbol.iterator"]
  {
    forall x, k | x in ["Symbol", "Symbol.iterator"] && 0 <= k < |Catalog| && StartsWith(x, Catalog[k])
      ensures Catalog[k] in ["Symbol", "Symbol.iterator"]
    {
      SymbolCatalogPrefix(x, k);
    }
  }

  /** No iterable type is in the for-of list. */
  lemma IterableTypesNotRecordedByForOf()
    ensures forall ty :: ty in IterableTypes ==> ty !in ForOfIds
  {
  }

  /** "Symbol" is not in the iterator-protocol list. */
  lemma SymbolNotInProtocolIds()
    ensures "Symbol" !in IteratorProtocolIds
  {
  }

  /** Recording the features of a single event into the empty set yields its
      identifiers, when they are distinct and truthy. */
  lemma CollectOne(t: Tables, e: Event)
    requires NoDup(Flatten(EventFeatures(t, e))) && AllTruthy(Flatten(EventFeatures(t, e)))
    ensures Collect(t, [], [e]) == Flatten(EventFeatures(t, e))
  {
    var ids := Flatten(EventFeatures(t, e));
    assert [e][1..] == [];
    AddAllIsFirstOccurrences([], ids);
    assert [] + ids == ids;
    FirstOccurrencesOfSet(ids);
  }

  /** The for-of hook alone records its list, in order. */
  lemma ForOfCollected(t: Tables)
    ensures Collect(t, [], [Enter(ForOfStatement)]) == ForOfIds
  {
    ForOfIdsDistinct();
    CollectOne(t, Enter(ForOfStatement));
  }

  /** After "Symbol" and "Symbol.iterator", each for-of identifier starts with
      an iterable type that is a catalog name absent from the list. */
  lemma ForOfRestOwned()
    ensures |ForOfIds[2..]| == |IterableTypes|
    ensures forall j :: 0 <= j < |IterableTypes| ==>
      IterableTypes[j] in Catalog && IterableTypes[j] !in ForOfIds && StartsWith(ForOfIds[2..][j], IterableTypes[j])
  {
    IteratorIdsShape();
    IterableTypesInCatalog();
    IterableTypesNotRecordedByForOf();
    SymbolNotInProtocolIds();
  }

  /** Pruning the for-of list keeps "Symbol" and "Symbol.iterator" only. */
  lemma ForOfPruned()
    ensures Prune(ForOfIds, Catalog) == ["Symbol", "Symbol.iterator"]
  {
    var head, rest := ForOfIds[..2], ForOfIds[2..];
    assert head == ["Symbol", "Symbol.iterator"] && head + rest == ForOfIds;
    SymbolPairClosed();
    ForOfRestOwned();
    PruneLeavesHead(head, rest, IterableTypes, Catalog);
  }

  /** A `for (x of y) {}` and nothing else: "Symbol" is recorded, so it and
      "Symbol.iterator" survive, while every `<T>.prototype[@@iterator]` is
      dropped because no type `T` is recorded. */
  lemma ForOfAloneKeepsSymbol(t: Tables)
    ensures Analysis(t, [Enter(ForOfStatement)]) == ["Symbol", "Symbol.iterator"]
  {
    ForOfCollected(t);
    ForOfPruned();
  }

  /** The iterator-protocol list has no duplicate and no falsy identifier. */
  lemma ProtocolIdsDistinct()
    ensures NoDup(IteratorProtocolIds) && AllTruthy(IteratorProtocolIds)
  {
    ForOfIdsDistinct();
    IteratorIdsShape();
    var s := IteratorProtocolIds;
    forall i, j | 0 <= i < j < |s| ensures s[i] != s[j] {
      assert s[i] == ForOfIds[i + 1] && s[j] == ForOfIds[j + 1];
    }
    assert forall x :: x in s ==> x in ForOfIds;
  }

  /** An iterator-protocol hook that fires alone records the protocol list. */
  lemma ProtocolCollected(t: Tables, n: Node)
    requires n.CallExpression? || n.BinaryExpression? || n.YieldExpression?
    requires EnterFeatures(t, n) != []
    ensures Collect(t, [], [Enter(n)]) == IteratorProtocolIds
  {
    ProtocolIdsDistinct();
    CollectOne(t, Enter(n));
  }

  /** Each iterator-protocol identifier starts with a catalog name absent from
      the list: "Symbol" for "Symbol.iterator", its type for the others. */
  lemma ProtocolIdsOwned()
    ensures |["Symbol"] + IterableTypes| == |IteratorProtocolIds|
    ensures forall j :: 0 <= j < |IteratorProtocolIds| ==>
      (["Symbol"] + IterableTypes)[j] in Catalog && (["Symbol"] + IterableTypes)[j] !in IteratorProtocolIds &&
      StartsWith(IteratorProtocolIds[j], (["Symbol"] + IterableTypes)[j])
  {
    var s, owners := IteratorProtocolIds, ["Symbol"] + IterableTypes;
    IteratorIdsShape();
    IterableTypesInCatalog();
    IterableTypesNotRecordedByForOf();
    SymbolNotInProtocolIds();
    assert "Symbol" in Catalog by { assert Catalog[31] == "Symbol"; }
    forall j | 0 <= j < |s| ensures owners[j] in Catalog && owners[j] !in s && StartsWith(s[j], owners[j]) {
      if j == 0 {
        assert StartsWith(s[0], "Symbol");
      } else {
        assert s[j] == ForOfIds[j + 1] && owners[j] == IterableTypes[j - 1];
        assert forall x :: x in s ==> x in ForOfIds;
      }
    }
  }

  /** Pruning the iterator-protocol list leaves nothing. */
  lemma ProtocolPruned()
    ensures Prune(IteratorProtocolIds, Catalog) == []
  {
    ProtocolIdsOwned();
    assert [] + IteratorProtocolIds == IteratorProtocolIds;
    PruneLeavesHead([], IteratorProtocolIds, ["Symbol"] + IterableTypes, Catalog);
  }

  /** A zero-argument `obj[Symbol.iterator]()`, a `Symbol.iterator in x` or a
      `yield*` and nothing else: "Symbol" is not recorded, so "Symbol.iterator"
      is dropped with every iterator capability and nothing is left. */
  lemma IteratorProtocolAlonePrunesAll(t: Tables, n: Node)
    requires n.CallExpression? || n.BinaryExpression? || n.YieldExpression?
    requires EnterFeatures(t, n) != []
    ensures Analysis(t, [Enter(n)]) == []
  {
    ProtocolCollected(t, n);
    ProtocolPruned();
  }

  /** Every surviving identifier's catalog prefixes were all recorded: an
      identifier is kept only when each constructor it starts with was seen. */
  lemma AnalysisPrefixesRecorded(t: Tables, events: seq<Event>)
    ensures forall x, k :: x in Analysis(t, events) && 0 <= k < |Catalog| && StartsWith(x, Catalog[k]) ==>
      Catalog[k] in Collect(t, [], events)
  {
    var s := Collect(t, [], events);
    forall k | 0 <= k < |Catalog| && Catalog[k] !in s
      ensures forall x :: x in Prune(s, Catalog) ==> !StartsWith(x, Catalog[k])
    {
      PruneRemovesAbsent(s, Catalog, Catalog[k]);
    }
  }

  /** The declarator `var { m } = init` with a referenced, unshadowed initialiser. */
  function Destructuring(m: string): (n: Node)
  {
    VariableDeclarator(true, true, [Ident(m)], true, false)
  }

  /** A `String…` identifier recorded without "String" is pruned away. */
  lemma StringMemberAlonePruned(id: string)
    requires StartsWith(id, "String") && id != "String"
    ensures Prune([id], Catalog) == []
  {
    assert "String" in Catalog by { assert Catalog[30] == "String"; }
    assert [] + [id] == [id];
    PruneLeavesHead([], [id], ["String"], Catalog);
  }

  /** A `String…` identifier recorded with "String" survives, and so does "String". */
  lemma StringMemberWithOwnerKept(id: string)
    requires StartsWith(id, "String")
    ensures Prune([id, "String"], Catalog) == [id, "String"]
  {
    var s := [id, "String"];
    forall x, k | x in s && 0 <= k < |Catalog| && StartsWith(x, Catalog[k]) ensures Catalog[k] in s {
      StringCatalogPrefix(x, k);
    }
    PruneClosedUnchanged(s, Catalog);
  }

  /** `var { m } = String` where only the declarator hook fires (the
      initialiser is not a global of the table), and `m` maps to a
      `String…` identifier: the entry is recorded, but "String" never is, so
      the pruning drops it. */
  lemma DestructuringWithoutOwnerPruned(t: Tables, m: string, id: string)
    requires m in t.instanceMethods && t.instanceMethods[m] == Id(id)
    requires StartsWith(id, "String") && id != "String"
    ensures Analysis(t, [Enter(Destructuring(m))]) == []
  {
    DestructuringFeatures(t, m, id);
    CollectOne(t, Enter(Destructuring(m)));
    StringMemberAlonePruned(id);
  }

  /** Two events are recorded one after the other. */
  lemma CollectTwo(t: Tables, e1: Event, e2: Event)
    ensures Collect(t, [], [e1, e2]) ==
      AddAll(AddAll([], Flatten(EventFeatures(t, e1))), Flatten(EventFeatures(t, e2)))
  {
    var first := AddAll([], Flatten(EventFeatures(t, e1)));
    assert [e1, e2][0] == e1 && [e1, e2][1..] == [e2];
    assert Collect(t, [], [e1, e2]) == Collect(t, first, [e2]);
    assert [e2][0] == e2 && [e2][1..] == [];
    assert Collect(t, first, [e2]) == Collect(t, AddAll(first, Flatten(EventFeatures(t, e2))), []);
  }

  /** Recording two distinct truthy identifiers into the empty set keeps both, in order. */
  lemma RecordTwo(a: string, b: string)
    requires Truthy(a) && Truthy(b) && a != b
    ensures AddAll(AddAll([], [a]), [b]) == [a, b]
  {
    assert [a][..0] == [] && [b][..0] == [];
    assert AddAll([], [a]) == Add([], a) == [a];
    assert AddAll([a], [b]) == Add([a], b) == [a, b];
  }

  /** The destructuring hook on `var { m } = …` records `m`'s table entry. */
  lemma DestructuringFeatures(t: Tables, m: string, id: string)
    requires m in t.instanceMethods && t.instanceMethods[m] == Id(id)
    ensures Flatten(EventFeatures(t, Enter(Destructuring(m)))) == [id]
  {
    assert EventFeatures(t, Enter(Destructuring(m))) == [Id(id)];
    assert Flatten([Id(id)]) == [id];
  }

  /** An unshadowed global identifier outside a member access records its entry. */
  lemma GlobalFeatures(t: Tables, name: string, id: string)
    requires name in t.globals && t.globals[name] == Id(id)
    ensures Flatten(EventFeatures(t, Enter(ReferencedIdentifier(name, false, false)))) == [id]
  {
    assert EventFeatures(t, Enter(ReferencedIdentifier(name, false, false))) == [Id(id)];
    assert Flatten([Id(id)]) == [id];
  }

  /** The declarator and then its initialiser, visited as a global identifier
      mapped to "String", record the entry and then "String". */
  lemma DestructuringWithOwnerCollected(t: Tables, m: string, id: string)
    requires m in t.instanceMethods && t.instanceMethods[m] == Id(id)
    requires "String" in t.globals && t.globals["String"] == Id("String")
    requires id != "String" && id != ""
    ensures Collect(t, [], [Enter(Destructuring(m)), Enter(ReferencedIdentifier("String", false, false))]) ==
      [id, "String"]
  {
    CollectTwo(t, Enter(Destructuring(m)), Enter(ReferencedIdentifier("String", false, false)));
    DestructuringFeatures(t, m, id);
    GlobalFeatures(t, "String", "String");
    RecordTwo(id, "String");
  }

  /** `var { m } = String` where the initialiser is also visited as a global
      identifier mapped to "String": both the `String…` entry and "String"
      survive the pruning, in traversal order. */
  lemma DestructuringWithOwnerKept(t: Tables, m: string, id: string)
    requires m in t.instanceMethods && t.instanceMethods[m] == Id(id)
    requires "String" in t.globals && t.globals["String"] == Id("String")
    requires StartsWith(id, "String") && id != "String"
    ensures Analysis(t, [Enter(Destructuring(m)), Enter(ReferencedIdentifier("String", false, false))]) ==
      [id, "String"]
  {
    DestructuringWithOwnerCollected(t, m, id);
    StringMemberWithOwnerKept(id);
  }

  /** A literal hook records exactly its one constructor name; the others
      record nothing on entry. */
  lemma LiteralFeatures(t: Tables, n: Node)
    requires LiteralId(n).Some?
    ensures Flatten(EventFeatures(t, Enter(n))) == [LiteralId(n).value]
  {
    assert EventFeatures(t, Enter(n)) == [Id(LiteralId(n).value)];
    assert Flatten([Id(LiteralId(n).value)]) == [LiteralId(n).value];
  }

  /** A literal hook that fires alone records its constructor name. */
  lemma LiteralCollected(t: Tables, n: Node)
    requires LiteralId(n).Some?
    ensures Collect(t, [], [Enter(n)]) == [LiteralId(n).value]
  {
    LiteralFeatures(t, n);
    assert LiteralId(n).value != "";
    CollectOne(t, Enter(n));
  }

  /** A catalog name recorded alone survives the pruning when no other catalog
      name is a prefix of it. */
  lemma LoneNameKept(name: string)
    requires forall k :: 0 <= k < |Catalog| && StartsWith(name, Catalog[k]) ==> Catalog[k] == name
    ensures Prune([name], Catalog) == [name]
  {
    PruneClosedUnchanged([name], Catalog);
  }

  /** A literal hook that fires alone records its constructor name, which
      survives the pruning when no other catalog name is a prefix of it. */
  lemma LiteralAloneKept(t: Tables, n: Node, name: string)
    requires LiteralId(n) == Some(name)
    requires forall k :: 0 <= k < |Catalog| && StartsWith(name, Catalog[k]) ==> Catalog[k] == name
    ensures Analysis(t, [Enter(n)]) == [name]
  {
    LiteralCollected(t, n);
    LoneNameKept(name);
  }

  /** Of the catalog names, only "Array" itself is a prefix of "Array":
      "ArrayBuffer" is longer. */
  lemma ArrayCatalogPrefix(k: nat)
    requires k < |Catalog|
    ensures StartsWith("Array", Catalog[k]) ==> Catalog[k] == "Array"
  {
    var c := Catalog[k];
    if k != 9 {
      if c[0] != 'A' {
        NotStartsWithAt("Array", c, 0);
      } else {
        NotStartsWithAt("Array", c, 5);
      }
    }
  }

  /** An array literal alone leaves exactly "Array". */
  lemma ArrayLiteralAloneKept(t: Tables)
    ensures Analysis(t, [Enter(ArrayExpression)]) == ["Array"]
  {
    forall k | 0 <= k < |Catalog| && StartsWith("Array", Catalog[k]) ensures Catalog[k] == "Array" {
      ArrayCatalogPrefix(k);
    }
    LiteralAloneKept(t, ArrayExpression, "Array");
  }

  /** A string literal alone leaves exactly "String". */
  lemma StringLiteralAloneKept(t: Tables)
    ensures Analysis(t, [Enter(StringLiteral)]) == ["String"]
  {
    forall k | 0 <= k < |Catalog| && StartsWith("String", Catalog[k]) ensures Catalog[k] == "String" {
      StringCatalogPrefix("String", k);
    }
    LiteralAloneKept(t, StringLiteral, "String");
  }

  /** Of the catalog names, only "Number" itself is a prefix of "Number". */
  lemma NumberCatalogPrefix(k: nat)
    requires k < |Catalog|
    ensures StartsWith("Number", Catalog[k]) ==> Catalog[k] == "Number"
  {
    var c := Catalog[k];
    if k != 21 {
      NotStartsWithAt("Number", c, 0);
    }
  }

  /** A numeric, a string and an array literal, in that order. */
  const ThreeLiterals: seq<Event> := [Enter(NumericLiteral), Enter(StringLiteral), Enter(ArrayExpression)]

  /** The three literal hooks pass "Number", "String" and "Array", in order. */
  lemma ThreeLiteralsIds(t: Tables)
    ensures AllIds(t, ThreeLiterals) == ["Number", "String", "Array"]
  {
    var e := ThreeLiterals;
    LiteralFeatures(t, NumericLiteral);
    LiteralFeatures(t, StringLiteral);
    LiteralFeatures(t, ArrayExpression);
    assert e[1..] == [Enter(StringLiteral), Enter(ArrayExpression)];
    assert e[1..][1..] == [Enter(ArrayExpression)];
    assert e[1..][1..][1..] == [];
  }

  /** When the hooks pass no identifier twice and none is falsy, a traversal
      records exactly what they pass. */
  lemma CollectDistinct(t: Tables, events: seq<Event>, ids: seq<string>)
    requires AllIds(t, events) == ids && NoDup(ids) && AllTruthy(ids)
    ensures Collect(t, [], events) == ids
  {
    CollectIsFirstOccurrences(t, events);
    FirstOccurrencesOfSet(ids);
  }

  /** The three literals collect their names, in traversal order. */
  lemma ThreeLiteralsCollected(t: Tables)
    ensures Collect(t, [], ThreeLiterals) == ["Number", "String", "Array"]
  {
    ThreeLiteralsIds(t);
    CollectDistinct(t, ThreeLiterals, ["Number", "String", "Array"]);
  }

  /** The three names are each their own only catalog prefix, so the pruning
      keeps them all. */
  lemma ThreeNamesKept()
    ensures Prune(["Number", "String", "Array"], Catalog) == ["Number", "String", "Array"]
  {
    var s := ["Number", "String", "Array"];
    forall x, k | x in s && 0 <= k < |Catalog| && StartsWith(x, Catalog[k]) ensures Catalog[k] in s {
      if x == "Number" {
        NumberCatalogPrefix(k);
      } else if x == "String" {
        StringCatalogPrefix(x, k);
      } else {
        ArrayCatalogPrefix(k);
      }
    }
    PruneClosedUnchanged(s, Catalog);
  }

  /** A numeric, a string and an array literal leave exactly
      ["Number", "String", "Array"]: each name is recorded, so nothing is pruned. */
  lemma ThreeLiteralsKept(t: Tables)
    ensures Analysis(t, ThreeLiterals) == ["Number", "String", "Array"]
  {
    ThreeLiteralsCollected(t);
    ThreeNamesKept();
  }

  /** A set holding "Symbol" and "Symbol.iterator" keeps both through a
      pruning whose catalog prefixes of the two are among them. */
  lemma SymbolPairKept(s: seq<string>, catalog: seq<string>)
    requires "Symbol" in s && "Symbol.iterator" in s
    requires forall x, k :: x in ["Symbol", "Symbol.iterator"] && 0 <= k < |catalog| && StartsWith(x, catalog[k]) ==>
      catalog[k] in ["Symbol", "Symbol.iterator"]
    ensures "Symbol" in Prune(s, catalog) && "Symbol.iterator" in Prune(s, catalog)
  {
    PruneKeeps(s, catalog, ["Symbol", "Symbol.iterator"]);
  }

  /** A firing iterator-protocol hook followed by the exit of the member access
      `Symbol.iterator` passes both "Symbol.iterator" and "Symbol". */
  lemma ProtocolWithSymbolAccessIds(t: Tables, n: Node, m: Node)
    requires n.CallExpression? || n.BinaryExpression? || n.YieldExpression?
    requires EnterFeatures(t, n) != []
    requires m.MemberExpression? && m.referenced && !m.objectShadowed
    requires m.objectName == Some("Symbol") && "Symbol" in t.globals && t.globals["Symbol"] == Id("Symbol")
    ensures "Symbol" in AllIds(t, [Enter(n), Exit(m)])
    ensures "Symbol.iterator" in AllIds(t, [Enter(n), Exit(m)])
  {
    var events := [Enter(n), Exit(m)];
    assert events[0] == Enter(n) && events[1..] == [Exit(m)] && [Exit(m)][1..] == [];
    assert Flatten(EventFeatures(t, Exit(m))) == ["Symbol"];
    assert Flatten(EventFeatures(t, Enter(n))) == ForOfIds[1..];
    assert ForOfIds[1..][0] == "Symbol.iterator";
    assert AllIds(t, [Exit(m)]) == ["Symbol"] + AllIds(t, []);
    assert AllIds(t, events) == ForOfIds[1..] + AllIds(t, [Exit(m)]);
  }

  /** Whenever the hooks pass both "Symbol" and "Symbol.iterator", both survive the run. */
  lemma SymbolPairInAnalysis(t: Tables, events: seq<Event>)
    requires "Symbol" in AllIds(t, events) && "Symbol.iterator" in AllIds(t, events)
    ensures "Symbol" in Analysis(t, events) && "Symbol.iterator" in Analysis(t, events)
  {
    CollectIsFirstOccurrences(t, events);
    SymbolPairClosed();
    SymbolPairKept(Collect(t, [], events), Catalog);
  }

  /** In source text, `obj[Symbol.iterator]()` or `Symbol.iterator in x` also
      visits the member access `Symbol.iterator`, whose exit hook records the
      global entry of `Symbol`. Together with a firing iterator-protocol hook,
      that keeps both "Symbol" and "Symbol.iterator". */
  lemma ProtocolWithSymbolAccessKeepsPair(t: Tables, n: Node, m: Node)
    requires n.CallExpression? || n.BinaryExpression? || n.YieldExpression?
    requires EnterFeatures(t, n) != []
    requires m.MemberExpression? && m.referenced && !m.objectShadowed
    requires m.objectName == Some("Symbol") && "Symbol" in t.globals && t.globals["Symbol"] == Id("Symbol")
    ensures "Symbol" in Analysis(t, [Enter(n), Exit(m)])
    ensures "Symbol.iterator" in Analysis(t, [Enter(n), Exit(m)])
  {
    ProtocolWithSymbolAccessIds(t, n, m);
    SymbolPairInAnalysis(t, [Enter(n), Exit(m)]);
  }
}
