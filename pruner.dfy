/** The false-positive pruner run when the traversal ends: for each constructor
    name of a fixed catalog, in order, if that exact name is not in the set, every
    identifier that starts with it (a raw string prefix) is dropped. */
module Pruner {
  import opened Recorder

  /** The constructor catalog, in the order the pruning loop visits it. */
  const Catalog: seq<string> := [
    "Int8Array",
    "Uint8Array",
    "Uint8ClampedArray",
    "Int16Array",
    "Uint16Array",
    "Int32Array",
    "Uint32Array",
    "Float32Array",
    "Float64Array",
    "Array",
    "ArrayBuffer",
    "Boolean",
    "DataView",
    "Date",
    "Error",
    "EvalError",
    "Function",
    "JSON",
    "Map",
    "Math",
    "Object",
    "Number",
    "Promise",
    "Proxy",
    "RangeError",
    "ReferenceError",
    "Reflect",
    "RegExp",
    "Set",
    "SharedArrayBuffer",
    "String",
    "Symbol",
    "SyntaxError",
    "TypeError",
    "URIError",
    "WeakMap",
    "WeakSet"
  ]

  /** `x.startsWith(c)`: a raw string prefix, not a dotted-segment match. */
  predicate StartsWith(x: string, c: string)
  {
    c <= x
  }

  /** `a` is an order-preserving subsequence of `b`. */
  ghost predicate IsSubsequence(a: seq<string>, b: seq<string>)
    decreases |b|
  {
    a == [] ||
    (b != [] && ((a[0] == b[0] && IsSubsequence(a[1..], b[1..])) || IsSubsequence(a, b[1..])))
  }

  /** An identifier survives a list of prefixes when it starts with none of them. */
  predicate Survives(x: string, prefixes: seq<string>)
  {
    forall k :: 0 <= k < |prefixes| ==> !StartsWith(x, prefixes[k])
  }

  /** Surviving a concatenation of prefix lists is surviving both. */
  lemma SurvivesAppend(x: string, p: seq<string>, q: seq<string>)
    ensures Survives(x, p + q) <==> Survives(x, p) && Survives(x, q)
  {
    if Survives(x, p) && Survives(x, q) {
      forall k | 0 <= k < |p + q| ensures !StartsWith(x, (p + q)[k]) {
        if k < |p| { assert (p + q)[k] == p[k]; } else { assert (p + q)[k] == q[k - |p|]; }
      }
    }
    if Survives(x, p + q) {
      forall k | 0 <= k < |p| ensures !StartsWith(x, p[k]) { assert (p + q)[k] == p[k]; }
      forall k | 0 <= k < |q| ensures !StartsWith(x, q[k]) { assert (p + q)[|p| + k] == q[k]; }
    }
  }

  /** Every sequence is a subsequence of itself. */
  lemma {:induction false} SubsequenceReflexive(s: seq<string>)
    ensures IsSubsequence(s, s)
    decreases |s|
  {
    if s != [] {
      SubsequenceReflexive(s[1..]);
    }
  }

  /** The identifiers of `s` that start with none of `prefixes`, in order. */
  function WithoutAny(s: seq<string>, prefixes: seq<string>): (r: seq<string>)
    ensures forall x :: x in r <==> x in s && Survives(x, prefixes)
    ensures NoDup(s) ==> NoDup(r)
    decreases |s|
  {
    if s == [] then []
    else (if Survives(s[0], prefixes) then [s[0]] else []) + WithoutAny(s[1..], prefixes)
  }

  /** Filtering keeps the surviving identifiers in their original order. */
  lemma {:induction false} WithoutAnyIsSubsequence(s: seq<string>, prefixes: seq<string>)
    ensures IsSubsequence(WithoutAny(s, prefixes), s)
    decreases |s|
  {
    if s != [] {
      var rest := WithoutAny(s[1..], prefixes);
      WithoutAnyIsSubsequence(s[1..], prefixes);
      if Survives(s[0], prefixes) {
        var r := [s[0]] + rest;
        assert WithoutAny(s, prefixes) == r;
        assert r[0] == s[0] && r[1..] == rest;
      } else {
        assert WithoutAny(s, prefixes) == rest;
      }
    }
  }

  /** The filter of one pruning step: the identifiers of `s` not starting with `c`. */
  function Without(s: seq<string>, c: string): (r: seq<string>)
    ensures forall x :: x in r <==> x in s && !StartsWith(x, c)
    ensures NoDup(s) ==> NoDup(r)
    decreases |s|
  {
    if s == [] then []
    else (if StartsWith(s[0], c) then [] else [s[0]]) + Without(s[1..], c)
  }

  /** The one-prefix filter is the general filter with a single prefix. */
  lemma {:induction false} WithoutIsWithoutAny(s: seq<string>, c: string)
    ensures Without(s, c) == WithoutAny(s, [c])
    decreases |s|
  {
    if s != [] {
      assert Survives(s[0], [c]) <==> !StartsWith(s[0], c) by {
        assert [c][0] == c;
      }
      WithoutIsWithoutAny(s[1..], c);
    }
  }

  /** One iteration of the pruning loop, for catalog name `c`. */
  function PruneStep(s: seq<string>, c: string): (r: seq<string>)
    ensures c in s ==> r == s
    ensures c !in s ==> forall x :: x in r ==> !StartsWith(x, c)
    ensures forall x :: x in r <==> x in s && (c in s || !StartsWith(x, c))
  {
    if c !in s then Without(s, c) else s
  }

  /** The whole pruning loop over `catalog`, in order. */
  function Prune(s: seq<string>, catalog: seq<string>): (r: seq<string>)
    ensures forall x :: x in r ==> x in s
    ensures NoDup(s) ==> NoDup(r)
    decreases |catalog|
  {
    if catalog == [] then s else Prune(PruneStep(s, catalog[0]), catalog[1..])
  }

  /** The catalog names that are absent from the set when the loop reaches them. */
  function Removed(s: seq<string>, catalog: seq<string>): (r: seq<string>)
    ensures forall c :: c in r ==> c in catalog
    decreases |catalog|
  {
    if catalog == [] then []
    else (if catalog[0] in s then [] else [catalog[0]]) + Removed(PruneStep(s, catalog[0]), catalog[1..])
  }

  /** Filtering twice is filtering once by both lists of prefixes. */
  lemma {:induction false} WithoutAnyTwice(s: seq<string>, p: seq<string>, q: seq<string>)
    ensures WithoutAny(WithoutAny(s, p), q) == WithoutAny(s, p + q)
    decreases |s|
  {
    if s != [] {
      WithoutAnyTwice(s[1..], p, q);
      SurvivesAppend(s[0], p, q);
      var w := WithoutAny(s, p);
      if Survives(s[0], p) {
        assert w == [s[0]] + WithoutAny(s[1..], p);
        assert w[0] == s[0] && w[1..] == WithoutAny(s[1..], p);
      } else {
        assert w == WithoutAny(s[1..], p);
      }
    }
  }

  /** Filtering by prefixes no identifier starts with changes nothing. */
  lemma {:induction false} WithoutAnyNothing(s: seq<string>, prefixes: seq<string>)
    requires forall x :: x in s ==> Survives(x, prefixes)
    ensures WithoutAny(s, prefixes) == s
    decreases |s|
  {
    if s != [] {
      assert s[0] in s;
      assert forall x :: x in s[1..] ==> x in s;
      WithoutAnyNothing(s[1..], prefixes);
    }
  }

  /** The pruning loop is one order-preserving filter: it drops exactly the
      identifiers that start with a catalog name absent when it was reached. */
  lemma {:induction false} PruneIsFilter(s: seq<string>, catalog: seq<string>)
    ensures Prune(s, catalog) == WithoutAny(s, Removed(s, catalog))
    decreases |catalog|
  {
    if catalog == [] {
      WithoutAnyNothing(s, []);
    } else {
      var c := catalog[0];
      var s1 := PruneStep(s, c);
      PruneIsFilter(s1, catalog[1..]);
      if c in s {
        assert Removed(s, catalog) == Removed(s1, catalog[1..]);
      } else {
        WithoutIsWithoutAny(s, c);
        WithoutAnyTwice(s, [c], Removed(s1, catalog[1..]));
      }
    }
  }

  /** The pruned set is an order-preserving subsequence of the recorded set. */
  lemma PruneIsSubsequence(s: seq<string>, catalog: seq<string>)
    ensures IsSubsequence(Prune(s, catalog), s)
  {
    PruneIsFilter(s, catalog);
    WithoutAnyIsSubsequence(s, Removed(s, catalog));
  }

  /** A catalog name absent from the set before pruning is absent when the loop
      reaches it, so it is among the removed prefixes. */
  lemma {:induction false} AbsentIsRemoved(s: seq<string>, catalog: seq<string>, c: string)
    requires c in catalog && c !in s
    ensures c in Removed(s, catalog)
    decreases |catalog|
  {
    if catalog[0] != c {
      AbsentIsRemoved(PruneStep(s, catalog[0]), catalog[1..], c);
    }
  }

  /** For every catalog name C absent from the recorded set, no identifier
      starting with C survives the pruning. */
  lemma PruneRemovesAbsent(s: seq<string>, catalog: seq<string>, c: string)
    requires c in catalog && c !in s
    ensures forall x :: x in Prune(s, catalog) ==> !StartsWith(x, c)
  {
    PruneIsFilter(s, catalog);
    AbsentIsRemoved(s, catalog, c);
    var removed := Removed(s, catalog);
    var k :| 0 <= k < |removed| && removed[k] == c;
    forall x | x in Prune(s, catalog) ensures !StartsWith(x, c) {
      assert Survives(x, removed);
    }
  }

  /** A set in which every catalog name that prefixes an identifier is itself
      present is left as it is by the pruning. */
  lemma {:induction false} PruneClosedUnchanged(s: seq<string>, catalog: seq<string>)
    requires forall x, k :: x in s && 0 <= k < |catalog| && StartsWith(x, catalog[k]) ==> catalog[k] in s
    ensures Prune(s, catalog) == s
    decreases |catalog|
  {
    if catalog != [] {
      var c := catalog[0];
      if c !in s {
        WithoutIsWithoutAny(s, c);
        forall x | x in s ensures Survives(x, [c]) {
          assert [c][0] == c == catalog[0];
        }
        WithoutAnyNothing(s, [c]);
      }
      assert PruneStep(s, c) == s;
      PruneClosedUnchanged(s, catalog[1..]);
    }
  }

  /** Identifiers whose every catalog prefix is itself among them (and
      recorded) all survive the pruning. */
  lemma {:induction false} PruneKeeps(s: seq<string>, catalog: seq<string>, keep: seq<string>)
    requires forall x :: x in keep ==> x in s
    requires forall x, k :: x in keep && 0 <= k < |catalog| && StartsWith(x, catalog[k]) ==> catalog[k] in keep
    ensures forall x :: x in keep ==> x in Prune(s, catalog)
    decreases |catalog|
  {
    if catalog != [] {
      var c := catalog[0];
      assert forall x :: x in keep ==> x in PruneStep(s, c) by {
        forall x | x in keep ensures x in PruneStep(s, c) {
          if c !in s {
            assert c !in keep;
            assert !StartsWith(x, catalog[0]);
          }
        }
      }
      PruneKeeps(PruneStep(s, c), catalog[1..], keep);
    }
  }

  /** Filtering out identifiers that all start with a prefix leaves nothing. */
  lemma {:induction false} WithoutAnyAll(s: seq<string>, prefixes: seq<string>)
    requires forall j :: 0 <= j < |s| ==> !Survives(s[j], prefixes)
    ensures WithoutAny(s, prefixes) == []
    decreases |s|
  {
    if s != [] {
      assert !Survives(s[0], prefixes);
      WithoutAnyAll(s[1..], prefixes);
    }
  }

  /** Identifiers that start with a catalog name absent from the set are
      filtered out by the pruning's removed prefixes. */
  lemma AbsentOwnersRemoved(s: seq<string>, catalog: seq<string>, ids: seq<string>, owners: seq<string>)
    requires |owners| == |ids|
    requires forall j :: 0 <= j < |ids| ==> owners[j] in catalog && owners[j] !in s && StartsWith(ids[j], owners[j])
    ensures forall j :: 0 <= j < |ids| ==> !Survives(ids[j], Removed(s, catalog))
  {
    var removed := Removed(s, catalog);
    forall j | 0 <= j < |ids| ensures !Survives(ids[j], removed) {
      AbsentIsRemoved(s, catalog, owners[j]);
      var k :| 0 <= k < |removed| && removed[k] == owners[j];
    }
  }

  /** When every catalog prefix of `head` is in `head`, and every identifier
      of `rest` starts with a catalog name (its owner) that was never recorded,
      the pruning leaves exactly `head`. */
  lemma PruneLeavesHead(head: seq<string>, rest: seq<string>, owners: seq<string>, catalog: seq<string>)
    requires forall x, k :: x in head && 0 <= k < |catalog| && StartsWith(x, catalog[k]) ==> catalog[k] in head
    requires |owners| == |rest|
    requires forall j :: 0 <= j < |rest| ==>
      owners[j] in catalog && owners[j] !in head + rest && StartsWith(rest[j], owners[j])
    ensures Prune(head + rest, catalog) == head
  {
    var s := head + rest;
    var removed := Removed(s, catalog);
    PruneIsFilter(s, catalog);
    PruneKeeps(s, catalog, head);
    WithoutAnyNothing(head, removed);
    WithoutAnyAppend(head, rest, removed);
    AbsentOwnersRemoved(s, catalog, rest, owners);
    WithoutAnyAll(rest, removed);
  }

  /** A string is not a prefix of another when they differ at some position
      of the first, or the second ends before it. */
  lemma NotStartsWithAt(x: string, c: string, k: nat)
    requires k < |c| && (|x| <= k || c[k] != x[k])
    ensures !StartsWith(x, c)
  {
  }

  /** Filtering distributes over concatenation. */
  lemma {:induction false} WithoutAnyAppend(a: seq<string>, b: seq<string>, prefixes: seq<string>)
    ensures WithoutAny(a + b, prefixes) == WithoutAny(a, prefixes) + WithoutAny(b, prefixes)
    decreases |a|
  {
    if a == [] {
      assert a + b == b;
    } else {
      assert (a + b)[0] == a[0] && (a + b)[1..] == a[1..] + b;
      WithoutAnyAppend(a[1..], b, prefixes);
    }
  }

  /** A prefix of a prefix is a prefix. */
  lemma StartsWithTransitive(x: string, b: string, c: string)
    requires StartsWith(x, b) && StartsWith(b, c)
    ensures StartsWith(x, c)
  {
    assert x[..|c|] == b[..|c|];
  }

  /** An absent catalog name also drops every identifier starting with any
      string it is a prefix of. */
  lemma PruneRemovesExtended(s: seq<string>, catalog: seq<string>, c: string, d: string)
    requires c in catalog && c !in s && StartsWith(d, c)
    ensures forall x :: x in Prune(s, catalog) ==> !StartsWith(x, d)
  {
    PruneRemovesAbsent(s, catalog, c);
    forall x | x in Prune(s, catalog) ensures !StartsWith(x, d) {
      if StartsWith(x, d) {
        StartsWithTransitive(x, d, c);
      }
    }
  }

  /** "Array" comes before "ArrayBuffer" in the catalog and is a raw prefix of it:
      when "Array" is not recorded, every "ArrayBuffer…" identifier is dropped,
      even when "ArrayBuffer" itself is recorded. */
  lemma ArrayAbsentDropsArrayBuffer(s: seq<string>)
    requires "Array" !in s
    ensures forall x :: x in Prune(s, Catalog) ==> !StartsWith(x, "ArrayBuffer")
    ensures "ArrayBuffer" !in Prune(s, Catalog)
  {
    assert "Array" in Catalog by { assert Catalog[9] == "Array"; }
    assert StartsWith("ArrayBuffer", "Array") by { assert "ArrayBuffer"[..5] == "Array"; }
    PruneRemovesExtended(s, Catalog, "Array", "ArrayBuffer");
    assert StartsWith("ArrayBuffer", "ArrayBuffer");
  }
}
