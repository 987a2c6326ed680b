/** The capability recorder: an insertion-ordered set of capability identifiers,
    modelled as a duplicate-free sequence. `Add` is what one `record` call does
    to the set, `AddAll` what a run of calls does; `FirstOccurrences` is an
    independent description of the same result. */
module Recorder {

  /** The argument of a `recordEsRuntimeFeature` call: one identifier, or a list
      of identifiers recorded one after the other. */
  datatype Feature = Id(id: string) | Ids(ids: seq<string>)

  /** The identifiers a feature stands for, in the order they are recorded. */
  function FeatureIds(f: Feature): (r: seq<string>)
  {
    match f
    case Id(x) => [x]
    case Ids(xs) => xs
  }

  /** The identifiers of a sequence of features, in order. */
  function Flatten(fs: seq<Feature>): (r: seq<string>)
    decreases |fs|
  {
    if fs == [] then [] else Flatten(fs[..|fs| - 1]) + FeatureIds(fs[|fs| - 1])
  }

  /** No identifier occurs twice. */
  predicate NoDup(s: seq<string>)
  {
    forall i, j :: 0 <= i < j < |s| ==> s[i] != s[j]
  }

  /** JavaScript truthiness of a string: only the empty string is falsy. */
  predicate Truthy(id: string)
  {
    id != ""
  }

  /** Every identifier of the set is truthy. */
  predicate AllTruthy(s: seq<string>)
  {
    forall x :: x in s ==> Truthy(x)
  }

  /** One `record` call: a truthy identifier not yet present is appended. */
  function Add(s: seq<string>, id: string): (r: seq<string>)
    ensures |s| <= |r| <= |s| + 1 && r[..|s|] == s
    ensures forall x :: x in r <==> x in s || (x == id && Truthy(id))
    ensures NoDup(s) ==> NoDup(r)
    ensures AllTruthy(s) ==> AllTruthy(r)
  {
    if Truthy(id) && id !in s then s + [id] else s
  }

  /** A run of `record` calls, one per identifier of `ids`, in order. */
  function AddAll(s: seq<string>, ids: seq<string>): (r: seq<string>)
    ensures |s| <= |r| <= |s| + |ids| && r[..|s|] == s
    ensures forall x :: x in r <==> x in s || (x in ids && Truthy(x))
    ensures NoDup(s) ==> NoDup(r)
    ensures AllTruthy(s) ==> AllTruthy(r)
    decreases |ids|
  {
    if ids == [] then s else Add(AddAll(s, ids[..|ids| - 1]), ids[|ids| - 1])
  }

  /** The truthy identifiers of `xs`, each at its first occurrence, in order:
      an insertion-ordered set built from `xs`, defined without `Add`. */
  function FirstOccurrences(xs: seq<string>): (r: seq<string>)
    ensures forall x :: x in r <==> x in xs && Truthy(x)
    ensures NoDup(r)
    decreases |xs|
  {
    if xs == [] then []
    else
      var init, last := xs[..|xs| - 1], xs[|xs| - 1];
      FirstOccurrences(init) + (if Truthy(last) && last !in init then [last] else [])
  }

  /** Dropping the last identifier of a duplicate-free sequence leaves a
      duplicate-free sequence that lacks it. */
  lemma NoDupInit(s: seq<string>)
    requires NoDup(s) && s != []
    ensures NoDup(s[..|s| - 1]) && s[|s| - 1] !in s[..|s| - 1]
  {
    var init := s[..|s| - 1];
    forall k | 0 <= k < |init| ensures init[k] != s[|s| - 1] {
      assert init[k] == s[k];
    }
  }

  /** A duplicate-free sequence of truthy identifiers is its own set. */
  lemma {:induction false} FirstOccurrencesOfSet(s: seq<string>)
    requires NoDup(s) && AllTruthy(s)
    ensures FirstOccurrences(s) == s
    decreases |s|
  {
    if s != [] {
      var init, last := s[..|s| - 1], s[|s| - 1];
      NoDupInit(s);
      assert AllTruthy(init) && Truthy(last) by {
        assert forall x :: x in init ==> x in s;
        assert last in s;
      }
      FirstOccurrencesOfSet(init);
      assert init + [last] == s;
    }
  }

  /** The first occurrences of a sequence extended by one identifier. */
  lemma FirstOccurrencesSnoc(xs: seq<string>, last: string)
    ensures FirstOccurrences(xs + [last]) ==
      FirstOccurrences(xs) + (if Truthy(last) && last !in xs then [last] else [])
  {
    assert (xs + [last])[..|xs|] == xs;
  }

  /** Recording `ids` into a set `s` gives the first occurrences of `s + ids`:
      ids already present and falsy ids are skipped, the rest are appended in
      list order. */
  lemma {:induction false} AddAllIsFirstOccurrences(s: seq<string>, ids: seq<string>)
    requires NoDup(s) && AllTruthy(s)
    ensures AddAll(s, ids) == FirstOccurrences(s + ids)
    decreases |ids|
  {
    if ids == [] {
      assert s + ids == s;
      FirstOccurrencesOfSet(s);
    } else {
      var init, last := ids[..|ids| - 1], ids[|ids| - 1];
      AddAllIsFirstOccurrences(s, init);
      assert s + ids == (s + init) + [last];
      FirstOccurrencesSnoc(s + init, last);
      var prev := FirstOccurrences(s + init);
      assert Truthy(last) ==> (last in prev <==> last in s + init);
      assert AddAll(s, ids) == Add(prev, last);
    }
  }

  /** Recording identifiers that are all present (or falsy) changes nothing. */
  lemma {:induction false} AddAllPresent(t: seq<string>, ids: seq<string>)
    requires forall x :: x in ids ==> !Truthy(x) || x in t
    ensures AddAll(t, ids) == t
    decreases |ids|
  {
    if ids != [] {
      var init := ids[..|ids| - 1];
      assert forall x :: x in init ==> x in ids;
      AddAllPresent(t, init);
      assert ids[|ids| - 1] in ids;
    }
  }

  /** Re-recording the same identifiers is a no-op. */
  lemma AddAllIdempotent(s: seq<string>, ids: seq<string>)
    ensures AddAll(AddAll(s, ids), ids) == AddAll(s, ids)
  {
    AddAllPresent(AddAll(s, ids), ids);
  }

  /** Recording `a` then `b` is recording `a + b`. */
  lemma {:induction false} AddAllAppend(s: seq<string>, a: seq<string>, b: seq<string>)
    ensures AddAll(s, a + b) == AddAll(AddAll(s, a), b)
    decreases |b|
  {
    if b == [] {
      assert a + b == a;
    } else {
      var init := b[..|b| - 1];
      AddAllAppend(s, a, init);
      assert (a + b)[..|a + b| - 1] == a + init;
      assert (a + b)[|a + b| - 1] == b[|b| - 1];
    }
  }

  /** Flattening distributes over one more feature. */
  lemma FlattenSnoc(fs: seq<Feature>, f: Feature)
    ensures Flatten(fs + [f]) == Flatten(fs) + FeatureIds(f)
  {
    assert (fs + [f])[..|fs|] == fs;
  }
}
