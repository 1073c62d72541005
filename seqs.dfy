/** Sequence operations the source performs with `filter(Boolean)`,
    `Set`-based de-duplication and `flat()`. */
module Seqs {
  import opened Wrappers

  /** `xs.filter(Boolean)` over results that are either a value or null:
      the present values, in their original order. */
  function Survivors<T>(xs: seq<Option<T>>): (r: seq<T>)
    ensures |r| <= |xs|
    decreases |xs|
  {
    if xs == [] then []
    else
      var last := xs[|xs| - 1];
      Survivors(xs[..|xs| - 1]) + if last.Some? then [last.value] else []
  }

  /** Filtering distributes over concatenation, so survivors keep the order of
      the list they came from. */
  lemma {:induction false} SurvivorsAppend<T>(a: seq<Option<T>>, b: seq<Option<T>>)
    ensures Survivors(a + b) == Survivors(a) + Survivors(b)
    decreases |b|
  {
    if b == [] {
      assert a + b == a;
    } else {
      var b' := b[..|b| - 1];
      assert (a + b)[..|a + b| - 1] == a + b';
      SurvivorsAppend(a, b');
    }
  }

  /** A list of nulls has no survivors. */
  lemma {:induction false} SurvivorsAbsent<T>(xs: seq<Option<T>>)
    requires forall i :: 0 <= i < |xs| ==> xs[i].None?
    ensures Survivors(xs) == []
    decreases |xs|
  {
    if xs != [] {
      SurvivorsAbsent(xs[..|xs| - 1]);
    }
  }

  /** A value survives exactly when it was present in the list. */
  lemma {:induction false} SurvivorsMember<T>(xs: seq<Option<T>>, x: T)
    ensures x in Survivors(xs) <==> Some(x) in xs
    decreases |xs|
  {
    if xs != [] {
      var init := xs[..|xs| - 1];
      SurvivorsMember(init, x);
      assert xs == init + [xs[|xs| - 1]];
    }
  }

  /** The keys of the elements of `s`. */
  function KeysOf<T(==), K>(s: seq<T>, key: T -> K): set<K> {
    set x | x in s :: key(x)
  }

  lemma KeysOfSnoc<T, K>(s: seq<T>, x: T, key: T -> K)
    ensures KeysOf(s + [x], key) == KeysOf(s, key) + {key(x)}
  {
    forall k | k in KeysOf(s + [x], key) ensures k in KeysOf(s, key) + {key(x)} {
      var y :| y in s + [x] && key(y) == k;
      if y != x { assert y in s; }
    }
  }

  /** The position of the first element of `s` whose key is `k`. */
  function FirstWith<T(==), K(==)>(s: seq<T>, key: T -> K, k: K): (i: nat)
    requires k in KeysOf(s, key)
    ensures i < |s| && key(s[i]) == k
    ensures forall j :: 0 <= j < i ==> key(s[j]) != k
    decreases |s|
  {
    var init := s[..|s| - 1];
    if k in KeysOf(init, key) then FirstWith(init, key, k)
    else
      assert forall j :: 0 <= j < |s| - 1 ==> s[j] in init;
      |s| - 1
  }

  /** `Array.from(new Set(...))` generalised to a key: keeps, for every key,
      the first element carrying it, in order of first occurrence. */
  function DedupBy<T(==), K(==)>(s: seq<T>, key: T -> K): (r: seq<T>)
    ensures KeysOf(r, key) == KeysOf(s, key)
    ensures |r| <= |s|
    decreases |s|
  {
    if s == [] then []
    else
      var init := s[..|s| - 1];
      var x := s[|s| - 1];
      var d := DedupBy(init, key);
      KeysOfSnoc(init, x, key);
      KeysOfSnoc(d, x, key);
      if key(x) in KeysOf(d, key) then d else d + [x]
  }

  /** Keys of the result are pairwise distinct. */
  lemma {:induction false} DedupByDistinct<T, K>(s: seq<T>, key: T -> K)
    ensures forall i, j :: 0 <= i < j < |DedupBy(s, key)| ==>
      key(DedupBy(s, key)[i]) != key(DedupBy(s, key)[j])
    decreases |s|
  {
    if s != [] {
      var init := s[..|s| - 1];
      DedupByDistinct(init, key);
      var d := DedupBy(init, key);
      assert forall i :: 0 <= i < |d| ==> d[i] in d;
    }
  }

  /** Appending an element does not move the first position of a key
      already present. */
  lemma FirstWithSnoc<T, K>(init: seq<T>, x: T, key: T -> K, k: K)
    requires k in KeysOf(init, key)
    ensures k in KeysOf(init + [x], key)
    ensures FirstWith(init + [x], key, k) == FirstWith(init, key, k)
  {
    KeysOfSnoc(init, x, key);
    assert (init + [x])[..|init|] == init;
  }

  /** Each kept element is the first element of `s` with its key, and the
      kept elements appear in the order of their first occurrence. */
  lemma {:induction false} DedupByFirstOccurrence<T, K>(s: seq<T>, key: T -> K)
    ensures forall i :: 0 <= i < |DedupBy(s, key)| ==>
      DedupBy(s, key)[i] in s &&
      DedupBy(s, key)[i] == s[FirstWith(s, key, key(DedupBy(s, key)[i]))]
    ensures forall i, j :: 0 <= i < j < |DedupBy(s, key)| ==>
      FirstWith(s, key, key(DedupBy(s, key)[i])) < FirstWith(s, key, key(DedupBy(s, key)[j]))
    decreases |s|
  {
    if s != [] {
      var init := s[..|s| - 1];
      var x := s[|s| - 1];
      assert s == init + [x];
      DedupByFirstOccurrence(init, key);
      var d := DedupBy(init, key);
      forall i | 0 <= i < |d|
        ensures key(d[i]) in KeysOf(init, key)
        ensures FirstWith(s, key, key(d[i])) == FirstWith(init, key, key(d[i]))
      {
        assert d[i] in d;
        FirstWithSnoc(init, x, key, key(d[i]));
      }
      if key(x) !in KeysOf(d, key) {
        assert FirstWith(s, key, key(x)) == |s| - 1;
      }
    }
  }

  /** `ss.flat()`. */
  function Flatten<T>(ss: seq<seq<T>>): (r: seq<T>)
    decreases |ss|
  {
    if ss == [] then [] else Flatten(ss[..|ss| - 1]) + ss[|ss| - 1]
  }

  /** An element is in the flattened list exactly when it is in one of the parts. */
  lemma {:induction false} FlattenMember<T>(ss: seq<seq<T>>, x: T)
    ensures x in Flatten(ss) <==> exists i :: 0 <= i < |ss| && x in ss[i]
    decreases |ss|
  {
    if ss != [] {
      var init := ss[..|ss| - 1];
      FlattenMember(init, x);
      assert forall i :: 0 <= i < |init| ==> ss[i] == init[i];
      if x in Flatten(init) {
        var i :| 0 <= i < |init| && x in init[i];
        assert x in ss[i];
      }
    }
  }

  /** Flattening a list with one more part appends that part. */
  lemma FlattenSnoc<T>(ss: seq<seq<T>>, b: seq<T>)
    ensures Flatten(ss + [b]) == Flatten(ss) + b
  {
    assert (ss + [b])[..|ss|] == ss;
  }

  /** Flattening a list with one more part in front prepends that part. */
  lemma {:induction false} FlattenCons<T>(a: seq<T>, ss: seq<seq<T>>)
    ensures Flatten([a] + ss) == a + Flatten(ss)
    decreases |ss|
  {
    if ss == [] {
      assert ([a] + ss)[..0] == [];
    } else {
      var init := ss[..|ss| - 1];
      assert ([a] + ss)[..|ss|] == [a] + init;
      FlattenCons(a, init);
    }
  }

  /** The identity key: deduplicating by it is `Array.from(new Set(s))`. */
  function Identity<T>(x: T): T {
    x
  }

  /** The identity keys of a list are its elements. */
  lemma KeysOfIdentity<T>(s: seq<T>, x: T)
    ensures x in KeysOf(s, Identity) <==> x in s
  {
    if x in s {
      assert Identity(x) in KeysOf(s, Identity);
    }
  }
}
