/** Sorting by a string key, as sort.Strings and sort.Slice order their results. */
module Sorting {
  import opened Text

  function Insert<T>(x: T, xs: seq<T>, key: T -> string): seq<T> {
    if xs == [] || AtMost(key(x), key(xs[0])) then [x] + xs else [xs[0]] + Insert(x, xs[1..], key)
  }

  function Sort<T>(xs: seq<T>, key: T -> string): seq<T> {
    if xs == [] then [] else Insert(xs[0], Sort(xs[1..], key), key)
  }

  ghost predicate Ordered<T>(xs: seq<T>, key: T -> string) {
    forall i, j :: 0 <= i < j < |xs| ==> AtMost(key(xs[i]), key(xs[j]))
  }

  lemma AtMostTransitive(a: string, b: string, c: string)
    requires AtMost(a, b) && AtMost(b, c)
    ensures AtMost(a, c)
  {
    if Below(c, a) {
      BelowTotal(a, b);
      BelowTotal(b, c);
      if a != b { BelowTransitive(c, a, b); }
    }
  }

  lemma {:induction false} InsertIsOrdered<T>(x: T, xs: seq<T>, key: T -> string)
    requires Ordered(xs, key)
    ensures Ordered(Insert(x, xs, key), key)
    ensures multiset(Insert(x, xs, key)) == multiset(xs) + multiset{x}
  {
    if xs == [] {
    } else if AtMost(key(x), key(xs[0])) {
      forall j | 0 <= j < |xs| ensures AtMost(key(x), key(xs[j])) {
        if j > 0 { AtMostTransitive(key(x), key(xs[0]), key(xs[j])); }
      }
    } else {
      InsertIsOrdered(x, xs[1..], key);
      var rest := Insert(x, xs[1..], key);
      assert xs == [xs[0]] + xs[1..];
      forall j | 0 <= j < |rest| ensures AtMost(key(xs[0]), key(rest[j])) {
        assert rest[j] in multiset(rest);
        assert rest[j] == x || rest[j] in xs[1..];
        BelowAsymmetric(key(xs[0]), key(x));
      }
    }
  }

  lemma BelowAsymmetric(a: string, b: string)
    ensures Below(a, b) ==> AtMost(a, b)
  {
    if Below(a, b) && Below(b, a) {
      BelowTransitive(a, b, a);
      BelowIrreflexive(a);
    }
  }

  /** A sorted sequence is an ordered permutation. */
  lemma {:induction false} SortIsOrdered<T>(xs: seq<T>, key: T -> string)
    ensures Ordered(Sort(xs, key), key)
    ensures multiset(Sort(xs, key)) == multiset(xs)
  {
    if xs != [] {
      SortIsOrdered(xs[1..], key);
      InsertIsOrdered(xs[0], Sort(xs[1..], key), key);
      assert xs == [xs[0]] + xs[1..];
    }
  }

  lemma SortKeepsElements<T>(xs: seq<T>, key: T -> string)
    ensures |Sort(xs, key)| == |xs|
    ensures forall x :: x in Sort(xs, key) <==> x in xs
  {
    SortIsOrdered(xs, key);
    assert |multiset(Sort(xs, key))| == |multiset(xs)|;
    forall x ensures x in Sort(xs, key) <==> x in xs {
      assert x in multiset(Sort(xs, key)) <==> x in multiset(xs);
    }
  }

  ghost predicate DistinctKeys<T>(xs: seq<T>, key: T -> string) {
    forall i, j :: 0 <= i < j < |xs| ==> key(xs[i]) != key(xs[j])
  }

  lemma {:induction false} DistinctKeysCountOnce<T>(xs: seq<T>, key: T -> string, x: T)
    requires DistinctKeys(xs, key)
    ensures multiset(xs)[x] <= 1
  {
    if xs != [] {
      DistinctKeysCountOnce(xs[1..], key, x);
      assert xs == [xs[0]] + xs[1..];
      if x == xs[0] { assert x !in xs[1..]; }
    }
  }

  lemma RepeatedCountsTwice<T>(xs: seq<T>, i: nat, j: nat)
    requires i < j < |xs| && xs[i] == xs[j]
    ensures multiset(xs)[xs[i]] >= 2
  {
    assert xs == xs[..j] + [xs[j]] + xs[j + 1..];
    assert xs[i] in xs[..j];
  }

  /** With distinct keys the order is strict. */
  lemma SortIsStrict<T>(xs: seq<T>, key: T -> string)
    requires DistinctKeys(xs, key)
    ensures var sorted := Sort(xs, key);
            forall i, j :: 0 <= i < j < |sorted| ==> Below(key(sorted[i]), key(sorted[j]))
  {
    var sorted := Sort(xs, key);
    SortIsOrdered(xs, key);
    SortKeepsElements(xs, key);
    forall i, j | 0 <= i < j < |sorted| ensures Below(key(sorted[i]), key(sorted[j])) {
      BelowTotal(key(sorted[i]), key(sorted[j]));
      if key(sorted[i]) == key(sorted[j]) {
        assert sorted[i] in multiset(xs) && sorted[j] in multiset(xs);
        RepeatedCountsTwice(sorted, i, j);
        DistinctKeysCountOnce(xs, key, sorted[i]);
        assert false;
      }
    }
  }
}
