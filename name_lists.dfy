/** Counting and searching member names against a match or ignore list
    (`List<string>.Contains` is sequence membership). */
module NameLists {

  /** Some name of `names` occurs in `list`. */
  predicate AnyIn(names: seq<string>, list: seq<string>)
  {
    exists i | 0 <= i < |names| :: names[i] in list
  }

  /** How many entries of `names` occur in `list`, each entry counted once. */
  function Hits(names: seq<string>, list: seq<string>): (n: nat)
    ensures n <= |names|
    ensures n > 0 <==> AnyIn(names, list)
  {
    if names == [] then 0
    else
      var init := names[..|names| - 1];
      assert forall i | 0 <= i < |init| :: init[i] == names[i];
      Hits(init, list) + (if names[|names| - 1] in list then 1 else 0)
  }

  /** The count equals the number of names exactly when every name is listed. */
  lemma {:induction false} HitsAll(names: seq<string>, list: seq<string>)
    ensures Hits(names, list) == |names| <==> forall i | 0 <= i < |names| :: names[i] in list
    decreases |names|
  {
    if names != [] {
      var init := names[..|names| - 1];
      HitsAll(init, list);
      assert forall i | 0 <= i < |init| :: init[i] == names[i];
    }
  }

  lemma {:induction false} HitsAppend(a: seq<string>, b: seq<string>, list: seq<string>)
    ensures Hits(a + b, list) == Hits(a, list) + Hits(b, list)
    decreases |b|
  {
    if b == [] {
      assert a + b == a;
    } else {
      var b' := b[..|b| - 1];
      HitsAppend(a, b', list);
      assert (a + b)[..|a + b| - 1] == a + b';
    }
  }

  lemma HitsRemoveAt(a: seq<string>, i: nat, list: seq<string>)
    requires i < |a|
    ensures Hits(a, list) == Hits(a[..i] + a[i + 1..], list) + (if a[i] in list then 1 else 0)
  {
    assert a == a[..i] + [a[i]] + a[i + 1..];
    HitsAppend(a[..i] + [a[i]], a[i + 1..], list);
    HitsAppend(a[..i], [a[i]], list);
    HitsAppend(a[..i], a[i + 1..], list);
  }

  lemma MultisetRemoveAt(b: seq<string>, j: nat)
    requires j < |b|
    ensures multiset(b[..j] + b[j + 1..]) == multiset(b) - multiset{b[j]}
  {
    assert b == b[..j] + [b[j]] + b[j + 1..];
  }

  /** The count depends only on which names occur, how often, and not on their order. */
  lemma {:induction false} HitsPermutation(a: seq<string>, b: seq<string>, list: seq<string>)
    requires multiset(a) == multiset(b)
    ensures Hits(a, list) == Hits(b, list)
    decreases |a|
  {
    if a == [] {
      assert |b| == |multiset(b)| == 0;
    } else {
      var n := |a| - 1;
      var x := a[n];
      assert x in multiset(b) by { assert x in a; }
      var j :| 0 <= j < |b| && b[j] == x;
      MultisetRemoveAt(a, n);
      MultisetRemoveAt(b, j);
      assert a[..n] + a[n + 1..] == a[..n];
      HitsPermutation(a[..n], b[..j] + b[j + 1..], list);
      HitsRemoveAt(b, j, list);
      HitsRemoveAt(a, n, list);
    }
  }

  /** Whether some name occurs in `list` likewise ignores order. */
  lemma AnyInPermutation(a: seq<string>, b: seq<string>, list: seq<string>)
    requires multiset(a) == multiset(b)
    ensures AnyIn(a, list) <==> AnyIn(b, list)
  {
    HitsPermutation(a, b, list);
  }
}
