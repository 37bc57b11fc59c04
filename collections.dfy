/** The two comprehension shapes the orchestrator builds its indexes with:
    a filtered list comprehension and a dictionary comprehension. */
module Collections {

  /** `[x for x in xs if p(x)]`: the elements satisfying `p`, in their order. */
  function Filter<T>(xs: seq<T>, p: T -> bool): (r: seq<T>)
    ensures |r| <= |xs|
    ensures forall i :: 0 <= i < |r| ==> r[i] in xs && p(r[i])
    ensures forall i :: 0 <= i < |xs| && p(xs[i]) ==> xs[i] in r
  {
    if xs == [] then [] else (if p(xs[0]) then [xs[0]] else []) + Filter(xs[1..], p)
  }

  /** Filtering keeps every element satisfying `p` as many times as it occurs. */
  lemma {:induction false} FilterCounts<T>(xs: seq<T>, p: T -> bool, x: T)
    ensures multiset(Filter(xs, p))[x] == if p(x) then multiset(xs)[x] else 0
  {
    if xs != [] {
      FilterCounts(xs[1..], p, x);
      assert xs == [xs[0]] + xs[1..];
    }
  }

  /** Filtering distributes over concatenation. */
  lemma {:induction false} FilterConcat<T>(xs: seq<T>, ys: seq<T>, p: T -> bool)
    ensures Filter(xs + ys, p) == Filter(xs, p) + Filter(ys, p)
  {
    if xs != [] {
      FilterConcat(xs[1..], ys, p);
      var head := if p(xs[0]) then [xs[0]] else [];
      assert (xs + ys)[0] == xs[0];
      assert (xs + ys)[1..] == xs[1..] + ys;
      assert Filter(xs + ys, p) == head + Filter(xs[1..] + ys, p);
      assert Filter(xs, p) == head + Filter(xs[1..], p);
    } else {
      assert xs + ys == ys;
    }
  }

  /** No element after position `i` has the key of `xs[i]`. */
  predicate IsLastWithKey<T, K(==)>(xs: seq<T>, key: T -> K, i: nat)
    requires i < |xs|
  {
    forall j :: i < j < |xs| ==> key(xs[j]) != key(xs[i])
  }

  /** `{key(x): val(x) for x in xs}`: one entry per key; where several
      elements share a key the last of them wins (see IndexLastWins). */
  function Index<T, K(==), V>(xs: seq<T>, key: T -> K, val: T -> V): (m: map<K, V>)
    ensures forall i :: 0 <= i < |xs| ==> key(xs[i]) in m
    ensures forall k :: k in m ==> exists i :: 0 <= i < |xs| && key(xs[i]) == k
    decreases |xs|
  {
    if xs == [] then map[]
    else
      var m := Index(xs[..|xs| - 1], key, val);
      assert forall i :: 0 <= i < |xs| - 1 ==> xs[..|xs| - 1][i] == xs[i];
      m[key(xs[|xs| - 1]) := val(xs[|xs| - 1])]
  }

  /** The entry for a key is built from the last element carrying that key. */
  lemma {:induction false} IndexLastWins<T, K, V>(xs: seq<T>, key: T -> K, val: T -> V, i: nat)
    requires i < |xs| && IsLastWithKey(xs, key, i)
    ensures key(xs[i]) in Index(xs, key, val) && Index(xs, key, val)[key(xs[i])] == val(xs[i])
    decreases |xs|
  {
    if i < |xs| - 1 {
      var init := xs[..|xs| - 1];
      assert init[i] == xs[i];
      assert key(xs[|xs| - 1]) != key(xs[i]);
      IndexLastWins(init, key, val, i);
    }
  }

  /** Every entry of the index holds the value of some element carrying its key. */
  lemma {:induction false} IndexValues<T, K, V>(xs: seq<T>, key: T -> K, val: T -> V)
    ensures forall k :: k in Index(xs, key, val) ==>
              exists i :: 0 <= i < |xs| && key(xs[i]) == k && Index(xs, key, val)[k] == val(xs[i])
    decreases |xs|
  {
    if xs != [] {
      var init := xs[..|xs| - 1];
      IndexValues(init, key, val);
      forall k | k in Index(xs, key, val)
        ensures exists i :: 0 <= i < |xs| && key(xs[i]) == k && Index(xs, key, val)[k] == val(xs[i])
      {
        if k != key(xs[|xs| - 1]) {
          var i :| 0 <= i < |init| && key(init[i]) == k && Index(init, key, val)[k] == val(init[i]);
          assert init[i] == xs[i];
        }
      }
    }
  }
}
