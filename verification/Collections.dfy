/** Sequence folds shared by the other modules. Every fold recurses on the last
    element, so that a loop that has handled `xs[..i]` extends it by one step. */
module Collections {
  datatype Option<+T> = None | Some(value: T)

  function Lookup<K, V>(m: map<K, V>, k: K): Option<V> {
    if k in m then Some(m[k]) else None
  }

  /** The one element of a set, when there is exactly one. */
  ghost function TheOnly<T(!new)>(s: set<T>): (r: Option<T>)
    ensures r.Some? <==> exists x :: s == {x}
    ensures r.Some? ==> s == {r.value}
  {
    if exists x :: s == {x} then
      var x :| s == {x};
      Some(x)
    else
      None
  }

  function Filter<T>(xs: seq<T>, keep: T -> bool): seq<T> {
    if xs == [] then []
    else
      var rest, x := Filter(xs[..|xs| - 1], keep), xs[|xs| - 1];
      if keep(x) then rest + [x] else rest
  }

  /** Union of `f` over the elements. */
  function Collect<T, K>(xs: seq<T>, f: T -> set<K>): set<K> {
    if xs == [] then {} else Collect(xs[..|xs| - 1], f) + f(xs[|xs| - 1])
  }

  function FlatMap<T, U>(xs: seq<T>, f: T -> seq<U>): seq<U> {
    if xs == [] then [] else FlatMap(xs[..|xs| - 1], f) + f(xs[|xs| - 1])
  }

  /** A Go map filled in a loop: a later element replaces an earlier one with
      the same key, and elements without a key are skipped. */
  function IndexBy<T, K>(xs: seq<T>, key: T -> Option<K>): map<K, T> {
    if xs == [] then map[]
    else
      var rest, x := IndexBy(xs[..|xs| - 1], key), xs[|xs| - 1];
      match key(x)
      case Some(k) => rest[k := x]
      case None => rest
  }

  lemma Extend<T>(xs: seq<T>, i: nat)
    requires i < |xs|
    ensures xs[..i + 1] == xs[..i] + [xs[i]]
    ensures xs[..i + 1][..i] == xs[..i]
  {
  }

  lemma {:induction false} FilterMember<T>(xs: seq<T>, keep: T -> bool)
    ensures forall x :: x in Filter(xs, keep) <==> x in xs && keep(x)
  {
    if xs != [] {
      FilterMember(xs[..|xs| - 1], keep);
      assert xs == xs[..|xs| - 1] + [xs[|xs| - 1]];
    }
  }

  lemma {:induction false} FilterSame<T>(xs: seq<T>, a: T -> bool, b: T -> bool)
    requires forall x :: x in xs ==> a(x) == b(x)
    ensures Filter(xs, a) == Filter(xs, b)
  {
    if xs != [] {
      FilterSame(xs[..|xs| - 1], a, b);
    }
  }

  lemma {:induction false} FilterFilter<T>(xs: seq<T>, first: T -> bool, second: T -> bool, both: T -> bool)
    requires forall x :: x in xs ==> (both(x) <==> first(x) && second(x))
    ensures Filter(Filter(xs, first), second) == Filter(xs, both)
  {
    if xs != [] {
      FilterFilter(xs[..|xs| - 1], first, second, both);
      var rest, x := Filter(xs[..|xs| - 1], first), xs[|xs| - 1];
      if first(x) {
        assert (rest + [x])[..|rest|] == rest;
      }
    }
  }

  lemma {:induction false} CollectMember<T, K>(xs: seq<T>, f: T -> set<K>)
    ensures forall k :: k in Collect(xs, f) <==> exists x :: x in xs && k in f(x)
  {
    if xs != [] {
      CollectMember(xs[..|xs| - 1], f);
      assert xs == xs[..|xs| - 1] + [xs[|xs| - 1]];
    }
  }

  lemma {:induction false} CollectSame<T, K>(xs: seq<T>, f: T -> set<K>, g: T -> set<K>)
    requires forall x :: x in xs ==> f(x) == g(x)
    ensures Collect(xs, f) == Collect(xs, g)
  {
    if xs != [] {
      CollectSame(xs[..|xs| - 1], f, g);
    }
  }

  lemma {:induction false} FlatMapMember<T, U>(xs: seq<T>, f: T -> seq<U>)
    ensures forall u :: u in FlatMap(xs, f) <==> exists x :: x in xs && u in f(x)
  {
    if xs != [] {
      FlatMapMember(xs[..|xs| - 1], f);
      assert xs == xs[..|xs| - 1] + [xs[|xs| - 1]];
    }
  }

  lemma {:induction false} IndexMember<T, K>(xs: seq<T>, key: T -> Option<K>)
    ensures forall k :: k in IndexBy(xs, key) ==> IndexBy(xs, key)[k] in xs && key(IndexBy(xs, key)[k]) == Some(k)
    ensures forall x :: x in xs && key(x).Some? ==> key(x).value in IndexBy(xs, key)
  {
    if xs != [] {
      IndexMember(xs[..|xs| - 1], key);
      assert xs == xs[..|xs| - 1] + [xs[|xs| - 1]];
    }
  }

  /** The last element with the key. */
  ghost predicate LastAt<T, K>(xs: seq<T>, key: T -> Option<K>, k: K, x: T, j: nat) {
    j < |xs| && xs[j] == x && key(x) == Some(k) && forall l :: j < l < |xs| ==> key(xs[l]) != Some(k)
  }

  lemma {:induction false} IndexLast<T, K>(xs: seq<T>, key: T -> Option<K>, k: K, x: T)
    ensures Lookup(IndexBy(xs, key), k) == Some(x) <==> exists j: nat :: LastAt(xs, key, k, x, j)
  {
    if xs != [] {
      var n := |xs| - 1;
      var front := xs[..n];
      IndexLast(front, key, k, x);
      if j: nat :| LastAt(front, key, k, x, j) {
        assert key(xs[n]) != Some(k) ==> LastAt(xs, key, k, x, j);
      }
      if j: nat :| LastAt(xs, key, k, x, j) {
        assert j < n ==> LastAt(front, key, k, x, j);
      }
      assert key(xs[n]) == Some(k) && xs[n] == x ==> LastAt(xs, key, k, x, n);
    }
  }

  /** The places whose elements pass. */
  ghost function Places<T>(xs: seq<T>, keep: T -> bool): set<int> {
    set k | 0 <= k < |xs| && keep(xs[k])
  }

  lemma {:induction false} FilterPlaces<T>(xs: seq<T>, keep: T -> bool)
    ensures |Filter(xs, keep)| == |Places(xs, keep)|
  {
    if xs == [] {
      assert Places(xs, keep) == {};
    } else {
      var n := |xs| - 1;
      FilterPlaces(xs[..n], keep);
      assert Places(xs, keep) == Places(xs[..n], keep) + if keep(xs[n]) then {n} else {};
    }
  }

  ghost function Tagged<X(!new)>(n: int, s: set<X>): set<(int, X)> { set x | x in s :: (n, x) }

  lemma {:induction false} TaggedSize<X(!new)>(n: int, s: set<X>)
    ensures |Tagged(n, s)| == |s|
  {
    if x :| x in s {
      TaggedSize(n, s - {x});
      assert Tagged(n, s) == Tagged(n, s - {x}) + {(n, x)};
    } else {
      assert s == {} && Tagged(n, s) == {};
    }
  }

  /** The members of every `f(xs[j])`, told apart by the place `j`. */
  ghost function Spread<T, X(!new)>(xs: seq<T>, f: T -> set<X>): set<(int, X)> {
    set j, x | 0 <= j < |xs| && x in f(xs[j]) :: (j, x)
  }

  lemma SpreadStep<T, X(!new)>(xs: seq<T>, f: T -> set<X>)
    requires xs != []
    ensures |Spread(xs, f)| == |Spread(xs[..|xs| - 1], f)| + |f(xs[|xs| - 1])|
  {
    var n := |xs| - 1;
    var front, last := Spread(xs[..n], f), Tagged(n, f(xs[n]));
    assert Spread(xs, f) == front + last;
    assert front !! last;
    TaggedSize(n, f(xs[n]));
  }

  /** Dropping elements cannot change what an index holds for a key whose
      elements are all kept, even when several share it. */
  lemma {:induction false} LookupKept<T, K>(xs: seq<T>, key: T -> Option<K>, keep: T -> bool, k: K)
    requires forall x :: x in xs && key(x) == Some(k) ==> keep(x)
    ensures Lookup(IndexBy(Filter(xs, keep), key), k) == Lookup(IndexBy(xs, key), k)
  {
    if xs != [] {
      var front, x := xs[..|xs| - 1], xs[|xs| - 1];
      LookupKept(front, key, keep, k);
      if keep(x) {
        assert (Filter(front, keep) + [x])[..|Filter(front, keep)|] == Filter(front, keep);
      }
    }
  }

  lemma {:induction false} IndexSame<T, K>(xs: seq<T>, a: T -> Option<K>, b: T -> Option<K>)
    requires forall x :: x in xs ==> a(x) == b(x)
    ensures IndexBy(xs, a) == IndexBy(xs, b)
  {
    if xs != [] {
      IndexSame(xs[..|xs| - 1], a, b);
    }
  }

  /** Elements that contribute nothing can be dropped from a union. */
  lemma {:induction false} CollectKept<T, K>(xs: seq<T>, f: T -> set<K>, g: T -> set<K>, keep: T -> bool)
    requires forall x :: x in xs && keep(x) ==> f(x) == g(x)
    requires forall x :: x in xs && !keep(x) ==> f(x) == {}
    ensures Collect(Filter(xs, keep), g) == Collect(xs, f)
  {
    if xs != [] {
      var front, x := xs[..|xs| - 1], xs[|xs| - 1];
      CollectKept(front, f, g, keep);
      if keep(x) {
        assert (Filter(front, keep) + [x])[..|Filter(front, keep)|] == Filter(front, keep);
      }
    }
  }

  /** A filter that the elements of another filter pass anyway. */
  lemma {:induction false} FilterKept<T>(xs: seq<T>, pick: T -> bool, keep: T -> bool)
    requires forall x :: x in xs && pick(x) ==> keep(x)
    ensures Filter(Filter(xs, keep), pick) == Filter(xs, pick)
  {
    FilterFilter(xs, keep, pick, pick);
  }

  // ---- one step of a loop over `xs` ----

  lemma FilterStep<T>(xs: seq<T>, keep: T -> bool, i: nat)
    requires i < |xs|
    ensures Filter(xs[..i + 1], keep) == Filter(xs[..i], keep) + if keep(xs[i]) then [xs[i]] else []
  {
    Extend(xs, i);
  }

  lemma CollectStep<T, K>(xs: seq<T>, f: T -> set<K>, i: nat)
    requires i < |xs|
    ensures Collect(xs[..i + 1], f) == Collect(xs[..i], f) + f(xs[i])
  {
    Extend(xs, i);
  }

  lemma CollectAppend<T, K>(xs: seq<T>, f: T -> set<K>, x: T)
    ensures Collect(xs + [x], f) == Collect(xs, f) + f(x)
  {
    assert (xs + [x])[..|xs|] == xs;
  }

  lemma FlatMapStep<T, U>(xs: seq<T>, f: T -> seq<U>, i: nat)
    requires i < |xs|
    ensures FlatMap(xs[..i + 1], f) == FlatMap(xs[..i], f) + f(xs[i])
  {
    Extend(xs, i);
  }

  lemma WholePrefix<T>(xs: seq<T>)
    ensures xs[..|xs|] == xs
  {
  }

  // ---- folds over rearranged sequences ----

  lemma {:induction false} FilterMultiset<T>(xs: seq<T>, keep: T -> bool, x: T)
    ensures multiset(Filter(xs, keep))[x] == if keep(x) then multiset(xs)[x] else 0
  {
    if xs != [] {
      FilterMultiset(xs[..|xs| - 1], keep, x);
      assert xs == xs[..|xs| - 1] + [xs[|xs| - 1]];
    }
  }

  lemma FilterPermuted<T(!new)>(xs: seq<T>, ys: seq<T>, keep: T -> bool)
    requires multiset(xs) == multiset(ys)
    ensures multiset(Filter(xs, keep)) == multiset(Filter(ys, keep))
  {
    var a, b := multiset(Filter(xs, keep)), multiset(Filter(ys, keep));
    forall x: T ensures a[x] == b[x] {
      FilterMultiset(xs, keep, x);
      FilterMultiset(ys, keep, x);
    }
    assert a == b;
  }

  lemma {:induction false} FlatMapConcat<T, U>(xs: seq<T>, ys: seq<T>, f: T -> seq<U>)
    ensures FlatMap(xs + ys, f) == FlatMap(xs, f) + FlatMap(ys, f)
  {
    if ys == [] {
      assert xs + ys == xs;
    } else {
      FlatMapConcat(xs, ys[..|ys| - 1], f);
      assert (xs + ys)[..|xs + ys| - 1] == xs + ys[..|ys| - 1];
    }
  }

  lemma FlatMapAround<T, U>(before: seq<T>, x: T, after: seq<T>, g: T -> seq<U>)
    ensures FlatMap(before + [x] + after, g) == FlatMap(before, g) + g(x) + FlatMap(after, g)
  {
    FlatMapConcat(before + [x], after, g);
    FlatMapConcat(before, [x], g);
    assert FlatMap([x], g) == [] + g(x) by {
      assert [x][..0] == [];
    }
  }

  lemma SplitAt<T>(ys: seq<T>, x: T) returns (before: seq<T>, after: seq<T>)
    requires x in ys
    ensures ys == before + [x] + after
    ensures multiset(before + after) == multiset(ys) - multiset{x}
  {
    var j :| 0 <= j < |ys| && ys[j] == x;
    before, after := ys[..j], ys[j + 1..];
    assert ys == before + [x] + after;
    assert multiset(ys) == multiset(before) + multiset{x} + multiset(after);
    assert multiset(before + after) == multiset(before) + multiset(after);
  }

  /** Rearranging the sequence, or what each element gives, rearranges the
      result. */
  lemma {:induction false} FlatMapPermuted<T, U>(xs: seq<T>, ys: seq<T>, f: T -> seq<U>, g: T -> seq<U>)
    requires multiset(xs) == multiset(ys)
    requires forall x :: x in xs ==> multiset(f(x)) == multiset(g(x))
    ensures multiset(FlatMap(xs, f)) == multiset(FlatMap(ys, g))
  {
    if xs == [] {
      assert |ys| == |multiset(ys)| == 0;
    } else {
      var front, x := xs[..|xs| - 1], xs[|xs| - 1];
      assert xs == front + [x];
      assert multiset(xs) == multiset(front) + multiset{x};
      assert x in multiset(ys);
      var before, after := SplitAt(ys, x);
      assert multiset(front) == multiset(before + after);
      FlatMapPermuted(front, before + after, f, g);
      FlatMapConcat(before, after, g);
      FlatMapAround(before, x, after, g);
    }
  }

  lemma {:induction false} FilterConcat<T>(a: seq<T>, b: seq<T>, keep: T -> bool)
    ensures Filter(a + b, keep) == Filter(a, keep) + Filter(b, keep)
  {
    if b == [] {
      assert a + b == a;
    } else {
      FilterConcat(a, b[..|b| - 1], keep);
      assert (a + b)[..|a + b| - 1] == a + b[..|b| - 1];
    }
  }

  lemma SameMap<K, V>(a: map<K, V>, b: map<K, V>)
    requires a.Keys == b.Keys && forall k :: k in a ==> a[k] == b[k]
    ensures a == b
  {
  }
}
