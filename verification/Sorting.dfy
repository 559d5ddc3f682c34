/** Stable sorting by a strict total order, and what makes its result
    independent of the order of the input. */
module Sorting {
  import opened Collections

  /** Irreflexive, transitive, and total on the values that occur. */
  ghost predicate StrictOrder<T(!new)>(less: (T, T) -> bool) {
    && (forall x :: !less(x, x))
    && (forall x, y, z :: less(x, y) && less(y, z) ==> less(x, z))
    && (forall x, y :: x != y ==> less(x, y) || less(y, x))
  }

  ghost predicate Ascending<T>(s: seq<T>, less: (T, T) -> bool) {
    forall i, j :: 0 <= i < j < |s| ==> !less(s[j], s[i])
  }

  function Insert<T>(x: T, s: seq<T>, less: (T, T) -> bool): (r: seq<T>)
    ensures multiset(r) == multiset{x} + multiset(s)
  {
    if s == [] || !less(s[0], x) then
      [x] + s
    else
      assert s == [s[0]] + s[1..];
      [s[0]] + Insert(x, s[1..], less)
  }

  function SortBy<T>(s: seq<T>, less: (T, T) -> bool): (r: seq<T>)
    ensures multiset(r) == multiset(s)
  {
    if s == [] then []
    else
      assert s == [s[0]] + s[1..];
      Insert(s[0], SortBy(s[1..], less), less)
  }

  lemma SameMembers<T>(a: seq<T>, b: seq<T>)
    requires multiset(a) == multiset(b)
    ensures |a| == |b|
    ensures forall x :: x in a <==> x in b
  {
    forall x ensures x in a <==> x in b {
      assert x in a <==> x in multiset(a);
      assert x in b <==> x in multiset(b);
    }
    assert |a| == |multiset(a)| == |multiset(b)| == |b|;
  }

  lemma {:induction false} InsertAscending<T(!new)>(x: T, s: seq<T>, less: (T, T) -> bool)
    requires StrictOrder(less) && Ascending(s, less)
    ensures Ascending(Insert(x, s, less), less)
  {
    if s == [] {
    } else if !less(s[0], x) {
      var r := [x] + s;
      forall j | 0 < j < |r| ensures !less(r[j], x) {
        assert r[j] == s[j - 1] && (j == 1 || !less(s[j - 1], s[0]));
      }
    } else {
      InsertAscending(x, s[1..], less);
      var tail := Insert(x, s[1..], less);
      forall j | 0 <= j < |tail| ensures !less(tail[j], s[0]) {
        assert tail[j] in multiset(tail);
        assert tail[j] == x || tail[j] in s[1..];
      }
    }
  }

  lemma {:induction false} SortAscending<T(!new)>(s: seq<T>, less: (T, T) -> bool)
    requires StrictOrder(less)
    ensures Ascending(SortBy(s, less), less)
  {
    if s != [] {
      SortAscending(s[1..], less);
      InsertAscending(s[0], SortBy(s[1..], less), less);
    }
  }

  /** Two ascending arrangements of the same values are the same sequence. */
  lemma {:induction false} AscendingUnique<T(!new)>(a: seq<T>, b: seq<T>, less: (T, T) -> bool)
    requires StrictOrder(less)
    requires Ascending(a, less) && Ascending(b, less)
    requires multiset(a) == multiset(b)
    ensures a == b
  {
    SameMembers(a, b);
    if a != [] {
      assert a[0] in b && b[0] in a;
      assert !less(b[0], a[0]) && !less(a[0], b[0]);
      assert a == [a[0]] + a[1..] && b == [b[0]] + b[1..];
      assert multiset(a[1..]) == multiset(a) - multiset{a[0]};
      assert multiset(b[1..]) == multiset(b) - multiset{b[0]};
      AscendingUnique(a[1..], b[1..], less);
    }
  }

  /** Sorting forgets the order it was given. */
  lemma SortCanonical<T(!new)>(a: seq<T>, b: seq<T>, less: (T, T) -> bool)
    requires StrictOrder(less)
    requires multiset(a) == multiset(b)
    ensures SortBy(a, less) == SortBy(b, less)
  {
    SortAscending(a, less);
    SortAscending(b, less);
    AscendingUnique(SortBy(a, less), SortBy(b, less), less);
  }

  /** An order whose incomparable values form classes. */
  ghost predicate WeakOrder<T(!new)>(less: (T, T) -> bool) {
    && (forall x, y :: !(less(x, y) && less(y, x)))
    && (forall x, y, z :: !less(x, y) && !less(y, z) ==> !less(x, z))
  }

  /** Sorting puts a minimum first. */
  lemma {:induction false} SortedHead<T(!new)>(s: seq<T>, less: (T, T) -> bool)
    requires s != [] && WeakOrder(less)
    ensures |SortBy(s, less)| > 0 && SortBy(s, less)[0] in s
    ensures forall x :: x in s ==> !less(x, SortBy(s, less)[0])
  {
    assert s == [s[0]] + s[1..];
    if |s| == 1 {
      assert SortBy(s[1..], less) == [];
    } else {
      SortedHead(s[1..], less);
      var h := SortBy(s[1..], less)[0];
      assert SortBy(s, less)[0] == if less(h, s[0]) then h else s[0];
    }
  }

  /** Go compares strings byte by byte. */
  predicate Before(a: string, b: string) {
    if b == "" then false
    else if a == "" then true
    else if a[0] != b[0] then a[0] < b[0]
    else Before(a[1..], b[1..])
  }

  /** The texts agree up to some place, where the first ends or has the smaller
      character. */
  ghost predicate SmallerAt(a: string, b: string, k: nat) {
    k <= |a| && k < |b| && a[..k] == b[..k] && (k == |a| || a[k] < b[k])
  }

  lemma {:induction false} BeforeExactly(a: string, b: string)
    ensures Before(a, b) <==> exists k: nat :: SmallerAt(a, b, k)
  {
    if b != "" && a == "" {
      assert SmallerAt(a, b, 0);
    } else if b != "" && a[0] != b[0] {
      assert a[0] < b[0] ==> SmallerAt(a, b, 0);
      assert forall k: nat :: k > 0 && SmallerAt(a, b, k) ==> a[..k][0] == b[..k][0];
    } else if b != "" {
      BeforeExactly(a[1..], b[1..]);
      if k: nat :| SmallerAt(a[1..], b[1..], k) {
        assert a[..k + 1] == [a[0]] + a[1..][..k] && b[..k + 1] == [b[0]] + b[1..][..k];
        assert SmallerAt(a, b, k + 1);
      }
      if k: nat :| SmallerAt(a, b, k) {
        assert k > 0;
        assert a[1..][..k - 1] == a[..k][1..] && b[1..][..k - 1] == b[..k][1..];
        assert SmallerAt(a[1..], b[1..], k - 1);
      }
    }
  }

  lemma {:induction false} BeforeTransitive(a: string, b: string, c: string)
    requires Before(a, b) && Before(b, c)
    ensures Before(a, c)
  {
    if a != "" && a[0] == b[0] == c[0] {
      BeforeTransitive(a[1..], b[1..], c[1..]);
    }
  }

  lemma {:induction false} BeforeTotal(a: string, b: string)
    ensures !(Before(a, b) && Before(b, a))
    ensures a != b ==> Before(a, b) || Before(b, a)
  {
    if a != "" && b != "" && a[0] == b[0] {
      BeforeTotal(a[1..], b[1..]);
      assert a == [a[0]] + a[1..] && b == [b[0]] + b[1..];
    }
  }

  lemma BeforeIsStrictOrder()
    ensures StrictOrder(Before)
  {
    forall a, b, c | Before(a, b) && Before(b, c) ensures Before(a, c) {
      BeforeTransitive(a, b, c);
    }
    forall a, b ensures !Before(a, a) && (a != b ==> Before(a, b) || Before(b, a)) {
      BeforeTotal(a, b);
      BeforeTotal(a, a);
    }
  }

  function SortStrings(s: seq<string>): (r: seq<string>)
    ensures multiset(r) == multiset(s)
  {
    SortBy(s, Before)
  }

  lemma SortStringsCanonical(a: seq<string>, b: seq<string>)
    requires multiset(a) == multiset(b)
    ensures SortStrings(a) == SortStrings(b)
  {
    BeforeIsStrictOrder();
    SortCanonical(a, b, Before);
  }

  // ---- sets in order ----

  ghost function Elements<T(!new)>(s: set<T>): (r: seq<T>)
    ensures multiset(r) == multiset(s)
  {
    if s == {} then []
    else
      var x :| x in s;
      [x] + Elements(s - {x})
  }

  /** The members of a set, sorted: what a Go loop over a map gives once its
      result is sorted, whatever order the loop took. */
  ghost function Ordered<T(!new)>(s: set<T>, less: (T, T) -> bool): (r: seq<T>)
    ensures multiset(r) == multiset(s)
  {
    SortBy(Elements(s), less)
  }

  lemma OrderedMembers<T(!new)>(s: set<T>, less: (T, T) -> bool)
    ensures forall x :: x in Ordered(s, less) <==> x in s
    ensures |Ordered(s, less)| == |s|
  {
    forall x ensures x in Ordered(s, less) <==> x in s {
      assert x in Ordered(s, less) <==> x in multiset(Ordered(s, less));
    }
    assert |multiset(Ordered(s, less))| == |multiset(s)| == |s|;
  }

  /** Any ascending arrangement of a set is the ordered one. */
  lemma OrderedUnique<T(!new)>(r: seq<T>, s: set<T>, less: (T, T) -> bool)
    requires StrictOrder(less)
    requires multiset(r) == multiset(s) && Ascending(r, less)
    ensures r == Ordered(s, less)
  {
    SortAscending(Elements(s), less);
    AscendingUnique(r, Ordered(s, less), less);
  }

  lemma OrderedIsAscending<T(!new)>(s: set<T>, less: (T, T) -> bool)
    requires StrictOrder(less)
    ensures Ascending(Ordered(s, less), less)
  {
    SortAscending(Elements(s), less);
  }

  /** The keys of a map in order, whatever order a loop over the map takes. */
  method SortedMembers<T(!new)>(keys: set<T>, less: (T, T) -> bool) returns (sorted: seq<T>)
    requires StrictOrder(less)
    ensures sorted == Ordered(keys, less)
  {
    var left, result := keys, [];
    while left != {}
      invariant left <= keys && multiset(result) == multiset(keys - left)
      decreases left
    {
      var k :| k in left;
      assert keys - (left - {k}) == (keys - left) + {k};
      left := left - {k};
      result := result + [k];
    }
    assert keys - left == keys;
    sorted := SortBy(result, less);
    SortAscending(result, less);
    OrderedUnique(sorted, keys, less);
  }

  // ---- subsets ----

  function Among<T(==)>(s: set<T>): T -> bool { (x: T) => x in s }

  lemma {:induction false} FilterAscending<T(!new)>(xs: seq<T>, keep: T -> bool, less: (T, T) -> bool)
    requires Ascending(xs, less)
    ensures Ascending(Filter(xs, keep), less)
  {
    if xs != [] {
      var front := xs[..|xs| - 1];
      FilterAscending(front, keep, less);
      FilterMember(front, keep);
      var kept := Filter(front, keep);
      forall i | 0 <= i < |kept| ensures !less(xs[|xs| - 1], kept[i]) {
        assert kept[i] in front;
        var j :| 0 <= j < |front| && front[j] == kept[i];
      }
    }
  }

  /** Picking a subset from a sorted set gives that subset, sorted. */
  lemma OrderedSubset<T(!new)>(all: set<T>, some: set<T>, less: (T, T) -> bool)
    requires StrictOrder(less) && some <= all
    ensures Filter(Ordered(all, less), Among(some)) == Ordered(some, less)
  {
    var r := Filter(Ordered(all, less), Among(some));
    OrderedIsAscending(all, less);
    FilterAscending(Ordered(all, less), Among(some), less);
    forall x ensures multiset(r)[x] == multiset(some)[x] {
      FilterMultiset(Ordered(all, less), Among(some), x);
    }
    assert multiset(r) == multiset(some);
    OrderedUnique(r, some, less);
  }
}
