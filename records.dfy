/**
 * List bookkeeping shared by every collection of the app: the JavaScript array methods
 * `filter`, `map`, `reduce`, `findIndex`, `find`, `slice`, `reverse` and `sort`, over
 * sequences of records that each carry a string identifier (`idOf`).
 */
module Records {
  import opened Wrappers

  /** `s.filter(p)`. */
  function Filter<T>(s: seq<T>, p: T -> bool): (r: seq<T>)
    ensures |r| <= |s|
    ensures forall i :: 0 <= i < |r| ==> p(r[i])
  {
    if s == [] then [] else (if p(s[0]) then [s[0]] else []) + Filter(s[1..], p)
  }

  /** `r` is `s` with some elements left out, and the rest in their original order. */
  predicate SubseqOf<T(==)>(r: seq<T>, s: seq<T>)
    decreases |s|
  {
    if r == [] then true
    else if s == [] then false
    else (r[0] == s[0] && SubseqOf(r[1..], s[1..])) || SubseqOf(r, s[1..])
  }

  /** A filter keeps the passing elements in their original order. */
  lemma {:induction false} FilterSubseq<T>(s: seq<T>, p: T -> bool)
    ensures SubseqOf(Filter(s, p), s)
  {
    if s != [] {
      FilterSubseq(s[1..], p);
      var r := Filter(s, p);
      if p(s[0]) {
        assert r[0] == s[0] && r[1..] == Filter(s[1..], p);
      } else {
        assert r == Filter(s[1..], p);
      }
    }
  }

  /** A filter keeps each passing element as often as it occurs, and drops every failing one. */
  lemma {:induction false} FilterCount<T>(s: seq<T>, p: T -> bool)
    ensures forall x :: multiset(Filter(s, p))[x] == if p(x) then multiset(s)[x] else 0
  {
    if s != [] {
      FilterCount(s[1..], p);
      assert s == [s[0]] + s[1..];
      assert multiset(s) == multiset{s[0]} + multiset(s[1..]);
      var head := if p(s[0]) then [s[0]] else [];
      assert multiset(Filter(s, p)) == multiset(head) + multiset(Filter(s[1..], p));
    }
  }

  /** An element is in the filtered list exactly when it is in the list and passes. */
  lemma FilterMembers<T>(s: seq<T>, p: T -> bool)
    ensures forall x :: x in Filter(s, p) <==> x in s && p(x)
  {
    FilterCount(s, p);
    forall x ensures x in Filter(s, p) <==> x in s && p(x) {
      assert x in Filter(s, p) <==> multiset(Filter(s, p))[x] > 0;
      assert x in s <==> multiset(s)[x] > 0;
    }
  }

  /** Filtering with a condition every element meets changes nothing. */
  lemma {:induction false} FilterAll<T>(s: seq<T>, p: T -> bool)
    requires forall i :: 0 <= i < |s| ==> p(s[i])
    ensures Filter(s, p) == s
  {
    if s != [] {
      FilterAll(s[1..], p);
    }
  }

  /** Two successive filters are one filter by the conjunction of their conditions. */
  lemma {:induction false} FilterThenFilter<T>(s: seq<T>, p: T -> bool, q: T -> bool, pq: T -> bool)
    requires forall x :: pq(x) == (p(x) && q(x))
    ensures Filter(Filter(s, p), q) == Filter(s, pq)
  {
    if s != [] {
      FilterThenFilter(s[1..], p, q, pq);
      FilterAppend((if p(s[0]) then [s[0]] else []), Filter(s[1..], p), q);
    }
  }

  /** Filtering a list with a given head: the head if it passes, then the filtered rest. */
  lemma FilterCons<T>(x: T, u: seq<T>, p: T -> bool)
    ensures Filter([x] + u, p) == (if p(x) then [x] else []) + Filter(u, p)
  {
    assert ([x] + u)[1..] == u;
  }

  /** Filtering distributes over concatenation. */
  lemma {:induction false} FilterAppend<T>(a: seq<T>, b: seq<T>, p: T -> bool)
    ensures Filter(a + b, p) == Filter(a, p) + Filter(b, p)
  {
    if a != [] {
      var t := a[1..];
      FilterAppend(t, b, p);
      assert a == [a[0]] + t;
      assert a + b == [a[0]] + (t + b);
      FilterCons(a[0], t, p);
      FilterCons(a[0], t + b, p);
    } else {
      assert a + b == b;
    }
  }

  /** The elements that pass `p` and the ones that fail it together account for the whole list. */
  lemma {:induction false} FilterPartition<T>(s: seq<T>, p: T -> bool, notP: T -> bool)
    requires forall x :: notP(x) == !p(x)
    ensures |Filter(s, p)| + |Filter(s, notP)| == |s|
  {
    if s != [] {
      FilterPartition(s[1..], p, notP);
    }
  }

  /** `s.map(f)`. */
  function Map<T, U>(s: seq<T>, f: T -> U): (r: seq<U>)
    ensures |r| == |s| && forall i :: 0 <= i < |s| ==> r[i] == f(s[i])
  {
    seq(|s|, i requires 0 <= i < |s| => f(s[i]))
  }

  /** `s.reduce((sum, x) => sum + f(x), 0)`. */
  function Sum<T>(s: seq<T>, f: T -> real): real {
    if s == [] then 0.0 else f(s[0]) + Sum(s[1..], f)
  }

  /** Filtering a list with one more element at the end keeps that element exactly when it passes. */
  lemma FilterSnoc<T>(s: seq<T>, x: T, p: T -> bool)
    ensures Filter(s + [x], p) == Filter(s, p) + (if p(x) then [x] else [])
  {
    FilterAppend(s, [x], p);
    assert [x][1..] == [];
  }

  /** A sum over a concatenation is the sum of the sums. */
  lemma {:induction false} SumAppend<T>(a: seq<T>, b: seq<T>, f: T -> real)
    ensures Sum(a + b, f) == Sum(a, f) + Sum(b, f)
  {
    if a != [] {
      SumAppend(a[1..], b, f);
      assert (a + b)[0] == a[0] && (a + b)[1..] == a[1..] + b;
    } else {
      assert a + b == b;
    }
  }

  /** A sum splits into the sum over the elements that pass `p` and the sum over those that fail it. */
  lemma {:induction false} SumPartition<T>(s: seq<T>, f: T -> real, p: T -> bool, notP: T -> bool)
    requires forall x :: notP(x) == !p(x)
    ensures Sum(s, f) == Sum(Filter(s, p), f) + Sum(Filter(s, notP), f)
  {
    if s != [] {
      SumPartition(s[1..], f, p, notP);
      if p(s[0]) {
        assert Filter(s, p) == [s[0]] + Filter(s[1..], p);
        assert Filter(s, notP) == Filter(s[1..], notP);
        SumAppend([s[0]], Filter(s[1..], p), f);
      } else {
        assert Filter(s, notP) == [s[0]] + Filter(s[1..], notP);
        assert Filter(s, p) == Filter(s[1..], p);
        SumAppend([s[0]], Filter(s[1..], notP), f);
      }
    }
  }

  /** A sum of non-negative terms is non-negative. */
  lemma {:induction false} SumNonNegative<T>(s: seq<T>, f: T -> real)
    requires forall i :: 0 <= i < |s| ==> f(s[i]) >= 0.0
    ensures Sum(s, f) >= 0.0
  {
    if s != [] {
      SumNonNegative(s[1..], f);
    }
  }

  /** A sum of positive terms over a non-empty list is positive. */
  lemma {:induction false} SumPositive<T>(s: seq<T>, f: T -> real)
    requires s != []
    requires forall i :: 0 <= i < |s| ==> f(s[i]) > 0.0
    ensures Sum(s, f) > 0.0
  {
    SumNonNegative(s[1..], f);
  }

  /** `s.findIndex(x => idOf(x) === id)`: the first position holding `id`, or -1. */
  function FirstIndex<T>(s: seq<T>, id: string, idOf: T -> string): (i: int)
    ensures -1 <= i < |s|
    ensures i >= 0 ==> idOf(s[i]) == id && forall j :: 0 <= j < i ==> idOf(s[j]) != id
    ensures i == -1 <==> forall j :: 0 <= j < |s| ==> idOf(s[j]) != id
  {
    if s == [] then -1
    else if idOf(s[0]) == id then 0
    else
      var k := FirstIndex(s[1..], id, idOf);
      if k == -1 then -1 else k + 1
  }

  /** A position holding `id` with no earlier one is the first index. */
  lemma FirstIndexIs<T>(s: seq<T>, id: string, idOf: T -> string, i: int)
    requires 0 <= i < |s| && idOf(s[i]) == id
    requires forall j :: 0 <= j < i ==> idOf(s[j]) != id
    ensures FirstIndex(s, id, idOf) == i
  {
    var k := FirstIndex(s, id, idOf);
    assert k != -1;
    assert !(k < i);
  }

  /** `s.find(x => idOf(x) === id)`: the first record holding `id`, or nothing. */
  function Find<T>(s: seq<T>, id: string, idOf: T -> string): (r: Option<T>)
    ensures r.None? <==> forall j :: 0 <= j < |s| ==> idOf(s[j]) != id
    ensures r.Some? ==> r.value in s && idOf(r.value) == id
    ensures r.Some? ==> exists i :: 0 <= i < |s| && s[i] == r.value && forall j :: 0 <= j < i ==> idOf(s[j]) != id
  {
    var i := FirstIndex(s, id, idOf);
    if i < 0 then None else Some(s[i])
  }

  /** No two records share an identifier. */
  predicate UniqueIds<T>(s: seq<T>, idOf: T -> string) {
    forall i, j :: 0 <= i < j < |s| ==> idOf(s[i]) != idOf(s[j])
  }

  /** Some record holds `id`. */
  predicate HasId<T>(s: seq<T>, id: string, idOf: T -> string) {
    exists j :: 0 <= j < |s| && idOf(s[j]) == id
  }

  /**
   * The store's save: find the index of the record's id, then overwrite that slot or append.
   * `x` ends up at the first slot holding its id; every other slot keeps its record.
   */
  function Upsert<T>(s: seq<T>, x: T, idOf: T -> string): (r: seq<T>)
    ensures HasId(s, idOf(x), idOf) ==> |r| == |s|
    ensures !HasId(s, idOf(x), idOf) ==> |r| == |s| + 1 && r[|s|] == x
    ensures FirstIndex(r, idOf(x), idOf) >= 0 && r[FirstIndex(r, idOf(x), idOf)] == x
    ensures forall j :: 0 <= j < |s| && j != FirstIndex(r, idOf(x), idOf) ==> r[j] == s[j]
  {
    var i := FirstIndex(s, idOf(x), idOf);
    if i >= 0 then
      var r := s[i := x];
      FirstIndexIs(r, idOf(x), idOf, i);
      r
    else
      s + [x]
  }

  /** Saving keeps identifiers unique. */
  lemma UpsertKeepsUnique<T>(s: seq<T>, x: T, idOf: T -> string)
    requires UniqueIds(s, idOf)
    ensures UniqueIds(Upsert(s, x, idOf), idOf)
  {
    var i := FirstIndex(s, idOf(x), idOf);
    var r := Upsert(s, x, idOf);
    if i >= 0 {
      forall a, b | 0 <= a < b < |r| ensures idOf(r[a]) != idOf(r[b]) {
        if a == i {
          assert idOf(r[a]) == idOf(s[i]);
        } else if b == i {
          assert idOf(r[b]) == idOf(s[i]);
        }
      }
    }
  }

  /** Saving a record whose id is already present does not change the set of identifiers present. */
  lemma UpsertSameIds<T>(s: seq<T>, x: T, idOf: T -> string, id: string)
    ensures HasId(Upsert(s, x, idOf), id, idOf) <==> HasId(s, id, idOf) || id == idOf(x)
  {
    var r := Upsert(s, x, idOf);
    var i := FirstIndex(r, idOf(x), idOf);
    if HasId(s, id, idOf) {
      var j :| 0 <= j < |s| && idOf(s[j]) == id;
      if j != i {
        assert idOf(r[j]) == id;
      }
    }
    if HasId(r, id, idOf) && id != idOf(x) {
      var j :| 0 <= j < |r| && idOf(r[j]) == id;
      assert j < |s| && j != i;
      assert idOf(s[j]) == id;
    }
  }

  /** The store's delete: `s.filter(x => idOf(x) !== id)`. */
  function RemoveId<T>(s: seq<T>, id: string, idOf: T -> string): (r: seq<T>)
    ensures forall i :: 0 <= i < |r| ==> idOf(r[i]) != id
    ensures !HasId(s, id, idOf) ==> r == s
  {
    var r := Filter(s, x => idOf(x) != id);
    assert !HasId(s, id, idOf) ==> r == s by {
      if !HasId(s, id, idOf) {
        FilterAll(s, x => idOf(x) != id);
      }
    }
    r
  }

  /** Deleting keeps every record with another identifier, in order, and identifiers stay unique. */
  lemma RemoveIdKeepsOthers<T>(s: seq<T>, id: string, idOf: T -> string)
    ensures SubseqOf(RemoveId(s, id, idOf), s)
    ensures forall x :: x in RemoveId(s, id, idOf) <==> x in s && idOf(x) != id
    ensures UniqueIds(s, idOf) ==> UniqueIds(RemoveId(s, id, idOf), idOf)
  {
    FilterSubseq(s, x => idOf(x) != id);
    FilterMembers(s, x => idOf(x) != id);
    if UniqueIds(s, idOf) {
      SubseqKeepsUnique(RemoveId(s, id, idOf), s, idOf);
    }
  }

  /** A subsequence of a list with unique identifiers has unique identifiers. */
  lemma {:induction false} SubseqKeepsUnique<T>(r: seq<T>, s: seq<T>, idOf: T -> string)
    requires SubseqOf(r, s) && UniqueIds(s, idOf)
    ensures UniqueIds(r, idOf)
    ensures forall i :: 0 <= i < |r| ==> r[i] in s
    decreases |s|
  {
    if r != [] {
      assert s != [];
      assert UniqueIds(s[1..], idOf) by {
        forall a, b | 0 <= a < b < |s[1..]| ensures idOf(s[1..][a]) != idOf(s[1..][b]) {
          assert s[1..][a] == s[a + 1] && s[1..][b] == s[b + 1];
        }
      }
      if r[0] == s[0] && SubseqOf(r[1..], s[1..]) {
        SubseqKeepsUnique(r[1..], s[1..], idOf);
        forall a, b | 0 <= a < b < |r| ensures idOf(r[a]) != idOf(r[b]) {
          if a == 0 {
            assert r[b] == r[1..][b - 1] && r[b] in s[1..];
            var k :| 0 <= k < |s[1..]| && s[1..][k] == r[b];
            assert idOf(s[0]) != idOf(s[k + 1]);
          } else {
            assert r[a] == r[1..][a - 1] && r[b] == r[1..][b - 1];
          }
        }
        forall i | 0 <= i < |r| ensures r[i] in s {
          if i > 0 {
            assert r[i] == r[1..][i - 1];
          }
        }
      } else {
        SubseqKeepsUnique(r, s[1..], idOf);
      }
    }
  }

  /** The mirror's update: `s.map(y => idOf(y) === idOf(x) ? x : y)`, replacing every record with that id. */
  function ReplaceAll<T>(s: seq<T>, x: T, idOf: T -> string): (r: seq<T>)
    ensures |r| == |s|
    ensures forall j :: 0 <= j < |s| ==> r[j] == if idOf(s[j]) == idOf(x) then x else s[j]
  {
    Map(s, y => if idOf(y) == idOf(x) then x else y)
  }

  /**
   * The mirror's map-update and the store's save agree when the id is present once:
   * this is what keeps the in-memory list equal to the stored one after an update.
   */
  lemma ReplaceAllIsUpsert<T>(s: seq<T>, x: T, idOf: T -> string)
    requires UniqueIds(s, idOf) && HasId(s, idOf(x), idOf)
    ensures ReplaceAll(s, x, idOf) == Upsert(s, x, idOf)
  {
    var i := FirstIndex(s, idOf(x), idOf);
    var r := Upsert(s, x, idOf);
    assert FirstIndex(r, idOf(x), idOf) == i;
    forall j | 0 <= j < |s| ensures ReplaceAll(s, x, idOf)[j] == r[j] {
      if j != i {
        assert idOf(s[j]) != idOf(s[i]);
      }
    }
  }

  /** The mirror's append and the store's save agree for an identifier not yet present. */
  lemma AppendIsUpsert<T>(s: seq<T>, x: T, idOf: T -> string)
    requires !HasId(s, idOf(x), idOf)
    ensures s + [x] == Upsert(s, x, idOf)
  {
  }

  /** `s.reverse()`: position `i` of the result holds position `|s| - 1 - i` of `s`. */
  function Reverse<T>(s: seq<T>): (r: seq<T>)
    ensures |r| == |s| && forall i :: 0 <= i < |s| ==> r[i] == s[|s| - 1 - i]
  {
    seq(|s|, i requires 0 <= i < |s| => s[|s| - 1 - i])
  }

  /** `s.slice(-n)` for `n > 0`: the last `n` elements, or all of `s` when it is shorter. */
  function LastN<T>(s: seq<T>, n: nat): (r: seq<T>)
    requires n > 0
    ensures |r| == if |s| < n then |s| else n
    ensures r == s[|s| - |r|..]
  {
    if |s| < n then s else s[|s| - n..]
  }

  /** `s` runs from the largest `key` down to the smallest. */
  predicate SortedDesc<T>(s: seq<T>, key: T -> real) {
    forall i, j :: 0 <= i < j < |s| ==> key(s[i]) >= key(s[j])
  }

  /** Every element of `t` is bounded when `t` holds `x` and the elements of `u`, all bounded. */
  lemma BoundByMultiset<T>(t: seq<T>, u: seq<T>, x: T, key: T -> real, b: real)
    requires multiset(t) == multiset(u) + multiset{x}
    requires key(x) <= b && forall k :: 0 <= k < |u| ==> key(u[k]) <= b
    ensures forall k :: 0 <= k < |t| ==> key(t[k]) <= b
  {
    forall k | 0 <= k < |t| ensures key(t[k]) <= b {
      assert t[k] in multiset(t);
      if t[k] != x {
        assert t[k] in multiset(u);
        var m :| 0 <= m < |u| && u[m] == t[k];
      }
    }
  }

  /** A sorted list stays sorted under a head no smaller than any of its elements. */
  lemma SortedCons<T>(h: T, t: seq<T>, key: T -> real)
    requires SortedDesc(t, key)
    requires forall k :: 0 <= k < |t| ==> key(t[k]) <= key(h)
    ensures SortedDesc([h] + t, key)
  {
    var r := [h] + t;
    forall i, j | 0 <= i < j < |r| ensures key(r[i]) >= key(r[j]) {
      assert r[j] == t[j - 1];
      if i > 0 {
        assert r[i] == t[i - 1];
      }
    }
  }

  /** Insert `x` into a list sorted by decreasing `key`, ahead of the elements whose key it matches. */
  function Insert<T>(x: T, s: seq<T>, key: T -> real): (r: seq<T>)
    requires SortedDesc(s, key)
    ensures SortedDesc(r, key)
    ensures |r| == |s| + 1
    ensures multiset(r) == multiset(s) + multiset{x}
  {
    if s == [] then [x]
    else if key(x) >= key(s[0]) then
      SortedCons(x, s, key);
      [x] + s
    else
      var t := Insert(x, s[1..], key);
      assert multiset(s) == multiset{s[0]} + multiset(s[1..]) by { assert s == [s[0]] + s[1..]; }
      BoundByMultiset(t, s[1..], x, key, key(s[0]));
      SortedCons(s[0], t, key);
      [s[0]] + t
  }

  /**
   * `s.sort((a, b) => key(b) - key(a))`: the same elements, largest key first. JavaScript's sort is
   * stable, and so is this insertion sort: an element goes ahead of the later ones with an equal key.
   */
  function SortDesc<T>(s: seq<T>, key: T -> real): (r: seq<T>)
    ensures SortedDesc(r, key)
    ensures |r| == |s| && multiset(r) == multiset(s)
  {
    if s == [] then []
    else
      assert s == [s[0]] + s[1..];
      Insert(s[0], SortDesc(s[1..], key), key)
  }

  /** Sorting keeps exactly the same elements. */
  lemma SortDescMembers<T>(s: seq<T>, key: T -> real)
    ensures forall x :: x in SortDesc(s, key) <==> x in s
  {
    var r := SortDesc(s, key);
    forall x ensures x in r <==> x in s {
      assert x in r <==> x in multiset(r);
      assert x in s <==> x in multiset(s);
    }
  }

  /** A non-empty filter is exactly one that some element passes. */
  lemma {:induction false} FilterNonEmpty<T>(s: seq<T>, p: T -> bool)
    ensures |Filter(s, p)| > 0 <==> exists i :: 0 <= i < |s| && p(s[i])
  {
    if s != [] {
      FilterNonEmpty(s[1..], p);
      if !p(s[0]) {
        assert Filter(s, p) == Filter(s[1..], p);
        assert forall i :: 1 <= i < |s| ==> s[i] == s[1..][i - 1];
        if exists i :: 0 <= i < |s| && p(s[i]) {
          var i :| 0 <= i < |s| && p(s[i]);
          assert p(s[1..][i - 1]);
        }
      }
    }
  }

  /** The mapped list holds exactly the images of the list's elements. */
  lemma MapMembers<T, U>(s: seq<T>, f: T -> U)
    ensures forall y :: y in Map(s, f) <==> exists i :: 0 <= i < |s| && y == f(s[i])
  {
    var r := Map(s, f);
    forall y ensures y in r <==> exists i :: 0 <= i < |s| && y == f(s[i]) {
      if y in r {
        var i :| 0 <= i < |r| && r[i] == y;
        assert y == f(s[i]);
      }
      if exists i :: 0 <= i < |s| && y == f(s[i]) {
        var i :| 0 <= i < |s| && y == f(s[i]);
        assert r[i] == y;
      }
    }
  }

  /** Reversing keeps exactly the same elements. */
  lemma ReverseMembers<T>(s: seq<T>)
    ensures forall x :: x in Reverse(s) <==> x in s
  {
    var r := Reverse(s);
    forall x ensures x in r <==> x in s {
      if x in r {
        var i :| 0 <= i < |r| && r[i] == x;
        assert s[|s| - 1 - i] == x;
      }
      if x in s {
        var j :| 0 <= j < |s| && s[j] == x;
        assert r[|s| - 1 - j] == x;
      }
    }
  }
}
