/** A stable sort, and what reordering keeps. */
module Sorting {

  predicate Distinct<T(!new), K(==)>(s: seq<T>, key: T -> K) {
    forall i, j :: 0 <= i < j < |s| ==> key(s[i]) != key(s[j])
  }

  function Insert<T>(x: T, s: seq<T>, before: (T, T) -> bool): seq<T> {
    if s == [] || !before(s[0], x) then [x] + s else [s[0]] + Insert(x, s[1..], before)
  }

  /** `sorted`: a later item passes only the items it is strictly before. */
  function Sorted<T>(s: seq<T>, before: (T, T) -> bool): seq<T> {
    if s == [] then [] else Insert(s[0], Sorted(s[1..], before), before)
  }

  lemma DistinctCons<T(!new), K>(x: T, s: seq<T>, key: T -> K)
    ensures Distinct([x] + s, key) <==> Distinct(s, key) && forall y :: y in s ==> key(y) != key(x)
  {
    var all := [x] + s;
    if Distinct(all, key) {
      forall i, j | 0 <= i < j < |s|
        ensures key(s[i]) != key(s[j])
      {
        assert s[i] == all[i + 1] && s[j] == all[j + 1];
      }
      forall y | y in s
        ensures key(y) != key(x)
      {
        var i :| 0 <= i < |s| && s[i] == y;
        assert all[0] == x && all[i + 1] == y;
      }
    }
  }

  lemma {:induction false} InsertKeeps<T(!new), K>(x: T, s: seq<T>, before: (T, T) -> bool, key: T -> K)
    requires Distinct(s, key) && forall y :: y in s ==> key(y) != key(x)
    ensures forall y :: y in Insert(x, s, before) <==> y == x || y in s
    ensures Distinct(Insert(x, s, before), key)
  {
    if s == [] || !before(s[0], x) {
      DistinctCons(x, s, key);
    } else {
      assert s == [s[0]] + s[1..];
      DistinctCons(s[0], s[1..], key);
      assert s[0] in s && forall y :: y in s[1..] ==> y in s;
      InsertKeeps(x, s[1..], before, key);
      forall y | y in Insert(x, s[1..], before)
        ensures key(y) != key(s[0])
      {
        assert y == x || y in s[1..];
      }
      DistinctCons(s[0], Insert(x, s[1..], before), key);
    }
  }

  /** Sorting items with distinct keys neither adds, drops nor repeats one. */
  lemma {:induction false} SortedKeeps<T(!new), K>(s: seq<T>, before: (T, T) -> bool, key: T -> K)
    requires Distinct(s, key)
    ensures forall y :: y in Sorted(s, before) <==> y in s
    ensures Distinct(Sorted(s, before), key)
  {
    if s != [] {
      assert s == [s[0]] + s[1..];
      DistinctCons(s[0], s[1..], key);
      SortedKeeps(s[1..], before, key);
      forall y | y in Sorted(s[1..], before)
        ensures key(y) != key(s[0])
      {
        assert y in s[1..];
      }
      InsertKeeps(s[0], Sorted(s[1..], before), before, key);
    }
  }

  function Count<T>(s: seq<T>, condition: T -> bool): nat {
    if s == [] then 0 else (if condition(s[0]) then 1 else 0) + Count(s[1..], condition)
  }

  lemma {:induction false} CountInserted<T>(x: T, s: seq<T>, before: (T, T) -> bool, condition: T -> bool)
    ensures Count(Insert(x, s, before), condition) == Count(s, condition) + if condition(x) then 1 else 0
  {
    if s != [] && before(s[0], x) {
      CountInserted(x, s[1..], before, condition);
    }
  }

  /** Sorting is a permutation: every condition holds of as many items as before. */
  lemma {:induction false} SortedCounts<T>(s: seq<T>, before: (T, T) -> bool, condition: T -> bool)
    ensures Count(Sorted(s, before), condition) == Count(s, condition)
    decreases |s|
  {
    if s != [] {
      SortedCounts(s[1..], before, condition);
      CountInserted(s[0], Sorted(s[1..], before), before, condition);
    }
  }

  lemma {:induction false} InsertIsPermutation<T>(x: T, s: seq<T>, before: (T, T) -> bool)
    ensures multiset(Insert(x, s, before)) == multiset([x] + s)
  {
    if s != [] && before(s[0], x) {
      InsertIsPermutation(x, s[1..], before);
      assert s == [s[0]] + s[1..];
    }
  }

  lemma {:induction false} SortedIsPermutation<T>(s: seq<T>, before: (T, T) -> bool)
    ensures multiset(Sorted(s, before)) == multiset(s)
  {
    if s != [] {
      SortedIsPermutation(s[1..], before);
      InsertIsPermutation(s[0], Sorted(s[1..], before), before);
      assert s == [s[0]] + s[1..];
    }
  }

  lemma {:induction false} InsertedLength<T>(x: T, s: seq<T>, before: (T, T) -> bool)
    ensures |Insert(x, s, before)| == |s| + 1
  {
    if s != [] && before(s[0], x) {
      InsertedLength(x, s[1..], before);
    }
  }

  lemma {:induction false} SortedLength<T>(s: seq<T>, before: (T, T) -> bool)
    ensures |Sorted(s, before)| == |s|
  {
    if s != [] {
      SortedLength(s[1..], before);
      InsertedLength(s[0], Sorted(s[1..], before), before);
    }
  }

  predicate Ascending<T>(s: seq<T>, key: T -> real) {
    forall i, j :: 0 <= i <= j < |s| ==> key(s[i]) <= key(s[j])
  }

  function ByKey<T>(key: T -> real): (T, T) -> bool {
    (a, b) => key(a) < key(b)
  }

  lemma {:induction false} InsertAscends<T>(x: T, s: seq<T>, key: T -> real)
    requires Ascending(s, key)
    ensures Ascending(Insert(x, s, ByKey(key)), key)
    ensures |Insert(x, s, ByKey(key))| > 0
    ensures var first := key(Insert(x, s, ByKey(key))[0]); first == key(x) || (s != [] && first == key(s[0]) < key(x))
  {
    if s != [] && key(s[0]) < key(x) {
      InsertAscends(x, s[1..], key);
    }
  }

  lemma {:induction false} SortedAscends<T>(s: seq<T>, key: T -> real)
    ensures Ascending(Sorted(s, ByKey(key)), key)
  {
    if s != [] {
      SortedAscends(s[1..], key);
      InsertAscends(s[0], Sorted(s[1..], ByKey(key)), key);
    }
  }

  /** The items of one key, in their order. */
  function Tied<T>(s: seq<T>, key: T -> real, v: real): seq<T> {
    if s == [] then [] else (if key(s[0]) == v then [s[0]] else []) + Tied(s[1..], key, v)
  }

  lemma {:induction false} InsertIsStable<T>(x: T, s: seq<T>, key: T -> real, v: real)
    ensures Tied(Insert(x, s, ByKey(key)), key, v) == Tied([x] + s, key, v)
  {
    if s != [] && key(s[0]) < key(x) {
      InsertIsStable(x, s[1..], key, v);
      assert ([x] + s)[1..] == s && ([x] + s[1..])[1..] == s[1..];
    }
  }

  /** Sorting by a key leaves the items that share one in their order. */
  lemma {:induction false} SortedIsStable<T>(s: seq<T>, key: T -> real, v: real)
    ensures Tied(Sorted(s, ByKey(key)), key, v) == Tied(s, key, v)
  {
    if s != [] {
      SortedIsStable(s[1..], key, v);
      var rest := Sorted(s[1..], ByKey(key));
      InsertIsStable(s[0], rest, key, v);
      assert ([s[0]] + rest)[1..] == rest;
    }
  }

  lemma {:induction false} InsertMembers<T(!new)>(x: T, s: seq<T>, before: (T, T) -> bool)
    ensures forall y :: y in Insert(x, s, before) <==> y == x || y in s
  {
    if s != [] && before(s[0], x) {
      InsertMembers(x, s[1..], before);
      assert s == [s[0]] + s[1..];
    }
  }

  lemma {:induction false} SortedMembers<T(!new)>(s: seq<T>, before: (T, T) -> bool)
    ensures forall y :: y in Sorted(s, before) <==> y in s
  {
    if s != [] {
      SortedMembers(s[1..], before);
      InsertMembers(s[0], Sorted(s[1..], before), before);
      assert s == [s[0]] + s[1..];
    }
  }

  /** No item comes before an earlier one. */
  predicate IsOrdered<T>(s: seq<T>, before: (T, T) -> bool) {
    forall i, j :: 0 <= i < j < |s| ==> !before(s[j], s[i])
  }

  ghost predicate IsWeakOrder<T(!new)>(before: (T, T) -> bool) {
    && (forall a, b :: before(a, b) ==> !before(b, a))
    && (forall a, b, c :: !before(b, a) && !before(c, b) ==> !before(c, a))
  }

  lemma {:induction false} InsertIsOrdered<T(!new)>(x: T, s: seq<T>, before: (T, T) -> bool)
    requires IsWeakOrder(before) && IsOrdered(s, before)
    ensures IsOrdered(Insert(x, s, before), before)
  {
    if s != [] && before(s[0], x) {
      InsertIsOrdered(x, s[1..], before);
      InsertMembers(x, s[1..], before);
      var rest := Insert(x, s[1..], before);
      forall j | 0 <= j < |rest|
        ensures !before(rest[j], s[0])
      {
        assert rest[j] in rest;
        if rest[j] != x {
          var k :| 0 <= k < |s| - 1 && s[1..][k] == rest[j];
          assert s[k + 1] == rest[j];
        }
      }
    }
  }

  lemma {:induction false} SortedIsOrdered<T(!new)>(s: seq<T>, before: (T, T) -> bool)
    requires IsWeakOrder(before)
    ensures IsOrdered(Sorted(s, before), before)
  {
    if s != [] {
      SortedIsOrdered(s[1..], before);
      InsertIsOrdered(s[0], Sorted(s[1..], before), before);
    }
  }
}
