/**
 * Orders and the collection operations built on them: the row a query's
 * `First` picks (the least primary key), the rows an `ORDER BY` query lists,
 * and JavaScript's `filter` and `sort` with a numeric comparator.
 */
module Ordering {
  import opened Strings

  /** `le` is total and transitive: a total preorder, as a comparator or ORDER BY key induces. */
  ghost predicate TotalPreorder<T(!new)>(le: (T, T) -> bool) {
    (forall a, b :: le(a, b) || le(b, a))
    && (forall a, b, c :: le(a, b) && le(b, c) ==> le(a, c))
  }

  predicate SortedBy<T>(s: seq<T>, le: (T, T) -> bool) {
    forall i, j :: 0 <= i < j < |s| ==> le(s[i], s[j])
  }

  predicate Distinct<T(==)>(s: seq<T>) {
    forall i, j :: 0 <= i < j < |s| ==> s[i] != s[j]
  }

  /** Every non-empty finite set has a least element under a total preorder. */
  lemma {:induction false} LeastExists<T(!new)>(s: set<T>, le: (T, T) -> bool)
    requires s != {} && TotalPreorder(le)
    ensures exists m :: m in s && forall x :: x in s ==> le(m, x)
    decreases |s|
  {
    var y :| y in s;
    if s == {y} {
      assert le(y, y) || le(y, y);
      assert forall x :: x in s ==> le(y, x);
    } else {
      LeastExists(s - {y}, le);
      var m :| m in s - {y} && forall x :: x in s - {y} ==> le(m, x);
      if le(m, y) {
        assert forall x :: x in s ==> le(m, x);
      } else {
        assert le(y, m);
        assert forall x :: x in s ==> le(y, x);
      }
    }
  }

  lemma StrLeIsTotalPreorder()
    ensures TotalPreorder((a: string, b: string) => StrLe(a, b))
  {
    forall a: string, b: string ensures StrLe(a, b) || StrLe(b, a) {
      StrLeTotal(a, b);
    }
    forall a: string, b: string, c: string | StrLe(a, b) && StrLe(b, c) ensures StrLe(a, c) {
      StrLeTransitive(a, b, c);
    }
  }

  /** Ascending order of an integer key, as `ORDER BY key ASC`. */
  function AscendingBy<T>(key: T -> int): (T, T) -> bool {
    (a: T, b: T) => key(a) <= key(b)
  }

  /** Descending order of an integer key, as `ORDER BY key DESC`. */
  function DescendingBy<T>(key: T -> int): (T, T) -> bool {
    (a: T, b: T) => key(a) >= key(b)
  }

  /** Ascending order of a text key. */
  function TextAscendingBy<T>(key: T -> string): (T, T) -> bool {
    (a: T, b: T) => StrLe(key(a), key(b))
  }

  lemma AscendingByIsTotalPreorder<T(!new)>(key: T -> int)
    ensures TotalPreorder(AscendingBy(key))
  {
  }

  lemma DescendingByIsTotalPreorder<T(!new)>(key: T -> int)
    ensures TotalPreorder(DescendingBy(key))
  {
  }

  lemma TextAscendingByIsTotalPreorder<T(!new)>(key: T -> string)
    ensures TotalPreorder(TextAscendingBy(key))
  {
    forall a: T, b: T ensures StrLe(key(a), key(b)) || StrLe(key(b), key(a)) {
      StrLeTotal(key(a), key(b));
    }
    forall a: T, b: T, c: T | StrLe(key(a), key(b)) && StrLe(key(b), key(c))
      ensures StrLe(key(a), key(c))
    {
      StrLeTransitive(key(a), key(b), key(c));
    }
  }

  /**
   * The least string of a non-empty set: the primary key GORM's `First` picks
   * among the matching rows (it orders by primary key).
   */
  function Least(s: set<string>): (m: string)
    requires s != {}
    ensures m in s && forall x :: x in s ==> StrLe(m, x)
  {
    StrLeIsTotalPreorder();
    LeastExists(s, (a: string, b: string) => StrLe(a, b));
    forall a: string, b: string | StrLe(a, b) && StrLe(b, a) ensures a == b {
      StrLeAntisymmetric(a, b);
    }
    var m :| m in s && forall x :: x in s ==> StrLe(m, x);
    m
  }

  /**
   * The elements of a finite set, each once, in `le` order: what an
   * `ORDER BY` query returns (rows with equal keys come in either order).
   */
  method Enumerate<T(==, !new)>(s: set<T>, le: (T, T) -> bool) returns (r: seq<T>)
    requires TotalPreorder(le)
    ensures forall x :: x in r <==> x in s
    ensures Distinct(r) && |r| == |s|
    ensures SortedBy(r, le)
  {
    r := [];
    var rest := s;
    while rest != {}
      invariant rest <= s
      invariant forall x :: x in r <==> x in s - rest
      invariant Distinct(r) && |r| + |rest| == |s|
      invariant SortedBy(r, le)
      invariant forall i, x :: 0 <= i < |r| && x in rest ==> le(r[i], x)
      decreases |rest|
    {
      LeastExists(rest, le);
      var m :| m in rest && forall x :: x in rest ==> le(m, x);
      assert m !in r;
      r := r + [m];
      rest := rest - {m};
    }
  }

  /** JavaScript `s.filter(p)`. */
  function Filter<T(!new)>(s: seq<T>, p: T -> bool): (r: seq<T>)
    ensures |r| <= |s|
    ensures forall x :: x in r <==> x in s && p(x)
    ensures multiset(r) <= multiset(s)
  {
    if s == [] then []
    else
      var rest := Filter(s[..|s| - 1], p);
      assert s == s[..|s| - 1] + [s[|s| - 1]];
      if p(s[|s| - 1]) then rest + [s[|s| - 1]] else rest
  }

  /** The positions of s whose element satisfies p, ascending. */
  function KeptPositions<T>(s: seq<T>, p: T -> bool): (idx: seq<nat>)
    ensures forall k :: 0 <= k < |idx| ==> idx[k] < |s| && p(s[idx[k]])
    ensures forall k, l :: 0 <= k < l < |idx| ==> idx[k] < idx[l]
    ensures forall i :: 0 <= i < |s| && p(s[i]) ==> i in idx
  {
    if s == [] then []
    else
      var init := KeptPositions(s[..|s| - 1], p);
      assert forall k :: 0 <= k < |init| ==> s[init[k]] == s[..|s| - 1][init[k]];
      assert forall i :: 0 <= i < |s| - 1 ==> s[i] == s[..|s| - 1][i];
      if p(s[|s| - 1]) then init + [|s| - 1] else init
  }

  /**
   * `filter` keeps the order: its result is the elements at the kept
   * positions, in ascending position order.
   */
  lemma {:induction false} FilterKeepsOrder<T(!new)>(s: seq<T>, p: T -> bool)
    ensures |Filter(s, p)| == |KeptPositions(s, p)|
    ensures forall k :: 0 <= k < |Filter(s, p)| ==> Filter(s, p)[k] == s[KeptPositions(s, p)[k]]
  {
    if s != [] {
      var init := s[..|s| - 1];
      FilterKeepsOrder(init, p);
      var r := Filter(init, p);
      var idx := KeptPositions(init, p);
      forall k | 0 <= k < |r| ensures r[k] == s[idx[k]] {
        assert s[idx[k]] == init[idx[k]];
      }
    }
  }

  predicate SortedByKey<T>(s: seq<T>, key: T -> int) {
    forall i, j :: 0 <= i < j < |s| ==> key(s[i]) <= key(s[j])
  }

  /** Inserts x into s before the first element whose key exceeds x's. */
  function InsertByKey<T>(x: T, s: seq<T>, key: T -> int): (r: seq<T>)
    ensures multiset(r) == multiset(s) + multiset{x}
  {
    if s == [] || key(x) < key(s[0]) then [x] + s
    else
      assert s == [s[0]] + s[1..];
      [s[0]] + InsertByKey(x, s[1..], key)
  }

  /** A lower bound on the keys of s and of x bounds the keys after the insertion. */
  lemma {:induction false} InsertByKeyBound<T>(x: T, s: seq<T>, key: T -> int, b: int)
    requires b <= key(x) && forall i :: 0 <= i < |s| ==> b <= key(s[i])
    ensures forall i :: 0 <= i < |InsertByKey(x, s, key)| ==> b <= key(InsertByKey(x, s, key)[i])
  {
    if s != [] && key(s[0]) <= key(x) {
      InsertByKeyBound(x, s[1..], key, b);
    }
  }

  lemma {:induction false} InsertByKeySorted<T>(x: T, s: seq<T>, key: T -> int)
    requires SortedByKey(s, key)
    ensures SortedByKey(InsertByKey(x, s, key), key)
  {
    if s != [] && key(s[0]) <= key(x) {
      InsertByKeySorted(x, s[1..], key);
      InsertByKeyBound(x, s[1..], key, key(s[0]));
    }
  }

  /**
   * JavaScript `s.sort((a, b) => key(a) - key(b))`: ascending by key, each
   * element inserted after the equal keys before it.
   */
  function SortByKey<T>(s: seq<T>, key: T -> int): (r: seq<T>)
    ensures SortedByKey(r, key)
    ensures multiset(r) == multiset(s)
  {
    if s == [] then []
    else
      assert s == s[..|s| - 1] + [s[|s| - 1]];
      var sorted := SortByKey(s[..|s| - 1], key);
      InsertByKeySorted(s[|s| - 1], sorted, key);
      InsertByKey(s[|s| - 1], sorted, key)
  }
}
