/**
 * Python's `sorted(xs, key=k, reverse=desc)` on an integer key: a stable
 * sort (equal keys keep their input order, also when `reverse=True`), and
 * `list.reverse()`.
 */
module Sorting {

  /** `a` may stand before `b` in the requested direction. */
  predicate InOrder(a: int, b: int, descending: bool) {
    if descending then a >= b else a <= b
  }

  predicate Sorted<T>(s: seq<T>, key: T -> int, descending: bool) {
    forall i, j :: 0 <= i < j < |s| ==> InOrder(key(s[i]), key(s[j]), descending)
  }

  /**
   * Inserts `x` in front of the first element it may precede; used on the
   * sorted tail, this places `x` before the equal keys that followed it.
   */
  function Insert<T>(x: T, s: seq<T>, key: T -> int, descending: bool): (r: seq<T>)
    ensures multiset(r) == multiset(s) + multiset{x}
    ensures |r| == |s| + 1
  {
    if s == [] then [x]
    else if InOrder(key(x), key(s[0]), descending) then [x] + s
    else
      assert s == [s[0]] + s[1..];
      [s[0]] + Insert(x, s[1..], key, descending)
  }

  lemma {:induction false} InsertSorted<T>(x: T, s: seq<T>, key: T -> int, descending: bool)
    requires Sorted(s, key, descending)
    ensures Sorted(Insert(x, s, key, descending), key, descending)
  {
    if s != [] && !InOrder(key(x), key(s[0]), descending) {
      InsertSorted(x, s[1..], key, descending);
      var t := Insert(x, s[1..], key, descending);
      var r := [s[0]] + t;
      forall j | 0 < j < |r| ensures InOrder(key(s[0]), key(r[j]), descending) {
        assert r[j] in multiset(t);
        assert r[j] in multiset(s[1..]) + multiset{x};
        if r[j] != x {
          assert r[j] in s[1..];
        }
      }
    }
  }

  /** The stable sort: the result is a sorted permutation of the input. */
  function SortBy<T>(s: seq<T>, key: T -> int, descending: bool): (r: seq<T>)
    ensures multiset(r) == multiset(s) && |r| == |s|
    ensures Sorted(r, key, descending)
  {
    if s == [] then []
    else
      InsertSorted(s[0], SortBy(s[1..], key, descending), key, descending);
      assert s == [s[0]] + s[1..];
      Insert(s[0], SortBy(s[1..], key, descending), key, descending)
  }

  /** Sorting a list that is already in order gives it back unchanged. */
  lemma {:induction false} SortBySorted<T>(s: seq<T>, key: T -> int, descending: bool)
    requires Sorted(s, key, descending)
    ensures SortBy(s, key, descending) == s
  {
    if s != [] {
      SortBySorted(s[1..], key, descending);
      if s[1..] != [] {
        assert InOrder(key(s[0]), key(s[1..][0]), descending);
      }
      assert [s[0]] + s[1..] == s;
    }
  }

  /** Python's `list.reverse()`. */
  function Reverse<T>(s: seq<T>): (r: seq<T>)
    ensures |r| == |s|
    ensures forall i :: 0 <= i < |s| ==> r[i] == s[|s| - 1 - i]
  {
    if s == [] then [] else Reverse(s[1..]) + [s[0]]
  }

  lemma ReverseMultiset<T>(s: seq<T>)
    ensures multiset(Reverse(s)) == multiset(s)
  {
    if s != [] {
      ReverseMultiset(s[1..]);
      assert s == [s[0]] + s[1..];
    }
  }

  /** Reversing a list sorted one way gives the list sorted the other way. */
  lemma ReverseSorted<T>(s: seq<T>, key: T -> int, descending: bool)
    requires Sorted(s, key, descending)
    ensures Sorted(Reverse(s), key, !descending)
  {
    var r := Reverse(s);
    forall i, j | 0 <= i < j < |r| ensures InOrder(key(r[i]), key(r[j]), !descending) {
      assert r[i] == s[|s| - 1 - i] && r[j] == s[|s| - 1 - j];
    }
  }

  lemma SortedPrefix<T>(s: seq<T>, n: nat, key: T -> int, descending: bool)
    requires Sorted(s, key, descending) && n <= |s|
    ensures Sorted(s[..n], key, descending)
  {
  }

  /**
   * The first `k` of a newest-first list, reversed, are in ascending order
   * and are drawn from the list.
   */
  lemma PrefixReversed<T>(desc: seq<T>, k: nat, key: T -> int)
    requires Sorted(desc, key, true) && k <= |desc|
    ensures Sorted(Reverse(desc[..k]), key, false)
    ensures multiset(Reverse(desc[..k])) == multiset(desc[..k]) <= multiset(desc)
  {
    SortedPrefix(desc, k, key, true);
    ReverseSorted(desc[..k], key, true);
    ReverseMultiset(desc[..k]);
    assert desc == desc[..k] + desc[k..];
  }

  /**
   * In a list sorted by descending key, what is left after the first `k` is
   * the rest of the list, and none of it outranks one of the first `k`.
   */
  lemma PrefixDominates<T>(desc: seq<T>, k: nat, key: T -> int)
    requires Sorted(desc, key, true) && k <= |desc|
    ensures multiset(desc) - multiset(desc[..k]) == multiset(desc[k..])
    ensures forall x, y :: x in desc[..k] && y in desc[k..] ==> key(y) <= key(x)
  {
    assert desc == desc[..k] + desc[k..];
    forall x, y | x in desc[..k] && y in desc[k..] ensures key(y) <= key(x) {
      var i :| 0 <= i < k && desc[i] == x;
      var j :| k <= j < |desc| && desc[j] == y;
      assert InOrder(key(desc[i]), key(desc[j]), true);
    }
  }

  /** The elements whose key is `k`, in input order. */
  function Where<T>(s: seq<T>, key: T -> int, k: int): (r: seq<T>)
    ensures forall i :: 0 <= i < |r| ==> key(r[i]) == k
    ensures |r| <= |s|
  {
    if s == [] then [] else (if key(s[0]) == k then [s[0]] else []) + Where(s[1..], key, k)
  }

  /** An element of key 1 goes after all the 0s and before the 1s. */
  lemma {:induction false} InsertOneKey<T>(x: T, a: seq<T>, b: seq<T>, key: T -> int)
    requires key(x) == 1
    requires forall i :: 0 <= i < |a| ==> key(a[i]) == 0
    requires forall i :: 0 <= i < |b| ==> key(b[i]) == 1
    ensures Insert(x, a + b, key, false) == a + ([x] + b)
  {
    if a != [] {
      assert (a + b)[0] == a[0];
      assert (a + b)[1..] == a[1..] + b;
      InsertOneKey(x, a[1..], b, key);
      assert [a[0]] + (a[1..] + ([x] + b)) == a + ([x] + b);
    } else {
      assert a + b == b;
    }
  }

  /** `Where` keeps a head of the wanted key... */
  lemma WhereTake<T>(s: seq<T>, key: T -> int, k: int)
    requires s != [] && key(s[0]) == k
    ensures Where(s, key, k) == [s[0]] + Where(s[1..], key, k)
  {
  }

  /** ...and drops any other. */
  lemma WhereSkip<T>(s: seq<T>, key: T -> int, k: int)
    requires s != [] && key(s[0]) != k
    ensures Where(s, key, k) == Where(s[1..], key, k)
  {
    assert [] + Where(s[1..], key, k) == Where(s[1..], key, k);
  }

  lemma AppendAssoc<T>(p: seq<T>, q: seq<T>, r: seq<T>)
    ensures (p + q) + r == p + (q + r)
  {
  }

  /** An element of key 0 goes in front of a list of 0s and 1s. */
  lemma InsertZeroKey<T>(x: T, t: seq<T>, key: T -> int)
    requires key(x) == 0 && (t != [] ==> key(t[0]) >= 0)
    ensures Insert(x, t, key, false) == [x] + t
  {
  }

  /** Inserting a head of key 0 into the rest, already split into its 0s and 1s. */
  lemma HeadZeroStep<T>(s: seq<T>, key: T -> int)
    requires s != [] && key(s[0]) == 0
    ensures Insert(s[0], Where(s[1..], key, 0) + Where(s[1..], key, 1), key, false)
            == Where(s, key, 0) + Where(s, key, 1)
  {
    var x, a, b := s[0], Where(s[1..], key, 0), Where(s[1..], key, 1);
    assert a + b != [] ==> key((a + b)[0]) >= 0 by {
      if a != [] {
        assert (a + b)[0] == a[0];
      } else {
        assert a + b == b;
      }
    }
    InsertZeroKey(x, a + b, key);
    WhereTake(s, key, 0);
    WhereSkip(s, key, 1);
    AppendAssoc([x], a, b);
  }

  /** Inserting a head of key 1 into the rest, already split into its 0s and 1s. */
  lemma HeadOneStep<T>(s: seq<T>, key: T -> int)
    requires s != [] && key(s[0]) == 1
    ensures Insert(s[0], Where(s[1..], key, 0) + Where(s[1..], key, 1), key, false)
            == Where(s, key, 0) + Where(s, key, 1)
  {
    var x, a, b := s[0], Where(s[1..], key, 0), Where(s[1..], key, 1);
    InsertOneKey(x, a, b, key);
    WhereSkip(s, key, 0);
    WhereTake(s, key, 1);
  }

  /**
   * Sorting ascending on a key that is 0 or 1 puts the 0s first and keeps
   * the input order within each group: the sort is stable.
   */
  lemma {:induction false} SortByTwoKeys<T>(s: seq<T>, key: T -> int)
    requires forall x :: x in s ==> key(x) == 0 || key(x) == 1
    ensures SortBy(s, key, false) == Where(s, key, 0) + Where(s, key, 1)
  {
    if s != [] {
      assert forall x :: x in s[1..] ==> x in s;
      SortByTwoKeys(s[1..], key);
      assert s[0] in s;
      if key(s[0]) == 0 {
        HeadZeroStep(s, key);
      } else {
        HeadOneStep(s, key);
      }
    }
  }

  /** Inserting into a sorted list puts `x` in front of every element with its key. */
  lemma {:induction false} InsertWhere<T>(x: T, t: seq<T>, key: T -> int, descending: bool, k: int)
    requires Sorted(t, key, descending)
    ensures Where(Insert(x, t, key, descending), key, k) == (if key(x) == k then [x] else []) + Where(t, key, k)
  {
    var xs := if key(x) == k then [x] else [];
    if t == [] {
      assert [x][1..] == [];
    } else if InOrder(key(x), key(t[0]), descending) {
      assert ([x] + t)[0] == x && ([x] + t)[1..] == t;
    } else {
      var rest := Insert(x, t[1..], key, descending);
      InsertWhere(x, t[1..], key, descending, k);
      assert ([t[0]] + rest)[0] == t[0] && ([t[0]] + rest)[1..] == rest;
      var ts := if key(t[0]) == k then [t[0]] else [];
      assert key(x) != key(t[0]);
      assert ts + (xs + Where(t[1..], key, k)) == xs + (ts + Where(t[1..], key, k));
    }
  }

  /**
   * The sort is stable for any key: the elements of each key come out in
   * the order they went in.
   */
  lemma {:induction false} SortByStable<T>(s: seq<T>, key: T -> int, descending: bool, k: int)
    ensures Where(SortBy(s, key, descending), key, k) == Where(s, key, k)
  {
    if s != [] {
      SortByStable(s[1..], key, descending, k);
      InsertWhere(s[0], SortBy(s[1..], key, descending), key, descending, k);
    }
  }

  /** `Where` of a list with one more element at the end. */
  lemma {:induction false} WhereAppend<T>(s: seq<T>, x: T, key: T -> int, k: int)
    ensures Where(s + [x], key, k) == Where(s, key, k) + (if key(x) == k then [x] else [])
  {
    if s == [] {
      assert [x][1..] == [];
    } else {
      assert (s + [x])[0] == s[0];
      assert (s + [x])[1..] == s[1..] + [x];
      WhereAppend(s[1..], x, key, k);
      AppendAssoc(if key(s[0]) == k then [s[0]] else [], Where(s[1..], key, k), if key(x) == k then [x] else []);
    }
  }
}
