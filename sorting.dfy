/** Python's `sorted(items, key=k, reverse=True)`: a stable sort in
    non-increasing key order. Both the engine ranking and the top-entity
    selection use it, on engine scores and on entity counts. */
module Sorting {
  import opened Prelude

  predicate SortedDesc<T>(s: seq<T>, key: T -> real)
  {
    forall i, j :: 0 <= i < j < |s| ==> key(s[i]) >= key(s[j])
  }

  /** The items of `s` whose key is `v`, in their order in `s`. Two sequences
      with the same `KeyRun` for every `v` agree on the relative order of
      items with equal keys, which is what stability promises. */
  function KeyRun<T>(s: seq<T>, key: T -> real, v: real): seq<T>
  {
    if s == [] then [] else (if key(s[0]) == v then [s[0]] else []) + KeyRun(s[1..], key, v)
  }

  /** Places `x` in front of the first item whose key is not larger than its own. */
  function Insert<T>(x: T, s: seq<T>, key: T -> real): seq<T>
  {
    if s == [] || key(x) >= key(s[0]) then [x] + s else [s[0]] + Insert(x, s[1..], key)
  }

  /** Insertion sort from the back: an item is inserted in front of the
      equal-keyed items that follow it in the input, so ties keep input order. */
  function SortDesc<T>(s: seq<T>, key: T -> real): seq<T>
  {
    if s == [] then [] else Insert(s[0], SortDesc(s[1..], key), key)
  }

  lemma {:induction false} InsertPermutes<T>(x: T, s: seq<T>, key: T -> real)
    ensures multiset(Insert(x, s, key)) == multiset{x} + multiset(s)
  {
    if s != [] && key(x) < key(s[0]) {
      InsertPermutes(x, s[1..], key);
      assert s == [s[0]] + s[1..];
    }
  }

  lemma {:induction false} InsertSorted<T>(x: T, s: seq<T>, key: T -> real)
    requires SortedDesc(s, key)
    ensures SortedDesc(Insert(x, s, key), key)
  {
    if s != [] && key(x) < key(s[0]) {
      var rest := Insert(x, s[1..], key);
      InsertSorted(x, s[1..], key);
      InsertPermutes(x, s[1..], key);
      forall k | 0 <= k < |rest| ensures key(s[0]) >= key(rest[k]) {
        assert rest[k] in multiset(rest);
        if rest[k] != x {
          assert rest[k] in multiset(s[1..]);
        }
      }
    }
  }

  lemma KeyRunCons<T>(y: T, s: seq<T>, key: T -> real, v: real)
    ensures KeyRun([y] + s, key, v) == (if key(y) == v then [y] else []) + KeyRun(s, key, v)
  {
    assert ([y] + s)[1..] == s;
  }

  lemma {:induction false} InsertKeyRun<T>(x: T, s: seq<T>, key: T -> real, v: real)
    ensures KeyRun(Insert(x, s, key), key, v)
         == (if key(x) == v then [x] else []) + KeyRun(s, key, v)
  {
    if s == [] || key(x) >= key(s[0]) {
      KeyRunCons(x, s, key, v);
    } else {
      var rest := Insert(x, s[1..], key);
      InsertKeyRun(x, s[1..], key, v);
      KeyRunCons(s[0], rest, key, v);
      KeyRunCons(s[0], s[1..], key, v);
      assert s == [s[0]] + s[1..];
      var head: seq<T> := if key(s[0]) == v then [s[0]] else [];
      var mine: seq<T> := if key(x) == v then [x] else [];
      // x's key is below s[0]'s, so at most one of them has key v
      assert head == [] || mine == [];
      ConcatAssoc(head, mine, KeyRun(s[1..], key, v));
    }
  }

  /** The sort is a permutation, in non-increasing key order, and stable. */
  lemma {:induction false} SortDescCorrect<T>(s: seq<T>, key: T -> real)
    ensures multiset(SortDesc(s, key)) == multiset(s)
    ensures SortedDesc(SortDesc(s, key), key)
    ensures forall v :: KeyRun(SortDesc(s, key), key, v) == KeyRun(s, key, v)
  {
    if s != [] {
      SortDescCorrect(s[1..], key);
      InsertPermutes(s[0], SortDesc(s[1..], key), key);
      InsertSorted(s[0], SortDesc(s[1..], key), key);
      assert s == [s[0]] + s[1..];
      forall v ensures KeyRun(SortDesc(s, key), key, v) == KeyRun(s, key, v) {
        InsertKeyRun(s[0], SortDesc(s[1..], key), key, v);
      }
    }
  }

  /** A sort without repeated items yields no repeated items. */
  lemma {:induction false} SortDescDistinct<T>(s: seq<T>, key: T -> real)
    requires forall i, j :: 0 <= i < j < |s| ==> s[i] != s[j]
    ensures forall i, j :: 0 <= i < j < |SortDesc(s, key)| ==> SortDesc(s, key)[i] != SortDesc(s, key)[j]
  {
    if s != [] {
      SortDescDistinct(s[1..], key);
      SortDescCorrect(s[1..], key);
      var rest := SortDesc(s[1..], key);
      assert s[0] !in s[1..];
      assert s[0] !in multiset(rest);
      InsertDistinct(s[0], rest, key);
    }
  }

  lemma {:induction false} InsertDistinct<T>(x: T, s: seq<T>, key: T -> real)
    requires forall i, j :: 0 <= i < j < |s| ==> s[i] != s[j]
    requires x !in s
    ensures forall i, j :: 0 <= i < j < |Insert(x, s, key)| ==> Insert(x, s, key)[i] != Insert(x, s, key)[j]
  {
    if s != [] && key(x) < key(s[0]) {
      InsertDistinct(x, s[1..], key);
      InsertPermutes(x, s[1..], key);
      var rest := Insert(x, s[1..], key);
      assert s[0] !in multiset(rest);
      assert Insert(x, s, key) == [s[0]] + rest;
    }
  }

  /** What a prefix of a sorted sequence keeps, for each key, is a prefix of
      what the whole sequence holds for that key. */
  lemma {:induction false} KeyRunPrefix<T>(p: seq<T>, s: seq<T>, key: T -> real, v: real)
    requires p <= s
    ensures KeyRun(p, key, v) <= KeyRun(s, key, v)
  {
    if p != [] {
      KeyRunPrefix(p[1..], s[1..], key, v);
    }
  }

  /** Deleting items keeps a sorted sequence sorted. */
  lemma {:induction false} SubsequenceSorted<T>(a: seq<T>, s: seq<T>, key: T -> real)
    requires IsSubsequence(a, s)
    requires SortedDesc(s, key)
    ensures SortedDesc(a, key)
    decreases |s|
  {
    if a != [] && s != [] {
      if a[0] == s[0] {
        SubsequenceSorted(a[1..], s[1..], key);
        SubsequenceMembers(a[1..], s[1..]);
        forall j | 0 < j < |a| ensures key(a[0]) >= key(a[j]) {
          assert a[j] == a[1..][j - 1];
          var k :| 0 <= k < |s[1..]| && s[1..][k] == a[j];
          assert s[k + 1] == a[j];
        }
      } else {
        SubsequenceSorted(a, s[1..], key);
      }
    }
  }

  /** A filter that keeps every item with key `v` keeps the whole run of `v`. */
  lemma {:induction false} KeyRunFilterAll<T>(s: seq<T>, p: T -> bool, key: T -> real, v: real)
    requires forall x :: key(x) == v ==> p(x)
    ensures KeyRun(Filter(s, p), key, v) == KeyRun(s, key, v)
  {
    if s != [] {
      KeyRunFilterAll(s[1..], p, key, v);
      var rest := Filter(s[1..], p);
      if p(s[0]) {
        assert Filter(s, p) == [s[0]] + rest;
        assert ([s[0]] + rest)[1..] == rest;
      } else {
        assert Filter(s, p) == rest;
      }
    }
  }

  /** A filter that drops every item with key `v` leaves no run of `v`. */
  lemma {:induction false} KeyRunFilterNone<T>(s: seq<T>, p: T -> bool, key: T -> real, v: real)
    requires forall x :: key(x) == v ==> !p(x)
    ensures KeyRun(Filter(s, p), key, v) == []
  {
    if s != [] {
      KeyRunFilterNone(s[1..], p, key, v);
      var rest := Filter(s[1..], p);
      if p(s[0]) {
        assert Filter(s, p) == [s[0]] + rest;
        assert ([s[0]] + rest)[1..] == rest;
      } else {
        assert Filter(s, p) == rest;
      }
    }
  }
}
