/** Generic sequence operations with the semantics of the JavaScript array
    methods the packing engines rely on: `some`, `find`, a `for … break`
    search, and the (stable) `sort` with a numeric comparator. */
module Sequences {

  datatype Option<T> = None | Some(value: T)

  /** `s.some(p)`: true iff some element satisfies `p`. */
  function Any<T>(s: seq<T>, p: T -> bool): (r: bool)
    ensures r <==> exists i :: 0 <= i < |s| && p(s[i])
  {
    if |s| == 0 then false
    else if p(s[0]) then true
    else
      var rest := Any(s[1..], p);
      assert forall i :: 1 <= i < |s| ==> s[i] == s[1..][i - 1];
      rest
  }

  /** Index of the first element satisfying `p`, or `|s|` when there is none
      (a `for` loop that breaks on the first success). */
  function FirstIndex<T>(s: seq<T>, p: T -> bool): (k: nat)
    ensures k <= |s|
    ensures forall j :: 0 <= j < k ==> !p(s[j])
    ensures k < |s| ==> p(s[k])
  {
    if |s| == 0 then 0
    else if p(s[0]) then 0
    else
      var k := FirstIndex(s[1..], p);
      assert forall j :: 1 <= j < |s| ==> s[j] == s[1..][j - 1];
      1 + k
  }

  /** `s.find(p)`: the first element satisfying `p`, if any. */
  function Find<T>(s: seq<T>, p: T -> bool): (r: Option<T>)
    ensures r.Some? <==> exists i :: 0 <= i < |s| && p(s[i])
    ensures r.Some? ==> exists i :: 0 <= i < |s| && s[i] == r.value && p(s[i])
                                    && forall j :: 0 <= j < i ==> !p(s[j])
  {
    var k := FirstIndex(s, p);
    if k < |s| then Some(s[k]) else None
  }

  /** Elements of `s` are in ascending order of `key`. */
  predicate SortedBy<T>(s: seq<T>, key: T -> real)
  {
    forall i, j :: 0 <= i < j < |s| ==> key(s[i]) <= key(s[j])
  }

  /** The subsequence of elements whose key equals `k`, in their original order. */
  function KeyFilter<T>(s: seq<T>, key: T -> real, k: real): seq<T>
  {
    if |s| == 0 then []
    else (if key(s[0]) == k then [s[0]] else []) + KeyFilter(s[1..], key, k)
  }

  /** Inserts `x` in front of the first element whose key is not smaller,
      so `x` precedes every element with an equal key. */
  function Insert<T>(x: T, s: seq<T>, key: T -> real): seq<T>
  {
    if |s| == 0 then [x]
    else if key(x) <= key(s[0]) then [x] + s
    else [s[0]] + Insert(x, s[1..], key)
  }

  lemma KeyFilterCons<T>(a: T, t: seq<T>, key: T -> real, k: real)
    ensures KeyFilter([a] + t, key, k) == (if key(a) == k then [a] else []) + KeyFilter(t, key, k)
  {
    assert ([a] + t)[1..] == t;
  }

  lemma {:induction false} InsertLowerBound<T>(x: T, s: seq<T>, key: T -> real, b: real)
    requires key(x) >= b
    requires forall i :: 0 <= i < |s| ==> key(s[i]) >= b
    ensures forall i :: 0 <= i < |Insert(x, s, key)| ==> key(Insert(x, s, key)[i]) >= b
  {
    if |s| > 0 && key(x) > key(s[0]) {
      InsertLowerBound(x, s[1..], key, b);
    }
  }

  lemma {:induction false} InsertSorted<T>(x: T, s: seq<T>, key: T -> real)
    requires SortedBy(s, key)
    ensures SortedBy(Insert(x, s, key), key)
  {
    if |s| > 0 && key(x) > key(s[0]) {
      var t := s[1..];
      InsertSorted(x, t, key);
      InsertLowerBound(x, t, key, key(s[0]));
    }
  }

  lemma {:induction false} InsertMultiset<T>(x: T, s: seq<T>, key: T -> real)
    ensures multiset(Insert(x, s, key)) == multiset(s) + multiset{x}
    ensures |Insert(x, s, key)| == |s| + 1
  {
    if |s| > 0 && key(x) > key(s[0]) {
      InsertMultiset(x, s[1..], key);
      assert s == [s[0]] + s[1..];
    }
  }

  lemma {:induction false} InsertFilter<T>(x: T, s: seq<T>, key: T -> real, k: real)
    requires SortedBy(s, key)
    ensures KeyFilter(Insert(x, s, key), key, k)
            == (if key(x) == k then [x] else []) + KeyFilter(s, key, k)
  {
    if |s| == 0 || key(x) <= key(s[0]) {
      assert Insert(x, s, key) == [x] + s;
      KeyFilterCons(x, s, key, k);
    } else {
      var t := s[1..];
      assert SortedBy(t, key) by {
        forall i, j | 0 <= i < j < |t| ensures key(t[i]) <= key(t[j]) {
          assert t[i] == s[i + 1] && t[j] == s[j + 1];
        }
      }
      InsertFilter(x, t, key, k);
      assert Insert(x, s, key) == [s[0]] + Insert(x, t, key);
      KeyFilterCons(s[0], Insert(x, t, key), key, k);
      assert s == [s[0]] + t;
      KeyFilterCons(s[0], t, key, k);
      if key(x) == k {
        assert key(s[0]) != k;
      }
    }
  }

  lemma InsertKeepsFilters<T>(x: T, sorted: seq<T>, s: seq<T>, key: T -> real)
    requires SortedBy(sorted, key)
    requires forall k :: KeyFilter(sorted, key, k) == KeyFilter(s, key, k)
    ensures forall k :: KeyFilter(Insert(x, sorted, key), key, k) == KeyFilter([x] + s, key, k)
  {
    forall k ensures KeyFilter(Insert(x, sorted, key), key, k) == KeyFilter([x] + s, key, k) {
      InsertFilter(x, sorted, key, k);
      KeyFilterCons(x, s, key, k);
    }
  }

  /** `[...s].sort((a, b) => key(a) - key(b))`: a stable insertion sort.
      What it guarantees is stated by the three lemmas below it. */
  function SortBy<T>(s: seq<T>, key: T -> real): (r: seq<T>)
    ensures |r| == |s|
  {
    if |s| == 0 then []
    else
      var rest := SortBy(s[1..], key);
      InsertMultiset(s[0], rest, key);
      Insert(s[0], rest, key)
  }

  /** The sort is a permutation. */
  lemma {:induction false} SortByPermutes<T>(s: seq<T>, key: T -> real)
    ensures multiset(SortBy(s, key)) == multiset(s)
  {
    if |s| > 0 {
      SortByPermutes(s[1..], key);
      InsertMultiset(s[0], SortBy(s[1..], key), key);
      assert s == [s[0]] + s[1..];
    }
  }

  /** The result is in ascending key order. */
  lemma {:induction false} SortByIsSorted<T>(s: seq<T>, key: T -> real)
    ensures SortedBy(SortBy(s, key), key)
  {
    if |s| > 0 {
      SortByIsSorted(s[1..], key);
      InsertSorted(s[0], SortBy(s[1..], key), key);
    }
  }

  /** The sort is stable: elements with equal keys keep their relative order. */
  lemma {:induction false} SortByIsStable<T>(s: seq<T>, key: T -> real)
    ensures forall k :: KeyFilter(SortBy(s, key), key, k) == KeyFilter(s, key, k)
  {
    if |s| > 0 {
      SortByIsStable(s[1..], key);
      SortByIsSorted(s[1..], key);
      InsertKeepsFilters(s[0], SortBy(s[1..], key), s[1..], key);
      assert s == [s[0]] + s[1..];
    }
  }

  /** In a sequence sorted by `key`, the first element satisfying `p` has the
      smallest key among all elements satisfying `p`. */
  lemma FirstIndexMinimizesKey<T>(s: seq<T>, p: T -> bool, key: T -> real)
    requires SortedBy(s, key)
    ensures FirstIndex(s, p) < |s| ==>
              forall j :: 0 <= j < |s| && p(s[j]) ==> key(s[FirstIndex(s, p)]) <= key(s[j])
  {
  }
}
