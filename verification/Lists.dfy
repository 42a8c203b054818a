/** Sequence facts shared by the other modules: Python's `sorted` with and without
    a key, and the key order of a dict. */
module Lists {

  // ----- sorted(xs, key=key)

  function Insert<T>(s: seq<T>, x: T, key: T -> real): seq<T> {
    if |s| == 0 then [x]
    else if key(s[|s| - 1]) <= key(x) then s + [x]
    else Insert(s[..|s| - 1], x, key) + [s[|s| - 1]]
  }

  function SortBy<T>(s: seq<T>, key: T -> real): seq<T> {
    if |s| == 0 then [] else Insert(SortBy(s[..|s| - 1], key), s[|s| - 1], key)
  }

  predicate SortedBy<T>(s: seq<T>, key: T -> real) {
    forall i, j :: 0 <= i < j < |s| ==> key(s[i]) <= key(s[j])
  }

  lemma {:induction false} InsertContents<T>(s: seq<T>, x: T, key: T -> real)
    ensures multiset(Insert(s, x, key)) == multiset(s) + multiset{x}
  {
    if |s| > 0 {
      assert s == s[..|s| - 1] + [s[|s| - 1]];
      InsertContents(s[..|s| - 1], x, key);
    }
  }

  lemma {:induction false} InsertSorted<T>(s: seq<T>, x: T, key: T -> real)
    requires SortedBy(s, key)
    ensures SortedBy(Insert(s, x, key), key)
  {
    if |s| > 0 && key(x) < key(s[|s| - 1]) {
      var init, last := s[..|s| - 1], s[|s| - 1];
      InsertSorted(init, x, key);
      InsertContents(init, x, key);
      var t := Insert(init, x, key);
      forall i | 0 <= i < |t| ensures key(t[i]) <= key(last) {
        assert t[i] in multiset(t);
        assert t[i] in init || t[i] == x;
      }
    }
  }

  /** Sorting orders by key and loses nothing. */
  lemma {:induction false} SortByIsSort<T>(s: seq<T>, key: T -> real)
    ensures SortedBy(SortBy(s, key), key)
    ensures multiset(SortBy(s, key)) == multiset(s)
    ensures |SortBy(s, key)| == |s|
    ensures forall x :: x in SortBy(s, key) <==> x in s
  {
    if |s| > 0 {
      var init, last := s[..|s| - 1], s[|s| - 1];
      assert s == init + [last];
      SortByIsSort(init, key);
      InsertSorted(SortBy(init, key), last, key);
      InsertContents(SortBy(init, key), last, key);
    }
    var r := SortBy(s, key);
    assert |multiset(r)| == |multiset(s)|;
    forall x ensures x in r <==> x in s {
      assert x in r <==> x in multiset(r);
      assert x in s <==> x in multiset(s);
    }
  }

  /** Elements with equal keys keep the order another key gives them. */
  lemma {:induction false} SortByIsStable<T>(s: seq<T>, key: T -> real, order: T -> real)
    requires SortedBy(s, order)
    ensures TiesInOrder(SortBy(s, key), key, order)
  {
    if |s| > 0 {
      var init, last := s[..|s| - 1], s[|s| - 1];
      SortByIsStable(init, key, order);
      SortByIsSort(init, key);
      var t := SortBy(init, key);
      forall i | 0 <= i < |t| ensures order(t[i]) <= order(last) {
        assert t[i] in multiset(t);
      }
      InsertKeepsTies(SortBy(init, key), last, key, order);
    }
  }

  predicate TiesInOrder<T>(s: seq<T>, key: T -> real, order: T -> real) {
    forall i, j :: 0 <= i < j < |s| && key(s[i]) == key(s[j]) ==> order(s[i]) <= order(s[j])
  }

  lemma {:induction false} InsertKeepsTies<T>(s: seq<T>, x: T, key: T -> real, order: T -> real)
    requires SortedBy(s, key) && TiesInOrder(s, key, order) && forall y :: y in s ==> order(y) <= order(x)
    ensures TiesInOrder(Insert(s, x, key), key, order)
  {
    if |s| > 0 && key(x) < key(s[|s| - 1]) {
      var init, last := s[..|s| - 1], s[|s| - 1];
      InsertKeepsTies(init, x, key, order);
      InsertContents(init, x, key);
      var t := Insert(init, x, key);
      forall i | 0 <= i < |t| && key(t[i]) == key(last) ensures order(t[i]) <= order(last) {
        assert t[i] in multiset(t);
        assert t[i] in init;
      }
    } else {
      assert forall i :: 0 <= i < |s| ==> s[i] in s;
    }
  }

  // ----- sorted() of a set of integers

  predicate Ascending(s: seq<int>) {
    forall i, j :: 0 <= i < j < |s| ==> s[i] < s[j]
  }

  predicate Least(s: set<int>, x: int) {
    x in s && forall y :: y in s ==> x <= y
  }

  lemma Pick<T>(s: set<T>) returns (x: T)
    requires |s| > 0
    ensures x in s
  {
    x :| x in s;
  }

  lemma {:induction false} HasLeast(s: set<int>)
    requires |s| > 0
    ensures exists x :: Least(s, x)
  {
    var x := Pick(s);
    var r := s - {x};
    if |r| == 0 {
      assert forall y :: y in s ==> y in r || y == x;
      assert Least(s, x);
    } else {
      HasLeast(r);
      var m :| Least(r, m);
      assert forall y :: y in s ==> y in r || y == x;
      assert Least(s, if x < m then x else m);
    }
  }

  function Sorted(s: set<int>): (r: seq<int>)
    ensures |r| == |s|
  {
    if |s| == 0 then []
    else
      HasLeast(s);
      var x :| Least(s, x);
      [x] + Sorted(s - {x})
  }

  lemma {:induction false} SortedIsAscending(s: set<int>)
    ensures Ascending(Sorted(s)) && forall x :: x in Sorted(s) <==> x in s
  {
    if |s| > 0 {
      HasLeast(s);
      var x :| Least(s, x);
      var t := Sorted(s - {x});
      assert Sorted(s) == [x] + t;
      SortedIsAscending(s - {x});
      assert forall i :: 0 <= i < |t| ==> t[i] in t;
    }
  }

  function Elements(r: seq<int>): set<int> {
    set i | 0 <= i < |r| :: r[i]
  }

  lemma ElementsCons(x: int, t: seq<int>)
    requires Ascending([x] + t)
    ensures x in Elements([x] + t) && Elements([x] + t) - {x} == Elements(t)
    ensures Least(Elements([x] + t), x) && Ascending(t)
  {
    var r := [x] + t;
    forall i | 0 <= i < |t| ensures t[i] in Elements(r) && x < t[i] { assert r[i + 1] == t[i]; }
    assert r[0] == x;
    forall i, j | 0 <= i < j < |t| ensures t[i] < t[j] { assert r[i + 1] == t[i] && r[j + 1] == t[j]; }
  }

  /** An ascending list is the sorted list of its elements. */
  lemma {:induction false} AscendingIsSorted(r: seq<int>)
    requires Ascending(r)
    ensures Sorted(Elements(r)) == r
  {
    if |r| > 0 {
      var x, t := r[0], r[1..];
      assert r == [x] + t;
      ElementsCons(x, t);
      AscendingIsSorted(t);
    }
  }

  // ----- dict key order

  ghost predicate Distinct<T>(s: seq<T>) {
    forall i, j :: 0 <= i < j < |s| ==> s[i] != s[j]
  }

  /** The keys a dict has after inserting the elements of s in turn, in order. */
  function FirstSeen<T(==)>(s: seq<T>): seq<T> {
    if |s| == 0 then []
    else
      var before := FirstSeen(s[..|s| - 1]);
      if s[|s| - 1] in before then before else before + [s[|s| - 1]]
  }

  lemma {:induction false} FirstSeenKeys<T>(s: seq<T>)
    ensures Distinct(FirstSeen(s))
    ensures forall x :: x in FirstSeen(s) <==> x in s
  {
    if |s| > 0 {
      assert s == s[..|s| - 1] + [s[|s| - 1]];
      FirstSeenKeys(s[..|s| - 1]);
    }
  }

  // ----- d.setdefault(key(x), []).append(x)

  function KeysOf<T, K>(xs: seq<T>, key: T -> K): seq<K> {
    seq(|xs|, i requires 0 <= i < |xs| => key(xs[i]))
  }

  function WithKey<T, K(==)>(xs: seq<T>, key: T -> K, k: K): seq<T> {
    if |xs| == 0 then []
    else WithKey(xs[..|xs| - 1], key, k) + (if key(xs[|xs| - 1]) == k then [xs[|xs| - 1]] else [])
  }

  lemma {:induction false} InWithKey<T, K>(xs: seq<T>, key: T -> K, k: K)
    ensures forall x :: x in WithKey(xs, key, k) <==> x in xs && key(x) == k
  {
    if |xs| > 0 {
      InWithKey(xs[..|xs| - 1], key, k);
      assert xs == xs[..|xs| - 1] + [xs[|xs| - 1]];
    }
  }

  /** The dict after the first n elements. */
  ghost predicate GroupedAs<T, K(!new)>(xs: seq<T>, key: T -> K, n: nat, keys: seq<K>, groups: map<K, seq<T>>)
    requires n <= |xs|
  {
    && keys == FirstSeen(KeysOf(xs[..n], key))
    && (forall k :: k in keys <==> k in groups)
    && (forall k :: WithKey(xs[..n], key, k) == if k in groups then groups[k] else [])
  }

  function Enter<T, K>(groups: map<K, seq<T>>, k: K, x: T): map<K, seq<T>> {
    groups[k := (if k in groups then groups[k] else []) + [x]]
  }

  /** The dict of groups: keys in order of first appearance, each group in list order. */
  method Grouped<T, K(==,!new)>(xs: seq<T>, key: T -> K) returns (keys: seq<K>, groups: map<K, seq<T>>)
    ensures keys == FirstSeen(KeysOf(xs, key))
    ensures forall k :: k in keys ==> k in groups && groups[k] == WithKey(xs, key, k)
  {
    keys, groups := [], map[];
    for i := 0 to |xs|
      invariant GroupedAs(xs, key, i, keys, groups)
    {
      var k := key(xs[i]);
      GroupedStep(xs, key, i, keys, groups);
      hide GroupedAs;
      groups := Enter(groups, k, xs[i]);
      if k !in keys { keys := keys + [k]; }
    }
    assert xs[..|xs|] == xs;
  }

  lemma GroupedStep<T, K(!new)>(xs: seq<T>, key: T -> K, i: nat, keys: seq<K>, groups: map<K, seq<T>>)
    requires i < |xs| && GroupedAs(xs, key, i, keys, groups)
    ensures GroupedAs(xs, key, i + 1, if key(xs[i]) in keys then keys else keys + [key(xs[i])], Enter(groups, key(xs[i]), xs[i]))
  {
    KeysStep(xs, key, i);
    forall k { WithKeyStep(xs, key, i, k); }
    hide FirstSeen, WithKey, KeysOf;
  }

  lemma KeysStep<T, K>(xs: seq<T>, key: T -> K, i: nat)
    requires i < |xs|
    ensures var seen, k := FirstSeen(KeysOf(xs[..i], key)), key(xs[i]);
            FirstSeen(KeysOf(xs[..i + 1], key)) == if k in seen then seen else seen + [k]
  {
    assert KeysOf(xs[..i + 1], key)[..i] == KeysOf(xs[..i], key);
  }

  lemma WithKeyStep<T, K>(xs: seq<T>, key: T -> K, i: nat, k: K)
    requires i < |xs|
    ensures WithKey(xs[..i + 1], key, k) == WithKey(xs[..i], key, k) + (if key(xs[i]) == k then [xs[i]] else [])
  {
    assert xs[..i + 1][..i] == xs[..i];
  }
}
