/** Python's `sorted` as the collectors use it: over the keys of a dict (the
    keys are distinct, so the order is strict), and stably by a tuple key. */
module Sorting {
  import opened Text

  predicate StrictlySorted(s: seq<string>) {
    forall i, j :: 0 <= i < j < |s| ==> LexLess(s[i], s[j])
  }

  /** k is in s and no element of s is smaller. */
  predicate IsLeast(k: string, s: set<string>) {
    k in s && forall j :: j in s ==> !LexLess(j, k)
  }

  /** A non-empty set of strings has a least element. */
  lemma {:induction false} LeastExists(s: set<string>)
    requires s != {}
    ensures exists k :: IsLeast(k, s)
    decreases s
  {
    var x :| x in s;
    if s == {x} {
      LexLessIrreflexive(x);
      assert IsLeast(x, s);
    } else {
      var rest := s - {x};
      LeastExists(rest);
      var y :| IsLeast(y, rest);
      if LexLess(x, y) {
        forall j | j in s
          ensures !LexLess(j, x)
        {
          if j == x {
            LexLessIrreflexive(x);
          } else if LexLess(j, x) {
            LexLessTransitive(j, x, y);
          }
        }
        assert IsLeast(x, s);
      } else {
        assert IsLeast(y, s);
      }
    }
  }

  /** At most one element of a set of strings is least. */
  lemma LeastUnique(s: set<string>)
    ensures forall a, b :: IsLeast(a, s) && IsLeast(b, s) ==> a == b
  {
    forall a, b | IsLeast(a, s) && IsLeast(b, s)
      ensures a == b
    {
      LexLessTotal(a, b);
    }
  }

  function Least(s: set<string>): (k: string)
    requires s != {}
    ensures IsLeast(k, s)
  {
    LeastExists(s);
    LeastUnique(s);
    var k :| IsLeast(k, s);
    k
  }

  /** Python's `sorted` over a set of distinct strings (the keys of a dict):
      every key exactly once, in increasing order. */
  function SortedSet(s: set<string>): (r: seq<string>)
    ensures StrictlySorted(r)
    ensures |r| == |s|
    ensures forall k :: k in r <==> k in s
    decreases s
  {
    if s == {} then []
    else
      var k := Least(s);
      var rest := SortedSet(s - {k});
      assert forall j :: j in rest ==> LexLess(k, j) by {
        forall j | j in rest
          ensures LexLess(k, j)
        {
          LexLessTotal(k, j);
        }
      }
      [k] + rest
  }

  /** `sorted(d.items())` for a dict with string keys: its entries in
      increasing key order. */
  function Items<V>(m: map<string, V>): (r: seq<(string, V)>)
    ensures |r| == |m|
  {
    var keys := SortedSet(m.Keys);
    seq(|keys|, i requires 0 <= i < |keys| => (keys[i], m[keys[i]]))
  }

  /** The entries are the dict's own, every key exactly once, in strictly
      increasing key order. */
  lemma ItemsSpec<V>(m: map<string, V>)
    ensures forall i :: 0 <= i < |Items(m)| ==> Items(m)[i].0 in m && Items(m)[i].1 == m[Items(m)[i].0]
    ensures forall i, j :: 0 <= i < j < |Items(m)| ==> LexLess(Items(m)[i].0, Items(m)[j].0)
    ensures forall k :: k in m ==> (k, m[k]) in Items(m)
  {
    var keys := SortedSet(m.Keys);
    var r := Items(m);
    forall k | k in m
      ensures (k, m[k]) in r
    {
      var i :| 0 <= i < |keys| && keys[i] == k;
      assert r[i] == (k, m[k]);
    }
  }

  /** A strictly sorted sequence is fixed by the strings it holds: the order in
      which sorted output is presented depends on the key set alone. */
  lemma {:induction false} SortedUnique(a: seq<string>, b: seq<string>)
    requires StrictlySorted(a) && StrictlySorted(b)
    requires forall k :: k in a <==> k in b
    ensures a == b
    decreases |a|
  {
    assert b != [] ==> b[0] in b;
    if a != [] {
      assert b != [] by { assert a[0] in b; }
      if a[0] != b[0] {
        assert a[0] in b;
        var j :| 0 <= j < |b| && b[j] == a[0];
        assert b[0] in a;
        var i :| 0 <= i < |a| && a[i] == b[0];
        LexLessAsymmetric(a[0], b[0]);
      }
      forall k
        ensures k in a[1..] <==> k in b[1..]
      {
        if k in a[1..] {
          var i :| 1 <= i < |a| && a[i] == k;
          assert LexLess(a[0], k);
          LexLessIrreflexive(k);
          assert k in b && k != b[0];
        }
        if k in b[1..] {
          var i :| 1 <= i < |b| && b[i] == k;
          assert LexLess(b[0], k);
          LexLessIrreflexive(k);
          assert k in a && k != a[0];
        }
      }
      SortedUnique(a[1..], b[1..]);
      assert a == [a[0]] + a[1..] && b == [b[0]] + b[1..];
      assert a == b;
    }
  }

  /** Ordered as Python's stable `sorted(..., key=key)` leaves it: no element
      has a key smaller than an earlier one's. */
  predicate SortedByKey<T>(s: seq<T>, key: T -> seq<string>) {
    forall i, j :: 0 <= i < j < |s| ==> !TupleLess(key(s[j]), key(s[i]))
  }

  /** Inserts x after every element whose key is not larger than its own, the
      step of a stable insertion sort. */
  function InsertByKey<T>(s: seq<T>, x: T, key: T -> seq<string>): (r: seq<T>)
    ensures multiset(r) == multiset(s) + multiset{x}
    decreases |s|
  {
    if s == [] then [x]
    else
      var init, last := s[..|s| - 1], s[|s| - 1];
      assert s == init + [last];
      if TupleLess(key(x), key(last)) then InsertByKey(init, x, key) + [last]
      else s + [x]
  }

  /** Appending an element whose key no earlier key exceeds keeps the order. */
  lemma SnocSorted<T>(s: seq<T>, y: T, key: T -> seq<string>)
    requires SortedByKey(s, key)
    requires forall i :: 0 <= i < |s| ==> !TupleLess(key(y), key(s[i]))
    ensures SortedByKey(s + [y], key)
  {
  }

  /** Inserting into a key-ordered sequence keeps it key-ordered. */
  lemma {:induction false} InsertByKeySorted<T>(s: seq<T>, x: T, key: T -> seq<string>)
    requires SortedByKey(s, key)
    ensures SortedByKey(InsertByKey(s, x, key), key)
    decreases |s|
  {
    if s != [] {
      var init, last := s[..|s| - 1], s[|s| - 1];
      assert forall i :: 0 <= i < |init| ==> init[i] == s[i];
      if TupleLess(key(x), key(last)) {
        InsertByKeySorted(init, x, key);
        var r' := InsertByKey(init, x, key);
        forall i | 0 <= i < |r'|
          ensures !TupleLess(key(last), key(r'[i]))
        {
          assert r'[i] in multiset(r');
          if r'[i] == x {
            TupleLessAsymmetric(key(x), key(last));
          } else {
            assert r'[i] in multiset(init);
            var p :| 0 <= p < |init| && init[p] == r'[i];
          }
        }
        SnocSorted(r', last, key);
      } else {
        forall i | 0 <= i < |s|
          ensures !TupleLess(key(x), key(s[i]))
        {
          if i < |s| - 1 && TupleLess(key(x), key(s[i])) {
            TupleLessTotal(key(s[i]), key(last));
            if TupleLess(key(s[i]), key(last)) {
              TupleLessTransitive(key(x), key(s[i]), key(last));
            }
          }
        }
        SnocSorted(s, x, key);
      }
    }
  }

  /** r is s with x placed at index k: after every element whose key is not
      larger than x's, equal keys included, and before every element whose
      key is larger; the other elements keep their order. */
  ghost predicate PlacedAt<T>(s: seq<T>, r: seq<T>, x: T, key: T -> seq<string>, k: int) {
    && 0 <= k <= |s| && r == s[..k] + [x] + s[k..]
    && (forall i :: 0 <= i < k ==> !TupleLess(key(x), key(s[i])))
    && (forall i :: k <= i < |s| ==> TupleLess(key(x), key(s[i])))
  }

  /** Where the insertion step puts x in a key-ordered sequence. */
  lemma {:induction false} InsertByKeyPlace<T>(s: seq<T>, x: T, key: T -> seq<string>)
    requires SortedByKey(s, key)
    ensures exists k :: PlacedAt(s, InsertByKey(s, x, key), x, key, k)
    decreases |s|
  {
    if s == [] {
      assert PlacedAt(s, InsertByKey(s, x, key), x, key, 0);
    } else {
      var init, last := s[..|s| - 1], s[|s| - 1];
      assert s == init + [last];
      if TupleLess(key(x), key(last)) {
        InsertByKeyPlace(init, x, key);
        var k :| PlacedAt(init, InsertByKey(init, x, key), x, key, k);
        PlacedSnoc(init, InsertByKey(init, x, key), x, last, key, k);
        assert InsertByKey(s, x, key) == InsertByKey(init, x, key) + [last];
        assert PlacedAt(s, InsertByKey(s, x, key), x, key, k);
      } else {
        NotBelowLast(s, x, key);
        assert PlacedAt(s, InsertByKey(s, x, key), x, key, |s|);
      }
    }
  }

  /** A larger element appended after a placement keeps x's place. */
  lemma PlacedSnoc<T>(s: seq<T>, r: seq<T>, x: T, y: T, key: T -> seq<string>, k: int)
    requires PlacedAt(s, r, x, key, k) && TupleLess(key(x), key(y))
    ensures PlacedAt(s + [y], r + [y], x, key, k)
  {
    assert (s + [y])[..k] == s[..k] && (s + [y])[k..] == s[k..] + [y];
  }

  /** In a key-ordered sequence, a key not smaller than the last one is not
      smaller than any. */
  lemma NotBelowLast<T>(s: seq<T>, x: T, key: T -> seq<string>)
    requires SortedByKey(s, key) && s != [] && !TupleLess(key(x), key(s[|s| - 1]))
    ensures forall i :: 0 <= i < |s| ==> !TupleLess(key(x), key(s[i]))
  {
    var last := s[|s| - 1];
    forall i | 0 <= i < |s| - 1
      ensures !TupleLess(key(x), key(s[i]))
    {
      if TupleLess(key(x), key(s[i])) {
        TupleLessTotal(key(s[i]), key(last));
        if TupleLess(key(s[i]), key(last)) {
          TupleLessTransitive(key(x), key(s[i]), key(last));
        }
      }
    }
  }

  /** Python's `sorted(xs, key=key)`: the same elements, ordered by key. It is
      built by the insertion step, which InsertByKeyPlace shows puts each
      new element after the elements of equal key already placed. */
  function SortByKey<T>(xs: seq<T>, key: T -> seq<string>): (r: seq<T>)
    ensures SortedByKey(r, key)
    ensures multiset(r) == multiset(xs)
    decreases |xs|
  {
    if xs == [] then []
    else
      assert xs == xs[..|xs| - 1] + [xs[|xs| - 1]];
      var sorted := SortByKey(xs[..|xs| - 1], key);
      InsertByKeySorted(sorted, xs[|xs| - 1], key);
      InsertByKey(sorted, xs[|xs| - 1], key)
  }
}
