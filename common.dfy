/** Value types shared by every program of the toolkit: optional fields,
    the outcome of one remote call, and a paginated listing. */
module Common {

  /** A field a native record may lack (Python's `dict.get` without a default). */
  datatype Option<+T> = None | Some(value: T) {
    /** `dict.get(key, default)`. */
    function GetOr(default: T): T {
      match this
      case Some(v) => v
      case None => default
    }
  }

  /** The outcome of one remote call: its response, or Fail when the call raised. */
  datatype Remote<+T> = Ok(value: T) | Fail

  /** A paginated listing as the collectors consume it: the pages it yields, in
      order, and whether the page iterator raises once they are used up. */
  datatype Listing<+P> = Listing(pages: seq<P>, raises: bool)

  /** The sentinel the collectors store for a missing optional field. */
  const NA: string := "N/A"

  /** A dict after `d[key(x)] = val(x)` for every x of xs in turn. */
  function Assign<T, V>(m: map<string, V>, xs: seq<T>, key: T -> string, val: T -> V): map<string, V>
    decreases |xs|
  {
    if xs == [] then m
    else Assign(m, xs[..|xs| - 1], key, val)[key(xs[|xs| - 1]) := val(xs[|xs| - 1])]
  }

  /** The keys after the writes: the old ones and every element's key. */
  lemma {:induction false} AssignKeys<T, V>(m: map<string, V>, xs: seq<T>, key: T -> string, val: T -> V)
    ensures forall k :: k in Assign(m, xs, key, val) <==> k in m || exists i :: 0 <= i < |xs| && key(xs[i]) == k
    decreases |xs|
  {
    if xs != [] {
      var init := xs[..|xs| - 1];
      AssignKeys(m, init, key, val);
      assert forall i :: 0 <= i < |init| ==> init[i] == xs[i];
    }
  }

  /** Last writer wins: an element no later element shares a key with decides
      the value stored under its key. */
  lemma {:induction false} AssignLastWins<T, V>(m: map<string, V>, xs: seq<T>, key: T -> string, val: T -> V, i: nat)
    requires i < |xs|
    requires forall j :: i < j < |xs| ==> key(xs[j]) != key(xs[i])
    ensures key(xs[i]) in Assign(m, xs, key, val)
    ensures Assign(m, xs, key, val)[key(xs[i])] == val(xs[i])
    decreases |xs|
  {
    if i < |xs| - 1 {
      var init := xs[..|xs| - 1];
      assert init[i] == xs[i];
      AssignLastWins(m, init, key, val, i);
    }
  }

  /** Keys no element writes keep their old value. */
  lemma {:induction false} AssignUntouched<T, V>(m: map<string, V>, xs: seq<T>, key: T -> string, val: T -> V, k: string)
    requires k in m
    requires forall j :: 0 <= j < |xs| ==> key(xs[j]) != k
    ensures k in Assign(m, xs, key, val) && Assign(m, xs, key, val)[k] == m[k]
    decreases |xs|
  {
    if xs != [] {
      AssignUntouched(m, xs[..|xs| - 1], key, val, k);
    }
  }

  /** Writing a + b is writing a, then b. */
  lemma {:induction false} AssignAppend<T, V>(m: map<string, V>, a: seq<T>, b: seq<T>, key: T -> string, val: T -> V)
    ensures Assign(m, a + b, key, val) == Assign(Assign(m, a, key, val), b, key, val)
    decreases |b|
  {
    if b == [] {
      assert a + b == a;
    } else {
      assert (a + b)[..|a + b| - 1] == a + b[..|b| - 1];
      AssignAppend(m, a, b[..|b| - 1], key, val);
    }
  }

  /** `[f(x) for x in xs]`, built from the last element back so that it grows
      the way an appending loop does. */
  function Map<A, B>(xs: seq<A>, f: A -> B): (r: seq<B>)
    ensures |r| == |xs|
    decreases |xs|
  {
    if xs == [] then [] else Map(xs[..|xs| - 1], f) + [f(xs[|xs| - 1])]
  }

  /** Mapping one more element of xs appends its image. */
  lemma MapSnoc<A, B>(xs: seq<A>, j: nat, f: A -> B)
    requires j < |xs|
    ensures Map(xs[..j + 1], f) == Map(xs[..j], f) + [f(xs[j])]
  {
    assert xs[..j + 1][..j] == xs[..j];
  }

  /** Element i of the mapped sequence is f of element i. */
  lemma {:induction false} MapIndex<A, B>(xs: seq<A>, f: A -> B)
    ensures forall i :: 0 <= i < |xs| ==> Map(xs, f)[i] == f(xs[i])
    decreases |xs|
  {
    if xs != [] {
      var init := xs[..|xs| - 1];
      MapIndex(init, f);
      assert forall i :: 0 <= i < |init| ==> init[i] == xs[i];
    }
  }

  /** Mapping a concatenation maps each part. */
  lemma {:induction false} MapAppend<A, B>(a: seq<A>, b: seq<A>, f: A -> B)
    ensures Map(a + b, f) == Map(a, f) + Map(b, f)
    decreases |b|
  {
    if b == [] {
      assert a + b == a;
    } else {
      var init := b[..|b| - 1];
      assert (a + b)[..|a + b| - 1] == a + init;
      MapAppend(a, init, f);
    }
  }

  /** Mapping a reordering of xs gives a reordering of the mapped xs. */
  lemma {:induction false} MapPermutes<A, B>(xs: seq<A>, ys: seq<A>, f: A -> B)
    requires multiset(xs) == multiset(ys)
    ensures multiset(Map(xs, f)) == multiset(Map(ys, f))
    decreases |xs|
  {
    if xs == [] {
      assert |ys| == |multiset(ys)| == 0;
    } else {
      var init, x := xs[..|xs| - 1], xs[|xs| - 1];
      assert x in multiset(ys);
      var j :| 0 <= j < |ys| && ys[j] == x;
      RemoveMatching(xs, ys, j);
      var rest := ys[..j] + ys[j + 1..];
      MapInsert(init, [], x, f);
      assert init + [] == init && init + [x] + [] == xs;
      assert multiset(Map(xs, f)) == multiset(Map(init, f)) + multiset{f(x)};
      MapInsert(ys[..j], ys[j + 1..], x, f);
      SplitAt(ys, j);
      assert multiset(Map(ys, f)) == multiset(Map(rest, f)) + multiset{f(x)};
      MapPermutes(init, rest, f);
    }
  }

  /** One more element in the middle adds its image once. */
  lemma MapInsert<A, B>(before: seq<A>, after: seq<A>, x: A, f: A -> B)
    ensures multiset(Map(before + [x] + after, f)) == multiset(Map(before + after, f)) + multiset{f(x)}
  {
    MapAppend(before + [x], after, f);
    MapAppend(before, [x], f);
    MapAppend(before, after, f);
    assert Map([x], f) == [f(x)] by {
      assert [x][..0] == [];
    }
  }

  /** Taking the last element off xs and the same element off ys leaves
      reorderings of each other. */
  lemma RemoveMatching<A>(xs: seq<A>, ys: seq<A>, j: nat)
    requires multiset(xs) == multiset(ys) && xs != [] && j < |ys| && ys[j] == xs[|xs| - 1]
    ensures multiset(xs[..|xs| - 1]) == multiset(ys[..j] + ys[j + 1..])
  {
    var init, x := xs[..|xs| - 1], xs[|xs| - 1];
    assert xs == init + [x];
    assert multiset(init) == multiset(xs) - multiset{x};
    var before, after := ys[..j], ys[j + 1..];
    assert ys == (before + after[..0]) + [x] + after;
    assert multiset(ys) == multiset(before) + multiset{x} + multiset(after);
    assert multiset(before + after) == multiset(ys) - multiset{x};
  }

  lemma SplitAt<A>(s: seq<A>, j: nat)
    requires j < |s|
    ensures s[..j] + [s[j]] + s[j + 1..] == s
  {
  }
}
