/** Python string behaviour the collectors rely on when they sort and render:
    the ordering of `str` (and of tuples of `str`), slicing with a possibly
    negative bound, truncation with an ellipsis, and `format(s, "<n")`. */
module Text {

  function Min(a: int, b: int): int { if a <= b then a else b }
  function Max(a: int, b: int): int { if a >= b then a else b }

  // ---------------------------------------------------------------------
  // Ordering

  /** Python's `a < b` on `str`: lexicographic by code point, a proper prefix
      coming first. */
  predicate LexLess(a: string, b: string)
    decreases |a|
  {
    if |a| == 0 then |b| > 0
    else if |b| == 0 then false
    else if a[0] != b[0] then a[0] < b[0]
    else LexLess(a[1..], b[1..])
  }

  lemma {:induction false} LexLessIrreflexive(a: string)
    ensures !LexLess(a, a)
    decreases |a|
  {
    if |a| > 0 {
      LexLessIrreflexive(a[1..]);
    }
  }

  lemma {:induction false} LexLessAsymmetric(a: string, b: string)
    requires LexLess(a, b)
    ensures !LexLess(b, a)
    decreases |a|
  {
    if |a| > 0 && |b| > 0 && a[0] == b[0] {
      LexLessAsymmetric(a[1..], b[1..]);
    }
  }

  lemma {:induction false} LexLessTransitive(a: string, b: string, c: string)
    requires LexLess(a, b) && LexLess(b, c)
    ensures LexLess(a, c)
    decreases |a|
  {
    if |a| > 0 && a[0] == b[0] && b[0] == c[0] {
      LexLessTransitive(a[1..], b[1..], c[1..]);
    }
  }

  /** Two different strings are always ordered one way or the other. */
  lemma {:induction false} LexLessTotal(a: string, b: string)
    ensures a == b || LexLess(a, b) || LexLess(b, a)
    decreases |a|
  {
    if |a| > 0 && |b| > 0 && a[0] == b[0] {
      LexLessTotal(a[1..], b[1..]);
      if a[1..] == b[1..] {
        assert a == [a[0]] + a[1..] && b == [b[0]] + b[1..];
      }
    }
  }

  /** Python's `<` on tuples of `str` (given as sequences): the first position
      where they differ decides, a proper prefix coming first. */
  predicate TupleLess(a: seq<string>, b: seq<string>)
    decreases |a|
  {
    if |a| == 0 then |b| > 0
    else if |b| == 0 then false
    else if a[0] != b[0] then LexLess(a[0], b[0])
    else TupleLess(a[1..], b[1..])
  }

  lemma {:induction false} TupleLessAsymmetric(a: seq<string>, b: seq<string>)
    requires TupleLess(a, b)
    ensures !TupleLess(b, a)
    decreases |a|
  {
    if |a| > 0 && |b| > 0 {
      if a[0] != b[0] {
        LexLessAsymmetric(a[0], b[0]);
      } else {
        TupleLessAsymmetric(a[1..], b[1..]);
      }
    }
  }

  lemma {:induction false} TupleLessTransitive(a: seq<string>, b: seq<string>, c: seq<string>)
    requires TupleLess(a, b) && TupleLess(b, c)
    ensures TupleLess(a, c)
    decreases |a|
  {
    if |a| > 0 {
      if a[0] != b[0] && b[0] != c[0] {
        LexLessTransitive(a[0], b[0], c[0]);
        if a[0] == c[0] {
          LexLessIrreflexive(a[0]);
        }
      } else if a[0] == b[0] && b[0] == c[0] {
        TupleLessTransitive(a[1..], b[1..], c[1..]);
      }
    }
  }

  /** Two different tuples are always ordered one way or the other. */
  lemma {:induction false} TupleLessTotal(a: seq<string>, b: seq<string>)
    ensures a == b || TupleLess(a, b) || TupleLess(b, a)
    decreases |a|
  {
    if |a| > 0 && |b| > 0 {
      if a[0] != b[0] {
        LexLessTotal(a[0], b[0]);
      } else {
        TupleLessTotal(a[1..], b[1..]);
        if a[1..] == b[1..] {
          assert a == [a[0]] + a[1..] && b == [b[0]] + b[1..];
        }
      }
    }
  }

  // ---------------------------------------------------------------------
  // Slicing and truncation

  /** Python's `s[:n]`: the first n characters, where a negative n drops
      |n| characters from the end, clamped to the string either way. */
  function SliceTo(s: string, n: int): (r: string)
    ensures |r| == (if n >= 0 then Min(n, |s|) else Max(0, |s| + n))
    ensures r == s[..|r|]
  {
    if n >= 0 then (if n <= |s| then s[..n] else s)
    else if |s| + n >= 0 then s[..|s| + n]
    else []
  }

  const Ellipsis: string := "..."

  /** One table cell in truncate mode: a field that fits its column budget is
      kept, a longer one becomes `s[:budget - 3] + "..."`. A budget below 3
      makes the slice bound negative, so the cell then keeps all but
      3 - budget characters and ends up longer than the budget. */
  function Truncate(s: string, budget: nat): (r: string)
    ensures |s| <= budget ==> r == s
    ensures |s| > budget ==> 3 <= |r| < |s| + 3 && r == s[..|r| - 3] + Ellipsis
    ensures |s| > budget && budget >= 3 ==> |r| == budget
    ensures |s| > budget && budget < 3 ==> |r| == Max(0, |s| + budget - 3) + 3 > budget
  {
    if |s| > budget then SliceTo(s, budget - 3) + Ellipsis else s
  }

  // ---------------------------------------------------------------------
  // Padding

  /** n copies of one character: Python's `c * n`. */
  function Repeat(c: char, n: nat): (r: string)
    ensures |r| == n && forall i :: 0 <= i < n ==> r[i] == c
  {
    seq(n, _ => c)
  }

  /** Python's `f"{s:<w}"` on a `str`: pad on the right with spaces up to
      width w; a longer string is kept whole, never cut. */
  function LJust(s: string, w: nat): (r: string)
    ensures |r| == Max(|s|, w)
    ensures r[..|s|] == s
    ensures forall i :: |s| <= i < |r| ==> r[i] == ' '
  {
    if |s| < w then s + Repeat(' ', w - |s|) else s
  }

  /** A column budget: Python's `int(width * f)` for a fraction f = percent / 100,
      rounded towards zero. */
  function Share(width: nat, percent: nat): nat {
    width * percent / 100
  }

  /** One cell of the console table: wrapped by the caller-supplied wrapper
      (`textwrap`) in wrap mode, truncated otherwise. */
  function Fit(s: string, budget: nat, wrap: bool, wrapper: (string, nat) -> string): string {
    if wrap then wrapper(s, budget) else Truncate(s, budget)
  }
}
