/** Sum, extremes and mean of a list of prices, as `reduce(0, +)`, `max()`, `min()` and sum / count. */
module Stats {

  /** `reduce(0, +)`: a left fold, so the last element is added last. */
  function Sum(s: seq<real>): (total: real)
  {
    if s == [] then 0.0 else Sum(s[..|s| - 1]) + s[|s| - 1]
  }

  /** The left fold equals the first element plus the sum of the rest. */
  lemma {:induction false} SumFirst(s: seq<real>)
    requires s != []
    ensures Sum(s) == s[0] + Sum(s[1..])
  {
    if |s| > 1 {
      var init := s[..|s| - 1];
      SumFirst(init);
      assert init[1..] == s[1..][..|s[1..]| - 1];
    }
  }

  /** `max()` of a non-empty array. */
  function Max(s: seq<real>): (m: real)
    requires |s| > 0
    ensures m in s
    ensures forall i :: 0 <= i < |s| ==> s[i] <= m
  {
    if |s| == 1 then s[0]
    else
      var rest := Max(s[1..]);
      if s[0] >= rest then s[0] else rest
  }

  /** `min()` of a non-empty array. */
  function Min(s: seq<real>): (m: real)
    requires |s| > 0
    ensures m in s
    ensures forall i :: 0 <= i < |s| ==> m <= s[i]
  {
    if |s| == 1 then s[0]
    else
      var rest := Min(s[1..]);
      if s[0] <= rest then s[0] else rest
  }

  /** `max() ?? fallback`. */
  function MaxOr(s: seq<real>, fallback: real): (m: real)
    ensures s == [] ==> m == fallback
    ensures s != [] ==> m in s && forall i :: 0 <= i < |s| ==> s[i] <= m
  {
    if s == [] then fallback else Max(s)
  }

  /** `min() ?? fallback`. */
  function MinOr(s: seq<real>, fallback: real): (m: real)
    ensures s == [] ==> m == fallback
    ensures s != [] ==> m in s && forall i :: 0 <= i < |s| ==> m <= s[i]
  {
    if s == [] then fallback else Min(s)
  }

  /** Sum divided by count, for a non-empty list. */
  function Average(s: seq<real>): (mean: real)
    requires |s| > 0
    ensures mean * (|s| as real) == Sum(s)
  {
    Sum(s) / (|s| as real)
  }

  lemma {:induction false} SumAtLeast(s: seq<real>, lo: real)
    requires forall i :: 0 <= i < |s| ==> lo <= s[i]
    ensures (|s| as real) * lo <= Sum(s)
  {
    if s != [] {
      SumAtLeast(s[..|s| - 1], lo);
    }
  }

  lemma {:induction false} SumAtMost(s: seq<real>, hi: real)
    requires forall i :: 0 <= i < |s| ==> s[i] <= hi
    ensures Sum(s) <= (|s| as real) * hi
  {
    if s != [] {
      SumAtMost(s[..|s| - 1], hi);
    }
  }

  /** Taking out the element at `k` lowers the sum by exactly that element. */
  lemma {:induction false} SumRemove(s: seq<real>, k: nat)
    requires k < |s|
    ensures Sum(s) == Sum(s[..k] + s[k + 1..]) + s[k]
  {
    if k + 1 < |s| {
      var init := s[..|s| - 1];
      SumRemove(init, k);
      var t := s[..k] + s[k + 1..];
      assert t[..|t| - 1] == init[..k] + init[k + 1..];
      assert t[|t| - 1] == s[|s| - 1];
    } else {
      assert s[..k] + s[k + 1..] == s[..|s| - 1];
    }
  }

  /** The sum does not depend on the order of the elements. */
  lemma {:induction false} SumPermutation(a: seq<real>, b: seq<real>)
    requires multiset(a) == multiset(b)
    ensures Sum(a) == Sum(b)
  {
    if a != [] {
      var x := a[|a| - 1];
      var init := a[..|a| - 1];
      assert a == init + [x];
      assert x in multiset(b);
      var k :| 0 <= k < |b| && b[k] == x;
      var rest := b[..k] + b[k + 1..];
      assert b == b[..k] + [x] + b[k + 1..];
      assert multiset(rest) == multiset(b) - multiset{x};
      assert multiset(init) == multiset(a) - multiset{x};
      SumPermutation(init, rest);
      SumRemove(b, k);
    } else {
      assert |b| == |multiset(b)| == 0;
    }
  }

  /** Dividing both sides of `n * lo <= total <= n * hi` by a positive `n`. */
  lemma DivideBounds(total: real, n: real, lo: real, hi: real)
    requires n > 0.0
    requires n * lo <= total <= n * hi
    ensures lo <= total / n <= hi
  {
  }

  /** The mean of a non-empty list lies between any lower and upper bound of its elements. */
  lemma AverageBetween(s: seq<real>, lo: real, hi: real)
    requires |s| > 0
    requires forall i :: 0 <= i < |s| ==> lo <= s[i] <= hi
    ensures lo <= Average(s) <= hi
  {
    SumAtLeast(s, lo);
    SumAtMost(s, hi);
    DivideBounds(Sum(s), |s| as real, lo, hi);
  }

  /** The mean of a non-empty list lies between its smallest and its largest element. */
  lemma AverageWithinRange(s: seq<real>)
    requires |s| > 0
    ensures Min(s) <= Average(s) <= Max(s)
  {
    AverageBetween(s, Min(s), Max(s));
  }
}
