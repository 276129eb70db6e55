/** The three JavaScript array methods every editor is built from: `filter`, `map`
    and the summing `reduce((acc, x) => acc + f(x), 0)`. */
module Lists {

  /** `s.filter(keep)`: the elements of `s` that satisfy `keep`, in their original order. */
  function Filter<T>(s: seq<T>, keep: T -> bool): (r: seq<T>)
    ensures |r| <= |s|
    ensures forall i :: 0 <= i < |r| ==> keep(r[i])
    ensures (forall i :: 0 <= i < |s| ==> keep(s[i])) ==> r == s
  {
    if s == [] then []
    else
      assert s == [s[0]] + s[1..];
      (if keep(s[0]) then [s[0]] else []) + Filter(s[1..], keep)
  }

  /** What is kept comes from `s`, and every element of `s` that satisfies `keep` is kept. */
  lemma {:induction false} FilterMembers<T>(s: seq<T>, keep: T -> bool)
    ensures multiset(Filter(s, keep)) <= multiset(s)
    ensures forall x :: x in Filter(s, keep) <==> x in s && keep(x)
  {
    if s != [] {
      FilterMembers(s[1..], keep);
      assert s == [s[0]] + s[1..];
    }
  }

  /** Filtering distributes over concatenation: the kept elements of `a` come, in order,
      before the kept elements of `b`. With `Filter([x])` this fixes the order of the result. */
  lemma {:induction false} FilterAppend<T>(a: seq<T>, b: seq<T>, keep: T -> bool)
    ensures Filter(a + b, keep) == Filter(a, keep) + Filter(b, keep)
  {
    if a == [] {
      assert a + b == b;
    } else {
      assert (a + b)[0] == a[0];
      assert (a + b)[1..] == a[1..] + b;
      FilterAppend(a[1..], b, keep);
    }
  }

  /** Nothing is dropped exactly when every element is kept. */
  lemma {:induction false} FilterKeepsAll<T>(s: seq<T>, keep: T -> bool)
    ensures |Filter(s, keep)| == |s| <==> forall i :: 0 <= i < |s| ==> keep(s[i])
  {
    if s != [] {
      FilterKeepsAll(s[1..], keep);
      assert forall i :: 1 <= i < |s| ==> s[i] == s[1..][i - 1];
    }
  }

  /** Replacing one element changes the number of kept elements by at most one, exactly
      as the kept-ness of the old and the new element says. */
  lemma CountPointUpdate<T>(s: seq<T>, k: nat, x: T, keep: T -> bool)
    requires k < |s|
    ensures |Filter(s[k := x], keep)|
         == |Filter(s, keep)| - (if keep(s[k]) then 1 else 0) + (if keep(x) then 1 else 0)
  {
    assert s == s[..k] + [s[k]] + s[k + 1..];
    assert s[k := x] == s[..k] + [x] + s[k + 1..];
    FilterAppend(s[..k] + [s[k]], s[k + 1..], keep);
    FilterAppend(s[..k], [s[k]], keep);
    FilterAppend(s[..k] + [x], s[k + 1..], keep);
    FilterAppend(s[..k], [x], keep);
  }

  /** Filtering out exactly one element leaves the others in their order. */
  lemma {:induction false} FilterRemoveOne<T>(s: seq<T>, k: nat, keep: T -> bool)
    requires k < |s| && !keep(s[k])
    requires forall i :: 0 <= i < |s| && i != k ==> keep(s[i])
    ensures Filter(s, keep) == s[..k] + s[k + 1..]
  {
    var t := s[1..];
    assert Filter(s, keep) == (if keep(s[0]) then [s[0]] else []) + Filter(t, keep);
    if k == 0 {
      FilterKeepsSlice(s, 1, |s|, keep);
    } else {
      assert forall i :: 0 <= i < |t| && i != k - 1 ==> keep(t[i]) by {
        assert forall i :: 0 <= i < |t| ==> t[i] == s[i + 1];
      }
      FilterRemoveOne(t, k - 1, keep);
      assert keep(s[0]);
      assert s[..k] == [s[0]] + t[..k - 1];
      assert s[k + 1..] == t[k..];
      assert [s[0]] + (t[..k - 1] + t[k..]) == ([s[0]] + t[..k - 1]) + t[k..];
    }
  }

  lemma FilterKeepsSlice<T>(s: seq<T>, lo: nat, hi: nat, keep: T -> bool)
    requires lo <= hi <= |s|
    requires forall i :: lo <= i < hi ==> keep(s[i])
    ensures Filter(s[lo..hi], keep) == s[lo..hi]
  {
    assert forall i :: 0 <= i < hi - lo ==> s[lo..hi][i] == s[lo + i];
  }

  /** `s.map(f)`. */
  function Map<T, U>(s: seq<T>, f: T -> U): (r: seq<U>)
    ensures |r| == |s|
    ensures forall i :: 0 <= i < |s| ==> r[i] == f(s[i])
  {
    seq(|s|, i requires 0 <= i < |s| => f(s[i]))
  }

  /** `s.reduce((acc, x) => acc + f(x), 0)`, accumulated from the left as `reduce` does. */
  function Sum<T>(s: seq<T>, f: T -> real): real
  {
    if s == [] then 0.0 else Sum(s[..|s| - 1], f) + f(s[|s| - 1])
  }

  lemma {:induction false} SumAppend<T>(a: seq<T>, b: seq<T>, f: T -> real)
    ensures Sum(a + b, f) == Sum(a, f) + Sum(b, f)
  {
    if b == [] {
      assert a + b == a;
    } else {
      assert (a + b)[..|a + b| - 1] == a + b[..|b| - 1];
      assert (a + b)[|a + b| - 1] == b[|b| - 1];
      SumAppend(a, b[..|b| - 1], f);
    }
  }

  /** Replacing one element changes the sum by the difference of the two summands. */
  lemma SumPointUpdate<T>(s: seq<T>, k: nat, x: T, f: T -> real)
    requires k < |s|
    ensures Sum(s[k := x], f) == Sum(s, f) - f(s[k]) + f(x)
  {
    assert s == s[..k] + [s[k]] + s[k + 1..];
    assert s[k := x] == s[..k] + [x] + s[k + 1..];
    SumAppend(s[..k] + [s[k]], s[k + 1..], f);
    SumAppend(s[..k], [s[k]], f);
    SumAppend(s[..k] + [x], s[k + 1..], f);
    SumAppend(s[..k], [x], f);
  }

  /** Summands bounded by `lo` and `hi` give a sum between `|s| * lo` and `|s| * hi`. */
  lemma {:induction false} SumBounds<T>(s: seq<T>, f: T -> real, lo: real, hi: real)
    requires forall i :: 0 <= i < |s| ==> lo <= f(s[i]) <= hi
    ensures |s| as real * lo <= Sum(s, f) <= |s| as real * hi
  {
    if s != [] {
      var init := s[..|s| - 1];
      assert forall i :: 0 <= i < |init| ==> init[i] == s[i];
      SumBounds(init, f, lo, hi);
    }
  }

  /** Non-negative summands add up to 0 exactly when each of them is 0. */
  lemma {:induction false} SumZeroIff<T>(s: seq<T>, f: T -> real)
    requires forall i :: 0 <= i < |s| ==> 0.0 <= f(s[i])
    ensures Sum(s, f) == 0.0 <==> forall i :: 0 <= i < |s| ==> f(s[i]) == 0.0
  {
    if s != [] {
      var init := s[..|s| - 1];
      assert forall i :: 0 <= i < |init| ==> init[i] == s[i];
      SumZeroIff(init, f);
      SumNonNegative(init, f);
    }
  }

  lemma {:induction false} SumNonNegative<T>(s: seq<T>, f: T -> real)
    requires forall i :: 0 <= i < |s| ==> 0.0 <= f(s[i])
    ensures 0.0 <= Sum(s, f)
  {
    if s != [] {
      var init := s[..|s| - 1];
      assert forall i :: 0 <= i < |init| ==> init[i] == s[i];
      SumNonNegative(init, f);
    }
  }

  /** The sum is monotone in its summands. */
  lemma {:induction false} SumMonotone<T>(s: seq<T>, f: T -> real, g: T -> real)
    requires forall i :: 0 <= i < |s| ==> f(s[i]) <= g(s[i])
    ensures Sum(s, f) <= Sum(s, g)
  {
    if s != [] {
      var init := s[..|s| - 1];
      assert forall i :: 0 <= i < |init| ==> init[i] == s[i];
      SumMonotone(init, f, g);
    }
  }

  /** The sum of pointwise differences is the difference of the sums. */
  lemma {:induction false} SumDifference<T>(s: seq<T>, f: T -> real, g: T -> real, h: T -> real)
    requires forall i :: 0 <= i < |s| ==> h(s[i]) == f(s[i]) - g(s[i])
    ensures Sum(s, h) == Sum(s, f) - Sum(s, g)
  {
    if s != [] {
      var init := s[..|s| - 1];
      assert forall i :: 0 <= i < |init| ==> init[i] == s[i];
      SumDifference(init, f, g, h);
    }
  }

  /** Where `f` never exceeds `g`, the two sums meet exactly when the summands all do. */
  lemma SumEqualIff<T>(s: seq<T>, f: T -> real, g: T -> real)
    requires forall i :: 0 <= i < |s| ==> f(s[i]) <= g(s[i])
    ensures Sum(s, f) == Sum(s, g) <==> forall i :: 0 <= i < |s| ==> f(s[i]) == g(s[i])
  {
    var gap := (x: T) => g(x) - f(x);
    SumDifference(s, g, f, gap);
    SumZeroIff(s, gap);
  }

  /** A share `k / n` of a positive whole `n`, on a 0 to 10 scale. */
  lemma ScaledRatio(k: real, n: real)
    requires 0.0 <= k <= n && 0.0 < n
    ensures 0.0 <= k / n * 10.0 <= 10.0
    ensures k / n * 10.0 == 10.0 <==> k == n
    ensures k / n * 10.0 == 0.0 <==> k == 0.0
  {
    var q := k / n;
    assert q * n == k;
    assert (1.0 - q) * n == n - k;
  }
}
