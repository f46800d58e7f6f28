/**
 * The frame-selection arithmetic shared by the analysis scripts: Python's
 * `sorted`, the evenly spaced pick `[xs[i * (len(xs) // n)] for i in range(n)]`,
 * the stride slice `xs[::r]`, and order-preserving filtering.
 */
module Sampling {

  import opened Wrappers

  predicate Ascending(s: seq<int>) {
    forall i, j :: 0 <= i < j < |s| ==> s[i] <= s[j]
  }

  /** `a` can be obtained from `b` by deleting elements. */
  predicate Subsequence<T(==)>(a: seq<T>, b: seq<T>)
    decreases |b|
  {
    || |a| == 0
    || (&& |b| > 0
        && ((a[|a| - 1] == b[|b| - 1] && Subsequence(a[..|a| - 1], b[..|b| - 1]))
            || Subsequence(a, b[..|b| - 1])))
  }

  /** A subsequence of an ascending sequence is ascending, and every element of it comes from the original. */
  lemma {:induction false} SubsequenceAscending(a: seq<int>, b: seq<int>)
    requires Subsequence(a, b) && Ascending(b)
    ensures Ascending(a)
    ensures forall x :: x in a ==> x in b
    decreases |b|
  {
    if |a| == 0 {
    } else if a[|a| - 1] == b[|b| - 1] && Subsequence(a[..|a| - 1], b[..|b| - 1]) {
      var a', b' := a[..|a| - 1], b[..|b| - 1];
      SubsequenceAscending(a', b');
      assert a == a' + [b[|b| - 1]] && b == b' + [b[|b| - 1]];
      forall i | 0 <= i < |a| - 1 ensures a[i] <= a[|a| - 1] {
        assert a[i] in a';
      }
    } else {
      SubsequenceAscending(a, b[..|b| - 1]);
      assert b == b[..|b| - 1] + [b[|b| - 1]];
    }
  }

  /** The elements of `s` that satisfy `keep`, in their original order (a list comprehension with a condition). */
  function Filter<T>(s: seq<T>, keep: T -> bool): (r: seq<T>)
    ensures |r| <= |s|
    ensures forall i :: 0 <= i < |s| && keep(s[i]) ==> |r| > 0
    decreases |s|
  {
    if |s| == 0 then []
    else
      var last := s[|s| - 1];
      assert s[..|s| - 1] + [last] == s;
      Filter(s[..|s| - 1], keep) + (if keep(last) then [last] else [])
  }

  /** The filtered sequence holds exactly the elements of `s` that satisfy `keep`. */
  lemma {:induction false} FilterMembers<T(!new)>(s: seq<T>, keep: T -> bool)
    ensures forall x :: x in Filter(s, keep) <==> x in s && keep(x)
    decreases |s|
  {
    if |s| > 0 {
      var init := s[..|s| - 1];
      FilterMembers(init, keep);
      assert init + [s[|s| - 1]] == s;
    }
  }

  /** Filtering keeps every occurrence of a kept element and none of a dropped one. */
  lemma {:induction false} FilterMultiset<T(!new)>(s: seq<T>, keep: T -> bool)
    ensures forall x :: multiset(Filter(s, keep))[x] == if keep(x) then multiset(s)[x] else 0
    decreases |s|
  {
    if |s| > 0 {
      var init := s[..|s| - 1];
      var last := s[|s| - 1];
      FilterMultiset(init, keep);
      assert init + [last] == s;
      assert multiset(s) == multiset(init) + multiset{last};
      assert Filter(s, keep) == Filter(init, keep) + (if keep(last) then [last] else []);
    }
  }

  /** Filtering keeps the original order: the result is a subsequence of the input. */
  lemma {:induction false} FilterSubsequence<T(!new)>(s: seq<T>, keep: T -> bool)
    ensures Subsequence(Filter(s, keep), s)
    decreases |s|
  {
    if |s| > 0 {
      var init := s[..|s| - 1];
      var r := Filter(init, keep);
      FilterSubsequence(init, keep);
      assert Filter(s, keep) == r + (if keep(s[|s| - 1]) then [s[|s| - 1]] else []);
      if keep(s[|s| - 1]) {
        var a := r + [s[|s| - 1]];
        assert a[..|a| - 1] == r && a[|a| - 1] == s[|s| - 1];
        assert Subsequence(a[..|a| - 1], s[..|s| - 1]);
      } else {
        assert Filter(s, keep) == r;
        assert Subsequence(r, s[..|s| - 1]);
      }
    }
  }

  /** Filtering with a condition every element meets keeps the whole sequence. */
  lemma {:induction false} FilterKeepsAll<T(!new)>(s: seq<T>, keep: T -> bool)
    requires forall i :: 0 <= i < |s| ==> keep(s[i])
    ensures Filter(s, keep) == s
    decreases |s|
  {
    if |s| > 0 {
      FilterKeepsAll(s[..|s| - 1], keep);
      assert s[..|s| - 1] + [s[|s| - 1]] == s;
    }
  }

  /** Filtering one more element appends it exactly when it is kept. */
  lemma FilterStep<T(!new)>(s: seq<T>, i: nat, keep: T -> bool)
    requires i < |s|
    ensures Filter(s[..i + 1], keep) == Filter(s[..i], keep) + (if keep(s[i]) then [s[i]] else [])
  {
    var p := s[..i + 1];
    assert p[..|p| - 1] == s[..i];
  }

  /** Prepending an element no larger than the head keeps a sequence ascending. */
  lemma ConsAscending(h: int, t: seq<int>)
    requires Ascending(t) && (|t| == 0 || h <= t[0])
    ensures Ascending([h] + t)
  {
    var s := [h] + t;
    forall i, j | 0 <= i < j < |s| ensures s[i] <= s[j] {
      if i > 0 {
        assert s[i] == t[i - 1] && s[j] == t[j - 1];
      } else {
        assert s[j] == t[j - 1] && t[0] <= t[j - 1];
      }
    }
  }

  /** Insert `x` into an ascending sequence. */
  function Insert(x: int, s: seq<int>): (r: seq<int>)
    requires Ascending(s)
    ensures Ascending(r)
    ensures multiset(r) == multiset(s) + multiset{x}
    ensures |r| == |s| + 1
    ensures r[0] == x || (|s| > 0 && r[0] == s[0])
  {
    if |s| == 0 then [x]
    else if x <= s[0] then [x] + s
    else
      var tail := Insert(x, s[1..]);
      assert s == [s[0]] + s[1..];
      ConsAscending(s[0], tail);
      [s[0]] + tail
  }

  /** Python's `sorted` on integers: the ascending permutation. */
  function Sort(s: seq<int>): (r: seq<int>)
    ensures Ascending(r)
    ensures multiset(r) == multiset(s)
    ensures |r| == |s|
  {
    if |s| == 0 then []
    else
      assert s == [s[0]] + s[1..];
      Insert(s[0], Sort(s[1..]))
  }

  /** Sorting keeps exactly the elements. */
  lemma SortMembers(s: seq<int>)
    ensures forall x :: x in Sort(s) <==> x in s
  {
    forall x ensures x in Sort(s) <==> x in s {
      assert x in Sort(s) <==> x in multiset(Sort(s));
      assert x in s <==> x in multiset(s);
    }
  }

  /** Multiplying by a non-negative factor preserves `<=`. */
  lemma MulLe(a: int, b: int, c: nat)
    requires a <= b
    ensures a * c <= b * c
  {
    assert b * c - a * c == (b - a) * c;
  }

  /** Positions `0, step, 2*step, ...` below `step * n` stay below `len` when `step == len / n`. */
  lemma EvenPositionBound(len: nat, n: nat, i: nat)
    requires 0 < n <= len && i < n
    ensures 1 <= len / n
    ensures i * (len / n) < len
  {
    var step := len / n;
    assert len == n * step + len % n && len % n < n;
    assert step >= 1;
    MulLe(i, n - 1, step);
    assert (n - 1) * step == n * step - step;
  }

  /** Multiplying by a positive step preserves strict order. */
  lemma StepMonotone(i: int, j: int, step: int)
    requires i < j && step >= 1
    ensures i * step < j * step
  {
    assert j * step - i * step == (j - i) * step;
  }

  /**
   * The evenly spaced pick of `run_thorough_analysis` and `find_test_images`:
   * with at least `n` items, item `i` is `xs[i * (len(xs) // n)]`; with fewer,
   * `xs[:n]`, which is the whole list. `n == 0` divides by zero; a negative
   * `n` picks nothing.
   */
  function EvenSample<T>(xs: seq<T>, n: int): (r: Result<seq<T>, string>)
    ensures r.Failure? <==> n == 0
    ensures n < 0 ==> r == Success([])
    ensures 0 < n <= |xs| ==> r.Success? && |r.value| == n
    ensures 0 < n <= |xs| ==> forall i :: 0 <= i < n ==> i * (|xs| / n) < |xs| && r.value[i] == xs[i * (|xs| / n)]
    ensures n > |xs| ==> r == Success(xs)
  {
    if n == 0 then Failure("ZeroDivisionError")
    else if n < 0 then Success([])
    else if |xs| >= n then Success(EvenPick(xs, n, |xs| / n))
    else Success(xs)
  }

  /** Items `0, step, 2*step, ...` of `xs`, `n` of them, for `step == len(xs) // n`. */
  function EvenPick<T>(xs: seq<T>, n: nat, step: nat): (r: seq<T>)
    requires 0 < n <= |xs| && step == |xs| / n
    ensures |r| == n
    ensures forall i :: 0 <= i < n ==> i * step < |xs| && r[i] == xs[i * step]
  {
    var r := seq(n, i requires 0 <= i < n => EvenPositionBound(|xs|, n, i); xs[i * step]);
    assert forall i :: 0 <= i < n ==> i * step < |xs| && r[i] == xs[i * step] by {
      forall i | 0 <= i < n ensures i * step < |xs| && r[i] == xs[i * step] {
        EvenPositionBound(|xs|, n, i);
      }
    }
    r
  }

  /** The positions the evenly spaced pick reads are in bounds and strictly increasing. */
  lemma EvenPositionsIncreasing(len: nat, n: nat, i: nat, j: nat)
    requires 0 < n <= len && i < j < n
    ensures i * (len / n) < j * (len / n) < len
  {
    EvenPositionBound(len, n, j);
    StepMonotone(i, j, len / n);
  }

  /** The evenly spaced pick of a sorted list is sorted. */
  lemma EvenSampleKeepsOrder(xs: seq<int>, n: int)
    requires Ascending(xs) && n != 0
    ensures Ascending(EvenSample(xs, n).value)
  {
    if 0 < n <= |xs| {
      var step := |xs| / n;
      var r := EvenPick(xs, n, step);
      forall i, j | 0 <= i < j < |r| ensures r[i] <= r[j] {
        EvenPositionsIncreasing(|xs|, n, i, j);
        assert r[i] == xs[i * step] && r[j] == xs[j * step];
      }
      assert EvenSample(xs, n).value == r;
    }
  }

  /**
   * Reading `b` at strictly increasing in-bounds positions yields a
   * subsequence of `b`.
   */
  lemma {:induction false} PicksSubsequence<T>(a: seq<T>, b: seq<T>, pos: seq<int>)
    requires |pos| == |a|
    requires forall i :: 0 <= i < |pos| ==> 0 <= pos[i] < |b| && a[i] == b[pos[i]]
    requires forall i, j :: 0 <= i < j < |pos| ==> pos[i] < pos[j]
    ensures Subsequence(a, b)
    decreases |b|
  {
    if |a| > 0 {
      var m := |a| - 1;
      assert 0 <= pos[m] < |b|;
      var b' := b[..|b| - 1];
      if pos[m] == |b| - 1 {
        PicksSubsequence(a[..m], b', pos[..m]);
      } else {
        assert forall i :: 0 <= i < |pos| ==> pos[i] <= pos[m];
        PicksSubsequence(a, b', pos);
      }
    }
  }

  /** The evenly spaced pick never reorders: it is a subsequence of the list it picks from. */
  lemma EvenSampleSubsequence<T>(xs: seq<T>, n: int)
    ensures n != 0 ==> Subsequence(EvenSample(xs, n).value, xs)
  {
    if 0 < n <= |xs| {
      var r := EvenSample(xs, n).value;
      var pos := seq(n, i => i * (|xs| / n));
      forall i | 0 <= i < n ensures 0 <= pos[i] < |xs| {
        EvenPositionBound(|xs|, n, i);
      }
      forall i, j | 0 <= i < j < n ensures pos[i] < pos[j] {
        EvenPositionsIncreasing(|xs|, n, i, j);
      }
      PicksSubsequence(r, xs, pos);
    } else if n > |xs| {
      PicksSubsequence(xs, xs, seq(|xs|, i => i));
    }
  }

  /** `ceil(a / b)` for a positive divisor. */
  function CeilDiv(a: nat, b: nat): nat
    requires b > 0
  {
    (a + b - 1) / b
  }

  /** Positions `i * step` for `i < ceil(len / step)` are below `len`. */
  lemma StridePositionBound(len: nat, step: nat, i: nat)
    requires step > 0 && i < CeilDiv(len, step)
    ensures i * step < len
  {
    var q := CeilDiv(len, step);
    assert q * step <= len + step - 1;
    assert i * step <= (q - 1) * step by {
      assert i <= q - 1;
    }
    assert (q - 1) * step == q * step - step;
  }

  /** `xs[::step]` for a positive step: positions `0, step, 2*step, ...`. */
  function ForwardStride<T>(xs: seq<T>, step: nat): (r: seq<T>)
    requires step > 0
    ensures |r| == CeilDiv(|xs|, step)
    ensures forall i :: 0 <= i < |r| ==> i * step < |xs| && r[i] == xs[i * step]
  {
    var n := CeilDiv(|xs|, step);
    var r := seq(n, i requires 0 <= i < n => StridePositionBound(|xs|, step, i); xs[i * step]);
    assert forall i :: 0 <= i < n ==> i * step < |xs| && r[i] == xs[i * step] by {
      forall i | 0 <= i < n ensures i * step < |xs| && r[i] == xs[i * step] {
        StridePositionBound(|xs|, step, i);
      }
    }
    r
  }

  /** `xs[::-1]`. */
  function Reverse<T>(xs: seq<T>): (r: seq<T>)
    ensures |r| == |xs|
    ensures forall i :: 0 <= i < |xs| ==> r[i] == xs[|xs| - 1 - i]
  {
    seq(|xs|, i requires 0 <= i < |xs| => xs[|xs| - 1 - i])
  }

  /**
   * Python's extended slice `xs[::step]`: a positive step reads positions
   * `0, step, 2*step, ...`; a negative one reads the same way from the end
   * backwards; zero raises `ValueError`. Either way there are
   * `ceil(len / |step|)` items.
   */
  function Stride<T>(xs: seq<T>, step: int): (r: Result<seq<T>, string>)
    ensures r.Failure? <==> step == 0
    ensures step != 0 ==> |r.value| == CeilDiv(|xs|, if step > 0 then step else -step)
    ensures step > 0 ==> forall i :: 0 <= i < |r.value| ==> i * step < |xs| && r.value[i] == xs[i * step]
    ensures step < 0 ==> forall i :: 0 <= i < |r.value| ==>
              0 <= |xs| - 1 + i * step < |xs| && r.value[i] == xs[|xs| - 1 + i * step]
  {
    if step == 0 then Failure("ValueError")
    else if step > 0 then Success(ForwardStride(xs, step))
    else
      var r := ForwardStride(Reverse(xs), -step);
      assert forall i :: 0 <= i < |r| ==> i * step == -(i * -step);
      Success(r)
  }

  /** A forward stride of a sorted list is sorted. */
  lemma StrideKeepsOrder(xs: seq<int>, step: int)
    requires Ascending(xs) && step > 0
    ensures Ascending(Stride(xs, step).value)
  {
    var r := Stride(xs, step).value;
    forall i, j | 0 <= i < j < |r| ensures r[i] <= r[j] {
      StepMonotone(i, j, step);
    }
  }
}
