/** Real-valued vector arithmetic used by the Q-function, the agent and the teaching layer.
    Java `double` is modelled as `real`: IEEE rounding is not part of the model. */
module Vectors {

  /** Sum of a sequence, accumulated left to right as the source's loops do. */
  function Sum(s: seq<real>): real
  {
    if |s| == 0 then 0.0 else Sum(s[..|s| - 1]) + s[|s| - 1]
  }

  /** Σ f[i]·w[i], accumulated left to right. */
  function Dot(f: seq<real>, w: seq<real>): real
    requires |f| == |w|
  {
    if |f| == 0 then 0.0 else Dot(f[..|f| - 1], w[..|w| - 1]) + f[|f| - 1] * w[|w| - 1]
  }

  function Zeros(n: nat): seq<real>
  {
    seq(n, _ => 0.0)
  }

  /** Pointwise w[i] + u·e[i]. */
  function AddScaled(w: seq<real>, u: real, e: seq<real>): seq<real>
    requires |w| == |e|
  {
    seq(|w|, i requires 0 <= i < |w| => w[i] + u * e[i])
  }

  /** Pointwise e[i]·k. */
  function Scale(e: seq<real>, k: real): seq<real>
  {
    seq(|e|, i requires 0 <= i < |e| => e[i] * k)
  }

  /** Pointwise e[i] + f[i]. */
  function Plus(e: seq<real>, f: seq<real>): seq<real>
    requires |e| == |f|
  {
    seq(|e|, i requires 0 <= i < |e| => e[i] + f[i])
  }

  /** Pointwise a[i] − b[i]. */
  function Minus(a: seq<real>, b: seq<real>): seq<real>
    requires |a| == |b|
  {
    seq(|a|, i requires 0 <= i < |a| => a[i] - b[i])
  }

  /** The largest element (what `Stats.max` computes). */
  function Max(s: seq<real>): (m: real)
    requires |s| > 0
    ensures m in s
    ensures forall i :: 0 <= i < |s| ==> s[i] <= m
  {
    if |s| == 1 then s[0]
    else
      var r := Max(s[..|s| - 1]);
      assert r in s by { assert s == s[..|s| - 1] + [s[|s| - 1]]; }
      if s[|s| - 1] > r then s[|s| - 1] else r
  }

  /** The smallest element (what `Stats.min` computes). */
  function Min(s: seq<real>): (m: real)
    requires |s| > 0
    ensures m in s
    ensures forall i :: 0 <= i < |s| ==> m <= s[i]
  {
    if |s| == 1 then s[0]
    else
      var r := Min(s[..|s| - 1]);
      assert r in s by { assert s == s[..|s| - 1] + [s[|s| - 1]]; }
      if s[|s| - 1] < r then s[|s| - 1] else r
  }

  /** The q-value spread `max − min` that the teaching strategies compare against thresholds. */
  function Spread(s: seq<real>): real
    requires |s| > 0
  {
    Max(s) - Min(s)
  }

  /** A spread is never negative, and it is the difference of any maximal and any minimal element. */
  lemma SpreadOfExtremes(s: seq<real>, hi: nat, lo: nat)
    requires hi < |s| && lo < |s|
    requires forall i :: 0 <= i < |s| ==> s[i] <= s[hi]
    requires forall i :: 0 <= i < |s| ==> s[lo] <= s[i]
    ensures Spread(s) == s[hi] - s[lo] >= 0.0
  {
    var mx, mn := Max(s), Min(s);
    var a :| 0 <= a < |s| && s[a] == mx;
    var b :| 0 <= b < |s| && s[b] == mn;
  }

  /** The spread exceeds t exactly when some two values are more than t apart. */
  lemma SpreadAbove(s: seq<real>, t: real)
    requires |s| > 0
    ensures Spread(s) > t <==> exists i, j :: 0 <= i < |s| && 0 <= j < |s| && s[i] - s[j] > t
  {
    var a :| 0 <= a < |s| && s[a] == Max(s);
    var b :| 0 <= b < |s| && s[b] == Min(s);
    if Spread(s) > t {
      assert s[a] - s[b] > t;
    }
  }

  /** The spread is below t exactly when every two values are less than t apart. */
  lemma SpreadBelow(s: seq<real>, t: real)
    requires |s| > 0
    ensures Spread(s) < t <==> forall i, j :: 0 <= i < |s| && 0 <= j < |s| ==> s[i] - s[j] < t
  {
    var a :| 0 <= a < |s| && s[a] == Max(s);
    var b :| 0 <= b < |s| && s[b] == Min(s);
    if forall i, j :: 0 <= i < |s| && 0 <= j < |s| ==> s[i] - s[j] < t {
      assert s[a] - s[b] < t;
    }
  }

  /** The index a left-to-right scan with strict `>` settles on. */
  function FirstMaxIndex(s: seq<real>): (r: nat)
    requires |s| > 0
    ensures r < |s|
  {
    if |s| == 1 then 0
    else
      var r := FirstMaxIndex(s[..|s| - 1]);
      if s[|s| - 1] > s[r] then |s| - 1 else r
  }

  /** That scan settles on the first index of the maximum. */
  lemma {:induction false} FirstMaxIndexIsFirstMax(s: seq<real>)
    requires |s| > 0
    ensures forall j :: 0 <= j < |s| ==> s[j] <= s[FirstMaxIndex(s)]
    ensures forall j :: 0 <= j < FirstMaxIndex(s) ==> s[j] < s[FirstMaxIndex(s)]
  {
    if |s| > 1 {
      FirstMaxIndexIsFirstMax(s[..|s| - 1]);
      assert forall j :: 0 <= j < |s| - 1 ==> s[..|s| - 1][j] == s[j];
    }
  }

  /** The index a left-to-right scan with strict `<` settles on. */
  function FirstMinIndex(s: seq<real>): (r: nat)
    requires |s| > 0
    ensures r < |s|
  {
    if |s| == 1 then 0
    else
      var r := FirstMinIndex(s[..|s| - 1]);
      if s[|s| - 1] < s[r] then |s| - 1 else r
  }

  /** That scan settles on the first index of the minimum. */
  lemma {:induction false} FirstMinIndexIsFirstMin(s: seq<real>)
    requires |s| > 0
    ensures forall j :: 0 <= j < |s| ==> s[FirstMinIndex(s)] <= s[j]
    ensures forall j :: 0 <= j < FirstMinIndex(s) ==> s[FirstMinIndex(s)] < s[j]
  {
    if |s| > 1 {
      FirstMinIndexIsFirstMin(s[..|s| - 1]);
      assert forall j :: 0 <= j < |s| - 1 ==> s[..|s| - 1][j] == s[j];
    }
  }

  /** The spread is the value at the first maximum minus the value at the first minimum. */
  lemma SpreadByIndices(s: seq<real>)
    requires |s| > 0
    ensures Spread(s) == s[FirstMaxIndex(s)] - s[FirstMinIndex(s)] >= 0.0
  {
    FirstMaxIndexIsFirstMax(s);
    FirstMinIndexIsFirstMin(s);
    SpreadOfExtremes(s, FirstMaxIndex(s), FirstMinIndex(s));
  }

  predicate Sorted(s: seq<real>)
  {
    forall i, j :: 0 <= i < j < |s| ==> s[i] <= s[j]
  }

  /** Places x before the first element it does not exceed. */
  function Insert(x: real, s: seq<real>): seq<real>
  {
    if |s| == 0 || x <= s[0] then [x] + s else [s[0]] + Insert(x, s[1..])
  }

  /** The ascending order of s: the result `Arrays.sort` leaves in an array. */
  function SortSpec(s: seq<real>): seq<real>
  {
    if |s| == 0 then [] else Insert(s[|s| - 1], SortSpec(s[..|s| - 1]))
  }

  lemma {:induction false} InsertSorted(x: real, s: seq<real>)
    requires Sorted(s)
    ensures |Insert(x, s)| == |s| + 1
    ensures Insert(x, s)[0] == if |s| == 0 || x <= s[0] then x else s[0]
    ensures multiset(Insert(x, s)) == multiset(s) + multiset{x}
    ensures Sorted(Insert(x, s))
  {
    if |s| == 0 || x <= s[0] {
      assert multiset([x] + s) == multiset{x} + multiset(s);
    } else {
      var t := s[1..];
      assert s == [s[0]] + t;
      assert Sorted(t);
      InsertSorted(x, t);
      var r := Insert(x, t);
      assert s[0] <= r[0];
      assert multiset([s[0]] + r) == multiset{s[0]} + multiset(r);
      var whole := [s[0]] + r;
      forall i, j | 0 <= i < j < |whole|
        ensures whole[i] <= whole[j]
      {
        if i > 0 {
          assert whole[i] == r[i - 1] && whole[j] == r[j - 1];
        } else {
          assert whole[j] == r[j - 1];
          assert r[0] <= r[j - 1];
        }
      }
    }
  }

  /** SortSpec yields a sorted permutation of its input. */
  lemma {:induction false} SortSpecSorted(s: seq<real>)
    ensures Sorted(SortSpec(s))
    ensures multiset(SortSpec(s)) == multiset(s)
    ensures |SortSpec(s)| == |s|
  {
    if |s| > 0 {
      SortSpecSorted(s[..|s| - 1]);
      InsertSorted(s[|s| - 1], SortSpec(s[..|s| - 1]));
      assert s == s[..|s| - 1] + [s[|s| - 1]];
    }
  }

  /** Every element of a sorted sequence is at most its last one. */
  lemma SortedLast(s: seq<real>, x: real)
    requires Sorted(s) && x in multiset(s)
    ensures |s| > 0 && x <= s[|s| - 1]
  {
    var j :| 0 <= j < |s| && s[j] == x;
  }

  lemma SortedPrefix(s: seq<real>, n: nat)
    requires Sorted(s) && n <= |s|
    ensures Sorted(s[..n])
  {
  }

  /** A sorted permutation is unique: two sorted sequences with one multiset are equal. */
  lemma {:induction false} SortedUnique(a: seq<real>, b: seq<real>)
    requires Sorted(a) && Sorted(b) && multiset(a) == multiset(b)
    ensures a == b
    decreases |a|
  {
    if |a| == 0 {
      assert |b| == |multiset(b)| == 0;
    } else {
      assert |b| == |multiset(b)| == |a|;
      var n := |a| - 1;
      var x, y := a[n], b[n];
      assert x in multiset(a);
      SortedLast(b, x);
      assert y in multiset(b);
      SortedLast(a, y);
      assert x == y;
      var a', b' := a[..n], b[..n];
      assert a == a' + [x];
      assert b == b' + [x];
      assert multiset(a) == multiset(a') + multiset{x};
      assert multiset(b) == multiset(b') + multiset{x};
      assert multiset(a') == multiset(a) - multiset{x};
      assert multiset(b') == multiset(b) - multiset{x};
      SortedPrefix(a, n);
      SortedPrefix(b, n);
      SortedUnique(a', b');
    }
  }

  /** Exchanges two entries of an array. */
  method Swap(a: array<real>, i: nat, j: nat)
    requires i < a.Length && j < a.Length
    modifies a
    ensures a[..] == old(a[..])[i := old(a[j])][j := old(a[i])]
    ensures multiset(a[..]) == multiset(old(a[..]))
  {
    a[i], a[j] := a[j], a[i];
  }

  /** Moves a[i] left until a[..i + 1] is in order, given that a[..i] is. */
  method SiftDown(a: array<real>, i: nat)
    requires i < a.Length
    requires forall p, q :: 0 <= p < q < i ==> a[p] <= a[q]
    modifies a
    ensures forall p, q :: 0 <= p < q <= i ==> a[p] <= a[q]
    ensures multiset(a[..]) == multiset(old(a[..]))
  {
    var j := i;
    while j > 0 && a[j - 1] > a[j]
      invariant 0 <= j <= i
      invariant forall p, q :: 0 <= p < q <= i && q != j ==> a[p] <= a[q]
      invariant 0 < j < i ==> a[j - 1] <= a[j + 1]
      invariant multiset(a[..]) == multiset(old(a[..]))
    {
      Swap(a, j - 1, j);
      j := j - 1;
    }
  }

  /** Arrays.sort on a `double[]`: the array is left in ascending order. */
  method SortArray(a: array<real>)
    modifies a
    ensures a[..] == SortSpec(old(a[..]))
  {
    var i := 0;
    while i < a.Length
      invariant 0 <= i <= a.Length
      invariant forall p, q :: 0 <= p < q < i ==> a[p] <= a[q]
      invariant multiset(a[..]) == multiset(old(a[..]))
    {
      SiftDown(a, i);
      i := i + 1;
    }
    SortSpecSorted(old(a[..]));
    SortedUnique(a[..], SortSpec(old(a[..])));
  }

  lemma {:induction false} SumConcat(a: seq<real>, b: seq<real>)
    ensures Sum(a + b) == Sum(a) + Sum(b)
    decreases |b|
  {
    if |b| == 0 {
      assert a + b == a;
    } else {
      assert (a + b)[..|a + b| - 1] == a + b[..|b| - 1];
      SumConcat(a, b[..|b| - 1]);
    }
  }

  /** Reordering does not change a sum: what keeps the average spread fixed under sorting. */
  lemma {:induction false} SumPermutation(s: seq<real>, t: seq<real>)
    requires multiset(s) == multiset(t)
    ensures Sum(s) == Sum(t)
    decreases |s|
  {
    if |s| == 0 {
      assert |t| == |multiset(t)| == 0;
    } else {
      var n := |s| - 1;
      var x := s[n];
      assert s == s[..n] + [x];
      assert x in multiset(t);
      var k :| 0 <= k < |t| && t[k] == x;
      var rest := t[..k] + t[k + 1..];
      assert t == t[..k] + [x] + t[k + 1..];
      assert multiset(s) == multiset(s[..n]) + multiset{x};
      assert multiset(t) == multiset(t[..k]) + multiset{x} + multiset(t[k + 1..]);
      assert multiset(rest) == multiset(t[..k]) + multiset(t[k + 1..]);
      assert multiset(s[..n]) == multiset(s) - multiset{x};
      assert multiset(rest) == multiset(t) - multiset{x};
      SumPermutation(s[..n], rest);
      SumConcat(s[..n], [x]);
      SumConcat(t[..k] + [x], t[k + 1..]);
      SumConcat(t[..k], [x]);
      SumConcat(t[..k], t[k + 1..]);
      assert Sum([x]) == Sum([]) + x;
    }
  }

  /** With all-zero weights a dot product vanishes. */
  lemma {:induction false} DotZeros(f: seq<real>)
    ensures Dot(f, Zeros(|f|)) == 0.0
  {
    if |f| > 0 {
      assert Zeros(|f|)[..|f| - 1] == Zeros(|f| - 1);
      DotZeros(f[..|f| - 1]);
    }
  }

  /** Moving w along f by u changes f·w by exactly u·(f·f). */
  lemma {:induction false} DotAddScaled(f: seq<real>, w: seq<real>, u: real)
    requires |f| == |w|
    ensures Dot(f, AddScaled(w, u, f)) == Dot(f, w) + u * Dot(f, f)
  {
    if |f| > 0 {
      var n := |f| - 1;
      var a := AddScaled(w, u, f);
      AddScaledPrefix(w, u, f, n);
      DotAddScaled(f[..n], w[..n], u);
      Regroup(Dot(f[..n], w[..n]), Dot(f[..n], f[..n]), u, f[n], w[n]);
    }
  }

  lemma AddScaledPrefix(w: seq<real>, u: real, e: seq<real>, n: nat)
    requires |w| == |e| && n <= |w|
    ensures AddScaled(w, u, e)[..n] == AddScaled(w[..n], u, e[..n])
  {
    assert forall i :: 0 <= i < n ==> AddScaled(w, u, e)[..n][i] == AddScaled(w[..n], u, e[..n])[i];
  }

  /** The algebra of one step of DotAddScaled. */
  lemma Regroup(dw: real, df: real, u: real, x: real, y: real)
    ensures dw + u * df + x * (y + u * x) == (dw + x * y) + u * (df + x * x)
  {
  }

  /** A sum of squares is never negative. */
  lemma {:induction false} DotSelfNonNegative(f: seq<real>)
    ensures Dot(f, f) >= 0.0
  {
    if |f| > 0 {
      DotSelfNonNegative(f[..|f| - 1]);
      assert f[|f| - 1] * f[|f| - 1] >= 0.0;
    }
  }
}
