/** The linear Q-function of `QFunction.java`: a weight array and a bias for the constant
    feature, plus a parallel array of eligibility traces with a trace bias. */
module QFunctions {
  import opened Vectors

  /** bias + Σ f[i]·w[i]: the value a linear Q-function with weights w and bias b gives f. */
  function Estimate(w: seq<real>, b: real, f: seq<real>): real
    requires |f| == |w|
  {
    b + Dot(f, w)
  }

  /** Σ_{j < m, j ≠ i} α·(d[j]·d[i]): entry i of the weights `maxUpdate` builds, over the first m terms. */
  function CrossSum(d: seq<real>, alpha: real, i: nat, m: nat): real
    requires i < |d| && m <= |d|
  {
    if m == 0 then 0.0
    else if m - 1 == i then CrossSum(d, alpha, i, m - 1)
    else CrossSum(d, alpha, i, m - 1) + alpha * (d[m - 1] * d[i])
  }

  /** The weights `maxUpdate` installs for d = maxAction − advisedAction. */
  function CrossWeights(d: seq<real>, alpha: real): (r: seq<real>)
    ensures |r| == |d|
  {
    seq(|d|, i requires 0 <= i < |d| => CrossSum(d, alpha, i, |d|))
  }

  /** Each new weight is α·d[i]·(Σd − d[i]): the correction couples every feature with all the others. */
  lemma {:induction false} CrossSumClosedForm(d: seq<real>, alpha: real, i: nat, m: nat)
    requires i < |d| && m <= |d|
    ensures CrossSum(d, alpha, i, m) == alpha * d[i] * (Sum(d[..m]) - (if i < m then d[i] else 0.0))
  {
    if m > 0 {
      CrossSumClosedForm(d, alpha, i, m - 1);
      assert d[..m][..m - 1] == d[..m - 1];
    }
  }

  lemma CrossWeightsClosedForm(d: seq<real>, alpha: real)
    ensures |CrossWeights(d, alpha)| == |d|
    ensures forall i :: 0 <= i < |d| ==> CrossWeights(d, alpha)[i] == alpha * d[i] * (Sum(d) - d[i])
  {
    forall i | 0 <= i < |d|
      ensures CrossWeights(d, alpha)[i] == alpha * d[i] * (Sum(d) - d[i])
    {
      CrossSumClosedForm(d, alpha, i, |d|);
      assert d[..|d|] == d;
    }
  }

  /** What a Q-function holds: weights, bias, eligibility traces and trace bias. */
  datatype Params = Params(weights: seq<real>, bias: real, traces: seq<real>, tbias: real)

  /** Both arrays have the feature set's length. */
  predicate Sized(p: Params, n: nat)
  {
    |p.weights| == n && |p.traces| == n
  }

  /** The freshly constructed function: everything zero. */
  function Initial(n: nat): (p: Params)
    ensures Sized(p, n)
  {
    Params(Zeros(n), 0.0, Zeros(n), 0.0)
  }

  /** `updateWeights(update, features)`: weights[i] += u·f[i], bias += u. */
  function FeatureStep(p: Params, u: real, f: seq<real>): Params
    requires |f| == |p.weights|
  {
    p.(weights := AddScaled(p.weights, u, f), bias := p.bias + u)
  }

  /** `updateWeights(update)`: weights[i] += u·e[i], bias += u·ebias. */
  function TraceStep(p: Params, u: real): Params
    requires |p.traces| == |p.weights|
  {
    p.(weights := AddScaled(p.weights, u, p.traces), bias := p.bias + u * p.tbias)
  }

  /** `clearTraces`. */
  function Cleared(p: Params): Params
  {
    p.(traces := Zeros(|p.traces|), tbias := 0.0)
  }

  /** `decayTraces(k)`. */
  function Decayed(p: Params, k: real): Params
  {
    p.(traces := Scale(p.traces, k), tbias := p.tbias * k)
  }

  /** `addTraces(f)`: accumulating traces. */
  function Accumulated(p: Params, f: seq<real>): Params
    requires |f| == |p.traces|
  {
    p.(traces := Plus(p.traces, f), tbias := p.tbias + 1.0)
  }

  /** `maxUpdate(adv, mx, alpha)`: the weights are replaced by the cross-product correction. */
  function Corrected(p: Params, adv: seq<real>, mx: seq<real>, alpha: real): (r: Params)
    requires |adv| == |mx|
    ensures |r.weights| == |mx| && r.traces == p.traces
  {
    p.(weights := CrossWeights(Minus(mx, adv), alpha))
  }

  /** The weight file: the bias on the first line, then one weight per line. */
  function Render(p: Params): seq<real>
  {
    [p.bias] + p.weights
  }

  /** Loading a weight file into a fresh function of n features: the first line is the bias,
      the next n lines the weights; traces start at zero and later lines are ignored. */
  function Load(lines: seq<real>, n: nat): (p: Params)
    requires |lines| > n
    ensures Sized(p, n)
  {
    Params(lines[1..n + 1], lines[0], Zeros(n), 0.0)
  }

  /** A zero-initialised function evaluates every feature vector to exactly its bias. */
  lemma {:induction false} EstimateAtZero(b: real, f: seq<real>)
    ensures Estimate(Initial(|f|).weights, b, f) == b
    ensures Estimate(Initial(|f|).weights, Initial(|f|).bias, f) == 0.0
  {
    DotZeros(f);
  }

  /** A feature step by u raises the value of those same features by exactly u·(‖f‖² + 1),
      so a positive step always raises it. */
  lemma FeatureStepRaisesValue(p: Params, u: real, f: seq<real>)
    requires |f| == |p.weights|
    ensures Estimate(FeatureStep(p, u, f).weights, FeatureStep(p, u, f).bias, f)
         == Estimate(p.weights, p.bias, f) + u * (Dot(f, f) + 1.0)
    ensures u > 0.0 ==>
      Estimate(FeatureStep(p, u, f).weights, FeatureStep(p, u, f).bias, f) > Estimate(p.weights, p.bias, f)
  {
    DotAddScaled(f, p.weights, u);
    DotSelfNonNegative(f);
  }

  /** Right after clearing the traces a trace step changes nothing. */
  lemma {:induction false} TraceStepAfterClear(p: Params, u: real)
    requires |p.traces| == |p.weights|
    ensures TraceStep(Cleared(p), u) == Cleared(p)
  {
    var c := Cleared(p);
    assert forall i :: 0 <= i < |p.weights| ==> AddScaled(c.weights, u, c.traces)[i] == c.weights[i];
    assert AddScaled(c.weights, u, c.traces) == c.weights;
  }

  /** Decaying by 1 changes nothing; decaying never touches weights or bias. */
  lemma {:induction false} DecayByOne(p: Params)
    ensures Decayed(p, 1.0) == p
  {
    assert forall i :: 0 <= i < |p.traces| ==> Scale(p.traces, 1.0)[i] == p.traces[i];
    assert Scale(p.traces, 1.0) == p.traces;
  }

  /** Accumulating f twice adds 2·f to the traces: traces accumulate rather than being replaced. */
  lemma {:induction false} AccumulatedTwice(p: Params, f: seq<real>)
    requires |f| == |p.traces|
    ensures Accumulated(Accumulated(p, f), f).traces == Plus(p.traces, Scale(f, 2.0))
    ensures Accumulated(Accumulated(p, f), f).tbias == p.tbias + 2.0
  {
    var twice := Accumulated(Accumulated(p, f), f).traces;
    assert forall i :: 0 <= i < |f| ==> twice[i] == Plus(p.traces, Scale(f, 2.0))[i];
  }

  /** After a correction every weight is α·d[i]·(Σd − d[i]) with d = mx − adv; the length, the
      bias and the traces are unchanged. */
  lemma CorrectedClosedForm(p: Params, adv: seq<real>, mx: seq<real>, alpha: real)
    requires |adv| == |mx|
    ensures |Corrected(p, adv, mx, alpha).weights| == |mx|
    ensures forall i :: 0 <= i < |mx| ==>
      Corrected(p, adv, mx, alpha).weights[i] == alpha * (mx[i] - adv[i]) * (Sum(Minus(mx, adv)) - (mx[i] - adv[i]))
    ensures Corrected(p, adv, mx, alpha).bias == p.bias
    ensures Corrected(p, adv, mx, alpha).traces == p.traces
  {
    CrossWeightsClosedForm(Minus(mx, adv), alpha);
  }

  /** The correction does not in general raise the advised action's value: with one feature,
      weight 1, bias 0, advised features [1] and best alternative [2], the advised value falls
      from 1 to 0, because the diagonal term is dropped and the old weights are discarded. */
  lemma CorrectionCanLowerAdvisedValue()
    ensures Estimate([1.0], 0.0, [1.0]) == 1.0
    ensures Corrected(Params([1.0], 0.0, [0.0], 0.0), [1.0], [2.0], 0.001).weights == [0.0]
    ensures Estimate(Corrected(Params([1.0], 0.0, [0.0], 0.0), [1.0], [2.0], 0.001).weights, 0.0, [1.0]) == 0.0
  {
    var d := Minus([2.0], [1.0]);
    assert d == [1.0];
    assert CrossSum(d, 0.001, 0, 1) == 0.0;
    assert CrossWeights(d, 0.001) == [0.0];
    assert Dot([1.0], [0.0]) == Dot([], []) + 1.0 * 0.0;
    assert Dot([1.0], [1.0]) == Dot([], []) + 1.0 * 1.0;
  }

  /** Saving and loading into a fresh function of the same size restores weights and bias, so
      it evaluates every feature vector as before. */
  lemma {:induction false} SaveLoadRoundTrip(p: Params, f: seq<real>)
    requires |f| == |p.weights|
    ensures Load(Render(p), |p.weights|).weights == p.weights
    ensures Load(Render(p), |p.weights|).bias == p.bias
    ensures Estimate(Load(Render(p), |p.weights|).weights, Load(Render(p), |p.weights|).bias, f)
         == Estimate(p.weights, p.bias, f)
  {
    assert Render(p)[1..|p.weights| + 1] == p.weights;
  }

  class QFunction {
    /** prototype.size(): the length of every feature vector and of both arrays. */
    const size: nat
    var weights: array<real>
    var bias: real
    var eligibility: array<real>
    var ebias: real

    /** Two distinct arrays of the feature set's length. */
    ghost predicate Valid()
      reads this
    {
      weights != eligibility &&
      weights.Length == size && eligibility.Length == size
    }

    /** The current contents as a value. */
    ghost function Snapshot(): (p: Params)
      reads this, weights, eligibility
    {
      Params(weights[..], bias, eligibility[..], ebias)
    }

    /** Everything starts at zero. */
    constructor (n: nat)
      ensures Valid() && fresh(weights) && fresh(eligibility) && size == n
      ensures Snapshot() == Initial(n)
    {
      size := n;
      weights := new real[n](_ => 0.0);
      eligibility := new real[n](_ => 0.0);
      bias := 0.0;
      ebias := 0.0;
    }

    /** Loading from a weight file already read into lines of numbers. */
    constructor FromFile(n: nat, lines: seq<real>)
      requires |lines| > n
      ensures Valid() && fresh(weights) && fresh(eligibility) && size == n
      ensures Snapshot() == Load(lines, n)
    {
      size := n;
      weights := new real[n](i requires 0 <= i < n => lines[i + 1]);
      eligibility := new real[n](_ => 0.0);
      bias := lines[0];
      ebias := 0.0;
      new;
      assert weights[..] == lines[1..n + 1];
    }

    /** `save`: the bias, then the weights in feature order. */
    method Save() returns (lines: seq<real>)
      requires Valid()
      ensures lines == Render(Snapshot())
    {
      lines := [bias] + weights[..];
    }

    /** `evaluate`: bias + Σ f[i]·weights[i]. */
    method Evaluate(f: seq<real>) returns (r: real)
      requires Valid() && |f| == size
      ensures r == Estimate(weights[..], bias, f)
    {
      r := bias;
      var i := 0;
      while i < weights.Length
        invariant 0 <= i <= weights.Length
        invariant r == bias + Dot(f[..i], weights[..i])
      {
        assert f[..i + 1][..i] == f[..i] && weights[..i + 1][..i] == weights[..i];
        r := r + f[i] * weights[i];
        i := i + 1;
      }
      assert f[..i] == f && weights[..i] == weights[..];
    }

    /** `updateWeights(update, features)`: a plain gradient step along f. */
    method UpdateWeightsWithFeatures(u: real, f: seq<real>)
      requires Valid() && |f| == size
      modifies weights, this
      ensures Valid() && weights == old(weights) && eligibility == old(eligibility)
      ensures Snapshot() == FeatureStep(old(Snapshot()), u, f)
    {
      var i := 0;
      while i < weights.Length
        modifies weights
        invariant 0 <= i <= weights.Length
        invariant forall k :: 0 <= k < i ==> weights[k] == old(weights[k]) + u * f[k]
        invariant forall k :: i <= k < weights.Length ==> weights[k] == old(weights[k])
      {
        weights[i] := weights[i] + u * f[i];
        i := i + 1;
      }
      bias := bias + u;
      assert forall k :: 0 <= k < size ==> weights[..][k] == AddScaled(old(weights[..]), u, f)[k];
      assert weights[..] == AddScaled(old(weights[..]), u, f);
    }

    /** `updateWeights(update)`: a gradient step along the eligibility traces. */
    method UpdateWeights(u: real)
      requires Valid()
      modifies weights, this
      ensures Valid() && weights == old(weights) && eligibility == old(eligibility)
      ensures Snapshot() == TraceStep(old(Snapshot()), u)
    {
      var i := 0;
      while i < weights.Length
        modifies weights
        invariant 0 <= i <= weights.Length
        invariant forall k :: 0 <= k < i ==> weights[k] == old(weights[k]) + u * eligibility[k]
        invariant forall k :: i <= k < weights.Length ==> weights[k] == old(weights[k])
      {
        weights[i] := weights[i] + u * eligibility[i];
        i := i + 1;
      }
      bias := bias + u * ebias;
      assert forall k :: 0 <= k < size ==> weights[..][k] == AddScaled(old(weights[..]), u, eligibility[..])[k];
      assert weights[..] == AddScaled(old(weights[..]), u, eligibility[..]);
    }

    /** `clearTraces`: every trace and the trace bias become zero. */
    method ClearTraces()
      requires Valid()
      modifies eligibility, this
      ensures Valid() && weights == old(weights) && eligibility == old(eligibility)
      ensures Snapshot() == Cleared(old(Snapshot()))
    {
      var i := 0;
      while i < eligibility.Length
        modifies eligibility
        invariant 0 <= i <= eligibility.Length
        invariant forall k :: 0 <= k < i ==> eligibility[k] == 0.0
      {
        eligibility[i] := 0.0;
        i := i + 1;
      }
      ebias := 0.0;
      assert eligibility[..] == Zeros(size);
    }

    /** `decayTraces`: every trace and the trace bias are multiplied by k. */
    method DecayTraces(k: real)
      requires Valid()
      modifies eligibility, this
      ensures Valid() && weights == old(weights) && eligibility == old(eligibility)
      ensures Snapshot() == Decayed(old(Snapshot()), k)
    {
      var i := 0;
      while i < eligibility.Length
        modifies eligibility
        invariant 0 <= i <= eligibility.Length
        invariant forall p :: 0 <= p < i ==> eligibility[p] == old(eligibility[p]) * k
        invariant forall p :: i <= p < eligibility.Length ==> eligibility[p] == old(eligibility[p])
      {
        eligibility[i] := eligibility[i] * k;
        i := i + 1;
      }
      ebias := ebias * k;
      assert forall p :: 0 <= p < size ==> eligibility[..][p] == Scale(old(eligibility[..]), k)[p];
      assert eligibility[..] == Scale(old(eligibility[..]), k);
    }

    /** `addTraces`: accumulating traces, e[i] += f[i] and the trace bias grows by one. */
    method AddTraces(f: seq<real>)
      requires Valid() && |f| == size
      modifies eligibility, this
      ensures Valid() && weights == old(weights) && eligibility == old(eligibility)
      ensures Snapshot() == Accumulated(old(Snapshot()), f)
    {
      var i := 0;
      while i < eligibility.Length
        modifies eligibility
        invariant 0 <= i <= eligibility.Length
        invariant forall p :: 0 <= p < i ==> eligibility[p] == old(eligibility[p]) + f[p]
        invariant forall p :: i <= p < eligibility.Length ==> eligibility[p] == old(eligibility[p])
      {
        eligibility[i] := eligibility[i] + f[i];
        i := i + 1;
      }
      ebias := ebias + 1.0;
      assert forall k :: 0 <= k < size ==> eligibility[..][k] == Plus(old(eligibility[..]), f)[k];
      assert eligibility[..] == Plus(old(eligibility[..]), f);
    }

    /** `maxUpdate`: builds a fresh weight array from the cross products of d = mx − adv
        (diagonal excluded) and installs it in place of the old weights. */
    method MaxUpdate(adv: seq<real>, mx: seq<real>, alpha: real)
      requires Valid() && |adv| == size && |mx| == size
      modifies this
      ensures Valid() && fresh(weights) && eligibility == old(eligibility)
      ensures Snapshot() == Corrected(old(Snapshot()), adv, mx, alpha)
    {
      var d := Minus(mx, adv);
      var newWeights := new real[size];
      var i := 0;
      while i < size
        modifies newWeights
        invariant 0 <= i <= size
        invariant forall k :: 0 <= k < i ==> newWeights[k] == CrossSum(d, alpha, k, size)
      {
        var acc := 0.0;
        var j := 0;
        while j < size
          modifies {}
          invariant 0 <= j <= size
          invariant acc == CrossSum(d, alpha, i, j)
        {
          if j != i {
            acc := acc + alpha * ((mx[j] - adv[j]) * (mx[i] - adv[i]));
          }
          j := j + 1;
        }
        newWeights[i] := acc;
        i := i + 1;
      }
      weights := newWeights;
      assert weights[..] == CrossWeights(d, alpha);
    }
  }
}
