/** The teaching strategies that decide, once the student has chosen a move and the teacher
    has named its own, whether the teacher's move is given as advice. Each holds a budget
    `left` that starts at `Experiments.BUDGET` and drops by one exactly when advice is given;
    `inUse` reports whether any is left. `giveAdvice` itself never looks at the budget: callers
    guard it with `inUse`. */
module Teaching {
  import opened Vectors
  import opened Game
  import opened SarsaModel
  import opened Sarsa

  /** `Experiments.BUDGET`. */
  const BUDGET: int := 1000

  /** The strategies and their parameters:
      `StudentPercentileUncertaintyAndMistakeAdvice(c)` advises on a mistake in a state whose
      spread is below the (c+1)-th smallest buffered spread of the evaluator;
      `CorrectMistakesRandomly(t)` advises on a mistake with probability t/100;
      `StudentUncertaintyAdvice(t)` advises whenever the evaluator's spread exceeds t. */
  datatype Teaching =
    | PercentileMistakes(cutoff: int)
    | CorrectMistakesRandomly(correctProb: real)
    | StudentUncertainty(threshold: int)

  /** The percentile strategy reads `qdiffs[cutoff]`; any other cutoff throws. */
  predicate Usable(t: Teaching)
  {
    t.PercentileMistakes? ==> 0 <= t.cutoff < QDIFFS
  }

  /** The outcome of one `giveAdvice` call. */
  datatype Decision = Decision(advise: bool, evaluator: Agent)

  /** `giveAdvice(evaluator, choice, advice)` with the random draw `draw` taken by
      `CorrectMistakesRandomly`: whether advice is given, and the evaluator afterwards (the
      percentile strategy sorts the evaluator's spread buffer in place to read its percentile). */
  function Decide(t: Teaching, e: Agent, choice: Move, advice: Move, draw: real): (r: Decision)
    requires Inv(e) && |e.qvalues| > 0 && Usable(t)
    ensures Inv(r.evaluator)
  {
    match t
    case PercentileMistakes(c) =>
      SortedBufferFacts(e);
      var sorted := SortedBuffer(e);
      Decision(Spread(e.qvalues) < sorted.qdiffs[c] && choice != advice, sorted)
    case CorrectMistakesRandomly(prob) =>
      Decision(draw < prob && choice != advice, e)
    case StudentUncertainty(threshold) =>
      Decision(Spread(e.qvalues) > threshold as real, e)
  }

  // Facts about the decisions.

  /** Only the percentile strategy changes the evaluator, and then only the order of its spread
      buffer: the entries, their sum and everything else stay. */
  lemma DecideKeepsEvaluator(t: Teaching, e: Agent, choice: Move, advice: Move, draw: real)
    requires Inv(e) && |e.qvalues| > 0 && Usable(t)
    ensures var r := Decide(t, e, choice, advice, draw).evaluator;
      Inv(r) && r.(qdiffs := e.qdiffs) == e && multiset(r.qdiffs) == multiset(e.qdiffs) &&
      Sum(r.qdiffs) == Sum(e.qdiffs) &&
      (t.PercentileMistakes? ==> Sorted(r.qdiffs)) && (!t.PercentileMistakes? ==> r == e)
  {
    SortedBufferFacts(e);
  }

  /** The percentile strategy advises exactly on a mistake in a state whose spread is below the
      value x at position `cutoff` of the sorted buffer: x is one of the buffered spreads, the
      `cutoff` positions before it hold values no larger, and those after it no smaller. */
  lemma PercentileDecision(c: int, e: Agent, choice: Move, advice: Move, draw: real)
    requires Inv(e) && |e.qvalues| > 0 && 0 <= c < QDIFFS
    ensures var d := Decide(PercentileMistakes(c), e, choice, advice, draw);
      var x := d.evaluator.qdiffs[c];
      (d.advise <==> choice != advice && Spread(e.qvalues) < x) &&
      x in multiset(e.qdiffs) &&
      (forall i :: 0 <= i < c ==> d.evaluator.qdiffs[i] <= x) &&
      (forall i :: c < i < QDIFFS ==> x <= d.evaluator.qdiffs[i])
  {
    SortedBufferFacts(e);
    var s := SortedBuffer(e).qdiffs;
    assert s[c] in multiset(s);
  }

  /** Neither mistake-correcting strategy advises when the student already chose the teacher's
      move. */
  lemma NoAdviceWithoutMistake(t: Teaching, e: Agent, m: Move, draw: real)
    requires Inv(e) && |e.qvalues| > 0 && Usable(t) && !t.StudentUncertainty?
    ensures !Decide(t, e, m, m, draw).advise
  {
  }

  /** `CorrectMistakesRandomly(t)` advises on a mistake exactly when the draw in [0, 1) falls
      below t/100: never for t = 0, always for t = 100. */
  lemma RandomDecision(t: int, e: Agent, choice: Move, advice: Move, draw: real)
    requires Inv(e) && |e.qvalues| > 0 && 0.0 <= draw < 1.0
    ensures var d := Decide(CorrectMistakesRandomly(t as real / 100.0), e, choice, advice, draw);
      (d.advise <==> choice != advice && draw < t as real / 100.0) &&
      (t <= 0 ==> !d.advise) && (t >= 100 ==> (d.advise <==> choice != advice))
  {
  }

  /** `StudentUncertaintyAdvice` ignores the two moves and the draw, and advises exactly when
      some two of the evaluator's q-values are more than `threshold` apart. */
  lemma UncertaintyDecision(t: int, e: Agent, c1: Move, a1: Move, d1: real, c2: Move, a2: Move, d2: real)
    requires Inv(e) && |e.qvalues| > 0
    ensures Decide(StudentUncertainty(t), e, c1, a1, d1) == Decide(StudentUncertainty(t), e, c2, a2, d2)
    ensures Decide(StudentUncertainty(t), e, c1, a1, d1).advise <==>
      exists i, j :: 0 <= i < |e.qvalues| && 0 <= j < |e.qvalues| && e.qvalues[i] - e.qvalues[j] > t as real
  {
    SpreadAbove(e.qvalues, t as real);
  }

  /** One of the three strategies with its budget. `given` counts the advice handed out so far:
      `left` is always the budget minus that count. */
  class Strategy {
    const teaching: Teaching
    var left: int
    ghost var given: nat

    ghost predicate Valid()
      reads this
    {
      left == BUDGET - given
    }

    /** `new StudentPercentileUncertaintyAndMistakeAdvice(c)`. */
    constructor PercentileMistakes(c: int)
      ensures Valid() && teaching == Teaching.PercentileMistakes(c) && left == BUDGET && given == 0
    {
      teaching := Teaching.PercentileMistakes(c);
      left := BUDGET;
      given := 0;
    }

    /** `new CorrectMistakesRandomly(t)`: the probability is t/100. */
    constructor CorrectMistakesRandomly(t: int)
      ensures Valid() && teaching == Teaching.CorrectMistakesRandomly(t as real / 100.0) && left == BUDGET && given == 0
    {
      teaching := Teaching.CorrectMistakesRandomly(t as real / 100.0);
      left := BUDGET;
      given := 0;
    }

    /** `new StudentUncertaintyAdvice(t)`. */
    constructor StudentUncertainty(t: int)
      ensures Valid() && teaching == Teaching.StudentUncertainty(t) && left == BUDGET && given == 0
    {
      teaching := Teaching.StudentUncertainty(t);
      left := BUDGET;
      given := 0;
    }

    /** `inUse`: until none is left. */
    predicate InUse()
      reads this
    {
      left > 0
    }

    /** `giveAdvice`: decide on the evaluator's current q-values and, on advice, spend one unit
        of budget. `draw` is the `nextDouble` that `CorrectMistakesRandomly` takes. */
    method GiveAdvice(evaluator: SarsaPacMan, choice: Move, advice: Move, draw: real) returns (r: bool)
      requires Valid() && Usable(teaching) && evaluator.Valid() && evaluator.qvalues.Length > 0
      modifies this`left, this`given, evaluator.qdiffs
      ensures Valid() && evaluator.Valid()
      ensures Decision(r, evaluator.State()) == Decide(teaching, old(evaluator.State()), choice, advice, draw)
      ensures left == old(left) - (if r then 1 else 0) && given == old(given) + (if r then 1 else 0)
    {
      r := Assess(evaluator, choice, advice, draw);
      if r {
        left := left - 1;
        given := given + 1;
      }
    }

    /** The strategy's test on the evaluator's current q-values. */
    method Assess(evaluator: SarsaPacMan, choice: Move, advice: Move, draw: real) returns (r: bool)
      requires Usable(teaching) && evaluator.Valid() && evaluator.qvalues.Length > 0
      modifies evaluator.qdiffs
      ensures evaluator.Valid()
      ensures Decision(r, evaluator.State()) == Decide(teaching, old(evaluator.State()), choice, advice, draw)
    {
      var qvalues := evaluator.GetQValues();
      var gap := Max(qvalues[..]) - Min(qvalues[..]);
      match teaching {
        case PercentileMistakes(c) =>
          var nth := evaluator.GetNthQvalue(c);
          r := gap < nth && choice != advice;
        case CorrectMistakesRandomly(prob) =>
          r := draw < prob && choice != advice;
        case StudentUncertainty(threshold) =>
          r := gap > threshold as real;
      }
    }
  }
}
