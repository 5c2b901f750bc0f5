/** The SARSA(λ) learner of `SarsaPacMan.java` as values: its state as an `Agent` datatype and
    each of its operations as a function from the old state to the new one, with the facts the
    source relies on proved about those functions. */
module SarsaModel {
  import opened Vectors
  import opened Game
  import opened QFunctions
  import opened Shuffling

  const EPSILON: real := 0.05
  const ALPHA: real := 0.001
  const GAMMA: real := 0.999
  const LAMBDA: real := 0.9

  /** The length of the spread ring buffer. */
  const QDIFFS: nat := 100

  /** −Integer.MAX_VALUE: where the search for the best alternative starts. */
  const NO_ALTERNATIVE: real := -2147483647.0

  /** The random draws one agent takes in one step: the exploration draw `nextDouble`, the
      index `nextInt(|moves|)` picks when exploring, and the draws of the max-update shuffle. */
  datatype Draws = Draws(explore: real, pick: nat, roll: nat -> nat)

  /** The q-value of every feature vector under p. */
  function Values(p: Params, fs: seq<seq<real>>): (r: seq<real>)
    requires forall i :: 0 <= i < |fs| ==> |fs[i]| == |p.weights|
    ensures |r| == |fs|
  {
    seq(|fs|, i requires 0 <= i < |fs| => Estimate(p.weights, p.bias, fs[i]))
  }

  /** The acting index: in training, a draw below EPSILON takes the uniformly drawn index
      `pick` (the result of `nextInt(|qs|)`); otherwise the first best one. */
  function Choice(testMode: bool, explore: real, pick: nat, qs: seq<real>): (r: nat)
    requires pick < |qs|
    ensures r < |qs|
  {
    if !testMode && explore < EPSILON then pick else FirstMaxIndex(qs)
  }

  /** Acting greedily picks a move of the largest q-value, and in test mode the agent always
      acts greedily. */
  lemma ChoiceGreedy(testMode: bool, explore: real, pick: nat, qs: seq<real>)
    requires pick < |qs| && (testMode || explore >= EPSILON)
    ensures Choice(testMode, explore, pick, qs) == FirstMaxIndex(qs)
    ensures forall j :: 0 <= j < |qs| ==> qs[j] <= qs[Choice(testMode, explore, pick, qs)]
  {
    FirstMaxIndexIsFirstMax(qs);
  }

  /** The slot after i in the spread ring buffer. */
  function NextSlot(i: nat): (r: nat)
    requires i < QDIFFS
    ensures r < QDIFFS
  {
    if i + 1 > QDIFFS - 1 then 0 else i + 1
  }

  /** The ring index after k pushes from slot i. */
  function SlotAfter(i: nat, k: nat): (r: nat)
    requires i < QDIFFS
    ensures r < QDIFFS
  {
    if k == 0 then i else NextSlot(SlotAfter(i, k - 1))
  }

  /** The ring index advances by one modulo the buffer length: after k pushes it has moved k
      slots around the ring, so every slot is overwritten once per QDIFFS pushes. */
  lemma {:induction false} SlotAfterSteps(i: nat, k: nat)
    requires i < QDIFFS
    ensures SlotAfter(i, k) == (i + k) % QDIFFS
  {
    if k > 0 {
      SlotAfterSteps(i, k - 1);
      var j := (i + k - 1) % QDIFFS;
      var q := (i + k - 1) / QDIFFS;
      assert i + k - 1 == q * QDIFFS + j;
      if j + 1 == QDIFFS {
        assert i + k == (q + 1) * QDIFFS;
      } else {
        assert i + k == q * QDIFFS + (j + 1);
      }
    }
  }

  /** The q-value map filled move by move, a later move overwriting an earlier equal one. */
  function MoveMap(moves: seq<Move>, qs: seq<real>): map<Move, real>
    requires |moves| == |qs|
  {
    if |moves| == 0 then map[]
    else MoveMap(moves[..|moves| - 1], qs[..|qs| - 1])[moves[|moves| - 1] := qs[|qs| - 1]]
  }

  /** The map holds exactly the legal moves, each with the q-value at its last position. */
  lemma {:induction false} MoveMapLookup(moves: seq<Move>, qs: seq<real>)
    requires |moves| == |qs|
    ensures forall m :: m in MoveMap(moves, qs) <==> m in moves
    ensures forall m :: m in moves ==> MoveMap(moves, qs)[m] == qs[LastIndex(moves, m)]
  {
    if |moves| > 0 {
      var n := |moves| - 1;
      MoveMapLookup(moves[..n], qs[..n]);
      assert moves == moves[..n] + [moves[n]];
      forall m | m in moves
        ensures MoveMap(moves, qs)[m] == qs[LastIndex(moves, m)]
      {
        if m != moves[n] {
          assert m in moves[..n];
          assert LastIndex(moves, m) == LastIndex(moves[..n], m);
        }
      }
    }
  }

  /** `getFeatures(m)`: the features of the last position holding m. */
  function FeaturesOf(moves: seq<Move>, fs: seq<seq<real>>, m: Move): seq<real>
    requires |fs| == |moves| && m in moves
  {
    fs[LastIndex(moves, m)]
  }

  /** The features of every move other than `advised` among the first n, in move order. */
  function Others(moves: seq<Move>, fs: seq<seq<real>>, advised: Move, n: nat): (r: seq<seq<real>>)
    requires |fs| == |moves| && n <= |moves|
    ensures |r| <= n
  {
    if n == 0 then []
    else
      var own := if moves[n - 1] != advised then [FeaturesOf(moves, fs, moves[n - 1])] else [];
      Others(moves, fs, advised, n - 1) + own
  }

  /** With every feature vector of length size, so is every recorded alternative. */
  lemma {:induction false} OthersSized(moves: seq<Move>, fs: seq<seq<real>>, advised: Move, n: nat, size: nat)
    requires |fs| == |moves| && n <= |moves|
    requires forall i :: 0 <= i < |fs| ==> |fs[i]| == size
    ensures forall j :: 0 <= j < |Others(moves, fs, advised, n)| ==> |Others(moves, fs, advised, n)[j]| == size
  {
    if n > 0 {
      OthersSized(moves, fs, advised, n - 1, size);
    }
  }

  /** How often m occurs among the first n moves. */
  function Occurrences(moves: seq<Move>, m: Move, n: nat): nat
    requires n <= |moves|
  {
    if n == 0 then 0 else Occurrences(moves, m, n - 1) + (if moves[n - 1] == m then 1 else 0)
  }

  /** One alternative is recorded for every legal move that is not the advised one. */
  lemma {:induction false} OthersCount(moves: seq<Move>, fs: seq<seq<real>>, advised: Move, n: nat)
    requires |fs| == |moves| && n <= |moves|
    ensures |Others(moves, fs, advised, n)| + Occurrences(moves, advised, n) == n
  {
    if n > 0 {
      OthersCount(moves, fs, advised, n - 1);
    }
  }

  /** Without repeated moves the advised move occurs exactly once, so one fewer alternative
      than legal moves is recorded. */
  lemma {:induction false} OthersOfDistinct(moves: seq<Move>, fs: seq<seq<real>>, advised: Move)
    requires |fs| == |moves| && Distinct(moves) && advised in moves
    ensures |Others(moves, fs, advised, |moves|)| == |moves| - 1
  {
    var k :| 0 <= k < |moves| && moves[k] == advised;
    OccurrencesOfDistinct(moves, advised, k, |moves|);
    OthersCount(moves, fs, advised, |moves|);
  }

  lemma {:induction false} OccurrencesOfDistinct(moves: seq<Move>, m: Move, k: nat, n: nat)
    requires Distinct(moves) && k < |moves| && moves[k] == m && n <= |moves|
    ensures Occurrences(moves, m, n) == if k < n then 1 else 0
  {
    if n > 0 {
      OccurrencesOfDistinct(moves, m, k, n - 1);
    }
  }

  /** All recorded advised states and alternatives have the feature set's length. */
  ghost predicate SizedStates(m: map<seq<real>, seq<seq<real>>>, n: nat)
  {
    forall k :: k in m ==> |k| == n && forall j :: 0 <= j < |m[k]| ==> |m[k][j]| == n
  }

  /** Every feature vector has length n. */
  ghost predicate SizedAll(fs: seq<seq<real>>, n: nat)
  {
    forall i :: 0 <= i < |fs| ==> |fs[i]| == n
  }

  /** The record of advised states: sized, and listed once each in iteration order. */
  ghost predicate AdvisedRecord(states: map<seq<real>, seq<seq<real>>>, order: seq<seq<real>>, n: nat)
  {
    SizedStates(states, n) && Distinct(order) && (forall k :: k in order <==> k in states)
  }

  /** The scan over the first n alternatives: the first index whose value strictly exceeds all
      before it, starting from NO_ALTERNATIVE at index 0. */
  function BestAlternative(p: Params, others: seq<seq<real>>, n: nat): (r: (nat, real))
    requires n <= |others|
    requires forall j :: 0 <= j < |others| ==> |others[j]| == |p.weights|
  {
    if n == 0 then (0, NO_ALTERNATIVE)
    else
      var (i, v) := BestAlternative(p, others, n - 1);
      var c := Estimate(p.weights, p.bias, others[n - 1]);
      if c > v then (n - 1, c) else (i, v)
  }

  /** The scan finds the largest alternative value, and when that beats NO_ALTERNATIVE, the
      first alternative that reaches it. */
  lemma {:induction false} BestAlternativeIsFirstMax(p: Params, others: seq<seq<real>>, n: nat)
    requires n <= |others|
    requires forall j :: 0 <= j < |others| ==> |others[j]| == |p.weights|
    ensures var (i, v) := BestAlternative(p, others, n);
      NO_ALTERNATIVE <= v &&
      (forall j :: 0 <= j < n ==> Estimate(p.weights, p.bias, others[j]) <= v) &&
      (v == NO_ALTERNATIVE ==> i == 0) &&
      (v > NO_ALTERNATIVE ==>
         i < n && Estimate(p.weights, p.bias, others[i]) == v &&
         (forall j :: 0 <= j < i ==> Estimate(p.weights, p.bias, others[j]) < v))
  {
    if n > 0 {
      BestAlternativeIsFirstMax(p, others, n - 1);
    }
  }

  /** Where the max-update sweep ends: the parameters, the advised states still pending with
      their iteration order, and whether `others.get(0)` threw on an empty list of
      alternatives. */
  datatype SweepState = SweepState(p: Params, remaining: map<seq<real>, seq<seq<real>>>,
                                   order: seq<seq<real>>, thrown: bool)

  /** The list `keys` with k taken out. */
  function Without(keys: seq<seq<real>>, k: seq<real>): (r: seq<seq<real>>)
    ensures forall x :: x in r <==> x in keys && x != k
  {
    if |keys| == 0 then []
    else
      var rest := Without(keys[1..], k);
      assert forall x :: x in keys <==> x == keys[0] || x in keys[1..];
      if keys[0] == k then rest else [keys[0]] + rest
  }

  /** Taking a key out of a list without repeats leaves a list without repeats. */
  lemma {:induction false} WithoutKeepsDistinct(keys: seq<seq<real>>, k: seq<real>)
    requires Distinct(keys)
    ensures Distinct(Without(keys, k))
  {
    if |keys| > 0 {
      assert Distinct(keys[1..]);
      WithoutKeepsDistinct(keys[1..], k);
      assert keys[0] !in keys[1..];
    }
  }

  /** Removing a key keeps a record of advised states well formed. */
  lemma RemoveKeepsRecord(states: map<seq<real>, seq<seq<real>>>, order: seq<seq<real>>, k: seq<real>, n: nat)
    requires AdvisedRecord(states, order, n)
    ensures AdvisedRecord(states - {k}, Without(order, k), n)
  {
    WithoutKeepsDistinct(order, k);
  }

  /** One key of the agent's `maxUpdate`: the best alternative is found; if the advised value
      is below it the weights are corrected towards the advised action (or `others.get(0)`
      throws when there is no alternative), otherwise the key is dropped. */
  function SweepStep(p: Params, recorded: map<seq<real>, seq<seq<real>>>, k: seq<real>,
                     remaining: map<seq<real>, seq<seq<real>>>, order: seq<seq<real>>): (r: SweepState)
    requires Sized(p, |p.weights|) && SizedStates(recorded, |p.weights|) && k in recorded
    ensures Sized(r.p, |p.weights|)
  {
    var others := recorded[k];
    var (i, best) := BestAlternative(p, others, |others|);
    if Estimate(p.weights, p.bias, k) < best then
      if i < |others| then SweepState(Corrected(p, k, others[i], ALPHA), remaining, order, false)
      else SweepState(p, remaining, order, true)
    else SweepState(p, remaining - {k}, Without(order, k), false)
  }

  /** The agent's `maxUpdate` over the keys in the given order, stopping at the first throw. */
  function Sweep(p: Params, recorded: map<seq<real>, seq<seq<real>>>, keys: seq<seq<real>>,
                 remaining: map<seq<real>, seq<seq<real>>>, order: seq<seq<real>>): (r: SweepState)
    requires Sized(p, |p.weights|) && SizedStates(recorded, |p.weights|)
    requires forall j :: 0 <= j < |keys| ==> keys[j] in recorded
    ensures Sized(r.p, |p.weights|)
    decreases |keys|
  {
    if |keys| == 0 then SweepState(p, remaining, order, false)
    else
      var s := SweepStep(p, recorded, keys[0], remaining, order);
      if s.thrown then s else Sweep(s.p, recorded, keys[1..], s.remaining, s.order)
  }

  /** The sweep never adds a key: what remains is part of what was pending, with the same
      alternatives, keys the sweep does not visit stay pending, and a well-formed record stays
      well formed. */
  lemma {:induction false} SweepNeverAdds(p: Params, recorded: map<seq<real>, seq<seq<real>>>, keys: seq<seq<real>>,
                                          remaining: map<seq<real>, seq<seq<real>>>, order: seq<seq<real>>)
    requires Sized(p, |p.weights|) && SizedStates(recorded, |p.weights|)
    requires forall j :: 0 <= j < |keys| ==> keys[j] in recorded
    ensures var r := Sweep(p, recorded, keys, remaining, order);
      (forall k :: k in r.remaining ==> k in remaining && r.remaining[k] == remaining[k]) &&
      (forall k :: k in remaining && k !in keys ==> k in r.remaining) &&
      (AdvisedRecord(remaining, order, |p.weights|) ==> AdvisedRecord(r.remaining, r.order, |p.weights|))
    decreases |keys|
  {
    if |keys| > 0 {
      var k := keys[0];
      var s := SweepStep(p, recorded, k, remaining, order);
      SweepStepNeverAdds(p, recorded, k, remaining, order);
      assert forall x :: x in keys[1..] ==> x in keys;
      if !s.thrown {
        SweepNeverAdds(s.p, recorded, keys[1..], s.remaining, s.order);
      }
    }
  }

  /** One step of the sweep keeps or drops the key it visits and nothing else. */
  lemma SweepStepNeverAdds(p: Params, recorded: map<seq<real>, seq<seq<real>>>, k: seq<real>,
                           remaining: map<seq<real>, seq<seq<real>>>, order: seq<seq<real>>)
    requires Sized(p, |p.weights|) && SizedStates(recorded, |p.weights|) && k in recorded
    ensures var s := SweepStep(p, recorded, k, remaining, order);
      (s.remaining == remaining && s.order == order) ||
      (s.remaining == remaining - {k} && s.order == Without(order, k))
    ensures var s := SweepStep(p, recorded, k, remaining, order);
      AdvisedRecord(remaining, order, |p.weights|) ==> AdvisedRecord(s.remaining, s.order, |p.weights|)
  {
    if AdvisedRecord(remaining, order, |p.weights|) {
      RemoveKeepsRecord(remaining, order, k, |p.weights|);
    }
  }

  /** Once every advised action's value is at least that of each of its alternatives (and
      above NO_ALTERNATIVE), a sweep changes no weight and drops every visited key. */
  lemma {:induction false} SweepSettled(p: Params, recorded: map<seq<real>, seq<seq<real>>>, keys: seq<seq<real>>,
                                        remaining: map<seq<real>, seq<seq<real>>>, order: seq<seq<real>>)
    requires Sized(p, |p.weights|) && SizedStates(recorded, |p.weights|)
    requires forall j :: 0 <= j < |keys| ==> keys[j] in recorded
    requires forall j :: 0 <= j < |keys| ==> NO_ALTERNATIVE <= Estimate(p.weights, p.bias, keys[j])
    requires forall j, a :: 0 <= j < |keys| && 0 <= a < |recorded[keys[j]]| ==>
      Estimate(p.weights, p.bias, recorded[keys[j]][a]) <= Estimate(p.weights, p.bias, keys[j])
    ensures var r := Sweep(p, recorded, keys, remaining, order);
      r.p == p && !r.thrown && r.remaining == remaining - (set k | k in keys)
    decreases |keys|
  {
    if |keys| == 0 {
      assert remaining - (set k | k in keys) == remaining;
    } else {
      var k := keys[0];
      var others := recorded[k];
      BestAlternativeIsFirstMax(p, others, |others|);
      assert forall a :: 0 <= a < |others| ==> Estimate(p.weights, p.bias, others[a]) <= Estimate(p.weights, p.bias, k);
      SweepSettled(p, recorded, keys[1..], remaining - {k}, Without(order, k));
      assert (remaining - {k}) - (set x | x in keys[1..]) == remaining - (set x | x in keys);
    }
  }

  /** Every key of a shuffled key list is recorded. */
  lemma ShuffledKeysRecorded(order: seq<seq<real>>, recorded: map<seq<real>, seq<seq<real>>>, roll: nat -> nat)
    requires forall k :: k in order ==> k in recorded
    ensures forall j :: 0 <= j < |Shuffled(order, roll)| ==> Shuffled(order, roll)[j] in recorded
  {
    var keys := Shuffled(order, roll);
    forall j | 0 <= j < |keys|
      ensures keys[j] in recorded
    {
      assert keys[j] in multiset(keys);
    }
  }

  /** The agent's `maxUpdate` as a whole: the advised keys in the order `roll` shuffles them
      into, then the sweep over them. */
  function MaxUpdated(p: Params, recorded: map<seq<real>, seq<seq<real>>>, order: seq<seq<real>>,
                      roll: nat -> nat): (r: SweepState)
    requires Sized(p, |p.weights|) && AdvisedRecord(recorded, order, |p.weights|)
    ensures Sized(r.p, |p.weights|)
  {
    ShuffledKeysRecorded(order, recorded, roll);
    Sweep(p, recorded, Shuffled(order, roll), recorded, order)
  }

  /** Everything a `SarsaPacMan` holds: the Q-function's parameters, the current decision
      point (moves, their q-values and map, their features), the score, the best and the acting
      index, the mode, the delayed update, the spread ring buffer and the advised states with
      the iteration order of their keys. */
  datatype Agent = Agent(
    p: Params,
    actions: seq<Move>,
    qvalues: seq<real>,
    qvaluesMap: map<Move, real>,
    features: seq<seq<real>>,
    lastScore: int,
    bestActionIndex: int,
    lastActionIndex: int,
    testMode: bool,
    doUpdate: bool,
    delta1: real,
    delta2: real,
    qdiffs: seq<real>,
    qdiffsIndex: nat,
    advised: map<seq<real>, seq<seq<real>>>,
    order: seq<seq<real>>)

  /** The shape every agent keeps: one feature length throughout, one q-value and one feature
      vector per move, a full ring buffer with its index inside it, a well-formed record of
      advised states, and no pending update in test mode. */
  ghost predicate Inv(a: Agent)
  {
    var n := |a.p.weights|;
    Sized(a.p, n) && |a.qvalues| == |a.actions| && |a.features| == |a.actions| && SizedAll(a.features, n) &&
    |a.qdiffs| == QDIFFS && a.qdiffsIndex < QDIFFS &&
    AdvisedRecord(a.advised, a.order, n) &&
    (a.testMode ==> !a.doUpdate)
  }

  /** The acting index points at a legal move. */
  predicate Ready(a: Agent)
  {
    0 <= a.lastActionIndex < |a.actions|
  }

  /** A new agent over feature vectors of length n. */
  function Initialized(n: nat): Agent
  {
    Agent(Initial(n), [], [], map[], [], 0, 0, 0, false, false, 0.0, 0.0, Zeros(QDIFFS), 0, map[], [])
  }

  /** `evaluateMoves`: the moves and their features, a q-value per move, the first best and
      first worst index, their difference pushed into the ring buffer, and the acting index. */
  function Evaluate(a: Agent, o: Observation, explore: real, pick: nat): Agent
    requires Inv(a) && WellFormed(o, |a.p.weights|) && pick < |o.moves|
  {
    var qs := Values(a.p, o.features);
    var best := FirstMaxIndex(qs);
    var worst := FirstMinIndex(qs);
    a.(actions := o.moves, features := o.features, qvalues := qs, qvaluesMap := MoveMap(o.moves, qs),
       bestActionIndex := best, lastActionIndex := Choice(a.testMode, explore, pick, qs),
       qdiffs := a.qdiffs[a.qdiffsIndex := qs[best] - qs[worst]], qdiffsIndex := NextSlot(a.qdiffsIndex))
  }

  /** `evaluateMoves` spelled out from the values it computes. */
  lemma EvaluateFrom(a: Agent, o: Observation, explore: real, pick: nat, qs: seq<real>, qmap: map<Move, real>,
                     best: nat, worst: nat)
    requires Inv(a) && WellFormed(o, |a.p.weights|) && pick < |o.moves|
    requires qs == Values(a.p, o.features) && qmap == MoveMap(o.moves, qs)
    requires best == FirstMaxIndex(qs) && worst == FirstMinIndex(qs)
    ensures Evaluate(a, o, explore, pick) ==
      a.(actions := o.moves, features := o.features, qvalues := qs, qvaluesMap := qmap,
         bestActionIndex := best, lastActionIndex := Choice(a.testMode, explore, pick, qs),
         qdiffs := a.qdiffs[a.qdiffsIndex := qs[best] - qs[worst]], qdiffsIndex := NextSlot(a.qdiffsIndex))
  {
  }

  /** `startEpisode`: the mode is set, the score, traces, delayed update and advised states are
      reset, and the first decision point is evaluated. */
  function Started(a: Agent, testMode: bool, o: Observation, explore: real, pick: nat): Agent
    requires Inv(a) && WellFormed(o, |a.p.weights|) && pick < |o.moves|
  {
    ResetInv(a, testMode);
    Evaluate(Reset(a, testMode), o, explore, pick)
  }

  /** The resets at the head of `startEpisode`. */
  function Reset(a: Agent, testMode: bool): Agent
  {
    a.(testMode := testMode, lastScore := 0, p := Cleared(a.p), doUpdate := false,
       delta1 := 0.0, delta2 := 0.0, advised := map[], order := [])
  }

  lemma ResetInv(a: Agent, testMode: bool)
    requires Inv(a)
    ensures Inv(Reset(a, testMode))
  {
  }

  /** `setMove`: the acting index becomes the last position of m, or −1. */
  function WithMove(a: Agent, m: Move): Agent
  {
    a.(lastActionIndex := LastIndex(a.actions, m))
  }

  /** The first part of `processStep`: the pending update with δ1 + γ·Q(taken), then decay of
      every trace by γλ and accumulation of the taken action's features, then the reward and the
      new TD error, both against the q-values of the decision point just left. */
  function Traced(a: Agent, score: int): Agent
    requires Inv(a) && Ready(a)
  {
    var taken := a.qvalues[a.lastActionIndex];
    var delta2 := if a.doUpdate then GAMMA * taken else a.delta2;
    var p1 := if a.doUpdate then TraceStep(a.p, ALPHA * (a.delta1 + delta2)) else a.p;
    a.(p := Accumulated(Decayed(p1, GAMMA * LAMBDA), a.features[a.lastActionIndex]), delta2 := delta2,
       lastScore := score, delta1 := (score - a.lastScore) as real - taken)
  }

  /** The first part of `processStep` spelled out from the parameters after the pending
      update; the result keeps the invariant. */
  lemma TracedFrom(a: Agent, score: int, p1: Params, delta2: real)
    requires Inv(a) && Ready(a)
    requires delta2 == if a.doUpdate then GAMMA * a.qvalues[a.lastActionIndex] else a.delta2
    requires p1 == if a.doUpdate then TraceStep(a.p, ALPHA * (a.delta1 + delta2)) else a.p
    ensures Traced(a, score) ==
      a.(p := Accumulated(Decayed(p1, GAMMA * LAMBDA), a.features[a.lastActionIndex]), delta2 := delta2,
         lastScore := score, delta1 := (score - a.lastScore) as real - a.qvalues[a.lastActionIndex])
    ensures Inv(Traced(a, score)) && Ready(Traced(a, score))
  {
    TracedInv(a, score);
  }

  /** The agent's `maxUpdate`: the sweep's parameters and remaining advised states, and
      whether it threw. */
  function Swept(a: Agent, roll: nat -> nat): (Agent, bool)
    requires Inv(a)
  {
    var r := MaxUpdated(a.p, a.advised, a.order, roll);
    (a.(p := r.p, advised := r.remaining, order := r.order), r.thrown)
  }

  /** The game-over update in training: a trace update with the final TD error, then the
      max-update sweep. */
  function Terminated(a: Agent, roll: nat -> nat): (Agent, bool)
    requires Inv(a)
  {
    Swept(a.(p := TraceStep(a.p, ALPHA * a.delta1)), roll)
  }

  /** `processStep` as a whole, with whether the sweep threw. */
  function Processed(a: Agent, o: Observation, explore: real, pick: nat, roll: nat -> nat): (Agent, bool)
    requires Inv(a) && Ready(a) && WellFormed(o, |a.p.weights|) && (!o.over ==> pick < |o.moves|)
  {
    TracedInv(a, o.score);
    var b := Traced(a, o.score);
    var c := if o.over then b else Evaluate(b, o, explore, pick);
    if c.testMode then (c, false)
    else if o.over then Terminated(c, roll)
    else (c.(doUpdate := true), false)
  }

  /** `recordAdvisedState(m)`: unless the features of m are already a key, they are mapped to
      the features of every other legal move, in move order, and join the key order. */
  function Recorded(a: Agent, m: Move): Agent
    requires Inv(a) && m in a.actions
  {
    var key := FeaturesOf(a.actions, a.features, m);
    if key in a.advised then a
    else a.(advised := a.advised[key := Others(a.actions, a.features, m, |a.actions|)], order := a.order + [key])
  }

  /** `recordAdvisedState` spelled out, with the invariant it keeps. */
  lemma RecordedFrom(a: Agent, m: Move)
    requires Inv(a) && m in a.actions
    ensures var key := FeaturesOf(a.actions, a.features, m);
      Recorded(a, m) == if key in a.advised then a
        else a.(advised := a.advised[key := Others(a.actions, a.features, m, |a.actions|)], order := a.order + [key])
    ensures Inv(Recorded(a, m))
  {
    RecordedFacts(a, m);
  }

  /** `getNthQvalue` leaves the ring buffer sorted in place. */
  function SortedBuffer(a: Agent): Agent
  {
    a.(qdiffs := SortSpec(a.qdiffs))
  }

  /** `loadPolicy`: a new Q-function read from a weight file's lines. */
  function Loaded(a: Agent, lines: seq<real>): Agent
    requires |lines| > |a.p.weights|
  {
    a.(p := Load(lines, |a.p.weights|))
  }

  // Facts about the operations.

  /** A new agent has an all-zero Q-function and spread buffer and nothing advised. */
  lemma InitializedInv(n: nat)
    ensures Inv(Initialized(n)) && |Initialized(n).p.weights| == n
  {
  }

  /** `evaluateMoves` keeps the invariant and readies the agent; the best index is the first of
      the largest q-value, the spread it records is never negative, the other slots of the
      buffer are untouched, and in test mode the agent acts on the best move. Nothing learned
      or advised changes. */
  lemma EvaluateFacts(a: Agent, o: Observation, explore: real, pick: nat)
    requires Inv(a) && WellFormed(o, |a.p.weights|) && pick < |o.moves|
    ensures var r := Evaluate(a, o, explore, pick);
      Inv(r) && Ready(r) && r.p == a.p && r.advised == a.advised && r.order == a.order &&
      r.qvalues == Values(a.p, o.features) &&
      0 <= r.bestActionIndex < |r.qvalues| &&
      (forall j :: 0 <= j < |r.qvalues| ==> r.qvalues[j] <= r.qvalues[r.bestActionIndex]) &&
      (forall j :: 0 <= j < r.bestActionIndex ==> r.qvalues[j] < r.qvalues[r.bestActionIndex]) &&
      r.qdiffs[a.qdiffsIndex] == Spread(r.qvalues) >= 0.0 &&
      (forall j :: 0 <= j < QDIFFS && j != a.qdiffsIndex ==> r.qdiffs[j] == a.qdiffs[j]) &&
      (a.testMode ==> r.lastActionIndex == r.bestActionIndex)
  {
    var qs := Values(a.p, o.features);
    FirstMaxIndexIsFirstMax(qs);
    SpreadByIndices(qs);
  }

  /** `startEpisode` resets the score, the traces, the delayed update and the advised states,
      keeps the weights and bias, and leaves a ready agent. */
  lemma StartedResets(a: Agent, testMode: bool, o: Observation, explore: real, pick: nat)
    requires Inv(a) && WellFormed(o, |a.p.weights|) && pick < |o.moves|
    ensures var r := Started(a, testMode, o, explore, pick);
      Inv(r) && Ready(r) && r.testMode == testMode && r.lastScore == 0 &&
      r.p.traces == Zeros(|a.p.weights|) && r.p.tbias == 0.0 &&
      r.p.weights == a.p.weights && r.p.bias == a.p.bias &&
      !r.doUpdate && r.delta1 == 0.0 && r.delta2 == 0.0 && r.advised == map[] && r.order == []
  {
    ResetInv(a, testMode);
    EvaluateFacts(Reset(a, testMode), o, explore, pick);
  }

  /** `setMove(m)` readies the agent exactly when m is legal, and then acts on m. */
  lemma WithMoveFacts(a: Agent, m: Move)
    requires Inv(a)
    ensures var r := WithMove(a, m);
      Inv(r) && (Ready(r) <==> m in a.actions) && (Ready(r) ==> r.actions[r.lastActionIndex] == m) &&
      (Ready(r) ==> forall j :: r.lastActionIndex < j < |r.actions| ==> r.actions[j] != m)
  {
  }

  /** The trace part of `processStep` keeps the invariant, touches no advised state, and with
      no update pending leaves weights and bias alone. */
  lemma TracedInv(a: Agent, score: int)
    requires Inv(a) && Ready(a)
    ensures var r := Traced(a, score);
      Inv(r) && Ready(r) && r.advised == a.advised && r.order == a.order &&
      (!a.doUpdate ==> r.p.weights == a.p.weights && r.p.bias == a.p.bias)
  {
  }

  /** The max-update sweep keeps the invariant and never adds an advised state. */
  lemma SweptFacts(a: Agent, roll: nat -> nat)
    requires Inv(a)
    ensures var (r, _) := Swept(a, roll);
      Inv(r) && (Ready(a) ==> Ready(r)) && r.testMode == a.testMode &&
      forall k :: k in r.advised ==> k in a.advised && r.advised[k] == a.advised[k]
  {
    ShuffledKeysRecorded(a.order, a.advised, roll);
    SweepNeverAdds(a.p, a.advised, Shuffled(a.order, roll), a.advised, a.order);
  }

  /** What a `processStep` from a to r promises: the invariant holds and the agent is ready
      again, the mode is kept, test mode never changes the weights or the bias and never
      throws, advised states change only at the end of a game in training and are never added
      by the step, and a training step that does not end the game leaves an update pending. */
  ghost predicate Stepped(a: Agent, over: bool, r: Agent, thrown: bool)
  {
    Inv(r) && Ready(r) && r.testMode == a.testMode &&
    (a.testMode ==> r.p.weights == a.p.weights && r.p.bias == a.p.bias && !thrown) &&
    (!over || a.testMode ==> r.advised == a.advised && r.order == a.order) &&
    (!over && !a.testMode ==> r.doUpdate) &&
    (forall k :: k in r.advised ==> k in a.advised)
  }

  lemma PlayingStep(a: Agent, o: Observation, explore: real, pick: nat, roll: nat -> nat)
    requires Inv(a) && Ready(a) && WellFormed(o, |a.p.weights|) && !o.over && pick < |o.moves|
    ensures Stepped(a, o.over, Processed(a, o, explore, pick, roll).0, Processed(a, o, explore, pick, roll).1)
  {
    TracedInv(a, o.score);
    var b := Traced(a, o.score);
    EvaluateFacts(b, o, explore, pick);
    var c := Evaluate(b, o, explore, pick);
    assert Processed(a, o, explore, pick, roll) == if c.testMode then (c, false) else (c.(doUpdate := true), false);
  }

  lemma FinalTestStep(a: Agent, o: Observation, explore: real, pick: nat, roll: nat -> nat)
    requires Inv(a) && Ready(a) && WellFormed(o, |a.p.weights|) && o.over && a.testMode
    ensures Stepped(a, o.over, Processed(a, o, explore, pick, roll).0, Processed(a, o, explore, pick, roll).1)
  {
    TracedInv(a, o.score);
    assert Processed(a, o, explore, pick, roll) == (Traced(a, o.score), false);
  }

  lemma FinalTrainingStep(a: Agent, o: Observation, explore: real, pick: nat, roll: nat -> nat)
    requires Inv(a) && Ready(a) && WellFormed(o, |a.p.weights|) && o.over && !a.testMode
    ensures Stepped(a, o.over, Processed(a, o, explore, pick, roll).0, Processed(a, o, explore, pick, roll).1)
  {
    TracedInv(a, o.score);
    var b := Traced(a, o.score);
    var c := b.(p := TraceStep(b.p, ALPHA * b.delta1));
    assert Inv(c);
    SweptFacts(c, roll);
    var res := Swept(c, roll);
    assert Stepped(a, true, res.0, res.1);
    assert Processed(a, o, explore, pick, roll) == res;
  }

  /** Every `processStep` keeps the promises of `Stepped`. */
  lemma ProcessedFacts(a: Agent, o: Observation, explore: real, pick: nat, roll: nat -> nat)
    requires Inv(a) && Ready(a) && WellFormed(o, |a.p.weights|) && (!o.over ==> pick < |o.moves|)
    ensures Stepped(a, o.over, Processed(a, o, explore, pick, roll).0, Processed(a, o, explore, pick, roll).1)
  {
    if o.over && a.testMode {
      FinalTestStep(a, o, explore, pick, roll);
    } else if o.over {
      FinalTrainingStep(a, o, explore, pick, roll);
    } else {
      PlayingStep(a, o, explore, pick, roll);
    }
  }

  /** After a step the agent holds the moves and features of the new decision point, or, at
      the end of the game, still those of the last one. */
  lemma ProcessedMoves(a: Agent, o: Observation, explore: real, pick: nat, roll: nat -> nat)
    requires Inv(a) && Ready(a) && WellFormed(o, |a.p.weights|) && (!o.over ==> pick < |o.moves|)
    ensures var r := Processed(a, o, explore, pick, roll).0;
      r.actions == (if o.over then a.actions else o.moves) &&
      r.features == (if o.over then a.features else o.features)
  {
    TracedInv(a, o.score);
  }

  /** `recordAdvisedState` keeps the invariant; an advised state already present is left as it
      is, and a new one gets one alternative per other legal move. Recording twice is
      recording once. */
  lemma RecordedFacts(a: Agent, m: Move)
    requires Inv(a) && m in a.actions
    ensures var r := Recorded(a, m);
      var key := FeaturesOf(a.actions, a.features, m);
      Inv(r) && key in r.advised &&
      (key in a.advised ==> r == a) &&
      (key !in a.advised ==> r.advised[key] == Others(a.actions, a.features, m, |a.actions|) &&
                             |r.advised[key]| + Occurrences(a.actions, m, |a.actions|) == |a.actions|) &&
      Recorded(r, m) == r
  {
    var key := FeaturesOf(a.actions, a.features, m);
    OthersSized(a.actions, a.features, m, |a.actions|, |a.p.weights|);
    OthersCount(a.actions, a.features, m, |a.actions|);
    if key !in a.advised {
      assert Distinct(a.order + [key]);
    }
  }

  /** `getNthQvalue` sorts the buffer into a permutation of itself: the invariant holds, the
      mean spread is unchanged, and nothing but the buffer's order changes. */
  lemma SortedBufferFacts(a: Agent)
    requires Inv(a)
    ensures var r := SortedBuffer(a);
      Inv(r) && Sorted(r.qdiffs) && multiset(r.qdiffs) == multiset(a.qdiffs) &&
      Sum(r.qdiffs) == Sum(a.qdiffs) && r.(qdiffs := a.qdiffs) == a
  {
    SortSpecSorted(a.qdiffs);
    SumPermutation(SortSpec(a.qdiffs), a.qdiffs);
  }
}
