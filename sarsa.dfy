/** The SARSA(λ) learner of `SarsaPacMan.java` as the class it is: a linear Q-function with
    eligibility traces, a one-step delayed update that leaves room for advice, a 100-slot ring
    buffer of q-value spreads and the record of advised states used by the max-update
    correction. Every method is proved against the transition of `SarsaModel` it performs. */
module Sarsa {
  import opened Vectors
  import opened Game
  import opened QFunctions
  import opened Shuffling
  import opened SarsaModel

  /** The scan of `evaluateMoves` for the best and the worst action: the first index holding
      the largest and the first holding the smallest value. */
  method Extremes(a: seq<real>) returns (best: nat, worst: nat)
    requires |a| > 0
    ensures best == FirstMaxIndex(a) && worst == FirstMinIndex(a)
  {
    best, worst := 0, 0;
    var i := 0;
    while i < |a|
      invariant 0 <= i <= |a|
      invariant best == if i == 0 then 0 else FirstMaxIndex(a[..i])
      invariant worst == if i == 0 then 0 else FirstMinIndex(a[..i])
    {
      assert a[..i + 1][..i] == a[..i];
      if a[i] > a[best] {
        best := i;
      }
      if a[i] < a[worst] {
        worst := i;
      }
      i := i + 1;
    }
    assert a[..i] == a;
  }

  /** The agent's `HashMap` from the features of each advised state to the features of the
      other legal moves there. `order` is the iteration order of its key set. */
  class AdvisedStates {
    /** The feature set's length. */
    const size: nat
    var entries: map<seq<real>, seq<seq<real>>>
    var order: seq<seq<real>>

    ghost predicate Valid()
      reads this
    {
      AdvisedRecord(entries, order, size)
    }

    /** An empty map. */
    constructor (n: nat)
      ensures Valid() && size == n && entries == map[] && order == []
    {
      size := n;
      entries := map[];
      order := [];
    }

    /** `put`: a new key joins the iteration order at its end; a present key keeps its place. */
    method Put(k: seq<real>, v: seq<seq<real>>)
      requires Valid() && |k| == size && SizedAll(v, size)
      modifies this
      ensures Valid()
      ensures entries == old(entries)[k := v]
      ensures order == if k in old(entries) then old(order) else old(order) + [k]
    {
      if k !in entries {
        assert Distinct(order + [k]);
        order := order + [k];
      }
      entries := entries[k := v];
    }

    /** `remove`: k leaves both the map and the iteration order. */
    method Remove(k: seq<real>)
      requires Valid()
      modifies this
      ensures Valid()
      ensures entries == old(entries) - {k} && order == Without(old(order), k)
    {
      RemoveKeepsRecord(entries, order, k, size);
      entries := entries - {k};
      order := Without(order, k);
    }

    /** `new ArrayList(keySet())`: the keys in iteration order, in a new list. */
    method KeyList() returns (list: array<seq<real>>)
      requires Valid()
      ensures fresh(list) && list[..] == order
      ensures forall j :: 0 <= j < list.Length ==> list[j] in entries
    {
      list := new seq<real>[|order|](i requires 0 <= i < |order| reads this => order[i]);
      assert list[..] == order;
    }
  }

  class SarsaPacMan {
    /** prototype.size(). */
    const size: nat
    var q: QFunction
    var actions: seq<Move>
    var qvalues: array<real>
    var qvaluesMap: map<Move, real>
    var features: seq<seq<real>>
    var lastScore: int
    var bestActionIndex: int
    var lastActionIndex: int
    var testMode: bool
    var doUpdate: bool
    var delta1: real
    var delta2: real
    var qdiffs: array<real>
    var qdiffsIndex: nat
    var advisedStates: AdvisedStates

    /** The objects the agent owns. */
    ghost function Repr(): set<object>
      reads this, q
    {
      {this, q, q.weights, q.eligibility, qdiffs, qvalues, advisedStates}
    }

    /** The agent's whole state as a value. */
    ghost function State(): Agent
      reads this, q, q.weights, q.eligibility, qvalues, qdiffs, advisedStates
    {
      Agent(q.Snapshot(), actions, qvalues[..], qvaluesMap, features, lastScore, bestActionIndex,
            lastActionIndex, testMode, doUpdate, delta1, delta2, qdiffs[..], qdiffsIndex,
            advisedStates.entries, advisedStates.order)
    }

    /** The arrays are distinct and of the feature set's length, and the state keeps `Inv`. */
    ghost predicate Valid()
      reads this, q, q.weights, q.eligibility, qvalues, qdiffs, advisedStates
    {
      q.Valid() && q.size == size && advisedStates.size == size &&
      qdiffs != qvalues && qdiffs != q.weights && qdiffs != q.eligibility &&
      qvalues != q.weights && qvalues != q.eligibility &&
      Inv(State())
    }

    /** A new agent over feature vectors of length n: zero weights, an all-zero spread buffer
        and nothing advised. */
    constructor (n: nat)
      ensures Valid() && fresh(Repr()) && size == n
      ensures State() == Initialized(n)
    {
      size := n;
      q := new QFunction(n);
      qdiffs := new real[QDIFFS](_ => 0.0);
      qdiffsIndex := 0;
      qvalues := new real[0];
      actions := [];
      features := [];
      qvaluesMap := map[];
      advisedStates := new AdvisedStates(n);
      lastScore := 0;
      bestActionIndex := 0;
      lastActionIndex := 0;
      testMode := false;
      doUpdate := false;
      delta1 := 0.0;
      delta2 := 0.0;
      new;
      assert qdiffs[..] == Zeros(QDIFFS);
      InitializedInv(n);
    }

    /** `loadPolicy`: a new Q-function read from a weight file's lines. */
    method LoadPolicy(lines: seq<real>)
      requires Valid() && |lines| > size
      modifies this
      ensures Valid() && fresh(q) && fresh(q.weights) && fresh(q.eligibility)
      ensures qdiffs == old(qdiffs) && qvalues == old(qvalues) && advisedStates == old(advisedStates)
      ensures State() == Loaded(old(State()), lines)
    {
      q := new QFunction.FromFile(size, lines);
    }

    /** `savePolicy`: the weight file's lines. */
    method SavePolicy() returns (lines: seq<real>)
      requires Valid()
      ensures lines == Render(State().p)
    {
      lines := q.Save();
    }

    /** `startEpisode`: reset the per-episode state and evaluate the first decision point. */
    method StartEpisode(o: Observation, testMode: bool, explore: real, pick: nat)
      requires Valid() && WellFormed(o, size) && pick < |o.moves|
      modifies this, q, q.eligibility, qdiffs
      ensures Valid() && fresh(qvalues) && fresh(advisedStates)
      ensures q == old(q) && q.weights == old(q.weights) && q.eligibility == old(q.eligibility) && qdiffs == old(qdiffs)
      ensures State() == Started(old(State()), testMode, o, explore, pick)
    {
      ResetEpisode(testMode);
      EvaluateMoves(o, explore, pick);
    }

    /** The resets at the head of `startEpisode`: the mode, the score, the traces, the delayed
        update and a new, empty record of advised states. */
    method ResetEpisode(testMode: bool)
      requires Valid()
      modifies this, q, q.eligibility
      ensures Valid() && fresh(advisedStates)
      ensures q == old(q) && q.weights == old(q.weights) && q.eligibility == old(q.eligibility)
      ensures qvalues == old(qvalues) && qdiffs == old(qdiffs)
      ensures State() == Reset(old(State()), testMode)
    {
      Forget(testMode);
      q.ClearTraces();
      ResetInv(old(State()), testMode);
    }

    /** The part of `startEpisode` outside the Q-function: the mode, the score, the pending
        update and a new, empty record of advised states. */
    method Forget(testMode: bool)
      requires Valid()
      modifies this`testMode, this`lastScore, this`doUpdate, this`delta1, this`delta2, this`advisedStates
      ensures Valid() && fresh(advisedStates)
      ensures State() == old(State()).(testMode := testMode, lastScore := 0, doUpdate := false,
                                       delta1 := 0.0, delta2 := 0.0, advised := map[], order := [])
    {
      var empty := new AdvisedStates(size);
      assert AdvisedRecord(empty.entries, empty.order, size);
      this.testMode, lastScore, doUpdate, delta1, delta2, advisedStates := testMode, 0, false, 0.0, 0.0, empty;
    }

    /** `getMove`: the move at the acting index. */
    method GetMove() returns (m: Move)
      requires Valid() && Ready(State())
      ensures m == actions[lastActionIndex] && m in State().actions
    {
      m := actions[lastActionIndex];
    }

    /** `setMove`: the acting index becomes the last position of m, or −1 if m is not legal. */
    method SetMove(m: Move)
      requires Valid()
      modifies this`lastActionIndex
      ensures Valid()
      ensures State() == WithMove(old(State()), m)
    {
      var index := ScanLast(actions, m);
      lastActionIndex := index;
    }

    /** `processStep`: finish the pending update, lay down the trace of the action actually
        taken, compute the new TD error, evaluate the next decision point, and on game over in
        training apply the terminal update and the max-update sweep. `thrown` reports the
        exception `others.get(0)` raises in the sweep when a key has no alternatives. */
    method ProcessStep(o: Observation, explore: real, pick: nat, roll: nat -> nat) returns (thrown: bool)
      requires Valid() && Ready(State()) && WellFormed(o, size) && (!o.over ==> pick < |o.moves|)
      modifies this, q, q.weights, q.eligibility, qdiffs, advisedStates
      ensures Valid() && q == old(q) && q.eligibility == old(q.eligibility) && qdiffs == old(qdiffs)
      ensures (q.weights == old(q.weights) || fresh(q.weights)) && (qvalues == old(qvalues) || fresh(qvalues))
      ensures advisedStates == old(advisedStates)
      ensures (State(), thrown) == Processed(old(State()), o, explore, pick, roll)
    {
      Learn(o.score);
      if !o.over {
        EvaluateMoves(o, explore, pick);
      }
      thrown := false;
      if !testMode {
        if o.over {
          thrown := Terminal(roll);
        } else {
          PendUpdate();
        }
      }
    }

    /** A training step that does not end the game leaves the update of the action about to
        be taken pending until the next step. */
    method PendUpdate()
      requires Valid() && !testMode
      modifies this`doUpdate
      ensures Valid() && State() == old(State()).(doUpdate := true)
    {
      doUpdate := true;
    }

    /** The first part of `processStep`: the pending update, if any, then decay of every trace
        and accumulation of the taken action's features, then the reward and the new TD error
        from the q-value of the action taken. */
    method Learn(score: int)
      requires Valid() && Ready(State())
      modifies this`lastScore, this`delta1, this`delta2, q, q.weights, q.eligibility
      ensures Valid() && q.weights == old(q.weights) && q.eligibility == old(q.eligibility)
      ensures State() == Traced(old(State()), score)
    {
      ghost var s0 := State();
      Catch();
      ghost var p1 := q.Snapshot();
      q.DecayTraces(GAMMA * LAMBDA);
      q.AddTraces(features[lastActionIndex]);
      var reward := score - lastScore;
      lastScore := score;
      delta1 := reward as real - qvalues[lastActionIndex];
      TracedFrom(s0, score, p1, delta2);
    }

    /** The update `processStep` left pending from the previous step, with the TD error
        completed by the q-value of the action taken. */
    method Catch()
      requires Valid() && Ready(State())
      modifies this`delta2, q, q.weights
      ensures Valid() && Ready(State()) && q.weights == old(q.weights) && q.eligibility == old(q.eligibility)
      ensures var a := old(State());
        var d2 := if a.doUpdate then GAMMA * a.qvalues[a.lastActionIndex] else a.delta2;
        State() == a.(delta2 := d2, p := if a.doUpdate then TraceStep(a.p, ALPHA * (a.delta1 + d2)) else a.p)
    {
      if doUpdate {
        delta2 := GAMMA * qvalues[lastActionIndex];
        q.UpdateWeights(ALPHA * (delta1 + delta2));
      }
    }

    /** The game-over part of `processStep` in training: the last trace update with the final
        TD error, then the max-update sweep. */
    method Terminal(roll: nat -> nat) returns (thrown: bool)
      requires Valid()
      modifies q, q.weights, advisedStates
      ensures Valid() && q.eligibility == old(q.eligibility) && (q.weights == old(q.weights) || fresh(q.weights))
      ensures (State(), thrown) == Terminated(old(State()), roll)
    {
      ghost var s0 := State();
      FinalUpdate();
      ghost var s1 := State();
      thrown := MaxUpdate(roll);
      assert Terminated(s0, roll) == Swept(s1, roll);
    }

    /** The last trace update of an episode, with the final TD error. */
    method FinalUpdate()
      requires Valid()
      modifies q, q.weights
      ensures Valid() && q.weights == old(q.weights) && q.eligibility == old(q.eligibility)
      ensures State() == old(State()).(p := TraceStep(old(State()).p, ALPHA * delta1))
    {
      q.UpdateWeights(ALPHA * delta1);
    }

    /** `evaluateMoves`: the moves and their features, a q-value per move, the first best and
        first worst index, the spread pushed into the ring buffer, and the acting index. */
    method EvaluateMoves(o: Observation, explore: real, pick: nat)
      requires Valid() && WellFormed(o, size) && pick < |o.moves|
      modifies this, qdiffs
      ensures Valid() && fresh(qvalues) && q == old(q) && qdiffs == old(qdiffs) && advisedStates == old(advisedStates)
      ensures State() == Evaluate(old(State()), o, explore, pick)
    {
      ghost var s0 := State();
      var values, valueMap := ComputeValues(o, s0.p);
      var vs := values[..];
      var best, worst := Extremes(vs);
      EvaluateFrom(s0, o, explore, pick, vs, valueMap, best, worst);
      assert State() == s0;
      Install(o, values, valueMap, best, Choice(testMode, explore, pick, vs), vs[best] - vs[worst]);
      EvaluateFacts(s0, o, explore, pick);
    }

    /** The writes of `evaluateMoves`: the spread into the ring buffer, then the new decision
        point's fields. */
    method Install(o: Observation, values: array<real>, valueMap: map<Move, real>, best: nat, last: nat, diff: real)
      requires qdiffs.Length == QDIFFS && qdiffsIndex < QDIFFS
      requires qdiffs != values && qdiffs != qvalues && qdiffs != q.weights && qdiffs != q.eligibility
      modifies this, qdiffs
      ensures qvalues == values && q == old(q) && qdiffs == old(qdiffs) && advisedStates == old(advisedStates)
      ensures State() == old(State()).(actions := o.moves, features := o.features, qvalues := values[..],
                                       qvaluesMap := valueMap, bestActionIndex := best, lastActionIndex := last,
                                       qdiffs := old(qdiffs[..])[old(qdiffsIndex) := diff],
                                       qdiffsIndex := NextSlot(old(qdiffsIndex)))
    {
      UpdateQdiffs(diff);
      actions, features, qvalues, qvaluesMap, bestActionIndex, lastActionIndex := o.moves, o.features, values, valueMap, best, last;
    }

    /** The first loop of `evaluateMoves`: a q-value per move, and the move-to-value map. */
    method ComputeValues(o: Observation, ghost p: Params) returns (values: array<real>, valueMap: map<Move, real>)
      requires q.Valid() && WellFormed(o, q.size) && p == q.Snapshot()
      ensures fresh(values) && values.Length == |o.moves|
      ensures values[..] == Values(p, o.features)
      ensures valueMap == MoveMap(o.moves, values[..])
    {
      var n := |o.moves|;
      values := new real[n];
      valueMap := map[];
      var i := 0;
      while i < n
        modifies values
        invariant 0 <= i <= n
        invariant forall k :: 0 <= k < i ==> values[k] == Estimate(q.weights[..], q.bias, o.features[k])
        invariant valueMap == MoveMap(o.moves[..i], values[..i])
      {
        var value := q.Evaluate(o.features[i]);
        values[i] := value;
        assert o.moves[..i + 1][..i] == o.moves[..i] && values[..i + 1][..i] == values[..i];
        valueMap := valueMap[o.moves[i] := value];
        i := i + 1;
      }
      assert o.moves[..n] == o.moves && values[..n] == values[..];
    }

    /** `updateQdiffs`: write at the ring index, then advance it modulo the buffer length. */
    method UpdateQdiffs(diff: real)
      requires qdiffs.Length == QDIFFS && qdiffsIndex < QDIFFS
      modifies this`qdiffsIndex, qdiffs
      ensures qdiffs[..] == old(qdiffs[..])[old(qdiffsIndex) := diff]
      ensures qdiffsIndex == NextSlot(old(qdiffsIndex))
    {
      qdiffs[qdiffsIndex] := diff;
      qdiffsIndex := qdiffsIndex + 1;
      if qdiffsIndex > qdiffs.Length - 1 {
        qdiffsIndex := 0;
      }
    }

    /** The agent's `maxUpdate`: shuffle the advised keys, then sweep them in that order. */
    method MaxUpdate(roll: nat -> nat) returns (thrown: bool)
      requires Valid()
      modifies q, advisedStates
      ensures Valid() && q.eligibility == old(q.eligibility) && (q.weights == old(q.weights) || fresh(q.weights))
      ensures (State(), thrown) == Swept(old(State()), roll)
    {
      ghost var s0 := State();
      var list := advisedStates.KeyList();
      Shuffle(list, roll);
      var keys := list[..];
      assert keys == Shuffled(s0.order, roll);
      ShuffledKeepsDistinct(s0.order, roll);
      ShuffledKeysRecorded(s0.order, s0.advised, roll);
      thrown := SweepKeys(keys, s0.advised);
      ghost var r := MaxUpdated(s0.p, s0.advised, s0.order, roll);
      assert State() == s0.(p := r.p, advised := r.remaining, order := r.order);
      SweptFacts(s0, roll);
    }

    /** The loop of `maxUpdate` over the shuffled keys, up to the first throw. */
    method SweepKeys(keys: seq<seq<real>>, ghost recorded: map<seq<real>, seq<seq<real>>>) returns (thrown: bool)
      requires q.Valid() && q.size == size && advisedStates.Valid() && advisedStates.size == size
      requires Distinct(keys) && SizedStates(recorded, size)
      requires forall j :: 0 <= j < |keys| ==> keys[j] in recorded
      requires forall j :: 0 <= j < |keys| ==> keys[j] in advisedStates.entries && advisedStates.entries[keys[j]] == recorded[keys[j]]
      modifies q, advisedStates
      ensures q.Valid() && advisedStates.Valid()
      ensures q.eligibility == old(q.eligibility) && (q.weights == old(q.weights) || fresh(q.weights))
      ensures SweepState(q.Snapshot(), advisedStates.entries, advisedStates.order, thrown) ==
        Sweep(old(q.Snapshot()), recorded, keys, old(advisedStates.entries), old(advisedStates.order))
    {
      ghost var goal := Sweep(q.Snapshot(), recorded, keys, advisedStates.entries, advisedStates.order);
      thrown := false;
      var i := 0;
      while i < |keys| && !thrown
        invariant 0 <= i <= |keys|
        invariant q.Valid() && q.size == size && advisedStates.Valid() && advisedStates.size == size
        invariant q.eligibility == old(q.eligibility) && (q.weights == old(q.weights) || fresh(q.weights))
        invariant forall j :: i <= j < |keys| ==> keys[j] in advisedStates.entries && advisedStates.entries[keys[j]] == recorded[keys[j]]
        invariant goal == if thrown then SweepState(q.Snapshot(), advisedStates.entries, advisedStates.order, true)
                          else Sweep(q.Snapshot(), recorded, keys[i..], advisedStates.entries, advisedStates.order)
      {
        var k := keys[i];
        ghost var entries := advisedStates.entries;
        SweepOn(q.Snapshot(), recorded, keys, i, advisedStates.entries, advisedStates.order);
        thrown := SweepKey(k, recorded);
        PendingStay(keys, i, recorded, entries, advisedStates.entries);
        i := i + 1;
      }
    }

    /** One pass of `maxUpdate`'s loop, for the advised state k. */
    method SweepKey(k: seq<real>, ghost recorded: map<seq<real>, seq<seq<real>>>) returns (thrown: bool)
      requires q.Valid() && q.size == size && advisedStates.Valid() && advisedStates.size == size
      requires SizedStates(recorded, size) && k in recorded
      requires k in advisedStates.entries && advisedStates.entries[k] == recorded[k]
      modifies q, advisedStates
      ensures q.Valid() && q.eligibility == old(q.eligibility) && (q.weights == old(q.weights) || fresh(q.weights))
      ensures advisedStates.Valid()
      ensures advisedStates.entries == old(advisedStates.entries) || advisedStates.entries == old(advisedStates.entries) - {k}
      ensures SweepState(q.Snapshot(), advisedStates.entries, advisedStates.order, thrown) ==
        SweepStep(old(q.Snapshot()), recorded, k, old(advisedStates.entries), old(advisedStates.order))
    {
      var others := advisedStates.entries[k];
      var maxQindex, maxQvalue := BestAlternativeOf(others);
      var advisedActQ := q.Evaluate(k);
      thrown := false;
      if advisedActQ < maxQvalue {
        if maxQindex < |others| {
          q.MaxUpdate(k, others[maxQindex], ALPHA);
        } else {
          thrown := true;
        }
      } else {
        advisedStates.Remove(k);
      }
    }

    /** The inner loop of `maxUpdate`: the first alternative of the largest value, starting
        from NO_ALTERNATIVE at index 0. */
    method BestAlternativeOf(others: seq<seq<real>>) returns (maxQindex: nat, maxQvalue: real)
      requires q.Valid() && SizedAll(others, q.size)
      ensures (maxQindex, maxQvalue) == BestAlternative(q.Snapshot(), others, |others|)
    {
      maxQindex, maxQvalue := 0, NO_ALTERNATIVE;
      var j := 0;
      while j < |others|
        invariant 0 <= j <= |others|
        invariant (maxQindex, maxQvalue) == BestAlternative(q.Snapshot(), others, j)
      {
        var currQ := q.Evaluate(others[j]);
        if currQ > maxQvalue {
          maxQindex := j;
          maxQvalue := currQ;
        }
        j := j + 1;
      }
    }

    /** `recordAdvisedState`: unless the advised features are already a key, map them to the
        features of every other legal move, in move order. */
    method RecordAdvisedState(advised: Move)
      requires Valid() && advised in actions
      modifies advisedStates
      ensures Valid()
      ensures State() == Recorded(old(State()), advised)
    {
      RecordedFrom(State(), advised);
      var advisedFeatures := GetFeatures(advised);
      if advisedFeatures in advisedStates.entries {
        return;
      }
      var otherActions := OtherFeatures(advised);
      OthersSized(actions, features, advised, |actions|, size);
      advisedStates.Put(advisedFeatures, otherActions);
    }

    /** The loop of `recordAdvisedState`: the features of every legal move other than the
        advised one, in move order. */
    method OtherFeatures(advised: Move) returns (otherActions: seq<seq<real>>)
      requires |features| == |actions| && SizedAll(features, size)
      ensures otherActions == Others(actions, features, advised, |actions|)
    {
      otherActions := [];
      var i := 0;
      while i < |actions|
        invariant 0 <= i <= |actions|
        invariant otherActions == Others(actions, features, advised, i)
      {
        if actions[i] != advised {
          var stateActFeatures := GetFeatures(actions[i]);
          otherActions := otherActions + [stateActFeatures];
        }
        i := i + 1;
      }
    }

    /** `getAvgQdiff`: the mean of the 100 buffered spreads. */
    method GetAvgQdiff() returns (r: real)
      requires Valid()
      ensures r == Sum(State().qdiffs) / QDIFFS as real
    {
      var sum := 0.0;
      var i := 0;
      while i < qdiffs.Length
        invariant 0 <= i <= qdiffs.Length
        invariant sum == Sum(qdiffs[..i])
      {
        assert qdiffs[..i + 1][..i] == qdiffs[..i];
        sum := sum + qdiffs[i];
        i := i + 1;
      }
      assert qdiffs[..i] == qdiffs[..];
      r := sum / qdiffs.Length as real;
    }

    /** `getNthQvalue`: sorts the buffer in place and returns its (n+1)-th smallest entry; the
        ring index is not moved. */
    method GetNthQvalue(n: nat) returns (r: real)
      requires Valid() && n < QDIFFS
      modifies qdiffs
      ensures Valid()
      ensures State() == SortedBuffer(old(State())) && r == State().qdiffs[n]
    {
      SortArray(qdiffs);
      SortedBufferFacts(old(State()));
      r := qdiffs[n];
    }

    /** `getQValues`: the agent's own array, not a copy. */
    method GetQValues() returns (a: array<real>)
      requires Valid()
      ensures a == qvalues && a[..] == State().qvalues && a.Length == |State().actions|
    {
      a := qvalues;
    }

    /** `getMoves`: the legal moves of the current decision point. */
    method GetMoves() returns (moves: seq<Move>)
      requires Valid()
      ensures moves == State().actions
    {
      moves := actions;
    }

    /** `getFeatures`: the features of the last legal position holding m. */
    method GetFeatures(m: Move) returns (f: seq<real>)
      requires |features| == |actions| && SizedAll(features, size) && m in actions
      ensures f == FeaturesOf(actions, features, m) && |f| == size
    {
      var actionIndex := ScanLast(actions, m);
      f := features[actionIndex];
    }
  }

  /** The sweep over the keys from i on is one step for keys[i], then the sweep over the rest
      unless that step threw. */
  lemma SweepOn(p: Params, recorded: map<seq<real>, seq<seq<real>>>, keys: seq<seq<real>>, i: nat,
                remaining: map<seq<real>, seq<seq<real>>>, order: seq<seq<real>>)
    requires Sized(p, |p.weights|) && SizedStates(recorded, |p.weights|)
    requires i < |keys| && forall j :: 0 <= j < |keys| ==> keys[j] in recorded
    ensures var s := SweepStep(p, recorded, keys[i], remaining, order);
      Sweep(p, recorded, keys[i..], remaining, order) ==
      if s.thrown then s else Sweep(s.p, recorded, keys[i + 1..], s.remaining, s.order)
  {
    assert keys[i..][0] == keys[i] && keys[i..][1..] == keys[i + 1..];
  }

  /** The keys after i, which differ from keys[i], keep their pending alternatives when the
      step for keys[i] leaves the pending map alone or takes keys[i] out of it. */
  lemma PendingStay(keys: seq<seq<real>>, i: nat, recorded: map<seq<real>, seq<seq<real>>>,
                    before: map<seq<real>, seq<seq<real>>>, after: map<seq<real>, seq<seq<real>>>)
    requires Distinct(keys) && i < |keys| && forall j :: 0 <= j < |keys| ==> keys[j] in recorded
    requires after == before || after == before - {keys[i]}
    requires forall j :: i <= j < |keys| ==> keys[j] in before && before[keys[j]] == recorded[keys[j]]
    ensures forall j :: i + 1 <= j < |keys| ==> keys[j] in after && after[keys[j]] == recorded[keys[j]]
  {
    assert forall j :: i < j < |keys| ==> keys[j] != keys[i];
  }

  /** The scan `setMove` and `getFeatures` both run: every match overwrites the index, which
      starts at −1. */
  method ScanLast(moves: seq<Move>, m: Move) returns (index: int)
    ensures index == LastIndex(moves, m)
  {
    index := -1;
    var i := 0;
    while i < |moves|
      invariant 0 <= i <= |moves|
      invariant index == LastIndex(moves[..i], m)
    {
      assert moves[..i + 1][..i] == moves[..i];
      if moves[i] == m {
        index := i;
      }
      i := i + 1;
    }
    assert moves[..i] == moves;
  }
}
