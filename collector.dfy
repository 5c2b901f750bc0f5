/** `RandomStatesCollector.collectStates`: one test-mode episode of at most COLLECT_STEPS steps
    that keeps a sliding window of the last game-state strings and records, for each of the
    first `numStates` decision points, the state string, the features of every legal move and
    the gap between the two largest q-values. The q-values are sorted in the agent's own array,
    so the agent sees them sorted until its next evaluation. The game is the sequence of
    decision points it goes through, as in the experiment driver. */
module Collector {
  import opened Vectors
  import opened Game
  import opened QFunctions
  import opened SarsaModel
  import opened Sarsa
  import opened Episodes

  /** The step bound of the collecting episode. */
  const COLLECT_STEPS: nat := 20000

  /** `GameState`: the game-state string, the features of each legal move in move order, and
      the gap between the two largest q-values. */
  datatype GameState = GameState(state: string, features: seq<seq<real>>, gap: real)

  // The gap.

  /** After `Arrays.sort`, the last q-value minus the one before it. */
  function Gap(qs: seq<real>): real
    requires |qs| >= 2
  {
    SortSpecSorted(qs);
    SortSpec(qs)[|qs| - 1] - SortSpec(qs)[|qs| - 2]
  }

  /** The last of the sorted q-values is the largest one. */
  lemma SortedTop(qs: seq<real>)
    requires |qs| > 0
    ensures |SortSpec(qs)| == |qs| && SortSpec(qs)[|qs| - 1] == Max(qs)
  {
    var s := SortSpec(qs);
    SortSpecSorted(qs);
    assert Max(qs) in multiset(s);
    SortedLast(s, Max(qs));
    assert s[|s| - 1] in multiset(qs);
  }

  /** In a sorted sequence of two or more, the next-to-last element is the largest of those left
      once one copy of the last is taken out. */
  lemma SortedTopTwo(s: seq<real>)
    requires Sorted(s) && |s| >= 2
    ensures s[|s| - 2] <= s[|s| - 1]
    ensures var others := multiset(s) - multiset{s[|s| - 1]};
      s[|s| - 2] in others && forall x :: x in others ==> x <= s[|s| - 2]
  {
    var n := |s|;
    var rest := s[..n - 1];
    assert s == rest + [s[n - 1]];
    assert multiset(s) - multiset{s[n - 1]} == multiset(rest);
    assert rest[n - 2] in rest;
    forall x | x in multiset(rest)
      ensures x <= s[n - 2]
    {
      SortedPrefix(s, n - 1);
      SortedLast(rest, x);
    }
  }

  /** The gap is the largest q-value minus the largest of the others (one copy of the largest
      taken out), so it is never negative. */
  lemma GapTopTwo(qs: seq<real>)
    requires |qs| >= 2
    ensures Gap(qs) >= 0.0
    ensures var others := multiset(qs) - multiset{Max(qs)};
      Max(qs) - Gap(qs) in others && forall x :: x in others ==> x <= Max(qs) - Gap(qs)
  {
    var s := SortSpec(qs);
    SortSpecSorted(qs);
    SortedTop(qs);
    SortedTopTwo(s);
  }

  // The features of the moves.

  /** `feat[j] = getFeatures(moves[j])` for every legal move, in move order. */
  function MoveFeatures(moves: seq<Move>, fs: seq<seq<real>>): (r: seq<seq<real>>)
    requires |fs| == |moves|
    ensures |r| == |moves|
  {
    seq(|moves|, j requires 0 <= j < |moves| => FeaturesOf(moves, fs, moves[j]))
  }

  /** Among distinct moves, the features collected per move are the decision point's own feature
      vectors. */
  lemma MoveFeaturesDistinct(moves: seq<Move>, fs: seq<seq<real>>)
    requires |fs| == |moves| && forall p, q :: 0 <= p < q < |moves| ==> moves[p] != moves[q]
    ensures MoveFeatures(moves, fs) == fs
  {
    forall j | 0 <= j < |moves|
      ensures MoveFeatures(moves, fs)[j] == fs[j]
    {
      LastIndexOfDistinct(moves, j);
    }
  }

  // The collected states.

  /** The state recorded at decision point o by an agent with parameters p. */
  function Snapshot(p: Params, o: Observation): GameState
    requires WellFormed(o, |p.weights|) && |o.moves| >= 2
  {
    GameState(o.state, MoveFeatures(o.moves, o.features), Gap(Values(p, o.features)))
  }

  /** Decision points before n fit the parameters and have at least two moves. */
  ghost predicate Collectable(p: Params, at: nat -> Observation, n: nat)
  {
    forall k: nat :: k < n ==> WellFormed(at(k), |p.weights|) && |at(k).moves| >= 2
  }

  /** The states of the first n decision points. */
  ghost function Collected(p: Params, at: nat -> Observation, n: nat): (r: seq<GameState>)
    requires Collectable(p, at, n)
    ensures |r| == n
    ensures forall k {:trigger r[k]} :: 0 <= k < n ==> r[k] == Snapshot(p, at(k))
  {
    if n == 0 then [] else Collected(p, at, n - 1) + [Snapshot(p, at(n - 1))]
  }

  /** How many states `randStates.size() < numStates` lets in. */
  function Cap(numStates: int): nat
  {
    if numStates < 0 then 0 else numStates
  }

  // The trajectory window.

  /** The game-state strings of the first n decision points. */
  function Trail(at: nat -> Observation, n: nat): (r: seq<string>)
    ensures |r| == n
    ensures forall k {:trigger r[k]} :: 0 <= k < n ==> r[k] == at(k).state
  {
    if n == 0 then [] else Trail(at, n - 1) + [at(n - 1).state]
  }

  /** The last w entries of t, or all of t when it is shorter. */
  function Window(t: seq<string>, w: nat): (r: seq<string>)
  {
    if |t| <= w then t else t[|t| - w..]
  }

  /** The queue of capacity w: when full, `remove` the oldest, then `offer` the newest. */
  function Slide(q: seq<string>, x: string, w: nat): (r: seq<string>)
    requires 0 < w && |q| <= w
  {
    (if |q| == w then q[1..] else q) + [x]
  }

  /** The queue holds at most w strings, and each slide keeps it the window of the last w
      strings offered. */
  lemma SlideWindow(t: seq<string>, x: string, w: nat)
    requires 0 < w
    ensures |Window(t, w)| <= w && |Window(t, w)| == if |t| <= w then |t| else w
    ensures Slide(Window(t, w), x, w) == Window(t + [x], w)
  {
    if w < |t| {
      assert Window(t, w)[1..] + [x] == (t + [x])[|t| + 1 - w..];
    }
  }

  /** The window never holds more than w strings. */
  lemma TrailBound(at: nat -> Observation, n: nat, w: nat)
    ensures |Window(Trail(at, n), w)| <= w
  {
  }

  /** Offering the state string of decision point n to the window of the first n keeps it the
      window of the first n + 1. */
  lemma TrailSlide(at: nat -> Observation, n: nat, w: nat, q: seq<string>)
    requires 0 < w && q == Window(Trail(at, n), w)
    ensures |q| <= w && Slide(q, at(n).state, w) == Window(Trail(at, n + 1), w)
  {
    SlideWindow(Trail(at, n), at(n).state, w);
  }

  // Facts about the agent in test mode.

  /** Two parameter sets with the same weights and bias give the same q-values. */
  lemma ValuesOfWeights(p: Params, p': Params, fs: seq<seq<real>>)
    requires p.weights == p'.weights && p.bias == p'.bias && forall i :: 0 <= i < |fs| ==> |fs[i]| == |p.weights|
    ensures Values(p, fs) == Values(p', fs)
  {
    assert forall i :: 0 <= i < |fs| ==> Values(p, fs)[i] == Values(p', fs)[i];
  }

  /** After `startEpisode`, the agent holds the moves, features and q-values of the decision
      point, the q-values with its own weights. */
  lemma StartedValues(a: Agent, testMode: bool, o: Observation, explore: real, pick: nat)
    requires Inv(a) && WellFormed(o, |a.p.weights|) && pick < |o.moves|
    ensures var r := Started(a, testMode, o, explore, pick);
      r.actions == o.moves && r.features == o.features && r.qvalues == Values(a.p, o.features)
  {
    ResetInv(a, testMode);
    EvaluateFacts(Reset(a, testMode), o, explore, pick);
    ValuesOfWeights(Reset(a, testMode).p, a.p, o.features);
  }

  /** After `processStep` on a running decision point, the agent holds its moves, features and
      q-values. */
  lemma ProcessedValues(a: Agent, o: Observation, explore: real, pick: nat, roll: nat -> nat)
    requires Inv(a) && Ready(a) && WellFormed(o, |a.p.weights|) && !o.over && pick < |o.moves|
    ensures var r := Processed(a, o, explore, pick, roll).0;
      r.actions == o.moves && r.features == o.features && r.qvalues == Values(r.p, o.features)
  {
    TracedInv(a, o.score);
    EvaluateFacts(Traced(a, o.score), o, explore, pick);
  }

  // The collecting loop.

  /** `Arrays.sort(pacman.getQValues())`: the agent's own array is sorted in place. */
  method SortValues(pacman: SarsaPacMan) returns (sorted: seq<real>)
    requires pacman.Valid()
    modifies pacman.qvalues
    ensures pacman.Valid()
    ensures pacman.State() == old(pacman.State()).(qvalues := SortSpec(old(pacman.State().qvalues)))
    ensures sorted == SortSpec(old(pacman.State().qvalues))
  {
    var qs := pacman.GetQValues();
    SortSpecSorted(qs[..]);
    SortArray(qs);
    sorted := qs[..];
  }

  /** The loop over `getMoves()` that collects `getFeatures` of each move. */
  method FeaturesPerMove(pacman: SarsaPacMan) returns (feats: seq<seq<real>>)
    requires pacman.Valid()
    ensures feats == MoveFeatures(pacman.State().actions, pacman.State().features)
  {
    var moves := pacman.GetMoves();
    ghost var fs := pacman.features;
    assert |fs| == |moves| && SizedAll(fs, pacman.size);
    feats := [];
    var j := 0;
    while j < |moves|
      invariant 0 <= j <= |moves| && |feats| == j
      invariant forall i :: 0 <= i < j ==> feats[i] == FeaturesOf(moves, fs, moves[i])
    {
      var f := pacman.GetFeatures(moves[j]);
      feats := feats + [f];
      j := j + 1;
    }
  }

  /** The agent a sits on the running decision point o in test mode, with the weights and bias
      of p0 and the q-values they give. */
  ghost predicate AtPoint(a: Agent, p0: Params, o: Observation)
  {
    Inv(a) && Ready(a) && a.testMode && a.p.weights == p0.weights && a.p.bias == p0.bias &&
    WellFormed(o, |p0.weights|) && !o.over &&
    a.actions == o.moves && a.features == o.features && a.qvalues == Values(p0, o.features)
  }

  /** One decision point of the collecting loop before the game advances: the agent's q-values
      are sorted in place and the gap between the top two is read, which throws when there are
      fewer than two moves. */
  method Rank(pacman: SarsaPacMan, o: Observation, ghost p0: Params) returns (gap: real, thrown: bool)
    requires pacman.Valid() && AtPoint(pacman.State(), p0, o)
    modifies pacman.qvalues
    ensures pacman.Valid() && Ready(pacman.State())
    ensures pacman.State() == old(pacman.State()).(qvalues := SortSpec(Values(p0, o.features)))
    ensures thrown <==> |o.moves| < 2
    ensures !thrown ==> gap == Gap(Values(p0, o.features))
  {
    var qs := SortValues(pacman);
    SortSpecSorted(Values(p0, o.features));
    if |qs| < 2 {
      return 0.0, true;
    }
    gap, thrown := qs[|qs| - 1] - qs[|qs| - 2], false;
  }

  /** `advanceGame` with the agent's move and `processStep` on the next decision point: in
      test mode the weights and bias stay, and a running game leaves the agent on the next
      decision point. */
  method Advance(pacman: SarsaPacMan, next: Observation, d: Draws, ghost p0: Params)
    requires pacman.Valid() && Ready(pacman.State()) && pacman.State().testMode
    requires pacman.State().p.weights == p0.weights && pacman.State().p.bias == p0.bias
    requires WellFormed(next, pacman.size) && (!next.over ==> d.pick < |next.moves|)
    modifies pacman, pacman.q, pacman.q.weights, pacman.q.eligibility, pacman.qdiffs, pacman.advisedStates
    ensures pacman.Valid() && Ready(pacman.State()) && pacman.State().testMode
    ensures pacman.State().p.weights == p0.weights && pacman.State().p.bias == p0.bias
    ensures pacman.q == old(pacman.q) && pacman.q.eligibility == old(pacman.q.eligibility) && pacman.qdiffs == old(pacman.qdiffs)
    ensures pacman.advisedStates == old(pacman.advisedStates)
    ensures pacman.q.weights == old(pacman.q.weights) || fresh(pacman.q.weights)
    ensures pacman.qvalues == old(pacman.qvalues) || fresh(pacman.qvalues)
    ensures !next.over ==> AtPoint(pacman.State(), p0, next)
  {
    var m := pacman.GetMove();
    ghost var before := pacman.State();
    var thrown := pacman.ProcessStep(next, d.explore, d.pick, d.roll);
    ProcessedFacts(before, next, d.explore, d.pick, d.roll);
    if !next.over {
      ProcessedValues(before, next, d.explore, d.pick, d.roll);
      ValuesOfWeights(pacman.State().p, p0, next.features);
    }
  }

  /** One pass of the collecting loop once the state string is in the window: rank the
      q-values, collect the state when `collect` (`randStates.size() < numStates`) holds, then
      advance the game and step the agent. */
  method Visit(pacman: SarsaPacMan, o: Observation, next: Observation, d: Draws, ghost p0: Params, collect: bool)
    returns (snap: GameState, thrown: bool)
    requires pacman.Valid() && AtPoint(pacman.State(), p0, o)
    requires WellFormed(next, pacman.size) && (!next.over ==> d.pick < |next.moves|)
    modifies pacman, pacman.q, pacman.q.weights, pacman.q.eligibility, pacman.qdiffs, pacman.advisedStates, pacman.qvalues
    ensures pacman.Valid() && pacman.State().testMode
    ensures pacman.State().p.weights == p0.weights && pacman.State().p.bias == p0.bias
    ensures pacman.q == old(pacman.q) && pacman.q.eligibility == old(pacman.q.eligibility) && pacman.qdiffs == old(pacman.qdiffs)
    ensures pacman.advisedStates == old(pacman.advisedStates)
    ensures pacman.q.weights == old(pacman.q.weights) || fresh(pacman.q.weights)
    ensures pacman.qvalues == old(pacman.qvalues) || fresh(pacman.qvalues)
    ensures thrown <==> |o.moves| < 2
    ensures !thrown && collect ==> snap == Snapshot(p0, o)
    ensures !thrown && !next.over ==> AtPoint(pacman.State(), p0, next)
  {
    var gap;
    gap, thrown := Rank(pacman, o, p0);
    snap := GameState(o.state, [], gap);
    if thrown {
      return;
    }
    if collect {
      var feats := FeaturesPerMove(pacman);
      snap := GameState(o.state, feats, gap);
    }
    Advance(pacman, next, d, p0);
  }

  /** What the collecting loop has gathered after `length` steps: the first states of the game
      (at most `numStates`) and the window of the last state strings. */
  ghost predicate Gathered(p0: Params, at: nat -> Observation, numStates: int, window: nat, length: nat,
                           randStates: seq<GameState>, trajectory: seq<string>)
  {
    Running(at, length) && Collectable(p0, at, length) &&
    |randStates| == (if Cap(numStates) < length then Cap(numStates) else length) &&
    randStates == Collected(p0, at, |randStates|) &&
    trajectory == Window(Trail(at, length), window)
  }

  /** One more step of a running game with at least two moves: the state joins the kept ones
      while fewer than `numStates` are kept, and the window slides on by its string. */
  lemma GatheredOn(p0: Params, at: nat -> Observation, numStates: int, window: nat, length: nat,
                   randStates: seq<GameState>, trajectory: seq<string>)
    requires 0 < window && Gathered(p0, at, numStates, window, length, randStates, trajectory)
    requires !at(length).over && WellFormed(at(length), |p0.weights|) && |at(length).moves| >= 2
    ensures |trajectory| <= window
    ensures Gathered(p0, at, numStates, window, length + 1,
      if |randStates| < numStates then randStates + [Snapshot(p0, at(length))] else randStates,
      Slide(trajectory, at(length).state, window))
  {
    TrailSlide(at, length, window, trajectory);
    RunningOn(at, length);
  }

  /** What `collectStates` leaves after `length` steps, `thrown` telling whether the last one
      threw: a run of running decision points within the bound, ended by a decision point with
      fewer than two moves when it threw; the states of the first `numStates` decision points
      (or of all of them when fewer); and the window of the last state strings offered. */
  ghost predicate Ended(p0: Params, at: nat -> Observation, numStates: int, window: nat, length: nat, thrown: bool,
                        randStates: seq<GameState>, trajectory: seq<string>)
  {
    length <= COLLECT_STEPS && Running(at, length) && Collectable(p0, at, length) &&
    (thrown ==> length < COLLECT_STEPS && !at(length).over && |at(length).moves| < 2) &&
    |randStates| == (if Cap(numStates) < length then Cap(numStates) else length) &&
    randStates == Collected(p0, at, |randStates|) &&
    trajectory == Window(Trail(at, if thrown then length + 1 else length), window) && |trajectory| <= window
  }

  /** A loop that stops without a throw leaves what it gathered. */
  lemma GatheredEnded(p0: Params, at: nat -> Observation, numStates: int, window: nat, length: nat,
                      randStates: seq<GameState>, trajectory: seq<string>)
    requires length <= COLLECT_STEPS && Gathered(p0, at, numStates, window, length, randStates, trajectory)
    ensures Ended(p0, at, numStates, window, length, false, randStates, trajectory)
  {
    TrailBound(at, length, window);
  }

  /** One pass of `while (!game.gameOver() & length < 20000)` at decision point `length`: the
      state string joins the window, the q-values are ranked, the state is kept while fewer than
      `numStates` are, and the game and the agent advance to `next`. */
  method Pass(pacman: SarsaPacMan, at: nat -> Observation, next: Observation, d: Draws, ghost p0: Params,
              numStates: int, window: nat, length: nat, randStates: seq<GameState>, trajectory: seq<string>)
    returns (randStates': seq<GameState>, trajectory': seq<string>, thrown: bool)
    requires pacman.Valid() && AtPoint(pacman.State(), p0, at(length))
    requires 0 < window && Gathered(p0, at, numStates, window, length, randStates, trajectory)
    requires next == at(length + 1) && WellFormed(next, pacman.size) && (!next.over ==> d.pick < |next.moves|)
    requires length < COLLECT_STEPS
    modifies pacman, pacman.q, pacman.q.weights, pacman.q.eligibility, pacman.qdiffs, pacman.advisedStates, pacman.qvalues
    ensures pacman.Valid() && pacman.State().testMode
    ensures pacman.State().p.weights == p0.weights && pacman.State().p.bias == p0.bias
    ensures pacman.q == old(pacman.q) && pacman.q.eligibility == old(pacman.q.eligibility) && pacman.qdiffs == old(pacman.qdiffs)
    ensures pacman.advisedStates == old(pacman.advisedStates)
    ensures pacman.q.weights == old(pacman.q.weights) || fresh(pacman.q.weights)
    ensures pacman.qvalues == old(pacman.qvalues) || fresh(pacman.qvalues)
    ensures thrown ==> Ended(p0, at, numStates, window, length, true, randStates', trajectory')
    ensures !thrown ==> Gathered(p0, at, numStates, window, length + 1, randStates', trajectory')
    ensures !thrown && !next.over ==> AtPoint(pacman.State(), p0, next)
  {
    var o := at(length);
    TrailSlide(at, length, window, trajectory);
    trajectory' := Slide(trajectory, o.state, window);
    var snap;
    snap, thrown := Visit(pacman, o, next, d, p0, |randStates| < numStates);
    randStates' := randStates;
    if thrown {
      TrailBound(at, length + 1, window);
      return;
    }
    GatheredOn(p0, at, numStates, window, length, randStates, trajectory);
    if |randStates| < numStates {
      randStates' := randStates + [snap];
    }
  }

  /** The loop of `collectStates`, from the first decision point on. */
  method Gather(pacman: SarsaPacMan, at: nat -> Observation, draws: nat -> Draws, ghost p0: Params, numStates: int, window: nat)
    returns (randStates: seq<GameState>, trajectory: seq<string>, length: nat, thrown: bool)
    requires pacman.Valid() && Playable(at, draws, pacman.size) && AtPoint(pacman.State(), p0, at(0)) && 0 < window
    modifies pacman, pacman.q, pacman.q.weights, pacman.q.eligibility, pacman.qdiffs, pacman.advisedStates, pacman.qvalues
    ensures pacman.Valid() && pacman.State().testMode
    ensures pacman.State().p.weights == p0.weights && pacman.State().p.bias == p0.bias
    ensures !thrown ==> length == Steps(at, COLLECT_STEPS)
    ensures Ended(p0, at, numStates, window, length, thrown, randStates, trajectory)
  {
    randStates, trajectory, length, thrown := [], [], 0, false;
    while !at(length).over && length < COLLECT_STEPS
      invariant pacman.Valid() && pacman.State().testMode
      invariant pacman.State().p.weights == p0.weights && pacman.State().p.bias == p0.bias
      invariant !at(length).over ==> AtPoint(pacman.State(), p0, at(length))
      invariant pacman.q == old(pacman.q) && pacman.q.eligibility == old(pacman.q.eligibility)
      invariant pacman.qdiffs == old(pacman.qdiffs) && pacman.advisedStates == old(pacman.advisedStates)
      invariant pacman.q.weights == old(pacman.q.weights) || fresh(pacman.q.weights)
      invariant pacman.qvalues == old(pacman.qvalues) || fresh(pacman.qvalues)
      invariant !thrown && length <= COLLECT_STEPS
      invariant Gathered(p0, at, numStates, window, length, randStates, trajectory)
      decreases COLLECT_STEPS - length
    {
      var next, d := at(length + 1), draws(length + 1);
      randStates, trajectory, thrown := Pass(pacman, at, next, d, p0, numStates, window, length, randStates, trajectory);
      if thrown {
        return;
      }
      length := length + 1;
      assert at(length) == next;
    }
    StepsExactly(at, length, COLLECT_STEPS);
    GatheredEnded(p0, at, numStates, window, length, randStates, trajectory);
  }

  /** `collectStates(pacman)`: `window` is `TRAJ_LENGTH`. `thrown` reports the exception of
      reading the top two q-values at a decision point with fewer than two moves. */
  method CollectStates(pacman: SarsaPacMan, at: nat -> Observation, draws: nat -> Draws, numStates: int, window: nat)
    returns (randStates: seq<GameState>, trajectory: seq<string>, length: nat, thrown: bool)
    requires pacman.Valid() && Playable(at, draws, pacman.size) && !at(0).over && 0 < window
    modifies pacman, pacman.q, pacman.q.weights, pacman.q.eligibility, pacman.qdiffs, pacman.advisedStates
    ensures pacman.Valid() && pacman.State().testMode
    ensures pacman.State().p.weights == old(pacman.State().p.weights) && pacman.State().p.bias == old(pacman.State().p.bias)
    ensures length <= COLLECT_STEPS && Running(at, length)
    ensures !thrown ==> length == Steps(at, COLLECT_STEPS)
    ensures thrown ==> length < COLLECT_STEPS && !at(length).over && |at(length).moves| < 2
    ensures Collectable(old(pacman.State().p), at, length)
    ensures |randStates| == if Cap(numStates) < length then Cap(numStates) else length
    ensures randStates == Collected(old(pacman.State().p), at, |randStates|)
    ensures !thrown ==> trajectory == Window(Trail(at, length), window)
    ensures thrown ==> trajectory == Window(Trail(at, length + 1), window)
    ensures |trajectory| <= window
  {
    ghost var p0 := pacman.State().p;
    ghost var a0 := pacman.State();
    assert |p0.weights| == pacman.size;
    pacman.StartEpisode(at(0), true, draws(0).explore, draws(0).pick);
    StartedResets(a0, true, at(0), draws(0).explore, draws(0).pick);
    StartedValues(a0, true, at(0), draws(0).explore, draws(0).pick);
    randStates, trajectory, length, thrown := Gather(pacman, at, draws, p0, numStates, window);
  }
}
