/** What the driver loops share: a game given as the decision points it goes through, the
    agent's draws at each of them, and the number of steps a loop takes when it stops at game
    over or after a fixed number of steps. */
module Episodes {
  import opened Game
  import opened SarsaModel

  /** Decision point k of the game is `at(k)` and the agent's draws there are `draws(k)`:
      every decision point fits feature vectors of length n, and every draw picks a legal
      move index while the game runs. */
  ghost predicate Playable(at: nat -> Observation, draws: nat -> Draws, n: nat)
  {
    forall k: nat :: WellFormed(at(k), n) && (!at(k).over ==> draws(k).pick < |at(k).moves|)
  }

  /** The steps a loop `while (!gameOver() & length < limit)` takes from decision point k on. */
  function StepsFrom(at: nat -> Observation, k: nat, limit: nat): (r: nat)
    requires k <= limit
    decreases limit - k
  {
    if k == limit || at(k).over then k else StepsFrom(at, k + 1, limit)
  }

  /** The steps such a loop takes over a whole game. */
  function Steps(at: nat -> Observation, limit: nat): nat
  {
    StepsFrom(at, 0, limit)
  }

  /** No decision point before k is game over. */
  predicate Running(at: nat -> Observation, k: nat)
  {
    forall j: nat :: j < k ==> !at(j).over
  }

  /** One more running decision point extends the run. */
  lemma RunningOn(at: nat -> Observation, k: nat)
    requires Running(at, k) && !at(k).over
    ensures Running(at, k + 1)
  {
  }

  /** A loop ran `length` steps: within the bound, through running decision points only, and
      stopped by game over unless the bound was reached. */
  predicate Ran(at: nat -> Observation, length: nat, limit: nat)
  {
    length <= limit && Running(at, length) && (length < limit ==> at(length).over)
  }

  /** The count from k on is the first decision point at or after k where the game is over,
      capped by the bound. */
  lemma {:induction false} StepsFromRan(at: nat -> Observation, k: nat, limit: nat)
    requires k <= limit && Running(at, k)
    ensures Ran(at, StepsFrom(at, k, limit), limit)
    decreases limit - k
  {
    if k < limit && !at(k).over {
      StepsFromRan(at, k + 1, limit);
    }
  }

  /** Steps is the one count that fits: the loop ran exactly Steps(at, limit) steps. */
  lemma StepsExactly(at: nat -> Observation, length: nat, limit: nat)
    ensures Ran(at, length, limit) <==> length == Steps(at, limit)
  {
    StepsFromRan(at, 0, limit);
  }
}
