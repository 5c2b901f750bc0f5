/** The game as the learners see it: the legal moves at a decision point, one feature vector per
    move, the score so far and whether the game is over. The maze, the ghosts and the feature
    extraction itself are not part of this model; they are summed up by these observations. */
module Game {

  /** `Constants.MOVE`. */
  datatype Move = Up | Right | Down | Left | Neutral

  /** One decision point: `getPossibleMoves`, the extracted feature vector of each move (in the
      same order), `getScore`, `gameOver` and the `getGameState` string. */
  datatype Observation = Observation(
    moves: seq<Move>,
    features: seq<seq<real>>,
    score: int,
    over: bool,
    state: string)

  /** Feature vectors line up with the moves and all have the feature set's length, and a game
      that is still running offers at least one move. */
  predicate WellFormed(o: Observation, size: nat)
  {
    |o.features| == |o.moves| &&
    (forall i :: 0 <= i < |o.features| ==> |o.features[i]| == size) &&
    (!o.over ==> |o.moves| > 0)
  }

  /** The index a forward scan that overwrites on every match ends with: the last index of m,
      or −1 when m is not among the moves. */
  function LastIndex(moves: seq<Move>, m: Move): (r: int)
    ensures -1 <= r < |moves|
    ensures r == -1 <==> m !in moves
    ensures r >= 0 ==> moves[r] == m && forall j :: r < j < |moves| ==> moves[j] != m
  {
    if |moves| == 0 then -1
    else if moves[|moves| - 1] == m then |moves| - 1
    else
      assert moves == moves[..|moves| - 1] + [moves[|moves| - 1]];
      LastIndex(moves[..|moves| - 1], m)
  }

  /** Without repeated moves, LastIndex finds the one position holding the move. */
  lemma LastIndexOfDistinct(moves: seq<Move>, i: nat)
    requires i < |moves|
    requires forall p, q :: 0 <= p < q < |moves| ==> moves[p] != moves[q]
    ensures LastIndex(moves, moves[i]) == i
  {
  }
}
