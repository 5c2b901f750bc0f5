/** The experiment driver: the learner-token dispatch that sets up an agent, the bounded
    training episode, the summation of episode records into a learning-curve point, and the
    choice of the best independent learner as teacher. Game creation, policy files, the
    evaluation of scores and the curve files are not part of this model: the game is the
    sequence of decision points it goes through, and scores arrive as values. */
module Experiments {
  import opened Text
  import opened Game
  import opened Vectors
  import opened SarsaModel
  import opened Sarsa
  import opened Episodes
  import Students

  /** `Experiments.TRAIN`: training episodes per curve point. */
  const TRAIN: nat := 10
  /** The step bound of a training episode. */
  const EPISODE_STEPS: nat := 15000
  /** The threshold `askcstuunc` tokens always give the teaching strategy. */
  const ASK_THRESHOLD: int := 200

  /** The teaching strategy a pair token selects, with the numbers parsed from the token. */
  datatype StrategyChoice =
    | AdviseAtFirst
    | AdviseAtFirstCorrect
    | AdviseImportantStates(threshold: int)
    | CorrectImportantMistakes(threshold: int)
    | CorrectImportantMistakesAttention(att: int, threshold: int)
    | CorrectImportantMistakesDiffStudent(threshold: int)
    | PredictImportantMistakes(threshold: int)
    | AdviseRandom(prob: int)
    | CorrectMistakesRandomly(prob: int)
    | StudentUncertaintyAdvice(threshold: int)
    | StudentUncertaintyAndMistakeAdvice(threshold: int)
    | StudentUncertaintyAndMistakeAdviceTop2(threshold: int)
    | StudentAvgUncertaintyAndMistakeAdvice
    | StudentImportanceAndMistakeAdvice(threshold: int)

  /** What `create` hands back: a lone teacher, a lone student, a student-teacher pair with its
      strategy, `null` for an unmatched token, or an exception from reading the token's number
      (NumberFormatException, or StringIndexOutOfBoundsException for a short `attcorrect`). */
  datatype Created = LoneTeacher | LoneStudent | Paired(strategy: StrategyChoice) | Null | Thrown

  /** The learner prefixes, in the order `create` tests them. */
  const PREFIXES: seq<string> :=
    ["teacher", "independent", "baseline", "cbaseline", "advise", "correct", "attcorrect", "dcorrect",
     "predict", "random", "crandom", "stuunc", "cstuunc", "ctstuunc", "avgcstuunc", "cstuimp",
     "askcstuunc"]

  /** `Integer.parseInt` of the token from position k on, handed to `make`. */
  function WithNumber(learner: string, k: nat, make: int -> StrategyChoice): Created
    requires k <= |learner|
  {
    match ParseInt(learner[k..])
    case None => Thrown
    case Some(n) => Paired(make(n))
  }

  /** `attcorrect`: `att` from positions [10, |learner| − 3) and the threshold from the last
      three characters; a token shorter than 13 characters makes `substring` throw. */
  function AttCorrect(learner: string): Created
    requires StartsWith(learner, "attcorrect")
  {
    if |learner| - 3 < 10 then Thrown
    else
      match ParseInt(learner[10..|learner| - 3])
      case None => Thrown
      case Some(att) =>
        match ParseInt(learner[|learner| - 3..])
        case None => Thrown
        case Some(threshold) => Paired(CorrectImportantMistakesAttention(att, threshold))
  }

  /** `create(learner, …)`: the prefixes are checked in this order and the first match wins.
      The lone agents come first: a token starting with "teacher" is a lone teacher, and any
      other starting with "independent" a lone student; no other token makes either. */
  function Create(learner: string): (r: Created)
    ensures r == LoneTeacher <==> StartsWith(learner, "teacher")
    ensures r == LoneStudent <==> !StartsWith(learner, "teacher") && StartsWith(learner, "independent")
  {
    if StartsWith(learner, "teacher") then LoneTeacher
    else if StartsWith(learner, "independent") then LoneStudent
    else if StartsWith(learner, "baseline") then Paired(AdviseAtFirst)
    else if StartsWith(learner, "cbaseline") then Paired(AdviseAtFirstCorrect)
    else if StartsWith(learner, "advise") then WithNumber(learner, 6, n => AdviseImportantStates(n))
    else if StartsWith(learner, "correct") then WithNumber(learner, 7, n => CorrectImportantMistakes(n))
    else if StartsWith(learner, "attcorrect") then AttCorrect(learner)
    else if StartsWith(learner, "dcorrect") then WithNumber(learner, 8, n => CorrectImportantMistakesDiffStudent(n))
    else if StartsWith(learner, "predict") then WithNumber(learner, 7, n => PredictImportantMistakes(n))
    else if StartsWith(learner, "random") then WithNumber(learner, 6, n => AdviseRandom(n))
    else if StartsWith(learner, "crandom") then WithNumber(learner, 7, n => CorrectMistakesRandomly(n))
    else if StartsWith(learner, "stuunc") then WithNumber(learner, 6, n => StudentUncertaintyAdvice(n))
    else if StartsWith(learner, "cstuunc") then WithNumber(learner, 7, n => StudentUncertaintyAndMistakeAdvice(n))
    else if StartsWith(learner, "ctstuunc") then WithNumber(learner, 8, n => StudentUncertaintyAndMistakeAdviceTop2(n))
    else if StartsWith(learner, "avgcstuunc") then Paired(StudentAvgUncertaintyAndMistakeAdvice)
    else if StartsWith(learner, "cstuimp") then WithNumber(learner, 7, n => StudentImportanceAndMistakeAdvice(n))
    else if StartsWith(learner, "askcstuunc") then WithNumber(learner, 10, n => CorrectImportantMistakes(ASK_THRESHOLD))
    else Null
  }

  // Facts about the dispatch.

  /** `create` returns null exactly for a token that starts with none of the prefixes. */
  lemma CreateNullIff(learner: string)
    ensures Create(learner) == Null <==> forall i :: 0 <= i < |PREFIXES| ==> !StartsWith(learner, PREFIXES[i])
  {
    var ps := PREFIXES;
    assert ps[0] == "teacher" && ps[1] == "independent";
    assert ps[2] == "baseline" && ps[3] == "cbaseline" && ps[4] == "advise" && ps[5] == "correct";
    assert ps[6] == "attcorrect" && ps[7] == "dcorrect" && ps[8] == "predict" && ps[9] == "random";
    assert ps[10] == "crandom" && ps[11] == "stuunc" && ps[12] == "cstuunc" && ps[13] == "ctstuunc";
    assert ps[14] == "avgcstuunc" && ps[15] == "cstuimp" && ps[16] == "askcstuunc";
  }

  /** A prefix followed by a number reads the number back after the prefix. */
  lemma SuffixParses(prefix: string, n: nat)
    requires n <= INT_MAX
    ensures StartsWith(prefix + ShowNat(n), prefix)
    ensures (prefix + ShowNat(n))[|prefix|..] == ShowNat(n) && ParseInt(ShowNat(n)) == Some(n)
  {
    ParseShowNat(n);
    assert (prefix + ShowNat(n))[..|prefix|] == prefix;
  }

  /** An `advise` token followed by a number. */
  lemma CreateAdvise(n: nat)
    requires n <= INT_MAX
    ensures Create("advise" + ShowNat(n)) == Paired(AdviseImportantStates(n))
  {
    var t := "advise" + ShowNat(n);
    SuffixParses("advise", n);
    NotStartsWith(t, "teacher", 0); NotStartsWith(t, "independent", 0);
    NotStartsWith(t, "baseline", 0); NotStartsWith(t, "cbaseline", 0);
  }

  /** A `correct` token followed by a number. */
  lemma CreateCorrect(n: nat)
    requires n <= INT_MAX
    ensures Create("correct" + ShowNat(n)) == Paired(CorrectImportantMistakes(n))
  {
    var t := "correct" + ShowNat(n);
    SuffixParses("correct", n);
    NotStartsWith(t, "teacher", 0); NotStartsWith(t, "independent", 0);
    NotStartsWith(t, "baseline", 0); NotStartsWith(t, "cbaseline", 1);
    NotStartsWith(t, "advise", 0);
  }

  /** A `dcorrect` token followed by a number. */
  lemma CreateDCorrect(n: nat)
    requires n <= INT_MAX
    ensures Create("dcorrect" + ShowNat(n)) == Paired(CorrectImportantMistakesDiffStudent(n))
  {
    var t := "dcorrect" + ShowNat(n);
    SuffixParses("dcorrect", n);
    NotStartsWith(t, "teacher", 0); NotStartsWith(t, "independent", 0);
    NotStartsWith(t, "baseline", 0); NotStartsWith(t, "cbaseline", 0);
    NotStartsWith(t, "advise", 0); NotStartsWith(t, "correct", 0);
    NotStartsWith(t, "attcorrect", 0);
  }

  /** A `predict` token followed by a number. */
  lemma CreatePredict(n: nat)
    requires n <= INT_MAX
    ensures Create("predict" + ShowNat(n)) == Paired(PredictImportantMistakes(n))
  {
    var t := "predict" + ShowNat(n);
    SuffixParses("predict", n);
    NotStartsWith(t, "teacher", 0); NotStartsWith(t, "independent", 0);
    NotStartsWith(t, "baseline", 0); NotStartsWith(t, "cbaseline", 0);
    NotStartsWith(t, "advise", 0); NotStartsWith(t, "correct", 0);
    NotStartsWith(t, "attcorrect", 0); NotStartsWith(t, "dcorrect", 0);
  }

  /** A `random` token followed by a number. */
  lemma CreateRandom(n: nat)
    requires n <= INT_MAX
    ensures Create("random" + ShowNat(n)) == Paired(AdviseRandom(n))
  {
    var t := "random" + ShowNat(n);
    SuffixParses("random", n);
    NotStartsWith(t, "teacher", 0); NotStartsWith(t, "independent", 0);
    NotStartsWith(t, "baseline", 0); NotStartsWith(t, "cbaseline", 0);
    NotStartsWith(t, "advise", 0); NotStartsWith(t, "correct", 0);
    NotStartsWith(t, "attcorrect", 0); NotStartsWith(t, "dcorrect", 0);
    NotStartsWith(t, "predict", 0);
  }

  /** A `crandom` token followed by a number. */
  lemma CreateCRandom(n: nat)
    requires n <= INT_MAX
    ensures Create("crandom" + ShowNat(n)) == Paired(CorrectMistakesRandomly(n))
  {
    var t := "crandom" + ShowNat(n);
    SuffixParses("crandom", n);
    NotStartsWith(t, "teacher", 0); NotStartsWith(t, "independent", 0);
    NotStartsWith(t, "baseline", 0); NotStartsWith(t, "cbaseline", 1);
    NotStartsWith(t, "advise", 0); NotStartsWith(t, "correct", 1);
    NotStartsWith(t, "attcorrect", 0); NotStartsWith(t, "dcorrect", 0);
    NotStartsWith(t, "predict", 0); NotStartsWith(t, "random", 0);
  }

  /** A `stuunc` token followed by a number. */
  lemma CreateStuUnc(n: nat)
    requires n <= INT_MAX
    ensures Create("stuunc" + ShowNat(n)) == Paired(StudentUncertaintyAdvice(n))
  {
    var t := "stuunc" + ShowNat(n);
    SuffixParses("stuunc", n);
    NotStartsWith(t, "teacher", 0); NotStartsWith(t, "independent", 0);
    NotStartsWith(t, "baseline", 0); NotStartsWith(t, "cbaseline", 0);
    NotStartsWith(t, "advise", 0); NotStartsWith(t, "correct", 0);
    NotStartsWith(t, "attcorrect", 0); NotStartsWith(t, "dcorrect", 0);
    NotStartsWith(t, "predict", 0); NotStartsWith(t, "random", 0); NotStartsWith(t, "crandom", 0);
  }

  /** A `cstuunc` token followed by a number. */
  lemma CreateCStuUnc(n: nat)
    requires n <= INT_MAX
    ensures Create("cstuunc" + ShowNat(n)) == Paired(StudentUncertaintyAndMistakeAdvice(n))
  {
    var t := "cstuunc" + ShowNat(n);
    SuffixParses("cstuunc", n);
    NotStartsWith(t, "teacher", 0); NotStartsWith(t, "independent", 0);
    NotStartsWith(t, "baseline", 0); NotStartsWith(t, "cbaseline", 1);
    NotStartsWith(t, "advise", 0); NotStartsWith(t, "correct", 1);
    NotStartsWith(t, "attcorrect", 0); NotStartsWith(t, "dcorrect", 0);
    NotStartsWith(t, "predict", 0); NotStartsWith(t, "random", 0); NotStartsWith(t, "crandom", 1);
    NotStartsWith(t, "stuunc", 0);
  }

  /** A `ctstuunc` token followed by a number. */
  lemma CreateCtStuUnc(n: nat)
    requires n <= INT_MAX
    ensures Create("ctstuunc" + ShowNat(n)) == Paired(StudentUncertaintyAndMistakeAdviceTop2(n))
  {
    var t := "ctstuunc" + ShowNat(n);
    SuffixParses("ctstuunc", n);
    NotStartsWith(t, "teacher", 0); NotStartsWith(t, "independent", 0);
    NotStartsWith(t, "baseline", 0); NotStartsWith(t, "cbaseline", 1);
    NotStartsWith(t, "advise", 0); NotStartsWith(t, "correct", 1);
    NotStartsWith(t, "attcorrect", 0); NotStartsWith(t, "dcorrect", 0);
    NotStartsWith(t, "predict", 0); NotStartsWith(t, "random", 0); NotStartsWith(t, "crandom", 1);
    NotStartsWith(t, "stuunc", 0); NotStartsWith(t, "cstuunc", 1);
  }

  /** A `cstuimp` token followed by a number. */
  lemma CreateCStuImp(n: nat)
    requires n <= INT_MAX
    ensures Create("cstuimp" + ShowNat(n)) == Paired(StudentImportanceAndMistakeAdvice(n))
  {
    var t := "cstuimp" + ShowNat(n);
    SuffixParses("cstuimp", n);
    NotStartsWith(t, "teacher", 0); NotStartsWith(t, "independent", 0);
    NotStartsWith(t, "baseline", 0); NotStartsWith(t, "cbaseline", 1);
    NotStartsWith(t, "advise", 0); NotStartsWith(t, "correct", 1);
    NotStartsWith(t, "attcorrect", 0); NotStartsWith(t, "dcorrect", 0);
    NotStartsWith(t, "predict", 0); NotStartsWith(t, "random", 0); NotStartsWith(t, "crandom", 1);
    NotStartsWith(t, "stuunc", 0); NotStartsWith(t, "cstuunc", 4); NotStartsWith(t, "ctstuunc", 1);
    NotStartsWith(t, "avgcstuunc", 0);
  }

  /** `attcorrect` reads `att` from the middle and the threshold from the last three
      characters. */
  lemma CreateAttCorrect(att: nat, threshold: nat)
    requires att <= INT_MAX && 100 <= threshold <= 999
    ensures Create("attcorrect" + ShowNat(att) + ShowNat(threshold)) ==
      Paired(CorrectImportantMistakesAttention(att, threshold))
  {
    var token := "attcorrect" + ShowNat(att) + ShowNat(threshold);
    ShowNatThreeDigits(threshold);
    ParseShowNat(att);
    ParseShowNat(threshold);
    NotStartsWith(token, "teacher", 0); NotStartsWith(token, "independent", 0);
    NotStartsWith(token, "baseline", 0); NotStartsWith(token, "cbaseline", 0);
    NotStartsWith(token, "advise", 1); NotStartsWith(token, "correct", 0);
    assert token[..10] == "attcorrect";
    assert token[10..|token| - 3] == ShowNat(att);
    assert token[|token| - 3..] == ShowNat(threshold);
  }

  /** `askcstuunc<N>` parses N but always yields the teaching strategy with threshold 200; a
      token with no number still throws. */
  lemma CreateAskIgnoresNumber(n: nat)
    requires n <= INT_MAX
    ensures Create("askcstuunc" + ShowNat(n)) == Paired(CorrectImportantMistakes(ASK_THRESHOLD))
    ensures Create("askcstuunc") == Thrown
  {
    var t := "askcstuunc" + ShowNat(n);
    SuffixParses("askcstuunc", n);
    NotStartsWith(t, "teacher", 0); NotStartsWith(t, "independent", 0);
    NotStartsWith(t, "baseline", 0); NotStartsWith(t, "cbaseline", 0);
    NotStartsWith(t, "advise", 1); NotStartsWith(t, "correct", 0);
    NotStartsWith(t, "attcorrect", 1); NotStartsWith(t, "dcorrect", 0);
    NotStartsWith(t, "predict", 0); NotStartsWith(t, "random", 0); NotStartsWith(t, "crandom", 0);
    NotStartsWith(t, "stuunc", 0); NotStartsWith(t, "cstuunc", 0); NotStartsWith(t, "ctstuunc", 0);
    NotStartsWith(t, "avgcstuunc", 1); NotStartsWith(t, "cstuimp", 0);
    var u := "askcstuunc";
    NotStartsWith(u, "teacher", 0); NotStartsWith(u, "independent", 0);
    NotStartsWith(u, "baseline", 0); NotStartsWith(u, "cbaseline", 0);
    NotStartsWith(u, "advise", 1); NotStartsWith(u, "correct", 0);
    NotStartsWith(u, "attcorrect", 1); NotStartsWith(u, "dcorrect", 0);
    NotStartsWith(u, "predict", 0); NotStartsWith(u, "random", 0); NotStartsWith(u, "crandom", 0);
    NotStartsWith(u, "stuunc", 0); NotStartsWith(u, "cstuunc", 0); NotStartsWith(u, "ctstuunc", 0);
    NotStartsWith(u, "avgcstuunc", 1); NotStartsWith(u, "cstuimp", 0);
    assert u[10..] == "";
  }

  /** A missing number throws, and so does an `attcorrect` token too short to hold the
      three-digit threshold. */
  lemma CreateThrows()
    ensures Create("advise") == Thrown && Create("correct") == Thrown
    ensures Create("attcorrect12") == Thrown
  {
    assert "advise"[6..] == "";
    NotStartsWith("correct", "teacher", 0);
    assert "correct"[7..] == "";
    var token := "attcorrect12";
    NotStartsWith(token, "teacher", 0); NotStartsWith(token, "independent", 0);
    NotStartsWith(token, "baseline", 0); NotStartsWith(token, "cbaseline", 0);
    NotStartsWith(token, "advise", 1); NotStartsWith(token, "correct", 0);
  }

  // The learning curve.

  /** Slot d summed over the records. */
  function Total(records: seq<seq<real>>, d: nat): real
    requires forall y :: 0 <= y < |records| ==> d < |records[y]|
  {
    if |records| == 0 then 0.0 else Total(records[..|records| - 1], d) + records[|records| - 1][d]
  }

  /** Each curve point's data: the first `width` slots of the records, summed slot by slot. */
  function Summed(records: seq<seq<real>>, width: nat): (r: seq<real>)
    requires forall y :: 0 <= y < |records| ==> width <= |records[y]|
    ensures |r| == width
  {
    seq(width, d requires 0 <= d < width => Total(records, d))
  }

  /** The advice slot of summed `Student` records is the total advice over the episodes. */
  lemma {:induction false} TotalAdvice(records: seq<seq<real>>, counts: seq<int>, extras: seq<seq<real>>)
    requires |records| == |counts| == |extras|
    requires forall y :: 0 <= y < |records| ==> 0 < |records[y]| && records[y] == Students.EpisodeRecord(counts[y], extras[y])
    ensures Total(records, 0) == Sum(seq(|counts|, y requires 0 <= y < |counts| => counts[y] as real))
  {
    var n := |records|;
    if n > 0 {
      var c := seq(n, y requires 0 <= y < n => counts[y] as real);
      var c' := seq(n - 1, y requires 0 <= y < n - 1 => counts[..n - 1][y] as real);
      TotalAdvice(records[..n - 1], counts[..n - 1], extras[..n - 1]);
      assert c[..n - 1] == c';
      assert records[n - 1][0] == c[n - 1];
    }
  }

  /** One more record adds its slots to the sum. */
  lemma SummedSnoc(records: seq<seq<real>>, record: seq<real>, width: nat)
    requires forall y :: 0 <= y < |records| ==> width <= |records[y]|
    requires width <= |record|
    ensures Summed(records + [record], width) == Plus(Summed(records, width), record[..width])
  {
    assert (records + [record])[..|records|] == records;
  }

  /** `data[d] += episodeData[d]` for every slot of data; a record shorter than data throws
      ArrayIndexOutOfBoundsException after adding the slots it has. */
  method AddRecord(data: array<real>, record: seq<real>) returns (thrown: bool)
    modifies data
    ensures thrown <==> |record| < data.Length
    ensures forall d :: 0 <= d < data.Length ==>
      data[d] == old(data[d]) + (if d < |record| then record[d] else 0.0)
  {
    var d := 0;
    while d < data.Length
      invariant 0 <= d <= data.Length && d <= |record|
      invariant forall j :: 0 <= j < d ==> data[j] == old(data[j]) + record[j]
      invariant forall j :: d <= j < data.Length ==> data[j] == old(data[j])
    {
      if d >= |record| {
        return true;
      }
      data[d] := data[d] + record[d];
      d := d + 1;
    }
    return false;
  }

  /** A curve point's data: a zeroed array as wide as the first record, with every training
      episode's record added in turn. */
  method CurvePoint(records: seq<seq<real>>, width: nat) returns (data: array<real>, thrown: bool)
    ensures fresh(data) && data.Length == width
    ensures thrown <==> exists y :: 0 <= y < |records| && |records[y]| < width
    ensures !thrown ==> data[..] == Summed(records, width)
  {
    data := new real[width](_ => 0.0);
    assert data[..] == Summed([], width);
    var y := 0;
    while y < |records|
      invariant 0 <= y <= |records|
      invariant forall j :: 0 <= j < y ==> width <= |records[j]|
      invariant data[..] == Summed(records[..y], width)
    {
      ghost var before := data[..];
      thrown := AddRecord(data, records[y]);
      if thrown {
        return;
      }
      SummedSnoc(records[..y], records[y], width);
      assert records[..y + 1] == records[..y] + [records[y]];
      assert data[..] == Plus(before, records[y][..width]);
      y := y + 1;
    }
    assert records[..y] == records;
    thrown := false;
  }

  // The best teacher.

  /** `findBestTeacher`'s scan over the scores of the independent learners: the first index
      of the largest score, since only a strictly larger score replaces the best so far. */
  method FindBestTeacher(scores: seq<real>) returns (best: nat)
    ensures |scores| == 0 ==> best == 0
    ensures |scores| > 0 ==> best == FirstMaxIndex(scores)
    ensures |scores| > 0 ==> best < |scores|
    ensures |scores| > 0 ==> forall i :: 0 <= i < |scores| ==> scores[i] <= scores[best]
    ensures |scores| > 0 ==> forall i :: 0 <= i < best ==> scores[i] < scores[best]
  {
    best := 0;
    var i := 0;
    while i < |scores|
      invariant 0 <= i <= |scores|
      invariant i == 0 ==> best == 0
      invariant i > 0 ==> best == FirstMaxIndex(scores[..i])
    {
      assert scores[..i + 1][..i] == scores[..i];
      if scores[i] > scores[best] {
        best := i;
      }
      i := i + 1;
    }
    if |scores| > 0 {
      assert scores[..i] == scores;
      FirstMaxIndexIsFirstMax(scores);
    }
  }

  // The training episode.

  /** One turn of `episode`'s loop: the agent's move goes to the game, which here has already
      moved on to `o`, and the agent processes the new decision point. */
  method Turn(pacman: SarsaPacMan, o: Observation, d: Draws) returns (thrown: bool)
    requires pacman.Valid() && Ready(pacman.State()) && WellFormed(o, pacman.size)
    requires !o.over ==> d.pick < |o.moves|
    modifies pacman, pacman.q, pacman.q.weights, pacman.q.eligibility, pacman.qdiffs, pacman.advisedStates
    ensures pacman.Valid() && Ready(pacman.State())
    ensures pacman.State().testMode == old(pacman.State().testMode)
    ensures pacman.q == old(pacman.q) && pacman.q.eligibility == old(pacman.q.eligibility)
    ensures pacman.qdiffs == old(pacman.qdiffs) && pacman.advisedStates == old(pacman.advisedStates)
    ensures pacman.q.weights == old(pacman.q.weights) || fresh(pacman.q.weights)
    ensures (pacman.State(), thrown) == Processed(old(pacman.State()), o, d.explore, d.pick, d.roll)
  {
    var m := pacman.GetMove();
    ghost var before := pacman.State();
    thrown := pacman.ProcessStep(o, d.explore, d.pick, d.roll);
    ProcessedFacts(before, o, d.explore, d.pick, d.roll);
  }

  /** `episode(pacman)` for a lone agent: a new game started in training, then moves and steps
      until game over or EPISODE_STEPS steps; `length` is the number of steps taken. The move
      is handed to the game, which here is the given sequence of decision points. `thrown`
      reports the exception of the agent's max-update sweep, which ends the episode. */
  method Episode(pacman: SarsaPacMan, at: nat -> Observation, draws: nat -> Draws) returns (length: nat, thrown: bool)
    requires pacman.Valid() && Playable(at, draws, pacman.size) && !at(0).over
    modifies pacman, pacman.q, pacman.q.weights, pacman.q.eligibility, pacman.qdiffs, pacman.advisedStates
    ensures pacman.Valid() && !pacman.State().testMode
    ensures !thrown ==> Ran(at, length, EPISODE_STEPS) && length == Steps(at, EPISODE_STEPS)
    ensures thrown ==> length < EPISODE_STEPS && Running(at, length + 1)
  {
    pacman.StartEpisode(at(0), false, draws(0).explore, draws(0).pick);
    StartedResets(old(pacman.State()), false, at(0), draws(0).explore, draws(0).pick);
    length, thrown := 0, false;
    while !at(length).over && length < EPISODE_STEPS
      invariant pacman.Valid() && Ready(pacman.State()) && !pacman.State().testMode
      invariant pacman.q == old(pacman.q) && pacman.q.eligibility == old(pacman.q.eligibility)
      invariant pacman.qdiffs == old(pacman.qdiffs) && fresh(pacman.advisedStates)
      invariant pacman.q.weights == old(pacman.q.weights) || fresh(pacman.q.weights)
      invariant length <= EPISODE_STEPS && Running(at, length)
      decreases EPISODE_STEPS - length
    {
      RunningOn(at, length);
      thrown := Turn(pacman, at(length + 1), draws(length + 1));
      if thrown {
        return;
      }
      length := length + 1;
    }
    StepsExactly(at, length, EPISODE_STEPS);
  }
}
