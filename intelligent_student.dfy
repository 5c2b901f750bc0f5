/** `IntelligentStudent`: a student-teacher pair in which the student first has to catch the
    teacher's attention. At every decision point an attention mode decides whether the student
    asks; only then, in training and while the strategy has budget, may the teacher advise. Along
    the way the pair logs labelled training examples for an importance classifier, and records
    the feature vector of every move it plays. The classifier itself (training and prediction),
    and the two hooks of the strategy base class that label refused opportunities, are outside
    the model: their answers arrive as an `Oracle`. */
module IntelligentStudents {
  import opened Vectors
  import opened Text
  import opened Game
  import opened SarsaModel
  import opened Sarsa
  import opened Teaching
  import opened Students

  /** The attention mode whose suffix holds the amount of advice to take before predicting. */
  const PREDICTION: string := "importancePrediction"

  /** Ordinary steps stop logging "−1" examples once this many examples exist. */
  const EXAMPLE_CAP: int := 10000

  /** Refused teacher-initiated opportunities stop being logged once this many examples exist. */
  const REFUSAL_CAP: int := 1000

  /** The classifier is retrained only when more than this many examples arrived since the
      previous episode started. */
  const RETRAIN_MIN: int := 10

  /** A training example of the importance classifier: the features of the student's choice,
      labelled "+1" (important) or "−1". */
  datatype Example = Example(features: seq<real>, important: bool)

  /** What the model does not compute: the classifier's prediction for the current state
      (`predictImportance`), the answer of the `unfamiliarNN`/`unfamiliarPW` distance tests on a
      non-empty visited list (the distance to the nearest visited vector against a coefficient
      times an average that stays 0.0, so in effect whether that distance is positive), and the
      strategy's `lastStateImporant` and `lastActionCorrect`. */
  datatype Oracle = Oracle(predicted: bool, unfamiliar: bool, important: bool, correct: bool)

  /** The whole state: the pair (both agents, the budget, the mode and the advice of this
      episode), the attention mode with its prediction threshold, and the counters and logs. */
  datatype Tutored = Tutored(agents: Pair, mode: string, startPredictions: int, ledger: Ledger)

  /** The learner's own counters and logs: the advice of all episodes, the requests for
      attention and the steps of this episode, the episode number, whether a teacher-initiated
      session is in progress, whether the classifier was ever trained, its examples with the
      baseline for counting new ones, and the features of every move played. */
  datatype Ledger = Ledger(
    totalAdvice: int, attentionCount: int, episodeLength: int, episode: int,
    initiated: bool, trained: bool, trainData: seq<Example>, priorTrainDataSize: int,
    visited: seq<seq<real>>)

  /** Both agents keep their invariant; the advice of an episode never exceeds the requests for
      attention, which never exceed the steps, nor the advice of all episodes; the baseline for
      counting new examples never runs ahead of the examples. */
  ghost predicate TutoredInv(s: Tutored)
  {
    PairInv(s.agents) &&
    0 <= s.agents.adviceCount <= s.ledger.attentionCount <= s.ledger.episodeLength &&
    s.agents.adviceCount <= s.ledger.totalAdvice &&
    0 <= s.ledger.priorTrainDataSize <= |s.ledger.trainData|
  }

  /** The threshold `startPredictions` the constructor parses from the mode: the decimal suffix
      after "importancePrediction", or 0 (the field's default) for any other mode. `None` stands
      for the NumberFormatException of a malformed suffix. */
  function PredictionStart(mode: string): Option<int>
  {
    if StartsWith(mode, PREDICTION) then ParseInt(mode[|PREDICTION|..]) else Some(0)
  }

  /** `new IntelligentStudent(teacher, student, strategy, initiator, mode)`: nothing counted,
      logged or trained yet, not in test mode. */
  function NewTutored(student: Agent, teacher: Agent, left: int, mode: string): Tutored
    requires PredictionStart(mode).Some?
  {
    Tutored(Pair(student, teacher, left, false, 0), mode, PredictionStart(mode).value,
            Ledger(0, 0, 0, 0, false, false, [], 0, []))
  }

  /** The retraining test of `startEpisode`: some advice was ever given, more than ten examples
      arrived since the previous start, and the mode predicts importance. */
  predicate Retraining(totalAdvice: int, newExamples: int, mode: string)
  {
    totalAdvice > 0 && newExamples > RETRAIN_MIN && StartsWith(mode, PREDICTION)
  }

  /** The retraining test on a whole state. */
  predicate Retrains(s: Tutored)
  {
    Retraining(s.ledger.totalAdvice, |s.ledger.trainData| - s.ledger.priorTrainDataSize, s.mode)
  }

  /** `startEpisode(game, testMode)`: the retraining test against the old baseline, the new
      baseline, the episode's counters zeroed, the agents started exactly as in `Student`, and
      one more episode. */
  function TutoredStarted(s: Tutored, testMode: bool, o: Observation, ds: Draws, dt: Draws): Tutored
    requires PairInv(s.agents) && WellFormed(o, |s.agents.student.p.weights|) && ds.pick < |o.moves| && dt.pick < |o.moves|
  {
    Rebooked(s.(agents := PairStarted(s.agents, testMode, o, ds, dt)))
  }

  /** The learner's own bookkeeping at the start of an episode: the retraining test against the
      old baseline, the new baseline, the episode's counters zeroed and one more episode. */
  function Rebooked(s: Tutored): Tutored
  {
    s.(ledger := s.ledger.(trained := s.ledger.trained || Retrains(s), priorTrainDataSize := |s.ledger.trainData|,
                           attentionCount := 0, episodeLength := 0, episode := s.ledger.episode + 1))
  }

  /** The features the student's extractor gives move m at the current decision point. */
  function Features(s: Tutored, m: Move): seq<real>
    requires PairInv(s.agents) && m in s.agents.student.actions
  {
    FeaturesOf(s.agents.student.actions, s.agents.student.features, m)
  }

  /** `predictedImportanceAsk`: ask while less advice than the threshold was ever given; after
      that, ask as the classifier predicts, but only from the second episode on, in training and
      once trained. */
  predicate PredictedAsk(s: Tutored, predicted: bool)
  {
    s.ledger.totalAdvice < s.startPredictions || (s.ledger.episode > 1 && !s.agents.testMode && s.ledger.trained && predicted)
  }

  /** `askForAttention(game, choice)`: the dispatch on the attention mode. "uncertaintyThreshold"
      compares with the field `uncertaintyThreshold`, which nothing assigns, so with 0. The
      unfamiliarity modes ask at once while nothing was visited. */
  predicate AttentionAsked(s: Tutored, oracle: Oracle)
    requires PairInv(s.agents) && Ready(s.agents.student)
  {
    var st := s.agents.student;
    if s.mode == "always" then true
    else if s.mode == "avgCertainty" then Spread(st.qvalues) > Sum(st.qdiffs) / QDIFFS as real
    else if s.mode == "uncertaintyThreshold" then Spread(st.qvalues) > 0.0
    else if StartsWith(s.mode, PREDICTION) then PredictedAsk(s, oracle.predicted)
    else if StartsWith(s.mode, "unfamiliarNN") || StartsWith(s.mode, "unfamiliarPW") then
      |s.ledger.visited| == 0 || oracle.unfamiliar
    else false
  }

  /** The student's choice: the move it acts on. */
  function Chosen(s: Tutored): Move
    requires Ready(s.agents.student)
  {
    s.agents.student.actions[s.agents.student.lastActionIndex]
  }

  /** The teacher's move at the same decision point. */
  function Offered(s: Tutored): Move
    requires Ready(s.agents.teacher)
  {
    s.agents.teacher.actions[s.agents.teacher.lastActionIndex]
  }

  /** Whether the strategy advises the initiator at this decision point, exactly as in
      `Student`: the teacher's or the student's agent judges the choice against the advice. */
  predicate Gives(s: Tutored, t: Teaching, initiator: string, draw: real)
    requires PairInv(s.agents) && Playing(s.agents) && Advising(s.agents) && Usable(t)
  {
    (initiator == "teacher" && Decide(t, s.agents.teacher, Chosen(s), Offered(s), draw).advise) ||
    (initiator == "student" && Decide(t, s.agents.student, Chosen(s), Offered(s), draw).advise)
  }

  /** `recordAdvisedState` on the student after it took the advice m. */
  function Noted(a: Pair, m: Move): Pair
    requires Inv(a.student) && m in a.student.actions
  {
    a.(student := Recorded(a.student, m))
  }

  /** The end of a step without advice: in training, while under the cap, the choice (features
      `fc`) is logged as a "−1" example. */
  function Concluded(data: seq<Example>, testMode: bool, fc: seq<real>): seq<Example>
  {
    if !testMode && |data| < EXAMPLE_CAP then data + [Example(fc, false)] else data
  }

  /** The attention test passed in training with budget left. The test follows the step's
      count, which none of the modes reads. */
  predicate Asks(s: Tutored, oracle: Oracle)
    requires PairInv(s.agents) && Ready(s.agents.student)
  {
    Advising(s.agents) && AttentionAsked(s, oracle)
  }

  /** The pair after a step: with attention it moves exactly as `Student`'s does and, on
      advice, the advised state goes on record; otherwise it is untouched. */
  function StepPair(s: Tutored, t: Teaching, initiator: string, draw: real, asked: bool): Pair
    requires PairInv(s.agents) && Playing(s.agents) && Usable(t)
    requires asked ==> Advising(s.agents)
  {
    if asked then
      var moved := PairMoved(s.agents, t, initiator, draw);
      PairMovedFacts(s.agents, t, initiator, draw);
      if Gives(s, t, initiator, draw) then Noted(moved.0, moved.1) else moved.0
    else s.agents
  }

  /** Whether a session is in progress after a step: advice to a teacher-initiated opportunity
      opens one, a refusal ends it, anything else leaves it. */
  function StepInitiated(initiated: bool, initiator: string, asked: bool, given: bool): bool
  {
    if asked && initiator == "teacher" then given
    else if asked && initiator == "student" && !given then false
    else initiated
  }

  /** The examples an opportunity logs for the choice (features `fc`). A teacher-initiated one
      logs the choice as important on advice; refused, it logs the choice with the strategy's
      `lastStateImporant` while under the refusal cap. A student-initiated refusal logs it with
      `lastActionCorrect`. */
  function Opportunity(data: seq<Example>, initiator: string, given: bool, fc: seq<real>, oracle: Oracle): seq<Example>
  {
    if initiator == "teacher" then
      if given then data + [Example(fc, true)]
      else if |data| < REFUSAL_CAP then data + [Example(fc, oracle.important)] else data
    else if initiator == "student" && !given then data + [Example(fc, oracle.correct)]
    else data
  }

  /** The examples after a step: the opportunity's, if attention was asked for, and then, for a
      step that ends without advice, the conclusion's. */
  function StepExamples(data: seq<Example>, testMode: bool, initiator: string, asked: bool, given: bool, fc: seq<real>, oracle: Oracle): seq<Example>
  {
    var mid := if asked then Opportunity(data, initiator, given, fc, oracle) else data;
    if given then mid else Concluded(mid, testMode, fc)
  }

  /** The learner's own bookkeeping of a step, given whether attention was asked for, whether
      advice was given, and the features of the choice (`fc`) and of the move played (`fm`). */
  function Entered(l: Ledger, testMode: bool, initiator: string, asked: bool, given: bool, fc: seq<real>, fm: seq<real>, oracle: Oracle): Ledger
  {
    l.(episodeLength := l.episodeLength + 1,
                    attentionCount := if asked then l.attentionCount + 1 else l.attentionCount,
                    totalAdvice := if given then l.totalAdvice + 1 else l.totalAdvice,
                    initiated := StepInitiated(l.initiated, initiator, asked, given),
                    trainData := StepExamples(l.trainData, testMode, initiator, asked, given, fc, oracle),
                    visited := l.visited + [fm])
  }

  /** `getMove`: one more step and the attention test; in training with budget and attention,
      one more request and the initiator's opportunity. The move played is the advice when it is
      given and the student's choice otherwise; its features join the visited log. */
  function TutoredMoved(s: Tutored, t: Teaching, initiator: string, draw: real, oracle: Oracle): (Tutored, Move)
    requires TutoredInv(s) && Playing(s.agents) && Usable(t)
  {
    var asked := Asks(s, oracle);
    var given := asked && Gives(s, t, initiator, draw);
    var m := if given then Offered(s) else Chosen(s);
    (s.(agents := StepPair(s, t, initiator, draw, asked),
        ledger := Entered(s.ledger, s.agents.testMode, initiator, asked, given, Features(s, Chosen(s)), Features(s, m), oracle)), m)
  }

  /** `processStep(game)`: as for `Student`. */
  function TutoredProcessed(s: Tutored, o: Observation, ds: Draws, dt: Draws): (Tutored, bool)
    requires PairInv(s.agents) && Playing(s.agents) && WellFormed(o, |s.agents.student.p.weights|)
    requires !o.over ==> ds.pick < |o.moves| && dt.pick < |o.moves|
  {
    var (a, thrown) := PairProcessed(s.agents, o, ds, dt);
    (s.(agents := a), thrown)
  }

  /** `episodeData` as the copy loop means it: advice, attention requests and steps, then the
      strategy's data. */
  function TutoredRecord(adviceCount: int, attentionCount: int, episodeLength: int, extra: seq<real>): (r: seq<real>)
    ensures |r| == |extra| + 3
    ensures r[0] == adviceCount as real && r[1] == attentionCount as real && r[2] == episodeLength as real
    ensures forall d :: 0 <= d < |extra| ==> r[d + 3] == extra[d]
  {
    [adviceCount as real, attentionCount as real, episodeLength as real] + extra
  }

  /** `episodeData` as written: the loop copies extra[d] into slot d + 2, so a non-empty extra
      overwrites the step count and the last slot keeps its initial 0. */
  function WrittenRecord(adviceCount: int, attentionCount: int, episodeLength: int, extra: seq<real>): (r: seq<real>)
    ensures |r| == |extra| + 3
    ensures r[0] == adviceCount as real && r[1] == attentionCount as real
    ensures forall d :: 0 <= d < |extra| ==> r[d + 2] == extra[d]
    ensures |extra| == 0 ==> r[2] == episodeLength as real
    ensures |extra| > 0 ==> r[|extra| + 2] == 0.0
  {
    if |extra| == 0 then [adviceCount as real, attentionCount as real, episodeLength as real]
    else [adviceCount as real, attentionCount as real] + extra + [0.0]
  }

  // Facts about the attention protocol.

  /** The constructor's threshold is the number written after "importancePrediction"; any other
      mode leaves it at 0, and the bare prefix makes the constructor throw. */
  lemma PredictionStartParses(n: nat, mode: string)
    requires n <= INT_MAX
    ensures PredictionStart(PREDICTION + ShowNat(n)) == Some(n)
    ensures PredictionStart(PREDICTION) == None
    ensures !StartsWith(mode, PREDICTION) ==> PredictionStart(mode) == Some(0)
  {
    var m := PREDICTION + ShowNat(n);
    assert m[..|PREDICTION|] == PREDICTION;
    assert m[|PREDICTION|..] == ShowNat(n);
    ParseShowNat(n);
    assert PREDICTION[..|PREDICTION|] == PREDICTION;
  }

  /** A started episode keeps the invariant with both agents ready to play, retrains exactly
      when some advice was ever given, more than ten examples arrived and the mode predicts
      importance, and takes the example count as its new baseline, so that starting again with
      no new examples never retrains; the episode's counters start from zero, and examples,
      visited states and the advice total stay. */
  lemma TutoredStartedFacts(s: Tutored, testMode: bool, o: Observation, ds: Draws, dt: Draws)
    requires TutoredInv(s) && WellFormed(o, |s.agents.student.p.weights|) && ds.pick < |o.moves| && dt.pick < |o.moves|
    ensures var r := TutoredStarted(s, testMode, o, ds, dt);
      TutoredInv(r) && Playing(r.agents) && r.agents.adviceCount == 0 && r.agents.testMode == testMode &&
      (r.ledger.trained <==> s.ledger.trained || (s.ledger.totalAdvice > 0 && |s.ledger.trainData| - s.ledger.priorTrainDataSize > RETRAIN_MIN && StartsWith(s.mode, PREDICTION))) &&
      r.ledger.priorTrainDataSize == |s.ledger.trainData| && !Retrains(r) &&
      r.ledger.attentionCount == 0 && r.ledger.episodeLength == 0 && r.ledger.episode == s.ledger.episode + 1 &&
      r.ledger.trainData == s.ledger.trainData && r.ledger.visited == s.ledger.visited && r.ledger.totalAdvice == s.ledger.totalAdvice
  {
    PairStartedFacts(s.agents, testMode, o, ds, dt);
  }

  /** The bookkeeping and the agents' start are independent: doing the bookkeeping first, as
      `startEpisode` does, gives the same state. */
  lemma StartedInOrder(s: Tutored, testMode: bool, o: Observation, ds: Draws, dt: Draws)
    requires TutoredInv(s) && WellFormed(o, |s.agents.student.p.weights|) && ds.pick < |o.moves| && dt.pick < |o.moves|
    ensures var r := TutoredStarted(s, testMode, o, ds, dt);
      TutoredInv(r) && r == Rebooked(s).(agents := PairStarted(s.agents, testMode, o, ds, dt))
  {
    PairStartedFacts(s.agents, testMode, o, ds, dt);
  }

  /** The spread modes: "uncertaintyThreshold" asks exactly when some two of the student's
      q-values differ, "avgCertainty" exactly when some two lie further apart than the average
      buffered spread; neither, nor "always", which always asks, consults the oracle. */
  lemma AskOnSpread(s: Tutored, oracle: Oracle, other: Oracle)
    requires PairInv(s.agents) && Ready(s.agents.student)
    requires s.mode == "always" || s.mode == "avgCertainty" || s.mode == "uncertaintyThreshold"
    ensures var q := s.agents.student.qvalues;
      var ask := AttentionAsked(s, oracle);
      ask == AttentionAsked(s, other) &&
      (s.mode == "always" ==> ask) &&
      (s.mode == "uncertaintyThreshold" ==>
        (ask <==> exists i, j :: 0 <= i < |q| && 0 <= j < |q| && q[i] - q[j] > 0.0)) &&
      (s.mode == "avgCertainty" ==>
        (ask <==> exists i, j :: 0 <= i < |q| && 0 <= j < |q| && q[i] - q[j] > Sum(s.agents.student.qdiffs) / QDIFFS as real))
  {
    var q := s.agents.student.qvalues;
    if s.mode == "uncertaintyThreshold" {
      SpreadAbove(q, 0.0);
    } else if s.mode == "avgCertainty" {
      SpreadAbove(q, Sum(s.agents.student.qdiffs) / QDIFFS as real);
    }
  }

  /** The prediction mode asks while the advice total is below its threshold and, beyond it,
      only as the classifier predicts, which it is asked only from the second training episode
      on once trained. */
  lemma AskOnPrediction(s: Tutored, oracle: Oracle)
    requires PairInv(s.agents) && Ready(s.agents.student) && StartsWith(s.mode, PREDICTION)
    ensures var ask := AttentionAsked(s, oracle);
      (s.ledger.totalAdvice < s.startPredictions ==> ask) &&
      (s.agents.testMode || s.ledger.episode <= 1 || !s.ledger.trained ==> (ask <==> s.ledger.totalAdvice < s.startPredictions)) &&
      (s.ledger.totalAdvice >= s.startPredictions ==> (ask <==> s.ledger.episode > 1 && !s.agents.testMode && s.ledger.trained && oracle.predicted))
  {
    assert s.mode[..|PREDICTION|] == PREDICTION;
    assert s.mode != "always" && s.mode != "avgCertainty" && s.mode != "uncertaintyThreshold";
  }

  /** A mode none of the tests recognises never asks. */
  lemma AskOnUnknown(s: Tutored, oracle: Oracle)
    requires PairInv(s.agents) && Ready(s.agents.student)
    requires s.mode != "always" && s.mode != "avgCertainty" && s.mode != "uncertaintyThreshold"
    requires !StartsWith(s.mode, PREDICTION) && !StartsWith(s.mode, "unfamiliarNN") && !StartsWith(s.mode, "unfamiliarPW")
    ensures !AttentionAsked(s, oracle)
  {
  }

  // Facts about one step.

  /** Without attention the pair is untouched and the student's choice is played and visited;
      only the step is counted. */
  lemma TutoredMovedQuiet(s: Tutored, t: Teaching, initiator: string, draw: real, oracle: Oracle)
    requires TutoredInv(s) && Playing(s.agents) && Usable(t) && !Asks(s, oracle)
    ensures var (r, m) := TutoredMoved(s, t, initiator, draw, oracle);
      TutoredInv(r) && r.agents == s.agents && m == Chosen(s) && Chosen(r) == m &&
      r.ledger.visited == s.ledger.visited + [Features(s, m)] &&
      r.ledger.attentionCount == s.ledger.attentionCount && r.ledger.totalAdvice == s.ledger.totalAdvice &&
      r.ledger.episodeLength == s.ledger.episodeLength + 1
  {
  }

  /** Advice taken: the pair moves exactly as `Student`'s does, the advice becomes the
      student's move with its state on record and its features visited, and the request and the
      advice are counted. */
  lemma TutoredMovedGiven(s: Tutored, t: Teaching, initiator: string, draw: real, oracle: Oracle)
    requires TutoredInv(s) && Playing(s.agents) && Usable(t) && Asks(s, oracle) && Gives(s, t, initiator, draw)
    ensures var (r, m) := TutoredMoved(s, t, initiator, draw, oracle);
      var moved := PairMoved(s.agents, t, initiator, draw);
      Inv(moved.0.student) && m == moved.1 && m in moved.0.student.actions && r.agents == Noted(moved.0, m) &&
      TutoredInv(r) && Playing(r.agents) && Chosen(r) == m && m == Offered(s) &&
      r.ledger.visited == s.ledger.visited + [Features(s, m)] &&
      r.agents.adviceCount == s.agents.adviceCount + 1 && r.ledger.totalAdvice == s.ledger.totalAdvice + 1 &&
      r.ledger.attentionCount == s.ledger.attentionCount + 1 && r.ledger.episodeLength == s.ledger.episodeLength + 1
  {
    PairMovedFacts(s.agents, t, initiator, draw);
    var moved := PairMoved(s.agents, t, initiator, draw);
    RecordedFacts(moved.0.student, moved.1);
  }

  /** Advice refused: the pair moves exactly as `Student`'s does, keeping the student's
      choice, which is visited; only the request is counted. */
  lemma TutoredMovedRefused(s: Tutored, t: Teaching, initiator: string, draw: real, oracle: Oracle)
    requires TutoredInv(s) && Playing(s.agents) && Usable(t) && Asks(s, oracle) && !Gives(s, t, initiator, draw)
    ensures var (r, m) := TutoredMoved(s, t, initiator, draw, oracle);
      var moved := PairMoved(s.agents, t, initiator, draw);
      m == moved.1 && r.agents == moved.0 &&
      TutoredInv(r) && Playing(r.agents) && Chosen(r) == m && m == Chosen(s) &&
      r.ledger.visited == s.ledger.visited + [Features(s, m)] &&
      r.agents.adviceCount == s.agents.adviceCount && r.ledger.totalAdvice == s.ledger.totalAdvice &&
      r.ledger.attentionCount == s.ledger.attentionCount + 1 && r.ledger.episodeLength == s.ledger.episodeLength + 1
  {
    PairMovedFacts(s.agents, t, initiator, draw);
  }

  /** The examples of a step without attention: in training and under the cap, one "−1"
      example with the features of the choice; none in test mode. The session mark stays. */
  lemma QuietExamples(s: Tutored, t: Teaching, initiator: string, draw: real, oracle: Oracle)
    requires TutoredInv(s) && Playing(s.agents) && Usable(t) && !Asks(s, oracle)
    ensures var r := TutoredMoved(s, t, initiator, draw, oracle).0;
      r.ledger.trainData == s.ledger.trainData + (if !s.agents.testMode && |s.ledger.trainData| < EXAMPLE_CAP then [Example(Features(s, Chosen(s)), false)] else []) &&
      r.ledger.initiated == s.ledger.initiated
  {
  }

  /** The examples of a teacher-initiated opportunity: advice logs the choice as important and
      opens a session; a refusal ends the session, logs the choice with `lastStateImporant`
      while under the refusal cap, and then as an ordinary "−1" step. */
  lemma TeacherExamples(s: Tutored, t: Teaching, draw: real, oracle: Oracle)
    requires TutoredInv(s) && Playing(s.agents) && Usable(t) && Asks(s, oracle)
    ensures var r := TutoredMoved(s, t, "teacher", draw, oracle).0;
      var fc := Features(s, Chosen(s));
      (Gives(s, t, "teacher", draw) ==> r.ledger.trainData == s.ledger.trainData + [Example(fc, true)] && r.ledger.initiated) &&
      (!Gives(s, t, "teacher", draw) ==>
        r.ledger.trainData == s.ledger.trainData + (if |s.ledger.trainData| < REFUSAL_CAP then [Example(fc, oracle.important)] else []) +
          (if |s.ledger.trainData| < EXAMPLE_CAP then [Example(fc, false)] else []) &&
        !r.ledger.initiated)
  {
  }

  /** The examples of a student-initiated opportunity: advice logs nothing and leaves the
      session mark; a refusal ends the session, logs the choice with `lastActionCorrect`, and
      then, under the cap, as an ordinary "−1" step. */
  lemma StudentExamples(s: Tutored, t: Teaching, draw: real, oracle: Oracle)
    requires TutoredInv(s) && Playing(s.agents) && Usable(t) && Asks(s, oracle)
    ensures var r := TutoredMoved(s, t, "student", draw, oracle).0;
      var fc := Features(s, Chosen(s));
      (Gives(s, t, "student", draw) ==> r.ledger.trainData == s.ledger.trainData && r.ledger.initiated == s.ledger.initiated) &&
      (!Gives(s, t, "student", draw) ==>
        r.ledger.trainData == s.ledger.trainData + [Example(fc, oracle.correct)] + (if |s.ledger.trainData| + 1 < EXAMPLE_CAP then [Example(fc, false)] else []) &&
        !r.ledger.initiated)
  {
  }

  /** The examples a step adds: those before stay, at most two are added, all with the
      features `fc`, none in test mode without attention, and on advice exactly the "+1"
      example of a teacher-initiated session. */
  lemma StepExamplesBounds(data: seq<Example>, testMode: bool, initiator: string, asked: bool, given: bool, fc: seq<real>, oracle: Oracle)
    ensures var d := StepExamples(data, testMode, initiator, asked, given, fc, oracle);
      var added := d[|data|..];
      data <= d && |added| <= 2 &&
      (forall e :: e in added ==> e.features == fc) &&
      (testMode && !asked ==> added == []) &&
      (asked && given ==> added == if initiator == "teacher" then [Example(fc, true)] else [])
  {
    var mid := if asked then Opportunity(data, initiator, given, fc, oracle) else data;
    if !given {
      ConcludedAdds(data, mid, testMode, fc);
    } else if asked && initiator == "teacher" {
      assert mid[|data|..] == [Example(fc, true)];
    }
  }

  /** Concluding a step after at most one example with the features `fc` was added to `data`
      adds at most one more, with the same features. */
  lemma ConcludedAdds(data: seq<Example>, mid: seq<Example>, testMode: bool, fc: seq<real>)
    requires data <= mid && |mid| <= |data| + 1 && forall e :: e in mid[|data|..] ==> e.features == fc
    ensures var d := Concluded(mid, testMode, fc);
      var added := d[|data|..];
      data <= d && |added| <= 2 && (forall e :: e in added ==> e.features == fc) &&
      (testMode && mid == data ==> added == [])
  {
    var d := Concluded(mid, testMode, fc);
    assert d[|data|..] == mid[|data|..] + d[|mid|..];
  }

  /** What a step logs for the classifier: the examples before it stay, at most two are added,
      all with the features of the student's choice, and none in test mode. Advice adds at most
      the one "+1" example of a teacher-initiated session. */
  lemma TutoredMovedExamples(s: Tutored, t: Teaching, initiator: string, draw: real, oracle: Oracle)
    requires TutoredInv(s) && Playing(s.agents) && Usable(t)
    ensures var r := TutoredMoved(s, t, initiator, draw, oracle).0;
      var added := r.ledger.trainData[|s.ledger.trainData|..];
      s.ledger.trainData <= r.ledger.trainData && |added| <= 2 &&
      (forall e :: e in added ==> e.features == Features(s, Chosen(s))) &&
      (s.agents.testMode ==> added == []) &&
      (Asks(s, oracle) && Gives(s, t, initiator, draw) ==>
        added == if initiator == "teacher" then [Example(Features(s, Chosen(s)), true)] else [])
  {
    var asked := Asks(s, oracle);
    StepExamplesBounds(s.ledger.trainData, s.agents.testMode, initiator, asked, asked && Gives(s, t, initiator, draw), Features(s, Chosen(s)), oracle);
  }

  /** A step keeps the invariant and leaves the pair at a decision point. */
  lemma MovedKeepsInv(s: Tutored, t: Teaching, initiator: string, draw: real, oracle: Oracle)
    requires TutoredInv(s) && Playing(s.agents) && Usable(t)
    ensures var r := TutoredMoved(s, t, initiator, draw, oracle).0;
      TutoredInv(r) && Playing(r.agents)
  {
    if !Asks(s, oracle) {
      TutoredMovedQuiet(s, t, initiator, draw, oracle);
    } else if Gives(s, t, initiator, draw) {
      TutoredMovedGiven(s, t, initiator, draw, oracle);
    } else {
      TutoredMovedRefused(s, t, initiator, draw, oracle);
    }
  }

  /** Processing a step changes only the pair, exactly as in `Student`, and keeps the
      invariant and the pair playing. */
  lemma TutoredProcessedFacts(s: Tutored, o: Observation, ds: Draws, dt: Draws)
    requires TutoredInv(s) && Playing(s.agents) && WellFormed(o, |s.agents.student.p.weights|)
    requires !o.over ==> ds.pick < |o.moves| && dt.pick < |o.moves|
    ensures var (r, thrown) := TutoredProcessed(s, o, ds, dt);
      TutoredInv(r) && Playing(r.agents) && r.(agents := s.agents) == s &&
      r.agents.adviceCount == s.agents.adviceCount && r.agents.left == s.agents.left
  {
    PairProcessedFacts(s.agents, o, ds, dt);
  }

  // The episode record.

  /** The record as written differs from the intended one whenever the strategy's first value
      is not the step count: slot 2 holds that value instead of the step count. */
  lemma WrittenRecordLosesLength(adviceCount: int, attentionCount: int, episodeLength: int, extra: seq<real>)
    requires |extra| > 0 && extra[0] != episodeLength as real
    ensures WrittenRecord(adviceCount, attentionCount, episodeLength, extra) != TutoredRecord(adviceCount, attentionCount, episodeLength, extra)
  {
    assert WrittenRecord(adviceCount, attentionCount, episodeLength, extra)[2] == extra[0];
  }

  /** A concrete case: five steps and the strategy's one value 7 are written as [0, 0, 7, 0]
      where [0, 0, 5, 7] is meant. */
  lemma WrittenRecordExample()
    ensures WrittenRecord(0, 0, 5, [7.0]) == [0.0, 0.0, 7.0, 0.0]
    ensures TutoredRecord(0, 0, 5, [7.0]) == [0.0, 0.0, 5.0, 7.0]
  {
  }

  /** The intended record can be read back: its first three slots give the counters and the
      rest is the strategy's data. */
  lemma TutoredRecordDecodes(adviceCount: int, attentionCount: int, episodeLength: int, extra: seq<real>)
    ensures var r := TutoredRecord(adviceCount, attentionCount, episodeLength, extra);
      r[..3] == [adviceCount as real, attentionCount as real, episodeLength as real] && r[3..] == extra
  {
    var r := TutoredRecord(adviceCount, attentionCount, episodeLength, extra);
    assert r[3..] == extra;
  }

  /** The examples `getMove` logs for the choice (features `fc`), in the order it logs them:
      the opportunity's, then, for a step that ends without advice, the conclusion's. */
  method NewExamples(data: seq<Example>, testMode: bool, initiator: string, asked: bool, given: bool,
                     fc: seq<real>, oracle: Oracle) returns (r: seq<Example>)
    ensures r == StepExamples(data, testMode, initiator, asked, given, fc, oracle)
  {
    r := data;
    if asked && initiator == "teacher" {
      if given {
        r := r + [Example(fc, true)];
      } else if |r| < REFUSAL_CAP {
        r := r + [Example(fc, oracle.important)];
      }
    } else if asked && initiator == "student" && !given {
      r := r + [Example(fc, oracle.correct)];
    }
    if !given && !testMode && |r| < EXAMPLE_CAP {
      r := r + [Example(fc, false)];
    }
  }

  /** `IntelligentStudent` as the object it is. The fields it shares with `Student` (the two
      agents, the strategy, the initiator, the mode and the episode's advice count) are held by
      `pair`, which it alone owns. */
  class IntelligentStudent {
    const pair: Student
    const mode: string
    const startPredictions: int
    /** The learner's own counters and collections, updated together. */
    var ledger: Ledger

    ghost predicate Valid()
      reads this, pair, pair.strategy
      reads pair.student, pair.student.q, pair.student.q.weights, pair.student.q.eligibility, pair.student.qvalues, pair.student.qdiffs, pair.student.advisedStates
      reads pair.teacher, pair.teacher.q, pair.teacher.q.weights, pair.teacher.q.eligibility, pair.teacher.qvalues, pair.teacher.qdiffs, pair.teacher.advisedStates
    {
      pair.Valid() && TutoredInv(State())
    }

    ghost function State(): Tutored
      reads this, pair, pair.strategy
      reads pair.student, pair.student.q, pair.student.q.weights, pair.student.q.eligibility, pair.student.qvalues, pair.student.qdiffs, pair.student.advisedStates
      reads pair.teacher, pair.teacher.q, pair.teacher.q.weights, pair.teacher.q.eligibility, pair.teacher.qvalues, pair.teacher.qdiffs, pair.teacher.advisedStates
    {
      Tutored(pair.State(), mode, startPredictions, ledger)
    }

    /** `new IntelligentStudent(teacher, student, strategy, initiator, mode)`. */
    constructor (teacher: SarsaPacMan, student: SarsaPacMan, strategy: Strategy, initiator: string, mode: string)
      requires student.Valid() && teacher.Valid() && strategy.Valid() && student.size == teacher.size
      requires Apart(student, teacher) && PredictionStart(mode).Some?
      ensures Valid() && fresh(pair) && pair.initiator == initiator
      ensures pair.student == student && pair.teacher == teacher && pair.strategy == strategy
      ensures State() == NewTutored(student.State(), teacher.State(), strategy.left, mode)
    {
      pair := new Student(teacher, student, strategy, initiator);
      this.mode := mode;
      var start := 0;
      if StartsWith(mode, PREDICTION) {
        start := ParseInt(mode[|PREDICTION|..]).value;
      }
      startPredictions := start;
      ledger := Ledger(0, 0, 0, 0, false, false, [], 0, []);
    }

    /** `startEpisode(game, testMode)`. Training the classifier is outside the model: only the
        fact that it happened is kept. */
    method StartEpisode(o: Observation, testMode: bool, ds: Draws, dt: Draws)
      requires Valid() && WellFormed(o, pair.student.size) && ds.pick < |o.moves| && dt.pick < |o.moves|
      modifies this`ledger
      modifies pair, pair.student, pair.student.q, pair.student.q.eligibility, pair.student.qdiffs
      modifies pair.teacher, pair.teacher.q, pair.teacher.q.eligibility, pair.teacher.qdiffs
      ensures Valid()
      ensures State() == TutoredStarted(old(State()), testMode, o, ds, dt)
    {
      ghost var s := State();
      Rebase();
      StartPair(o, testMode, ds, dt);
      StartedInOrder(s, testMode, o, ds, dt);
    }

    /** The agents' part of `startEpisode`, exactly as `Student` does it. */
    method StartPair(o: Observation, testMode: bool, ds: Draws, dt: Draws)
      requires pair.Valid() && WellFormed(o, pair.student.size) && ds.pick < |o.moves| && dt.pick < |o.moves|
      modifies pair, pair.student, pair.student.q, pair.student.q.eligibility, pair.student.qdiffs
      modifies pair.teacher, pair.teacher.q, pair.teacher.q.eligibility, pair.teacher.qdiffs
      ensures pair.Valid()
      ensures State() == old(State()).(agents := PairStarted(old(State()).agents, testMode, o, ds, dt))
    {
      pair.StartEpisode(o, testMode, ds, dt);
    }

    /** `askForAttention(game, choice)`. The unfamiliarity modes' distance test and the
        classifier's prediction are the oracle's. */
    method AskForAttention(oracle: Oracle) returns (ask: bool)
      requires Valid() && Ready(State().agents.student)
      ensures ask == AttentionAsked(State(), oracle)
    {
      if mode == "always" {
        return true;
      }
      if mode == "avgCertainty" {
        var qvals := pair.student.GetQValues();
        var avgDiff := pair.student.GetAvgQdiff();
        var gap := Max(qvals[..]) - Min(qvals[..]);
        return gap > avgDiff;
      }
      if mode == "uncertaintyThreshold" {
        var qvals := pair.student.GetQValues();
        var gap := Max(qvals[..]) - Min(qvals[..]);
        return gap > 0.0;
      }
      if StartsWith(mode, PREDICTION) {
        if ledger.totalAdvice < startPredictions {
          return true;
        }
        if ledger.episode > 1 && !pair.testMode && ledger.trained {
          return oracle.predicted;
        }
        return false;
      }
      if StartsWith(mode, "unfamiliarNN") || StartsWith(mode, "unfamiliarPW") {
        return |ledger.visited| == 0 || oracle.unfamiliar;
      }
      return false;
    }

    /** `getMove`: the student's choice, the attention test and, in training with budget and
        attention, the initiator's opportunity; then the learner's own bookkeeping. `draw` is
        the strategy's random draw and `oracle` the classifier's and the strategy's answers. */
    method GetMove(draw: real, oracle: Oracle) returns (m: Move)
      requires Valid() && Playing(State().agents) && Usable(pair.strategy.teaching)
      modifies this`ledger, pair`adviceCount, pair.student`lastActionIndex, pair.student.advisedStates
      modifies pair.student.qdiffs, pair.teacher.qdiffs, pair.strategy`left, pair.strategy`given
      ensures Valid()
      ensures (State(), m) == TutoredMoved(old(State()), pair.strategy.teaching, pair.initiator, draw, oracle)
    {
      ghost var s := State();
      var asked, given, fc, fm;
      asked, given, m, fc, fm := Act(draw, oracle);
      Log(asked, given, fc, fm, oracle);
      MovedKeepsInv(s, pair.strategy.teaching, pair.initiator, draw, oracle);
    }

    /** The pair's part of `getMove`: the student's choice, the attention test and, when
        attention is asked for, the opportunity. */
    method Act(draw: real, oracle: Oracle) returns (asked: bool, given: bool, m: Move, fc: seq<real>, fm: seq<real>)
      requires Valid() && Playing(State().agents) && Usable(pair.strategy.teaching)
      modifies pair`adviceCount, pair.student`lastActionIndex, pair.student.advisedStates
      modifies pair.student.qdiffs, pair.teacher.qdiffs, pair.strategy`left, pair.strategy`given
      ensures pair.Valid()
      ensures var s := old(State());
        asked == Asks(s, oracle) && given == (asked && Gives(s, pair.strategy.teaching, pair.initiator, draw)) &&
        m == (if given then Offered(s) else Chosen(s)) && fc == Features(s, Chosen(s)) && fm == Features(s, m) &&
        State() == s.(agents := StepPair(s, pair.strategy.teaching, pair.initiator, draw, asked))
    {
      var choice := pair.student.GetMove();
      fc := pair.student.GetFeatures(choice);
      var ask := AskForAttention(oracle);
      asked := !pair.testMode && pair.strategy.InUse() && ask;
      given, m, fm := false, choice, fc;
      if asked {
        given, m, fm := Opportunity(choice, fc, draw);
      }
    }

    /** An opportunity to advise: the strategy's judgement, and advice given is taken and its
        state recorded. `fm` holds the features of the move played; `fc` are those of the
        choice. */
    method Opportunity(choice: Move, fc: seq<real>, draw: real) returns (given: bool, m: Move, fm: seq<real>)
      requires pair.Valid() && PairInv(State().agents) && Playing(State().agents) && Advising(State().agents)
      requires Usable(pair.strategy.teaching) && choice == Chosen(State()) && fc == Features(State(), choice)
      modifies pair`adviceCount, pair.student`lastActionIndex, pair.student.advisedStates
      modifies pair.student.qdiffs, pair.teacher.qdiffs, pair.strategy`left, pair.strategy`given
      ensures pair.Valid()
      ensures var s := old(State());
        given == Gives(s, pair.strategy.teaching, pair.initiator, draw) &&
        m == (if given then Offered(s) else choice) && fm == Features(s, m) &&
        State() == s.(agents := StepPair(s, pair.strategy.teaching, pair.initiator, draw, true))
    {
      var advice, fa;
      given, m, advice, fa := Attend(choice, draw);
      fm := fc;
      if given {
        Note(advice);
        fm := fa;
      }
    }

    /** The teacher names its move and the strategy judges the choice with the
        initiator's q-values. `fa` holds the features of the advised move. */
    method Attend(choice: Move, draw: real) returns (given: bool, m: Move, advice: Move, fa: seq<real>)
      requires pair.Valid() && PairInv(State().agents) && Playing(State().agents) && Advising(State().agents)
      requires Usable(pair.strategy.teaching) && choice == Chosen(State())
      modifies pair`adviceCount, pair.student`lastActionIndex, pair.student.qdiffs, pair.teacher.qdiffs
      modifies pair.strategy`left, pair.strategy`given
      ensures pair.Valid()
      ensures var s := old(State());
        var moved := PairMoved(s.agents, pair.strategy.teaching, pair.initiator, draw);
        given == Gives(s, pair.strategy.teaching, pair.initiator, draw) && advice == Offered(s) &&
        fa == Features(s, advice) && m == moved.1 && (given ==> m == advice) && (!given ==> m == choice) &&
        State() == s.(agents := moved.0)
    {
      ghost var s := State();
      advice := pair.teacher.GetMove();
      fa := pair.student.GetFeatures(advice);
      PairMovedFacts(s.agents, pair.strategy.teaching, pair.initiator, draw);
      given, m := Offer(choice, advice, draw);
    }

    /** The strategy's decision for the initiator, through `Student`'s own consultation; with
        an initiator other than "teacher" and "student" nothing is asked. */
    method Offer(choice: Move, advice: Move, draw: real) returns (given: bool, m: Move)
      requires pair.Valid() && PairInv(State().agents) && Playing(State().agents) && Advising(State().agents)
      requires Usable(pair.strategy.teaching) && choice == Chosen(State()) && advice == Offered(State())
      modifies pair`adviceCount, pair.student`lastActionIndex, pair.student.qdiffs, pair.teacher.qdiffs
      modifies pair.strategy`left, pair.strategy`given
      ensures pair.Valid()
      ensures var s := old(State());
        var moved := PairMoved(s.agents, pair.strategy.teaching, pair.initiator, draw);
        given == Gives(s, pair.strategy.teaching, pair.initiator, draw) && m == moved.1 &&
        State() == s.(agents := moved.0)
    {
      if pair.initiator == "teacher" {
        given, m := pair.Consult(pair.teacher, choice, advice, draw);
      } else if pair.initiator == "student" {
        given, m := pair.Consult(pair.student, choice, advice, draw);
      } else {
        given, m := false, choice;
      }
    }

    /** `recordAdvisedState` on the student, after advice was taken. */
    method Note(advice: Move)
      requires pair.Valid() && advice in pair.student.actions
      modifies pair.student.advisedStates
      ensures pair.Valid()
      ensures State() == old(State()).(agents := Noted(old(State()).agents, advice))
    {
      pair.student.RecordAdvisedState(advice);
    }

    /** The learner's own bookkeeping of `getMove`. */
    method Log(asked: bool, given: bool, fc: seq<real>, fm: seq<real>, oracle: Oracle)
      modifies this`ledger
      ensures ledger == Entered(old(ledger), pair.testMode, pair.initiator, asked, given, fc, fm, oracle)
      ensures pair.State() == old(pair.State()) && (old(pair.Valid()) ==> pair.Valid())
    {
      var data := NewExamples(ledger.trainData, pair.testMode, pair.initiator, asked, given, fc, oracle);
      var initiated := ledger.initiated;
      if asked && pair.initiator == "teacher" {
        initiated := given;
      } else if asked && pair.initiator == "student" && !given {
        initiated := false;
      }
      ledger := ledger.(episodeLength := ledger.episodeLength + 1,
                        attentionCount := if asked then ledger.attentionCount + 1 else ledger.attentionCount,
                        totalAdvice := if given then ledger.totalAdvice + 1 else ledger.totalAdvice,
                        initiated := initiated, trainData := data, visited := ledger.visited + [fm]);
    }

    /** The bookkeeping of `startEpisode`. */
    method Rebase()
      modifies this`ledger
      ensures State() == Rebooked(old(State()))
      ensures old(pair.Valid()) ==> pair.Valid()
    {
      var newExamples := |ledger.trainData| - ledger.priorTrainDataSize;
      ledger := ledger.(trained := ledger.trained || Retraining(ledger.totalAdvice, newExamples, mode),
                        priorTrainDataSize := |ledger.trainData|, attentionCount := 0, episodeLength := 0,
                        episode := ledger.episode + 1);
    }

    /** `processStep(game)`: the student learns from the step and, in training with budget, so
        does the teacher; the learner's own bookkeeping is untouched. */
    method ProcessStep(o: Observation, ds: Draws, dt: Draws) returns (thrown: bool)
      requires Valid() && Playing(State().agents) && WellFormed(o, pair.student.size)
      requires !o.over ==> ds.pick < |o.moves| && dt.pick < |o.moves|
      modifies pair.student, pair.student.q, pair.student.q.weights, pair.student.q.eligibility
      modifies pair.student.qdiffs, pair.student.advisedStates
      modifies pair.teacher, pair.teacher.q, pair.teacher.q.weights, pair.teacher.q.eligibility
      modifies pair.teacher.qdiffs, pair.teacher.advisedStates
      ensures Valid() && Playing(State().agents)
      ensures (State(), thrown) == TutoredProcessed(old(State()), o, ds, dt)
    {
      ghost var s := State();
      thrown := pair.ProcessStep(o, ds, dt);
      TutoredProcessedFacts(s, o, ds, dt);
    }

    /** `episodeData`, given the strategy's own data `extra`, with the copy loop writing slot
        d + 3 as the record's layout means. */
    method EpisodeData(extra: seq<real>) returns (data: array<real>)
      ensures fresh(data)
      ensures data[..] == TutoredRecord(pair.adviceCount, ledger.attentionCount, ledger.episodeLength, extra)
    {
      var advice, attention, length := pair.adviceCount, ledger.attentionCount, ledger.episodeLength;
      data := new real[|extra| + 3](_ => 0.0);
      data[0] := advice as real;
      data[1] := attention as real;
      data[2] := length as real;
      var d := 0;
      while d < |extra|
        modifies data
        invariant 0 <= d <= |extra|
        invariant data[0] == advice as real && data[1] == attention as real
        invariant data[2] == length as real
        invariant forall j :: 0 <= j < d ==> data[j + 3] == extra[j]
      {
        data[d + 3] := extra[d];
        d := d + 1;
      }
      assert data[..] == TutoredRecord(advice, attention, length, extra);
    }

    /** `episodeData` as written: the copy loop writes slot d + 2. */
    method EpisodeDataAsWritten(extra: seq<real>) returns (data: array<real>)
      ensures fresh(data)
      ensures data[..] == WrittenRecord(pair.adviceCount, ledger.attentionCount, ledger.episodeLength, extra)
    {
      var advice, attention, length := pair.adviceCount, ledger.attentionCount, ledger.episodeLength;
      data := new real[|extra| + 3](_ => 0.0);
      data[0] := advice as real;
      data[1] := attention as real;
      data[2] := length as real;
      var d := 0;
      while d < |extra|
        modifies data
        invariant 0 <= d <= |extra|
        invariant data[0] == advice as real && data[1] == attention as real
        invariant d == 0 ==> data[2] == length as real
        invariant forall j :: 0 <= j < d ==> data[j + 2] == extra[j]
        invariant forall j :: d + 2 <= j < |extra| + 3 && j != 2 ==> data[j] == 0.0
      {
        data[d + 2] := extra[d];
        d := d + 1;
      }
      assert data[..] == WrittenRecord(advice, attention, length, extra);
    }
  }
}
