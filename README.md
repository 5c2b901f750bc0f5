# studentTeacherRL core in Dafny

studentTeacherRL is a teacher–student reinforcement-learning framework for Ms. Pac-Man.
A *teacher* is a trained SARSA(λ) agent. A *student* learns online by SARSA(λ) and may get
action advice from the teacher. Advice is governed by a *teaching strategy* that holds a
finite advice budget, and in the intelligent student also by an *attention* gate that decides
when the student asks.

This project models the core of that system and proves properties of the model:

- `QFunction` (qfunction.dfy): the linear Q-value function. It holds a weight vector, a
  bias and their eligibility traces. It is modelled as a class over arrays. Each mutator is
  proved against a pure function of the old state (`Estimate`, `FeatureStep`, `TraceStep`,
  `Cleared`, `Decayed`, `Accumulated`, `Corrected`, `Render`/`Load`), and the lemmas beside
  those functions state what the source's arithmetic means.
- `SarsaPacMan` (sarsa_model.dfy, sarsa.dfy): the SARSA(λ) agent.
  - The pure module `SarsaModel` states the agent's whole state as a datatype `Agent`, with
    one transition function per operation.
  - The class `Sarsa.SarsaPacMan` is proved to follow those transitions
    (`ensures State() == Processed(old(State()), …)`).
  - The modelled operations:
    - ε-greedy move choice;
    - the one-step TD update with eligibility traces;
    - the circular buffer of the last 100 Q-value gaps;
    - the advised-states map;
    - the `maxUpdate` correction sweep over shuffled advised states.
- Teaching strategies (teaching.dfy), covering the three strategy classes named in the
  source: percentile-uncertainty-and-mistake, random mistake correction, and student
  uncertainty. Each one's decision is a pure `Decide`. The class `Strategy` keeps the budget
  `left` and spends one unit exactly when it advises.
- The attention strategy based on certainty (attention.dfy).
- `Student` (student.dfy): the plain teacher/student pair.
- `IntelligentStudent` (intelligent_student.dfy): the pair with an attention mode,
  classifier bookkeeping and a per-episode record.
- `Experiments` (experiments.dfy, episodes.dfy):
  - agent creation by learner name;
  - the bounded training episode;
  - the summation of episode records into a curve point;
  - the choice of the best teacher policy.
- `RandomStatesCollector` (collector.dfy): one collection run that records, for each
  visited state, the gap between the two largest Q-values and the features of every legal
  move, while keeping a sliding trajectory window.

How the model stands in for the world:

- The game is a function `at: nat -> Observation`. It gives the legal moves, their feature
  vectors, the score, whether the game is over and the state string at each decision point.
- Every random draw of `java.util.Random` (exploration, random move, shuffle swap index,
  random correction) is an explicit parameter.
- The importance classifier and the nearest-neighbour tests are an `Oracle` value.
- Java `double` is modelled as `real`.

## Model

| member | source | states |
|---|---|---|
| QFunctions.QFunction.constructor | src/pacman/entries/pacman/QFunction.java:19-22 | a new function has one zero weight and one zero trace per feature, and a zero bias and bias trace |
| QFunctions.QFunction.FromFile | src/pacman/entries/pacman/QFunction.java:25-33 | loading n+1 lines sets the bias from line 0 and weight i from line i+1, with zero traces |
| QFunctions.QFunction.Save | src/pacman/entries/pacman/QFunction.java:102-109 | the saved lines are the bias followed by the weights in order, and the function is unchanged |
| QFunctions.SaveLoadRoundTrip | src/pacman/entries/pacman/QFunction.java:102-109 | loading what was saved restores the same weights and bias, so every feature vector gets the same value |
| QFunctions.QFunction.Evaluate | src/pacman/entries/pacman/QFunction.java:36-41 | the value is the bias plus the dot product of features and weights, and the state is unchanged |
| QFunctions.EstimateAtZero | src/pacman/entries/pacman/QFunction.java:36-41 | with all-zero weights, every feature vector is valued at exactly the bias, which is 0 in a new function |
| QFunctions.QFunction.UpdateWeightsWithFeatures | src/pacman/entries/pacman/QFunction.java:44-49 | each weight moves by delta times its feature and the bias moves by delta; the traces are untouched |
| QFunctions.FeatureStepRaisesValue | src/pacman/entries/pacman/QFunction.java:44-49 | after the feature step the same features are valued higher by exactly delta·(‖f‖²+1) |
| QFunctions.QFunction.UpdateWeights | src/pacman/entries/pacman/QFunction.java:52-58 | each weight and the bias move by delta times their eligibility trace |
| QFunctions.TraceStepAfterClear | src/pacman/entries/pacman/QFunction.java:52-65 | a trace step right after clearing changes neither the weights nor the bias |
| QFunctions.QFunction.ClearTraces | src/pacman/entries/pacman/QFunction.java:61-65 | every trace and the bias trace become zero; weights and bias are kept |
| QFunctions.QFunction.DecayTraces | src/pacman/entries/pacman/QFunction.java:68-72 | every trace and the bias trace are multiplied by the decay factor; weights and bias are kept |
| QFunctions.DecayByOne | src/pacman/entries/pacman/QFunction.java:68-72 | decaying by 1 leaves the function unchanged |
| QFunctions.QFunction.AddTraces | src/pacman/entries/pacman/QFunction.java:75-79 | the features are added to the traces and 1 to the bias trace; weights and bias are kept |
| QFunctions.AccumulatedTwice | src/pacman/entries/pacman/QFunction.java:75-79 | accumulating the same features twice adds twice the features and 2 to the bias trace |
| QFunctions.QFunction.MaxUpdate | src/pacman/entries/pacman/QFunction.java:81-99 | the weights are replaced by a fresh array, as `Corrected` says; bias and traces are kept |
| QFunctions.CrossSumClosedForm | src/pacman/entries/pacman/QFunction.java:84-93 | the inner loop over j ≠ i sums to alpha·d[i]·(the sum of d over the visited j, minus d[i] once it is visited), with d the feature difference |
| QFunctions.CrossWeightsClosedForm | src/pacman/entries/pacman/QFunction.java:83-94 | new weight i is alpha·d[i]·(Σd − d[i]), with d the max-minus-advised feature difference |
| QFunctions.CorrectedClosedForm | src/pacman/entries/pacman/QFunction.java:81-99 | the corrected weights are alpha·d[i]·(Σd − d[i]), which replace the old weights rather than adding to them; bias and traces are unchanged |
| QFunctions.CorrectionCanLowerAdvisedValue | src/pacman/entries/pacman/QFunction.java:81-99 | an example: weight 1 values the advised state at 1, and after the correction toward an alternative the weight is 0 and the advised value is 0 |
| SarsaModel.ChoiceGreedy | src/pacman/entries/pacman/SarsaPacMan.java:182-186 | in test mode, or when the exploration draw is at least ε, the chosen index is the first index of a maximal Q-value |
| SarsaModel.SlotAfterSteps | src/pacman/entries/pacman/SarsaPacMan.java:189-195 | after k recorded gaps the next slot of the circular buffer is (i+k) mod 100 |
| SarsaModel.MoveMapLookup | src/pacman/entries/pacman/SarsaPacMan.java:162-169 | the map's keys are exactly the legal moves, and each maps to the Q-value at its last position |
| SarsaModel.OthersCount | src/pacman/entries/pacman/SarsaPacMan.java:237-244 | the alternatives to a move are all legal moves except its occurrences, so their number is the move count minus those occurrences |
| SarsaModel.OthersOfDistinct | src/pacman/entries/pacman/SarsaPacMan.java:237-244 | with distinct legal moves, an advised legal move has exactly one fewer alternative than there are moves |
| SarsaModel.BestAlternativeIsFirstMax | src/pacman/entries/pacman/SarsaPacMan.java:203-213 | the best alternative is the first index of the largest alternative value, or none when no value beats the sentinel |
| SarsaModel.SweepNeverAdds | src/pacman/entries/pacman/SarsaPacMan.java:197-224 | the sweep keeps only old entries, with their alternatives; it keeps every entry it does not visit and keeps the record well-formed |
| SarsaModel.SweepStepNeverAdds | src/pacman/entries/pacman/SarsaPacMan.java:214-222 | one step either keeps the map and the key order, or removes exactly the examined key from both; the record stays well-formed |
| SarsaModel.SweepSettled | src/pacman/entries/pacman/SarsaPacMan.java:201-222 | when every visited key is valued at least as high as each of its alternatives, the sweep changes no weight, throws nothing and removes every visited key |
| SarsaModel.InitializedInv | src/pacman/entries/pacman/SarsaPacMan.java:51-56 | a new agent satisfies the agent invariant and has one weight per prototype feature |
| SarsaModel.EvaluateFacts | src/pacman/entries/pacman/SarsaPacMan.java:152-187 | evaluation keeps weights and advised states and stores one Q-value per legal move; the best index is the first maximum; the non-negative max–min gap goes into the current slot only; in test mode the acting index is the best one |
| SarsaModel.StartedResets | src/pacman/entries/pacman/SarsaPacMan.java:64-80 | starting an episode zeroes the score, the traces and the pending TD values, empties the advised states, keeps weights and bias, and sets the mode |
| SarsaModel.WithMoveFacts | src/pacman/entries/pacman/SarsaPacMan.java:88-93 | the agent can act iff the move is legal, and then the acting index is the last position of that move |
| SarsaModel.TracedInv | src/pacman/entries/pacman/SarsaPacMan.java:99-112 | the trace update keeps the invariant and the advised states; with no pending update the weights and bias are unchanged |
| SarsaModel.SweptFacts | src/pacman/entries/pacman/SarsaPacMan.java:197-224 | the correction sweep keeps the invariant and the mode; the remaining advised states are old ones with the same alternatives |
| SarsaModel.PlayingStep | src/pacman/entries/pacman/SarsaPacMan.java:114-130 | a step that does not end the game keeps the invariant, the mode and the advised states; in training it leaves an update pending |
| SarsaModel.FinalTestStep | src/pacman/entries/pacman/SarsaPacMan.java:114-118 | at game over in test mode the weights and bias are unchanged and nothing throws |
| SarsaModel.FinalTrainingStep | src/pacman/entries/pacman/SarsaPacMan.java:118-126 | at game over in training the invariant holds and advised states can only be removed, never added |
| SarsaModel.ProcessedFacts | src/pacman/entries/pacman/SarsaPacMan.java:96-149 | every step keeps the invariant and the mode, never changes weights or bias in test mode, never adds an advised state, and changes advised states only at the end of a training game |
| SarsaModel.ProcessedMoves | src/pacman/entries/pacman/SarsaPacMan.java:114-115 | after a non-final step the stored moves are the new decision point's legal moves |
| SarsaModel.RecordedFacts | src/pacman/entries/pacman/SarsaPacMan.java:228-249 | after recording, the advised features are a key; a new key maps to the features of the other legal moves; an existing key changes nothing; recording twice equals recording once |
| SarsaModel.SortedBufferFacts | src/pacman/entries/pacman/SarsaPacMan.java:261-265 | the sorted gap buffer is sorted, is a permutation of the buffer and has the same sum |
| Sarsa.Extremes | src/pacman/entries/pacman/SarsaPacMan.java:171-179 | returns the first index of the maximum and the first index of the minimum of the Q-values |
| Sarsa.ScanLast | src/pacman/entries/pacman/SarsaPacMan.java:88-93 | the index found is the last position of the move among the legal moves, or −1 when absent |
| Sarsa.AdvisedStates.constructor | src/pacman/entries/pacman/SarsaPacMan.java:55 | the advised-states map starts empty, with no key order |
| Sarsa.AdvisedStates.Put | src/pacman/entries/pacman/SarsaPacMan.java:248 | the key maps to the new alternatives; a new key is appended to the insertion order and an existing one keeps its place |
| Sarsa.AdvisedStates.Remove | src/pacman/entries/pacman/SarsaPacMan.java:221 | the key is gone from the map and from the order; every other entry is kept |
| Sarsa.AdvisedStates.KeyList | src/pacman/entries/pacman/SarsaPacMan.java:199 | returns a fresh array holding the stored keys in insertion order, each of which is in the map |
| Sarsa.SarsaPacMan.constructor | src/pacman/entries/pacman/SarsaPacMan.java:51-56 | a new agent's state is `Initialized` for the prototype's size, satisfying the invariant |
| Sarsa.SarsaPacMan.LoadPolicy | src/pacman/entries/pacman/SarsaPacMan.java:298-300 | loading replaces the Q-function with the loaded one and keeps the rest of the agent |
| Sarsa.SarsaPacMan.SavePolicy | src/pacman/entries/pacman/SarsaPacMan.java:293-295 | the saved lines are the Q-function's rendering; the agent is unchanged |
| Sarsa.SarsaPacMan.StartEpisode | src/pacman/entries/pacman/SarsaPacMan.java:64-80 | the new state is `Started` of the old one at the first decision point |
| Sarsa.SarsaPacMan.ResetEpisode | src/pacman/entries/pacman/SarsaPacMan.java:65-78 | sets the mode, zeroes the score, pending TD values and traces, and empties the advised states |
| Sarsa.SarsaPacMan.Forget | src/pacman/entries/pacman/SarsaPacMan.java:65-78 | sets the mode, zeroes the score and pending TD values, and empties the advised states; the Q-function is kept |
| Sarsa.SarsaPacMan.GetMove | src/pacman/entries/pacman/SarsaPacMan.java:83-85 | returns the legal move at the acting index and changes nothing |
| Sarsa.SarsaPacMan.SetMove | src/pacman/entries/pacman/SarsaPacMan.java:88-93 | the new state is `WithMove`: the acting index becomes the last position of the move, or −1 when it is not legal |
| Sarsa.SarsaPacMan.ProcessStep | src/pacman/entries/pacman/SarsaPacMan.java:96-149 | the new state is `Processed` of the old one and the next decision point |
| Sarsa.SarsaPacMan.PendUpdate | src/pacman/entries/pacman/SarsaPacMan.java:129-130 | in training, marks a delayed update as pending and changes nothing else |
| Sarsa.SarsaPacMan.Learn | src/pacman/entries/pacman/SarsaPacMan.java:99-112 | the new state is `Traced`: the pending update, trace decay and accumulation, and the new TD error from the score difference |
| Sarsa.SarsaPacMan.Catch | src/pacman/entries/pacman/SarsaPacMan.java:99-103 | with an update pending, delta2 becomes γ·Q(acting move) and the weights move by α(delta1 + delta2) along the traces; otherwise nothing changes |
| Sarsa.SarsaPacMan.Terminal | src/pacman/entries/pacman/SarsaPacMan.java:121-126 | at game over in training the final update and then the correction sweep are applied |
| Sarsa.SarsaPacMan.FinalUpdate | src/pacman/entries/pacman/SarsaPacMan.java:123 | the terminal update moves the weights by α·delta1 along the traces, with no bootstrap term |
| Sarsa.SarsaPacMan.EvaluateMoves | src/pacman/entries/pacman/SarsaPacMan.java:152-187 | the new state is `Evaluate` of the old one at the decision point with the given draws |
| Sarsa.SarsaPacMan.Install | src/pacman/entries/pacman/SarsaPacMan.java:180-186 | the moves, features, values, chosen index and gap slot are stored as computed |
| Sarsa.SarsaPacMan.ComputeValues | src/pacman/entries/pacman/SarsaPacMan.java:164-169 | returns a fresh array holding each move's Q-value in move order, and the move→value map built from it |
| Sarsa.SarsaPacMan.UpdateQdiffs | src/pacman/entries/pacman/SarsaPacMan.java:189-195 | the gap is written at the current slot and the slot advances modulo 100 |
| Sarsa.SarsaPacMan.MaxUpdate | src/pacman/entries/pacman/SarsaPacMan.java:197-224 | the new state is `Swept` of the old one with the shuffle draws |
| Sarsa.SarsaPacMan.SweepKeys | src/pacman/entries/pacman/SarsaPacMan.java:201-223 | processing the shuffled keys in order yields `Sweep` of the keys |
| Sarsa.SarsaPacMan.SweepKey | src/pacman/entries/pacman/SarsaPacMan.java:202-222 | one key is corrected toward its best alternative, or removed when none beats it, as `SweepStep` says |
| Sarsa.SarsaPacMan.BestAlternativeOf | src/pacman/entries/pacman/SarsaPacMan.java:203-213 | returns the index of the first largest alternative value and that value, as `BestAlternative` |
| Sarsa.SarsaPacMan.RecordAdvisedState | src/pacman/entries/pacman/SarsaPacMan.java:228-249 | the new state is `Recorded`: the advised features map to the alternatives' features |
| Sarsa.SarsaPacMan.OtherFeatures | src/pacman/entries/pacman/SarsaPacMan.java:237-244 | returns the features of every legal move other than the advised one, in order |
| Sarsa.SarsaPacMan.GetAvgQdiff | src/pacman/entries/pacman/SarsaPacMan.java:251-259 | returns the mean of the 100 stored gaps |
| Sarsa.SarsaPacMan.GetNthQvalue | src/pacman/entries/pacman/SarsaPacMan.java:261-265 | sorts the gap buffer in place and returns its entry n, that is, the n-th smallest stored gap |
| Sarsa.SarsaPacMan.GetQValues | src/pacman/entries/pacman/SarsaPacMan.java:273-275 | returns the agent's own Q-value array, not a copy, holding one value per legal move |
| Sarsa.SarsaPacMan.GetMoves | src/pacman/entries/pacman/SarsaPacMan.java:268-270 | returns the current legal moves |
| Sarsa.SarsaPacMan.GetFeatures | src/pacman/entries/pacman/SarsaPacMan.java:284-290 | for a legal move, returns the features at its last position |
| Vectors.SortArray | src/pacman/entries/pacman/SarsaPacMan.java:263 | sorting in place leaves the array equal to the sorted specification of its old contents |
| Vectors.SortSpecSorted | src/pacman/entries/pacman/SarsaPacMan.java:263 | the sorted specification is ascending and a permutation of its input |
| Vectors.SumPermutation | src/pacman/entries/pacman/SarsaPacMan.java:251-259 | permuting the gap buffer does not change its sum, so the average survives sorting |
| Vectors.FirstMaxIndexIsFirstMax | src/pacman/entries/pacman/SarsaPacMan.java:173-179 | the first max index holds the maximum and every earlier entry is smaller |
| Vectors.FirstMinIndexIsFirstMin | src/pacman/entries/pacman/SarsaPacMan.java:173-179 | the first min index holds the minimum and every earlier entry is larger |
| Vectors.SpreadByIndices | src/pacman/entries/pacman/SarsaPacMan.java:180 | the spread is the value at the first max index minus the value at the first min index, and it is non-negative |
| Vectors.SpreadAbove | src/pacman/teaching/StudentUncertaintyAdvice.java:24-27 | the max–min spread exceeds t iff some two values differ by more than t |
| Vectors.SpreadBelow | src/pacman/teaching/AskAttentionBasedOnCertainty.java:20-23 | the max–min spread is below t iff every two values differ by less than t |
| Vectors.DotAddScaled | src/pacman/entries/pacman/QFunction.java:44-47 | after adding u·f to the weights, f's dot product with them rises by exactly u·‖f‖² |
| Shuffling.Shuffle | src/pacman/entries/pacman/SarsaPacMan.java:200 | shuffling in place with the given swap draws leaves `Shuffled` of the old contents, a permutation of them |
| Shuffling.ShuffledKeepsDistinct | src/pacman/entries/pacman/SarsaPacMan.java:199-200 | shuffling distinct keys keeps them distinct |
| Game.LastIndex | src/pacman/entries/pacman/SarsaPacMan.java:88-93 | the result is −1 iff the move is absent, and otherwise the last position holding it |
| Game.LastIndexOfDistinct | src/pacman/entries/pacman/SarsaPacMan.java:88-93 | among distinct moves, the last index of move i is i |
| Text.ParseShowNat | src/pacman/Experiments.java:165 | parsing the decimal digits of a natural number gives that number back |
| Text.SignedParse | src/pacman/Experiments.java:165 | a leading `-` negates the parsed digits, a leading `+` keeps them, and a lone sign does not parse |
| Teaching.DecideKeepsEvaluator | src/pacman/teaching/StudentPercentileUncertaintyAndMistakeAdvice.java:22-41 | only the percentile strategy changes the evaluator, and only by sorting its gap buffer (same entries, same sum); the others leave it unchanged |
| Teaching.PercentileDecision | src/pacman/teaching/StudentPercentileUncertaintyAndMistakeAdvice.java:22-41 | advice is given iff the choice is a mistake and the spread is below the cutoff-th entry of the sorted gap buffer, which is one of the stored gaps with no larger entries before it and no smaller ones after |
| Teaching.NoAdviceWithoutMistake | src/pacman/teaching/CorrectMistakesRandomly.java:28-36 | neither mistake-correcting strategy advises when the choice equals the advice |
| Teaching.RandomDecision | src/pacman/teaching/CorrectMistakesRandomly.java:24-39 | advice is given iff the choice is a mistake and the draw is below t/100: never for t ≤ 0, on every mistake for t ≥ 100 |
| Teaching.UncertaintyDecision | src/pacman/teaching/StudentUncertaintyAdvice.java:22-34 | the decision ignores the moves and the draw, and advises iff some two of the evaluator's Q-values are more than the threshold apart |
| Teaching.Strategy.PercentileMistakes | src/pacman/teaching/StudentPercentileUncertaintyAndMistakeAdvice.java:16-19 | starts with the full budget and the given cutoff |
| Teaching.Strategy.CorrectMistakesRandomly | src/pacman/teaching/CorrectMistakesRandomly.java:18-21 | starts with the full budget and the given correction probability |
| Teaching.Strategy.StudentUncertainty | src/pacman/teaching/StudentUncertaintyAdvice.java:16-19 | starts with the full budget and the given threshold |
| Teaching.Strategy.GiveAdvice | src/pacman/teaching/StudentPercentileUncertaintyAndMistakeAdvice.java:22-41 | the answer is the strategy's decision, and the budget drops by one exactly when advice is given |
| Teaching.Strategy.Assess | src/pacman/teaching/StudentPercentileUncertaintyAndMistakeAdvice.java:24-27 | the answer and the evaluator's new state are the decision `Decide` gives, and the budget is not touched |
| Attention.NewAskAttention | src/pacman/teaching/AskAttentionBasedOnCertainty.java:13-16 | a new gate has the full asking budget and the given threshold |
| Attention.AskMeansCloseValues | src/pacman/teaching/AskAttentionBasedOnCertainty.java:19-30 | the student asks iff every two of its Q-values differ by less than the threshold, so a threshold ≤ 0 never asks |
| Attention.AskForAdvice | src/pacman/teaching/AskAttentionBasedOnCertainty.java:19-30 | the student asks only under a positive threshold, since the spread of its Q-values is never negative (AskMeansCloseValues gives the exact condition) |
| Attention.InUse | src/pacman/teaching/AskAttentionBasedOnCertainty.java:32-35 | a gate holding the budget of 1000 the constructor sets is in use; nothing in the class spends that budget, so every gate the source builds stays in use |
| Students.EpisodeRecord | src/pacman/teaching/Student.java:85-96 | the record is one longer than the strategy's data, with the advice count first and the data after it |
| Students.PairStartedFacts | src/pacman/teaching/Student.java:30-39 | the advice count is zero and the student starts afresh at the new point; the teacher starts in test mode only when training with budget left, and is untouched otherwise |
| Students.NoAdviceFacts | src/pacman/teaching/Student.java:42-68 | without budget or in test mode, or with an unknown initiator, the move is the student's own choice and nothing changes |
| Students.PairMovedFacts | src/pacman/teaching/Student.java:42-68 | given advice is the teacher's move, set into the student and counted once; otherwise the student's choice is returned with its acting index kept; advice count plus budget is preserved |
| Students.PairProcessedFacts | src/pacman/teaching/Student.java:71-76 | the student processes the step; the teacher does so only when training with budget left and the student did not throw; counters and budget are kept |
| Students.Student.constructor | src/pacman/teaching/Student.java:22-27 | the pair holds the given teacher, student, strategy and initiator, in training mode with no advice counted |
| Students.Student.StartEpisode | src/pacman/teaching/Student.java:30-39 | the new state is `PairStarted` of the old one |
| Students.Student.SetMode | src/pacman/teaching/Student.java:31-32 | sets the test flag and zeroes the advice count |
| Students.Student.StartStudent | src/pacman/teaching/Student.java:33 | the student agent starts its episode at the decision point |
| Students.Student.StartTeacher | src/pacman/teaching/Student.java:35-38 | the teacher starts in test mode only when training with budget left |
| Students.Student.GetMove | src/pacman/teaching/Student.java:42-68 | the move and new state are `PairMoved` of the old state |
| Students.Student.Consult | src/pacman/teaching/Student.java:49-64 | the strategy judges with the teacher or the student as evaluator; given advice replaces the student's choice |
| Students.Student.Judge | src/pacman/teaching/Student.java:51 | the strategy's answer and new budget follow `Decide` for the chosen evaluator |
| Students.Student.TakeAdvice | src/pacman/teaching/Student.java:52-53 | the advice is set into the student and the advice count rises by one |
| Students.Student.ProcessStep | src/pacman/teaching/Student.java:71-76 | the new state is `PairProcessed` of the old one |
| Students.Student.StepStudent | src/pacman/teaching/Student.java:72 | the student agent processes the step |
| Students.Student.StepTeacher | src/pacman/teaching/Student.java:74-75 | the teacher processes the step only when training with budget left |
| Students.Student.EpisodeData | src/pacman/teaching/Student.java:85-96 | returns the advice count followed by the strategy's data |
| IntelligentStudents.PredictionStartParses | src/pacman/teaching/IntelligentStudent.java:83-84 | `importancePrediction` followed by the digits of n starts predictions at n; with no digits it fails to parse; any other mode leaves the start at 0 |
| IntelligentStudents.TutoredStartedFacts | src/pacman/teaching/IntelligentStudent.java:113-149 | counters reset and the episode number rises; the classifier becomes trained iff it was, or there was advice and more than 10 new examples in prediction mode; the pair starts as in `Student` |
| IntelligentStudents.StartedInOrder | src/pacman/teaching/IntelligentStudent.java:113-137 | starting is the bookkeeping reset followed by starting the pair |
| IntelligentStudents.AskOnSpread | src/pacman/teaching/IntelligentStudent.java:151-193 | `always` always asks, `uncertaintyThreshold` asks iff the Q-values are not all equal, `avgCertainty` asks iff the spread exceeds the average stored gap; the oracle is not consulted |
| IntelligentStudents.AskOnPrediction | src/pacman/teaching/IntelligentStudent.java:225-235 | before the prediction start the student always asks; afterwards it asks only on a positive prediction in training, after the first episode, once trained |
| IntelligentStudents.AskOnUnknown | src/pacman/teaching/IntelligentStudent.java:151-172 | an attention mode outside the known ones never asks |
| IntelligentStudents.TutoredMovedQuiet | src/pacman/teaching/IntelligentStudent.java:238-321 | without an ask, the pair is unchanged, the move is the student's choice, its features are logged as visited and the episode length rises by one |
| IntelligentStudents.TutoredMovedGiven | src/pacman/teaching/IntelligentStudent.java:256-307 | given advice is the teacher's move, recorded as an advised state; the advice, total advice, attention and length counters each rise by one |
| IntelligentStudents.TutoredMovedRefused | src/pacman/teaching/IntelligentStudent.java:256-320 | refused advice returns the student's choice; only the attention and length counters rise |
| IntelligentStudents.QuietExamples | src/pacman/teaching/IntelligentStudent.java:317-318 | without an ask, a negative example is added in training while there are fewer than 10000 examples, and none otherwise |
| IntelligentStudents.TeacherExamples | src/pacman/teaching/IntelligentStudent.java:262-287 | with the teacher initiating, given advice adds one positive example; a refusal adds the strategy's importance label under 1000 examples and a negative example under 10000 |
| IntelligentStudents.StudentExamples | src/pacman/teaching/IntelligentStudent.java:290-313 | with the student initiating, given advice adds no example; a refusal adds the strategy's correctness label and a negative example under 10000 |
| IntelligentStudents.StepExamplesBounds | src/pacman/teaching/IntelligentStudent.java:262-318 | one move only appends, at most two examples, all about the chosen move; none in test mode without an ask |
| IntelligentStudents.ConcludedAdds | src/pacman/teaching/IntelligentStudent.java:317-318 | the closing step keeps the old examples as a prefix and adds at most one, about the same move |
| IntelligentStudents.TutoredMovedExamples | src/pacman/teaching/IntelligentStudent.java:247-321 | a move only appends examples, at most two, about the chosen move, and none in test mode |
| IntelligentStudents.MovedKeepsInv | src/pacman/teaching/IntelligentStudent.java:238-321 | a move keeps the pair invariant and leaves both agents ready to act |
| IntelligentStudents.TutoredProcessedFacts | src/pacman/teaching/IntelligentStudent.java:377-382 | processing steps the pair and changes no bookkeeping, advice count or budget |
| IntelligentStudents.WrittenRecordLosesLength | src/pacman/teaching/IntelligentStudent.java:420-421 | as written, a non-empty extra record whose first entry differs from the episode length gives a record different from the intended layout |
| IntelligentStudents.WrittenRecordExample | src/pacman/teaching/IntelligentStudent.java:415-423 | with extra [7] and length 5 the written record is [0, 0, 7, 0] where [0, 0, 5, 7] is intended |
| IntelligentStudents.TutoredRecordDecodes | src/pacman/teaching/IntelligentStudent.java:411-424 | the corrected record holds advice, attention and length first and the extra data unchanged after them |
| IntelligentStudents.NewExamples | src/pacman/teaching/IntelligentStudent.java:262-318 | the examples appended in one move are exactly `StepExamples` |
| IntelligentStudents.IntelligentStudent.constructor | src/pacman/teaching/IntelligentStudent.java:75-94 | holds the given pair and attention mode, takes the prediction start from the mode, and starts with empty bookkeeping |
| IntelligentStudents.IntelligentStudent.StartEpisode | src/pacman/teaching/IntelligentStudent.java:113-149 | the new state is `TutoredStarted` of the old one |
| IntelligentStudents.IntelligentStudent.StartPair | src/pacman/teaching/IntelligentStudent.java:132-137 | starts the student, and the teacher when training with budget left |
| IntelligentStudents.IntelligentStudent.AskForAttention | src/pacman/teaching/IntelligentStudent.java:151-193 | the answer is `AttentionAsked` for the mode, the chosen Q-values and the oracle |
| IntelligentStudents.IntelligentStudent.GetMove | src/pacman/teaching/IntelligentStudent.java:238-321 | the move and new state are `TutoredMoved` of the old state |
| IntelligentStudents.IntelligentStudent.Act | src/pacman/teaching/IntelligentStudent.java:240-260 | the student chooses, the attention question is settled, and the teacher is consulted only when asked |
| IntelligentStudents.IntelligentStudent.Opportunity | src/pacman/teaching/IntelligentStudent.java:256-314 | an asked opportunity takes the strategy's verdict; given advice replaces the choice |
| IntelligentStudents.IntelligentStudent.Attend | src/pacman/teaching/IntelligentStudent.java:259-260 | takes the teacher's move and lets the strategy decide, as `PairMoved` says |
| IntelligentStudents.IntelligentStudent.Offer | src/pacman/teaching/IntelligentStudent.java:262-296 | the strategy's verdict on the teacher's move is applied to the pair, as `PairMoved` says |
| IntelligentStudents.IntelligentStudent.Note | src/pacman/teaching/IntelligentStudent.java:267 | the advised state is recorded in the student agent |
| IntelligentStudents.IntelligentStudent.Log | src/pacman/teaching/IntelligentStudent.java:247-319 | the bookkeeping becomes `Entered`: examples, visited features, counters and the initiated flag |
| IntelligentStudents.IntelligentStudent.Rebase | src/pacman/teaching/IntelligentStudent.java:114-144 | rebases the example count, possibly marks the classifier trained, resets the counters and advances the episode |
| IntelligentStudents.IntelligentStudent.ProcessStep | src/pacman/teaching/IntelligentStudent.java:377-382 | the new state is `TutoredProcessed` of the old one |
| IntelligentStudents.IntelligentStudent.EpisodeData | src/pacman/teaching/IntelligentStudent.java:411-424 | returns advice count, attention count and episode length followed by the strategy's data (corrected layout) |
| IntelligentStudents.IntelligentStudent.EpisodeDataAsWritten | src/pacman/teaching/IntelligentStudent.java:411-424 | returns the record as the source writes it, `WrittenRecord`, which copies the data from slot 2 |
| Experiments.Create | src/pacman/Experiments.java:119-271 | the prefixes are tested in the source's order and the first match wins; the result is a lone teacher exactly for `teacher…` names and a lone student exactly for the other `independent…` names (the per-prefix lemmas below and CreateNullIff state the other branches) |
| Experiments.CreateNullIff | src/pacman/Experiments.java:119-270 | creation returns null iff the name starts with none of the known prefixes |
| Experiments.CreateAdvise | src/pacman/Experiments.java:164-169 | `advise<n>` creates an intelligent pair with the important-states strategy at threshold n |
| Experiments.CreateCorrect | src/pacman/Experiments.java:172-177 | `correct<n>` creates an intelligent pair correcting important mistakes at threshold n |
| Experiments.CreateDCorrect | src/pacman/Experiments.java:189-194 | `dcorrect<n>` creates the pair with the corresponding strategy at n |
| Experiments.CreatePredict | src/pacman/Experiments.java:198-203 | `predict<n>` creates the pair with the prediction strategy at n |
| Experiments.CreateRandom | src/pacman/Experiments.java:206-211 | `random<n>` creates the pair with the `AdviseRandom` strategy at probability n |
| Experiments.CreateCRandom | src/pacman/Experiments.java:214-219 | `crandom<n>` creates the pair with its random strategy at n |
| Experiments.CreateStuUnc | src/pacman/Experiments.java:222-227 | `stuunc<n>` creates the pair with the student-uncertainty strategy at n |
| Experiments.CreateCStuUnc | src/pacman/Experiments.java:230-235 | `cstuunc<n>` creates the pair with the `StudentUncertaintyAndMistakeAdvice` strategy at threshold n |
| Experiments.CreateCtStuUnc | src/pacman/Experiments.java:238-243 | `ctstuunc<n>` creates the pair with its strategy at n |
| Experiments.CreateCStuImp | src/pacman/Experiments.java:253-258 | `cstuimp<n>` creates the pair with the importance-and-mistake strategy at n |
| Experiments.CreateAttCorrect | src/pacman/Experiments.java:180-186 | `attcorrect` with a number and a three-digit threshold creates the pair correcting important mistakes with attention, with both numbers |
| Experiments.CreateAskIgnoresNumber | src/pacman/Experiments.java:261-267 | `askcstuunc<n>` creates the pair with the fixed threshold 200 whatever n is, and a missing number throws |
| Experiments.CreateThrows | src/pacman/Experiments.java:164-186 | a numbered prefix with no number, or `attcorrect` with too few digits, throws instead of creating |
| Experiments.TotalAdvice | src/pacman/Experiments.java:304-319 | summing the pairs' records over episodes gives, in slot 0, the total advice count |
| Experiments.SummedSnoc | src/pacman/Experiments.java:316-317 | adding one more record to the sum adds it slot by slot |
| Experiments.AddRecord | src/pacman/Experiments.java:316-317 | adds a record slot by slot into the accumulator, and throws iff the record is shorter |
| Experiments.CurvePoint | src/pacman/Experiments.java:304-319 | the curve point is the slot-wise sum of the episodes' records, and it throws iff some record is shorter |
| Experiments.FindBestTeacher | src/pacman/Experiments.java:421-424 | returns the first index of a maximal score (0 when there are none) |
| Experiments.Turn | src/pacman/Experiments.java:346-347 | one step processes the next decision point as `Processed` says and keeps the agent ready and in its mode |
| Experiments.Episode | src/pacman/Experiments.java:340-353 | without an exception, the length returned is exactly `Steps`, the number of moves until game over or the 15000-step bound |
| Episodes.StepsFromRan | src/pacman/Experiments.java:345 | the counted steps stop at the first game-over point or at the step bound |
| Episodes.StepsExactly | src/pacman/Experiments.java:340-353 | a run reaches a given length iff that length equals `Steps` |
| Collector.SortedTop | src/pacman/RandomStatesCollector.java:43-44 | the last entry of the sorted Q-values is their maximum |
| Collector.SortedTopTwo | src/pacman/RandomStatesCollector.java:43-44 | the second-to-last sorted entry is the largest value left once one copy of the maximum is removed |
| Collector.GapTopTwo | src/pacman/RandomStatesCollector.java:42-44 | the recorded gap is non-negative and is the maximum minus the second-largest value |
| Collector.MoveFeaturesDistinct | src/pacman/RandomStatesCollector.java:52-59 | with distinct moves, entry j of the collected features is the features of move j |
| Collector.SlideWindow | src/pacman/RandomStatesCollector.java:37-40 | the window never exceeds its size, and sliding in a new state equals the window of the extended trail |
| Collector.Collected | src/pacman/RandomStatesCollector.java:54-63 | entry k of the collection is the snapshot of decision point k: its state string, its top-two gap and each legal move's features |
| Collector.Trail | src/pacman/RandomStatesCollector.java:35-40 | entry k of the trail is the state string of decision point k |
| Collector.TrailSlide | src/pacman/RandomStatesCollector.java:31-40 | the trajectory after a step is the old one slid by the new state, and it never exceeds the window |
| Collector.SortValues | src/pacman/RandomStatesCollector.java:42-43 | sorts the agent's own Q-value array in place and returns the sorted values |
| Collector.FeaturesPerMove | src/pacman/RandomStatesCollector.java:52-59 | returns the features of each legal move in order |
| Collector.Rank | src/pacman/RandomStatesCollector.java:42-44 | sorts the Q-values in place and returns the top-two gap, or throws when there are fewer than two moves |
| Collector.Advance | src/pacman/RandomStatesCollector.java:66-67 | takes the agent's move and processes the next decision point in test mode, keeping weights and bias |
| Collector.Visit | src/pacman/RandomStatesCollector.java:42-67 | throws iff there are fewer than two moves; otherwise it snapshots the state, gap and features when collecting, then advances |
| Collector.GatheredOn | src/pacman/RandomStatesCollector.java:34-68 | after one more step, the collection gains the snapshot while below the wanted number, and the trajectory slides |
| Collector.Pass | src/pacman/RandomStatesCollector.java:35-68 | one loop pass either ends with an exception or extends the gathered collection and trajectory by one step |
| Collector.Gather | src/pacman/RandomStatesCollector.java:34-69 | the loop runs until game over, 20000 steps or an exception, ending with the gathered collection and trajectory |
| Collector.CollectStates | src/pacman/RandomStatesCollector.java:23-75 | weights never change; the states returned are the first min(numStates, steps) visited, each with its gap and move features; the trajectory is the last `window` states |

## Left out

- The game engine, ghosts, `game.copy()` and `FeatureSet.extract` are not part of this model. Each decision point is an `Observation` given by the caller, and feature sets are compared as vectors of reals.
- `double` arithmetic is modelled as exact real arithmetic. Rounding and NaN are not modelled.
- `int` counters are unbounded. The Java 32-bit wrap-around of the advice, attention and episode counters is not modelled, because no run gets near 2^31 steps.
- `java.util.Random` and `Experiments.rng` become explicit draws passed by the caller. The same goes for the shuffle indices of `Collections.shuffle`, the exploration draw and the correction draw.
- A `HashMap`'s iteration order is modelled as insertion order. The source shuffles the key list before using it, so only the shuffle draws decide the order.
- The SVM (`SVM.trainImportance`, `predictImportance`), the nearest-neighbour and pairwise distance tests (`isUnfamiliarNN`/`isUnfamiliarPW`) and the strategy hooks `lastStateImporant`/`lastActionCorrect` are answers of an `Oracle`. In an `unfamiliar…` mode, `Double.parseDouble` of the suffix (IntelligentStudent.java:163 and :168) runs before the empty-`visitedStates` test (:199 and :214), so a missing or malformed suffix throws there. That parse failure is not modelled: the model asks without consulting the oracle while nothing was visited.
- The classifier statistics (`numPredictedPos/Neg`, `sumQpos/Neg`, `printAvgQsPosNeg`), the example strings written for the SVM, and `loadVisitedState`/`saveStates` are file I/O or debugging output. They are not modelled. Examples are kept as values.
- `updateAllDists` and `updateAvgNearestNeighbor` (IntelligentStudent.java:333-341) compute the averages `avgAllDists` and `avgNearestNeighbor` that `isUnfamiliarPW`/`isUnfamiliarNN` scale into their thresholds (:203, :218). Their only calls are commented out (:125-126), so both averages stay 0.0, and the distance tests ask whenever the nearest visited vector is at any positive distance. The model leaves that test to the oracle's `unfamiliar` answer and does not compute the averages.
- `Collections.sort` at IntelligentStudent.java:201 and :216 reorders `visitedStates` in place by distance to the current state. The model's `visited` stays in play order. Nothing modelled reads that order.
- Base-class `TeachingStrategy.startEpisode()` and `episodeData()` are not part of this model. A strategy's extra data is a parameter of `EpisodeData`.
- Only the three strategy classes listed above have behaviour. The other strategy classes that `create` instantiates (for example `AdviseImportantStates` and `CorrectImportantMistakes`) appear only as the choice `create` makes, with its parameter.
- `Experiments.create` calls a six-argument `IntelligentStudent` constructor with a `teacherRelease` flag. That constructor is not part of this model. The five-argument constructor at IntelligentStudent.java:75-94 is modelled.
- The `AttentionStrategy` constructor of `IntelligentStudent` and the `attention.startEpisode()` call are not modelled. The `askcstuunc` branch builds an `AskAttentionBasedOnCertainty` that it never uses, which the model records as the fixed choice.
- The `QPacMan` branches of `create` are not modelled, because the configured agents end in `S` (SARSA).
- `train`'s directories, learning-curve files, `evaluate`, `watch`, `writeConfig`, `main` and `savePolicy` delegation are not modelled. `findBestTeacher` takes the evaluated scores as input.
- Experiments.Episode: it is modelled for a lone `SarsaPacMan`. The same loop over a `Student` or `IntelligentStudent` pair has the same control flow and is not written separately. The agent's state after the episode is stated only as valid and in training mode.
- Collector.CollectStates: `TRAJ_LENGTH` and `numStates` are parameters, and a window of 0 (an `ArrayBlockingQueue` of capacity 0 throws) is excluded. The unused `random`, `chanceInt`, `c` and `lastState` are dead code and are not modelled. The trajectory window is returned so it can be inspected. The agent's final state beyond its weights is not stated.
- Sarsa.SarsaPacMan.GetMove: it requires the acting index to be legal. The source would throw for −1, which no caller produces, because advice is always one of the teacher's legal moves.
- Sarsa.SarsaPacMan.GetFeatures: it requires a legal move. The source indexes `features[-1]` and throws for an illegal one, which no caller passes.
- Sarsa.SarsaPacMan.GetNthQvalue: it requires 0 ≤ n < 100. For any other n the source sorts the gap buffer and then throws out of range (SarsaPacMan.java:263-264). No caller passes such an n.
- Sarsa.SarsaPacMan.RecordAdvisedState: it requires the advised move to be legal. For an illegal move the source's `getFeatures` indexes −1 and throws (SarsaPacMan.java:232). Callers pass only the teacher's advice, which is a legal move of the same state.
- Teaching.Strategy.GiveAdvice: the percentile variant requires a cutoff inside the 100-entry gap buffer. The source would throw out of range.
- `giveAdvice` never checks `left`; only the callers' `inUse()` guard stops advice once the budget is spent, and the model does the same.
- Sarsa.SarsaPacMan.ProcessStep: it requires `Ready`, an acting index inside the legal moves, and so does SarsaModel.Processed. The source indexes `qvalues[lastActionIndex]` and `features[lastActionIndex]` (SarsaPacMan.java:100-112) with whatever index `setMove` left. A `setMove` of a move that is not legal sets that index to −1, and `processStep` then throws `ArrayIndexOutOfBoundsException`. That throw is not modelled; `startEpisode` and every `processStep` choose a legal index, and callers pass `setMove` only the teacher's advice, which is a legal move of the same state.
- IntelligentStudents.IntelligentStudent.constructor: it requires `PredictionStart(mode).Some?`, and so does IntelligentStudents.NewTutored. For an `importancePrediction` mode with a missing or malformed number the source throws `NumberFormatException` at IntelligentStudent.java:84. That throw is not modelled; PredictionStartParses shows which modes it concerns.
- Text.ParseInt: it accepts only the ASCII digits '0'–'9'. Java's `Integer.parseInt` also accepts other Unicode decimal digits through `Character.digit`. Those are not modelled.
- QFunctions.QFunction.MaxUpdate: `maxUpdate` overwrites the weights rather than adding to them, so a correction can lower the advised action's value instead of raising it toward the best alternative. CorrectionCanLowerAdvisedValue exhibits it: with one feature, weight 1, advised features [1.0] and alternative [2.0], the new weight is 0 and the advised value falls from 1 to 0. The model keeps the code's behaviour, because the intended update is not evident from the code.
- The "already there" message printed by `recordAdvisedState` is output only and is not modelled.

## Findings

| source | as written | input that shows it | evidently intended | confidence | as-written member | corrected member |
|---|---|---|---|---|---|---|
| src/pacman/teaching/IntelligentStudent.java:420-421 | the strategy's data is copied into `data[d+2]` of an array of length `extra+3` | extra data [7], advice 0, attention 0, episode length 5: the record is [0, 0, 7, 0], so the length is overwritten and the last slot stays 0 | copy to `data[d+3]`, giving [0, 0, 5, 7] | high, not executed | IntelligentStudents.IntelligentStudent.EpisodeDataAsWritten (with IntelligentStudents.WrittenRecordExample) | IntelligentStudents.IntelligentStudent.EpisodeData (with IntelligentStudents.TutoredRecordDecodes) |
