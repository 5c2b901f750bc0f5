/** `AskAttentionBasedOnCertainty`: the student asks for the teacher's attention when it is
    unsure, that is when its q-values lie closer together than a threshold. Nothing in it ever
    changes after construction, so it is a value. */
module Attention {
  import opened Vectors
  import opened SarsaModel

  /** `Experiments.ASKBUDGET`. */
  const ASKBUDGET: int := 1000

  datatype AskAttention = AskAttention(left: int, threshold: int)

  /** `new AskAttentionBasedOnCertainty(threshold)`: the whole attention budget, and the
      threshold as given. */
  function NewAskAttention(threshold: int): (r: AskAttention)
    ensures r.threshold == threshold && r.left == ASKBUDGET
  {
    AskAttention(ASKBUDGET, threshold)
  }

  /** `askForAdvice(student)`: the spread of the student's q-values is below the threshold.
      A spread is never negative, so only a positive threshold can ever ask. */
  predicate AskForAdvice(a: AskAttention, student: Agent): (r: bool)
    requires |student.qvalues| > 0
    ensures r ==> a.threshold > 0
  {
    Spread(student.qvalues) < a.threshold as real
  }

  /** `inUse`: while any attention budget is left. Nothing spends the budget the constructor
      sets, so every gate the source builds is in use. */
  predicate InUse(a: AskAttention): (r: bool)
    ensures a.left == ASKBUDGET ==> r
  {
    a.left > 0
  }

  /** The student asks exactly when every two of its q-values are less than `threshold` apart;
      a non-positive threshold never asks, since a spread is never negative. */
  lemma AskMeansCloseValues(a: AskAttention, student: Agent)
    requires |student.qvalues| > 0
    ensures AskForAdvice(a, student) <==>
      forall i, j :: 0 <= i < |student.qvalues| && 0 <= j < |student.qvalues| ==>
        student.qvalues[i] - student.qvalues[j] < a.threshold as real
    ensures a.threshold <= 0 ==> !AskForAdvice(a, student)
  {
    SpreadBelow(student.qvalues, a.threshold as real);
    var q := student.qvalues;
    assert q[0] - q[0] == 0.0;
  }
}
