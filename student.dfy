/** `Student`: a learner that may take advice. At every decision point the student names its
    move; in training, while the teaching strategy has budget, the teacher names its own, and
    the strategy decides whether the teacher's move replaces the student's. The initiator
    ("teacher" or "student") says whose q-values the strategy judges. */
module Students {
  import opened Vectors
  import opened Game
  import opened SarsaModel
  import opened Sarsa
  import opened Teaching

  /** The state of a student-teacher pair: both agents, the strategy's budget, the mode and the
      advice given in the current episode. */
  datatype Pair = Pair(student: Agent, teacher: Agent, left: int, testMode: bool, adviceCount: int)

  /** The teacher takes part in training while the strategy has budget. */
  predicate Advising(s: Pair)
  {
    !s.testMode && s.left > 0
  }

  /** Both agents keep their invariant, over one feature set. */
  ghost predicate PairInv(s: Pair)
  {
    Inv(s.student) && Inv(s.teacher) && |s.student.p.weights| == |s.teacher.p.weights|
  }

  /** At a decision point: the student is ready to act and, while the teacher takes part, the
      teacher has evaluated the same moves in test mode and is ready too. */
  ghost predicate Playing(s: Pair)
  {
    Ready(s.student) &&
    (Advising(s) ==> s.teacher.testMode && Ready(s.teacher) && s.teacher.actions == s.student.actions)
  }

  /** `startEpisode(game, testMode)`: the mode is set, the advice count zeroed and the student
      started; the teacher is started, in test mode, only in training with budget left. */
  function PairStarted(s: Pair, testMode: bool, o: Observation, ds: Draws, dt: Draws): Pair
    requires PairInv(s) && WellFormed(o, |s.student.p.weights|) && ds.pick < |o.moves| && dt.pick < |o.moves|
  {
    var r := s.(testMode := testMode, adviceCount := 0, student := Started(s.student, testMode, o, ds.explore, ds.pick));
    if !testMode && s.left > 0 then r.(teacher := Started(s.teacher, true, o, dt.explore, dt.pick)) else r
  }

  /** Advice taken: the student acts on the teacher's move, the count rises and the strategy
      spends one unit of budget. */
  function Advised(s: Pair, advice: Move): Pair
  {
    s.(student := WithMove(s.student, advice), adviceCount := s.adviceCount + 1, left := s.left - 1)
  }

  /** `getMove`: the move played and the state after it. `draw` is the strategy's random draw. */
  function PairMoved(s: Pair, t: Teaching, initiator: string, draw: real): (Pair, Move)
    requires PairInv(s) && Playing(s) && Usable(t)
  {
    var choice := s.student.actions[s.student.lastActionIndex];
    if !Advising(s) then (s, choice)
    else
      var advice := s.teacher.actions[s.teacher.lastActionIndex];
      if initiator == "teacher" then
        var d := Decide(t, s.teacher, choice, advice, draw);
        var r := s.(teacher := d.evaluator);
        if d.advise then (Advised(r, advice), advice) else (r, choice)
      else if initiator == "student" then
        var d := Decide(t, s.student, choice, advice, draw);
        var r := s.(student := d.evaluator);
        if d.advise then (Advised(r, advice), advice) else (r, choice)
      else (s, choice)
  }

  /** `processStep(game)`: the student always steps; the teacher steps only while it takes
      part. An exception from the student's step ends the call before the teacher's. */
  function PairProcessed(s: Pair, o: Observation, ds: Draws, dt: Draws): (Pair, bool)
    requires PairInv(s) && Playing(s) && WellFormed(o, |s.student.p.weights|)
    requires !o.over ==> ds.pick < |o.moves| && dt.pick < |o.moves|
  {
    var (st, thrown) := Processed(s.student, o, ds.explore, ds.pick, ds.roll);
    var r := s.(student := st);
    if thrown || !Advising(s) then (r, thrown)
    else
      var (tt, tthrown) := Processed(s.teacher, o, dt.explore, dt.pick, dt.roll);
      (r.(teacher := tt), tthrown)
  }

  /** `episodeData`: the advice count followed by the strategy's own data. */
  function EpisodeRecord(adviceCount: int, extra: seq<real>): (r: seq<real>)
    ensures |r| == |extra| + 1 && r[0] == adviceCount as real
    ensures forall d :: 0 <= d < |extra| ==> r[d + 1] == extra[d]
  {
    [adviceCount as real] + extra
  }

  // Facts about the pair.

  /** A started episode counts no advice yet, the student is freshly reset and acting on the
      first decision point, and the teacher takes part exactly when training with budget, in
      which case it was started in test mode on the same moves; otherwise it is left as it was. */
  lemma PairStartedFacts(s: Pair, testMode: bool, o: Observation, ds: Draws, dt: Draws)
    requires PairInv(s) && WellFormed(o, |s.student.p.weights|) && ds.pick < |o.moves| && dt.pick < |o.moves|
    ensures var r := PairStarted(s, testMode, o, ds, dt);
      PairInv(r) && Playing(r) && r.adviceCount == 0 && r.testMode == testMode && r.left == s.left &&
      r.student.actions == o.moves && r.student.lastScore == 0 && !r.student.doUpdate &&
      r.student.advised == map[] && r.student.p.traces == Zeros(|s.student.p.weights|) &&
      (Advising(r) ==> r.teacher.actions == o.moves && r.teacher.testMode && r.teacher.lastActionIndex == r.teacher.bestActionIndex) &&
      (!Advising(r) ==> r.teacher == s.teacher)
  {
    StartedResets(s.student, testMode, o, ds.explore, ds.pick);
    EvaluateFacts(Reset(s.student, testMode), o, ds.explore, ds.pick);
    if !testMode && s.left > 0 {
      StartedResets(s.teacher, true, o, dt.explore, dt.pick);
      EvaluateFacts(Reset(s.teacher, true), o, dt.explore, dt.pick);
    }
  }

  /** Outside training, or with the budget spent, the student's own move is played and nothing
      changes. With an initiator other than "teacher" and "student" no advice is ever given. */
  lemma NoAdviceFacts(s: Pair, t: Teaching, initiator: string, draw: real)
    requires PairInv(s) && Playing(s) && Usable(t)
    requires !Advising(s) || (initiator != "teacher" && initiator != "student")
    ensures PairMoved(s, t, initiator, draw) == (s, s.student.actions[s.student.lastActionIndex])
  {
  }

  /** A move either is the student's own, with the state unchanged but for the evaluator's
      buffer order, or is the teacher's advice, which then becomes the student's acting move,
      one more piece of advice counted and one unit of budget spent. Which of the two it is, is
      the strategy's decision on the initiator's agent. Either way the pair stays at the
      decision point, the move played is the one the student acts on, and advice counted plus
      budget left is unchanged. */
  lemma PairMovedFacts(s: Pair, t: Teaching, initiator: string, draw: real)
    requires PairInv(s) && Playing(s) && Usable(t) && Advising(s)
    ensures var (r, m) := PairMoved(s, t, initiator, draw);
      var choice := s.student.actions[s.student.lastActionIndex];
      var advice := s.teacher.actions[s.teacher.lastActionIndex];
      var given := (initiator == "teacher" && Decide(t, s.teacher, choice, advice, draw).advise) ||
                   (initiator == "student" && Decide(t, s.student, choice, advice, draw).advise);
      PairInv(r) && Playing(r) && r.testMode == s.testMode &&
      r.student.actions[r.student.lastActionIndex] == m &&
      r.adviceCount + r.left == s.adviceCount + s.left &&
      (given ==> m == advice && r.adviceCount == s.adviceCount + 1) &&
      (!given ==> m == choice && r.adviceCount == s.adviceCount && r.student.lastActionIndex == s.student.lastActionIndex)
  {
    var choice := s.student.actions[s.student.lastActionIndex];
    var advice := s.teacher.actions[s.teacher.lastActionIndex];
    DecideKeepsEvaluator(t, s.teacher, choice, advice, draw);
    DecideKeepsEvaluator(t, s.student, choice, advice, draw);
    var e := if initiator == "teacher" then Decide(t, s.teacher, choice, advice, draw).evaluator
             else Decide(t, s.student, choice, advice, draw).evaluator;
    WithMoveFacts(e, advice);
    WithMoveFacts(s.student, advice);
  }

  /** A step keeps both agents' invariant and, unless the game ended, leaves the pair at the
      next decision point; the student always steps, the teacher only while it takes part (and
      never throws, being in test mode), and the advice count and budget do not move. */
  lemma PairProcessedFacts(s: Pair, o: Observation, ds: Draws, dt: Draws)
    requires PairInv(s) && Playing(s) && WellFormed(o, |s.student.p.weights|)
    requires !o.over ==> ds.pick < |o.moves| && dt.pick < |o.moves|
    ensures var (r, thrown) := PairProcessed(s, o, ds, dt);
      var (st, sthrown) := Processed(s.student, o, ds.explore, ds.pick, ds.roll);
      PairInv(r) && Playing(r) && r.student == st &&
      r.adviceCount == s.adviceCount && r.left == s.left && r.testMode == s.testMode &&
      (thrown <==> sthrown) &&
      (!Advising(s) || sthrown ==> r.teacher == s.teacher) &&
      (Advising(s) && !sthrown ==> r.teacher == Processed(s.teacher, o, dt.explore, dt.pick, dt.roll).0) &&
      (!o.over ==> r.student.actions == o.moves)
  {
    ProcessedFacts(s.student, o, ds.explore, ds.pick, ds.roll);
    ProcessedMoves(s.student, o, ds.explore, ds.pick, ds.roll);
    if Advising(s) {
      ProcessedFacts(s.teacher, o, dt.explore, dt.pick, dt.roll);
      ProcessedMoves(s.teacher, o, dt.explore, dt.pick, dt.roll);
    }
  }

  /** Two agents that share no object: no update of one can touch the other. */
  ghost predicate Apart(a: SarsaPacMan, b: SarsaPacMan)
    reads a, a.q, b, b.q
  {
    a != b && a.q != b.q && a.advisedStates != b.advisedStates &&
    a.qvalues != b.qvalues && a.qvalues != b.qdiffs && a.qvalues != b.q.weights && a.qvalues != b.q.eligibility &&
    a.qdiffs != b.qvalues && a.qdiffs != b.qdiffs && a.qdiffs != b.q.weights && a.qdiffs != b.q.eligibility &&
    a.q.weights != b.qvalues && a.q.weights != b.qdiffs && a.q.weights != b.q.weights && a.q.weights != b.q.eligibility &&
    a.q.eligibility != b.qvalues && a.q.eligibility != b.qdiffs && a.q.eligibility != b.q.weights &&
    a.q.eligibility != b.q.eligibility
  }

  /** The advised learner of the experiments: a student agent, a teacher agent and a teaching
      strategy, owned by it and sharing no state. */
  class Student {
    const teacher: SarsaPacMan
    const student: SarsaPacMan
    const strategy: Strategy
    const initiator: string
    var testMode: bool
    var adviceCount: int

    ghost predicate Valid()
      reads this, strategy, student, student.q, student.q.weights, student.q.eligibility, student.qvalues, student.qdiffs, student.advisedStates
      reads teacher, teacher.q, teacher.q.weights, teacher.q.eligibility, teacher.qvalues, teacher.qdiffs, teacher.advisedStates
    {
      student.Valid() && teacher.Valid() && strategy.Valid() &&
      Apart(student, teacher) && student.size == teacher.size
    }

    ghost function State(): Pair
      reads this, strategy, student, student.q, student.q.weights, student.q.eligibility, student.qvalues, student.qdiffs, student.advisedStates
      reads teacher, teacher.q, teacher.q.weights, teacher.q.eligibility, teacher.qvalues, teacher.qdiffs, teacher.advisedStates
    {
      Pair(student.State(), teacher.State(), strategy.left, testMode, adviceCount)
    }

    /** `new Student(teacher, student, strategy, initiator)`. */
    constructor (teacher: SarsaPacMan, student: SarsaPacMan, strategy: Strategy, initiator: string)
      requires student.Valid() && teacher.Valid() && strategy.Valid() && student.size == teacher.size
      requires Apart(student, teacher)
      ensures Valid() && this.initiator == initiator
      ensures this.student == student && this.teacher == teacher && this.strategy == strategy
      ensures State() == Pair(student.State(), teacher.State(), strategy.left, false, 0)
    {
      this.teacher := teacher;
      this.student := student;
      this.strategy := strategy;
      this.initiator := initiator;
      testMode := false;
      adviceCount := 0;
    }

    /** `startEpisode`. */
    method StartEpisode(o: Observation, testMode: bool, ds: Draws, dt: Draws)
      requires Valid() && WellFormed(o, student.size) && ds.pick < |o.moves| && dt.pick < |o.moves|
      modifies this, student, student.q, student.q.eligibility, student.qdiffs
      modifies teacher, teacher.q, teacher.q.eligibility, teacher.qdiffs
      ensures Valid()
      ensures State() == PairStarted(old(State()), testMode, o, ds, dt)
    {
      SetMode(testMode);
      StartStudent(o, ds);
      if !testMode && strategy.InUse() {
        StartTeacher(o, dt);
      }
    }

    /** The resets of `startEpisode`: the mode, and no advice yet. */
    method SetMode(testMode: bool)
      requires Valid()
      modifies this`testMode, this`adviceCount
      ensures Valid() && State() == old(State()).(testMode := testMode, adviceCount := 0)
    {
      this.testMode, adviceCount := testMode, 0;
    }

    /** The student's part of `startEpisode`. */
    method StartStudent(o: Observation, ds: Draws)
      requires Valid() && WellFormed(o, student.size) && ds.pick < |o.moves|
      modifies student, student.q, student.q.eligibility, student.qdiffs
      ensures Valid()
      ensures State() == old(State()).(student := Started(old(State()).student, testMode, o, ds.explore, ds.pick))
    {
      student.StartEpisode(o, testMode, ds.explore, ds.pick);
    }

    /** The teacher's part of `startEpisode`: always in test mode. */
    method StartTeacher(o: Observation, dt: Draws)
      requires Valid() && WellFormed(o, teacher.size) && dt.pick < |o.moves|
      modifies teacher, teacher.q, teacher.q.eligibility, teacher.qdiffs
      ensures Valid()
      ensures State() == old(State()).(teacher := Started(old(State()).teacher, true, o, dt.explore, dt.pick))
    {
      teacher.StartEpisode(o, true, dt.explore, dt.pick);
    }

    /** `getMove`: the student's move, or the teacher's when the strategy advises. `draw` is
        the strategy's random draw. */
    method GetMove(draw: real) returns (m: Move)
      requires Valid() && Playing(State()) && Usable(strategy.teaching)
      modifies this`adviceCount, student`lastActionIndex, student.qdiffs, teacher.qdiffs, strategy`left, strategy`given
      ensures Valid()
      ensures (State(), m) == PairMoved(old(State()), strategy.teaching, initiator, draw)
    {
      var choice := student.GetMove();
      if !testMode && strategy.InUse() {
        var advice := teacher.GetMove();
        var give;
        if initiator == "teacher" {
          give, m := Consult(teacher, choice, advice, draw);
          return;
        }
        if initiator == "student" {
          give, m := Consult(student, choice, advice, draw);
          return;
        }
      }
      return choice;
    }

    /** The strategy judges `choice` against the teacher's move `advice` with `evaluator`'s
        q-values; advice given is taken. `give` reports whether it was. */
    method Consult(evaluator: SarsaPacMan, choice: Move, advice: Move, draw: real) returns (give: bool, m: Move)
      requires Valid() && Playing(State()) && Advising(State()) && Usable(strategy.teaching)
      requires evaluator == teacher || evaluator == student
      requires choice == student.actions[student.lastActionIndex] && advice == teacher.actions[teacher.lastActionIndex]
      modifies this`adviceCount, student`lastActionIndex, evaluator.qdiffs, strategy`left, strategy`given
      ensures Valid()
      ensures var s := old(State());
        var d := Decide(strategy.teaching, if evaluator == teacher then s.teacher else s.student, choice, advice, draw);
        var r := if evaluator == teacher then s.(teacher := d.evaluator) else s.(student := d.evaluator);
        give == d.advise && (State(), m) == if d.advise then (Advised(r, advice), advice) else (r, choice)
    {
      ghost var s := State();
      ghost var d := Decide(strategy.teaching, if evaluator == teacher then s.teacher else s.student, choice, advice, draw);
      ghost var r := if evaluator == teacher then s.(teacher := d.evaluator) else s.(student := d.evaluator);
      give := Judge(evaluator, choice, advice, draw);
      assert State() == if give then r.(left := r.left - 1) else r;
      if give {
        TakeAdvice(advice);
        return give, advice;
      }
      return give, choice;
    }

    /** The strategy's decision with `evaluator`'s q-values. */
    method Judge(evaluator: SarsaPacMan, choice: Move, advice: Move, draw: real) returns (give: bool)
      requires Valid() && Usable(strategy.teaching) && (evaluator == teacher || evaluator == student)
      requires evaluator.qvalues.Length > 0
      modifies evaluator.qdiffs, strategy`left, strategy`given
      ensures Valid()
      ensures var s := old(State());
        var d := Decide(strategy.teaching, if evaluator == teacher then s.teacher else s.student, choice, advice, draw);
        give == d.advise &&
        State() == (if evaluator == teacher then s.(teacher := d.evaluator) else s.(student := d.evaluator))
                     .(left := if give then s.left - 1 else s.left)
    {
      give := strategy.GiveAdvice(evaluator, choice, advice, draw);
    }

    /** Advice taken: the student acts on it and it is counted. */
    method TakeAdvice(advice: Move)
      requires Valid()
      modifies this`adviceCount, student`lastActionIndex
      ensures Valid()
      ensures State() == old(State()).(student := WithMove(old(State()).student, advice), adviceCount := old(adviceCount) + 1)
    {
      student.SetMove(advice);
      adviceCount := adviceCount + 1;
    }

    /** `processStep`: `thrown` reports an exception from the student's max-update sweep. */
    method ProcessStep(o: Observation, ds: Draws, dt: Draws) returns (thrown: bool)
      requires Valid() && Playing(State()) && WellFormed(o, student.size)
      requires !o.over ==> ds.pick < |o.moves| && dt.pick < |o.moves|
      modifies student, student.q, student.q.weights, student.q.eligibility, student.qdiffs, student.advisedStates
      modifies teacher, teacher.q, teacher.q.weights, teacher.q.eligibility, teacher.qdiffs, teacher.advisedStates
      ensures Valid()
      ensures (State(), thrown) == PairProcessed(old(State()), o, ds, dt)
    {
      thrown := StepStudent(o, ds);
      if thrown {
        return;
      }
      if !testMode && strategy.InUse() {
        thrown := StepTeacher(o, dt);
      }
    }

    /** The student's part of `processStep`. */
    method StepStudent(o: Observation, ds: Draws) returns (thrown: bool)
      requires Valid() && Ready(student.State()) && WellFormed(o, student.size) && (!o.over ==> ds.pick < |o.moves|)
      modifies student, student.q, student.q.weights, student.q.eligibility, student.qdiffs, student.advisedStates
      ensures Valid()
      ensures var (st, th) := Processed(old(State()).student, o, ds.explore, ds.pick, ds.roll);
        State() == old(State()).(student := st) && thrown == th
    {
      ghost var t := teacher.State();
      thrown := student.ProcessStep(o, ds.explore, ds.pick, ds.roll);
      assert teacher.State() == t && teacher.Valid();
      assert Apart(student, teacher);
    }

    /** The teacher's part of `processStep`. */
    method StepTeacher(o: Observation, dt: Draws) returns (thrown: bool)
      requires Valid() && Ready(teacher.State()) && WellFormed(o, teacher.size) && (!o.over ==> dt.pick < |o.moves|)
      modifies teacher, teacher.q, teacher.q.weights, teacher.q.eligibility, teacher.qdiffs, teacher.advisedStates
      ensures Valid()
      ensures var (tt, th) := Processed(old(State()).teacher, o, dt.explore, dt.pick, dt.roll);
        State() == old(State()).(teacher := tt) && thrown == th
    {
      ghost var t := student.State();
      thrown := teacher.ProcessStep(o, dt.explore, dt.pick, dt.roll);
      assert student.State() == t && student.Valid();
      assert Apart(student, teacher);
    }

    /** `episodeData`, given the strategy's own data `extra`. */
    method EpisodeData(extra: seq<real>) returns (data: array<real>)
      ensures fresh(data) && data[..] == EpisodeRecord(adviceCount, extra)
    {
      data := new real[|extra| + 1](_ => 0.0);
      data[0] := adviceCount as real;
      var d := 0;
      while d < |extra|
        modifies data
        invariant 0 <= d <= |extra|
        invariant data[0] == adviceCount as real
        invariant forall j :: 0 <= j < d ==> data[j + 1] == extra[j]
      {
        data[d + 1] := extra[d];
        d := d + 1;
      }
      assert data[..] == EpisodeRecord(adviceCount, extra);
    }
  }
}
