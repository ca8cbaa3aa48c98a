/**
 * The Matrix Agent Challenge: a five-question quiz with a per-question
 * countdown, a running "neuroPulse" score and a pass mark. The component's
 * six pieces of state are the fields of class Challenge; the events it
 * reacts to (an answer click, a timer tick, the delayed advance after the
 * answer feedback, the restart button) are its methods.
 */
module Quiz {
  import opened Wrappers

  datatype Mood = Neutral | Friendly | Hostile

  datatype AnswerStatus = Correct | Incorrect

  datatype Question = Question(prompt: string, options: seq<string>, correctAnswer: string, pulse: nat)

  /** Seconds allowed for each question. */
  const TimeLimit: nat := 15

  const Questions: seq<Question> := [
    Question("You see a red door and a blue door. Which one do you choose?",
             ["Red", "Blue", "Neither", "Both"], "Blue", 10),
    Question("Decode: 01001110 01000101 01001111",
             ["MATRIX", "AGENT", "NEO", "MORPHEUS"], "NEO", 15),
    Question("What's more important: freedom or control?",
             ["Freedom", "Control", "Balance", "Neither"], "Freedom", 20),
    Question("Create a word from 'MATRIX' that describes you.",
             ["MIRAGE", "TACTIC", "ENIGMA", "AXIOM"], "ENIGMA", 25),
    Question("If you were to 'bend the spoon', what would you actually be bending?",
             ["The spoon", "Your mind", "The Matrix", "Reality"], "Your mind", 30)
  ]

  /** A final pulse strictly above this passes. */
  const PassMark: nat := |Questions| * 15

  predicate Passed(pulse: nat) { pulse > PassMark }

  /** The mood `endGame` sets for a given pulse. */
  function EndMood(pulse: nat): (m: Mood)
    ensures m != Neutral
    ensures m == Friendly <==> Passed(pulse)
  {
    if pulse > PassMark then Friendly else Hostile
  }

  // ---------------------------------------------------------------------------
  // Scores
  // ---------------------------------------------------------------------------

  /** The combined reward of the first `n` questions. */
  function PulseTotal(n: nat): nat
    requires n <= |Questions|
  {
    if n == 0 then 0 else PulseTotal(n - 1) + Questions[n - 1].pulse
  }

  lemma {:induction false} PulseTotalMonotone(m: nat, n: nat)
    requires m <= n <= |Questions|
    ensures PulseTotal(m) <= PulseTotal(n)
  {
    if m < n {
      PulseTotalMonotone(m, n - 1);
    }
  }

  /** Answering every question correctly is worth 100. */
  lemma AllPulses()
    ensures PulseTotal(|Questions|) == 100
  {
    assert PulseTotal(5) == PulseTotal(4) + 30;
    assert PulseTotal(4) == PulseTotal(3) + 25;
    assert PulseTotal(3) == PulseTotal(2) + 20;
  }

  /**
   * The pulse earned by a run whose answered questions, in order, were
   * right or wrong as `hits` says.
   */
  function Score(hits: seq<bool>): (s: nat)
    requires |hits| <= |Questions|
    ensures s <= PulseTotal(|hits|)
  {
    if hits == [] then 0
    else Score(hits[..|hits| - 1]) + (if hits[|hits| - 1] then Questions[|hits| - 1].pulse else 0)
  }

  /** Question `i` was answered, and answered correctly. */
  predicate Hit(hits: seq<bool>, i: nat) { i < |hits| && hits[i] }

  function Reward(hits: seq<bool>, i: nat): nat
    requires i < |Questions|
  {
    if Hit(hits, i) then Questions[i].pulse else 0
  }

  /** The rewards earned on questions 0..n-1. */
  function RewardsBelow(hits: seq<bool>, n: nat): nat
    requires n <= |Questions|
  {
    if n == 0 then 0 else RewardsBelow(hits, n - 1) + Reward(hits, n - 1)
  }

  /** The number of questions among 0..n-1 that were missed (wrong or never answered). */
  function MissesBelow(hits: seq<bool>, n: nat): nat
    requires n <= |Questions|
  {
    if n == 0 then 0 else MissesBelow(hits, n - 1) + (if Hit(hits, n - 1) then 0 else 1)
  }

  lemma {:induction false} RewardsAgree(a: seq<bool>, b: seq<bool>, n: nat)
    requires n <= |Questions|
    requires forall i :: 0 <= i < n ==> Hit(a, i) == Hit(b, i)
    ensures RewardsBelow(a, n) == RewardsBelow(b, n)
  {
    if n > 0 {
      RewardsAgree(a, b, n - 1);
    }
  }

  lemma {:induction false} RewardsBeyondAnswered(hits: seq<bool>, n: nat)
    requires |hits| <= n <= |Questions|
    ensures RewardsBelow(hits, n) == RewardsBelow(hits, |hits|)
  {
    if n > |hits| {
      RewardsBeyondAnswered(hits, n - 1);
    }
  }

  /** The score is the sum, over all questions, of the reward earned on each. */
  lemma {:induction false} ScoreByQuestion(hits: seq<bool>)
    requires |hits| <= |Questions|
    ensures Score(hits) == RewardsBelow(hits, |Questions|)
  {
    RewardsBeyondAnswered(hits, |Questions|);
    ScoreIsRewards(hits);
  }

  lemma {:induction false} ScoreIsRewards(hits: seq<bool>)
    requires |hits| <= |Questions|
    ensures Score(hits) == RewardsBelow(hits, |hits|)
  {
    if hits != [] {
      var k := |hits| - 1;
      var p := hits[..k];
      ScoreIsRewards(p);
      RewardsAgree(p, hits, k);
    }
  }

  lemma PulseValues()
    ensures Questions[0].pulse == 10 && Questions[1].pulse == 15 && Questions[2].pulse == 20
    ensures Questions[3].pulse == 25 && Questions[4].pulse == 30 && PassMark == 75
  {
  }

  /** The pass rule on the five per-question outcomes. */
  lemma PassArithmetic(h0: bool, h1: bool, h2: bool, h3: bool, h4: bool)
    ensures (if h0 then 10 else 0) + (if h1 then 15 else 0) + (if h2 then 20 else 0)
            + (if h3 then 25 else 0) + (if h4 then 30 else 0) > 75
            <==>
            (if h0 then 0 else 1) + (if h1 then 0 else 1) + (if h2 then 0 else 1)
            + (if h3 then 0 else 1) + (if h4 then 0 else 1) <= 1 && h3 && h4
  {
  }

  /**
   * The pass rule: with rewards 10, 15, 20, 25 and 30 and a pass mark of 75,
   * a run passes exactly when at most one question is missed and the missed
   * question is not one of those worth 25 or more.
   */
  lemma PassRule(hits: seq<bool>)
    requires |hits| <= |Questions|
    ensures Passed(Score(hits)) <==>
              && MissesBelow(hits, |Questions|) <= 1
              && forall i :: 0 <= i < |Questions| && !Hit(hits, i) ==> Questions[i].pulse < 25
  {
    ScoreOfFive(hits);
    MissesOfFive(hits);
    CheapMisses(hits);
    PassArithmetic(Hit(hits, 0), Hit(hits, 1), Hit(hits, 2), Hit(hits, 3), Hit(hits, 4));
  }

  lemma ScoreOfFive(hits: seq<bool>)
    requires |hits| <= |Questions|
    ensures Score(hits) ==
              (if Hit(hits, 0) then 10 else 0) + (if Hit(hits, 1) then 15 else 0)
              + (if Hit(hits, 2) then 20 else 0) + (if Hit(hits, 3) then 25 else 0)
              + (if Hit(hits, 4) then 30 else 0)
  {
    ScoreByQuestion(hits);
    PulseValues();
    assert RewardsBelow(hits, 5) == RewardsBelow(hits, 4) + Reward(hits, 4);
    assert RewardsBelow(hits, 4) == RewardsBelow(hits, 3) + Reward(hits, 3);
    assert RewardsBelow(hits, 3) == RewardsBelow(hits, 2) + Reward(hits, 2);
    assert RewardsBelow(hits, 2) == RewardsBelow(hits, 1) + Reward(hits, 1);
  }

  lemma MissesOfFive(hits: seq<bool>)
    ensures MissesBelow(hits, |Questions|) ==
              (if Hit(hits, 0) then 0 else 1) + (if Hit(hits, 1) then 0 else 1)
              + (if Hit(hits, 2) then 0 else 1) + (if Hit(hits, 3) then 0 else 1)
              + (if Hit(hits, 4) then 0 else 1)
  {
    assert MissesBelow(hits, 5) == MissesBelow(hits, 4) + (if Hit(hits, 4) then 0 else 1);
    assert MissesBelow(hits, 4) == MissesBelow(hits, 3) + (if Hit(hits, 3) then 0 else 1);
    assert MissesBelow(hits, 3) == MissesBelow(hits, 2) + (if Hit(hits, 2) then 0 else 1);
    assert MissesBelow(hits, 2) == MissesBelow(hits, 1) + (if Hit(hits, 1) then 0 else 1);
    assert MissesBelow(hits, 1) == (if Hit(hits, 0) then 0 else 1);
  }

  /** Only the questions worth 25 and 30 are expensive to miss. */
  lemma CheapMisses(hits: seq<bool>)
    ensures (forall i :: 0 <= i < |Questions| && !Hit(hits, i) ==> Questions[i].pulse < 25)
            <==> Hit(hits, 3) && Hit(hits, 4)
  {
    PulseValues();
    if Hit(hits, 3) && Hit(hits, 4) {
      forall i | 0 <= i < |Questions| && !Hit(hits, i)
        ensures Questions[i].pulse < 25
      {
        assert i < 3;
      }
    }
  }

  // ---------------------------------------------------------------------------
  // The component
  // ---------------------------------------------------------------------------

  class Challenge {
    var currentQuestion: nat
    var neuroPulse: nat
    var timeLeft: nat
    var gameOver: bool
    var agentMood: Mood
    /** None while the current question awaits an answer. */
    var answerStatus: Option<AnswerStatus>
    /** Whether each question answered so far was answered correctly, in order. */
    ghost var hits: seq<bool>

    /**
     * Every question before the current one was answered once, the current
     * one at most once (exactly when a status is shown), and the pulse is the
     * score of those answers.
     */
    ghost predicate Answered()
      reads this
    {
      && currentQuestion < |Questions|
      && timeLeft <= TimeLimit
      && |hits| == currentQuestion + (if answerStatus.Some? then 1 else 0)
      && neuroPulse == Score(hits)
      && (answerStatus.Some? ==> hits[currentQuestion] == (answerStatus.value == Correct))
    }

    /** The object invariant: the above, and a running game has time left. */
    ghost predicate Valid()
      reads this
    {
      Answered() && (!gameOver ==> timeLeft > 0)
    }

    /** The initial state of the six `useState` hooks. */
    predicate AtStart()
      reads this
    {
      && currentQuestion == 0
      && neuroPulse == 0
      && timeLeft == TimeLimit
      && !gameOver
      && agentMood == Neutral
      && answerStatus == None
    }

    constructor ()
      ensures Valid() && AtStart() && hits == []
    {
      currentQuestion, neuroPulse, timeLeft := 0, 0, TimeLimit;
      gameOver, agentMood, answerStatus := false, Neutral, None;
      hits := [];
    }

    /** `endGame`: the game is over and the mood reflects the verdict on the current pulse. */
    method EndGame()
      requires Answered()
      modifies this
      ensures Valid()
      ensures gameOver && agentMood == EndMood(neuroPulse)
      ensures currentQuestion == old(currentQuestion) && neuroPulse == old(neuroPulse)
      ensures timeLeft == old(timeLeft) && answerStatus == old(answerStatus) && hits == old(hits)
    {
      gameOver := true;
      agentMood := EndMood(neuroPulse);
    }

    /**
     * `handleAnswer(option)`. The option buttons are shown only while the
     * game runs and are disabled once a status is shown, so a click then
     * changes nothing. Otherwise the answer is right exactly when it equals
     * the question's answer character for character, and only a right answer
     * adds the question's reward.
     */
    method Answer(option: string)
      requires Valid()
      modifies this
      ensures Valid()
      ensures old(gameOver) || old(answerStatus).Some? ==> unchanged(this)
      ensures !old(gameOver) && old(answerStatus).None? ==>
                var q := Questions[old(currentQuestion)];
                var correct := option == q.correctAnswer;
                && neuroPulse == old(neuroPulse) + (if correct then q.pulse else 0)
                && answerStatus == Some(if correct then Correct else Incorrect)
                && agentMood == (if correct then Friendly else Hostile)
                && currentQuestion == old(currentQuestion)
                && timeLeft == old(timeLeft)
                && gameOver == old(gameOver)
                && hits == old(hits) + [correct]
    {
      if gameOver || answerStatus.Some? {
        return;
      }
      var q := Questions[currentQuestion];
      var correct := option == q.correctAnswer;
      assert (hits + [correct])[..|hits|] == hits;
      if correct {
        neuroPulse := neuroPulse + q.pulse;
        agentMood := Friendly;
        answerStatus := Some(Correct);
      } else {
        agentMood := Hostile;
        answerStatus := Some(Incorrect);
      }
      hits := hits + [correct];
    }

    /**
     * One second of the countdown. The clock runs only while the game does;
     * when it reaches 0 the whole game ends (the question is not skipped).
     */
    method Tick()
      requires Valid()
      modifies this
      ensures Valid()
      ensures old(gameOver) ==> unchanged(this)
      ensures !old(gameOver) ==>
                && timeLeft == old(timeLeft) - 1
                && gameOver == (timeLeft == 0)
                && agentMood == (if timeLeft == 0 then EndMood(neuroPulse) else old(agentMood))
                && currentQuestion == old(currentQuestion)
                && neuroPulse == old(neuroPulse)
                && answerStatus == old(answerStatus)
                && hits == old(hits)
    {
      if timeLeft > 0 && !gameOver {
        timeLeft := timeLeft - 1;
      }
      if timeLeft == 0 && !gameOver {
        EndGame();
      }
    }

    /**
     * The callback `handleAnswer` schedules one second after an answer: move
     * to the next question with a fresh clock, or end the game after the
     * last one.
     */
    method AfterFeedback()
      requires Valid() && answerStatus.Some?
      modifies this
      ensures Valid()
      ensures old(currentQuestion) < |Questions| - 1 ==>
                && currentQuestion == old(currentQuestion) + 1
                && timeLeft == TimeLimit
                && answerStatus == None
                && agentMood == Neutral
                && neuroPulse == old(neuroPulse)
                && gameOver == old(gameOver)
                && hits == old(hits)
      ensures old(currentQuestion) == |Questions| - 1 ==>
                && gameOver
                && agentMood == EndMood(neuroPulse)
                && currentQuestion == old(currentQuestion)
                && neuroPulse == old(neuroPulse)
                && timeLeft == old(timeLeft)
                && answerStatus == old(answerStatus)
                && hits == old(hits)
    {
      if currentQuestion < |Questions| - 1 {
        currentQuestion := currentQuestion + 1;
        timeLeft := TimeLimit;
        answerStatus := None;
        agentMood := Neutral;
      } else {
        EndGame();
      }
    }

    /** `restartGame`: back to exactly the initial state. */
    method Restart()
      requires Valid()
      modifies this
      ensures Valid() && AtStart() && hits == []
    {
      currentQuestion := 0;
      neuroPulse := 0;
      timeLeft := TimeLimit;
      gameOver := false;
      agentMood := Neutral;
      answerStatus := None;
      hits := [];
    }

    /** The pulse never exceeds the rewards of the questions reached, at most 100 in all. */
    lemma PulseBounded()
      requires Valid()
      ensures neuroPulse <= PulseTotal(|hits|) <= PulseTotal(|Questions|) == 100
    {
      PulseTotalMonotone(|hits|, |Questions|);
      AllPulses();
    }

    /**
     * The verdict shown on the game-over screen, and the same verdict stated
     * in terms of the questions missed.
     */
    method Verdict() returns (passed: bool)
      requires Valid()
      ensures passed <==> Passed(neuroPulse)
      ensures passed <==>
                && MissesBelow(hits, |Questions|) <= 1
                && forall i :: 0 <= i < |Questions| && !Hit(hits, i) ==> Questions[i].pulse < 25
    {
      PassRule(hits);
      passed := neuroPulse > PassMark;
    }
  }

  /**
   * Answer matching is exact: clicking "blue" on the first question, whose
   * answer is "Blue", is marked incorrect and earns nothing.
   */
  method WrongCaseScoresNothing() returns (status: Option<AnswerStatus>, pulse: nat, mood: Mood)
    ensures status == Some(Incorrect) && pulse == 0 && mood == Hostile
  {
    var c := new Challenge();
    c.Answer("blue");
    status, pulse, mood := c.answerStatus, c.neuroPulse, c.agentMood;
  }

  /** A player who picks every right option reaches the game-over screen with a pass. */
  method PerfectRun() returns (passed: bool, mood: Mood)
    ensures passed && mood == Friendly
  {
    var c := new Challenge();
    c.Answer("Blue");
    c.AfterFeedback();
    c.Answer("NEO");
    c.AfterFeedback();
    c.Answer("Freedom");
    c.AfterFeedback();
    c.Answer("ENIGMA");
    c.AfterFeedback();
    c.Answer("Your mind");
    c.AfterFeedback();
    passed := c.Verdict();
    mood := c.agentMood;
  }

  /**
   * A perfect run as the component is written. The end-of-game callback is
   * created by the click on the last answer, and the `endGame` it calls
   * captured the pulse before that answer's reward was added. So the mood it
   * sets is EndMood of that captured pulse (70): the agent frowns, while the
   * game-over screen shows the final pulse of 100 and a pass.
   */
  method PerfectRunAsWritten() returns (captured: nat, moodAsWritten: Mood, finalPulse: nat, passed: bool)
    ensures captured == 70 && moodAsWritten == Hostile
    ensures finalPulse == 100 && passed
  {
    var c := new Challenge();
    c.Answer("Blue");
    c.AfterFeedback();
    c.Answer("NEO");
    c.AfterFeedback();
    c.Answer("Freedom");
    c.AfterFeedback();
    c.Answer("ENIGMA");
    c.AfterFeedback();
    captured := c.neuroPulse;
    c.Answer("Your mind");
    moodAsWritten := EndMood(captured);
    finalPulse := c.neuroPulse;
    passed := c.Verdict();
  }
}
