/**
 * The multiple-choice quiz session (src/components/QuizGame.tsx): a fixed bank
 * of five questions, a 30-second countdown per question, one answer per
 * question, and a completion result of 20 points per correct answer plus
 * badges.
 */
module QuizGame {
  import opened Wrappers
  import opened Lists
  import opened Progression

  datatype Difficulty = Easy | Medium | Hard

  /** A quiz question; the prompt and explanation texts are display-only and left out. */
  datatype Question = Question(id: nat, options: seq<string>, correctAnswer: int, difficulty: Difficulty)

  const Questions: seq<Question> := [
    Question(1, ["9%", "25%", "45%", "60%"], 0, Medium),
    Question(2, ["Oxygen", "Nitrogen", "Carbon Dioxide", "Hydrogen"], 2, Easy),
    Question(3, ["50 years", "100 years", "450 years", "1000 years"], 2, Hard),
    Question(4, ["Recycling more", "Using renewable energy", "Eating less meat", "Walking instead of driving"], 1, Medium),
    Question(5, ["Taking shorter showers", "Fixing leaky faucets", "Using efficient appliances", "Collecting rainwater"], 1, Easy)
  ]

  /** Seconds allowed per question. */
  const TimeLimit: nat := 30
  const PointsPerCorrect: nat := 20
  /** The answer recorded when the countdown runs out. */
  const TimeoutAnswer: int := -1

  const QuizMaster: string := "\U{1F31F} Quiz Master"
  const PerfectScore: string := "\U{1F3C6} Perfect Score"
  const EcoLearner: string := "\U{1F331} Eco Learner"

  /** The bank has five questions of four options, each with a valid correct index. */
  lemma BankWellFormed()
    ensures |Questions| == 5
    ensures forall i :: 0 <= i < |Questions| ==>
      |Questions[i].options| == 4 && 0 <= Questions[i].correctAnswer < |Questions[i].options|
  {
  }

  /** The number of recorded answers that match their question's correct index. */
  function CorrectCount(answers: seq<int>): (n: nat)
    requires |answers| <= |Questions|
    ensures n <= |answers|
  {
    if answers == [] then 0
    else
      var k := |answers| - 1;
      CorrectCount(answers[..k]) + (if answers[k] == Questions[k].correctAnswer then 1 else 0)
  }

  /** Every answer counts exactly when every recorded answer is the correct one. */
  lemma {:induction false} CorrectCountAll(answers: seq<int>)
    requires |answers| <= |Questions|
    ensures CorrectCount(answers) == |answers| <==>
      forall i :: 0 <= i < |answers| ==> answers[i] == Questions[i].correctAnswer
  {
    if answers != [] {
      var k := |answers| - 1;
      CorrectCountAll(answers[..k]);
      assert forall i :: 0 <= i < k ==> answers[..k][i] == answers[i];
    }
  }

  /** A run of timeouts scores nothing: no correct index is -1. */
  lemma {:induction false} TimeoutsScoreNothing(answers: seq<int>)
    requires |answers| <= |Questions|
    requires forall i :: 0 <= i < |answers| ==> answers[i] == TimeoutAnswer
    ensures CorrectCount(answers) == 0
  {
    if answers != [] {
      var k := |answers| - 1;
      BankWellFormed();
      TimeoutsScoreNothing(answers[..k]);
    }
  }

  /** The badges awarded for a final score, in the order they are pushed. */
  function QuizBadges(score: nat): (badges: seq<string>)
    ensures QuizMaster in badges <==> score >= 3
    ensures PerfectScore in badges <==> score == 5
    ensures EcoLearner in badges <==> score >= 1
    ensures forall b :: b in badges ==> b == QuizMaster || b == PerfectScore || b == EcoLearner
    ensures NoDup(badges)
  {
    (if score >= 3 then [QuizMaster] else [])
    + (if score == 5 then [PerfectScore] else [])
    + (if score >= 1 then [EcoLearner] else [])
  }

  /** The badge list for each range of scores, always in push order. */
  lemma QuizBadgesByScore(score: nat)
    ensures score == 0 ==> QuizBadges(score) == []
    ensures 1 <= score < 3 ==> QuizBadges(score) == [EcoLearner]
    ensures 3 <= score < 5 ==> QuizBadges(score) == [QuizMaster, EcoLearner]
    ensures score == 5 ==> QuizBadges(score) == [QuizMaster, PerfectScore, EcoLearner]
    ensures Subsequence(QuizBadges(score), [QuizMaster, PerfectScore, EcoLearner])
  {
    var all := [QuizMaster, PerfectScore, EcoLearner];
    assert Subsequence([EcoLearner], all[2..]);
    assert Subsequence([EcoLearner], all[1..]);
    assert Subsequence([PerfectScore, EcoLearner], all[1..]);
  }

  /**
   * What the finished quiz hands to onComplete: points in steps of 20, the
   * Perfect Score badge exactly at full points, and no badge at all exactly
   * when nothing was scored.
   */
  function QuizResult(score: nat): (r: Completion)
    ensures r.points % PointsPerCorrect == 0 && r.points / PointsPerCorrect == score
    ensures score <= |Questions| ==> r.points <= 100
    ensures PerfectScore in r.badges <==> r.points == 100
    ensures r.badges == [] <==> r.points == 0
  {
    Completion(score * PointsPerCorrect, QuizBadges(score))
  }

  /** A full game earns at most 100 points, 20 per correct answer. */
  lemma QuizResultBounds(answers: seq<int>)
    requires |answers| == |Questions|
    ensures QuizResult(CorrectCount(answers)).points <= 100
    ensures QuizResult(CorrectCount(answers)).points == PointsPerCorrect * CorrectCount(answers)
  {
  }

  /** All five answered correctly: 100 points and all three badges. */
  lemma PerfectQuizScenario(answers: seq<int>)
    requires |answers| == |Questions|
    requires forall i :: 0 <= i < |answers| ==> answers[i] == Questions[i].correctAnswer
    ensures QuizResult(CorrectCount(answers)) == Completion(100, [QuizMaster, PerfectScore, EcoLearner])
  {
    CorrectCountAll(answers);
  }

  /** Five timeouts: no points and no badge. */
  lemma AllTimeoutsScenario(answers: seq<int>)
    requires |answers| == |Questions|
    requires forall i :: 0 <= i < |answers| ==> answers[i] == TimeoutAnswer
    ensures QuizResult(CorrectCount(answers)) == Completion(0, [])
  {
    TimeoutsScoreNothing(answers);
  }

  /** The state of one mounted QuizGame component. */
  class QuizSession {
    var currentQuestion: nat
    var selectedAnswer: Option<int>
    var score: nat
    var showExplanation: bool
    var timeLeft: nat
    var gameComplete: bool
    /** The answer recorded for each question answered so far. */
    ghost var Answers: seq<int>

    ghost predicate Valid()
      reads this
      ensures Valid() ==> score <= currentQuestion + (if showExplanation then 1 else 0) <= |Questions|
    {
      && currentQuestion < |Questions|
      && |Answers| == currentQuestion + (if showExplanation then 1 else 0)
      && score == CorrectCount(Answers)
      && timeLeft <= TimeLimit
      && (selectedAnswer.Some? <==> showExplanation)
      && (showExplanation ==> selectedAnswer == Some(Answers[currentQuestion]))
      && (gameComplete ==> showExplanation && currentQuestion == |Questions| - 1)
    }

    /** The state a freshly mounted quiz starts in. */
    constructor ()
      ensures Valid()
      ensures currentQuestion == 0 && selectedAnswer == None && score == 0
      ensures !showExplanation && timeLeft == TimeLimit && !gameComplete
      ensures Answers == []
    {
      currentQuestion, selectedAnswer, score := 0, None, 0;
      showExplanation, timeLeft, gameComplete := false, TimeLimit, false;
      Answers := [];
    }

    /**
     * handleAnswer: record the answer, reveal the result, and score one point
     * iff the answer is the current question's correct index. The answer
     * buttons are only rendered while no result is shown.
     */
    method HandleAnswer(answerIndex: int)
      requires Valid() && !showExplanation
      modifies this
      ensures Valid()
      ensures selectedAnswer == Some(answerIndex) && showExplanation
      ensures score == old(score) + (if answerIndex == Questions[currentQuestion].correctAnswer then 1 else 0)
      ensures currentQuestion == old(currentQuestion) && timeLeft == old(timeLeft)
      ensures gameComplete == old(gameComplete)
      ensures Answers == old(Answers) + [answerIndex]
    {
      selectedAnswer := Some(answerIndex);
      showExplanation := true;
      if answerIndex == Questions[currentQuestion].correctAnswer {
        score := score + 1;
      }
      Answers := Answers + [answerIndex];
      assert Answers[..|Answers| - 1] == old(Answers);
    }

    /**
     * One run of the countdown effect: while unanswered, a pending second
     * elapses and the clock goes down by one; at zero the question is
     * answered with the timeout sentinel, which never scores.
     */
    method Tick()
      requires Valid()
      modifies this
      ensures Valid()
      ensures old(!showExplanation && timeLeft > 0) ==>
        timeLeft == old(timeLeft) - 1 && !showExplanation && selectedAnswer == None &&
        score == old(score) && currentQuestion == old(currentQuestion) &&
        gameComplete == old(gameComplete) && Answers == old(Answers)
      ensures old(!showExplanation && timeLeft == 0) ==>
        showExplanation && selectedAnswer == Some(TimeoutAnswer) && timeLeft == 0 &&
        score == old(score) && currentQuestion == old(currentQuestion) &&
        gameComplete == old(gameComplete) && Answers == old(Answers) + [TimeoutAnswer]
      ensures old(showExplanation) ==> unchanged(this)
    {
      if timeLeft > 0 && !showExplanation {
        timeLeft := timeLeft - 1;
      } else if timeLeft == 0 && !showExplanation {
        BankWellFormed();
        HandleAnswer(TimeoutAnswer);
      }
    }

    /**
     * nextQuestion: offered only once a result is shown. Before the last
     * question it moves on and restarts the clock; on the last it completes
     * the game and yields the result for onComplete.
     */
    method NextQuestion() returns (completion: Option<Completion>)
      requires Valid() && showExplanation && !gameComplete
      modifies this
      ensures Valid()
      ensures old(currentQuestion) < |Questions| - 1 ==>
        currentQuestion == old(currentQuestion) + 1 && selectedAnswer == None &&
        !showExplanation && timeLeft == TimeLimit && score == old(score) &&
        !gameComplete && Answers == old(Answers) && completion == None
      ensures old(currentQuestion) == |Questions| - 1 ==>
        gameComplete && currentQuestion == old(currentQuestion) &&
        selectedAnswer == old(selectedAnswer) && showExplanation &&
        timeLeft == old(timeLeft) && score == old(score) && Answers == old(Answers) &&
        |Answers| == |Questions| && completion == Some(QuizResult(CorrectCount(Answers)))
    {
      if currentQuestion < |Questions| - 1 {
        currentQuestion := currentQuestion + 1;
        selectedAnswer := None;
        showExplanation := false;
        timeLeft := TimeLimit;
        completion := None;
      } else {
        gameComplete := true;
        completion := Some(QuizResult(score));
      }
    }
  }

  /**
   * The countdown effect left alone on an unanswered question: it re-arms
   * every second until the clock reaches zero and the timeout answer fires.
   */
  method LetClockRunOut(s: QuizSession)
    requires s.Valid() && !s.showExplanation
    modifies s
    ensures s.Valid() && s.showExplanation && s.selectedAnswer == Some(TimeoutAnswer)
    ensures s.timeLeft == 0 && s.score == old(s.score)
    ensures s.currentQuestion == old(s.currentQuestion) && s.gameComplete == old(s.gameComplete)
    ensures s.Answers == old(s.Answers) + [TimeoutAnswer]
  {
    while !s.showExplanation
      invariant s.Valid()
      invariant s.score == old(s.score) && s.currentQuestion == old(s.currentQuestion)
      invariant s.gameComplete == old(s.gameComplete)
      invariant !s.showExplanation ==> s.Answers == old(s.Answers)
      invariant s.showExplanation ==>
        s.Answers == old(s.Answers) + [TimeoutAnswer] &&
        s.selectedAnswer == Some(TimeoutAnswer) && s.timeLeft == 0
      decreases if s.showExplanation then 0 else s.timeLeft + 1
    {
      s.Tick();
    }
  }

  /** A whole quiz in which every question times out: no points, no badge. */
  method PlayAllTimeouts() returns (completion: Option<Completion>)
    ensures completion == Some(Completion(0, []))
  {
    var s := new QuizSession();
    var k := 0;
    completion := None;
    while k < |Questions|
      invariant 0 <= k <= |Questions|
      invariant s.Valid() && |s.Answers| == k
      invariant forall i :: 0 <= i < k ==> s.Answers[i] == TimeoutAnswer
      invariant k < |Questions| ==> s.currentQuestion == k && !s.showExplanation && completion == None
      invariant k == |Questions| ==> completion == Some(QuizResult(CorrectCount(s.Answers)))
    {
      LetClockRunOut(s);
      completion := s.NextQuestion();
      k := k + 1;
    }
    AllTimeoutsScenario(s.Answers);
  }

  /**
   * A whole quiz played through the session: answering `answers` in turn and
   * pressing Next after each yields the result of their correct count.
   */
  method PlayAnswers(answers: seq<int>) returns (completion: Option<Completion>)
    requires |answers| == |Questions|
    ensures completion == Some(QuizResult(CorrectCount(answers)))
  {
    var s := new QuizSession();
    var k := 0;
    completion := None;
    while k < |Questions|
      invariant 0 <= k <= |Questions|
      invariant s.Valid() && s.Answers == answers[..k]
      invariant k < |Questions| ==> s.currentQuestion == k && !s.showExplanation && completion == None
      invariant k == |Questions| ==> completion == Some(QuizResult(CorrectCount(answers)))
    {
      assert answers[..k + 1] == answers[..k] + [answers[k]];
      s.HandleAnswer(answers[k]);
      completion := s.NextQuestion();
      k := k + 1;
    }
  }

  /** A whole quiz answered correctly throughout: 100 points and all three badges. */
  method PlayPerfectQuiz() returns (completion: Option<Completion>)
    ensures completion == Some(Completion(100, [QuizMaster, PerfectScore, EcoLearner]))
  {
    var answers := [0, 2, 2, 1, 1];
    assert forall i :: 0 <= i < |answers| ==> answers[i] == Questions[i].correctAnswer;
    completion := PlayAnswers(answers);
    PerfectQuizScenario(answers);
  }
}
