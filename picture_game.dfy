/**
 * The picture-selection session (src/components/PictureGame.tsx): four
 * questions of four options, exactly one of them flagged correct, no timer,
 * and a completion result of 15 points per correct pick plus badges.
 */
module PictureGame {
  import opened Wrappers
  import opened Lists
  import opened Progression

  /** An option card, named by its label; its emoji and description are display-only and left out. */
  datatype PictureOption = PictureOption(name: string, isCorrect: bool)

  /** A picture question; the prompt, description and explanation are display-only. */
  datatype PictureQuestion = PictureQuestion(id: nat, options: seq<PictureOption>)

  const PictureQuestions: seq<PictureQuestion> := [
    PictureQuestion(1, [PictureOption("Car", false), PictureOption("Bicycle", true),
                        PictureOption("Motorcycle", false), PictureOption("Bus", false)]),
    PictureQuestion(2, [PictureOption("Solar", true), PictureOption("Gas", false),
                        PictureOption("Nuclear", false), PictureOption("Coal", false)]),
    PictureQuestion(3, [PictureOption("Recycle", false), PictureOption("Refuse", true),
                        PictureOption("Reuse", false), PictureOption("Dispose", false)]),
    PictureQuestion(4, [PictureOption("Local Market", true), PictureOption("Online Shopping", false),
                        PictureOption("Chain Store", false), PictureOption("Mall Shopping", false)])
  ]

  const PointsPerCorrect: nat := 15

  const PicturePerfect: string := "\U{1F4F8} Picture Perfect"
  const VisualExpert: string := "\U{1F31F} Visual Expert"
  const SharpEye: string := "\U{1F441}\U{FE0F} Sharp Eye"

  /** The number of options flagged correct. */
  function CorrectOptions(options: seq<PictureOption>): (n: nat)
    ensures n <= |options|
  {
    if options == [] then 0
    else (if options[0].isCorrect then 1 else 0) + CorrectOptions(options[1..])
  }

  /** The bank has four questions, each with four options of which exactly one is correct. */
  lemma BankWellFormed()
    ensures |PictureQuestions| == 4
    ensures forall i :: 0 <= i < |PictureQuestions| ==>
      |PictureQuestions[i].options| == 4 && CorrectOptions(PictureQuestions[i].options) == 1
  {
  }

  /** Answers are option indices within their question. */
  predicate ValidAnswers(answers: seq<nat>) {
    |answers| <= |PictureQuestions| &&
    forall i :: 0 <= i < |answers| ==> answers[i] < |PictureQuestions[i].options|
  }

  /** The number of recorded picks whose option is flagged correct. */
  function CorrectCount(answers: seq<nat>): (n: nat)
    requires ValidAnswers(answers)
    ensures n <= |answers|
  {
    if answers == [] then 0
    else
      var k := |answers| - 1;
      CorrectCount(answers[..k]) + (if PictureQuestions[k].options[answers[k]].isCorrect then 1 else 0)
  }

  /** Every pick counts exactly when every recorded pick is a correct option. */
  lemma {:induction false} CorrectCountAll(answers: seq<nat>)
    requires ValidAnswers(answers)
    ensures CorrectCount(answers) == |answers| <==>
      forall i :: 0 <= i < |answers| ==> PictureQuestions[i].options[answers[i]].isCorrect
  {
    if answers != [] {
      var k := |answers| - 1;
      assert forall i :: 0 <= i < k ==> answers[..k][i] == answers[i];
      CorrectCountAll(answers[..k]);
    }
  }

  /** The badges awarded for a final score, in the order they are pushed. */
  function PictureBadges(score: nat): (badges: seq<string>)
    ensures PicturePerfect in badges <==> score >= 3
    ensures VisualExpert in badges <==> score == 4
    ensures SharpEye in badges <==> score >= 1
    ensures forall b :: b in badges ==> b == PicturePerfect || b == VisualExpert || b == SharpEye
    ensures NoDup(badges)
  {
    (if score >= 3 then [PicturePerfect] else [])
    + (if score == 4 then [VisualExpert] else [])
    + (if score >= 1 then [SharpEye] else [])
  }

  /** The badge list for each range of scores, always in push order. */
  lemma PictureBadgesByScore(score: nat)
    ensures score == 0 ==> PictureBadges(score) == []
    ensures 1 <= score < 3 ==> PictureBadges(score) == [SharpEye]
    ensures score == 3 ==> PictureBadges(score) == [PicturePerfect, SharpEye]
    ensures score == 4 ==> PictureBadges(score) == [PicturePerfect, VisualExpert, SharpEye]
    ensures Subsequence(PictureBadges(score), [PicturePerfect, VisualExpert, SharpEye])
  {
    var all := [PicturePerfect, VisualExpert, SharpEye];
    assert Subsequence([SharpEye], all[2..]);
    assert Subsequence([SharpEye], all[1..]);
    assert Subsequence([VisualExpert, SharpEye], all[1..]);
  }

  /**
   * What the finished picture game hands to onComplete: points in steps of
   * 15, the Visual Expert badge exactly at full points, and no badge at all
   * exactly when nothing was scored.
   */
  function PictureResult(score: nat): (r: Completion)
    ensures r.points % PointsPerCorrect == 0 && r.points / PointsPerCorrect == score
    ensures score <= |PictureQuestions| ==> r.points <= 60
    ensures VisualExpert in r.badges <==> r.points == 60
    ensures r.badges == [] <==> r.points == 0
  {
    Completion(score * PointsPerCorrect, PictureBadges(score))
  }

  /** A full game earns at most 60 points, 15 per correct pick. */
  lemma PictureResultBounds(answers: seq<nat>)
    requires ValidAnswers(answers) && |answers| == |PictureQuestions|
    ensures PictureResult(CorrectCount(answers)).points <= 60
    ensures PictureResult(CorrectCount(answers)).points == PointsPerCorrect * CorrectCount(answers)
  {
  }

  /** Three of four correct: 45 points, Picture Perfect and Sharp Eye, no Visual Expert. */
  lemma ThreeOfFourScenario(answers: seq<nat>)
    requires ValidAnswers(answers) && |answers| == |PictureQuestions|
    requires CorrectCount(answers) == 3
    ensures PictureResult(CorrectCount(answers)) == Completion(45, [PicturePerfect, SharpEye])
  {
  }

  /** Bicycle, Solar, Refuse, then Online Shopping: three correct picks. */
  lemma ThreeCorrectPicks()
    ensures ValidAnswers([1, 0, 1, 1]) && CorrectCount([1, 0, 1, 1]) == 3
  {
    var picks: seq<nat> := [1, 0, 1, 1];
    assert picks[..3] == [1, 0, 1] && picks[..3][..2] == [1, 0] && picks[..3][..2][..1] == [1];
    assert CorrectCount([1]) == 1;
    assert CorrectCount([1, 0]) == 2;
    assert CorrectCount([1, 0, 1]) == 3;
  }

  /** The state of one mounted PictureGame component. */
  class PictureSession {
    var currentQuestion: nat
    var selectedOption: Option<nat>
    var score: nat
    var showResult: bool
    var gameComplete: bool
    /** The option picked for each question answered so far. */
    ghost var Answers: seq<nat>

    ghost predicate Valid()
      reads this
      ensures Valid() ==> score <= currentQuestion + (if showResult then 1 else 0) <= |PictureQuestions|
    {
      && currentQuestion < |PictureQuestions|
      && |Answers| == currentQuestion + (if showResult then 1 else 0)
      && ValidAnswers(Answers)
      && score == CorrectCount(Answers)
      && (selectedOption.Some? <==> showResult)
      && (showResult ==> selectedOption == Some(Answers[currentQuestion]))
      && (gameComplete ==> showResult && currentQuestion == |PictureQuestions| - 1)
    }

    /** The state a freshly mounted picture game starts in. */
    constructor ()
      ensures Valid()
      ensures currentQuestion == 0 && selectedOption == None && score == 0
      ensures !showResult && !gameComplete && Answers == []
    {
      currentQuestion, selectedOption, score := 0, None, 0;
      showResult, gameComplete := false, false;
      Answers := [];
    }

    /**
     * handleOptionSelect: record the pick, reveal the result, and score one
     * point iff the picked option is flagged correct. Option buttons exist
     * only while no result is shown, one per option of the current question.
     */
    method HandleOptionSelect(optionIndex: nat)
      requires Valid() && !showResult
      requires optionIndex < |PictureQuestions[currentQuestion].options|
      modifies this
      ensures Valid()
      ensures selectedOption == Some(optionIndex) && showResult
      ensures score == old(score) +
        (if PictureQuestions[currentQuestion].options[optionIndex].isCorrect then 1 else 0)
      ensures currentQuestion == old(currentQuestion) && gameComplete == old(gameComplete)
      ensures Answers == old(Answers) + [optionIndex]
    {
      selectedOption := Some(optionIndex);
      showResult := true;
      if PictureQuestions[currentQuestion].options[optionIndex].isCorrect {
        score := score + 1;
      }
      Answers := Answers + [optionIndex];
      assert Answers[..|Answers| - 1] == old(Answers);
    }

    /**
     * nextQuestion: offered only once a result is shown. Before the last
     * question it moves on; on the last it completes the game and yields the
     * result for onComplete.
     */
    method NextQuestion() returns (completion: Option<Completion>)
      requires Valid() && showResult && !gameComplete
      modifies this
      ensures Valid()
      ensures old(currentQuestion) < |PictureQuestions| - 1 ==>
        currentQuestion == old(currentQuestion) + 1 && selectedOption == None &&
        !showResult && score == old(score) && !gameComplete &&
        Answers == old(Answers) && completion == None
      ensures old(currentQuestion) == |PictureQuestions| - 1 ==>
        gameComplete && currentQuestion == old(currentQuestion) &&
        selectedOption == old(selectedOption) && showResult && score == old(score) &&
        Answers == old(Answers) && |Answers| == |PictureQuestions| &&
        completion == Some(PictureResult(CorrectCount(Answers)))
    {
      if currentQuestion < |PictureQuestions| - 1 {
        currentQuestion := currentQuestion + 1;
        selectedOption := None;
        showResult := false;
        completion := None;
      } else {
        gameComplete := true;
        completion := Some(PictureResult(score));
      }
    }
  }

  /**
   * A whole picture game played through the session: picking `picks` in turn
   * and pressing Next after each yields the result of their correct count.
   */
  method PlayPicks(picks: seq<nat>) returns (completion: Option<Completion>)
    requires ValidAnswers(picks) && |picks| == |PictureQuestions|
    ensures completion == Some(PictureResult(CorrectCount(picks)))
  {
    var s := new PictureSession();
    var k := 0;
    completion := None;
    while k < |PictureQuestions|
      invariant 0 <= k <= |PictureQuestions|
      invariant s.Valid() && |s.Answers| == k
      invariant forall i :: 0 <= i < k ==> s.Answers[i] == picks[i]
      invariant k < |PictureQuestions| ==> s.currentQuestion == k && !s.showResult && completion == None
      invariant k == |PictureQuestions| ==> completion == Some(PictureResult(CorrectCount(s.Answers)))
    {
      s.HandleOptionSelect(picks[k]);
      completion := s.NextQuestion();
      k := k + 1;
    }
    assert s.Answers == picks;
  }

  /**
   * Bicycle, Solar, Refuse, then Online Shopping: 45 points, Picture Perfect
   * and Sharp Eye, no Visual Expert.
   */
  method PlayThreeOfFour() returns (completion: Option<Completion>)
    ensures completion == Some(Completion(45, [PicturePerfect, SharpEye]))
  {
    ThreeCorrectPicks();
    completion := PlayPicks([1, 0, 1, 1]);
    ThreeOfFourScenario([1, 0, 1, 1]);
  }
}
