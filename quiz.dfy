/**
 * The culture quiz: a fixed list of five questions and three mutable
 * variables, `currentQuestion`, `score` and `answered`. A question is answered
 * at most once, a correct answer adds one to the score, "next" moves to the
 * following question or, after the last one, shows the final percentage and a
 * result tier.
 */
module Quiz {
  import opened Wrappers

  datatype Question = Question(question: string, options: seq<string>, correct: nat)

  /** `quizData`. */
  const QuizData: seq<Question> := [
    Question("Quelle est la capitale du Japon ?", ["Kyoto", "Tokyo", "Osaka", "Hiroshima"], 1),
    Question("Quel continent abrite le plus de langues différentes ?", ["Asie", "Afrique", "Europe", "Amérique"], 1),
    Question("Quelle est la danse traditionnelle argentine ?", ["Flamenco", "Samba", "Tango", "Salsa"], 2),
    Question("Dans quel pays trouve-t-on le Taj Mahal ?", ["Pakistan", "Inde", "Bangladesh", "Sri Lanka"], 1),
    Question("Quelle est la langue la plus parlée au monde ?", ["Anglais", "Espagnol", "Chinois Mandarin", "Hindi"], 2)
  ]

  /** Every question's correct index names one of its options. */
  lemma QuizDataWellFormed()
    ensures |QuizData| == 5
    ensures forall i :: 0 <= i < |QuizData| ==> QuizData[i].correct < |QuizData[i].options|
  {
  }

  /** The three outcomes of `showQuizResult`: 🏆, 🥇 and 📚. */
  datatype Tier = Excellent | WellDone | GoodStart

  /**
   * `Math.round((score / total) * 100)`, computed exactly: the integer
   * nearest to 100 * score / total, halves rounded up.
   */
  function Percentage(score: int, total: int): (p: int)
    requires total > 0
    ensures 2 * total * p - total <= 200 * score < 2 * total * p + total
    ensures 0 <= score <= total ==> 0 <= p <= 100
  {
    NearestPercent(score, total);
    (200 * score + total) / (2 * total)
  }

  lemma NearestPercent(score: int, total: int)
    requires total > 0
    ensures var p := (200 * score + total) / (2 * total);
      && 2 * total * p - total <= 200 * score < 2 * total * p + total
      && (0 <= score <= total ==> 0 <= p <= 100)
  {
    var p := (200 * score + total) / (2 * total);
    assert 200 * score + total == 2 * total * p + (200 * score + total) % (2 * total);
    MulAtLeast(2 * total, p - 100);
    MulAtLeast(2 * total, -p);
  }

  lemma MulAtLeast(t: int, x: int)
    requires t > 0
    ensures x >= 1 ==> t * x >= t
  {
  }

  /** The tier of a rounded percentage: at least 80, 60 to 79, or below 60. */
  function TierOf(percentage: int): (r: Tier)
    ensures r == Excellent <==> percentage >= 80
    ensures r == WellDone <==> 60 <= percentage < 80
    ensures r == GoodStart <==> percentage < 60
  {
    if percentage >= 80 then Excellent
    else if percentage >= 60 then WellDone
    else GoodStart
  }

  /** What the final screen shows: "Score Final: score/total (percentage%)" and the tier. */
  datatype QuizResult = QuizResult(score: int, total: int, percentage: int, tier: Tier)

  function ResultOf(score: int): (r: QuizResult)
    requires 0 <= score <= |QuizData|
    ensures r.score == score && r.total == |QuizData|
    ensures 0 <= r.percentage <= 100 && r.tier == TierOf(r.percentage)
    ensures r.percentage == 20 * score
  {
    var percentage := Percentage(score, |QuizData|);
    QuizResult(score, |QuizData|, percentage, TierOf(percentage))
  }

  /** A higher score never gives a lower percentage. */
  lemma PercentageMonotone(s1: int, s2: int, total: int)
    requires total > 0 && s1 <= s2
    ensures Percentage(s1, total) <= Percentage(s2, total)
  {
    var p1, p2 := Percentage(s1, total), Percentage(s2, total);
    MulAtLeast(2 * total, p1 - p2);
  }

  /** With five questions: 4 or 5 correct is the top tier, 3 the middle one, 0 to 2 the lowest. */
  lemma TierFiveQuestions(score: int)
    requires 0 <= score <= 5
    ensures TierOf(Percentage(score, 5)) == Excellent <==> score >= 4
    ensures TierOf(Percentage(score, 5)) == WellDone <==> score == 3
    ensures TierOf(Percentage(score, 5)) == GoodStart <==> score <= 2
  {
    assert Percentage(score, 5) == 20 * score;
  }

  /** The line "Score: score/outOf" written by `updateScore`. */
  datatype ScoreLine = ScoreLine(score: int, outOf: int)

  class QuizSession {
    var currentQuestion: int
    var score: int
    var answered: bool

    /** The denominator `updateScore` shows: `currentQuestion + (answered ? 1 : 0)`. */
    function Denominator(): (d: int)
      reads this
      ensures currentQuestion <= d <= currentQuestion + 1
      ensures d == currentQuestion + 1 <==> answered
    {
      currentQuestion + (if answered then 1 else 0)
    }

    /** The score never exceeds the number of questions answered, nor the number of questions. */
    ghost predicate Valid()
      reads this
    {
      0 <= currentQuestion && 0 <= score && score <= Denominator() && score <= |QuizData|
    }

    /** Page load: the variables start at (0, 0, false); `LoadQuestion` then shows question 0. */
    constructor ()
      ensures Valid()
      ensures currentQuestion == 0 && score == 0 && !answered
    {
      currentQuestion := 0;
      score := 0;
      answered := false;
    }

    /** `loadQuestion`: shows the current question and re-arms answering. */
    method LoadQuestion() returns (q: Question, line: ScoreLine)
      requires Valid() && currentQuestion < |QuizData| && score <= currentQuestion
      modifies this
      ensures Valid()
      ensures currentQuestion == old(currentQuestion) && score == old(score)
      ensures q == QuizData[currentQuestion] && !answered
      ensures line == ScoreLine(score, currentQuestion)
    {
      q := QuizData[currentQuestion];
      answered := false;
      line := UpdateScore();
    }

    /**
     * `selectAnswer`: ignored once the question is answered; otherwise marks it
     * answered and adds one to the score exactly when the choice is correct.
     */
    method SelectAnswer(selectedIndex: int) returns (line: Option<ScoreLine>)
      requires Valid()
      requires !answered ==> currentQuestion < |QuizData| && 0 <= selectedIndex < |QuizData[currentQuestion].options|
      modifies this
      ensures Valid() && answered
      ensures currentQuestion == old(currentQuestion)
      ensures old(answered) ==> score == old(score) && line == None
      ensures !old(answered) ==>
        && score == old(score) + (if selectedIndex == QuizData[currentQuestion].correct then 1 else 0)
        && line == Some(ScoreLine(score, currentQuestion + 1))
    {
      if answered {
        return None;
      }
      answered := true;
      var question := QuizData[currentQuestion];
      if selectedIndex == question.correct {
        score := score + 1;
      }
      var shown := UpdateScore();
      line := Some(shown);
    }

    /** `nextQuestion`: the next question, or the final result after the last one. */
    method NextQuestion() returns (result: Option<QuizResult>)
      requires Valid()
      modifies this
      ensures Valid()
      ensures currentQuestion == old(currentQuestion) + 1 && score == old(score)
      ensures currentQuestion < |QuizData| ==> !answered && result == None
      ensures currentQuestion >= |QuizData| ==> answered == old(answered) && result == Some(ResultOf(score))
    {
      currentQuestion := currentQuestion + 1;
      if currentQuestion < |QuizData| {
        var _, _ := LoadQuestion();
        result := None;
      } else {
        var r := ShowQuizResult();
        result := Some(r);
      }
    }

    /**
     * `updateScore`: while a question is on screen the line shows the score
     * out of the questions answered so far, at most the number of questions.
     */
    method UpdateScore() returns (line: ScoreLine)
      requires Valid() && currentQuestion < |QuizData|
      ensures line.score == score && line.outOf == Denominator()
      ensures 0 <= line.score <= line.outOf <= |QuizData|
    {
      line := ScoreLine(score, currentQuestion + (if answered then 1 else 0));
    }

    /** `showQuizResult`: the percentage of the whole quiz and its tier. */
    method ShowQuizResult() returns (r: QuizResult)
      requires Valid()
      ensures r == ResultOf(score)
      ensures r.tier == Excellent <==> r.percentage >= 80
      ensures r.tier == WellDone <==> 60 <= r.percentage < 80
      ensures r.tier == GoodStart <==> r.percentage < 60
    {
      var percentage := Percentage(score, |QuizData|);
      var tier;
      if percentage >= 80 {
        tier := Excellent;
      } else if percentage >= 60 {
        tier := WellDone;
      } else {
        tier := GoodStart;
      }
      r := QuizResult(score, |QuizData|, percentage, tier);
    }

    /** `restartQuiz`: back to the first question with a zero score. */
    method RestartQuiz() returns (q: Question)
      modifies this
      ensures Valid()
      ensures currentQuestion == 0 && score == 0 && !answered
      ensures q == QuizData[0]
    {
      currentQuestion := 0;
      score := 0;
      answered := false;
      var line;
      q, line := LoadQuestion();
    }
  }

  /** Number of answers that pick the correct option of their question. */
  function CorrectCount(answers: seq<int>): (c: int)
    requires |answers| <= |QuizData|
    ensures 0 <= c <= |answers|
    decreases |answers|
  {
    if answers == [] then 0
    else
      var last := |answers| - 1;
      CorrectCount(answers[..last]) + (if answers[last] == QuizData[last].correct then 1 else 0)
  }

  /** The count reaches the number of answers exactly when every answer is correct. */
  lemma {:induction false} CorrectCountAll(answers: seq<int>)
    requires |answers| <= |QuizData|
    ensures CorrectCount(answers) == |answers| <==>
      forall i :: 0 <= i < |answers| ==> answers[i] == QuizData[i].correct
    decreases |answers|
  {
    if answers != [] {
      var last := |answers| - 1;
      CorrectCountAll(answers[..last]);
      if CorrectCount(answers) == |answers| {
        forall i | 0 <= i < |answers|
          ensures answers[i] == QuizData[i].correct
        {
          if i < last {
            assert answers[..last][i] == answers[i];
          }
        }
      }
    }
  }

  /**
   * A user who answers question i with answers[i] and presses "next" after
   * each answer ends on the result screen with the number of correct answers.
   */
  method PlayQuiz(answers: seq<int>) returns (result: QuizResult)
    requires |answers| == |QuizData|
    requires forall i :: 0 <= i < |answers| ==> 0 <= answers[i] < |QuizData[i].options|
    ensures result == ResultOf(CorrectCount(answers))
  {
    var quiz := new QuizSession();
    result := ResultOf(0);
    var i := 0;
    while i < |answers|
      invariant 0 <= i <= |answers|
      invariant quiz.Valid() && quiz.currentQuestion == i
      invariant i < |answers| ==> !quiz.answered
      invariant quiz.score == CorrectCount(answers[..i])
      invariant i == |answers| ==> result == ResultOf(quiz.score)
    {
      assert answers[..i + 1][..i] == answers[..i];
      var _ := quiz.SelectAnswer(answers[i]);
      var r := quiz.NextQuestion();
      if r.Some? {
        result := r.value;
      }
      i := i + 1;
    }
    assert answers[..i] == answers;
  }

  /** All five correct gives 5/5, 100% and the top tier; exactly one correct gives 20% and the lowest. */
  lemma PlayQuizExamples(answers: seq<int>)
    requires |answers| == |QuizData|
    ensures (forall i :: 0 <= i < |answers| ==> answers[i] == QuizData[i].correct) ==>
      ResultOf(CorrectCount(answers)) == QuizResult(5, 5, 100, Excellent)
    ensures CorrectCount(answers) == 1 ==> ResultOf(CorrectCount(answers)) == QuizResult(1, 5, 20, GoodStart)
  {
    CorrectCountAll(answers);
  }
}
