/** Quiz bookkeeping: creating a quiz, starting an attempt, recording answers with a case-
    and whitespace-insensitive check, and scoring a finished attempt. Request parsing, the
    HTTP responses' status codes and persistence are not modelled; a quiz that the lookup by
    id and owner does not find is `null`. */
module QuizController {
  import opened Common

  datatype QuestionKind = MultipleChoice | TrueFalse | ShortAnswer | Essay

  /** A question as the client sends it, before an id is assigned. */
  datatype QuestionInput = QuestionInput(
    kind: QuestionKind,
    question: string,
    options: seq<string>,
    correctAnswer: string,
    explanation: Option<string>,
    difficulty: real)

  datatype Question = Question(
    id: string,
    kind: QuestionKind,
    question: string,
    options: seq<string>,
    correctAnswer: string,
    explanation: Option<string>,
    difficulty: real)

  /** What a learner sees of a question when an attempt starts: no answer, no explanation. */
  datatype QuestionView = QuestionView(id: string, kind: QuestionKind, question: string, options: seq<string>)

  /** Settings as sent; a missing flag takes the schema default. */
  datatype SettingsInput = SettingsInput(
    timeLimit: Option<real>,
    shuffleQuestions: Option<bool>,
    showCorrectAnswers: Option<bool>,
    allowRetake: Option<bool>)

  datatype Settings = Settings(timeLimit: Option<real>, shuffleQuestions: bool, showCorrectAnswers: bool, allowRetake: bool)

  datatype Answer = Answer(questionId: string, answer: string, isCorrect: bool, timeSpent: real)

  /** A JavaScript number that a quotient by zero can turn into `NaN` or `Infinity`. */
  datatype Score = Finite(value: real) | Infinity | NaN

  datatype Attempt = Attempt(attemptId: string, startTime: Time, endTime: Option<Time>, answers: seq<Answer>, score: Score)

  datatype QuizError = QuizNotFound | AttemptNotFound | QuestionNotFound

  datatype SubmitResult = SubmitResult(isCorrect: bool, explanation: Option<string>)

  datatype FinishResult = FinishResult(score: Score, correctAnswers: nat, totalQuestions: nat, timeSpent: real)

  // ---------------------------------------------------------------------------------------
  // Creation

  function WithId(q: QuestionInput, id: string): (r: Question)
    ensures r.id == id && r.correctAnswer == q.correctAnswer && r.explanation == q.explanation
    ensures r.kind == q.kind && r.question == q.question && r.options == q.options && r.difficulty == q.difficulty
  {
    Question(id, q.kind, q.question, q.options, q.correctAnswer, q.explanation, q.difficulty)
  }

  /** `settings || { all true }`, then the schema default `true` for every missing flag. */
  function ResolveSettings(settings: Option<SettingsInput>): (r: Settings)
    ensures settings.None? ==> r == Settings(None, true, true, true)
    ensures settings.Some? ==>
      && r.timeLimit == settings.value.timeLimit
      && (r.shuffleQuestions <==> settings.value.shuffleQuestions != Some(false))
      && (r.showCorrectAnswers <==> settings.value.showCorrectAnswers != Some(false))
      && (r.allowRetake <==> settings.value.allowRetake != Some(false))
  {
    match settings
    case None => Settings(None, true, true, true)
    case Some(s) =>
      Settings(
        s.timeLimit,
        if s.shuffleQuestions.Some? then s.shuffleQuestions.value else true,
        if s.showCorrectAnswers.Some? then s.showCorrectAnswers.value else true,
        if s.allowRetake.Some? then s.allowRetake.value else true)
  }

  class Quiz {
    const userId: string
    const materialId: Option<string>
    const title: string
    const subject: string
    const topics: seq<string>
    const questions: seq<Question>
    const settings: Settings
    var attempts: seq<Attempt>

    /** `createQuiz`: every question gets the next generated id, and there are no attempts.
        The generated ids are a parameter, one per question. */
    constructor (userId: string, materialId: Option<string>, title: string, subject: string, topics: seq<string>,
                 inputs: seq<QuestionInput>, ids: seq<string>, settings: Option<SettingsInput>)
      requires |ids| == |inputs|
      ensures this.userId == userId && this.materialId == materialId && this.title == title
      ensures this.subject == subject && this.topics == topics
      ensures |questions| == |inputs| && forall i :: 0 <= i < |inputs| ==> questions[i] == WithId(inputs[i], ids[i])
      ensures this.settings == ResolveSettings(settings)
      ensures attempts == []
    {
      this.userId := userId;
      this.materialId := materialId;
      this.title := title;
      this.subject := subject;
      this.topics := topics;
      questions := seq(|inputs|, i requires 0 <= i < |inputs| => WithId(inputs[i], ids[i]));
      this.settings := ResolveSettings(settings);
      attempts := [];
    }

    /** Every recorded answer names a question of the quiz. */
    predicate AnswersNameQuestions()
      reads this
    {
      forall k, m :: 0 <= k < |attempts| && 0 <= m < |attempts[k].answers| ==>
        IsQuestionId(questions, attempts[k].answers[m].questionId)
    }
  }

  // ---------------------------------------------------------------------------------------
  // Lookups

  predicate IsQuestionId(questions: seq<Question>, id: string)
  {
    exists j :: 0 <= j < |questions| && questions[j].id == id
  }

  /** `attempts.find(a => a.attemptId === id)`: the first attempt with that id. */
  function FindAttempt(attempts: seq<Attempt>, id: string): (r: Option<nat>)
    ensures r.Some? ==> r.value < |attempts| && attempts[r.value].attemptId == id
    ensures r.Some? ==> forall j :: 0 <= j < r.value ==> attempts[j].attemptId != id
    ensures r.None? ==> forall j :: 0 <= j < |attempts| ==> attempts[j].attemptId != id
  {
    if attempts == [] then None
    else if attempts[0].attemptId == id then Some(0)
    else match FindAttempt(attempts[1..], id)
      case None => None
      case Some(k) => Some(k + 1)
  }

  /** `questions.find(q => q.id === id)`: the first question with that id. */
  function FindQuestion(questions: seq<Question>, id: string): (r: Option<nat>)
    ensures r.Some? ==> r.value < |questions| && questions[r.value].id == id
    ensures r.Some? ==> forall j :: 0 <= j < r.value ==> questions[j].id != id
    ensures r.None? <==> !IsQuestionId(questions, id)
  {
    if questions == [] then None
    else if questions[0].id == id then Some(0)
    else match FindQuestion(questions[1..], id)
      case None =>
        assert forall j :: 1 <= j < |questions| ==> questions[j] == questions[1..][j - 1];
        None
      case Some(k) => Some(k + 1)
  }

  // ---------------------------------------------------------------------------------------
  // Answer matching

  /** `answer.toLowerCase().trim() === correct.toLowerCase().trim()`. */
  predicate IsCorrect(answer: string, correct: string)
  {
    Trim(ToLower(answer)) == Trim(ToLower(correct))
  }

  /** Normalising first changes nothing: the check only sees the trimmed lower-case text. */
  lemma IsCorrectUpToNormalForm(answer: string, correct: string)
    ensures IsCorrect(answer, correct) <==> ToLower(Trim(answer)) == ToLower(Trim(correct))
  {
    TrimOfLower(answer);
    TrimOfLower(correct);
  }

  /** Matching is symmetric, and every answer matches itself. */
  lemma IsCorrectSymmetric(a: string, b: string)
    ensures IsCorrect(a, b) <==> IsCorrect(b, a)
    ensures IsCorrect(a, a)
  {
  }

  /** Matching ignores the case of the given answer. */
  lemma IsCorrectIgnoresCase(answer: string, correct: string)
    ensures IsCorrect(ToLower(answer), correct) <==> IsCorrect(answer, correct)
  {
    ToLowerIdempotent(answer);
  }

  /** Matching ignores whitespace around the given answer. */
  lemma IsCorrectIgnoresPadding(w1: string, answer: string, w2: string, correct: string)
    requires AllWhitespace(w1) && AllWhitespace(w2)
    ensures IsCorrect(w1 + answer + w2, correct) <==> IsCorrect(answer, correct)
  {
    ToLowerConcat(w1 + answer, w2);
    ToLowerConcat(w1, answer);
    ToLowerOfWhitespace(w1);
    ToLowerOfWhitespace(w2);
    TrimIgnoresPadding(w1, ToLower(answer), w2);
  }

  // ---------------------------------------------------------------------------------------
  // Scoring

  /** `answers.filter(a => a.isCorrect).length`. */
  function CorrectCount(answers: seq<Answer>): (n: nat)
    ensures n == |set m | 0 <= m < |answers| && answers[m].isCorrect|
    ensures n <= |answers|
  {
    if answers == [] then 0
    else
      var p := answers[..|answers| - 1];
      var last := |answers| - 1;
      assert (set m | 0 <= m < |answers| && answers[m].isCorrect)
          == (set m | 0 <= m < |p| && p[m].isCorrect) + (if answers[last].isCorrect then {last} else {});
      CorrectCount(p) + (if answers[last].isCorrect then 1 else 0)
  }

  /** `answers.reduce((sum, a) => sum + a.timeSpent, 0)`. */
  function TotalTime(answers: seq<Answer>): real
  {
    if answers == [] then 0.0
    else TotalTime(answers[..|answers| - 1]) + answers[|answers| - 1].timeSpent
  }

  lemma {:induction false} TotalTimeNonNegative(answers: seq<Answer>)
    requires forall m :: 0 <= m < |answers| ==> answers[m].timeSpent >= 0.0
    ensures TotalTime(answers) >= 0.0
  {
    if answers != [] {
      TotalTimeNonNegative(answers[..|answers| - 1]);
    }
  }

  /** `(correct / total) * 100` in JavaScript arithmetic: dividing by an empty question list
      gives `NaN` for no correct answers and `Infinity` otherwise. */
  function ScoreOf(correct: nat, total: nat): (s: Score)
    ensures total > 0 ==> s.Finite? && s.value * total as real == 100.0 * correct as real
    ensures total == 0 ==> (s == NaN <==> correct == 0) && (s == Infinity <==> correct > 0)
  {
    if total == 0 then (if correct == 0 then NaN else Infinity)
    else Finite(correct as real / total as real * 100.0)
  }

  /** With no more correct answers than questions the score is a percentage. */
  lemma ScoreIsPercentage(correct: nat, total: nat)
    requires 0 < total && correct <= total
    ensures ScoreOf(correct, total).Finite?
    ensures 0.0 <= ScoreOf(correct, total).value <= 100.0
    ensures ScoreOf(correct, total).value == 100.0 <==> correct == total
  {
  }

  /** Nothing stops an answer to the same question being submitted twice, so a one-question
      quiz answered correctly twice scores 200. */
  lemma RepeatedAnswerScoresAboveHundred(q: Question)
    ensures var answers := [Answer(q.id, q.correctAnswer, true, 0.0), Answer(q.id, q.correctAnswer, true, 0.0)];
      ScoreOf(CorrectCount(answers), |[q]|) == Finite(200.0)
  {
    var answers := [Answer(q.id, q.correctAnswer, true, 0.0), Answer(q.id, q.correctAnswer, true, 0.0)];
    assert answers[..1][..0] == [];
    assert CorrectCount(answers[..1]) == 1;
  }

  /** The question ids an answer list refers to. */
  function AnsweredIds(answers: seq<Answer>): set<string>
  {
    set m | 0 <= m < |answers| :: answers[m].questionId
  }

  function QuestionIds(questions: seq<Question>): set<string>
  {
    set j | 0 <= j < |questions| :: questions[j].id
  }

  lemma {:induction false} QuestionIdsBound(questions: seq<Question>)
    ensures |QuestionIds(questions)| <= |questions|
  {
    if questions != [] {
      var init := questions[..|questions| - 1];
      QuestionIdsBound(init);
      assert QuestionIds(questions) == QuestionIds(init) + {questions[|questions| - 1].id} by {
        forall x | x in QuestionIds(questions) ensures x in QuestionIds(init) + {questions[|questions| - 1].id} {
          var j :| 0 <= j < |questions| && questions[j].id == x;
          if j < |init| { assert init[j].id == x; }
        }
        forall x | x in QuestionIds(init) ensures x in QuestionIds(questions) {
          var j :| 0 <= j < |init| && init[j].id == x;
          assert questions[j].id == x;
        }
      }
    }
  }

  lemma AnsweredIdsSnoc(init: seq<Answer>, last: Answer)
    ensures AnsweredIds(init + [last]) == AnsweredIds(init) + {last.questionId}
  {
    var answers := init + [last];
    forall x | x in AnsweredIds(answers) ensures x in AnsweredIds(init) + {last.questionId} {
      var m :| 0 <= m < |answers| && answers[m].questionId == x;
      if m < |init| { assert init[m].questionId == x; }
    }
    forall x | x in AnsweredIds(init) ensures x in AnsweredIds(answers) {
      var m :| 0 <= m < |init| && init[m].questionId == x;
      assert answers[m].questionId == x;
    }
    assert answers[|init|] == last;
  }

  /** Answers to distinct questions have as many ids as entries. */
  lemma {:induction false} DistinctAnswerIds(answers: seq<Answer>)
    requires forall m, n :: 0 <= m < n < |answers| ==> answers[m].questionId != answers[n].questionId
    ensures |AnsweredIds(answers)| == |answers|
  {
    if answers != [] {
      var init := answers[..|answers| - 1];
      var last := answers[|answers| - 1];
      assert answers == init + [last];
      DistinctAnswerIds(init);
      AnsweredIdsSnoc(init, last);
      forall m | 0 <= m < |init| ensures init[m].questionId != last.questionId {
        assert init[m] == answers[m];
      }
      assert last.questionId !in AnsweredIds(init);
    }
  }

  /** When each question is answered at most once, the score is a percentage. */
  lemma ScoreBoundedWhenAnsweredOnce(questions: seq<Question>, answers: seq<Answer>)
    requires |questions| > 0
    requires forall m :: 0 <= m < |answers| ==> IsQuestionId(questions, answers[m].questionId)
    requires forall m, n :: 0 <= m < n < |answers| ==> answers[m].questionId != answers[n].questionId
    ensures ScoreOf(CorrectCount(answers), |questions|).Finite?
    ensures 0.0 <= ScoreOf(CorrectCount(answers), |questions|).value <= 100.0
  {
    DistinctAnswerIds(answers);
    QuestionIdsBound(questions);
    assert AnsweredIds(answers) <= QuestionIds(questions);
    assert |AnsweredIds(answers)| <= |QuestionIds(questions)|;
    ScoreIsPercentage(CorrectCount(answers), |questions|);
  }

  // ---------------------------------------------------------------------------------------
  // Operations

  function View(q: Question): (v: QuestionView)
    ensures v.id == q.id && v.kind == q.kind && v.question == q.question && v.options == q.options
  {
    QuestionView(q.id, q.kind, q.question, q.options)
  }

  /** `startQuizAttempt`: one new attempt with no answers and score 0 goes after the existing
      ones; the learner gets the attempt id and every question without its answer. The
      generated attempt id and the clock are parameters. */
  method StartQuizAttempt(quiz: Quiz?, attemptId: string, now: Time)
    returns (r: Result<(string, seq<QuestionView>), QuizError>)
    modifies quiz
    ensures quiz == null ==> r == Err(QuizNotFound)
    ensures quiz != null ==>
      && quiz.attempts == old(quiz.attempts) + [Attempt(attemptId, now, None, [], Finite(0.0))]
      && r.Ok? && r.value.0 == attemptId
      && |r.value.1| == |quiz.questions|
      && forall i :: 0 <= i < |quiz.questions| ==> r.value.1[i] == View(quiz.questions[i])
    ensures quiz != null && old(quiz.AnswersNameQuestions()) ==> quiz.AnswersNameQuestions()
  {
    if quiz == null {
      return Err(QuizNotFound);
    }
    quiz.attempts := quiz.attempts + [Attempt(attemptId, now, None, [], Finite(0.0))];
    var views := seq(|quiz.questions|, i requires 0 <= i < |quiz.questions| => View(quiz.questions[i]));
    return Ok((attemptId, views));
  }

  /** `timeSpent || 0`. */
  function TimeOr(timeSpent: Option<real>): (t: real)
    ensures timeSpent.Some? ==> t == timeSpent.value
    ensures timeSpent.None? ==> t == 0.0
  {
    if timeSpent.Some? then timeSpent.value else 0.0
  }

  /** `submitQuizAnswer`: an unknown quiz, attempt or question (checked in that order) is
      an error and records nothing; otherwise exactly one answer is appended to the first
      attempt with that id. The explanation is returned only when the quiz shows answers. */
  method SubmitQuizAnswer(quiz: Quiz?, attemptId: string, questionId: string, answer: string, timeSpent: Option<real>)
    returns (r: Result<SubmitResult, QuizError>)
    modifies quiz
    ensures quiz == null ==> r == Err(QuizNotFound)
    ensures quiz != null && FindAttempt(old(quiz.attempts), attemptId).None? ==>
      r == Err(AttemptNotFound) && quiz.attempts == old(quiz.attempts)
    ensures quiz != null && FindAttempt(old(quiz.attempts), attemptId).Some? && !IsQuestionId(quiz.questions, questionId) ==>
      r == Err(QuestionNotFound) && quiz.attempts == old(quiz.attempts)
    ensures quiz != null && FindAttempt(old(quiz.attempts), attemptId).Some? && IsQuestionId(quiz.questions, questionId) ==>
      var k := FindAttempt(old(quiz.attempts), attemptId).value;
      var q := quiz.questions[FindQuestion(quiz.questions, questionId).value];
      var a := old(quiz.attempts)[k];
      && quiz.attempts == old(quiz.attempts)[k := a.(answers := a.answers + [Answer(questionId, answer, IsCorrect(answer, q.correctAnswer), TimeOr(timeSpent))])]
      && r == Ok(SubmitResult(IsCorrect(answer, q.correctAnswer), if quiz.settings.showCorrectAnswers then q.explanation else None))
    ensures quiz != null && old(quiz.AnswersNameQuestions()) ==> quiz.AnswersNameQuestions()
  {
    if quiz == null {
      return Err(QuizNotFound);
    }
    var k := FindAttempt(quiz.attempts, attemptId);
    if k.None? {
      return Err(AttemptNotFound);
    }
    var j := FindQuestion(quiz.questions, questionId);
    if j.None? {
      return Err(QuestionNotFound);
    }
    var question := quiz.questions[j.value];
    var isCorrect := IsCorrect(answer, question.correctAnswer);
    var attempt := quiz.attempts[k.value];
    ghost var before := quiz.attempts;
    quiz.attempts := quiz.attempts[k.value := attempt.(answers := attempt.answers + [Answer(questionId, answer, isCorrect, TimeOr(timeSpent))])];
    assert forall i :: 0 <= i < |before| && i != k.value ==> quiz.attempts[i] == before[i];
    assert forall m :: 0 <= m < |attempt.answers| ==> quiz.attempts[k.value].answers[m] == attempt.answers[m];
    return Ok(SubmitResult(isCorrect, if quiz.settings.showCorrectAnswers then question.explanation else None));
  }

  /** `finishQuizAttempt`: the first attempt with that id gets its end time and the score
      `100 * correct / questions`; the learner also gets the counts and the summed time. */
  method FinishQuizAttempt(quiz: Quiz?, attemptId: string, now: Time) returns (r: Result<FinishResult, QuizError>)
    modifies quiz
    ensures quiz == null ==> r == Err(QuizNotFound)
    ensures quiz != null && FindAttempt(old(quiz.attempts), attemptId).None? ==>
      r == Err(AttemptNotFound) && quiz.attempts == old(quiz.attempts)
    ensures quiz != null && FindAttempt(old(quiz.attempts), attemptId).Some? ==>
      var k := FindAttempt(old(quiz.attempts), attemptId).value;
      var a := old(quiz.attempts)[k];
      var score := ScoreOf(CorrectCount(a.answers), |quiz.questions|);
      && quiz.attempts == old(quiz.attempts)[k := a.(endTime := Some(now), score := score)]
      && r == Ok(FinishResult(score, CorrectCount(a.answers), |quiz.questions|, TotalTime(a.answers)))
    ensures quiz != null && old(quiz.AnswersNameQuestions()) ==> quiz.AnswersNameQuestions()
  {
    if quiz == null {
      return Err(QuizNotFound);
    }
    var k := FindAttempt(quiz.attempts, attemptId);
    if k.None? {
      return Err(AttemptNotFound);
    }
    var attempt := quiz.attempts[k.value];
    var correctAnswers := CorrectCount(attempt.answers);
    var score := ScoreOf(correctAnswers, |quiz.questions|);
    ghost var before := quiz.attempts;
    quiz.attempts := quiz.attempts[k.value := attempt.(endTime := Some(now), score := score)];
    assert forall i :: 0 <= i < |before| && i != k.value ==> quiz.attempts[i] == before[i];
    return Ok(FinishResult(score, correctAnswers, |quiz.questions|, TotalTime(attempt.answers)));
  }
}
