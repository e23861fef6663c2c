/** The answer and scoring rules of the exam page: the answer guard, the points
    per correct answer, the remaining-attempts notice, the question-button
    colour, and the invariants that submitting an answer keeps. */
module Scoring {
  import opened Wrappers
  import opened Search
  import opened Login

  /** A row of the `questions` table; the prompt text and the attachment are presentation only. */
  datatype Question = Question(id: int, options: seq<string>, correctAnswer: int)

  /** The outcome written for a question: `{ optionIndex, isCorrect, attempts }`. */
  datatype AnswerRecord = AnswerRecord(optionIndex: int, isCorrect: bool, attempts: nat)

  /** The exam shows question buttons 1 to 10. */
  const QuestionCount := 10

  /** The test `q => q.id === currentQuestion`. */
  function HasId(id: int): Question -> bool {
    (x: Question) => x.id == id
  }

  /** `questions.find(q => q.id === currentQuestion)`. */
  function FindQuestion(questions: seq<Question>, id: int): (r: Option<Question>)
    ensures r.None? <==> forall i :: 0 <= i < |questions| ==> questions[i].id != id
    ensures r.Some? ==> r.value in questions && r.value.id == id
  {
    Find(questions, HasId(id))
  }

  /** The question found is the one at the first index carrying the id, as
      `find` returns; stated apart from `FindQuestion` so that the handlers
      that require a loaded question do not carry it. */
  lemma FindQuestionIsFirst(questions: seq<Question>, id: int)
    ensures FindQuestion(questions, id).Some? ==>
      exists i :: IsFirst(questions, HasId(id), i) && questions[i] == FindQuestion(questions, id).value
  {
  }

  /** `attempts[questionId] || 0`. */
  function Count(m: map<int, nat>, q: int): nat {
    if q in m then m[q] else 0
  }

  /** `user.experimental_code === 'A' ? 10 : 1`. */
  function PointsPerCorrect(u: User): (p: nat)
    ensures p == 10 || p == 1
    ensures p == 10 <==> u.experimentalCode == "A"
  {
    if u.experimentalCode == "A" then 10 else 1
  }

  /** `!currentAnswer && currentAttempts < 2`: the option buttons are enabled. */
  predicate CanAnswer(answers: map<int, AnswerRecord>, attempts: map<int, nat>, q: int): (ok: bool)
    ensures ok ==> Count(attempts, q) <= 1
  {
    q !in answers && Count(attempts, q) < 2
  }

  /** The "Kesempatan tersisa" notice: shown once an attempt was made on a
      question without a record, and then it shows `2 - currentAttempts`. */
  function RemainingAttempts(answers: map<int, AnswerRecord>, attempts: map<int, nat>, q: int): (r: Option<int>)
    ensures r.Some? ==> q !in answers && r.value < 2
    ensures r.Some? && r.value > 0 ==> CanAnswer(answers, attempts, q)
    ensures r.None? && q !in answers ==> CanAnswer(answers, attempts, q)
  {
    if Count(attempts, q) > 0 && q !in answers then Some(2 - Count(attempts, q)) else None
  }

  const Unanswered := "#e0e0e0"
  const AnsweredRight := "#4CAF50"
  const AnsweredWrong := "#f44336"

  /** `getQuestionButtonColor`: grey without a record, green for a correct
      record, red for an incorrect one. */
  function ButtonColor(answers: map<int, AnswerRecord>, q: int): (c: string)
    ensures c == Unanswered <==> q !in answers
    ensures c == AnsweredRight <==> q in answers && answers[q].isCorrect
    ensures c == AnsweredWrong <==> q in answers && !answers[q].isCorrect
  {
    if q !in answers then Unanswered
    else if answers[q].isCorrect then AnsweredRight
    else AnsweredWrong
  }

  /** The questions whose record is correct. */
  ghost function CorrectSet(answers: map<int, AnswerRecord>): set<int> {
    set q | q in answers && answers[q].isCorrect
  }

  /** The score is the points per correct answer times the number of correctly answered questions. */
  ghost predicate ScoreMatches(score: int, answers: map<int, AnswerRecord>, points: nat) {
    score == points * |CorrectSet(answers)|
  }

  /** How one submitted question's record, attempts counter and true number of
      submissions relate: it was submitted once or twice; without a record it
      was missed once; a record's `attempts` is the number of submissions, and
      an incorrect record comes from two; the attempts counter counts the misses. */
  ghost predicate QuestionRules(answers: map<int, AnswerRecord>, attempts: map<int, nat>, submissions: map<int, nat>, q: int)
    requires q in submissions
  {
    && 1 <= submissions[q] <= 2
    && (q !in answers ==> submissions[q] == 1)
    && (q in answers ==> answers[q].attempts == submissions[q] && (!answers[q].isCorrect ==> submissions[q] == 2))
    && Count(attempts, q) == submissions[q] - (if q in answers && answers[q].isCorrect then 1 else 0)
  }

  /** Records and attempts exist only for submitted questions, and each submitted question keeps its rules. */
  ghost predicate AttemptRules(answers: map<int, AnswerRecord>, attempts: map<int, nat>, submissions: map<int, nat>) {
    && answers.Keys <= submissions.Keys
    && attempts.Keys <= submissions.Keys
    && forall q :: q in submissions ==> QuestionRules(answers, attempts, submissions, q)
  }

  /** Under the rules the guard depends on the record alone: a question without
      a record can always be answered, so a record is what locks a question. */
  lemma LockedIffRecorded(answers: map<int, AnswerRecord>, attempts: map<int, nat>, submissions: map<int, nat>, q: int)
    requires AttemptRules(answers, attempts, submissions)
    ensures CanAnswer(answers, attempts, q) <==> q !in answers
    ensures q !in answers ==> Count(attempts, q) == Count(submissions, q)
  {
    if q !in answers && q in submissions {
      assert Count(attempts, q) == submissions[q];
    }
  }

  /** The remaining-attempts notice shows 1 exactly for a question missed once
      and not yet recorded, and the question is then still answerable. */
  lemma RemainingAttemptsAfterMiss(answers: map<int, AnswerRecord>, attempts: map<int, nat>, submissions: map<int, nat>, q: int)
    requires AttemptRules(answers, attempts, submissions)
    ensures RemainingAttempts(answers, attempts, q).Some? <==> q in submissions && q !in answers
    ensures RemainingAttempts(answers, attempts, q).Some? ==>
      RemainingAttempts(answers, attempts, q).value == 1 && CanAnswer(answers, attempts, q)
  {
    LockedIffRecorded(answers, attempts, submissions, q);
  }

  /** A red button marks a question missed twice; a coloured button marks a locked question. */
  lemma ButtonColorShowsLock(answers: map<int, AnswerRecord>, attempts: map<int, nat>, submissions: map<int, nat>, q: int)
    requires AttemptRules(answers, attempts, submissions)
    ensures ButtonColor(answers, q) != Unanswered <==> !CanAnswer(answers, attempts, q)
    ensures ButtonColor(answers, q) == AnsweredWrong ==> answers[q].attempts == 2 && Count(attempts, q) == 2
  {
    LockedIffRecorded(answers, attempts, submissions, q);
  }

  /** A correct submission under the guard: the record carries the number of
      submissions so far, and the rules still hold. */
  lemma CorrectSubmissionKeepsRules(answers: map<int, AnswerRecord>, attempts: map<int, nat>, submissions: map<int, nat>, q: int, optionIndex: int)
    requires AttemptRules(answers, attempts, submissions) && CanAnswer(answers, attempts, q)
    ensures Count(attempts, q) + 1 == Count(submissions, q) + 1 <= 2
    ensures AttemptRules(answers[q := AnswerRecord(optionIndex, true, Count(attempts, q) + 1)], attempts,
                         submissions[q := Count(submissions, q) + 1])
  {
    LockedIffRecorded(answers, attempts, submissions, q);
  }

  /** A first miss: only the attempts counter moves, and the rules still hold. */
  lemma FirstMissKeepsRules(answers: map<int, AnswerRecord>, attempts: map<int, nat>, submissions: map<int, nat>, q: int)
    requires AttemptRules(answers, attempts, submissions) && CanAnswer(answers, attempts, q)
    requires Count(attempts, q) == 0
    ensures q !in submissions
    ensures AttemptRules(answers, attempts[q := 1], submissions[q := 1])
  {
    LockedIffRecorded(answers, attempts, submissions, q);
  }

  /** A second miss writes the final incorrect record, and the rules still hold. */
  lemma SecondMissKeepsRules(answers: map<int, AnswerRecord>, attempts: map<int, nat>, submissions: map<int, nat>, q: int, optionIndex: int)
    requires AttemptRules(answers, attempts, submissions) && CanAnswer(answers, attempts, q)
    requires Count(attempts, q) == 1
    ensures Count(submissions, q) == 1
    ensures AttemptRules(answers[q := AnswerRecord(optionIndex, false, 2)], attempts[q := 2], submissions[q := 2])
  {
    LockedIffRecorded(answers, attempts, submissions, q);
  }

  /** Recording a correct answer for an unrecorded question adds the points once. */
  lemma CorrectRecordAddsPoints(score: int, answers: map<int, AnswerRecord>, points: nat, q: int, rec: AnswerRecord)
    requires ScoreMatches(score, answers, points) && q !in answers && rec.isCorrect
    ensures ScoreMatches(score + points, answers[q := rec], points)
  {
    assert CorrectSet(answers[q := rec]) == CorrectSet(answers) + {q};
    assert |CorrectSet(answers[q := rec])| == |CorrectSet(answers)| + 1;
  }

  /** Recording an incorrect answer for an unrecorded question leaves the score due unchanged. */
  lemma WrongRecordAddsNothing(score: int, answers: map<int, AnswerRecord>, points: nat, q: int, rec: AnswerRecord)
    requires ScoreMatches(score, answers, points) && q !in answers && !rec.isCorrect
    ensures ScoreMatches(score, answers[q := rec], points)
  {
    assert CorrectSet(answers[q := rec]) == CorrectSet(answers);
  }

  /** Everything the answer rules keep: the attempt rules and the score. */
  ghost predicate AnswersOk(score: int, answers: map<int, AnswerRecord>, attempts: map<int, nat>,
                            submissions: map<int, nat>, points: nat) {
    AttemptRules(answers, attempts, submissions) && ScoreMatches(score, answers, points)
  }

  /** A correct answer under the guard keeps the rules: the record carries one
      more than the attempts counter, which is the number of submissions, and
      the points are added once. */
  lemma CorrectAnswerStep(score: int, answers: map<int, AnswerRecord>, attempts: map<int, nat>,
                          submissions: map<int, nat>, points: nat, q: int, optionIndex: int)
    requires AnswersOk(score, answers, attempts, submissions, points) && CanAnswer(answers, attempts, q)
    ensures Count(attempts, q) + 1 == Count(submissions, q) + 1 <= 2
    ensures AnswersOk(score + points, answers[q := AnswerRecord(optionIndex, true, Count(attempts, q) + 1)],
                      attempts, submissions[q := Count(submissions, q) + 1], points)
  {
    CorrectSubmissionKeepsRules(answers, attempts, submissions, q, optionIndex);
    CorrectRecordAddsPoints(score, answers, points, q, AnswerRecord(optionIndex, true, Count(attempts, q) + 1));
  }

  /** A first wrong answer keeps the rules with only the attempts counter moved. */
  lemma FirstMissStep(score: int, answers: map<int, AnswerRecord>, attempts: map<int, nat>,
                      submissions: map<int, nat>, points: nat, q: int)
    requires AnswersOk(score, answers, attempts, submissions, points) && CanAnswer(answers, attempts, q)
    requires Count(attempts, q) == 0
    ensures AnswersOk(score, answers, attempts[q := 1], submissions[q := 1], points)
  {
    FirstMissKeepsRules(answers, attempts, submissions, q);
  }

  /** A second wrong answer keeps the rules with the final incorrect record and no points. */
  lemma SecondMissStep(score: int, answers: map<int, AnswerRecord>, attempts: map<int, nat>,
                       submissions: map<int, nat>, points: nat, q: int, optionIndex: int)
    requires AnswersOk(score, answers, attempts, submissions, points) && CanAnswer(answers, attempts, q)
    requires Count(attempts, q) == 1
    ensures AnswersOk(score, answers[q := AnswerRecord(optionIndex, false, 2)], attempts[q := 2],
                      submissions[q := 2], points)
  {
    SecondMissKeepsRules(answers, attempts, submissions, q, optionIndex);
    WrongRecordAddsNothing(score, answers, points, q, AnswerRecord(optionIndex, false, 2));
  }
}
