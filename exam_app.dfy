/** The exam-session state machine of the `MathExamApp` screen: login, the
    welcome page, the exam page with its per-question timer and answer rules,
    and the completion page. Each event handler is a method; `Date.now()` is
    the parameter `now`, and the outcome of creating the remote session is the
    parameter `created`. */
module ExamApp {
  import opened Wrappers
  import opened Login
  import opened Scoring
  import opened Timing

  datatype Page = LoginPage | WelcomePage | ExamPage | CompletePage

  /** `modalType`; `NoModal` is the empty string. */
  datatype ModalType = NoModal | Success | Retry | Failed | Confirm

  const MismatchError := "Nama dan kode tidak cocok!"
  const SessionError := "Terjadi kesalahan saat login"

  class MathExamApp {
    /** The loaded `users` and `questions` tables. */
    const users: seq<User>
    const questions: seq<Question>

    var page: Page
    var user: Option<User>
    /** The id of the remote session row, once one was created. */
    var userSession: Option<int>
    var loginError: string
    var currentQuestion: int
    var score: nat
    var answers: map<int, AnswerRecord>
    var attempts: map<int, nat>
    var timeTracking: map<int, Tracking>
    var showModal: bool
    var modalType: ModalType
    /** `startTimeRef.current`: the single running start time shared by all questions. */
    var anchor: Option<int>
    /** How many times an answer was submitted for each question. */
    ghost var submissions: map<int, nat>

    /** Nothing has happened on the exam yet. */
    ghost predicate Pristine()
      reads this
    {
      && currentQuestion == 1 && score == 0 && anchor == None
      && answers == map[] && attempts == map[] && submissions == map[] && timeTracking == map[]
    }

    /** The timer invariant: the current question is a question button, no
        timer runs off the exam page, and the tracking map is accounted and has
        at most one running anchor, for the current question. */
    ghost predicate TimerValid()
      reads this`page, this`currentQuestion, this`timeTracking, this`anchor
    {
      && 1 <= currentQuestion <= QuestionCount
      && (page != ExamPage ==> anchor == None)
      && TimerOk(timeTracking, anchor, currentQuestion)
    }

    /** The answer invariant for the logged-in user's scoring rule. */
    ghost predicate AnswersValid()
      reads this`user, this`score, this`answers, this`attempts, this`submissions
    {
      user.Some? ==> AnswersOk(score, answers, attempts, submissions, PointsPerCorrect(user.value))
    }

    ghost predicate Valid()
      reads this
    {
      && (page == LoginPage || page == WelcomePage ==> Pristine())
      && (page != LoginPage ==> user.Some?)
      && (showModal <==> modalType != NoModal)
      && TimerValid()
      && AnswersValid()
    }

    constructor (users: seq<User>, questions: seq<Question>)
      ensures Valid() && Pristine()
      ensures this.users == users && this.questions == questions
      ensures page == LoginPage && user == None && userSession == None && loginError == ""
      ensures !showModal && modalType == NoModal
    {
      this.users := users;
      this.questions := questions;
      page := LoginPage;
      user := None;
      userSession := None;
      loginError := "";
      currentQuestion := 1;
      score := 0;
      answers := map[];
      attempts := map[];
      timeTracking := map[];
      showModal := false;
      modalType := NoModal;
      anchor := None;
      submissions := map[];
    }

    /** `handleLogin`. On a name/code mismatch, or when the session cannot be
        created, only the error message changes. */
    method HandleLogin(selectedName: string, inputCode: string, created: Option<int>)
      requires Valid() && page == LoginPage
      modifies this`page, this`user, this`userSession, this`loginError
      ensures Valid()
      ensures MatchLogin(users, selectedName, inputCode).None? ==>
        loginError == MismatchError && page == LoginPage && user == old(user) && userSession == old(userSession)
      ensures MatchLogin(users, selectedName, inputCode).Some? && created.None? ==>
        loginError == SessionError && page == LoginPage && user == old(user) && userSession == old(userSession)
      ensures MatchLogin(users, selectedName, inputCode).Some? && created.Some? ==>
        loginError == "" && page == WelcomePage && user == MatchLogin(users, selectedName, inputCode) && userSession == created
    {
      var selectedUser := FindByName(users, selectedName);
      if selectedUser.None? || selectedUser.value.id != inputCode {
        loginError := MismatchError;
        return;
      }
      if created.None? {
        loginError := SessionError;
        return;
      }
      userSession := created;
      user := selectedUser;
      loginError := "";
      page := WelcomePage;
    }

    /** `startQuestionTimer(questionId)`. */
    method StartQuestionTimer(questionId: int, now: int)
      modifies this`timeTracking, this`anchor
      ensures timeTracking == StartTracking(old(timeTracking), questionId, now)
      ensures anchor == Some(now)
    {
      timeTracking := StartTracking(timeTracking, questionId, now);
      anchor := Some(now);
    }

    /** `stopQuestionTimer(questionId)`: a no-op unless the anchor is running;
        otherwise the time since the anchor is charged to `questionId`, whichever
        question the anchor was started for, and the anchor is cleared. */
    method StopQuestionTimer(questionId: int, now: int)
      modifies this`timeTracking, this`anchor
      ensures timeTracking == StopTimer(old(timeTracking), old(anchor), questionId, now)
      ensures anchor == if Running(old(anchor)) then None else old(anchor)
    {
      if Running(anchor) {
        timeTracking := StopTracking(timeTracking, questionId, anchor.value, now);
        anchor := None;
      }
    }

    /** `startExam`: the exam page opens on question 1 and its timer starts. */
    method StartExam(now: int)
      requires Valid() && page == WelcomePage && now > 0
      modifies this`page, this`timeTracking, this`anchor
      ensures Valid()
      ensures page == ExamPage && currentQuestion == 1
      ensures timeTracking == map[1 := Tracking(0, [], Some(now), Some(now), None)]
      ensures anchor == Some(now)
    {
      page := ExamPage;
      StartQuestionTimer(1, now);
      StartFromIdle(map[], 1, now);
    }

    /** `switchQuestion(questionId)`: nothing happens for the current question;
        otherwise the running time is charged to the current question, and the
        target becomes current with its timer started at the same instant. */
    method SwitchQuestion(questionId: int, now: int)
      requires Valid() && page == ExamPage && 1 <= questionId <= QuestionCount && now > 0
      modifies this`currentQuestion, this`timeTracking, this`anchor
      ensures Valid()
      ensures questionId == old(currentQuestion) ==>
        currentQuestion == old(currentQuestion) && timeTracking == old(timeTracking) && anchor == old(anchor)
      ensures questionId != old(currentQuestion) ==>
        && currentQuestion == questionId
        && timeTracking == StartTracking(StopTimer(old(timeTracking), old(anchor), old(currentQuestion), now), questionId, now)
        && anchor == Some(now)
    {
      if currentQuestion != questionId {
        SwitchStep(timeTracking, anchor, currentQuestion, questionId, now);
        StopQuestionTimer(currentQuestion, now);
        currentQuestion := questionId;
        StartQuestionTimer(questionId, now);
      }
    }

    /** `question.correct_answer` of the current question, when it is in the loaded table. */
    function CorrectOption(): int
      reads this`currentQuestion
      requires FindQuestion(questions, currentQuestion).Some?
    {
      FindQuestion(questions, currentQuestion).value.correctAnswer
    }

    /** `handleAnswerSelect(optionIndex)` on the local state, under the
        `canAnswer` guard of the option buttons. */
    method HandleAnswerSelect(optionIndex: int, now: int)
      requires Valid() && page == ExamPage
      requires CanAnswer(answers, attempts, currentQuestion)
      requires FindQuestion(questions, currentQuestion).Some?
      modifies this`score, this`answers, this`attempts, this`timeTracking, this`anchor,
               this`modalType, this`showModal, this`submissions
      ensures Valid() && showModal
      ensures score >= old(score)
      ensures forall q :: q in old(answers) ==> q in answers && answers[q] == old(answers)[q]
      ensures optionIndex == CorrectOption() ==>
        && score == old(score) + PointsPerCorrect(user.value)
        && answers == old(answers)[currentQuestion := AnswerRecord(optionIndex, true, Count(old(attempts), currentQuestion) + 1)]
        && attempts == old(attempts)
        && timeTracking == StopTimer(old(timeTracking), old(anchor), currentQuestion, now) && anchor == None
        && modalType == Success
      ensures optionIndex != CorrectOption() && Count(old(attempts), currentQuestion) == 0 ==>
        && score == old(score) && answers == old(answers)
        && attempts == old(attempts)[currentQuestion := 1]
        && timeTracking == old(timeTracking) && anchor == old(anchor)
        && modalType == Retry
      ensures optionIndex != CorrectOption() && Count(old(attempts), currentQuestion) == 1 ==>
        && score == old(score)
        && answers == old(answers)[currentQuestion := AnswerRecord(optionIndex, false, 2)]
        && attempts == old(attempts)[currentQuestion := 2]
        && timeTracking == StopTimer(old(timeTracking), old(anchor), currentQuestion, now) && anchor == None
        && modalType == Failed
    {
      var isCorrect := optionIndex == CorrectOption();
      var currentAttempts := Count(attempts, currentQuestion);
      if isCorrect {
        AcceptCorrect(optionIndex, now);
      } else if currentAttempts + 1 == 1 {
        RecordFirstMiss();
      } else {
        RecordSecondMiss(optionIndex, now);
      }
    }

    /** The correct-answer branch of `handleAnswerSelect`: the record and the
        score are written, the timer stops and the success modal opens; the
        attempts counter is kept. */
    method AcceptCorrect(optionIndex: int, now: int)
      requires Valid() && page == ExamPage && CanAnswer(answers, attempts, currentQuestion)
      modifies this`score, this`answers, this`timeTracking, this`anchor,
               this`modalType, this`showModal, this`submissions
      ensures Valid() && showModal && modalType == Success
      ensures score == old(score) + PointsPerCorrect(user.value)
      ensures answers == old(answers)[currentQuestion := AnswerRecord(optionIndex, true, Count(attempts, currentQuestion) + 1)]
      ensures timeTracking == StopTimer(old(timeTracking), old(anchor), currentQuestion, now) && anchor == None
    {
      RecordCorrect(optionIndex);
      StopAndNotify(now, Success);
    }

    /** `setAnswers` and `setScore` of the correct-answer branch: the record
        carries one more than the attempts counter and the points are added once. */
    method RecordCorrect(optionIndex: int)
      requires AnswersValid() && user.Some? && CanAnswer(answers, attempts, currentQuestion)
      modifies this`score, this`answers, this`submissions
      ensures AnswersValid()
      ensures score == old(score) + PointsPerCorrect(user.value)
      ensures answers == old(answers)[currentQuestion := AnswerRecord(optionIndex, true, Count(attempts, currentQuestion) + 1)]
      ensures submissions == old(submissions)[currentQuestion := Count(old(submissions), currentQuestion) + 1]
    {
      var currentAttempts := Count(attempts, currentQuestion);
      var pointsPerCorrect := PointsPerCorrect(user.value);
      CorrectAnswerStep(score, answers, attempts, submissions, pointsPerCorrect, currentQuestion, optionIndex);
      var newScore := score + pointsPerCorrect;
      answers := answers[currentQuestion := AnswerRecord(optionIndex, true, currentAttempts + 1)];
      score := newScore;
      submissions := submissions[currentQuestion := Count(submissions, currentQuestion) + 1];
    }

    /** A first wrong answer: only the attempts counter moves, and the retry modal opens. */
    method RecordFirstMiss()
      requires Valid() && page == ExamPage && CanAnswer(answers, attempts, currentQuestion)
      requires Count(attempts, currentQuestion) == 0
      modifies this`attempts, this`modalType, this`showModal, this`submissions
      ensures Valid() && showModal && modalType == Retry
      ensures attempts == old(attempts)[currentQuestion := 1]
      ensures submissions == old(submissions)[currentQuestion := 1]
    {
      FirstMissStep(score, answers, attempts, submissions, PointsPerCorrect(user.value), currentQuestion);
      var newAttempts := Count(attempts, currentQuestion) + 1;
      attempts := attempts[currentQuestion := newAttempts];
      submissions := submissions[currentQuestion := 1];
      modalType := Retry;
      showModal := true;
    }

    /** A second wrong answer: the final incorrect record is written, the timer
        stops and the failed modal opens. */
    method RecordSecondMiss(optionIndex: int, now: int)
      requires Valid() && page == ExamPage && CanAnswer(answers, attempts, currentQuestion)
      requires Count(attempts, currentQuestion) == 1
      modifies this`answers, this`attempts, this`timeTracking, this`anchor,
               this`modalType, this`showModal, this`submissions
      ensures Valid() && showModal && modalType == Failed
      ensures attempts == old(attempts)[currentQuestion := 2]
      ensures answers == old(answers)[currentQuestion := AnswerRecord(optionIndex, false, 2)]
      ensures timeTracking == StopTimer(old(timeTracking), old(anchor), currentQuestion, now) && anchor == None
    {
      RecordFinalMiss(optionIndex);
      StopAndNotify(now, Failed);
    }

    /** The common end of a final answer: the current question's timer stops
        and the outcome modal `outcome` opens. */
    method StopAndNotify(now: int, outcome: ModalType)
      requires TimerValid() && outcome != NoModal
      modifies this`timeTracking, this`anchor, this`modalType, this`showModal
      ensures TimerValid() && showModal && modalType == outcome
      ensures timeTracking == StopTimer(old(timeTracking), old(anchor), currentQuestion, now) && anchor == None
    {
      StopStep(timeTracking, anchor, currentQuestion, now);
      StopQuestionTimer(currentQuestion, now);
      modalType := outcome;
      showModal := true;
    }

    /** `setAttempts` and `setAnswers` of the second miss: two attempts and an
        incorrect record with two attempts, and no points. */
    method RecordFinalMiss(optionIndex: int)
      requires AnswersValid() && user.Some? && CanAnswer(answers, attempts, currentQuestion)
      requires Count(attempts, currentQuestion) == 1
      modifies this`answers, this`attempts, this`submissions
      ensures AnswersValid()
      ensures attempts == old(attempts)[currentQuestion := 2]
      ensures answers == old(answers)[currentQuestion := AnswerRecord(optionIndex, false, 2)]
      ensures submissions == old(submissions)[currentQuestion := 2]
    {
      SecondMissStep(score, answers, attempts, submissions, PointsPerCorrect(user.value), currentQuestion, optionIndex);
      var newAttempts := Count(attempts, currentQuestion) + 1;
      attempts := attempts[currentQuestion := newAttempts];
      answers := answers[currentQuestion := AnswerRecord(optionIndex, false, 2)];
      submissions := submissions[currentQuestion := 2];
    }

    /** `closeModal`: also what declining the finish prompt does. */
    method CloseModal()
      requires Valid()
      modifies this`showModal, this`modalType
      ensures Valid() && !showModal && modalType == NoModal
    {
      showModal := false;
      modalType := NoModal;
    }

    /** `finishExam`: only opens the confirmation prompt. */
    method FinishExam()
      requires Valid()
      modifies this`showModal, this`modalType
      ensures Valid() && showModal && modalType == Confirm
    {
      modalType := Confirm;
      showModal := true;
    }

    /** `confirmFinish` on the local state: the running time is charged to the
        current question, the completion page opens and the prompt closes. */
    method ConfirmFinish(now: int)
      requires Valid() && page == ExamPage
      modifies this`page, this`timeTracking, this`anchor, this`showModal, this`modalType
      ensures Valid()
      ensures page == CompletePage && !showModal && modalType == NoModal
      ensures timeTracking == StopTimer(old(timeTracking), old(anchor), currentQuestion, now)
      ensures anchor == None
    {
      StopStep(timeTracking, anchor, currentQuestion, now);
      StopQuestionTimer(currentQuestion, now);
      page := CompletePage;
      CloseModal();
    }
  }
}
