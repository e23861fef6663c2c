/** Walk-throughs of the exam screen that follow from the handlers' contracts
    alone: a login, a retry that still scores, two misses that lock a question,
    and time charged across a switch. */
module Scenarios {
  import opened Wrappers
  import opened Login
  import opened Scoring
  import opened Timing
  import opened ExamApp

  /** A wrong code is refused with the mismatch message; the right one opens
      the welcome page and clears the message. */
  method LoginScenario() returns (app: MathExamApp)
    ensures fresh(app) && app.page == WelcomePage && app.loginError == ""
    ensures app.user == Some(User("7741", "Alya", "A")) && app.userSession == Some(1)
  {
    var alya := User("7741", "Alya", "A");
    app := new MathExamApp([alya], []);
    assert MatchLogin([alya], "Alya", "0000").None?;
    app.HandleLogin("Alya", "0000", Some(1));
    assert app.page == LoginPage && app.loginError == MismatchError;
    assert MatchLogin([alya], "Alya", "7741") == Some(alya);
    app.HandleLogin("Alya", "7741", Some(1));
  }

  /** A user of group A logs in, starts the exam at time 1000 and moves to question `q` at `switchAt`. */
  method OnQuestion(q: Question, switchAt: int) returns (app: MathExamApp)
    requires 2 <= q.id <= QuestionCount && switchAt > 0
    ensures fresh(app) && app.Valid() && app.page == ExamPage && app.questions == [q]
    ensures app.user.Some? && PointsPerCorrect(app.user.value) == 10 && app.currentQuestion == q.id && app.score == 0
    ensures app.answers == map[] && app.attempts == map[] && app.anchor == Some(switchAt)
    ensures app.timeTracking.Keys == {1, q.id}
    ensures app.timeTracking[1].totalTime == switchAt - 1000 && app.timeTracking[q.id].totalTime == 0
  {
    var alya := User("7741", "Alya", "A");
    app := new MathExamApp([alya], [q]);
    assert MatchLogin([alya], "Alya", "7741") == Some(alya);
    app.HandleLogin("Alya", "7741", Some(1));
    app.StartExam(1000);
    ghost var started := app.timeTracking;
    assert StopTimer(started, Some(1000), 1, switchAt) == StopTracking(started, 1, 1000, switchAt);
    app.SwitchQuestion(q.id, switchAt);
  }

  /** On question `q`, option `wrong` is submitted once and misses: the retry modal is shown. */
  method MissedOnce(q: Question, wrong: int) returns (app: MathExamApp)
    requires 2 <= q.id <= QuestionCount && wrong != q.correctAnswer
    ensures fresh(app) && app.Valid() && app.page == ExamPage && app.questions == [q]
    ensures app.user.Some? && PointsPerCorrect(app.user.value) == 10 && app.currentQuestion == q.id
    ensures app.score == 0 && app.answers == map[] && app.attempts == map[q.id := 1]
    ensures app.showModal && app.modalType == Retry
  {
    app := OnQuestion(q, 2000);
    assert FindQuestion([q], q.id) == Some(q);
    app.HandleAnswerSelect(wrong, 3000);
  }

  /** Question 3 answers index 2: a miss, then the right option on the second attempt scores. */
  method SecondAttemptScores() returns (app: MathExamApp)
    ensures fresh(app) && app.Valid() && app.modalType == Success && app.score == 10
    ensures app.answers == map[3 := AnswerRecord(2, true, 2)] && app.attempts == map[3 := 1]
    ensures !CanAnswer(app.answers, app.attempts, 3)
  {
    var q3 := Question(3, ["a", "b", "c"], 2);
    app := MissedOnce(q3, 1);
    app.CloseModal();
    assert FindQuestion([q3], 3) == Some(q3);
    app.HandleAnswerSelect(2, 4000);
  }

  /** Question 5 answers index 0: two misses lock it with a final incorrect record. */
  method TwoMissesLock() returns (app: MathExamApp)
    ensures fresh(app) && app.Valid() && app.modalType == Failed && app.score == 0
    ensures app.answers == map[5 := AnswerRecord(1, false, 2)] && app.attempts == map[5 := 2]
    ensures !CanAnswer(app.answers, app.attempts, 5)
  {
    var q5 := Question(5, ["a", "b"], 0);
    app := MissedOnce(q5, 1);
    app.CloseModal();
    assert FindQuestion([q5], 5) == Some(q5);
    app.HandleAnswerSelect(1, 4000);
  }

  /** Question 1 is active for 12 seconds; question 2 is answered right 3 seconds after the switch. */
  method TimeIsChargedPerQuestion() returns (app: MathExamApp)
    ensures fresh(app) && app.Valid() && app.page == ExamPage && app.anchor == None && app.score == 10
    ensures app.timeTracking.Keys == {1, 2}
    ensures app.timeTracking[1].totalTime == 12000 && app.timeTracking[2].totalTime == 3000
  {
    var q2 := Question(2, ["a", "b"], 1);
    app := OnQuestion(q2, 13000);
    assert FindQuestion([q2], 2) == Some(q2);
    ghost var switched := app.timeTracking;
    assert StopTimer(switched, Some(13000), 2, 16000) == StopTracking(switched, 2, 13000, 16000);
    app.HandleAnswerSelect(1, 16000);
  }

  /** Finishing after the last timer stopped charges no further time. */
  method FinishingAddsNoTime() returns (app: MathExamApp)
    ensures fresh(app) && app.Valid() && app.page == CompletePage && app.score == 10 && !app.showModal
    ensures app.timeTracking.Keys == {1, 2}
    ensures app.timeTracking[1].totalTime == 12000 && app.timeTracking[2].totalTime == 3000
  {
    app := TimeIsChargedPerQuestion();
    app.FinishExam();
    app.ConfirmFinish(20000);
  }
}
