# Math exam session model

A Dafny model of the exam-session state machine of the `MathExamApp` screen in
`src/components/MainApp.jsx`, a single-page exam of ten multiple-choice
questions. The model covers five parts:

- **Login.** The first user carrying the selected name is picked. The typed code must equal that user's id.
- **Pages.** The pages go login → welcome → exam → complete.
- **Answers and score.** At most two submissions are allowed per question, guarded by `canAnswer`. A record in `answers` locks a question. A correct answer scores 10 points for users of experimental group `"A"` and 1 point for everyone else.
- **Timer.** Each question has a timer, and one running start time (`startTimeRef`) is shared by all questions. Stopping appends an interval `{startTime, endTime, duration}` and adds its duration to the question's `totalTime`.
- **Rendering facts.** The question-button colour and the "remaining attempts" notice.

Modules:

- `Wrappers`: `Option`.
- `Search`: `Array.prototype.find` as `Find`, specified by the first matching index.
- `Login`: users and the login match.
- `Timing`: tracking records, the start and stop updaters applied to the tracking map, and the accounting they keep.
- `Scoring`: questions, answer records, the `canAnswer` guard, points, button colours, and the answer rules kept between the answers, the attempts counter and the true number of submissions.
- `ExamApp`: the class `MathExamApp`. Its fields are the component's state variables. Each event handler is a method, and `Valid()` is the invariant every handler keeps.
- `Scenarios`: walk-throughs of a login, a retry that still scores, two misses that lock a question, and time charged across a switch.

Outside inputs become parameters:

- `Date.now()` is the parameter `now`. It is positive, as a clock reading is.
- The outcome of creating the remote session row is `created: Option<int>`, where `None` means the request threw.
- The loaded `users` and `questions` tables are constructor arguments.

Two behaviours of the code worth knowing:

- **Correct answer.** A correct answer does not increment the attempts counter (`src/components/MainApp.jsx:426-442`). It writes `attempts: currentAttempts + 1` into the record and leaves the `attempts` map alone. After a miss and then a correct answer, the counter is therefore 1 while the record says 2. The ghost field `submissions` counts the real submissions. `Valid()` proves that a record's `attempts` always equals that count, and that the counter equals the number of misses.
- **Duplicate names.** Login picks by name with `users.find` (`src/components/MainApp.jsx:333`), so only the first user with a given name can ever log in (`Login.DuplicateNameIsShadowed`).

## Model

| member | source | states |
|---|---|---|
| Search.Find | src/components/MainApp.jsx:333 | `find` returns nothing exactly when no element passes the test. Otherwise it returns the element at the first index that passes. |
| Login.FindByName | src/components/MainApp.jsx:333 | Nothing is found exactly when no user carries the selected name. A found user is in the list and carries that name. That it is the first such user is `Login.FindByNameIsFirst`. |
| Login.FindByNameIsFirst | src/components/MainApp.jsx:333 | A found user is the one at the first index carrying the selected name, as `users.find` returns. |
| Login.MatchLogin | src/components/MainApp.jsx:333-337 | An accepted user is in the list, carries the selected name, and has the typed code as id. It is the user at the first index carrying that name. |
| Login.MatchLoginIff | src/components/MainApp.jsx:333-337 | Login is accepted exactly when the first user with the selected name has the typed code as id. |
| Login.MatchLoginUniqueNames | src/components/MainApp.jsx:333-337 | With unique names, login is accepted exactly when some user has that name and that id. |
| Login.DuplicateNameIsShadowed | src/components/MainApp.jsx:333-337 | A later user sharing a name with an earlier user that has a different id can never log in. |
| Timing.StartTracking | src/components/MainApp.jsx:357-368 | Only the question's entry changes. The entry is created if absent, starting from total 0 and no intervals. `currentStartTime` and `lastActivity` become `now`. Total, intervals and `lastEndTime` are kept. |
| Timing.StopTracking | src/components/MainApp.jsx:377-397 | Only the question's entry changes. Exactly one interval `(start, now, now - start)` is appended. The total grows by the same `now - start`. `currentStartTime` is cleared, `lastEndTime` becomes `now`, and `lastActivity` is kept. |
| Timing.StopTimer | src/components/MainApp.jsx:373-399 | With a falsy anchor the map is unchanged. With a truthy anchor, the result is `StopTracking` from the anchor: one interval `(anchor, now, now - anchor)` is appended to the question, its total grows by the same amount, it is no longer marked as running, and `lastEndTime` becomes `now`. Only the question's entry changes. |
| Timing.StopTrackingKeepsBalance | src/components/MainApp.jsx:377-397 | After a stop, every question's total is still the sum of its interval durations. Each of the model's intervals lasts from its start to its end (see "## Left out" for the start time the source stores). |
| Timing.StopTimerKeepsBalance | src/components/MainApp.jsx:372-400 | `stopQuestionTimer` keeps every total equal to the sum of its intervals, whether or not a timer runs. |
| Timing.StartTrackingKeepsBalance | src/components/MainApp.jsx:355-370 | `startQuestionTimer` keeps every total equal to the sum of its intervals. |
| Timing.StopLeavesIdle | src/components/MainApp.jsx:372-400 | Stopping the current question under a coherent anchor leaves no question marked as running. |
| Timing.StartFromIdle | src/components/MainApp.jsx:355-370 | Starting a question when none runs makes it the only running question, with the anchor equal to its start time. |
| Timing.SwitchChargesElapsed | src/components/MainApp.jsx:402-409 | A switch charges exactly `now - anchor` to the question that was current, as one interval ending at `now`. The target starts at that same `now`, and the accounting still balances. |
| Timing.StopStep | src/components/MainApp.jsx:372-400 | Stopping the current question keeps the timer invariant, and afterwards no anchor is left. |
| Timing.SwitchStep | src/components/MainApp.jsx:402-409 | Stop then start keeps the timer invariant: balanced totals and at most one running anchor, which belongs to the new current question. |
| Scoring.FindQuestion | src/components/MainApp.jsx:419 | Nothing is found exactly when no question has the id. A found question is in the list and has that id. That it is the first such question is `Scoring.FindQuestionIsFirst`. |
| Scoring.FindQuestionIsFirst | src/components/MainApp.jsx:419 | A found question is the one at the first index carrying the id, as `questions.find` returns. |
| Scoring.CanAnswer | src/components/MainApp.jsx:628-630 | When the option buttons are enabled, at most one attempt was made on the question. That an enabled question is exactly an unrecorded one with a grey button is `Scoring.LockedIffRecorded` and `Scoring.ButtonColorShowsLock`. |
| Scoring.RemainingAttempts | src/components/MainApp.jsx:706-708 | The notice is shown only for a question without a record, and it shows less than 2. A positive count means the question can still be answered, and so does an unrecorded question without the notice. |
| Scoring.PointsPerCorrect | src/components/MainApp.jsx:423 | A correct answer is worth 10 points exactly when the user's experimental code is `"A"`, and 1 point otherwise. |
| Scoring.ButtonColor | src/components/MainApp.jsx:411-416 | Grey exactly when the question has no record. Green exactly when its record is correct. Red exactly when its record is incorrect. |
| Scoring.LockedIffRecorded | src/components/MainApp.jsx:630 | Under the answer rules, `canAnswer` holds exactly when the question has no record. An unrecorded question's counter equals its number of submissions. |
| Scoring.RemainingAttemptsAfterMiss | src/components/MainApp.jsx:706-710 | The "remaining attempts" notice is shown exactly for a question submitted but not recorded. It then shows 1, and the question is still answerable. |
| Scoring.ButtonColorShowsLock | src/components/MainApp.jsx:411-416 | A coloured button marks exactly the locked questions. A red one marks a question with two misses, in both the record and the counter. |
| Scoring.CorrectSubmissionKeepsRules | src/components/MainApp.jsx:426-432 | A correct answer under the guard writes a record whose `attempts` is the true number of submissions (at most 2), and the answer rules still hold. |
| Scoring.FirstMissKeepsRules | src/components/MainApp.jsx:443-454 | A first miss concerns a question never submitted before. Moving only the counter to 1 keeps the answer rules. |
| Scoring.SecondMissKeepsRules | src/components/MainApp.jsx:443-460 | A second miss follows exactly one earlier submission. The final record `{optionIndex, false, 2}` and a counter of 2 keep the answer rules. |
| Scoring.CorrectRecordAddsPoints | src/components/MainApp.jsx:428-434 | A correct record for an unrecorded question adds the points exactly once, so the score stays points times the number of correct records. |
| Scoring.WrongRecordAddsNothing | src/components/MainApp.jsx:455-459 | An incorrect record leaves the score due unchanged. |
| Scoring.CorrectAnswerStep | src/components/MainApp.jsx:426-434 | A correct answer keeps the answer rules and the score invariant together. |
| Scoring.FirstMissStep | src/components/MainApp.jsx:443-448 | A first miss keeps the answer rules and the score invariant together. |
| Scoring.SecondMissStep | src/components/MainApp.jsx:443-460 | A second miss keeps the answer rules and the score invariant together. |
| ExamApp.MathExamApp.constructor | src/components/MainApp.jsx:58-79 | The initial state: login page, no user or session, question 1, score 0, empty maps, no modal, no anchor. |
| ExamApp.MathExamApp.HandleLogin | src/components/MainApp.jsx:332-348 | A mismatch sets the mismatch message and changes nothing else. A failed session sets the session message. Otherwise the session and the matched user are stored, the error is cleared, and the welcome page opens. |
| ExamApp.MathExamApp.StartQuestionTimer | src/components/MainApp.jsx:355-370 | The tracking map is updated by `StartTracking`, and the anchor becomes `now`. |
| ExamApp.MathExamApp.StopQuestionTimer | src/components/MainApp.jsx:372-400 | With no running anchor, nothing changes. Otherwise the tracking map is updated by `StopTracking` from the anchor, and the anchor is cleared. |
| ExamApp.MathExamApp.StartExam | src/components/MainApp.jsx:350-353 | The exam page opens on question 1, whose timer alone runs from `now`. |
| ExamApp.MathExamApp.SwitchQuestion | src/components/MainApp.jsx:402-409 | Switching to the current question changes nothing. Otherwise the current question's timer stops, the target becomes current, and its timer starts. The invariant (one anchor at most) is kept. |
| ExamApp.MathExamApp.HandleAnswerSelect | src/components/MainApp.jsx:418-469 | Under `canAnswer`, one of three outcomes happens, and each keeps `Valid()`. The score never decreases, and existing records are never changed. (1) Correct: points added, record `{i, true, attempts+1}`, counter kept, timer stopped, success modal. (2) First miss: counter 1, nothing else, retry modal. (3) Second miss: record `{i, false, 2}`, counter 2, timer stopped, failed modal. |
| ExamApp.MathExamApp.AcceptCorrect | src/components/MainApp.jsx:426-442 | Correct-answer branch: score plus the points, the new record, the timer stopped, no anchor left, and the success modal. |
| ExamApp.MathExamApp.RecordCorrect | src/components/MainApp.jsx:428-434 | The record and the score are written, and the answer invariant is kept. |
| ExamApp.MathExamApp.RecordFirstMiss | src/components/MainApp.jsx:443-454 | First miss: only the counter moves, to 1, and the retry modal opens. |
| ExamApp.MathExamApp.StopAndNotify | src/components/MainApp.jsx:435-442 | The shared end of a final answer (also lines 461-467): the current question's timer stops, no anchor is left, the timer invariant is kept, and the given outcome modal opens. |
| ExamApp.MathExamApp.RecordSecondMiss | src/components/MainApp.jsx:443-468 | Second miss: counter 2, the final incorrect record, the timer stopped, and the failed modal. |
| ExamApp.MathExamApp.RecordFinalMiss | src/components/MainApp.jsx:445-459 | The counter and the final incorrect record are written, and the answer invariant is kept. |
| ExamApp.MathExamApp.CloseModal | src/components/MainApp.jsx:485-489 | The modal is closed and its type cleared. |
| ExamApp.MathExamApp.FinishExam | src/components/MainApp.jsx:491-495 | Only the confirmation modal opens. The page is unchanged. |
| ExamApp.MathExamApp.ConfirmFinish | src/components/MainApp.jsx:497-516 | The running time is charged to the current question, no anchor is left, the completion page opens, and the modal closes. |
| Scenarios.OnQuestion | src/components/MainApp.jsx:332-409 | After login, the exam starting at 1000 and a switch to question `q` at time `t`, question 1 holds `t - 1000` ms and `q` holds none yet. |
| Scenarios.LoginScenario | src/components/MainApp.jsx:332-348 | A wrong code is refused with the mismatch message. The right code stores the session and the user, clears the message and opens the welcome page. |
| Scenarios.MissedOnce | src/components/MainApp.jsx:443-454 | A first wrong option leaves the score 0 and no record, sets the counter to 1 and shows the retry modal. |
| Scenarios.SecondAttemptScores | src/components/MainApp.jsx:426-454 | A miss and then the right option scores 10. The record is `{2, true, 2}`, the counter stays 1, and the question is locked. |
| Scenarios.TwoMissesLock | src/components/MainApp.jsx:443-468 | Two misses give the record `{1, false, 2}` and a counter of 2, score nothing, show the failed modal, and lock the question. |
| Scenarios.TimeIsChargedPerQuestion | src/components/MainApp.jsx:402-442 | Question 1 is active for 12 s. Question 2 is answered right 3 s after the switch. The totals are 12000 and 3000 ms, and the score is 10. |
| Scenarios.FinishingAddsNoTime | src/components/MainApp.jsx:491-516 | Finishing after the last timer stopped opens the completion page with the modal closed. It leaves the totals at 12000 and 3000 ms and the score at 10. |

## Left out

- Remote I/O through the Supabase client:
  - `getAllUsers`, `getAllQuestions`, `createUserSession` and `updateUserSession` are foreign calls.
  - The tables become constructor arguments, and the session outcome becomes a parameter.
  - `src/services/supabase.js` is not part of this model.
- The payloads sent to `updateUserSession` after an answer and on finishing. These are fire-and-forget async calls built from the state captured by the handler. The answer payload carries a record even on the retry path, where local state writes none. No local property depends on them.
- The 30-second auto-save interval and the unmount clean-up effect. These are timers and React lifecycle.
- Asset preloading, audio, styles, JSX rendering and `modalContent` texts. These are presentation. The rendering facts kept are `canAnswer`, the remaining-attempts notice and the button colour.
- `selectedName` and `inputCode` are form state. They are the parameters of `HandleLogin` instead.
- `hoveredOption` only colours the hovered option button. It is dropped as presentation.
- Console logging.
- Question text and attachment are not used by any rule. `Question` keeps `id`, `options` and `correctAnswer`.
- React's deferred state updates:
  - Each handler applies its setter updates at once, in source order.
  - The model stores the anchor read at the time of the stop as each interval's `startTime`. The `setTimeTracking` updater in `stopQuestionTimer` reads `startTimeRef.current` only when React runs it, so the source stores one of three values:
    - **Eager update:** when React computes the update at once, the updater reads the right anchor, as in the model.
    - **Question switch:** when the update is deferred, `startQuestionTimer` has already set the ref to the target's start time (`src/components/MainApp.jsx:369`). The stored `startTime` is that time, at or after the interval's own `endTime`, and almost always equal to it, since `Date.now()` counts whole milliseconds.
    - **Answer and finish paths:** when the update is deferred, it runs after the ref was cleared (`src/components/MainApp.jsx:398`), so the stored `startTime` is `null`.
  - The `duration` and the `totalTime` increase are computed eagerly, so they are the same on every path. The part of `Timing.Accounted` that says each duration equals end minus start holds for the model's intervals. It need not hold for the intervals the source stores.
  - Stale closures across re-renders are not modelled.
- ExamApp.MathExamApp.SwitchQuestion: one `now` serves both the stop and the start. The source reads the clock twice, at most a few milliseconds apart and usually in the same millisecond.
- ExamApp.MathExamApp.HandleAnswerSelect: requires that the current question exists in `questions`. The source would throw on a missing question, and the option buttons are rendered only for a present one.
- ExamApp.MathExamApp.StartExam: requires `now > 0`, as `Date.now()` always is, so that the anchor is truthy. The same holds for `SwitchQuestion`.
