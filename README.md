# Zero Zone sign-language trainer, verified model

This project is a Dafny model of the logic of the Zero Zone sign-language learning app. It has a
quiz store and an achievement store that feed each other, a sign catalog, an onboarding flow, and a
handful of screens whose guards carry real rules.

- **Quiz session** (`Lessons`). The store builds one multiple-choice question per catalog sign. It
  runs a lesson through start, answer, advance and completion. It keeps `points`, `streaks` and a
  duplicate-free `completedLessons` list. Every `nextQuiz` reports its achievement events: a correct
  answer, or a first-time lesson completion. When an achievement store is attached, those events
  are applied to it. That is the `window.achievementStore` link, made explicit.
- **Achievements and XP** (`Achievements`). Per-type counters feed threshold unlocks, in definition
  order and at most once each. Each unlock pays its reward once. The XP ledger keeps a total, a
  7-day weekly window and a level.
- **Catalog** (`Catalog`, `CatalogFacts`). Four categories of eight signs, with lookup by category,
  lookup by id, search and the paged fetch. The data invariants are proved: sign ids are unique
  across the catalog, and ids and words are unique within each category.
- **Onboarding** (`Onboarding`, `EmailInput`, `NameInput`). The step counter, the form fields, the
  local sign-out and completion flags, and the guards of the email and name steps.
- **Dashboard** (`Dashboard`). Lesson unlocking, the section-complete test, the tab guard and which
  lesson card is shown.
- **Sign-in / sign-up form** (`Auth`). The field validator, the input handler, the mode toggle and
  the submit guard.
- **Achievement pop-up** (`Notifications`). A first-in-first-out queue between the store's pending
  unlocks and the one notification on screen.
- **Shared helpers.** `Text` holds the JavaScript string semantics the app relies on: the `\s`
  class, `trim`, `toLowerCase`, `includes`, and the email pattern `^[^\s@]+@[^\s@]+\.[^\s@]+$`,
  with a decision procedure. `Wrappers` holds `Option` and `Result`.

**Form of the model.**
- State that the app mutates is a `class` with the source's fields:
  - `LessonStore`, `AchievementStore` and `OnboardingStore` for the stores;
  - `AuthFlow`, `LessonDashboard`, `AchievementNotification`, `EmailStep` and `NameStep` for
    component state.
- Each store method is proved against a pure transition function on a state value
  (`ensures State() == F(old(State()), ...)`). What the source promises is proved about those
  functions as lemmas and preserved invariants.
- `checkAchievements` keeps its loop over the definitions. The loop calls `addXP` once per unlock.
  Its `filter` and `forEach` are fused into one pass in definition order; `Consider` is one step
  of that pass, with both tests.
- `getSignById` keeps its early-return loop, and `searchSigns` keeps its push loop.

**Injected inputs.**
- Randomness is an oracle. `Shuffler` supplies the distractor order and the option order for each
  question, and is required only to return a permutation. The question lemmas hold for every such
  oracle.
- Time is a day number passed as `today`. `lastXPDate` is a day number, or `None` for `null`.

**Source behaviour reproduced as written:**
- The daily-streak counter sums the streak values it is given (`DailyStreakSums`).
- A wrong answer never resets `streaks.current`. So from a fresh state the streak, its best and the
  points stay equal (`Lockstep`).
- The feedback button labelled "Retry" still calls `nextQuiz`, so it advances. The model has only
  the one advance operation.
- `nextQuiz` with no lesson active takes the completion branch and appends `null` to
  `completedLessons` (`AdvanceWithoutLesson`). So the dashboard's length test can count `null`
  entries (`NullEntriesCompleteSection`).
- Once a lesson has finished, `currentLessonType` is `"complete"`, which names no lesson. Another
  `nextQuiz` then takes the completion branch again: it appends `"complete"` to `completedLessons`
  and calls `onLessonCompleted` (`AdvanceAfterCompletion`). The dashboard's length test counts that
  entry as well.
- `setStep` is unbounded. `nextStep` can reach step 5, which has no screen
  (`ForwardReachesScreenlessStep`).
- The email step's `isValid` starts out `true`. A prefilled invalid email leaves Continue enabled
  while `handleNext` does nothing (`PrefilledInvalidEmailEnabled`). Once the field has been edited,
  the button is disabled exactly when `handleNext` would do nothing.
- `handleInputChange` blanks the edited field's error but keeps its key.
- An unknown achievement id in the pop-up queue becomes `undefined` (`None`) and is skipped.

## Model

| member | source | states |
|---|---|---|
| Lessons.QuestionFacts | src/store/lessonStore.js:45-66 | for any permuting oracle, question `index` has id `index+1`, word and `correctAnswer` equal to its sign's word, the correct answer among 1 to 4 options, and every other option the word of a sign with a different id |
| Lessons.DistinctLessonQuestion | src/store/lessonStore.js:47-54 | with at least 4 signs whose ids and words are unique, a question has exactly 4 options, no two alike, and the correct answer occurs exactly once |
| Lessons.DistractorWordsDistinct | src/store/lessonStore.js:46-50 | in a lesson whose words are unique, the wrong answers (filtered, shuffled, first three) are pairwise distinct |
| Lessons.OtherSignsFewer | src/store/lessonStore.js:47 | the filter keeps each sign no more often than the lesson holds it |
| Lessons.CatalogLessonQuestion | src/store/lessonStore.js:45-66 | for every catalog category, question `i` has id `i+1`, four pairwise distinct options, the sign's word exactly once, and other options drawn from other signs of the same category |
| Lessons.DistractorFacts | src/store/lessonStore.js:47-51 | the distractors are at most 3 signs, all from the same category and with an id different from the asked sign |
| Lessons.OptionsFacts | src/store/lessonStore.js:53-54 | a shuffle of the correct word and the wrong answers contains the word, has one more entry than the wrong answers, and adds nothing else |
| Lessons.OtherSignsFacts | src/store/lessonStore.js:47-48 | the id filter keeps exactly the signs with another id, dropping one sign per occurrence of the id |
| Lessons.TakeThree | src/store/lessonStore.js:50 | `slice(0, 3)` is the first min(3, n) entries |
| Lessons.QuizzesFor | src/store/lessonStore.js:45 | one question per sign, in catalog order |
| Lessons.LessonQuestion | src/store/lessonStore.js:45-66 | in a lesson of at least 4 signs with unique ids and words, question `i` has id `i+1`, four pairwise distinct options, its sign's word exactly once and the other options from other signs |
| Lessons.GeneratedLessons | src/store/lessonStore.js:30-71 | the generated quiz map has exactly the lessons common, advanced, sonic and names, holding the questions of the common, advanced, iconic and names signs respectively, in catalog order |
| Lessons.Initialize | src/store/lessonStore.js:79-85 | the quizzes are generated only when none exist; otherwise the session is unchanged |
| Lessons.InitializeIdempotent | src/store/lessonStore.js:79-85 | initializing twice, with any oracles, equals initializing once |
| Lessons.StartQuizFacts | src/store/lessonStore.js:90-99 | `startQuiz(t)` sets the lesson to `t` and the index to 0, makes the current question the first of `t` or none, clears the selection and feedback, and changes nothing else |
| Lessons.SelectAnswerFacts | src/store/lessonStore.js:101-109 | `isCorrect` holds iff the answer equals the current question's correct answer; feedback is shown and the answer recorded; points, streaks, completions and the current question are unchanged |
| Lessons.AnswerOnce | src/components/QuizScreen.jsx:24-28 | while feedback shows, a second answer is ignored; before feedback, an answer is `selectAnswer` |
| Lessons.AdvanceScores | src/store/lessonStore.js:116-131 | after a correct answer, points and the streak each rise by 1 and best becomes max(best, streak); after a wrong one both are unchanged; a correct-answer event is emitted iff the answer was correct |
| Lessons.AdvanceMoves | src/store/lessonStore.js:139-173 | before the last question the index rises by 1 and selection, feedback and correctness clear; on the last one the question becomes none, the lesson becomes "complete", and the lesson is appended to the completions only if absent |
| Lessons.AdvanceWithoutLesson | src/store/lessonStore.js:113-157 | with no lesson active, `nextQuiz` completes and appends `null` |
| Lessons.AdvanceAfterCompletion | src/store/lessonStore.js:111-163 | after a finished lesson, a further `nextQuiz` appends `"complete"` to the completed lessons and reports a lesson completion |
| Lessons.AdvanceFeedsAchievements | src/store/lessonStore.js:128-162 | the attached achievement store gains one correct answer per correct `nextQuiz` and one lesson completion per new completion |
| Lessons.ApplyEventsAppend | src/store/lessonStore.js:129-131 | applying two event batches in turn equals applying their concatenation |
| Lessons.InitialValid | src/store/lessonStore.js:10-27 | the initial session satisfies the session invariant and lockstep |
| Lessons.InitializeKeeps | src/store/lessonStore.js:79-85 | generating the quizzes keeps the session invariant and the lockstep |
| Lessons.OperationsKeepValid | src/store/lessonStore.js:90-208 | start, select, the guarded answer, `nextQuiz`, `resetLesson`, `returnToDashboard` and `reset` each preserve the invariant: 0 <= streak <= best, points >= 0, no duplicate completions, feedback implies a selection, and a current question is the indexed question of the current lesson |
| Lessons.OperationsKeepLockstep | src/store/lessonStore.js:116-126 | since a wrong answer never resets the streak, start, select, the guarded answer, `nextQuiz` and the three resets each keep streak == best == points |
| Lessons.LeavingFacts | src/store/lessonStore.js:186-208 | `returnToDashboard` clears the session fields and keeps points, streaks and completions; `reset` zeroes points, streaks and completions |
| Lessons.PlayToEnd | src/store/lessonStore.js:111-175 | answering every remaining question of a lesson ends it "complete", with the lesson recorded and points raised by the number of correct answers |
| Lessons.LessonStore.constructor | src/store/lessonStore.js:10-27 | a fresh store: no lesson, index 0, no quizzes, no completions, zero points and streaks |
| Lessons.LessonStore.InitializeQuizzes | src/store/lessonStore.js:79-85 | the store follows `Initialize` |
| Lessons.LessonStore.StartQuiz | src/store/lessonStore.js:90-99 | the store follows `Start` |
| Lessons.LessonStore.SelectAnswer | src/store/lessonStore.js:101-109 | the store follows `Select` |
| Lessons.LessonStore.HandleAnswerSelect | src/components/QuizScreen.jsx:24-28 | the guarded answer handler follows `AnswerSelect` |
| Lessons.LessonStore.NextQuiz | src/store/lessonStore.js:111-175 | the store follows `Advance`, and an attached achievement store receives exactly its events |
| Lessons.LessonStore.ScoreAnswer | src/store/lessonStore.js:116-137 | the scoring half of `nextQuiz`, with the correct-answer call |
| Lessons.LessonStore.MoveOn | src/store/lessonStore.js:139-174 | the moving half of `nextQuiz`, with the lesson-completed call |
| Lessons.LessonStore.ResetLesson | src/store/lessonStore.js:177-184 | the store follows `ClearLesson` |
| Lessons.LessonStore.ReturnToDashboard | src/store/lessonStore.js:186-191 | the store follows `ToDashboard` |
| Lessons.LessonStore.Reset | src/store/lessonStore.js:194-208 | the store follows `ResetAll` |
| Achievements.Level | src/store/achievementStore.js:106 | the level is the number of whole hundreds of total XP, plus one |
| Achievements.AddXP | src/store/achievementStore.js:95-113 | total rises by exactly the amount; level follows the total; weekly XP restarts at the amount after 7 or more days, otherwise it accumulates, and a null last date counts as 0 days |
| Achievements.ReplayFromFresh | src/store/achievementStore.js:95-113 | from a fresh ledger, any history of XP grants gives the summed total, the matching level, and weekly XP equal to the sum since the last 7-day reset |
| Achievements.Bump | src/store/achievementStore.js:124-138 | `updateAchievementProgress` adds the value to that counter (a missing counter counts as 0) and leaves every other counter as it was; total XP never drops |
| Achievements.BumpKeepsValid | src/store/achievementStore.js:124-138 | the counter update and the unlock check that follows keep the store invariant |
| Achievements.UnlockableMembers | src/store/achievementStore.js:141-158 | the unlockable definitions are exactly those of the type, not yet unlocked, with target <= value |
| Achievements.CheckUnlocksExactly | src/store/achievementStore.js:141-165 | after `checkAchievements`, an id is unlocked iff it was already unlocked or is a not-yet-unlocked definition of the type with target <= value |
| Achievements.CheckOnlyGrows | src/store/achievementStore.js:160-165 | the old unlocked list is a prefix of the new one, new ids are appended to `newAchievements` as well, and counters are unchanged |
| Achievements.CheckPaysOnce | src/store/achievementStore.js:150-156 | total XP rises by exactly the rewards of the newly appended ids |
| Achievements.BumpEffects | src/store/achievementStore.js:124-158 | `updateAchievementProgress` only appends to the unlock list, pays exactly the rewards of the appended ids, and unlocks an id iff it was unlocked or the raised counter reaches its target |
| Achievements.CheckIdempotent | src/store/achievementStore.js:143-146 | checking again with the same value unlocks nothing and pays nothing |
| Achievements.UnlockableInOrder | src/store/achievementStore.js:148-158 | new unlocks follow definition order |
| Achievements.UnlockableIdsFresh | src/store/achievementStore.js:143-146 | new unlocks are distinct definition ids not already unlocked |
| Achievements.CheckKeepsValid | src/store/achievementStore.js:141-165 | the store invariant is preserved: level follows total, no duplicate unlocks, unlocks are definition ids, pending ids are a suffix of the unlocks |
| Achievements.GrantAll | src/store/achievementStore.js:150-156 | one `addXP` per unlock adds the reward sum and leaves the level following the total |
| Achievements.RewardSumOfIds | src/store/achievementStore.js:155 | the reward paid for a list of definitions is the reward of their ids |
| Achievements.FreshValid | src/store/achievementStore.js:9-20 | the initial store satisfies the invariant |
| Achievements.Earn | src/store/achievementStore.js:95-113 | `addXP` on the store changes only the ledger, raising total by the amount |
| Achievements.EarnKeepsValid | src/store/achievementStore.js:95-113 | `addXP` keeps the store invariant |
| Achievements.CheckSpecial | src/store/achievementStore.js:175-183 | with fewer than 4 completed lessons nothing changes; with 4 or more the all-lessons counter rises by 1; the other counters are unchanged |
| Achievements.CheckSpecialEffects | src/store/achievementStore.js:175-183 | the unlock list only grows; total XP rises by exactly the rewards of the appended ids; an id is unlocked iff it was, or 4 or more lessons are complete and the raised all-lessons counter reaches its target |
| Achievements.LessonCompleted | src/store/achievementStore.js:185-196 | lessons-completed rises by 1, all-lessons-completed by 1 only when at least 4 lessons are complete, other counters unchanged, at least 25 XP gained (exact amount and unlocks in `LessonCompletedEffects`) |
| Achievements.LessonCompletedEffects | src/store/achievementStore.js:185-196 | the unlock list only grows; total XP rises by exactly 25 plus the rewards of the appended ids; an id is unlocked iff it was, or the raised lesson counter reaches its target, or 4 or more lessons are complete and the raised all-lessons counter reaches its target |
| Achievements.CorrectAnswer | src/store/achievementStore.js:199-202 | correct-answers rises by 1, the other counters are unchanged, at least 10 XP gained (exact amount and unlocks in `CorrectAnswerEffects`) |
| Achievements.CorrectAnswerEffects | src/store/achievementStore.js:199-202 | the unlock list only grows; total XP rises by exactly 10 plus the rewards of the appended ids; an id is unlocked iff it was or the raised correct-answer counter reaches its target |
| Achievements.DailyStreakUpdate | src/store/achievementStore.js:205-212 | daily-streak rises by k, the other counters are unchanged, and at least 5k XP is gained when k > 1 (exact amount and unlocks in `DailyStreakEffects`) |
| Achievements.DailyStreakEffects | src/store/achievementStore.js:205-212 | the unlock list only grows; total XP rises by exactly 5k when k > 1, by 0 otherwise, plus the rewards of the appended ids; an id is unlocked iff it was or the raised streak counter reaches its target |
| Achievements.LessonCompletedKeepsValid | src/store/achievementStore.js:185-196 | `onLessonCompleted` keeps the store invariant |
| Achievements.HandlersKeepValid | src/store/achievementStore.js:175-215 | `onLessonCompleted`, `onCorrectAnswer`, `onDailyStreakUpdate`, `checkSpecialAchievements` and `clearNewAchievements` each keep the store invariant |
| Achievements.DailyStreakSums | src/store/achievementStore.js:206 | after a series of streak updates the daily-streak counter holds their sum, not their maximum |
| Achievements.CheckGainsXP | src/store/achievementStore.js:150-156 | checking never lowers total XP |
| Achievements.GetAchievement | src/store/achievementStore.js:218-221 | a found achievement is the definition with that id; none is found iff no definition has it |
| Achievements.GetAchievementOfDefinition | src/store/achievementStore.js:218-221 | every definition is found under its own id |
| Achievements.SelectByUnlocked | src/store/achievementStore.js:224-237 | the getters keep exactly the definitions whose id is, or is not, unlocked |
| Achievements.GettersPartition | src/store/achievementStore.js:224-237 | unlocked and available achievements partition the definitions |
| Achievements.ClearNew | src/store/achievementStore.js:215 | only the pending list is emptied |
| Achievements.DefinitionIdsUnique | src/store/achievementStore.js:21-92 | the seven definition ids are distinct |
| Achievements.AchievementStore.constructor | src/store/achievementStore.js:9-18 | a fresh store: 0 XP, level 1, no date, nothing unlocked or pending |
| Achievements.AchievementStore.CheckAchievements | src/store/achievementStore.js:141-165 | the loop over the definitions, calling `addXP` per unlock, ends in the state `Check` describes |
| Achievements.AchievementStore.Consider | src/store/achievementStore.js:143-158 | a definition of the type, not yet unlocked, whose target the value reaches is appended to the new ids and pays its reward through `addXP`; any other definition changes nothing |
| Achievements.AchievementStore.AddXP | src/store/achievementStore.js:95-113 | the store follows `Earn` |
| Achievements.AchievementStore.UpdateAchievementProgress | src/store/achievementStore.js:124-138 | the store follows `Bump` |
| Achievements.AchievementStore.CheckSpecialAchievements | src/store/achievementStore.js:175-183 | the store follows `CheckSpecial` |
| Achievements.AchievementStore.OnLessonCompleted | src/store/achievementStore.js:185-196 | the store follows `LessonCompleted` |
| Achievements.AchievementStore.OnCorrectAnswer | src/store/achievementStore.js:199-202 | the store follows `CorrectAnswer` |
| Achievements.AchievementStore.OnDailyStreakUpdate | src/store/achievementStore.js:205-212 | the store follows `DailyStreakUpdate` |
| Achievements.AchievementStore.ClearNewAchievements | src/store/achievementStore.js:215 | the store follows `ClearNew` |
| Achievements.AchievementStore.Reset | src/store/achievementStore.js:247-255 | total 0, level 1, no date and empty lists and counters |
| Catalog.CatalogShape | src/data/signLanguageData.js:4-352 | four categories, keys common, advanced, iconic and names in that order, eight signs each |
| CatalogFacts.SignIdsUnique | src/data/signLanguageData.js:4-352 | no sign id occurs twice in the whole catalog |
| CatalogFacts.CategoryDistinct | src/data/signLanguageData.js:4-352 | within each category the ids and the words are unique, so every sign has 7 distractor candidates |
| Catalog.FindCategory | src/data/signLanguageData.js:356 | a found category has the key; none is found iff no category has it |
| Catalog.LookupEach | src/data/signLanguageData.js:355-357 | every category is found under its own key |
| Catalog.SignsByCategoryFacts | src/data/signLanguageData.js:355-357 | each category's signs come back under its key; an unknown key gives the empty list |
| Catalog.SignById | src/data/signLanguageData.js:368-374 | the loop returns the first sign with the id in category order, or none iff no sign has it |
| Catalog.FirstWithIdAppend | src/data/signLanguageData.js:369-372 | a hit in an earlier category wins over later ones |
| Catalog.FirstHitStands | src/data/signLanguageData.js:371 | the early return in category `c` is the overall first hit |
| Catalog.FilterMatches | src/data/signLanguageData.js:405-409 | the search keeps exactly the signs whose lower-cased word, description or category contains the lower-cased query |
| Catalog.FilterMatchesAppend | src/data/signLanguageData.js:405-409 | the filter distributes over concatenation, so results keep catalog order |
| Catalog.SearchSigns | src/data/signLanguageData.js:396-415 | the push loop and filter give exactly the matching signs, in catalog order |
| Catalog.AllSignsInOrder | src/data/signLanguageData.js:400-403 | the flattened catalog is the four categories' signs in declaration order |
| Catalog.SliceEnd | src/data/signLanguageData.js:391 | `slice(0, limit)` keeps min(limit, n) signs, and counts a negative limit from the end |
| Catalog.FetchSignData | src/data/signLanguageData.js:378-394 | an unknown category fails with "Category '<key>' not found"; otherwise the category comes back with a prefix of its signs, 10 by default |
| Catalog.Flatten | src/data/signLanguageData.js:400-403 | every sign of every category is in the flattened list and nothing else is |
| Onboarding.NextStep | src/store/onboardingStore.js:29-35 | the step rises by 1 only below 5 |
| Onboarding.PrevStep | src/store/onboardingStore.js:37-42 | the step falls by 1 only above 0 |
| Onboarding.WalkStaysInRange | src/store/onboardingStore.js:29-42 | any sequence of next and previous moves from a step in 0..5 stays in 0..5 |
| Onboarding.ForwardReachesScreenlessStep | src/store/onboardingStore.js:31 | five forward moves reach step 5, one past the last of the five screens |
| Onboarding.Update | src/store/onboardingStore.js:47-54 | `updateFormData` changes that field and no other |
| Onboarding.UpdateLaws | src/store/onboardingStore.js:47-54 | the last write to a field wins, and writes to different fields commute |
| Onboarding.OnboardingStore.constructor | src/store/onboardingStore.js:10-26 | step 0, not completed, empty form, no account |
| Onboarding.OnboardingStore.SetStep | src/store/onboardingStore.js:44 | any step is assigned, with no bounds check |
| Onboarding.OnboardingStore.NextStepAction | src/store/onboardingStore.js:29-35 | the store follows `NextStep` |
| Onboarding.OnboardingStore.PrevStepAction | src/store/onboardingStore.js:37-42 | the store follows `PrevStep` |
| Onboarding.OnboardingStore.UpdateFormData | src/store/onboardingStore.js:47-54 | the store follows `Update` |
| Onboarding.OnboardingStore.ResetFormData | src/store/onboardingStore.js:56-65 | all four fields become empty, nothing else changes |
| Onboarding.OnboardingStore.SignOut | src/store/onboardingStore.js:125-131 | no user, not authenticated, step 0; form and completion flag kept |
| Onboarding.OnboardingStore.CompleteOnboarding | src/store/onboardingStore.js:224-257 | the completion flag is set and the result is true |
| Dashboard.UnlockChain | src/components/LessonDashboard.jsx:23-56 | lesson 1 is always unlocked; lessons 2, 3 and 4 are unlocked iff common, advanced and sonic respectively are completed |
| Dashboard.AllLessonsCompleteSection | src/components/LessonDashboard.jsx:59 | completing all four lessons completes the section |
| Dashboard.NullEntriesCompleteSection | src/components/LessonDashboard.jsx:59 | four null entries also complete it |
| Dashboard.TabAfter | src/components/LessonDashboard.jsx:65-70 | lip-reading is refused until the section is complete; any other tab is taken |
| Dashboard.ShownIff | src/components/LessonDashboard.jsx:156-162 | a card is shown iff the lesson is unlocked and not completed, or locked with number <= completions + 1 |
| Dashboard.VisibleMembers | src/components/LessonDashboard.jsx:155-162 | the rendered cards are exactly the shown lessons |
| Dashboard.InOrderShowsNext | src/components/LessonDashboard.jsx:155-162 | after completing the first k lessons in order, exactly one card is shown, lesson k+1 (none after all four) |
| Dashboard.BadgeOf | src/components/LessonDashboard.jsx:256-262 | a completed lesson shows a check mark, any other its number |
| Dashboard.LessonDashboard.constructor | src/components/LessonDashboard.jsx:10 | the sign-language tab is active |
| Dashboard.LessonDashboard.HandleTabChange | src/components/LessonDashboard.jsx:65-70 | the tab follows `TabAfter` |
| Auth.ValidateForm | src/components/AuthFlow.jsx:17-49 | each field records exactly its `FieldError`, and the result is true iff no error is recorded iff the form is valid |
| Auth.EmailError | src/components/AuthFlow.jsx:21-26 | "Email is required" when empty, else "Please enter a valid email address" when the pattern fails, else no error |
| Auth.PasswordError | src/components/AuthFlow.jsx:29-33 | "Password is required" when empty, else "Password must be at least 6 characters" when shorter, else no error |
| Auth.ConfirmError | src/components/AuthFlow.jsx:40-44 | "Please confirm your password" when empty, else "Passwords do not match" when different, else no error |
| Auth.FormValidIff | src/components/AuthFlow.jsx:17-49 | the form is valid iff no field records an error |
| Auth.SignInChecksTwoFields | src/components/AuthFlow.jsx:36 | in signin mode name and confirmation are not checked |
| Auth.ClearFieldError | src/components/AuthFlow.jsx:54-56 | the edited field's error is blanked, other fields' errors unchanged |
| Auth.Set | src/components/AuthFlow.jsx:52 | the input handler writes that field only |
| Auth.Toggle | src/components/AuthFlow.jsx:79 | the mode flips |
| Auth.ToggledForm | src/components/AuthFlow.jsx:81-86 | the email is kept, the other fields blanked |
| Auth.ToggleTwice | src/components/AuthFlow.jsx:78-87 | toggling twice restores the mode |
| Auth.SubmitCall | src/components/AuthFlow.jsx:62-71 | no call unless valid; then `signUp(email, password)` in signup mode, `signIn(email, password)` otherwise |
| Auth.SubmitSendsCheckedCredentials | src/components/AuthFlow.jsx:17-71 | a call made after validation carries the form's email and password, the email matches the pattern and the password has the minimum length; a sign-up also has a name and a matching confirmation |
| Auth.ModeOf | src/components/AuthFlow.jsx:7 | only the string "signup" selects signup mode |
| Auth.AuthFlow.constructor | src/components/AuthFlow.jsx:6-14 | the mode from `initialMode`, an empty form and no errors |
| Auth.AuthFlow.HandleInputChange | src/components/AuthFlow.jsx:51-57 | the form follows `Set`, the errors follow `ClearFieldError` |
| Auth.AuthFlow.ToggleMode | src/components/AuthFlow.jsx:78-87 | mode flipped, errors emptied, only the email kept |
| Auth.AuthFlow.HandleSubmit | src/components/AuthFlow.jsx:59-72 | the errors are recorded, and a call is made iff the form is valid |
| Notifications.Drain | src/components/AchievementNotification.jsx:10-17 | while nothing shows, pending ids are appended to the queue in order and the store list cleared; otherwise nothing changes |
| Notifications.ShowNext | src/components/AchievementNotification.jsx:19-24 | while nothing shows, the head goes on screen and the queue loses exactly that head |
| Notifications.Dismiss | src/components/AchievementNotification.jsx:33-35 | the notification closes and the queue is untouched |
| Notifications.StepKeepsOrder | src/components/AchievementNotification.jsx:10-35 | no event loses or reorders a notification |
| Notifications.FifoOrder | src/components/AchievementNotification.jsx:14-24 | shown, queued and pending notifications together are the initial ones followed by every unlock, in order |
| Notifications.FromIdle | src/components/AchievementNotification.jsx:14-24 | from an idle pop-up, notifications appear in unlock order |
| Notifications.LookupAllAt | src/components/AchievementNotification.jsx:13 | entry `i` of the mapped list is `getAchievement` of id `i` |
| Notifications.LookupAllKnown | src/components/AchievementNotification.jsx:13 | ids of definitions all resolve to their own definitions |
| Notifications.AchievementNotification.constructor | src/components/AchievementNotification.jsx:7-8 | nothing on screen, an empty queue |
| Notifications.AchievementNotification.DrainPending | src/components/AchievementNotification.jsx:10-17 | the component and the store follow `Drain`, and the store is cleared through `clearNewAchievements` |
| Notifications.AchievementNotification.ShowNextNotification | src/components/AchievementNotification.jsx:19-24 | the component follows `ShowNext` |
| Notifications.AchievementNotification.HandleDismiss | src/components/AchievementNotification.jsx:27-35 | the dismiss button and the auto-hide clear the notification and keep the queue |
| EmailInput.InitialEmail | src/components/EmailInput.jsx:8 | the stored email, else the account's email, else empty |
| EmailInput.ValidateEmail | src/components/EmailInput.jsx:11-14 | true iff the string matches `^[^\s@]+@[^\s@]+\.[^\s@]+$` |
| EmailInput.ValidityAfterChange | src/components/EmailInput.jsx:20 | after a change, `isValid` is valid-or-empty |
| EmailInput.NextFires | src/components/EmailInput.jsx:23-27 | `onNext` is called iff the email is non-empty and valid |
| EmailInput.DisabledAfterChangeIff | src/components/EmailInput.jsx:120 | after a change, Continue is disabled iff the email is empty or invalid |
| EmailInput.PrefilledInvalidEmailEnabled | src/components/EmailInput.jsx:9 | before any change, an invalid email leaves Continue enabled with no effect |
| EmailInput.EmailStep.constructor | src/components/EmailInput.jsx:8-9 | the field starts at `InitialEmail` and `isValid` starts true |
| EmailInput.EmailStep.HandleEmailChange | src/components/EmailInput.jsx:16-21 | local and stored email equal the typed value, and `isValid` is valid-or-empty |
| EmailInput.EmailStep.HandleNext | src/components/EmailInput.jsx:23-27 | fires iff the email is non-empty and matches the pattern |
| NameInput.NextFires | src/components/NameInput.jsx:12-16 | `onNext` is called iff the name has a non-whitespace character |
| NameInput.DisabledIff | src/components/NameInput.jsx:53 | Next is disabled iff the trimmed name is empty iff `handleNext` would do nothing |
| NameInput.NameStep.constructor | src/components/NameInput.jsx:4 | the initial name is the stored name |
| NameInput.NameStep.HandleNameChange | src/components/NameInput.jsx:6-10 | local and stored name both equal the typed value |
| NameInput.NameStep.HandleNext | src/components/NameInput.jsx:12-16 | fires iff the name has a non-whitespace character |
| Text.ValidEmail | src/components/AuthFlow.jsx:21 | the decision procedure agrees with the pattern read as token, `@`, token, `.`, token |
| Text.TrimmedNonEmptyIff | src/components/NameInput.jsx:13 | a string trims to empty iff it is all whitespace |
| Text.Contains | src/data/signLanguageData.js:406 | `includes` holds iff the query occurs at some position |
| Text.Lower | src/data/signLanguageData.js:406 | `toLowerCase` maps each character |

## Left out

- Remote persistence is not modelled: `saveToFirebase`, `loadFromFirebase`, `clearFirebaseData`, `saveOnboardingData` and `loadUserData`. They are remote I/O. The save inside `completeOnboarding` is left out for the same reason, and its local result is modelled.
- Firebase sign-up and sign-in (`signUp`, `signIn`) and the auth-state wiring are foreign asynchronous calls. The form's submit guard returns the call it would make. The copy of name and email into the onboarding form after a sign-up, and `onAuthSuccess`, run only after that remote call and are left out with it.
- `setLoading`, `setError`, `clearError`, `setUser` and `setAuthenticated` are left out: plain setters that only serve the remote calls.
- The `persist`/`partialize` local-storage middleware and `quizProgress` (never read) are left out.
- `setCurrentLessonType` is left out: a plain setter that no modelled flow calls.
- `getRandomSignsFromCategory` is left out: random, and it reorders the catalog in place.
- `getAchievementProgress` is left out because it is a floating-point percentage.
- Timers are left out. The 4-second auto-hide is the `Close` event, which dismisses whatever is on screen; its timing is not modelled. The delayed saves are I/O.
- `window.achievementStore` is an explicit nullable parameter of `NextQuiz` instead of a global.
- Rendering and the presentational screens are left out. Of `QuizScreen.jsx`, only the answer guard is modelled.
- `Text.Lower`: `toLowerCase` is modelled for ASCII letters only. Full Unicode case mapping is left out.
- `Auth.PasswordError`: string length counts Dafny characters, where JavaScript counts UTF-16 code units. The two differ only outside the Basic Multilingual Plane.
- `Lessons.QuestionFacts`: the random sorts are an arbitrary permutation supplied by the oracle, so the model says nothing about their distribution.
- `Catalog.FetchSignData`: a category is looked up among the catalog's four keys only. A key that names an inherited object property, such as `toString` or `constructor`, finds a function in JavaScript. It passes the not-found test, and `categoryData.signs.slice` then throws a `TypeError`. The model reports such a key as not found.
- The simulated API delays, 500 ms in `fetchSignData` and 300 ms in `searchSigns`, are timers and are not modelled.
- Field names in `updateFormData` and `handleInputChange` are the four known fields. An arbitrary key, which JavaScript would add to the object, is not modelled.
- `Achievements.AddXP`: dates are day numbers. `toDateString` truncation and time-zone effects are not modelled.
