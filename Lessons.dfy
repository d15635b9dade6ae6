/** The quiz session and progress ledger of the lesson store (src/store/lessonStore.js), with the
    quiz screen's answer guard (src/components/QuizScreen.jsx). */
module Lessons {
  import opened Wrappers
  import opened Catalog
  import opened CatalogFacts
  import Achievements

  /** A generated question; the prompt text, image, instructions and explanation are presentation. */
  datatype Question = Question(id: nat, word: string, description: string, options: seq<string>, correctAnswer: string)

  // ---------------------------------------------------------------- question generation

  /** Which random sort is drawn: the distractor order or the option order of one question. */
  datatype Draw = Distractors(lesson: string, index: nat) | OptionOrder(lesson: string, index: nat)

  /** The outcomes of the `sort(() => 0.5 - Math.random())` calls, supplied from outside. */
  datatype Shuffler = Shuffler(signs: (Draw, seq<Sign>) -> seq<Sign>, words: (Draw, seq<string>) -> seq<string>)

  /** Whatever the random comparator does, a sort only reorders its array. */
  ghost predicate Permutes(sh: Shuffler) {
    && (forall d, s :: multiset(sh.signs(d, s)) == multiset(s))
    && (forall d, w :: multiset(sh.words(d, w)) == multiset(w))
  }

  /** One option-order draw of a permuting oracle. */
  lemma WordsPermuted(sh: Shuffler, dr: Draw, w: seq<string>)
    requires Permutes(sh)
    ensures multiset(sh.words(dr, w)) == multiset(w)
  {
  }

  /** One distractor-order draw of a permuting oracle. */
  lemma SignsPermuted(sh: Shuffler, dr: Draw, s: seq<Sign>)
    requires Permutes(sh)
    ensures multiset(sh.signs(dr, s)) == multiset(s)
  {
  }

  /** `signs.filter(s => s.id !== id)`. */
  function OtherSigns(signs: seq<Sign>, id: string): seq<Sign> {
    if signs == [] then []
    else (if signs[0].id != id then [signs[0]] else []) + OtherSigns(signs[1..], id)
  }

  /** The filter keeps exactly the signs with another id, and drops one sign per occurrence of `id`. */
  lemma OtherSignsFacts(signs: seq<Sign>, id: string)
    ensures forall s :: s in OtherSigns(signs, id) <==> s in signs && s.id != id
    ensures |OtherSigns(signs, id)| + multiset(Ids(signs))[id] == |signs|
  {
    OtherSignsMembers(signs, id);
    OtherSignsCount(signs, id);
  }

  lemma {:induction false} OtherSignsMembers(signs: seq<Sign>, id: string)
    ensures forall s :: s in OtherSigns(signs, id) <==> s in signs && s.id != id
  {
    if signs != [] {
      OtherSignsMembers(signs[1..], id);
      assert OtherSigns(signs, id) == (if signs[0].id != id then [signs[0]] else []) + OtherSigns(signs[1..], id);
      assert forall s | s in signs :: s == signs[0] || s in signs[1..];
    }
  }

  lemma {:induction false} OtherSignsCount(signs: seq<Sign>, id: string)
    ensures |OtherSigns(signs, id)| + multiset(Ids(signs))[id] == |signs|
  {
    if signs != [] {
      OtherSignsCount(signs[1..], id);
      assert OtherSigns(signs, id) == (if signs[0].id != id then [signs[0]] else []) + OtherSigns(signs[1..], id);
      assert Ids(signs) == [signs[0].id] + Ids(signs[1..]);
      assert multiset(Ids(signs)) == multiset{signs[0].id} + multiset(Ids(signs[1..]));
    }
  }

  /** The filter keeps each sign at most as often as the lesson holds it. */
  lemma {:induction false} OtherSignsFewer(signs: seq<Sign>, id: string)
    ensures multiset(OtherSigns(signs, id)) <= multiset(signs)
  {
    if signs != [] {
      OtherSignsFewer(signs[1..], id);
      assert OtherSigns(signs, id) == (if signs[0].id != id then [signs[0]] else []) + OtherSigns(signs[1..], id);
      assert signs == [signs[0]] + signs[1..];
    }
  }

  /** `.slice(0, 3)`. */
  function TakeThree<T>(s: seq<T>): (r: seq<T>)
    ensures |r| == if |s| < 3 then |s| else 3
    ensures r == s[..|r|]
  {
    s[..if |s| < 3 then |s| else 3]
  }

  /** `filter(...).sort(random).slice(0, 3)`: the signs whose words become the wrong answers. */
  function DistractorSigns(lesson: string, signs: seq<Sign>, index: nat, sh: Shuffler): seq<Sign>
    requires index < |signs|
  {
    TakeThree(sh.signs(Distractors(lesson, index), OtherSigns(signs, signs[index].id)))
  }

  /** The question for the `index`-th sign of a lesson. */
  function MakeQuestion(lesson: string, signs: seq<Sign>, index: nat, sh: Shuffler): Question
    requires index < |signs|
  {
    var sign := signs[index];
    var wrongAnswers := Words(DistractorSigns(lesson, signs, index, sh));
    var options := sh.words(OptionOrder(lesson, index), [sign.word] + wrongAnswers);
    Question(index + 1, sign.word, sign.description, options, sign.word)
  }

  /** `categoryData.signs.map(...)`. */
  function QuizzesFor(lesson: string, signs: seq<Sign>, sh: Shuffler): (r: seq<Question>)
    ensures |r| == |signs| && forall i | 0 <= i < |signs| :: r[i] == MakeQuestion(lesson, signs, i, sh)
  {
    seq(|signs|, i requires 0 <= i < |signs| => MakeQuestion(lesson, signs, i, sh))
  }

  /** Lesson type to catalog category; the `sonic` lesson draws from `iconic`. */
  const LessonMapping: seq<(string, string)> := [("common", "common"), ("advanced", "advanced"), ("sonic", "iconic"), ("names", "names")]

  function Generate(mapping: seq<(string, string)>, sh: Shuffler): map<string, seq<Question>> {
    if mapping == [] then map[]
    else
      var quizzes := Generate(mapping[..|mapping| - 1], sh);
      var (lessonType, signCategory) := mapping[|mapping| - 1];
      match LookupCategory(signCategory)
      case None => quizzes
      case Some(categoryData) => quizzes[lessonType := QuizzesFor(lessonType, categoryData.signs, sh)]
  }

  /** `generateQuizzesFromSignData`. */
  function GenerateQuizzes(sh: Shuffler): map<string, seq<Question>> {
    Generate(LessonMapping, sh)
  }

  /** The distractors are up to three signs of the lesson other than the question's own. */
  lemma DistractorFacts(lesson: string, signs: seq<Sign>, index: nat, sh: Shuffler)
    requires Permutes(sh) && index < |signs|
    ensures var d := DistractorSigns(lesson, signs, index, sh);
      var pool := OtherSigns(signs, signs[index].id);
      && |d| == (if |pool| < 3 then |pool| else 3)
      && forall s | s in d :: s in signs && s.id != signs[index].id
  {
    var pool := OtherSigns(signs, signs[index].id);
    OtherSignsFacts(signs, signs[index].id);
    var shuffled := sh.signs(Distractors(lesson, index), pool);
    SignsPermuted(sh, Distractors(lesson, index), pool);
    assert |shuffled| == |multiset(shuffled)| == |multiset(pool)| == |pool|;
    var d := TakeThree(shuffled);
    forall s | s in d ensures s in pool {
      assert s in shuffled;
      assert s in multiset(shuffled);
    }
  }

  /** A reordering of the right word followed by the wrong ones. */
  lemma OptionsFacts<T>(word: T, wrong: seq<T>, options: seq<T>)
    requires multiset(options) == multiset([word] + wrong)
    ensures word in options && |options| == 1 + |wrong|
    ensures forall w | w in options && w != word :: w in wrong
    ensures multiset(options)[word] == 1 + multiset(wrong)[word]
  {
    assert word in multiset(options);
    assert |options| == |multiset(options)| == |[word] + wrong|;
    forall w | w in options && w != word ensures w in wrong {
      assert w in multiset([word] + wrong);
    }
  }

  /** One question: it asks for its sign's word, numbers from 1, lists the word among its options,
      and every other option is the word of a different sign of the same lesson, at most three. */
  lemma QuestionFacts(lesson: string, signs: seq<Sign>, index: nat, sh: Shuffler)
    requires Permutes(sh) && index < |signs|
    ensures var q := MakeQuestion(lesson, signs, index, sh);
      && q.id == index + 1 && q.word == signs[index].word && q.correctAnswer == signs[index].word
      && q.correctAnswer in q.options
      && 1 <= |q.options| <= 4
      && forall w | w in q.options && w != q.correctAnswer ::
           exists s | s in signs :: s.id != signs[index].id && s.word == w
  {
    var d := DistractorSigns(lesson, signs, index, sh);
    var wrongAnswers := Words(d);
    var q := MakeQuestion(lesson, signs, index, sh);
    DistractorFacts(lesson, signs, index, sh);
    assert q.options == sh.words(OptionOrder(lesson, index), [signs[index].word] + wrongAnswers);
    WordsPermuted(sh, OptionOrder(lesson, index), [signs[index].word] + wrongAnswers);
    OptionsFacts(signs[index].word, wrongAnswers, q.options);
    forall w | w in q.options && w != q.correctAnswer
      ensures exists s | s in signs :: s.id != signs[index].id && s.word == w
    {
      var k :| 0 <= k < |wrongAnswers| && wrongAnswers[k] == w;
      assert d[k] in d;
    }
  }

  /** A lesson of at least four signs with distinct ids and words: every question has exactly four
      options, no two alike, and the right word occurs among them exactly once. */
  lemma DistinctLessonQuestion(lesson: string, signs: seq<Sign>, index: nat, sh: Shuffler)
    requires Permutes(sh) && index < |signs| && 4 <= |signs|
    requires NoDuplicates(Ids(signs)) && NoDuplicates(Words(signs))
    ensures var q := MakeQuestion(lesson, signs, index, sh);
      |q.options| == 4 && multiset(q.options)[q.correctAnswer] == 1 && NoDuplicates(q.options)
  {
    var word := signs[index].word;
    var d := DistractorSigns(lesson, signs, index, sh);
    PoolSize(signs, index);
    DistractorFacts(lesson, signs, index, sh);
    DistractorWordsOther(signs, index, d);
    var wrongAnswers := Words(d);
    var q := MakeQuestion(lesson, signs, index, sh);
    var pool := OtherSigns(signs, signs[index].id);
    assert |pool| >= 3;
    assert |wrongAnswers| == |d| == 3;
    assert word !in wrongAnswers;
    assert q.options == sh.words(OptionOrder(lesson, index), [word] + wrongAnswers);
    WordsPermuted(sh, OptionOrder(lesson, index), [word] + wrongAnswers);
    SingleCopy(word, wrongAnswers, q.options);
    DistractorWordsDistinct(lesson, signs, index, sh);
    ConsFreshNoDuplicates(word, wrongAnswers);
    FewerCopiesNoDuplicates([word] + wrongAnswers, q.options);
  }

  /** The three wrong answers differ from each other: the pool holds each sign once, the shuffle and
      the slice keep that, and distinct signs of the lesson carry distinct words. */
  lemma DistractorWordsDistinct(lesson: string, signs: seq<Sign>, index: nat, sh: Shuffler)
    requires Permutes(sh) && index < |signs| && NoDuplicates(Words(signs))
    ensures NoDuplicates(Words(DistractorSigns(lesson, signs, index, sh)))
  {
    var pool := OtherSigns(signs, signs[index].id);
    var shuffled := sh.signs(Distractors(lesson, index), pool);
    var d := DistractorSigns(lesson, signs, index, sh);
    DistinctWordsDistinctSigns(signs);
    OtherSignsFewer(signs, signs[index].id);
    FewerCopiesNoDuplicates(signs, pool);
    SignsPermuted(sh, Distractors(lesson, index), pool);
    FewerCopiesNoDuplicates(pool, shuffled);
    PrefixNoDuplicates(shuffled, |d|);
    DistractorFacts(lesson, signs, index, sh);
    DistinctMembersDistinctWords(signs, d);
  }

  lemma DistinctWordsDistinctSigns(signs: seq<Sign>)
    requires NoDuplicates(Words(signs))
    ensures NoDuplicates(signs)
  {
    forall i, j | 0 <= i < j < |signs| ensures signs[i] != signs[j] {
      assert Words(signs)[i] != Words(signs)[j];
    }
  }

  /** Different signs taken from a lesson whose words are distinct have different words. */
  lemma DistinctMembersDistinctWords(signs: seq<Sign>, d: seq<Sign>)
    requires NoDuplicates(Words(signs)) && NoDuplicates(d) && forall s | s in d :: s in signs
    ensures NoDuplicates(Words(d))
  {
    forall i, j | 0 <= i < j < |d| ensures Words(d)[i] != Words(d)[j] {
      assert d[i] in d && d[j] in d;
      var a :| 0 <= a < |signs| && signs[a] == d[i];
      var b :| 0 <= b < |signs| && signs[b] == d[j];
      if a != b {
        NoDuplicatesAt(Words(signs), a, b);
      }
    }
  }

  /** A reordering of a value followed by three others that differ from it has four entries and
      holds the value once. */
  lemma SingleCopy<T>(word: T, wrong: seq<T>, options: seq<T>)
    requires multiset(options) == multiset([word] + wrong) && |wrong| == 3 && word !in wrong
    ensures |options| == 4 && multiset(options)[word] == 1
  {
    OptionsFacts(word, wrong, options);
    assert multiset(wrong)[word] == 0;
  }

  /** Distractors drawn from signs with another id never carry the asked sign's word. */
  lemma DistractorWordsOther(signs: seq<Sign>, index: nat, d: seq<Sign>)
    requires index < |signs| && NoDuplicates(Ids(signs)) && NoDuplicates(Words(signs))
    requires forall s | s in d :: s in signs && s.id != signs[index].id
    ensures signs[index].word !in Words(d)
  {
    forall k | 0 <= k < |d| ensures Words(d)[k] != signs[index].word {
      assert d[k] in d;
      var j :| 0 <= j < |signs| && signs[j] == d[k];
      assert j != index;
      NoDuplicatesAt(Words(signs), index, j);
    }
  }

  /** With distinct ids, exactly one sign is filtered out. */
  lemma PoolSize(signs: seq<Sign>, index: nat)
    requires index < |signs| && NoDuplicates(Ids(signs))
    ensures |OtherSigns(signs, signs[index].id)| == |signs| - 1
  {
    SingleOccurrence(Ids(signs), index);
    OtherSignsFacts(signs, signs[index].id);
  }

  /** One more mapping entry whose category exists adds that lesson's questions. */
  lemma GenerateStep(mapping: seq<(string, string)>, k: nat, c: Category, sh: Shuffler)
    requires k < |mapping| && LookupCategory(mapping[k].1) == Some(c)
    ensures Generate(mapping[..k + 1], sh) == Generate(mapping[..k], sh)[mapping[k].0 := QuizzesFor(mapping[k].0, c.signs, sh)]
  {
    assert mapping[..k + 1][..k] == mapping[..k];
  }

  /** The generated quizzes: one entry per lesson type, each the questions of its catalog category
      in catalog order; `sonic` is built from `iconic`. */
  lemma GeneratedLessons(sh: Shuffler)
    ensures GenerateQuizzes(sh).Keys == {"common", "advanced", "sonic", "names"}
    ensures GenerateQuizzes(sh) == map[
      "common" := QuizzesFor("common", CommonSigns, sh),
      "advanced" := QuizzesFor("advanced", AdvancedSigns, sh),
      "sonic" := QuizzesFor("sonic", IconicSigns, sh),
      "names" := QuizzesFor("names", NamesSigns, sh)]
  {
    GeneratedThree(sh);
    LookupEach();
    GenerateStep(LessonMapping, 3, Data[3], sh);
    assert LessonMapping[..4] == LessonMapping;
  }

  lemma GeneratedThree(sh: Shuffler)
    ensures Generate(LessonMapping[..3], sh) == map[
      "common" := QuizzesFor("common", CommonSigns, sh),
      "advanced" := QuizzesFor("advanced", AdvancedSigns, sh),
      "sonic" := QuizzesFor("sonic", IconicSigns, sh)]
  {
    GeneratedTwo(sh);
    LookupEach();
    GenerateStep(LessonMapping, 2, Data[2], sh);
  }

  lemma GeneratedTwo(sh: Shuffler)
    ensures Generate(LessonMapping[..2], sh) == map[
      "common" := QuizzesFor("common", CommonSigns, sh),
      "advanced" := QuizzesFor("advanced", AdvancedSigns, sh)]
  {
    LookupEach();
    assert LessonMapping[..0] == [];
    GenerateStep(LessonMapping, 0, Data[0], sh);
    GenerateStep(LessonMapping, 1, Data[1], sh);
  }

  /** The `i`-th question of a lesson built from signs with distinct ids and words. */
  lemma LessonQuestion(lesson: string, signs: seq<Sign>, sh: Shuffler, i: nat)
    requires Permutes(sh) && i < |signs| && 4 <= |signs|
    requires NoDuplicates(Ids(signs)) && NoDuplicates(Words(signs))
    ensures var q := QuizzesFor(lesson, signs, sh)[i];
      && q.id == i + 1 && q.correctAnswer == signs[i].word
      && |q.options| == 4 && multiset(q.options)[q.correctAnswer] == 1 && NoDuplicates(q.options)
      && forall w | w in q.options && w != q.correctAnswer ::
           exists s | s in signs :: s.id != signs[i].id && s.word == w
  {
    QuestionFacts(lesson, signs, i, sh);
    DistinctLessonQuestion(lesson, signs, i, sh);
  }

  /** Every question of a catalog lesson asks for its sign's word and offers four options that
      contain it exactly once; the other three are words of other signs of the same category. */
  lemma CatalogLessonQuestion(lesson: string, c: Category, sh: Shuffler, i: nat)
    requires Permutes(sh) && c in Data && i < |c.signs|
    ensures var q := QuizzesFor(lesson, c.signs, sh)[i];
      && q.id == i + 1 && q.correctAnswer == c.signs[i].word
      && |q.options| == 4 && multiset(q.options)[q.correctAnswer] == 1 && NoDuplicates(q.options)
      && forall w | w in q.options && w != q.correctAnswer ::
           exists s | s in c.signs :: s.id != c.signs[i].id && s.word == w
  {
    CategorySize(c);
    CategoryDistinct(c);
    LessonQuestion(lesson, c.signs, sh, i);
  }

  // ---------------------------------------------------------------- the session

  datatype Streaks = Streaks(current: int, best: int)

  /** The store's fields; `None` is JavaScript's `null`. `completedLessons` holds lesson types as
      `nextQuiz` appends them, which is `null` when no lesson was active. */
  datatype Session = Session(
    currentLessonType: Option<string>,
    currentQuizIndex: nat,
    quizzes: map<string, seq<Question>>,
    completedLessons: seq<Option<string>>,
    streaks: Streaks,
    points: int,
    currentQuiz: Option<Question>,
    selectedAnswer: Option<string>,
    showFeedback: bool,
    isCorrect: bool)

  const Initial := Session(None, 0, map[], [], Streaks(0, 0), 0, None, None, false, false)

  /** The invariant every operation keeps. */
  predicate Valid(s: Session) {
    && 0 <= s.streaks.current <= s.streaks.best
    && 0 <= s.points
    && NoDuplicates(s.completedLessons)
    && (s.showFeedback ==> s.selectedAnswer.Some?)
    && (s.currentQuiz.Some? ==>
          && s.currentLessonType.Some? && s.currentLessonType.value in s.quizzes
          && s.currentQuizIndex < |s.quizzes[s.currentLessonType.value]|
          && s.currentQuiz.value == s.quizzes[s.currentLessonType.value][s.currentQuizIndex])
  }

  /** Since a wrong answer never breaks the streak, the streak, its best and the points move together. */
  predicate Lockstep(s: Session) {
    s.streaks.current == s.streaks.best == s.points
  }

  /** `quizzes[currentLessonType] || []`. */
  function LessonQuizzes(quizzes: map<string, seq<Question>>, lessonType: Option<string>): seq<Question> {
    match lessonType
    case Some(t) => if t in quizzes then quizzes[t] else []
    case None => []
  }

  /** `initializeQuizzes`: generate only when no quizzes exist yet. */
  function Initialize(s: Session, sh: Shuffler): (r: Session)
    ensures |s.quizzes| != 0 ==> r == s
    ensures |s.quizzes| == 0 ==> r == s.(quizzes := GenerateQuizzes(sh))
  {
    if |s.quizzes| == 0 then s.(quizzes := GenerateQuizzes(sh)) else s
  }

  /** `startQuiz(lessonType)`. */
  function Start(s: Session, lessonType: string): (r: Session) {
    var lessonQuizzes := if lessonType in s.quizzes then s.quizzes[lessonType] else [];
    s.(currentLessonType := Some(lessonType),
       currentQuizIndex := 0,
       currentQuiz := if |lessonQuizzes| > 0 then Some(lessonQuizzes[0]) else None,
       selectedAnswer := None,
       showFeedback := false)
  }

  /** `selectAnswer(answer)`: without a current question nothing is correct. */
  function Select(s: Session, answer: string): (r: Session) {
    s.(selectedAnswer := Some(answer),
       isCorrect := s.currentQuiz.Some? && answer == s.currentQuiz.value.correctAnswer,
       showFeedback := true)
  }

  /** The quiz screen's `handleAnswerSelect`: once feedback shows, the options are disabled. */
  function AnswerSelect(s: Session, answer: string): (r: Session) {
    if !s.showFeedback then Select(s, answer) else s
  }

  /** The calls `nextQuiz` makes on the achievement store, in order. */
  datatype AchEvent = CorrectAnswered | LessonCompleted(completedCount: nat)

  datatype Outcome = Outcome(session: Session, events: seq<AchEvent>)

  /** The scoring half of `nextQuiz`: a correct answer earns a point and a streak step. */
  function Score(s: Session): Outcome {
    if s.isCorrect then
      var newStreak := s.streaks.current + 1;
      Outcome(s.(points := s.points + 1,
                 streaks := Streaks(newStreak, if s.streaks.best >= newStreak then s.streaks.best else newStreak)),
              [CorrectAnswered])
    else Outcome(s, [])
  }

  /** The moving half of `nextQuiz`: the next question, or the end of the lesson. */
  function Move(s: Session): Outcome {
    var lessonQuizzes := LessonQuizzes(s.quizzes, s.currentLessonType);
    var nextIndex := s.currentQuizIndex + 1;
    if nextIndex < |lessonQuizzes| then
      Outcome(s.(currentQuizIndex := nextIndex,
                 currentQuiz := Some(lessonQuizzes[nextIndex]),
                 selectedAnswer := None,
                 showFeedback := false,
                 isCorrect := false),
              [])
    else
      var isNewCompletion := s.currentLessonType !in s.completedLessons;
      var completed := if isNewCompletion then s.completedLessons + [s.currentLessonType] else s.completedLessons;
      Outcome(s.(completedLessons := completed,
                 currentQuiz := None,
                 currentLessonType := Some("complete")),
              if isNewCompletion then [LessonCompleted(|completed|)] else [])
  }

  /** `nextQuiz`: score, then move on. */
  function Advance(s: Session): Outcome {
    var scored := Score(s);
    var moved := Move(scored.session);
    Outcome(moved.session, scored.events + moved.events)
  }

  /** `resetLesson`. */
  function ClearLesson(s: Session): Session {
    s.(currentLessonType := None, currentQuizIndex := 0, currentQuiz := None,
       selectedAnswer := None, showFeedback := false, isCorrect := false)
  }

  /** `returnToDashboard`: it leaves the index and `isCorrect` as they are. */
  function ToDashboard(s: Session): Session {
    s.(currentLessonType := None, currentQuiz := None, selectedAnswer := None, showFeedback := false)
  }

  /** `reset`: all progress is zeroed; the generated quizzes stay. */
  function ResetAll(s: Session): Session {
    Initial.(quizzes := s.quizzes)
  }

  /** The achievement store's reaction to the calls `nextQuiz` makes. */
  function ApplyEvents(a: Achievements.AchState, events: seq<AchEvent>, today: int): Achievements.AchState
    decreases |events|
  {
    if events == [] then a
    else
      var a1 := match events[0]
        case CorrectAnswered => Achievements.CorrectAnswer(a, today)
        case LessonCompleted(n) => Achievements.LessonCompleted(a, n, today);
      ApplyEvents(a1, events[1..], today)
  }

  lemma ApplyNone(a: Achievements.AchState, today: int)
    ensures ApplyEvents(a, [], today) == a
  {
  }

  lemma ApplyOne(a: Achievements.AchState, e: AchEvent, today: int)
    ensures ApplyEvents(a, [e], today) == match e
      case CorrectAnswered => Achievements.CorrectAnswer(a, today)
      case LessonCompleted(n) => Achievements.LessonCompleted(a, n, today)
  {
    assert [e][1..] == [];
  }

  lemma {:induction false} ApplyEventsAppend(a: Achievements.AchState, e1: seq<AchEvent>, e2: seq<AchEvent>, today: int)
    ensures ApplyEvents(a, e1 + e2, today) == ApplyEvents(ApplyEvents(a, e1, today), e2, today)
    decreases |e1|
  {
    if e1 != [] {
      assert (e1 + e2)[0] == e1[0] && (e1 + e2)[1..] == e1[1..] + e2;
      var a1 := match e1[0]
        case CorrectAnswered => Achievements.CorrectAnswer(a, today)
        case LessonCompleted(n) => Achievements.LessonCompleted(a, n, today);
      ApplyEventsAppend(a1, e1[1..], e2, today);
    } else {
      assert e1 + e2 == e2;
    }
  }

  // ---------------------------------------------------------------- session properties

  lemma InitialValid()
    ensures Valid(Initial) && Lockstep(Initial)
  {
  }

  /** Initialising twice is initialising once, whatever the second draw. */
  lemma InitializeIdempotent(s: Session, sh: Shuffler, sh2: Shuffler)
    ensures Initialize(Initialize(s, sh), sh2) == Initialize(s, sh)
  {
    GeneratedLessons(sh);
    assert "common" in GenerateQuizzes(sh);
  }

  /** `startQuiz`: the index is 0, the current question is the lesson's first or `null`, selection
      and feedback are cleared, and nothing else changes (`isCorrect` included). */
  lemma StartQuizFacts(s: Session, t: string)
    ensures var r := Start(s, t);
      && r.currentLessonType == Some(t) && r.currentQuizIndex == 0
      && (r.currentQuiz.Some? <==> t in s.quizzes && |s.quizzes[t]| > 0)
      && (r.currentQuiz.Some? ==> r.currentQuiz.value == s.quizzes[t][0])
      && r.selectedAnswer.None? && !r.showFeedback
      && r == s.(currentLessonType := r.currentLessonType, currentQuizIndex := 0, currentQuiz := r.currentQuiz,
                 selectedAnswer := None, showFeedback := false)
  {
  }

  /** `selectAnswer(a)`: correct iff `a` is the current question's answer; feedback shows; the
      progress ledger is untouched. */
  lemma SelectAnswerFacts(s: Session, a: string)
    ensures var r := Select(s, a);
      && (r.isCorrect <==> exists q | s.currentQuiz == Some(q) :: q.correctAnswer == a)
      && r.showFeedback && r.selectedAnswer == Some(a)
      && r.points == s.points && r.streaks == s.streaks && r.completedLessons == s.completedLessons
      && r.currentQuiz == s.currentQuiz && r.currentQuizIndex == s.currentQuizIndex
  {
    if s.currentQuiz.Some? {
      var q := s.currentQuiz.value;
      assert s.currentQuiz == Some(q);
    }
  }

  /** The answer guard: a second click while feedback shows changes nothing, so an answer is
      recorded once per question. */
  lemma AnswerOnce(s: Session, a: string, b: string)
    ensures AnswerSelect(AnswerSelect(s, a), b) == AnswerSelect(s, a)
    ensures !s.showFeedback ==> AnswerSelect(s, a) == Select(s, a)
  {
  }

  /** Scoring in `nextQuiz`: a correct answer adds exactly one point and one streak step and lifts
      the best streak to at least the current one; a wrong one changes neither. */
  lemma AdvanceScores(s: Session)
    ensures var r := Advance(s).session;
      if s.isCorrect then
        && r.points == s.points + 1
        && r.streaks.current == s.streaks.current + 1
        && r.streaks.best == (if s.streaks.best >= s.streaks.current + 1 then s.streaks.best else s.streaks.current + 1)
      else r.points == s.points && r.streaks == s.streaks
    ensures Advance(s).events[..] != [] && Advance(s).events[0] == CorrectAnswered <==> s.isCorrect
  {
    if s.isCorrect {
      assert Advance(s).events[0] == CorrectAnswered;
    }
  }

  /** Moving on in `nextQuiz`: before the last question the index steps by one and the answer
      state is cleared; after the last one the lesson is over and is recorded once. */
  lemma AdvanceMoves(s: Session)
    ensures var r := Advance(s).session;
      var lessonQuizzes := LessonQuizzes(s.quizzes, s.currentLessonType);
      if s.currentQuizIndex + 1 < |lessonQuizzes| then
        && r.currentQuizIndex == s.currentQuizIndex + 1
        && r.currentQuiz == Some(lessonQuizzes[s.currentQuizIndex + 1])
        && r.selectedAnswer.None? && !r.showFeedback && !r.isCorrect
        && r.currentLessonType == s.currentLessonType && r.completedLessons == s.completedLessons
      else
        && r.currentQuiz.None? && r.currentLessonType == Some("complete")
        && r.currentQuizIndex == s.currentQuizIndex
        && r.selectedAnswer == s.selectedAnswer && r.showFeedback == s.showFeedback && r.isCorrect == s.isCorrect
        && r.completedLessons == (if s.currentLessonType in s.completedLessons then s.completedLessons
                                  else s.completedLessons + [s.currentLessonType])
  {
  }

  /** With no lesson active the quiz list is empty, so `nextQuiz` completes: it records `null` as a
      completed lesson the first time. */
  lemma AdvanceWithoutLesson(s: Session)
    requires s.currentLessonType.None? && None !in s.completedLessons
    ensures Advance(s).session.completedLessons == s.completedLessons + [None]
    ensures Advance(s).session.currentLessonType == Some("complete")
  {
  }

  /** A further `nextQuiz` once a lesson has finished: `"complete"` names no lesson, so the call
      takes the completion branch again and records `"complete"` as a completed lesson. */
  lemma AdvanceAfterCompletion(s: Session)
    requires s.currentLessonType == Some("complete") && "complete" !in s.quizzes
    requires Some("complete") !in s.completedLessons
    ensures Advance(s).session.completedLessons == s.completedLessons + [Some("complete")]
    ensures Advance(s).session.currentLessonType == Some("complete")
    ensures LessonCompleted(|s.completedLessons| + 1) in Advance(s).events
  {
  }

  /** Generating the quizzes keeps the invariant and the lockstep: only an empty quiz map is
      replaced, and then no question is current. */
  lemma InitializeKeeps(s: Session, sh: Shuffler)
    ensures Valid(s) ==> Valid(Initialize(s, sh))
    ensures Lockstep(s) ==> Lockstep(Initialize(s, sh))
  {
  }

  /** Every other operation keeps the invariant. */
  lemma OperationsKeepValid(s: Session, t: string, a: string)
    requires Valid(s)
    ensures Valid(Start(s, t)) && Valid(Select(s, a))
    ensures Valid(AnswerSelect(s, a)) && Valid(Advance(s).session)
    ensures Valid(ClearLesson(s)) && Valid(ToDashboard(s)) && Valid(ResetAll(s))
  {
    var r := Advance(s).session;
    if s.currentLessonType !in s.completedLessons {
      AppendFreshKeepsNoDuplicates(s.completedLessons, s.currentLessonType);
    }
  }

  /** Every other operation keeps streak, best streak and points equal. */
  lemma OperationsKeepLockstep(s: Session, t: string, a: string)
    requires Lockstep(s)
    ensures Lockstep(Start(s, t)) && Lockstep(Select(s, a))
    ensures Lockstep(AnswerSelect(s, a)) && Lockstep(Advance(s).session)
    ensures Lockstep(ClearLesson(s)) && Lockstep(ToDashboard(s)) && Lockstep(ResetAll(s))
  {
  }

  /** `returnToDashboard` keeps the progress ledger; `reset` zeroes it. */
  lemma LeavingFacts(s: Session)
    ensures var r := ToDashboard(s);
      && r.points == s.points && r.streaks == s.streaks && r.completedLessons == s.completedLessons
      && r.currentLessonType.None? && r.currentQuiz.None? && r.selectedAnswer.None? && !r.showFeedback
    ensures var r := ResetAll(s);
      && r.points == 0 && r.streaks == Streaks(0, 0) && r.completedLessons == []
      && r.currentLessonType.None? && r.currentQuiz.None? && r.currentQuizIndex == 0
  {
  }

  /** Answering with the guarded click and then moving on. */
  function Step(s: Session, answer: string): Session {
    Advance(AnswerSelect(s, answer)).session
  }

  function Play(s: Session, answers: seq<string>): Session
    decreases |answers|
  {
    if answers == [] then s else Play(Step(s, answers[0]), answers[1..])
  }

  /** How many answers match their questions. */
  function CountCorrect(answers: seq<string>, questions: seq<Question>): nat
    requires |answers| == |questions|
  {
    if answers == [] then 0
    else (if answers[0] == questions[0].correctAnswer then 1 else 0) + CountCorrect(answers[1..], questions[1..])
  }

  /** Playing a lesson to its end from question `k`, one answer per remaining question: the lesson is
      complete, recorded among the completed lessons, and the points grew by the number of right
      answers. */
  lemma {:induction false} PlayToEnd(s: Session, t: string, answers: seq<string>)
    requires Valid(s) && s.currentLessonType == Some(t) && s.currentQuiz.Some? && !s.showFeedback
    requires |answers| == |s.quizzes[t]| - s.currentQuizIndex
    ensures var r := Play(s, answers);
      && r.currentLessonType == Some("complete") && r.currentQuiz.None?
      && Some(t) in r.completedLessons
      && r.points == s.points + CountCorrect(answers, s.quizzes[t][s.currentQuizIndex..])
    decreases |answers|
  {
    var qs := s.quizzes[t];
    var k := s.currentQuizIndex;
    var s1 := AnswerSelect(s, answers[0]);
    assert s1.isCorrect <==> answers[0] == qs[k].correctAnswer;
    var s2 := Step(s, answers[0]);
    OperationsKeepValid(s, t, answers[0]);
    OperationsKeepValid(s1, t, answers[0]);
    assert qs[k..][1..] == qs[k + 1..];
    if k + 1 < |qs| {
      PlayToEnd(s2, t, answers[1..]);
    } else {
      assert answers[1..] == [];
    }
  }

  /** `nextQuiz` feeds the achievement counters: one correct answer per point, one lesson per new
      completion. */
  lemma AdvanceFeedsAchievements(s: Session, a: Achievements.AchState, today: int)
    ensures var o := Advance(s);
      var a2 := ApplyEvents(a, o.events, today);
      && Achievements.Progress(a2, Achievements.CorrectAnswers) == Achievements.Progress(a, Achievements.CorrectAnswers) + (if s.isCorrect then 1 else 0)
      && Achievements.Progress(a2, Achievements.LessonsCompleted) == Achievements.Progress(a, Achievements.LessonsCompleted) + |o.session.completedLessons| - |s.completedLessons|
  {
    var o := Advance(s);
    var evs := o.events;
    if s.isCorrect {
      var a1 := Achievements.CorrectAnswer(a, today);
      assert ApplyEvents(a, evs, today) == ApplyEvents(a1, evs[1..], today);
      if |evs| > 1 {
        assert evs[1..][1..] == [];
      }
    } else if |evs| > 0 {
      assert evs[1..] == [];
    }
  }

  // ---------------------------------------------------------------- the store

  /** The lesson store. The random sorts are the `Shuffler` passed in; `window.achievementStore`
      is the `ach` argument of `NextQuiz` (`null` when unset); `today` is the day number. */
  class LessonStore {
    var currentLessonType: Option<string>
    var currentQuizIndex: nat
    var quizzes: map<string, seq<Question>>
    var completedLessons: seq<Option<string>>
    var streaks: Streaks
    var points: int
    var currentQuiz: Option<Question>
    var selectedAnswer: Option<string>
    var showFeedback: bool
    var isCorrect: bool

    function State(): Session
      reads this
    {
      Session(currentLessonType, currentQuizIndex, quizzes, completedLessons, streaks, points,
              currentQuiz, selectedAnswer, showFeedback, isCorrect)
    }

    constructor()
      ensures State() == Initial
    {
      currentLessonType, currentQuizIndex, quizzes, completedLessons := None, 0, map[], [];
      streaks, points := Streaks(0, 0), 0;
      currentQuiz, selectedAnswer, showFeedback, isCorrect := None, None, false, false;
    }

    method InitializeQuizzes(sh: Shuffler)
      modifies this
      ensures State() == Initialize(old(State()), sh)
    {
      if |quizzes| == 0 {
        quizzes := GenerateQuizzes(sh);
      }
    }

    method StartQuiz(lessonType: string)
      modifies this
      ensures State() == Start(old(State()), lessonType)
    {
      var lessonQuizzes := if lessonType in quizzes then quizzes[lessonType] else [];
      currentLessonType := Some(lessonType);
      currentQuizIndex := 0;
      currentQuiz := if |lessonQuizzes| > 0 then Some(lessonQuizzes[0]) else None;
      selectedAnswer := None;
      showFeedback := false;
    }

    method SelectAnswer(answer: string)
      modifies this
      ensures State() == Select(old(State()), answer)
    {
      isCorrect := currentQuiz.Some? && answer == currentQuiz.value.correctAnswer;
      selectedAnswer := Some(answer);
      showFeedback := true;
    }

    /** The quiz screen's option click. */
    method HandleAnswerSelect(answer: string)
      modifies this
      ensures State() == AnswerSelect(old(State()), answer)
    {
      if !showFeedback {
        SelectAnswer(answer);
      }
    }

    method NextQuiz(ach: Achievements.AchievementStore?, today: int)
      modifies this, ach
      ensures State() == Advance(old(State())).session
      ensures ach != null ==> ach.State() == ApplyEvents(old(ach.State()), Advance(old(State())).events, today)
    {
      ghost var s0 := State();
      ghost var a0 := if ach != null then ach.State() else Achievements.Fresh;
      ScoreAnswer(ach, today);
      ghost var a1 := if ach != null then ach.State() else Achievements.Fresh;
      MoveOn(ach, today);
      if ach != null {
        ApplyEventsAppend(a0, Score(s0).events, Move(Score(s0).session).events, today);
      }
    }

    /** Lines 116-137 of `nextQuiz`. */
    method ScoreAnswer(ach: Achievements.AchievementStore?, today: int)
      modifies this, ach
      ensures State() == Score(old(State())).session
      ensures ach != null ==> ach.State() == ApplyEvents(old(ach.State()), Score(old(State())).events, today)
    {
      if isCorrect {
        var newStreak := streaks.current + 1;
        points := points + 1;
        streaks := Streaks(newStreak, if streaks.best >= newStreak then streaks.best else newStreak);
        if ach != null {
          ach.OnCorrectAnswer(today);
        }
      }
    }

    /** Lines 139-174 of `nextQuiz`. */
    method MoveOn(ach: Achievements.AchievementStore?, today: int)
      modifies this, ach
      ensures State() == Move(old(State())).session
      ensures ach != null ==> ach.State() == ApplyEvents(old(ach.State()), Move(old(State())).events, today)
    {
      var lessonQuizzes := LessonQuizzes(quizzes, currentLessonType);
      var nextIndex := currentQuizIndex + 1;
      if nextIndex < |lessonQuizzes| {
        currentQuizIndex := nextIndex;
        currentQuiz := Some(lessonQuizzes[nextIndex]);
        selectedAnswer := None;
        showFeedback := false;
        isCorrect := false;
      } else {
        var isNewCompletion := currentLessonType !in completedLessons;
        if isNewCompletion {
          completedLessons := completedLessons + [currentLessonType];
          if ach != null {
            ApplyOne(ach.State(), LessonCompleted(|completedLessons|), today);
            ach.OnLessonCompleted(|completedLessons|, today);
          }
        } else if ach != null {
          ApplyNone(ach.State(), today);
        }
        currentQuiz := None;
        currentLessonType := Some("complete");
      }
    }

    method ResetLesson()
      modifies this
      ensures State() == ClearLesson(old(State()))
    {
      currentLessonType, currentQuizIndex, currentQuiz := None, 0, None;
      selectedAnswer, showFeedback, isCorrect := None, false, false;
    }

    method ReturnToDashboard()
      modifies this
      ensures State() == ToDashboard(old(State()))
    {
      currentLessonType, currentQuiz, selectedAnswer, showFeedback := None, None, None, false;
    }

    method Reset()
      modifies this
      ensures State() == ResetAll(old(State()))
    {
      currentLessonType, currentQuizIndex, completedLessons := None, 0, [];
      streaks, points := Streaks(0, 0), 0;
      currentQuiz, selectedAnswer, showFeedback, isCorrect := None, None, false, false;
    }
  }
}
