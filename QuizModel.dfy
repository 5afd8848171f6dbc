/**
 * The values kept in the bot's tracking store (user records, quizzes, results),
 * the read-only content a quiz is built from, and the pure steps of a session:
 * grading one answer, advancing a quiz, scoring it, and the daily quota gate.
 */
module QuizModel {
  import opened Wrappers

  /** A chat user's numeric id; the store keys user records by it. */
  type UserId = int
  /** The identifier the chat platform returns for every poll it delivers. */
  type PollId = string

  // ---------------- Content (the words and phrases dictionaries) ----------------

  /** The fields of one words.json entry that the bot reads; an absent key is None or []. */
  datatype WordInfo = WordInfo(
    translation: Option<string>,
    partOfSpeech: Option<string>,
    level: Option<string>,
    prefixes: seq<string>,
    suffixes: seq<string>,
    singularPlural: Option<string>,
    examples: seq<string>,
    synonyms: seq<string>)

  /** One (key, value) item of the words dictionary, in the dictionary's order. */
  datatype WordEntry = WordEntry(key: string, info: WordInfo)

  /** One phrase topic and its list of phrases. */
  datatype Topic = Topic(name: string, phrases: seq<string>)

  datatype Content = Content(words: seq<WordEntry>, phrases: seq<Topic>)

  // ---------------- Quiz state ----------------

  datatype Kind = WordTranslation | PartOfSpeech | PhraseMatch

  datatype Question = Question(kind: Kind, prompt: string, options: seq<string>, correctIndex: nat)

  /** One recorded answer; `chosen` is None when the answer event carried no option. */
  datatype QuizResult = QuizResult(kind: Kind, prompt: string, chosen: Option<int>, correctIndex: nat, correct: bool)

  /** A user's `current_quiz`: the questions, the index of the next one, the results so far. */
  datatype Quiz = Quiz(questions: seq<Question>, index: nat, results: seq<QuizResult>)

  datatype UserRecord = UserRecord(
    username: string,
    firstName: string,
    usageCount: nat,
    history: seq<string>,
    lastQuizDate: string,
    dailyQuizCount: nat,
    currentQuiz: Option<Quiz>)

  // ---------------- Outbound events ----------------

  /** The text messages the bot sends, by meaning rather than by wording. */
  datatype Notice =
    | NoContent              // "No words or phrases available for quiz."
    | NoQuizFound            // "No quiz found. Start a new quiz ..."
    | PollFailed             // "Failed to send quiz poll. Try again later."
    | Finished               // "Quiz finished! Great job!"
    | Score(correct: nat, answered: nat)
    | Correct                // "Correct!"
    | Wrong(answer: string)  // "Wrong - correct answer: <answer>"

  datatype Outbound =
    | Say(to: UserId, notice: Notice)
    | Poll(to: UserId, prompt: string, options: seq<string>, correctIndex: nat, id: PollId)

  // ---------------- Helpers ----------------

  function Min(a: int, b: int): int { if a <= b then a else b }

  /** The number of automatic quizzes a user may receive per calendar day. */
  const DailyLimit: nat := 2

  /** The shape every built question has: four options and a valid correct index. */
  predicate WellFormed(q: Question) {
    |q.options| == 4 && q.correctIndex < 4
  }

  /** The session invariant: one result per answered question, index within the questions. */
  predicate QuizValid(quiz: Quiz) {
    |quiz.results| == quiz.index <= |quiz.questions|
  }

  /** The first selected option of an answer event, if any. */
  function Chosen(optionIds: seq<int>): Option<int> {
    if |optionIds| > 0 then Some(optionIds[0]) else None
  }

  // ---------------- Grading and advancing ----------------

  /** The result recorded for answering `q` with the options `optionIds`. */
  function Grade(q: Question, optionIds: seq<int>): (r: QuizResult)
    ensures r.correct <==> |optionIds| > 0 && optionIds[0] == q.correctIndex
    ensures r.chosen.None? <==> optionIds == []
    ensures |optionIds| > 0 ==> r.chosen == Some(optionIds[0])
    ensures r.kind == q.kind && r.prompt == q.prompt && r.correctIndex == q.correctIndex
  {
    var chosen := Chosen(optionIds);
    QuizResult(q.kind, q.prompt, chosen, q.correctIndex, chosen == Some(q.correctIndex as int))
  }

  /** The quiz after the question at its current index has been answered. */
  function Answered(quiz: Quiz, optionIds: seq<int>): (r: Quiz)
    requires quiz.index < |quiz.questions|
    ensures r.questions == quiz.questions && r.index == quiz.index + 1
    ensures |r.results| == |quiz.results| + 1 && r.results[..|quiz.results|] == quiz.results
    ensures r.results[|quiz.results|].correct <==> Chosen(optionIds) == Some(quiz.questions[quiz.index].correctIndex as int)
    ensures QuizValid(quiz) ==> QuizValid(r)
  {
    var q := quiz.questions[quiz.index];
    quiz.(results := quiz.results + [Grade(q, optionIds)], index := quiz.index + 1)
  }

  /** The number of results marked correct (the numerator of the final summary). */
  function CorrectCount(results: seq<QuizResult>): (n: nat)
    ensures n <= |results|
    ensures n == |results| <==> forall i | 0 <= i < |results| :: results[i].correct
  {
    if results == [] then 0
    else
      var rest := CorrectCount(results[1..]);
      assert forall i | 1 <= i < |results| :: results[1..][i - 1] == results[i];
      (if results[0].correct then 1 else 0) + rest
  }

  /** Answering the quiz's next |answers| questions in turn. */
  function Run(quiz: Quiz, answers: seq<seq<int>>): Quiz
    requires quiz.index + |answers| <= |quiz.questions|
    decreases |answers|
  {
    if answers == [] then quiz else Run(Answered(quiz, answers[0]), answers[1..])
  }

  /** The results that grading `answers` against `qs`, pairwise, produces. */
  function Grades(qs: seq<Question>, answers: seq<seq<int>>): seq<QuizResult>
    requires |qs| == |answers|
  {
    if qs == [] then [] else [Grade(qs[0], answers[0])] + Grades(qs[1..], answers[1..])
  }

  /** An independent count of the answers whose first option is the question's correct index. */
  function Matches(qs: seq<Question>, answers: seq<seq<int>>): nat
    requires |qs| == |answers|
  {
    if qs == [] then 0
    else (if Chosen(answers[0]) == Some(qs[0].correctIndex as int) then 1 else 0) + Matches(qs[1..], answers[1..])
  }

  /** Running a quiz over some answers appends exactly one graded result per answer, in order. */
  lemma {:induction false} RunAppendsGrades(quiz: Quiz, answers: seq<seq<int>>)
    requires quiz.index + |answers| <= |quiz.questions|
    ensures Run(quiz, answers).questions == quiz.questions
    ensures Run(quiz, answers).index == quiz.index + |answers|
    ensures Run(quiz, answers).results
         == quiz.results + Grades(quiz.questions[quiz.index..quiz.index + |answers|], answers)
    decreases |answers|
  {
    if answers != [] {
      var next := Answered(quiz, answers[0]);
      RunAppendsGrades(next, answers[1..]);
      var qs := quiz.questions[quiz.index..quiz.index + |answers|];
      assert qs[0] == quiz.questions[quiz.index];
      assert qs[1..] == next.questions[next.index..next.index + |answers[1..]|];
      assert next.results == quiz.results + [Grade(qs[0], answers[0])];
    }
  }

  /** Grading counts exactly the matching answers. */
  lemma {:induction false} GradesScore(qs: seq<Question>, answers: seq<seq<int>>)
    requires |qs| == |answers|
    ensures |Grades(qs, answers)| == |qs|
    ensures CorrectCount(Grades(qs, answers)) == Matches(qs, answers)
  {
    if qs != [] {
      GradesScore(qs[1..], answers[1..]);
      assert Grades(qs, answers)[1..] == Grades(qs[1..], answers[1..]);
    }
  }

  /**
   * A quiz started fresh and answered once per question ends with one result per
   * question and a score equal to the number of answers that picked the correct option.
   */
  lemma {:induction false} CompletedQuizScore(qs: seq<Question>, answers: seq<seq<int>>)
    requires |answers| == |qs|
    ensures QuizValid(Run(Quiz(qs, 0, []), answers))
    ensures Run(Quiz(qs, 0, []), answers).index == |qs|
    ensures |Run(Quiz(qs, 0, []), answers).results| == |qs|
    ensures CorrectCount(Run(Quiz(qs, 0, []), answers).results) == Matches(qs, answers)
  {
    RunAppendsGrades(Quiz(qs, 0, []), answers);
    assert qs[0..|answers|] == qs;
    assert Run(Quiz(qs, 0, []), answers).results == Grades(qs, answers);
    GradesScore(qs, answers);
  }

  // ---------------- Daily quota gate ----------------

  datatype Gated = Gated(record: UserRecord, allowed: bool)

  /**
   * The date logic of an automatic quiz trigger: the daily counter is reset lazily when
   * the stored date is not today, and a quiz is allowed while the counter is below the limit.
   */
  function Gate(rec: UserRecord, today: string): (g: Gated)
    ensures g.record.lastQuizDate == today
    ensures g.allowed <==> rec.lastQuizDate != today || rec.dailyQuizCount < DailyLimit
    ensures g.allowed ==> g.record.dailyQuizCount == SentToday(rec, today) + 1 <= DailyLimit
    ensures !g.allowed ==> g.record == rec
    ensures g.record.(lastQuizDate := rec.lastQuizDate, dailyQuizCount := rec.dailyQuizCount) == rec
  {
    var current := if rec.lastQuizDate != today then rec.(dailyQuizCount := 0, lastQuizDate := today) else rec;
    if current.dailyQuizCount < DailyLimit then
      Gated(current.(dailyQuizCount := current.dailyQuizCount + 1), true)
    else
      Gated(current, false)
  }

  /** The quizzes a record says were already sent on `today`. */
  function SentToday(rec: UserRecord, today: string): nat {
    if rec.lastQuizDate == today then rec.dailyQuizCount else 0
  }

  /** How many of `n` successive gate calls on the same day let a quiz through. */
  function AllowedOnDay(rec: UserRecord, today: string, n: nat): nat
    decreases n
  {
    if n == 0 then 0
    else
      var g := Gate(rec, today);
      (if g.allowed then 1 else 0) + AllowedOnDay(g.record, today, n - 1)
  }

  /** n calls on one day let through exactly what is left of that day's quota, capped by n. */
  lemma {:induction false} QuotaPerDay(rec: UserRecord, today: string, n: nat)
    ensures AllowedOnDay(rec, today, n) == Min(n, DailyLimit - Min(SentToday(rec, today), DailyLimit))
    decreases n
  {
    if n > 0 {
      QuotaPerDay(Gate(rec, today).record, today, n - 1);
    }
  }

  /** However often the gate is asked on one day, at most DailyLimit quizzes go out. */
  lemma {:induction false} AtMostDailyLimit(rec: UserRecord, today: string, n: nat)
    ensures AllowedOnDay(rec, today, n) <= DailyLimit
  {
    QuotaPerDay(rec, today, n);
  }

  /** On a day the record has not seen yet, the first DailyLimit calls all succeed. */
  lemma {:induction false} NewDayRestoresQuota(rec: UserRecord, today: string, n: nat)
    requires rec.lastQuizDate != today
    ensures AllowedOnDay(rec, today, n) == Min(n, DailyLimit)
  {
    QuotaPerDay(rec, today, n);
  }
}
