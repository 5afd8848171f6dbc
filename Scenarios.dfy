/**
 * Client code for the tracking store: short conversations whose outcome follows from
 * the contracts of `Tracking` alone.
 */
module Scenarios {
  import opened Wrappers
  import opened QuizModel
  import opened Builder
  import opened Tracking

  const Alice: UserId := 7
  const Bob: UserId := 8

  function Q(prompt: string, correct: nat): Question
    requires correct < 4
  {
    Question(WordTranslation, prompt, ["a", "b", "c", "d"], correct)
  }

  /** A fresh store in which Alice has an unanswered three-question quiz. */
  method StoreWithQuiz() returns (t: Tracking)
    ensures fresh(t) && t.Valid() && t.activePolls == map[]
    ensures t.users == map[Alice := NewRecord("alice", "Alice").(currentQuiz := Some(Quiz([Q("one", 0), Q("two", 1), Q("three", 2)], 0, [])))]
  {
    t := new Tracking();
    t.users := map[Alice := NewRecord("alice", "Alice").(currentQuiz := Some(Quiz([Q("one", 0), Q("two", 1), Q("three", 2)], 0, [])))];
  }

  /** Answering right, wrong, right ends the quiz with a score of 2 out of 3 and no open polls. */
  method WholeQuiz() {
    var t := StoreWithQuiz();
    var out := t.SendQuizPoll(Alice, Some("p1"));
    assert out == [Poll(Alice, "one", ["a", "b", "c", "d"], 0, "p1")];
    assert t.activePolls == map["p1" := Alice];

    out := t.HandlePollAnswer("p1", Alice, [0], Some("p2"));
    assert out == [Say(Alice, Correct), Poll(Alice, "two", ["a", "b", "c", "d"], 1, "p2")];

    out := t.HandlePollAnswer("p2", Alice, [3], Some("p3"));
    assert out[0] == Say(Alice, Wrong("b"));

    var quiz := t.users[Alice].currentQuiz.value;
    assert quiz.index == 2 && |quiz.results| == 2;
    assert quiz.results[0].correct && !quiz.results[1].correct;

    out := t.HandlePollAnswer("p3", Alice, [2], None);
    assert CorrectCount(quiz.results + [Grade(Q("three", 2), [2])]) == 2;
    assert out == [Say(Alice, Correct), Say(Alice, Finished), Say(Alice, Score(2, 3))];
    assert t.users[Alice].currentQuiz.None?;
    assert t.activePolls == map[];
  }

  /** A second answer to the same poll, an answer by another user and an unknown poll are all dropped. */
  method DroppedAnswers() {
    var t := StoreWithQuiz();
    var out := t.SendQuizPoll(Alice, Some("p1"));
    out := t.HandlePollAnswer("p1", Bob, [0], Some("x"));
    assert out == [] && t.activePolls == map["p1" := Alice];
    out := t.HandlePollAnswer("unknown", Alice, [0], Some("x"));
    assert out == [];
    out := t.HandlePollAnswer("p1", Alice, [], Some("p2"));
    assert out[0] == Say(Alice, Wrong("a"));
    var users := t.users;
    out := t.HandlePollAnswer("p1", Alice, [0], Some("x"));
    assert out == [] && t.users == users;
    assert t.users[Alice].currentQuiz.value.index == 1;
  }

  /** A failed poll send leaves no poll registered, so no answer can be applied. */
  method FailedSend() {
    var t := StoreWithQuiz();
    var out := t.SendQuizPoll(Alice, None);
    assert out == [Say(Alice, PollFailed)] && t.activePolls == map[];
    out := t.HandlePollAnswer("p1", Alice, [0], Some("x"));
    assert out == [] && t.users[Alice].currentQuiz.value.index == 0;
  }

  /** A quiz started for `uid` from content that builds, seen only through its first state and the polls. */
  method StartNewQuiz(t: Tracking, uid: UserId, content: Content, draws: Draws, next: PollId)
    requires t.Valid() && ValidDraws(content, draws) && !PhraseDrawFails(content, draws)
    requires content.words != [] || content.phrases != []
    modifies t
    ensures t.Valid()
    ensures uid in t.users && t.users[uid].currentQuiz.Some?
    ensures t.users[uid].currentQuiz.value.index == 0 && t.users[uid].currentQuiz.value.results == []
    ensures t.users[uid].currentQuiz.value.questions != []
    ensures t.activePolls == old(t.activePolls)[next := uid]
  {
    var out := t.SendQuizToUser(uid, content, draws, Some(next));
  }

  /**
   * Starting a new quiz keeps the polls of the old one: answering one of them is applied
   * to the first question of the new quiz.
   */
  method StalePoll(content: Content, draws: Draws)
    requires ValidDraws(content, draws) && !PhraseDrawFails(content, draws)
    requires content.words != [] || content.phrases != []
  {
    var t := StoreWithQuiz();
    var out := t.SendQuizPoll(Alice, Some("old"));
    StartNewQuiz(t, Alice, content, draws, "new");
    var quiz := t.users[Alice].currentQuiz.value;
    assert quiz.index == 0 && quiz.results == [] && quiz.questions != [];
    assert t.activePolls["old"] == Alice && t.activePolls["new"] == Alice;

    out := t.HandlePollAnswer("old", Alice, [0], Some("next"));
    assert out[0] == Say(Alice, Feedback(quiz.questions[0], [0]));
    assert "new" in t.activePolls && "old" !in t.activePolls;
    if |quiz.questions| > 1 {
      var after := t.users[Alice].currentQuiz.value;
      assert after.results[0].prompt == quiz.questions[0].prompt;
      assert after.questions == quiz.questions && after.index == 1;
    }
  }

  /** One automatic quiz request, seen only through the quota it consumes. */
  method AskForQuiz(t: Tracking, uid: UserId, today: string, content: Content, draws: Draws)
    returns (out: seq<Outbound>, allowed: bool)
    requires t.Valid() && ValidDraws(content, draws)
    modifies t
    ensures t.Valid()
    ensures allowed == Gate(Ensured(old(t.users), uid, "", "")[uid], today).allowed
    ensures !allowed ==> out == []
    ensures uid in t.users && t.users[uid].lastQuizDate == today
    ensures t.users[uid].dailyQuizCount == Gate(Ensured(old(t.users), uid, "", "")[uid], today).record.dailyQuizCount
  {
    out, allowed := t.SendQuizIfAllowed(uid, today, content, draws, None);
  }

  /** Automatic quizzes: two on one day, the third refused, and one more on the next day. */
  method DailyQuota(content: Content, draws: Draws)
    requires ValidDraws(content, draws)
  {
    var t := new Tracking();
    var out, allowed := AskForQuiz(t, Alice, "2024-05-01", content, draws);
    assert allowed;
    out, allowed := AskForQuiz(t, Alice, "2024-05-01", content, draws);
    assert allowed;
    out, allowed := AskForQuiz(t, Alice, "2024-05-01", content, draws);
    assert !allowed && out == [];
    out, allowed := AskForQuiz(t, Alice, "2024-05-02", content, draws);
    assert allowed && t.users[Alice].dailyQuizCount == 1;
  }
}
