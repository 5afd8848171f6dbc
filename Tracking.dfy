/**
 * The in-memory tracking store: user id -> user record, and poll id -> the user the
 * poll was sent to. Its methods are the bot's quiz engine: creating records, counting
 * usage, the daily gate for automatic quizzes, starting a quiz, sending the next poll
 * or the final score, and applying an answer reported for a poll. Outbound messages
 * and polls are returned as a list of events; the id the platform gives a sent poll
 * is the parameter `next` (None when sending the poll fails).
 */
module Tracking {
  import opened Wrappers
  import opened QuizModel
  import opened Builder

  type Users = map<UserId, UserRecord>
  type Polls = map<PollId, UserId>

  /** Every stored quiz keeps one result per answered question. */
  predicate StoreValid(users: Users) {
    forall u | u in users :: users[u].currentQuiz.Some? ==> QuizValid(users[u].currentQuiz.value)
  }

  /** The record `ensure_user_record` creates for a user it has not seen. */
  function NewRecord(username: string, firstName: string): UserRecord {
    UserRecord(username, firstName, 0, [], "", 0, None)
  }

  /** The users map after `ensure_user_record`. */
  function Ensured(users: Users, uid: UserId, username: string, firstName: string): (r: Users)
    ensures uid in r
  {
    if uid in users then users else users[uid := NewRecord(username, firstName)]
  }

  /** A record after `increment_usage_count(item)`; an empty item is not logged. */
  function Used(rec: UserRecord, item: string): UserRecord {
    rec.(usageCount := rec.usageCount + 1, history := if item != "" then rec.history + [item] else rec.history)
  }

  /**
   * The checks `handle_poll_answer` makes before recording anything: a reporting user,
   * a poll registered to that same user, a stored quiz, and a question left to answer.
   */
  predicate Accepts(users: Users, polls: Polls, pollId: PollId, reporter: UserId) {
    && reporter != 0
    && pollId in polls
    && polls[pollId] == reporter
    && reporter in users
    && users[reporter].currentQuiz.Some?
    && users[reporter].currentQuiz.value.index < |users[reporter].currentQuiz.value.questions|
  }

  /**
   * The feedback message for answering q with `optionIds`: "correct" exactly when the first
   * chosen option is the correct one, otherwise the correct option's text, which a
   * well-formed question always has.
   */
  function Feedback(q: Question, optionIds: seq<int>): (n: Notice)
    ensures n == Correct <==> |optionIds| > 0 && optionIds[0] == q.correctIndex
    ensures WellFormed(q) ==> n == Correct || n == Wrong(q.options[q.correctIndex])
    ensures q.correctIndex >= |q.options| ==> n == Correct || n == Wrong("N/A")
  {
    if Grade(q, optionIds).correct then Correct
    else Wrong(if q.correctIndex < |q.options| then q.options[q.correctIndex] else "N/A")
  }

  /**
   * What `_send_quiz_poll` does to the store (u0, p0 before; u1, p1 after) and sends:
   * no quiz -> a notice; all questions answered -> the finish notice and the score
   * (correct results over results), and the quiz is removed; otherwise the question
   * at the current index is sent and, when the send succeeds, its poll id is
   * registered to the user.
   */
  ghost predicate PollStep(u0: Users, p0: Polls, uid: UserId, next: Option<PollId>,
                           u1: Users, p1: Polls, out: seq<Outbound>)
  {
    if uid !in u0 || u0[uid].currentQuiz.None? then
      u1 == u0 && p1 == p0 && out == [Say(uid, NoQuizFound)]
    else
      var quiz := u0[uid].currentQuiz.value;
      if quiz.index >= |quiz.questions| then
        && u1 == u0[uid := u0[uid].(currentQuiz := None)]
        && p1 == p0
        && out == [Say(uid, Finished), Say(uid, Score(CorrectCount(quiz.results), |quiz.results|))]
      else
        var q := quiz.questions[quiz.index];
        && u1 == u0
        && (next.None? ==> p1 == p0 && out == [Say(uid, PollFailed)])
        && (next.Some? ==> p1 == p0[next.value := uid] && out == [Poll(uid, q.prompt, q.options, q.correctIndex, next.value)])
  }

  /**
   * What `send_quiz_to_user` does, starting from users u0 and polls p0: the record is
   * ensured; with no content a notice is sent; when building fails nothing more happens;
   * otherwise the new quiz replaces any previous one, usage is counted as "quiz_sent"
   * and the first question is sent.
   */
  ghost predicate QuizStarted(u0: Users, p0: Polls, uid: UserId, content: Content, draws: Draws, next: Option<PollId>,
                              u1: Users, p1: Polls, out: seq<Outbound>)
    requires ValidDraws(content, draws)
  {
    var base := Ensured(u0, uid, "", "");
    if content.words == [] && content.phrases == [] then
      u1 == base && p1 == p0 && out == [Say(uid, NoContent)]
    else if PhraseDrawFails(content, draws) then
      u1 == base && p1 == p0 && out == []
    else
      && uid in u1
      && u1[uid].currentQuiz.Some?
      && var qs := u1[uid].currentQuiz.value.questions;
      && qs != []
      && BuiltFrom(content, draws, qs)
      && u1 == base[uid := Used(base[uid], "quiz_sent").(currentQuiz := Some(Quiz(qs, 0, [])))]
      && PollStep(u1, p0, uid, next, u1, p1, out)
  }

  class Tracking {
    var users: Users
    var activePolls: Polls

    ghost predicate Valid()
      reads this
    {
      StoreValid(users)
    }

    /** An empty store (`load_tracking` on a missing file). */
    constructor ()
      ensures Valid() && users == map[] && activePolls == map[]
    {
      users := map[];
      activePolls := map[];
    }

    /** `ensure_user_record`: creates a fresh record only when the user has none. */
    method EnsureUserRecord(uid: UserId, username: string, firstName: string)
      requires Valid()
      modifies this
      ensures Valid()
      ensures activePolls == old(activePolls)
      ensures uid in old(users) ==> users == old(users)
      ensures uid !in old(users) ==> users == old(users)[uid := UserRecord(username, firstName, 0, [], "", 0, None)]
      ensures users == Ensured(old(users), uid, username, firstName)
    {
      if uid !in users {
        users := users[uid := NewRecord(username, firstName)];
      }
    }

    /**
     * `increment_usage_count`: one more use, and the item appended to the history when
     * it is not empty; nothing happens for an unknown user.
     */
    method IncrementUsageCount(uid: UserId, item: string)
      requires Valid()
      modifies this
      ensures Valid()
      ensures activePolls == old(activePolls)
      ensures uid !in old(users) ==> users == old(users)
      ensures uid in old(users) ==> users == old(users)[uid := Used(old(users)[uid], item)]
      ensures uid in old(users) ==> users[uid].usageCount == old(users)[uid].usageCount + 1
      ensures uid in old(users) ==> users[uid].history == old(users)[uid].history + (if item != "" then [item] else [])
    {
      if uid in users {
        var rec := users[uid];
        rec := rec.(usageCount := rec.usageCount + 1);
        if item != "" {
          rec := rec.(history := rec.history + [item]);
        }
        users := users[uid := rec];
      }
    }

    /**
     * `send_quiz_if_allowed`: the daily gate for automatic quizzes. The record's date and
     * counter end up as `Gate` says; when the gate allows it a quiz is started from the
     * gated record, otherwise nothing is sent and no other state changes.
     */
    method SendQuizIfAllowed(uid: UserId, today: string, content: Content, draws: Draws, next: Option<PollId>)
      returns (out: seq<Outbound>, allowed: bool)
      requires Valid() && ValidDraws(content, draws)
      modifies this
      ensures Valid()
      ensures allowed == Gate(Ensured(old(users), uid, "", "")[uid], today).allowed
      ensures uid in users && users[uid].lastQuizDate == today
      ensures users[uid].dailyQuizCount == Gate(Ensured(old(users), uid, "", "")[uid], today).record.dailyQuizCount
      ensures !allowed ==> users == Ensured(old(users), uid, "", "") && activePolls == old(activePolls) && out == []
      ensures allowed ==>
        var base := Ensured(old(users), uid, "", "");
        QuizStarted(base[uid := Gate(base[uid], today).record], old(activePolls), uid, content, draws, next,
                    users, activePolls, out)
    {
      EnsureUserRecord(uid, "", "");
      var user := users[uid];
      if user.lastQuizDate != today {
        user := user.(dailyQuizCount := 0, lastQuizDate := today);
      }
      if user.dailyQuizCount < DailyLimit {
        user := user.(dailyQuizCount := user.dailyQuizCount + 1);
        users := users[uid := user];
        out := SendQuizToUser(uid, content, draws, next);
        allowed := true;
      } else {
        out := [];
        allowed := false;
      }
    }

    /**
     * `send_quiz_to_user`: builds a quiz and sends its first question. A new quiz
     * overwrites the current one unconditionally, and no registered poll is dropped.
     */
    method SendQuizToUser(uid: UserId, content: Content, draws: Draws, next: Option<PollId>)
      returns (out: seq<Outbound>)
      requires Valid() && ValidDraws(content, draws)
      modifies this
      ensures Valid()
      ensures QuizStarted(old(users), old(activePolls), uid, content, draws, next, users, activePolls, out)
      ensures old(activePolls).Keys <= activePolls.Keys
      ensures forall p | p in old(activePolls) && Some(p) != next :: activePolls[p] == old(activePolls)[p]
    {
      EnsureUserRecord(uid, "", "");
      if content.words == [] && content.phrases == [] {
        out := [Say(uid, NoContent)];
        return;
      }
      var built := BuildQuizQuestions(content, draws);
      if built.None? {
        // random.choice on a topic without phrases raises, which ends the operation here
        out := [];
        return;
      }
      // with words or phrases present the builder never returns an empty list
      var qs := built.value;
      out := StartQuiz(uid, qs, next);
    }

    /** Stores `qs` as the user's current quiz, counts the usage and sends the first question. */
    method StartQuiz(uid: UserId, qs: seq<Question>, next: Option<PollId>) returns (out: seq<Outbound>)
      requires Valid() && uid in users && qs != []
      modifies this
      ensures Valid()
      ensures users == old(users)[uid := Used(old(users)[uid], "quiz_sent").(currentQuiz := Some(Quiz(qs, 0, [])))]
      ensures PollStep(users, old(activePolls), uid, next, users, activePolls, out)
      ensures old(activePolls).Keys <= activePolls.Keys
      ensures forall p | p in old(activePolls) && Some(p) != next :: activePolls[p] == old(activePolls)[p]
    {
      users := users[uid := users[uid].(currentQuiz := Some(Quiz(qs, 0, [])))];
      IncrementUsageCount(uid, "quiz_sent");
      out := SendQuizPoll(uid, next);
    }

    /**
     * `_send_quiz_poll`: sends the question at the current index, or, once every
     * question is answered, the score, and removes the quiz.
     */
    method SendQuizPoll(uid: UserId, next: Option<PollId>) returns (out: seq<Outbound>)
      requires Valid()
      modifies this
      ensures Valid()
      ensures PollStep(old(users), old(activePolls), uid, next, users, activePolls, out)
    {
      if uid !in users || users[uid].currentQuiz.None? {
        out := [Say(uid, NoQuizFound)];
        return;
      }
      var quiz := users[uid].currentQuiz.value;
      var idx := quiz.index;
      var questions := quiz.questions;
      if idx >= |questions| {
        var results := quiz.results;
        out := [Say(uid, Finished), Say(uid, Score(CorrectCount(results), |results|))];
        users := users[uid := users[uid].(currentQuiz := None)];
        return;
      }
      var q := questions[idx];
      match next {
        case None =>
          out := [Say(uid, PollFailed)];
        case Some(pollId) =>
          out := [Poll(uid, q.prompt, q.options, q.correctIndex, pollId)];
          activePolls := activePolls[pollId := uid];
      }
    }

    /**
     * `handle_poll_answer`: an answer to a poll that is unknown, registered to another
     * user, or has no open question changes nothing. Otherwise exactly one graded
     * result is appended, the index moves on by one, the poll id is removed, feedback
     * is sent, and then the next question or the score follows.
     */
    method HandlePollAnswer(pollId: PollId, reporter: UserId, optionIds: seq<int>, next: Option<PollId>)
      returns (out: seq<Outbound>)
      requires Valid()
      modifies this
      ensures Valid()
      ensures !Accepts(old(users), old(activePolls), pollId, reporter) ==>
        users == old(users) && activePolls == old(activePolls) && out == []
      ensures Accepts(old(users), old(activePolls), pollId, reporter) ==>
        var quiz := old(users)[reporter].currentQuiz.value;
        && |out| >= 1
        && out[0] == Say(reporter, Feedback(quiz.questions[quiz.index], optionIds))
        && PollStep(old(users)[reporter := old(users)[reporter].(currentQuiz := Some(Answered(quiz, optionIds)))],
                    old(activePolls) - {pollId}, reporter, next, users, activePolls, out[1..])
      ensures Accepts(old(users), old(activePolls), pollId, reporter) && next != Some(pollId) ==>
        pollId !in activePolls
    {
      out := [];
      if reporter == 0 {
        return;
      }
      if pollId !in activePolls {
        return;
      }
      if activePolls[pollId] != reporter {
        return;
      }
      if reporter !in users {
        return;
      }
      var user := users[reporter];
      if user.currentQuiz.None? {
        return;
      }
      var quiz := user.currentQuiz.value;
      var qidx := quiz.index;
      if qidx >= |quiz.questions| {
        return;
      }
      var q := quiz.questions[qidx];
      var chosen := if |optionIds| > 0 then Some(optionIds[0]) else None;
      var correct := chosen == Some(q.correctIndex as int);
      quiz := quiz.(results := quiz.results + [QuizResult(q.kind, q.prompt, chosen, q.correctIndex, correct)]);
      var feedback;
      if correct {
        feedback := Correct;
      } else {
        var correctText := if q.correctIndex < |q.options| then q.options[q.correctIndex] else "N/A";
        feedback := Wrong(correctText);
      }
      quiz := quiz.(index := qidx + 1);
      users := users[reporter := user.(currentQuiz := Some(quiz))];
      activePolls := activePolls - {pollId};
      var rest := SendQuizPoll(reporter, next);
      out := [Say(reporter, feedback)] + rest;
    }
  }
}
