# Vocabulary bot quiz engine in Dafny

This project models the quiz session engine of the Telegram vocabulary bot (`bot.py`).
The engine keeps a tracking store with two maps:

- user id → user record, holding the usage counter, the history, the daily automatic-quiz counter and the current quiz;
- poll id → the user the poll was sent to.

On top of the store the model covers these operations:

- creating user records and counting usage;
- the daily quota gate for automatic quizzes;
- building a three-question multiple-choice quiz (word translation, part of speech, phrase match);
- the session state machine that sends each question as a poll, grades the answers reported for those polls and ends with a score.

The small lookup helpers are modelled too: recognising Uzbek input, the case-insensitive dictionary lookup, and the layout of a word card.

Modules:

- `Wrappers`: the `Option` type.
- `QuizModel`: the records, questions, quizzes and results as values.
  - Grading one answer, and the score of a finished quiz.
  - The daily quota gate, with lemmas over any number of calls in a day.
- `Builder`: `build_quiz_questions`. The options are de-duplicated, padded and shuffled in place on an array. Each random draw is a parameter:
  - a `random.choice` is an index;
  - a `random.sample` is a list of distinct positions of length `min(3, n)`;
  - a `random.shuffle` is the list of positions CPython's Fisher–Yates loop draws.
- `Tracking`: the class `Tracking`, whose fields `users` and `activePolls` are the two maps. Its methods are the engine's operations:
  - each returns the messages and polls it sends, as a list of events;
  - the id the platform gives a sent poll is the parameter `next` (`None` when sending the poll raises);
  - the current date is the parameter `today`.
- `Lookup`: `detect_uzbek`, `find_word_info` and `format_word_response`.
- `Scenarios`: short conversations built on the contracts of `Tracking`:
  - a whole quiz scored 2 out of 3;
  - repeated, foreign and unknown answers dropped;
  - a failed poll send;
  - a stale poll applied to a newer quiz;
  - the daily quota over two days.

Three behaviours of the code that a reader might not expect:

- A poll id is removed from the poll map only when an answer to it is accepted (`bot.py:476`). An answer that is rejected leaves the entry in place.
- Starting a new quiz does not drop the poll ids of the old one. An answer to such a stale poll is applied to the current question of the new quiz (`Scenarios.StalePoll`).
- The distractors of a phrase question are drawn from every topic, the chosen topic included (`bot.py:328`). Only the chosen phrase itself is excluded. A distractor from the chosen topic also belongs to that topic, so "Which phrase belongs to topic *X*?" can have two right answers, and only the chosen phrase is graded correct.

## Model

| member | source | states |
|---|---|---|
| Tracking.Tracking.constructor | bot.py:61-71 | The store starts with no users and no registered polls. |
| Tracking.Tracking.EnsureUserRecord | bot.py:74-89 | An existing record is left untouched. A missing one is created with usage 0, empty history, empty quiz date, daily count 0 and no quiz. The poll map does not change. |
| Tracking.Tracking.IncrementUsageCount | bot.py:94-101 | A known user's usage count rises by exactly one, and the item is appended to the history only when it is non-empty. An unknown user changes nothing. |
| QuizModel.Gate | bot.py:269-276 | The stored date becomes today. A quiz is allowed iff the stored date is not today or the counter is below 2. An allowed quiz sets the counter to the quizzes already sent today plus one, which is at most 2. A refused quiz leaves the record as it was, and no other field changes. |
| QuizModel.QuotaPerDay | bot.py:269-276 | n gate calls on one day let through exactly min(n, 2 − quizzes already sent that day). |
| QuizModel.AtMostDailyLimit | bot.py:269-276 | However many times the gate is asked on one day, at most 2 quizzes are allowed. |
| QuizModel.NewDayRestoresQuota | bot.py:269-272 | On a day the record has not seen, the first two calls succeed. |
| Tracking.Tracking.SendQuizIfAllowed | bot.py:262-278 | The user's record is ensured, its date is today and its counter is what the gate gives. When refused, nothing is sent and the store is otherwise unchanged. When allowed, a quiz is started from the gated record. |
| Builder.Dedup | bot.py:298 | `dict.fromkeys`: no duplicates, the same elements as the input, and the first element is kept first. |
| Builder.DedupOrder | bot.py:298 | `dict.fromkeys` keeps the distinct elements in the order of their first occurrences in the input. |
| Builder.IndexOf | bot.py:306 | `list.index`: the first position of the element, or the length when it is absent. |
| Builder.FisherYatesPermutes | bot.py:301 | The shuffle defined by the swap draws is a permutation of its input. |
| Builder.Shuffle | bot.py:301 | The in-place shuffle of the option array leaves it equal to the Fisher–Yates result of the draws, and a permutation of the old contents. |
| Builder.OtherTranslationsMembers | bot.py:296 | Every entry with a different key contributes its translation, and only such translations are listed. |
| Builder.TranslationCandidates | bot.py:297 | The correct translation comes first, followed by exactly min(3, number of other translations) sampled distractors, each one of the other translations. |
| Builder.PadWithKeys | bot.py:299-300 | The distinct options are padded with the keys the filler draws name, up to exactly 4. |
| Builder.WordOptionPool | bot.py:297-300 | Exactly 4 options before the shuffle, the correct translation first, every candidate survives de-duplication, and every option is a candidate or a dictionary key. |
| Builder.BuildWordTranslation | bot.py:293-307 | The kind and prompt are as in the source. There are 4 options: the padded pool shuffled by the swap draws, and so a permutation of it. The correct index is the first position of the picked word's translation, which the option there always is, even when padding repeats it. |
| Builder.BuildPartOfSpeech | bot.py:310-321 | The options are noun, verb, adjective, adverb shuffled by the swap draws, and so a permutation of them. The correct index points at the recorded part of speech, or at 0 when the recorded value is not one of the four. |
| Builder.OtherPhrases | bot.py:328 | The chosen phrase is never a candidate distractor. |
| Builder.OtherPhrasesMembers | bot.py:328 | Every phrase of every topic, the chosen topic included, that differs from the chosen phrase is a candidate, and only phrases of some topic are. |
| Builder.PhraseCandidates | bot.py:329 | The chosen phrase comes first, followed by exactly min(3, number of candidate distractors) sampled distractors, each one of the candidates. |
| Builder.PadWithDashes | bot.py:331-332 | The distinct options are padded with dashes up to 4. |
| Builder.PhraseOptionPool | bot.py:329-332 | Exactly 4 options before the shuffle, the chosen phrase first, every candidate kept, and only candidates or dashes. |
| Builder.PhraseAnswerUnique | bot.py:328-332 | Unless the chosen phrase is the dash itself, the phrase question offers the correct phrase exactly once. |
| Builder.BuildPhraseMatch | bot.py:324-339 | The result is None exactly when the picked topic has no phrases, which is where `random.choice` raises. Otherwise: 4 options, the padded pool shuffled by the swap draws and so a permutation of it. The correct index is the first position of the chosen phrase. |
| Builder.BuildQuizQuestions | bot.py:280-341 | The build fails exactly when the phrase pick fails. Otherwise it gives at most 3 well-formed questions: the two word questions iff there are words, and the phrase question iff there are phrases, in that order. No content means no questions. Each question is the one its own draws determine: the kind, the prompt, the options (that question's padded pool shuffled by its swap draws) and the correct index (the first position of the picked translation, the recorded part of speech or 0, the first position of the chosen phrase). |
| Tracking.Tracking.SendQuizToUser | bot.py:343-369 | The record is ensured. With no words and no phrases a notice is sent and no quiz is made. When the phrase pick fails, nothing more happens. Otherwise the stored quiz is exactly the quiz `build_quiz_questions` makes from the draws, with each question as its draws determine. It replaces any previous quiz at index 0 with no results, usage is counted as "quiz_sent" and the first question is sent. No registered poll is dropped. |
| Tracking.Tracking.StartQuiz | bot.py:362-369 | The questions become the user's current quiz at index 0 with no results, the usage count rises by one with "quiz_sent" logged, and the first question is sent as `_send_quiz_poll` sends it. No registered poll is dropped. |
| Tracking.Tracking.SendQuizPoll | bot.py:371-415 | With no quiz, a notice is sent. With every question answered, the finish notice and the score (correct results over results) are sent and the quiz is removed. Otherwise the current question is sent and its poll id is registered to the user, or a failure notice is sent if the send fails. |
| QuizModel.Grade | bot.py:452-462 | The result is correct iff an option was chosen and the first chosen option is the correct index. The recorded choice is the first chosen option, or None when no option was chosen. |
| Tracking.Feedback | bot.py:464-470 | The feedback is "correct" exactly when an option was chosen and the first one is the correct index. Otherwise a well-formed question always tells the correct option's text, and when the correct index is past the options a wrong answer is told "N/A". |
| QuizModel.Answered | bot.py:452-473 | Exactly one result is appended after the old ones and the index moves on by one. The questions are unchanged, and one result per answered question is preserved. |
| Tracking.Tracking.HandlePollAnswer | bot.py:419-480 | An answer is dropped with no change when the reporter is 0, the poll is unknown or registered to another user, there is no quiz, or every question is answered. Otherwise the feedback comes first, the answered quiz replaces the old one, the poll id is removed, and the next question or the score follows. |
| QuizModel.CorrectCount | bot.py:386-388 | The score is at most the number of results, and equals it iff every result is correct. |
| QuizModel.RunAppendsGrades | bot.py:452-473 | Answering k questions in turn appends exactly their k grades, in order, and advances the index by k. |
| QuizModel.GradesScore | bot.py:453-454 | The number of correct grades equals the number of answers whose first option is the correct index. |
| QuizModel.CompletedQuizScore | bot.py:380-388 | A quiz answered once per question ends with its index at the end, one result per question, and a score equal to the number of matching answers. |
| Lookup.TokensSplitAtSpace | bot.py:114 | `split()` cuts at every whitespace character: the tokens of a text with whitespace in it are the tokens before it followed by the tokens after it. |
| Lookup.WordIsOneToken | bot.py:114 | A non-empty run without whitespace is never cut: it is exactly one token. |
| Lookup.TokensAreWords | bot.py:114 | `split()` yields non-empty tokens without whitespace, and the tokens joined together are the text with its whitespace removed. |
| Lookup.DetectUzbek | bot.py:104-117 | The result is true iff the text is non-empty and either has a character in U+0400..U+04FF or has a lower-cased, punctuation-stripped token among the 20 Uzbek words. |
| Lookup.FindWordInfo | bot.py:145-150 | The result is None iff no key matches ignoring case. Otherwise it is the info of the first matching key. |
| Lookup.FieldLines | bot.py:155-164 | The part of speech, level, prefixes, suffixes and singular/plural lines each appear iff the field is present and non-empty, in that order, each showing its field. |
| Lookup.ExampleLines | bot.py:165-168 | The examples heading appears iff there are examples, followed by every example in order. |
| Lookup.FormatWordResponse | bot.py:152-171 | The word and translation lines come first. Without info there is nothing else. Each optional section appears iff its field is present and non-empty, sections keep the card's order, every line shows its own field, and the examples are listed in order. |

## Left out

- Telegram I/O is not modelled: messages, polls, menus, Markdown and emoji. Sends are returned as events; `Notice` names each message by meaning, not by its text.
- JSON file persistence is not modelled. The store is in memory, and `load_tracking`'s repair of a malformed file is not modelled.
- The GitHub fetch in `load_words`, the Flask webhook and trigger endpoints, `set_webhook` and `translate_dynamic` are not modelled, because they are network I/O.
- translator.py and send_quiz.py are not part of this model.
- Concurrency is not modelled: each operation runs alone on the store.
- Randomness and the clock are parameters.
- Content is modelled only as dictionary entries with string fields. A JSON `null` field is taken as absent, and non-dictionary word values, which `build_quiz_questions` skips or fails on, are not modelled.
- The "could not build a quiz" branch of `send_quiz_to_user` (`bot.py:358-359`) cannot be taken, because with words or phrases present the builder always returns a question. The model omits it.
- An exception from `random.choice` on a topic with no phrases ends `send_quiz_to_user` after the record was ensured. The daily count that `send_quiz_if_allowed` already saved stays consumed.
- Lookup.Lower: lower-cases ASCII letters only, because Unicode case mapping is not modelled.
- Lookup.FormatWordResponse: the card is a list of typed lines rather than text. Labels, the `", "` joins and the final `strip()` are not modelled.
- Lookup.FindWordInfo: takes the word list as a parameter instead of loading it.
