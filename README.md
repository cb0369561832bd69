# Quiz bot progress model

A model of the Async-Quiz-Bot core: a per-user quiz state machine over a
small progress table.

- **Progress store** (`database.dfy`, module `Database`). The `quiz_state`
  table is a `map<UserId, Row>`, so a user has at most one row. Each row holds
  a nullable question index (`Option<int>`) and a right-answer counter (`nat`,
  default 0). The class `ProgressStore` keeps the table in its one field
  `rows`. Its two write methods update that field in place. Each write is
  specified by a pure function that gives the resulting table: `WithIndex` for
  the index upsert, `WithRightAnswer` for the increment-or-insert. The two
  getters only read.
- **Session controller** (`bot.dfy`, module `Bot`). The question bank is an
  immutable `seq<Question>` passed to each handler. `GenerateOptionsKeyboard`
  builds the answer buttons in a loop and tags each one by comparing its text
  with the right option's text. `GetQuestion`, `NewQuiz` and `Answer` read and
  write the store step by step, in the same order as the handlers do. They
  return the messages the bot would send as `Outgoing` values. `AnswerStep`
  gives the store's effect of one answer, and `Replay` applies a whole
  sequence of answers. The lemmas about them, and the method `PlayQuiz`
  that drives the handlers through a whole run, cover a full quiz.

`wrappers.dfy` holds the `Option` type.

Three facts about the source shape the model:
- The handlers have no error results. An answer with no stored index, an
  index past the end of the bank, or an empty bank make the handler fail by
  indexing. These cases are therefore preconditions (`CanAnswer`, `Askable`).
- The increment is a separate UPDATE followed by a conditional INSERT, not one
  atomic statement.
- Starting a quiz resets only the index. The counter carries over between runs.

## Model

| member | source | states |
|---|---|---|
| Database.WithIndex | database.py:21-33 | The upsert leaves exactly one row for the user, holding the given index. A new row gets counter 0 (the column default). An existing row keeps its counter. Every other row is unchanged. |
| Database.WithRightAnswer | database.py:36-55 | An existing row's counter rises by exactly 1 and its index is kept. A user with no row gets one with counter 1 and a NULL index. Every other row is unchanged. |
| Database.ReadAfterIndexWrite | database.py:21-33 | After an index write, reading the index gives the value written and reading the counter gives the old count. Reads for other users are unaffected. |
| Database.ReadAfterRightAnswer | database.py:36-55 | After a right-answer write, the counter reads one higher and the index reads the same. Reads for other users are unaffected. |
| Database.ProgressStore.constructor | database.py:6-18 | Creating the table on a new database gives the empty table. |
| Database.ProgressStore.UpdateQuizIndex | database.py:21-33 | Performs the upsert in place. The new table is `WithIndex` of the old one. |
| Database.ProgressStore.UpdateRightAnswer | database.py:36-55 | Runs the UPDATE and then, only when it changed no row, the INSERT of counter 1. The new table is `WithRightAnswer` of the old one. |
| Database.ProgressStore.GetQuizIndex | database.py:58-68 | Returns the stored index. Returns None when the user has no row or the index is NULL. It modifies nothing, so repeated reads agree. |
| Database.ProgressStore.GetRightAnswers | database.py:71-81 | Returns the stored counter, or 0 when the user has no row. It modifies nothing, so repeated reads agree. |
| Bot.TagOfCallback | bot.py:83 | The answer handler accepts exactly the two tag strings. Each accepted string is the callback data of the tag it yields. |
| Bot.GenerateOptionsKeyboard | bot.py:65-80 | One button per option, in the original order, with the option's text. A button is tagged right iff its text equals the right answer, so every duplicate of that text is tagged right too. |
| Bot.GetQuestion | bot.py:53-62 | Shows the question at the stored index, with its keyboard built against that question's right option text. The button at the right option's position is tagged right. |
| Bot.NewQuiz | bot.py:45-50 | The stored index becomes 0. The user's counter is unchanged (not reset). Other rows follow `WithIndex`. The first question is shown. |
| Bot.AnswerStep | bot.py:110-120 | One answer raises the counter by 1 on a right tag and leaves it otherwise. It always advances the index by exactly 1. No other user's row changes and no row is added or removed. |
| Bot.Answer | bot.py:84-129 | The store ends as `AnswerStep` leaves it. The reply is the right-answer reply, or the wrong-answer reply naming the right option's text. The next message is the question at the new index iff that index is below the bank size. Otherwise it is the summary (stored count, bank size). |
| Bot.ReplayAdvances | bot.py:110-120 | Answering k times advances the index by k and adds the number of right tags to the counter. Other users' rows are unchanged. |
| Bot.FullRun | bot.py:45-129 | After starting a quiz and answering once per question, the index equals the bank size. The counter equals its value before the run plus the number of right tags. |
| Bot.PlayQuiz | bot.py:45-129 | Starting a quiz and then answering once per question through the handlers never crashes: each answer finds its question and the next one in place. The store ends as the replay of those answers, the index is the bank size, and the last message is the summary of the counter before the run plus the right answers, out of the bank size. |
| Bot.HandlersKeepIndicesWithin | bot.py:119-120 | Starting a quiz, counting a right answer and answering each keep every stored index within 0 to the bank size. |
| Bot.ThreeQuestionRun | bot.py:45-129 | A new user answering wrong, right, right on a three-question bank is told 2 out of 3. Starting again stores index 0 and keeps the count of 2. |

## Left out

- Chat transport: the aiogram `Bot` and `Dispatcher`, handler registration, `cmd_start` with its reply keyboard and greeting, the greeting in `cmd_quiz`, `message.answer`, the "disabled" echo button, `edit_message_reply_markup`, keyboard layout (`adjust(1)`) and polling. Messages are returned as values, and their Russian texts are not modelled.
- Database plumbing: `aiosqlite` connections, `commit`, durability, `DB_NAME` and the dotenv token. The constructor models `create_table` on a new file only. On an existing file, `IF NOT EXISTS` keeps the old rows.
- Concurrency: each handler is one atomic sequential step. The lost update that can happen when two answer callbacks for the same user interleave is not modelled.
- The bank's contents (`questions.py`) are not part of this model. The bank is an arbitrary sequence, and only the questions a handler indexes must have their right option in range.
- Python's negative list indexing is not modelled. `HandlersKeepIndicesWithin` shows that the handlers never store an index outside 0 to the bank size.
- SQLite's 64-bit integer limit on the counter and index is not modelled. Both are unbounded.
- Crash paths are preconditions, not results: an answer with no stored index, an index at or past the bank size, and an empty bank. In the source, `new_quiz` on an empty bank commits index 0 before it fails. The model does not allow that call at all.
- Bot.Answer: takes the decoded `Tag`. The string-to-tag filter on the callback data is modelled separately as `TagOfCallback`.
