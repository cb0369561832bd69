/**
 * The quiz session controller (bot.py): starting a quiz, building the
 * question message with its answer keyboard, and handling an answer.
 *
 * The question bank is an immutable sequence passed to every handler; each
 * handler is one sequential step over the progress store and returns the
 * messages it would send instead of sending them.
 */
module Bot {
  import opened Wrappers
  import opened Database

  /** One entry of the question bank: text, options in order, index of the right option. */
  datatype Question = Question(text: string, options: seq<string>, correctOption: nat)

  /** The callback data of an answer button. */
  datatype Tag = RightAnswer | WrongAnswer

  /** An inline keyboard button: the option text shown and the tag sent back when pressed. */
  datatype Button = Button(text: string, tag: Tag)

  /** A message the bot sends to the user. */
  datatype Outgoing =
    | QuestionMsg(text: string, keyboard: seq<Button>)  // the question with one button per option
    | RightReply                                         // the reply to a right answer
    | WrongReply(correctAnswer: string)                  // the reply to a wrong answer, naming the right option
    | Summary(correct: nat, total: nat)                  // the final result after the last question

  /** The string carried as `callback_data`. */
  function CallbackData(tag: Tag): string
  {
    match tag
    case RightAnswer => "right_answer"
    case WrongAnswer => "wrong_answer"
  }

  /** The answer handler's filter: only the two tag strings reach it. */
  function TagOfCallback(data: string): (r: Option<Tag>)
    ensures r.Some? <==> data == "right_answer" || data == "wrong_answer"
    ensures r.Some? ==> CallbackData(r.value) == data
    ensures forall tag: Tag :: data == CallbackData(tag) ==> r == Some(tag)
  {
    if data == "right_answer" then Some(RightAnswer)
    else if data == "wrong_answer" then Some(WrongAnswer)
    else None
  }

  /** The tag rule: an option is right exactly when its text equals the right answer's text. */
  function TagFor(option: string, rightAnswer: string): Tag
  {
    if option == rightAnswer then RightAnswer else WrongAnswer
  }

  /**
   * `kb` is a keyboard for `options`: one button per option, in order, with
   * the option's text, tagged right exactly when that text is `rightAnswer`.
   */
  ghost predicate IsKeyboardFor(kb: seq<Button>, options: seq<string>, rightAnswer: string)
  {
    |kb| == |options| &&
    forall j :: 0 <= j < |kb| ==>
      kb[j].text == options[j] && (kb[j].tag == RightAnswer <==> options[j] == rightAnswer)
  }

  /** Question `i` can be shown: it is in the bank and its right option exists. */
  ghost predicate Askable(bank: seq<Question>, i: int)
  {
    0 <= i < |bank| && bank[i].correctOption < |bank[i].options|
  }

  /** The right option's text of question `i`. */
  function RightText(bank: seq<Question>, i: int): string
    requires 0 <= i < |bank| && bank[i].correctOption < |bank[i].options|
  {
    bank[i].options[bank[i].correctOption]
  }

  /** `msg` is the message that shows question `i`. */
  ghost predicate IsQuestionMsg(msg: Outgoing, bank: seq<Question>, i: int)
    requires Askable(bank, i)
  {
    msg.QuestionMsg? && msg.text == bank[i].text &&
    IsKeyboardFor(msg.keyboard, bank[i].options, RightText(bank, i)) &&
    msg.keyboard[bank[i].correctOption].tag == RightAnswer
  }

  /** `generate_options_keyboard`: one button per option, added in a loop. */
  method GenerateOptionsKeyboard(answerOptions: seq<string>, rightAnswer: string) returns (kb: seq<Button>)
    ensures IsKeyboardFor(kb, answerOptions, rightAnswer)
  {
    kb := [];
    for i := 0 to |answerOptions|
      invariant |kb| == i
      invariant forall j :: 0 <= j < i ==> kb[j] == Button(answerOptions[j], TagFor(answerOptions[j], rightAnswer))
    {
      var option := answerOptions[i];
      kb := kb + [Button(option, TagFor(option, rightAnswer))];
    }
  }

  /**
   * `get_question`: reads the stored index and builds the message for that
   * question, passing the right option's own text as the right answer, so the
   * button at the right option is always tagged right.
   */
  method GetQuestion(store: ProgressStore, bank: seq<Question>, user: UserId) returns (msg: Outgoing)
    requires IndexOf(store.rows, user).Some? && Askable(bank, IndexOf(store.rows, user).value)
    ensures IsQuestionMsg(msg, bank, IndexOf(store.rows, user).value)
  {
    var currentQuestionIndex := store.GetQuizIndex(user);
    var i := currentQuestionIndex.value;
    var correctIndex := bank[i].correctOption;
    var opts := bank[i].options;
    var kb := GenerateOptionsKeyboard(opts, opts[correctIndex]);
    msg := QuestionMsg(bank[i].text, kb);
  }

  /** `new_quiz`: stores index 0 for the user, keeping the counter, and shows the first question. */
  method NewQuiz(store: ProgressStore, bank: seq<Question>, user: UserId) returns (msg: Outgoing)
    requires Askable(bank, 0)
    modifies store
    ensures store.rows == WithIndex(old(store.rows), user, 0)
    ensures IndexOf(store.rows, user) == Some(0)
    ensures CorrectOf(store.rows, user) == CorrectOf(old(store.rows), user)
    ensures IsQuestionMsg(msg, bank, 0)
  {
    var currentQuestionIndex := 0;
    store.UpdateQuizIndex(user, currentQuestionIndex);
    msg := GetQuestion(store, bank, user);
  }

  /** The user has a stored index whose question can be answered, and the next one, if any, can be shown. */
  ghost predicate CanAnswer(t: Table, bank: seq<Question>, user: UserId)
  {
    IndexOf(t, user).Some? &&
    Askable(bank, IndexOf(t, user).value) &&
    (IndexOf(t, user).value + 1 < |bank| ==> Askable(bank, IndexOf(t, user).value + 1))
  }

  /**
   * The store's effect of answering with `tag`: one more right answer when the
   * tag is right, and the index advanced by exactly one either way; no other
   * user's row changes.
   */
  function AnswerStep(t: Table, user: UserId, tag: Tag): (r: Table)
    requires IndexOf(t, user).Some?
    ensures IndexOf(r, user) == Some(IndexOf(t, user).value + 1)
    ensures CorrectOf(r, user) == CorrectOf(t, user) + (if tag == RightAnswer then 1 else 0)
    ensures r.Keys == t.Keys
    ensures forall u :: u in t && u != user ==> r[u] == t[u]
  {
    var tallied := if tag == RightAnswer then WithRightAnswer(t, user) else t;
    WithIndex(tallied, user, IndexOf(t, user).value + 1)
  }

  /**
   * `answer`: replies right or wrong (naming the right option), counts a right
   * answer, stores the next index, then shows the next question while one is
   * left and otherwise reports the stored count out of the bank size.
   */
  method Answer(store: ProgressStore, bank: seq<Question>, user: UserId, userAnswer: Tag)
    returns (reply: Outgoing, next: Outgoing)
    requires CanAnswer(store.rows, bank, user)
    modifies store
    ensures store.rows == AnswerStep(old(store.rows), user, userAnswer)
    ensures IndexOf(store.rows, user) == Some(IndexOf(old(store.rows), user).value + 1)
    ensures CorrectOf(store.rows, user) == CorrectOf(old(store.rows), user) + (if userAnswer == RightAnswer then 1 else 0)
    ensures reply == if userAnswer == RightAnswer then RightReply
                     else WrongReply(RightText(bank, IndexOf(old(store.rows), user).value))
    ensures IndexOf(store.rows, user).value < |bank| ==> IsQuestionMsg(next, bank, IndexOf(store.rows, user).value)
    ensures IndexOf(store.rows, user).value >= |bank| ==> next == Summary(CorrectOf(store.rows, user), |bank|)
  {
    var found := store.GetQuizIndex(user);
    var currentQuestionIndex := found.value;
    var correctAnswerIndex := bank[currentQuestionIndex].correctOption;
    var correctAnswer := bank[currentQuestionIndex].options[correctAnswerIndex];

    if userAnswer == RightAnswer {
      reply := RightReply;
      store.UpdateRightAnswer(user);
    } else {
      reply := WrongReply(correctAnswer);
    }

    currentQuestionIndex := currentQuestionIndex + 1;
    store.UpdateQuizIndex(user, currentQuestionIndex);

    if currentQuestionIndex < |bank| {
      next := GetQuestion(store, bank, user);
    } else {
      var statistics := store.GetRightAnswers(user);
      next := Summary(statistics, |bank|);
    }
  }

  /** The number of right tags among the answers given. */
  function CountRight(tags: seq<Tag>): nat
  {
    if tags == [] then 0 else (if tags[0] == RightAnswer then 1 else 0) + CountRight(tags[1..])
  }

  /** The store after answering with each tag of `tags` in turn. */
  function Replay(t: Table, user: UserId, tags: seq<Tag>): Table
    requires IndexOf(t, user).Some?
    decreases |tags|
  {
    if tags == [] then t else Replay(AnswerStep(t, user, tags[0]), user, tags[1..])
  }

  /** Answering k times advances the index by k and adds the number of right tags to the counter. */
  lemma {:induction false} ReplayAdvances(t: Table, user: UserId, tags: seq<Tag>)
    requires IndexOf(t, user).Some?
    ensures IndexOf(Replay(t, user, tags), user) == Some(IndexOf(t, user).value + |tags|)
    ensures CorrectOf(Replay(t, user, tags), user) == CorrectOf(t, user) + CountRight(tags)
    ensures Replay(t, user, tags).Keys == t.Keys
    ensures forall u :: u in t && u != user ==> Replay(t, user, tags)[u] == t[u]
  {
    if tags != [] {
      ReplayAdvances(AnswerStep(t, user, tags[0]), user, tags[1..]);
    }
  }

  /**
   * A whole run: after `new_quiz` and one answer per question, the index is the
   * bank size and the counter rose by the number of right answers, from
   * whatever it was before the run (it is never reset).
   */
  lemma FullRun(t: Table, user: UserId, tags: seq<Tag>, n: nat)
    requires |tags| == n
    ensures IndexOf(Replay(WithIndex(t, user, 0), user, tags), user) == Some(n)
    ensures CorrectOf(Replay(WithIndex(t, user, 0), user, tags), user) == CorrectOf(t, user) + CountRight(tags)
  {
    ReplayAdvances(WithIndex(t, user, 0), user, tags);
  }

  /** Replaying one more answer is one more answer step after the replay so far. */
  lemma {:induction false} ReplaySnoc(t: Table, user: UserId, tags: seq<Tag>, tag: Tag)
    requires IndexOf(t, user).Some?
    ensures IndexOf(Replay(t, user, tags), user).Some?
    ensures Replay(t, user, tags + [tag]) == AnswerStep(Replay(t, user, tags), user, tag)
    decreases |tags|
  {
    ReplayAdvances(t, user, tags);
    if tags != [] {
      assert (tags + [tag])[1..] == tags[1..] + [tag];
      ReplaySnoc(AnswerStep(t, user, tags[0]), user, tags[1..], tag);
    } else {
      assert [tag][1..] == [];
    }
  }

  /**
   * A whole run through the handlers: `new_quiz`, then one answer per question
   * with the given tags. Every answer finds its question in place, and the
   * last message is the summary of the counter as it was before the run plus
   * the right answers, out of the bank size.
   */
  method PlayQuiz(store: ProgressStore, bank: seq<Question>, user: UserId, tags: seq<Tag>) returns (last: Outgoing)
    requires 0 < |bank| && |tags| == |bank|
    requires forall i :: 0 <= i < |bank| ==> Askable(bank, i)
    modifies store
    ensures store.rows == Replay(WithIndex(old(store.rows), user, 0), user, tags)
    ensures IndexOf(store.rows, user) == Some(|bank|)
    ensures last == Summary(CorrectOf(old(store.rows), user) + CountRight(tags), |bank|)
  {
    ghost var start := WithIndex(store.rows, user, 0);
    ghost var before := CorrectOf(store.rows, user);
    last := NewQuiz(store, bank, user);
    for k := 0 to |tags|
      invariant store.rows == Replay(start, user, tags[..k])
      invariant IndexOf(store.rows, user) == Some(k)
      invariant CorrectOf(store.rows, user) == before + CountRight(tags[..k])
      invariant k == |tags| ==> last == Summary(CorrectOf(store.rows, user), |bank|)
    {
      var reply;
      reply, last := Answer(store, bank, user, tags[k]);
      ReplaySnoc(start, user, tags[..k], tags[k]);
      assert tags[..k + 1] == tags[..k] + [tags[k]];
      ReplayAdvances(start, user, tags[..k + 1]);
    }
    assert tags[..|tags|] == tags;
  }

  /** Every stored index lies in [0, n]. */
  ghost predicate IndicesWithin(t: Table, n: nat)
  {
    forall u :: u in t && t[u].questionIndex.Some? ==> 0 <= t[u].questionIndex.value <= n
  }

  /** The handlers keep every stored index within [0, |bank|]. */
  lemma HandlersKeepIndicesWithin(t: Table, bank: seq<Question>, user: UserId, tag: Tag)
    requires IndicesWithin(t, |bank|)
    ensures IndicesWithin(WithIndex(t, user, 0), |bank|)
    ensures IndicesWithin(WithRightAnswer(t, user), |bank|)
    ensures CanAnswer(t, bank, user) ==> IndicesWithin(AnswerStep(t, user, tag), |bank|)
  {
  }

  /**
   * A user with no progress takes a three-question quiz, answers wrong, right,
   * right and is told 2 out of 3; starting again resets the index to 0 and
   * keeps the count of 2.
   */
  method ThreeQuestionRun(bank: seq<Question>, user: UserId) returns (summary: Outgoing, indexAfterRestart: Option<int>, countAfterRestart: nat)
    requires |bank| == 3 && Askable(bank, 0) && Askable(bank, 1) && Askable(bank, 2)
    ensures summary == Summary(2, 3)
    ensures indexAfterRestart == Some(0) && countAfterRestart == 2
  {
    var store := new ProgressStore();
    var first := NewQuiz(store, bank, user);
    var reply1, next1 := Answer(store, bank, user, WrongAnswer);
    var reply2, next2 := Answer(store, bank, user, RightAnswer);
    var reply3, next3 := Answer(store, bank, user, RightAnswer);
    summary := next3;
    var again := NewQuiz(store, bank, user);
    indexAfterRestart := store.GetQuizIndex(user);
    countAfterRestart := store.GetRightAnswers(user);
  }
}
