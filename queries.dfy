/**
 * The record-store queries the handlers issue: `.filter(...).first()`
 * becomes a first-match search, `.filter_by(...).all()` a filter that keeps
 * store order.
 */
module Queries {
  import opened Wrappers
  import opened Models

  /** `i` is the position of the first user named `name`. */
  predicate FirstWithUsername(users: seq<User>, i: int, name: string) {
    0 <= i < |users| && users[i].username == name &&
    forall j :: 0 <= j < i ==> users[j].username != name
  }

  ghost predicate HasUser(users: seq<User>, name: string) {
    exists i :: 0 <= i < |users| && users[i].username == name
  }

  /** The first user whose username is `name` (routes.py:31, 39, 51). */
  function FindUser(users: seq<User>, name: string): (r: Option<nat>)
    ensures r.Some? ==> FirstWithUsername(users, r.value, name)
    ensures r.None? <==> !HasUser(users, name)
    decreases |users|
  {
    if |users| == 0 then None
    else if users[0].username == name then Some(0)
    else match FindUser(users[1..], name)
      case None => None
      case Some(k) => Some(k + 1)
  }

  /** With unique usernames, the first user of a name is the only one. */
  lemma FirstUserIsOnlyUser(users: seq<User>, i: int, name: string)
    requires UniqueUsernames(users)
    requires FirstWithUsername(users, i, name)
    ensures forall k :: 0 <= k < |users| && users[k].username == name ==> k == i
  {
  }

  /** `i` is the position of the first question with id `id` in quiz `quizId`. */
  predicate FirstQuestionIn(questions: seq<Question>, i: int, id: int, quizId: int) {
    0 <= i < |questions| && questions[i].id == id && questions[i].quizId == quizId &&
    forall j :: 0 <= j < i ==> !(questions[j].id == id && questions[j].quizId == quizId)
  }

  /** The first question with id `id` and quiz `quizId` (routes.py:81). */
  function FindQuestion(questions: seq<Question>, id: int, quizId: int): (r: Option<nat>)
    ensures r.Some? ==> FirstQuestionIn(questions, r.value, id, quizId)
    ensures r.None? ==>
      forall j :: 0 <= j < |questions| ==> !(questions[j].id == id && questions[j].quizId == quizId)
    decreases |questions|
  {
    if |questions| == 0 then None
    else if questions[0].id == id && questions[0].quizId == quizId then Some(0)
    else match FindQuestion(questions[1..], id, quizId)
      case None => None
      case Some(k) => Some(k + 1)
  }

  /** The questions of quiz `quizId`, in store order (routes.py:65). */
  function QuestionsOfQuiz(questions: seq<Question>, quizId: int): (r: seq<Question>)
    ensures |r| <= |questions|
    ensures forall q :: q in r <==> q in questions && q.quizId == quizId
    decreases |questions|
  {
    if |questions| == 0 then []
    else
      (if questions[0].quizId == quizId then [questions[0]] else []) +
      QuestionsOfQuiz(questions[1..], quizId)
  }

  /** Filtering a concatenation filters each part and keeps them in order. */
  lemma {:induction false} QuestionsOfQuizAppend(a: seq<Question>, b: seq<Question>, quizId: int)
    ensures QuestionsOfQuiz(a + b, quizId) == QuestionsOfQuiz(a, quizId) + QuestionsOfQuiz(b, quizId)
    decreases |a|
  {
    if |a| == 0 {
      assert a + b == b;
    } else {
      assert (a + b)[1..] == a[1..] + b;
      QuestionsOfQuizAppend(a[1..], b, quizId);
    }
  }

  /**
   * The texts of the options of question `questionId`, in store order
   * (routes.py:68, 72).
   */
  function OptionTexts(choices: seq<Choice>, questionId: int): (r: seq<string>)
    ensures |r| <= |choices|
    ensures forall t :: t in r <==>
      exists c :: c in choices && c.questionId == questionId && c.text == t
    decreases |choices|
  {
    if |choices| == 0 then []
    else
      (if choices[0].questionId == questionId then [choices[0].text] else []) +
      OptionTexts(choices[1..], questionId)
  }

  /** Listing the options of a concatenation lists each part in order. */
  lemma {:induction false} OptionTextsAppend(a: seq<Choice>, b: seq<Choice>, questionId: int)
    ensures OptionTexts(a + b, questionId) == OptionTexts(a, questionId) + OptionTexts(b, questionId)
    decreases |a|
  {
    if |a| == 0 {
      assert a + b == b;
    } else {
      assert (a + b)[1..] == a[1..] + b;
      OptionTextsAppend(a[1..], b, questionId);
    }
  }
}
