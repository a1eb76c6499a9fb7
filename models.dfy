/**
 * The tables of the quiz service's record store (models.py), one datatype per
 * table. Column names follow the source; foreign keys are plain ids.
 */
module Models {

  /** A row of `users`: `username` is declared unique (models.py:9). */
  datatype User = User(id: int, username: string, hashedPassword: string)

  /** A row of `quizzes`. */
  datatype Quiz = Quiz(id: int, title: string)

  /** A row of `questions`; `correctOption` is the authoritative answer. */
  datatype Question = Question(id: int, quizId: int, text: string, correctOption: string)

  /** A row of `options` (the `Option` table): a display-only answer text. */
  datatype Choice = Choice(id: int, questionId: int, text: string)

  /** A row of `progress`: one per quiz submission. */
  datatype UserProgress = UserProgress(id: int, userId: int, quizId: int, score: int, completed: bool)

  function UserIds(users: seq<User>): seq<int> {
    seq(|users|, i requires 0 <= i < |users| => users[i].id)
  }

  function QuizIds(quizzes: seq<Quiz>): seq<int> {
    seq(|quizzes|, i requires 0 <= i < |quizzes| => quizzes[i].id)
  }

  function QuestionIds(questions: seq<Question>): seq<int> {
    seq(|questions|, i requires 0 <= i < |questions| => questions[i].id)
  }

  function ChoiceIds(choices: seq<Choice>): seq<int> {
    seq(|choices|, i requires 0 <= i < |choices| => choices[i].id)
  }

  function ProgressIds(progress: seq<UserProgress>): seq<int> {
    seq(|progress|, i requires 0 <= i < |progress| => progress[i].id)
  }

  /** No id occurs twice: the primary-key constraint of a table. */
  predicate DistinctIds(ids: seq<int>) {
    forall i, j :: 0 <= i < j < |ids| ==> ids[i] != ids[j]
  }

  /** No username occurs twice: the unique constraint on `users.username`. */
  predicate UniqueUsernames(users: seq<User>) {
    forall i, j :: 0 <= i < j < |users| ==> users[i].username != users[j].username
  }

  /**
   * The id the store gives a new row of a table whose ids are `ids`: one
   * above the largest id, or 1 for an empty table.
   */
  function NextId(ids: seq<int>): (r: int)
    ensures forall i :: 0 <= i < |ids| ==> ids[i] < r
    ensures |ids| == 0 ==> r == 1
    ensures |ids| > 0 ==> r - 1 in ids
  {
    if |ids| == 0 then 1
    else
      var rest := NextId(ids[1..]);
      if |ids| == 1 || rest < ids[0] + 1 then ids[0] + 1 else rest
  }

  /** Appending a row whose id is `NextId` keeps the ids distinct. */
  lemma AppendNextIdKeepsDistinct(ids: seq<int>)
    requires DistinctIds(ids)
    ensures DistinctIds(ids + [NextId(ids)])
  {
  }
}
