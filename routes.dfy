/**
 * The request handlers of routes.py over an in-memory record store. Each
 * handler is one atomic update (or read) of the store's tables; the session
 * dependency (`Depends(get_current_user)`) is `Session.GetCurrentUser`.
 */
module Routes {
  import opened Wrappers
  import opened Models
  import opened Schemas
  import opened Auth
  import opened Queries
  import opened Grading
  import opened Session

  /** The record store: one sequence per table, rows in insertion order. */
  class RecordStore {
    var users: seq<User>
    var quizzes: seq<Quiz>
    var questions: seq<Question>
    var choices: seq<Choice>
    var progress: seq<UserProgress>

    /** The table constraints: primary keys, and unique usernames. */
    ghost predicate Valid()
      reads this
    {
      DistinctIds(UserIds(users)) && UniqueUsernames(users) &&
      DistinctIds(QuizIds(quizzes)) && DistinctIds(QuestionIds(questions)) &&
      DistinctIds(ChoiceIds(choices)) && DistinctIds(ProgressIds(progress))
    }

    constructor (users: seq<User>, quizzes: seq<Quiz>, questions: seq<Question>,
                 choices: seq<Choice>, progress: seq<UserProgress>)
      requires DistinctIds(UserIds(users)) && UniqueUsernames(users)
      requires DistinctIds(QuizIds(quizzes)) && DistinctIds(QuestionIds(questions))
      requires DistinctIds(ChoiceIds(choices)) && DistinctIds(ProgressIds(progress))
      ensures Valid()
      ensures this.users == users && this.quizzes == quizzes && this.questions == questions
      ensures this.choices == choices && this.progress == progress
    {
      this.users := users;
      this.quizzes := quizzes;
      this.questions := questions;
      this.choices := choices;
      this.progress := progress;
    }

    /**
     * `signup`: a taken username raises "User already exists" and leaves the
     * user table as it was; otherwise exactly one user is appended, with the
     * given username, the hash of the password and a fresh id.
     */
    method Signup(auth: AuthService, username: string, password: string) returns (r: Result<string, HttpError>)
      requires Valid()
      modifies this`users
      ensures Valid()
      ensures HasUser(old(users), username) ==>
        r == Err(UserAlreadyExists) && users == old(users)
      ensures !HasUser(old(users), username) ==>
        r == Ok("User created") &&
        users == old(users) + [User(NextId(UserIds(old(users))), username, auth.hashPassword(password))]
    {
      var existing := FindUser(users, username);
      if existing.Some? {
        return Err(UserAlreadyExists);
      }
      var newUser := User(NextId(UserIds(users)), username, auth.hashPassword(password));
      AppendNextIdKeepsDistinct(UserIds(users));
      assert UserIds(users + [newUser]) == UserIds(users) + [newUser.id];
      users := users + [newUser];
      return Ok("User created");
    }

    /**
     * The grading loop of `submit_quiz`: the returned score is the number of
     * answers that name a question of quiz `quizId` and select its correct
     * option. The store is only read.
     */
    method Grade(quizId: int, answers: seq<Answer>) returns (score: nat)
      ensures score == Score(questions, quizId, answers)
    {
      score := 0;
      for i := 0 to |answers|
        invariant score == Score(questions, quizId, answers[..i])
      {
        var ans := answers[i];
        var q := FindQuestion(questions, ans.questionId, quizId);
        if q.Some? && questions[q.value].correctOption == ans.selectedOption {
          score := score + 1;
        }
        assert answers[..i + 1][..i] == answers[..i];
      }
      assert answers[..|answers|] == answers;
    }

    /**
     * `submit_quiz` for the session's user: grades the answers and appends
     * exactly one completed progress record carrying the returned score,
     * whatever the score and whether or not the quiz exists. Earlier progress
     * records and every other table are untouched.
     */
    method SubmitQuiz(user: User, quizId: int, answers: seq<Answer>) returns (score: nat)
      requires Valid()
      modifies this`progress
      ensures Valid()
      ensures score == Score(questions, quizId, answers)
      ensures score == |MatchingPositions(questions, quizId, answers)|
      ensures progress == old(progress) +
        [UserProgress(NextId(ProgressIds(old(progress))), user.id, quizId, score, true)]
    {
      score := Grade(quizId, answers);
      ScoreCountsMatchingAnswers(questions, quizId, answers);
      var record := UserProgress(NextId(ProgressIds(progress)), user.id, quizId, score, true);
      AppendNextIdKeepsDistinct(ProgressIds(progress));
      assert ProgressIds(progress + [record]) == ProgressIds(progress) + [record.id];
      progress := progress + [record];
    }

    /**
     * The body of `get_questions`: one entry per question of quiz `quizId`,
     * in store order, each carrying that question's id, text and the texts
     * of its options in store order. The store is only read.
     */
    method ListQuestions(quizId: int) returns (result: seq<QuestionOut>)
      ensures |result| == |QuestionsOfQuiz(questions, quizId)|
      ensures forall k :: 0 <= k < |result| ==>
        var q := QuestionsOfQuiz(questions, quizId)[k];
        result[k] == QuestionOut(q.id, q.text, OptionTexts(choices, q.id))
    {
      var qs := QuestionsOfQuiz(questions, quizId);
      result := [];
      for i := 0 to |qs|
        invariant |result| == i
        invariant forall k :: 0 <= k < i ==>
          result[k] == QuestionOut(qs[k].id, qs[k].text, OptionTexts(choices, qs[k].id))
      {
        var q := qs[i];
        result := result + [QuestionOut(q.id, q.text, OptionTexts(choices, q.id))];
      }
    }

    /** `get_quizzes`: the session is resolved first; then every quiz, unchanged. */
    method GetQuizzes(auth: AuthService, token: string) returns (r: Result<seq<Quiz>, HttpError>)
      ensures GetCurrentUser(auth, users, token).Err? ==>
        r == Err(GetCurrentUser(auth, users, token).error)
      ensures GetCurrentUser(auth, users, token).Ok? ==> r == Ok(quizzes)
    {
      var session := GetCurrentUser(auth, users, token);
      if session.Err? {
        return Err(session.error);
      }
      return Ok(quizzes);
    }

    /** `get_questions`: the session is resolved first; then the quiz's question listing. */
    method GetQuestions(auth: AuthService, token: string, quizId: int) returns (r: Result<seq<QuestionOut>, HttpError>)
      ensures GetCurrentUser(auth, users, token).Err? ==>
        r == Err(GetCurrentUser(auth, users, token).error)
      ensures GetCurrentUser(auth, users, token).Ok? ==>
        r.Ok? && |r.value| == |QuestionsOfQuiz(questions, quizId)| &&
        forall k :: 0 <= k < |r.value| ==>
          var q := QuestionsOfQuiz(questions, quizId)[k];
          r.value[k] == QuestionOut(q.id, q.text, OptionTexts(choices, q.id))
    {
      var session := GetCurrentUser(auth, users, token);
      if session.Err? {
        return Err(session.error);
      }
      var listing := ListQuestions(quizId);
      return Ok(listing);
    }

    /**
     * `submit_quiz` as a route: an unresolved session raises its error and
     * records nothing; a resolved one is graded and recorded under that
     * user's id.
     */
    method SubmitQuizRequest(auth: AuthService, token: string, quizId: int, answers: seq<Answer>)
      returns (r: Result<nat, HttpError>)
      requires Valid()
      modifies this`progress
      ensures Valid()
      ensures GetCurrentUser(auth, users, token).Err? ==>
        r == Err(GetCurrentUser(auth, users, token).error) && progress == old(progress)
      ensures GetCurrentUser(auth, users, token).Ok? ==>
        r == Ok(Score(questions, quizId, answers)) &&
        progress == old(progress) +
          [UserProgress(NextId(ProgressIds(old(progress))), GetCurrentUser(auth, users, token).value.id,
                        quizId, r.value, true)]
    {
      var session := GetCurrentUser(auth, users, token);
      if session.Err? {
        return Err(session.error);
      }
      var score := SubmitQuiz(session.value, quizId, answers);
      return Ok(score);
    }
  }

  /**
   * The signup, login and session round trip on a store: after `Signup`
   * succeeds, logging in with the same password gives a bearer token that
   * resolves to the user `Signup` appended.
   */
  method SignupThenLoginResolves(store: RecordStore, auth: AuthService, username: string, password: string)
    returns (signup: Result<string, HttpError>, login: Result<TokenResponse, HttpError>)
    requires store.Valid()
    requires auth.verifyPassword(password, auth.hashPassword(password))
    requires DecodesIssued(auth, Claims(Some(username)))
    modifies store`users
    ensures store.Valid()
    ensures signup.Ok? <==> !HasUser(old(store.users), username)
    ensures signup.Err? ==> store.users == old(store.users)
    ensures signup.Ok? ==>
      store.users == old(store.users) +
        [User(NextId(UserIds(old(store.users))), username, auth.hashPassword(password))]
    ensures signup.Ok? ==>
      |store.users| == |old(store.users)| + 1 &&
      login.Ok? && login.value.tokenType == "bearer" &&
      GetCurrentUser(auth, store.users, login.value.accessToken) == Ok(store.users[|store.users| - 1])
  {
    ghost var before := store.users;
    signup := store.Signup(auth, username, password);
    login := Login(auth, store.users, username, password);
    if signup.Ok? {
      var u := User(NextId(UserIds(before)), username, auth.hashPassword(password));
      assert store.users == before + [u];
      SignupLoginResolveRoundTrip(auth, before, username, password);
      assert store.users[|store.users| - 1] == u;
    }
  }

  /** The scores of the scenario below, computed on the question table alone. */
  lemma ScenarioScores(questions: seq<Question>)
    requires questions == [Question(1, 1, "A", "B"), Question(2, 1, "B", "C"), Question(3, 2, "C", "D")]
    ensures Score(questions, 1, [Answer(1, "B"), Answer(2, "X")]) == 1
    ensures Score(questions, 1, [Answer(1, "B"), Answer(1, "B")]) == 2
    ensures Score(questions, 1, [Answer(3, "D")]) == 0
  {
  }

  /**
   * A quiz with two questions (correct options "B" and "C") and a question
   * of another quiz: a half-right submission scores 1, a repeated correct
   * answer scores 2, an answer from the other quiz scores 0, and each
   * submission leaves its own progress record.
   */
  method SubmissionScenario() {
    var alice := User(1, "alice", "h");
    var questions := [Question(1, 1, "A", "B"), Question(2, 1, "B", "C"), Question(3, 2, "C", "D")];
    ScenarioScores(questions);
    var store := new RecordStore([alice], [Quiz(1, "one"), Quiz(2, "two")], questions, [], []);
    var s1 := store.SubmitQuiz(alice, 1, [Answer(1, "B"), Answer(2, "X")]);
    assert s1 == 1;
    var s2 := store.SubmitQuiz(alice, 1, [Answer(1, "B"), Answer(1, "B")]);
    assert s2 == 2;
    var s3 := store.SubmitQuiz(alice, 1, [Answer(3, "D")]);
    assert s3 == 0;
    assert |store.progress| == 3;
    assert store.progress[0].score == 1 && store.progress[1].score == 2 && store.progress[2].score == 0;
  }
}
