/**
 * Grading of a quiz submission (routes.py:79-83): every submitted answer
 * earns one point when the question it names belongs to the quiz being
 * graded and its correct option equals the selected option exactly.
 */
module Grading {
  import opened Wrappers
  import opened Models
  import opened Schemas
  import opened Queries

  /**
   * The point one answer earns: the first question with that id in quiz
   * `quizId` is looked up, and the answer scores when its selected option is
   * that question's correct option, character for character.
   */
  function Credit(questions: seq<Question>, quizId: int, a: Answer): (c: nat)
    ensures c <= 1
    ensures c == 1 ==> AnswerMatches(questions, quizId, a)
  {
    match FindQuestion(questions, a.questionId, quizId)
    case None => 0
    case Some(i) => if questions[i].correctOption == a.selectedOption then 1 else 0
  }

  /** The score of a whole submission, answer by answer in submission order. */
  function Score(questions: seq<Question>, quizId: int, answers: seq<Answer>): (r: nat)
    ensures r <= |answers|
    decreases |answers|
  {
    if |answers| == 0 then 0
    else Score(questions, quizId, answers[..|answers| - 1]) + Credit(questions, quizId, answers[|answers| - 1])
  }

  /**
   * Reference reading of a correct answer: some question of quiz `quizId`
   * has the answer's question id and the selected option as its correct one.
   */
  ghost predicate AnswerMatches(questions: seq<Question>, quizId: int, a: Answer) {
    exists q :: q in questions && q.id == a.questionId && q.quizId == quizId &&
                q.correctOption == a.selectedOption
  }

  /** The positions in the submission that hold a correct answer. */
  ghost function MatchingPositions(questions: seq<Question>, quizId: int, answers: seq<Answer>): set<int> {
    set i | 0 <= i < |answers| && AnswerMatches(questions, quizId, answers[i])
  }

  /** Scores add up over a split submission. */
  lemma {:induction false} ScoreAppend(questions: seq<Question>, quizId: int, a: seq<Answer>, b: seq<Answer>)
    ensures Score(questions, quizId, a + b) == Score(questions, quizId, a) + Score(questions, quizId, b)
    decreases |b|
  {
    if |b| == 0 {
      assert a + b == a;
    } else {
      var n := |b| - 1;
      assert (a + b)[..|a + b| - 1] == a + b[..n];
      assert (a + b)[|a + b| - 1] == b[n];
      ScoreAppend(questions, quizId, a, b[..n]);
    }
  }

  /** A single answer scores its credit. */
  lemma ScoreSingle(questions: seq<Question>, quizId: int, x: Answer)
    ensures Score(questions, quizId, [x]) == Credit(questions, quizId, x)
  {
  }

  /** Wherever an answer stands in a submission, it adds its own credit. */
  lemma ScoreInsert(questions: seq<Question>, quizId: int, a: seq<Answer>, x: Answer, b: seq<Answer>)
    ensures Score(questions, quizId, a + [x] + b) ==
            Score(questions, quizId, a + b) + Credit(questions, quizId, x)
  {
    ScoreAppend(questions, quizId, a + [x], b);
    ScoreAppend(questions, quizId, a, [x]);
    ScoreAppend(questions, quizId, a, b);
    ScoreSingle(questions, quizId, x);
  }

  /**
   * Repeated answers are not deduplicated: submitting the same answer twice
   * adds its credit twice, so a repeated correct answer adds 2.
   */
  lemma DuplicateAnswerCountedTwice(questions: seq<Question>, quizId: int, a: seq<Answer>, x: Answer, b: seq<Answer>)
    ensures Score(questions, quizId, a + [x, x] + b) ==
            Score(questions, quizId, a + b) + 2 * Credit(questions, quizId, x)
  {
    assert a + [x, x] + b == (a + [x]) + [x] + b;
    ScoreInsert(questions, quizId, a + [x], x, b);
    ScoreInsert(questions, quizId, a, x, b);
  }

  /**
   * An answer naming a question that is not in the graded quiz (of another
   * quiz, or no question at all) contributes nothing.
   */
  lemma ForeignAnswerScoresNothing(questions: seq<Question>, quizId: int, a: seq<Answer>, x: Answer, b: seq<Answer>)
    requires forall i :: 0 <= i < |questions| && questions[i].id == x.questionId ==> questions[i].quizId != quizId
    ensures Score(questions, quizId, a + [x] + b) == Score(questions, quizId, a + b)
  {
    ScoreInsert(questions, quizId, a, x, b);
  }

  /**
   * When question ids are unique (their primary key), the first-match lookup
   * agrees with the reference reading: an answer earns a point exactly when
   * some question of the quiz has its id and its selected option as the
   * correct one.
   */
  lemma CreditIffMatches(questions: seq<Question>, quizId: int, a: Answer)
    requires DistinctIds(QuestionIds(questions))
    ensures Credit(questions, quizId, a) == 1 <==> AnswerMatches(questions, quizId, a)
  {
    if AnswerMatches(questions, quizId, a) {
      var q :| q in questions && q.id == a.questionId && q.quizId == quizId &&
               q.correctOption == a.selectedOption;
      var k :| 0 <= k < |questions| && questions[k] == q;
      var r := FindQuestion(questions, a.questionId, quizId);
      assert r.Some?;
      var i := r.value;
      assert QuestionIds(questions)[i] == QuestionIds(questions)[k];
    }
  }

  /**
   * The score is the number of submitted answers, counted by position (so
   * with multiplicity), that name a question of the graded quiz whose
   * correct option they select.
   */
  lemma {:induction false} ScoreCountsMatchingAnswers(questions: seq<Question>, quizId: int, answers: seq<Answer>)
    requires DistinctIds(QuestionIds(questions))
    ensures Score(questions, quizId, answers) == |MatchingPositions(questions, quizId, answers)|
    decreases |answers|
  {
    if |answers| == 0 {
      assert MatchingPositions(questions, quizId, answers) == {};
    } else {
      var n := |answers| - 1;
      var prefix := answers[..n];
      ScoreCountsMatchingAnswers(questions, quizId, prefix);
      CreditIffMatches(questions, quizId, answers[n]);
      var before := MatchingPositions(questions, quizId, prefix);
      var after := MatchingPositions(questions, quizId, answers);
      assert n !in before;
      if AnswerMatches(questions, quizId, answers[n]) {
        assert after == before + {n};
      } else {
        assert after == before;
      }
    }
  }
}
