# Quiz service handlers: a verified model

This project models the request handlers of a small quiz service (routes.py):
signup, login, resolving the session user from a bearer token, listing
quizzes and a quiz's questions, and submitting answers for grading. The
tables of models.py (`User`, `Quiz`, `Question`, `Option`, `UserProgress`)
are datatypes held in sequences by a `RecordStore` class; the ORM queries
are first-match searches (`.first()`) and order-keeping filters (`.all()`)
over those sequences. Each handler is one atomic update or read of the store.

Modules:

- `Wrappers` (wrappers.dfy): `Option` and `Result`.
- `Models` (models.dfy): one datatype per table, the primary-key and
  unique-username constraints, and `NextId`, the id the store gives a new row.
- `Schemas` (schemas.dfy): `Answer`, `QuestionOut` (which has no field for
  the correct option), `TokenResponse`, and the handlers' `HttpError`s with
  the status codes and detail texts of the source.
- `Auth` (auth.dfy): the foreign helpers (`hash_password`, `verify_password`,
  `create_access_token`, `jwt.decode`) as function-valued fields of an
  `AuthService` value that the handlers take as a parameter.
- `Queries` (queries.dfy): the record-store queries.
- `Grading` (grading.dfy): the score of a submission and its properties.
- `Session` (session.dfy): `login` and `get_current_user` as functions.
- `Routes` (routes.dfy): the `RecordStore` class and its handler methods,
  plus a worked scenario (`SubmissionScenario`): quiz 1 with correct options
  "B" and "C" scores 1 for one right answer, 2 for a repeated right answer,
  0 for an answer naming a question of quiz 2, and keeps all three progress
  records.

Token failures are not split by kind: a failed decode and a missing `sub`
both raise 401 "Invalid credentials"; a subject with no user raises 401
"User not found".

## Model

| member | source | states |
|---|---|---|
| Models.NextId | models.py:8 | a new row's id is larger than every id already in its table (one above the largest, 1 for an empty table) |
| Models.AppendNextIdKeepsDistinct | models.py:8 | appending a row with that id keeps the table's ids distinct |
| Queries.FindUser | routes.py:31 | the result is the position of the first user with the username, and there is none exactly when no user has it |
| Queries.FirstUserIsOnlyUser | models.py:9 | with unique usernames the first user of a name is the only user of that name |
| Queries.FindQuestion | routes.py:81 | the result is the position of the first question with that id in that quiz, and none when no question has both |
| Queries.QuestionsOfQuiz | routes.py:65 | a question is listed exactly when it is in the table and belongs to the quiz; never more entries than the table has |
| Queries.QuestionsOfQuizAppend | routes.py:65 | the question filter keeps store order: filtering a concatenation concatenates the filtered parts |
| Queries.OptionTexts | routes.py:68-72 | a text is listed exactly when some option of that question has it |
| Queries.OptionTextsAppend | routes.py:68 | the option listing keeps store order across a concatenation |
| Grading.Credit | routes.py:81-83 | an answer earns at most one point, and only when some question of the quiz has its id and its selected option as the correct option |
| Grading.Score | routes.py:79-83 | the score is between 0 and the number of submitted answers |
| Grading.ScoreAppend | routes.py:79-83 | the scores of two parts of a submission add up to the score of the whole |
| Grading.ScoreInsert | routes.py:80-83 | an answer adds its own credit wherever it stands in the submission |
| Grading.DuplicateAnswerCountedTwice | routes.py:80-83 | a repeated answer is not deduplicated: a correct answer submitted twice adds 2 |
| Grading.ForeignAnswerScoresNothing | routes.py:81-82 | an answer naming a question of another quiz, or no question, adds nothing |
| Grading.CreditIffMatches | routes.py:81-82 | with unique question ids, an answer earns its point if and only if a question of the quiz with its id has its selected option as the correct option |
| Grading.ScoreCountsMatchingAnswers | routes.py:79-83 | the score equals the number of submission positions holding such an answer, counted with multiplicity |
| Session.Login | routes.py:49-55 | an unknown username and a password that does not verify against the first such user's hash give the same 401 "Incorrect username or password"; otherwise the token is issued for claims whose `sub` is the username, with type "bearer" |
| Session.GetCurrentUser | routes.py:22-34 | "Invalid credentials" exactly when decoding fails or `sub` is missing; "User not found" exactly when `sub` names no user; otherwise (the token decodes, has a `sub`, and some user has that username) the result is Ok and is the first user with that username |
| Session.CurrentUserIsUnique | routes.py:31-34 | with unique usernames the resolved user is the only user with the token's subject |
| Session.SignupLoginResolveRoundTrip | routes.py:22-55 | after a successful signup, logging in with the same password succeeds and the issued token resolves to the new user, given that the password verifies against its hash and the token service decodes what it issued |
| Routes.SignupThenLoginResolves | routes.py:37-55 | on a store, a failed `Signup` (name taken) leaves the users unchanged; a successful one appends exactly the user with that username, the password's hash and `NextId`, and `Login` with the same password then yields a bearer token that `GetCurrentUser` resolves to that user, given that the password verifies against its hash and the token service decodes what it issued |
| Routes.ScenarioScores | routes.py:79-83 | with quiz 1 holding questions 1 (correct "B") and 2 (correct "C") and question 3 in quiz 2: one right and one wrong answer score 1, the same right answer twice scores 2, an answer naming question 3 scores 0 |
| Routes.RecordStore.constructor | models.py:6-36 | a store holding the given tables satisfies the key constraints |
| Routes.RecordStore.Signup | routes.py:37-46 | a taken username raises 400 "User already exists" and leaves the users unchanged; otherwise exactly one user with the username, the password's hash and a fresh id is appended; the key constraints are kept and no other table changes |
| Routes.RecordStore.Grade | routes.py:79-83 | the loop's score is the submission's `Score` over the store's questions |
| Routes.RecordStore.SubmitQuiz | routes.py:77-88 | the returned score is the submission's `Score`, which is the number of answers (with multiplicity) naming a question of the quiz whose correct option they select; exactly one progress record (user's id, quiz id, that score, completed) is appended even for score 0 or an unknown quiz; earlier records and the other tables are unchanged |
| Routes.RecordStore.ListQuestions | routes.py:65-74 | one entry per question of the quiz in store order, each with that question's id, text and its options' texts in store order; nothing is written |
| Routes.RecordStore.GetQuizzes | routes.py:57-60 | a failed session resolution is returned as its error; otherwise all quizzes; nothing is written |
| Routes.RecordStore.GetQuestions | routes.py:62-74 | a failed session resolution is returned as its error; otherwise the question listing of `ListQuestions`; nothing is written |
| Routes.RecordStore.SubmitQuizRequest | routes.py:76-88 | a failed session resolution raises its error and records nothing; otherwise the submission is graded and recorded under the resolved user's id |

## Left out

- JWT signing, expiry and signature checks (`jwt.decode`, `auth.create_access_token`): foreign library calls that depend on a clock and a secret key. They are the `createAccessToken` and `decode` fields of `AuthService`. The only claim modelled is `sub`, as an optional string. A `sub` of another JSON type is not modelled.
- Password hashing and verification (`auth.hash_password`, `auth.verify_password`): auth.py is not part of this model. They are function fields. A salted hash is therefore modelled as one fixed hash per password. That a wrong password never verifies is a property of the hasher and is not stated.
- Reading the bearer token from the `Authorization` header (`OAuth2PasswordBearer`, routes.py:11), and the framework's own 401 when it is missing: framework wiring. Handlers receive the token string.
- Database sessions and commits (`get_db`, `db.commit()`): each handler is one atomic update of the in-memory store. Failures of the store itself are not modelled.
- Routing, dependency injection and response serialisation (FastAPI, main.py, schemas.py): the session dependency is an explicit call to `GetCurrentUser`, and errors are `HttpError` values.
- How the database assigns ids: database.py is not part of this model. The contracts of `Signup`, `SubmitQuiz` and `SubmitQuizRequest` give the new row's id as `NextId`, one above the largest id; keeping `Valid()` and the lemmas need only that it is fresh. A store with another id rule (for one, a key sequence that skips values) would not meet those three contracts.
- Row order of the unordered `.all()` queries: the model lists rows in insertion order.
- Concurrent requests, including two signups racing for one username: one request runs at a time.
- Referential integrity (questions naming existing quizzes, progress naming existing quizzes) is not enforced by the handlers, and the model does not assume it.
- NULL columns: the columns of models.py are nullable, but the model's rows hold plain strings and integers, so stored rows are taken to have no NULL column. In the source a question whose `correct_option` is NULL never earns credit (routes.py:82), and a NULL option text is listed as `None` (routes.py:72); neither case is modelled.
