/** Request and response shapes of the handlers (schemas.py) and their HTTP errors. */
module Schemas {

  /** One submitted answer (`AnswerSubmit`). */
  datatype Answer = Answer(questionId: int, selectedOption: string)

  /**
   * One entry of the question listing (`QuestionOut`). It has no field for
   * the correct option, so no listing can disclose it.
   */
  datatype QuestionOut = QuestionOut(id: int, text: string, options: seq<string>)

  /** The body returned by a successful login (`Token`). */
  datatype TokenResponse = TokenResponse(accessToken: string, tokenType: string)

  /** An `HTTPException` raised by a handler: status code and detail text. */
  datatype HttpError = HttpError(status: int, detail: string)

  /** Token did not decode, or decoded without a `sub` claim. */
  const InvalidCredentials := HttpError(401, "Invalid credentials")
  /** Token named a user the store does not hold. */
  const UserNotFound := HttpError(401, "User not found")
  /** Signup with a username already taken. */
  const UserAlreadyExists := HttpError(400, "User already exists")
  /** Login failure, whichever of username or password was wrong. */
  const IncorrectLogin := HttpError(401, "Incorrect username or password")
}
