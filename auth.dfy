/**
 * The foreign authentication helpers the handlers call: password hashing and
 * verification, and access-token creation and decoding. Their implementations
 * (a crypto library, a JWT library, a clock and a secret key) are not part of
 * this model; they are passed to the handlers as an `AuthService` value.
 */
module Auth {
  import opened Wrappers

  /** The claim set of an access token; only the subject (`sub`) is modelled. */
  datatype Claims = Claims(sub: Option<string>)

  /**
   * `hashPassword` and `verifyPassword` stand for `auth.hash_password` and
   * `auth.verify_password`; `createAccessToken` for `auth.create_access_token`;
   * `decode` for `jwt.decode` with the service's key and algorithm at the
   * current time, `None` standing for a raised `JWTError`.
   */
  datatype AuthService = AuthService(
    hashPassword: string -> string,
    verifyPassword: (string, string) -> bool,
    createAccessToken: Claims -> string,
    decode: string -> Option<Claims>)

  /** The token service decodes what it issued (within the token's lifetime). */
  ghost predicate DecodesIssued(auth: AuthService, c: Claims) {
    auth.decode(auth.createAccessToken(c)) == Some(c)
  }
}
