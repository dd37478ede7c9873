/** What a handler or middleware produces: the response it sends, and the request-scoped `res.locals`. */
module Http {
  import opened Wrappers
  import Jwt
  import Store
  import Mail

  datatype Body =
    | Text(text: string)
    | Tokens(accessToken: string, refreshToken: string)
    | AccessToken(accessToken: string)
    | Decoded(user: Option<Jwt.Claims>)       // `res.send(res.locals.user)`
    | ErrorObject(error: Store.StoreError)    // `res.status(500).send(e)`

  /**
   * A sent response, or a handler whose promise rejected (a failed `save()`
   * that nothing catches), which sends nothing.
   */
  datatype Response = Response(status: nat, body: Body) | Unhandled(error: Store.StoreError)

  /** `res.send(text)` with the default status. */
  function Send(text: string): Response {
    Response(200, Text(text))
  }

  /** `res.locals`: the only entry the core reads or writes is `user`. */
  datatype Locals = Locals(user: Option<Jwt.Claims>)

  /** A handler's effect: the database after it, what it sent, and the emails it handed to the mailer. */
  datatype Outcome = Outcome(db: Store.Db, response: Response, mail: seq<Mail.Email>)
}
