/** What the route handlers receive from the auth service and what they answer. */
module Http {
  import opened Wrappers
  import opened Records
  import opened Orders

  /** The user the auth service resolves a session cookie to. */
  datatype AuthUser = AuthUser(id: UserId, email: string, fullName: Option<string>)

  /** The `sb-access-token` cookie: absent, rejected by the auth service, or resolved to a user. */
  datatype Session = NoCookie | Rejected | SignedIn(user: AuthUser)

  /** The JSON payloads the handlers return. */
  datatype Body =
    | Error(message: string)
    | ChatReply(response: string, tokensUsed: int, tokensRemaining: int)
    | ProfileRow(profile: Profile)
    | OrderCreated(orderId: string, approvalUrl: Option<string>)
    | Captured(capture: Capture)
    | SessionUrl(url: string)
    | Received

  datatype Response = Response(status: int, body: Body)

  /** The answer of every session-gated route to a missing or rejected cookie. */
  function Unauthorized(): (r: Response)
    ensures r.status == 401
  {
    Response(401, Error("Unauthorized"))
  }
}
