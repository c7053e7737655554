/** The bearer-token gate put in front of the mutating routes. */
module Auth {
  import opened Json
  import opened Http

  /** The one accepted `Authorization` header value, a fixed shared secret. */
  const Token: string := "Bearer mysecrettoken"

  const Unauthorized := Response(401, ErrorBody("Unauthorized access"))

  /** `authenticate`: the request passes exactly when its `Authorization` header is
      present and equal to the token; an absent or empty header is refused like any other. */
  function Authenticate(authorization: Option<string>): (ok: bool)
    ensures ok <==> authorization == Some(Token)
  {
    match authorization
    case None => false
    case Some(token) => !(token == "" || token != Token)
  }
}
