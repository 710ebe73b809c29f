/** The bearer-token middleware that runs before every route. The mock
    accepts any token: it only looks at the scheme word of the header. */
module Auth {
  import opened Js
  import opened Http

  const BearerPrefix := "bearer "
  const MissingBearerToken := "Missing bearer token"

  /** Either the request goes on to the routes, or the middleware answers. */
  datatype Gate = Next | Deny(reply: Reply<()>)

  /** The info endpoints that need no header. */
  predicate IsOpenPath(path: string) {
    path == "/" || path == "/health"
  }

  /** The middleware's decision for a request path and its `authorization`
      header (None when the request has none). */
  function Authenticate(path: string, authorization: Option<string>): (g: Gate)
    ensures g.Deny? ==> g.reply == Unauthorized(MissingBearerToken) && g.reply.Status() == 401 &&
                        g.reply.ErrorTitle() == "Unauthorized"
    ensures IsOpenPath(path) ==> g == Next
    ensures authorization.None? ==> (g == Next <==> IsOpenPath(path))
  {
    if IsOpenPath(path) then Next
    else if !Truthy(authorization) || !(BearerPrefix <= Lower(authorization.value)) then
      Deny(Unauthorized(MissingBearerToken))
    else Next
  }

  /** The scheme test, character by character: the first six characters spell
      "bearer" in any mix of cases and the seventh is a space. */
  predicate HasBearerScheme(header: string) {
    |header| >= 7 && header[6] == ' ' &&
    forall i :: 0 <= i < 6 ==> LowerChar(header[i]) == "bearer"[i]
  }

  /** A request gets through exactly when it targets an open path or carries
      a header whose scheme is "Bearer", however it is capitalised. */
  lemma AuthenticateIff(path: string, authorization: Option<string>)
    ensures Authenticate(path, authorization) == Next <==>
      IsOpenPath(path) || (authorization.Some? && HasBearerScheme(authorization.value))
  {
  }

  /** The mock never inspects the token itself: "Bearer " (in any case)
      followed by anything at all is accepted on every path. */
  lemma AnyBearerTokenPasses(path: string, scheme: string, token: string)
    requires Lower(scheme) == "bearer"
    ensures Authenticate(path, Some(scheme + " " + token)) == Next
  {
  }

  /** Other schemes are refused with 401 on every non-open path. */
  lemma BasicSchemeRejected(path: string, credentials: string)
    requires !IsOpenPath(path)
    ensures Authenticate(path, Some("Basic " + credentials)) == Deny(Unauthorized(MissingBearerToken))
  {
    var h := "Basic " + credentials;
    assert LowerChar(h[0]) == 'b';
    assert LowerChar(h[1]) != 'e';
    AuthenticateIff(path, Some(h));
  }
}
