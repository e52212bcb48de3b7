/** Request authentication and token issuing (app/dist/utils/auth.js):
    `authenticateToken` picks a token from the body, the query or the
    Authorization header, strips a `Bearer ` prefix, and attaches the verified
    payload to the request; `signToken` signs the four identity claims;
    `AuthenticationError` is the error the resolvers raise. */
module Auth {
  import opened Common
  import opened Text

  /** The payload signToken signs, under the token's `data` claim. */
  datatype Claims = Claims(firstName: string, lastName: string, email: string, id: string)

  /** The two calls into jsonwebtoken: `sign(payload, secret, issuedAt)` gives
      a token; `verify(token, secret, now)` gives the payload back, or None
      where the library throws (bad signature, malformed, expired). */
  datatype Jwt = Jwt(
    sign: (Claims, string, int) -> string,
    verify: (string, string, int) -> Option<Claims>)

  /** `expiresIn: '2h'` and `maxAge: '2hr'`, in seconds. */
  const TokenLifetime: int := 7200

  /** The characters of a compact JWT: base64url segments joined by dots. */
  predicate IsTokenChar(c: char) {
    ('A' <= c <= 'Z') || ('a' <= c <= 'z') || ('0' <= c <= '9') || c == '-' || c == '_' || c == '.'
  }

  predicate IsCompactToken(s: string) {
    |s| > 0 && forall i :: 0 <= i < |s| ==> IsTokenChar(s[i])
  }

  /** What this code relies on from jsonwebtoken: a signed token is compact,
      and verifying it with the same secret before it expires gives back the
      payload it was signed over. */
  ghost predicate Sound(jwt: Jwt) {
    && (forall c, key, t :: IsCompactToken(jwt.sign(c, key, t)))
    && (forall c, key, t, now :: t <= now < t + TokenLifetime ==>
          jwt.verify(jwt.sign(c, key, t), key, now) == Some(c))
  }

  /** `signToken(firstName, lastName, email, _id)`: a token over exactly the
      four claims, valid for two hours. */
  function SignToken(jwt: Jwt, firstName: string, lastName: string, email: string, id: string,
                     secret: string, now: int): (token: string)
    ensures Sound(jwt) ==> IsCompactToken(token)
    ensures Sound(jwt) ==> forall later :: now <= later < now + TokenLifetime ==>
              jwt.verify(token, secret, later) == Some(Claims(firstName, lastName, email, id))
  {
    jwt.sign(Claims(firstName, lastName, email, id), secret, now)
  }

  /** The parts of a request authenticateToken reads ("" where a value is
      absent, since JavaScript treats both as false), and the `user` it sets. */
  class Request {
    const bodyToken: string
    const queryToken: string
    const authorization: string
    var user: Option<Claims>

    constructor (bodyToken: string, queryToken: string, authorization: string)
      ensures this.bodyToken == bodyToken && this.queryToken == queryToken
      ensures this.authorization == authorization && user == None
    {
      this.bodyToken := bodyToken;
      this.queryToken := queryToken;
      this.authorization := authorization;
      user := None;
    }
  }

  /** The token authenticateToken goes on to verify ("" for none): the first
      non-empty one of body, query and header; when a header is present, the
      chosen token is cut down to its last space-separated piece, trimmed,
      whichever source it came from. */
  function ExtractToken(bodyToken: string, queryToken: string, authorization: string): (token: string)
    ensures authorization == "" ==> token == (if bodyToken != "" then bodyToken else queryToken)
    ensures authorization != "" ==> ' ' !in token
    ensures authorization != "" && bodyToken != "" ==> token == Trim(LastPiece(bodyToken, ' '))
    ensures authorization != "" && bodyToken == "" && queryToken != "" ==> token == Trim(LastPiece(queryToken, ' '))
    ensures authorization != "" && bodyToken == "" && queryToken == "" ==>
              token == Trim(LastPiece(authorization, ' '))
  {
    var chosen := if bodyToken != "" then bodyToken else if queryToken != "" then queryToken else authorization;
    if authorization != "" then Trim(LastPiece(chosen, ' ')) else chosen
  }

  /** The request's `user` after authenticateToken: unchanged when there is
      no token or the token does not verify, the verified payload otherwise. */
  function Authenticated(prior: Option<Claims>, bodyToken: string, queryToken: string,
                         authorization: string, jwt: Jwt, secret: string, now: int): (user: Option<Claims>)
    ensures ExtractToken(bodyToken, queryToken, authorization) == "" ==> user == prior
    ensures user != prior ==> user.Some?
    ensures user != prior ==> user == jwt.verify(ExtractToken(bodyToken, queryToken, authorization), secret, now)
    ensures jwt.verify(ExtractToken(bodyToken, queryToken, authorization), secret, now).None? ==> user == prior
    ensures var token := ExtractToken(bodyToken, queryToken, authorization);
            token != "" && jwt.verify(token, secret, now).Some? ==> user == jwt.verify(token, secret, now)
  {
    var token := ExtractToken(bodyToken, queryToken, authorization);
    if token == "" then prior
    else
      match jwt.verify(token, secret, now)
      case Some(data) => Some(data)
      case None => prior
  }

  /** authenticateToken: never raises, always returns the request it was given,
      and changes nothing but its `user`. */
  method AuthenticateToken(req: Request, jwt: Jwt, secret: string, now: int) returns (r: Request)
    modifies req
    ensures r == req
    ensures req.user == Authenticated(old(req.user), req.bodyToken, req.queryToken, req.authorization,
                                      jwt, secret, now)
  {
    var token := if req.bodyToken != "" then req.bodyToken
                 else if req.queryToken != "" then req.queryToken
                 else req.authorization;
    if req.authorization != "" {
      token := Trim(LastPiece(token, ' '));
    }
    if token == "" {
      return req;
    }
    var verified := jwt.verify(token, secret, now);
    if verified.Some? {
      req.user := verified;
    }
    return req;
  }

  /** A compact token carries no space, so `Bearer <token>` yields the token. */
  lemma BearerHeaderYieldsToken(token: string)
    requires IsCompactToken(token)
    ensures ExtractToken("", "", "Bearer " + token) == token
  {
    var header := "Bearer " + token;
    assert forall i :: 0 <= i < |token| ==> token[i] != ' ';
    assert header == "Bearer" + [' '] + token;
    LastPieceAfterSep("Bearer", token, ' ');
    assert !IsSpaceChar(token[0]) && !IsSpaceChar(token[|token| - 1]);
    assert Trim(LastPiece(header, ' ')) == token;
  }

  /** When neither the body nor the query carries a token, a header that ends
      in a space leaves an empty last piece, so no user is attached. */
  lemma TrailingSpaceAttachesNothing(prior: Option<Claims>, bodyToken: string, queryToken: string,
                                     header: string, jwt: Jwt, secret: string, now: int)
    requires |header| > 0 && header[|header| - 1] == ' '
    requires bodyToken == "" && queryToken == ""
    ensures Authenticated(prior, bodyToken, queryToken, header, jwt, secret, now) == prior
  {
  }

  /** A token signToken issued, sent as `Bearer <token>` within two hours and
      verified with the same secret, attaches exactly the four signed claims. */
  lemma SignedBearerAuthenticates(jwt: Jwt, firstName: string, lastName: string, email: string,
                                  id: string, secret: string, issued: int, now: int)
    requires Sound(jwt)
    requires issued <= now < issued + TokenLifetime
    ensures Authenticated(None, "", "", "Bearer " + SignToken(jwt, firstName, lastName, email, id, secret, issued),
                          jwt, secret, now) == Some(Claims(firstName, lastName, email, id))
  {
    var token := SignToken(jwt, firstName, lastName, email, id, secret, issued);
    BearerHeaderYieldsToken(token);
  }

  /** The JavaScript object an error becomes when thrown. */
  datatype ThrownError = ThrownError(name: string, message: string, path: seq<string>)

  /** `new AuthenticationError(message)`: a GraphQLError renamed
      'AuthenticationError' with the given message; the constructor passes
      ['UNAUTHENTICATED'] in the fifth positional slot of GraphQLError, which
      is the error's path. */
  function NewAuthenticationError(message: string): (e: ThrownError)
    ensures e.name == "AuthenticationError" && e.message == message
    ensures e.path == ["UNAUTHENTICATED"]
  {
    ThrownError("AuthenticationError", message, ["UNAUTHENTICATED"])
  }
}
