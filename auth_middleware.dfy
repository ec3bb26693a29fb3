/**
 * `backend/middleware/authMiddleware.js`: the bearer-token gate of every
 * protected route and the admin role gate. Verifying the signature and expiry
 * of a token is outside the model: `verify` returns the decoded claims, or
 * `None` where the library throws.
 */
module AuthMiddleware {
  import opened Common
  import opened Model

  const LOGIN_REQUIRED: string := "Bejelentkezés szükséges."
  const INVALID_TOKEN: string := "Érvénytelen token."
  const NOT_PERMITTED: string := "Nincs jogosultság."

  /** `req.headers.authorization?.split(" ")[1]`, kept only when truthy. The
      scheme word in front is never looked at. */
  function TokenFromHeader(header: Option<string>): (token: Option<string>)
    ensures header.None? ==> token.None?
    ensures header.Some? && ' ' !in header.value ==> token.None?
    ensures token.Some? ==> token.value != "" && ' ' !in token.value
  {
    if header.None? then None
    else
      var parts := Split(header.value, ' ');
      if |parts| >= 2 && parts[1] != "" then Some(parts[1]) else None
  }

  /** Any first word followed by a space and a non-empty word yields that word,
      whatever follows it after a further space. */
  lemma TokenAfterAnyScheme(scheme: string, token: string, rest: string)
    requires ' ' !in scheme && ' ' !in token && token != ""
    requires rest == [] || rest[0] == ' '
    ensures TokenFromHeader(Some(scheme + " " + token + rest)) == Some(token)
  {
    SplitAfterWord(scheme, ' ', token + rest);
    assert scheme + " " + token + rest == scheme + [' '] + (token + rest);
    if rest == [] {
      assert token + rest == token;
    } else {
      SplitAfterWord(token, ' ', rest[1..]);
      assert token + rest == token + [' '] + rest[1..];
    }
  }

  /** The request as the middleware sees it: `req.user`, the response sent so
      far, and how often `next()` has been called. */
  class Request {
    var user: Option<Claims>
    var response: Option<Reply>
    var nextCalls: nat

    constructor ()
      ensures user.None? && response.None? && nextCalls == 0
    {
      user := None;
      response := None;
      nextCalls := 0;
    }
  }

  /** `authMiddleware`: a request without a usable token, or with one that does
      not verify, is answered with a 401 and goes no further; otherwise the
      decoded claims become `req.user` and `next` runs once. */
  method Authenticate(req: Request, header: Option<string>, verify: string -> Option<Claims>)
    modifies req
    ensures TokenFromHeader(header).None? ==>
              req.response == Some(Json(401, Message(LOGIN_REQUIRED))) &&
              req.user == old(req.user) && req.nextCalls == old(req.nextCalls)
    ensures TokenFromHeader(header).Some? && verify(TokenFromHeader(header).value).None? ==>
              req.response == Some(Json(401, Message(INVALID_TOKEN))) &&
              req.user == old(req.user) && req.nextCalls == old(req.nextCalls)
    ensures TokenFromHeader(header).Some? && verify(TokenFromHeader(header).value).Some? ==>
              req.user == verify(TokenFromHeader(header).value) &&
              req.response == old(req.response) && req.nextCalls == old(req.nextCalls) + 1
  {
    var token := TokenFromHeader(header);
    if token.None? {
      req.response := Some(Json(401, Message(LOGIN_REQUIRED)));
      return;
    }
    var decoded := verify(token.value);
    if decoded.None? {
      req.response := Some(Json(401, Message(INVALID_TOKEN)));
      return;
    }
    req.user := decoded;
    req.nextCalls := req.nextCalls + 1;
  }

  /** `adminOnly`, which always runs after `authMiddleware` has set `req.user`. */
  method AdminOnly(req: Request)
    requires req.user.Some?
    modifies req
    ensures req.user == old(req.user)
    ensures req.user.value.role != ADMIN ==>
              req.response == Some(Json(403, Message(NOT_PERMITTED))) && req.nextCalls == old(req.nextCalls)
    ensures req.user.value.role == ADMIN ==>
              req.response == old(req.response) && req.nextCalls == old(req.nextCalls) + 1
  {
    if req.user.value.role != ADMIN {
      req.response := Some(Json(403, Message(NOT_PERMITTED)));
      return;
    }
    req.nextCalls := req.nextCalls + 1;
  }

  /** The admin router's chain, `authMiddleware` then `adminOnly`: the handler
      (the second `next`) is reached exactly when the token verifies to claims
      with the admin role, and then `req.user` holds those claims. */
  method AdminChain(req: Request, header: Option<string>, verify: string -> Option<Claims>)
    returns (handlerReached: bool)
    requires req.nextCalls == 0 && req.response.None?
    modifies req
    ensures handlerReached <==> TokenFromHeader(header).Some? &&
                                verify(TokenFromHeader(header).value).Some? &&
                                verify(TokenFromHeader(header).value).value.role == ADMIN
    ensures handlerReached ==> req.nextCalls == 2 && req.response.None? &&
                               req.user == verify(TokenFromHeader(header).value)
    ensures !handlerReached ==> req.response.Some? && req.response.value.Json? &&
                                (req.response.value.code == 401 || req.response.value.code == 403)
  {
    Authenticate(req, header, verify);
    if req.nextCalls == 0 {
      return false;
    }
    AdminOnly(req);
    handlerReached := req.nextCalls == 2;
  }
}
