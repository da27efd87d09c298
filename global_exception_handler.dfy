/** `GlobalExceptionHandler`: turns each failure into an HTTP status, an
    error body and, for a challenge addressed to a known user, the
    `Location` of the exchange endpoint and a signed request token. */
module ExceptionHandler {
  import opened Domain
  import opened Text
  import opened Jwt

  datatype ErrorResponse = ErrorResponse(status: int, error: string, message: string, timestamp: int)

  /** A response: status, the two challenge headers when present, and the body. */
  datatype Response = Response(
    status: HttpStatus,
    location: Option<string>,
    requestAuthorization: Option<string>,
    body: ErrorResponse)

  /** The request headers the handler reads. */
  datatype RequestHeaders = RequestHeaders(xUserId: Option<string>, xForwardedFor: Option<string>)

  /** The handler's configuration: own issuer, token lifetime in seconds, the
      JWT service that signs, and the URL of the current context path. */
  datatype HandlerConfig = HandlerConfig(issuer: string, ttl: int, jwt: JwtService, contextPath: string)

  const DefaultMessage := "An unexpected error occurred"

  /** `@ExceptionHandler(Exception)`: 500 with the exception's message, or a
      default one when it has none. */
  function HandleAllExceptions(localizedMessage: Option<string>, timestamp: int): (r: Response)
    ensures r.status == HttpInternalServerError && r.body.status == 500
    ensures r.body.message == (if localizedMessage.Some? then localizedMessage.value else DefaultMessage)
    ensures r.location.None? && r.requestAuthorization.None?
  {
    var status := HttpInternalServerError;
    var message := if localizedMessage.Some? then localizedMessage.value else DefaultMessage;
    Response(status, None, None, ErrorResponse(status.Code(), status.ReasonPhrase(), message, timestamp))
  }

  /** `@ExceptionHandler(ApplicationException)`: the exception's own status
      and message. */
  function HandleApplicationException(status: HttpStatus, message: string, timestamp: int): (r: Response)
    ensures r.status == status && r.body.status == status.Code() && r.body.error == status.ReasonPhrase()
    ensures r.body.message == message
    ensures r.location.None? && r.requestAuthorization.None?
  {
    Response(status, None, None, ErrorResponse(status.Code(), status.ReasonPhrase(), message, timestamp))
  }

  const PermissionsPath := "/axsg/permissions"

  /** The exchange endpoint's URL: the `x-forwarded-for` value when present,
      else the context path, with the path segments `axsg` and `permissions`
      appended; a trailing slash of the base is not doubled. */
  function LocationUrl(req: RequestHeaders, contextPath: string): (url: string)
    ensures |url| >= |PermissionsPath| && url[|url| - |PermissionsPath|..] == PermissionsPath
    ensures var base := if req.xForwardedFor.Some? then req.xForwardedFor.value else contextPath;
            var prefix := url[..|url| - |PermissionsPath|];
            if |base| > 0 && base[|base| - 1] == '/' then prefix + "/" == base else prefix == base
  {
    var base := if req.xForwardedFor.Some? then req.xForwardedFor.value else contextPath;
    var trimmed := if |base| > 0 && base[|base| - 1] == '/' then base[..|base| - 1] else base;
    var url := trimmed + PermissionsPath;
    assert url[..|url| - |PermissionsPath|] == trimmed;
    assert url[|url| - |PermissionsPath|..] == PermissionsPath;
    url
  }

  /** The request token: subject the caller, issuer the service, the
      challenge's policy and roles, expiring `ttl` seconds after issue. */
  function RequestToken(issuer: string, now: int, ttl: int, userId: string, policy: string, roles: seq<string>): (t: Token)
    ensures t.issuer == Some(issuer) && t.subject == Some(userId)
    ensures t.claims.policy == Some(policy) && t.claims.roles == Some(roles)
    ensures t.claims.permissions.None?
    ensures t.issuedAt == Some(now) && t.expiresAt == Some(now + ttl)
  {
    Token(Some(issuer), Some(userId), Some(now), Some(now + ttl), Claims(Some(policy), Some(roles), None))
  }

  function ChallengeMessage(userId: string, location: string): string {
    "User '" + userId + "' needs authorization. Ask for permission at " + location
      + " using the request token from the header 'X-Request-Authorization'"
  }

  const AnonymousChallengeMessage := "Accessing the resource needs authentication and authorization"

  /** `@ExceptionHandler(RequestAuthorization)`: with an `x-user-id` header,
      401 with `Location` and a signed request token for that user; without
      one, 403 and neither header. */
  function HandleRequestAuthorization(policy: string, roles: seq<string>, req: RequestHeaders, cfg: HandlerConfig, now: int, timestamp: int): (r: Response)
    ensures r.status == (if req.xUserId.Some? then HttpUnauthorized else HttpForbidden)
    ensures r.location.Some? <==> req.xUserId.Some?
    ensures r.requestAuthorization.Some? <==> req.xUserId.Some?
    ensures req.xUserId.Some? ==>
              && r.location == Some(LocationUrl(req, cfg.contextPath))
              && r.requestAuthorization == Some(cfg.jwt.Sign(RequestToken(cfg.issuer, now, cfg.ttl, req.xUserId.value, policy, roles)))
    ensures req.xUserId.None? ==> r.body.message == AnonymousChallengeMessage
    ensures r.body.status == r.status.Code()
  {
    var location := LocationUrl(req, cfg.contextPath);
    match req.xUserId
    case Some(userId) =>
      var status := HttpUnauthorized;
      var token := cfg.jwt.Sign(RequestToken(cfg.issuer, now, cfg.ttl, userId, policy, roles));
      Response(status, Some(location), Some(token),
               ErrorResponse(status.Code(), status.ReasonPhrase(), ChallengeMessage(userId, location), timestamp))
    case None =>
      var status := HttpForbidden;
      Response(status, None, None,
               ErrorResponse(status.Code(), status.ReasonPhrase(), AnonymousChallengeMessage, timestamp))
  }

  /** Spring routes each failure to the handler of its most specific type. */
  function Handle(f: Failure, req: RequestHeaders, cfg: HandlerConfig, now: int, timestamp: int): (r: Response)
    ensures r.body.status == r.status.Code()
    ensures r.body.error == r.status.ReasonPhrase()
    ensures (r.location.Some? || r.requestAuthorization.Some?) <==> f.RequestAuthorization? && req.xUserId.Some?
    ensures f.OtherException? ==> r.status == HttpInternalServerError
    ensures f.ApplicationException? ==> r.status == f.status && r.body.message == f.message
  {
    match f
    case ApplicationException(status, message) => HandleApplicationException(status, message, timestamp)
    case RequestAuthorization(policy, roles) => HandleRequestAuthorization(policy, roles, req, cfg, now, timestamp)
    case OtherException(message) => HandleAllExceptions(message, timestamp)
  }

  /** With an ideal library and the service's own issuer registered to its
      own algorithm, the request token verifies to exactly the challenge's
      subject, policy and roles, and expires `ttl` after it was issued. */
  lemma RequestTokenVerifies(policy: string, roles: seq<string>, req: RequestHeaders, cfg: HandlerConfig, now: int, timestamp: int)
    requires IdealLibrary(cfg.jwt.lib)
    requires cfg.issuer in cfg.jwt.algorithms && cfg.jwt.algorithms[cfg.issuer] == cfg.jwt.algorithm
    requires req.xUserId.Some?
    ensures var r := HandleRequestAuthorization(policy, roles, req, cfg, now, timestamp);
            var v := cfg.jwt.Verify(r.requestAuthorization.value);
            && v.Ok?
            && v.value.subject == req.xUserId && v.value.issuer == Some(cfg.issuer)
            && v.value.claims.policy == Some(policy) && v.value.claims.roles == Some(roles)
            && v.value.claims.permissions.None?
            && v.value.issuedAt == Some(now) && v.value.expiresAt == Some(now + cfg.ttl)
  {
    SignThenVerify(cfg.jwt, RequestToken(cfg.issuer, now, cfg.ttl, req.xUserId.value, policy, roles));
  }
}
