/** `ApiController`: the access gate in front of the ACL store and the
    permission-exchange endpoint. The decisions of the read-only endpoints
    are functions of the stored ACLs and the request headers; the token scan,
    the exchange and the two writing endpoints are methods. */
module Gate {
  import opened Domain
  import opened Text
  import opened Jwt
  import opened AccessControl

  /** The policy every ACL creation is checked against. */
  const CreateAclPolicy := "createAcl"

  function NotFound(name: string): Failure {
    ApplicationException(HttpNotFound, "ACL " + name + " not found")
  }

  const UnknownUser := ApplicationException(HttpUnauthorized, "Unknown user")
  const AccessDenied := ApplicationException(HttpUnauthorized, "Access denied")

  /** The raw tokens of an `Authorization` header: the `Bearer\s+` schemes
      removed, then the rest split on commas. */
  function BearerTokens(header: string): (tokens: seq<string>)
    ensures |tokens| >= 1
    ensures forall k :: 0 <= k < |tokens| ==> ',' !in tokens[k]
    ensures Join(tokens, ',') == StripBearer(header)
  {
    JoinSplit(StripBearer(header), ',');
    Split(StripBearer(header), ',')
  }

  /** What the wire form of a signed token never holds: no comma and no `\s`. */
  lemma WireSafeToken(raw: string)
    requires WireSafe(raw)
    ensures ',' !in raw
    ensures NoRegexSpace(raw)
  {
    forall k | 0 <= k < |raw| ensures raw[k] != ',' {
    }
  }

  /** Several tokens after one scheme, `Bearer t1,t2,…`, are read back in order. */
  lemma {:induction false} BearerJoin(ts: seq<string>)
    requires |ts| >= 1
    requires forall k :: 0 <= k < |ts| ==> WireSafe(ts[k])
    ensures BearerTokens("Bearer " + Join(ts, ',')) == ts
  {
    forall k | 0 <= k < |ts| ensures ',' !in ts[k] && NoRegexSpace(ts[k]) {
      WireSafeToken(ts[k]);
    }
    JoinNoRegexSpace(ts, ',');
    StripBearerScheme(Join(ts, ','));
    StripBearerWithoutSpace(Join(ts, ','));
    SplitJoin(ts, ',');
  }

  /** Each token with its own scheme, `Bearer t1,Bearer t2,…`, is read back in order. */
  lemma {:induction false} BearerEach(ts: seq<string>)
    requires |ts| >= 1
    requires forall k :: 0 <= k < |ts| ==> WireSafe(ts[k])
    ensures BearerTokens(Join(Schemed(ts), ',')) == ts
  {
    forall k | 0 <= k < |ts| ensures ',' !in ts[k] && NoRegexSpace(ts[k]) {
      WireSafeToken(ts[k]);
    }
    StripSchemedJoin(ts);
    SplitJoin(ts, ',');
  }

  /** The `policy` claim, or the empty string when it is absent. */
  function PolicyOf(t: Token): string {
    if t.claims.policy.Some? then t.claims.policy.value else ""
  }

  /** A verified token answers for `userId` under `policy` when its subject is
      the user, its policy claim is the policy, and it carries permissions. */
  predicate Answers(t: Token, userId: string, policy: string) {
    t.subject == Some(userId) && PolicyOf(t) == policy && t.claims.permissions.Some?
  }

  /** The tokens in order: a verification failure stops the scan with that
      failure; the first token that answers gives its permissions; `None`
      when no token answers. */
  function FirstAnswer(jwt: JwtService, tokens: seq<string>, userId: string, policy: string): (r: Result<Option<seq<string>>, Failure>)
    ensures r.Err? ==> !r.error.RequestAuthorization?
    decreases |tokens|
  {
    if tokens == [] then Ok(None)
    else
      match jwt.Verify(tokens[0])
      case Err(f) => Err(f)
      case Ok(t) =>
        if Answers(t, userId, policy) then Ok(Some(t.claims.permissions.value))
        else FirstAnswer(jwt, tokens[1..], userId, policy)
  }

  /** `tokens[k]` is where the scan stops: every earlier token verifies and
      does not answer, and `tokens[k]` either fails verification or answers. */
  ghost predicate DecidesAt(jwt: JwtService, tokens: seq<string>, userId: string, policy: string, k: int) {
    && 0 <= k < |tokens|
    && (forall j :: 0 <= j < k ==> jwt.Verify(tokens[j]).Ok? && !Answers(jwt.Verify(tokens[j]).value, userId, policy))
    && (jwt.Verify(tokens[k]).Err? || Answers(jwt.Verify(tokens[k]).value, userId, policy))
  }

  /** What the token at which the scan stops yields. */
  function Outcome(jwt: JwtService, raw: string): Result<Option<seq<string>>, Failure> {
    match jwt.Verify(raw)
    case Err(f) => Err(f)
    case Ok(t) => Ok(t.claims.permissions)
  }

  /** The scan is decided by the first token that fails or answers, and finds
      nothing exactly when every token verifies and none answers. */
  lemma {:induction false} FirstAnswerIsFirst(jwt: JwtService, tokens: seq<string>, userId: string, policy: string)
    ensures FirstAnswer(jwt, tokens, userId, policy) == Ok(None)
        <==> forall j :: 0 <= j < |tokens| ==> jwt.Verify(tokens[j]).Ok? && !Answers(jwt.Verify(tokens[j]).value, userId, policy)
    ensures forall k :: DecidesAt(jwt, tokens, userId, policy, k) ==>
              FirstAnswer(jwt, tokens, userId, policy) == Outcome(jwt, tokens[k])
    decreases |tokens|
  {
    if tokens != [] {
      FirstAnswerIsFirst(jwt, tokens[1..], userId, policy);
      forall k | DecidesAt(jwt, tokens, userId, policy, k)
        ensures FirstAnswer(jwt, tokens, userId, policy) == Outcome(jwt, tokens[k])
      {
        if k > 0 {
          assert DecidesAt(jwt, tokens[1..], userId, policy, k - 1);
        }
      }
      var r := jwt.Verify(tokens[0]);
      if r.Ok? && !Answers(r.value, userId, policy) {
        assert forall j :: 1 <= j < |tokens| ==> tokens[j] == tokens[1..][j - 1];
      }
    }
  }

  /** Tokens after the deciding one are never examined. */
  lemma {:induction false} FirstAnswerIgnoresLaterTokens(jwt: JwtService, tokens: seq<string>, later: seq<string>, userId: string, policy: string)
    requires FirstAnswer(jwt, tokens, userId, policy) != Ok(None)
    ensures FirstAnswer(jwt, tokens + later, userId, policy) == FirstAnswer(jwt, tokens, userId, policy)
    decreases |tokens|
  {
    assert tokens != [];
    assert (tokens + later)[0] == tokens[0];
    assert (tokens + later)[1..] == tokens[1..] + later;
    var r := jwt.Verify(tokens[0]);
    if r.Ok? && !Answers(r.value, userId, policy) {
      FirstAnswerIgnoresLaterTokens(jwt, tokens[1..], later, userId, policy);
    }
  }

  /** The scan as the source writes it. The claim object the library returns
      for `permissions` is never null, so the non-null test lets every token
      with the right subject and policy through; when such a token carries no
      `permissions` claim its list is null and using it fails with a
      null-pointer exception. `FirstAnswer` is the scan with the test the
      source evidently intends. */
  function FirstAnswerAsWritten(jwt: JwtService, tokens: seq<string>, userId: string, policy: string): (r: Result<Option<seq<string>>, Failure>)
    ensures r.Ok? ==> r == FirstAnswer(jwt, tokens, userId, policy)
    ensures r.Err? ==> !r.error.RequestAuthorization?
    decreases |tokens|
  {
    if tokens == [] then Ok(None)
    else
      match jwt.Verify(tokens[0])
      case Err(f) => Err(f)
      case Ok(t) =>
        if t.subject == Some(userId) && PolicyOf(t) == policy then
          if t.claims.permissions.Some? then Ok(Some(t.claims.permissions.value)) else Err(OtherException(None))
        else FirstAnswerAsWritten(jwt, tokens[1..], userId, policy)
  }

  /** The two scans agree as long as every verified token with the user's
      subject and the policy also carries permissions. */
  lemma {:induction false} AsWrittenAgreesWithPermissions(jwt: JwtService, tokens: seq<string>, userId: string, policy: string)
    requires forall k :: 0 <= k < |tokens| && jwt.Verify(tokens[k]).Ok?
               && jwt.Verify(tokens[k]).value.subject == Some(userId) && PolicyOf(jwt.Verify(tokens[k]).value) == policy
               ==> jwt.Verify(tokens[k]).value.claims.permissions.Some?
    ensures FirstAnswerAsWritten(jwt, tokens, userId, policy) == FirstAnswer(jwt, tokens, userId, policy)
    decreases |tokens|
  {
    if tokens != [] {
      assert forall k :: 0 <= k < |tokens[1..]| ==> tokens[1..][k] == tokens[k + 1];
      AsWrittenAgreesWithPermissions(jwt, tokens[1..], userId, policy);
    }
  }

  /** The private `getPermissions`: challenge for `(policy, roles)` when the
      user id or the header is missing or when no token answers; otherwise the
      permissions of the first answering token, or the failure that stopped
      the scan. */
  function Scan(jwt: JwtService, authHeader: Option<string>, userId: Option<string>, policy: string, roles: seq<string>): (r: Result<seq<string>, Failure>)
    ensures userId.None? || authHeader.None? ==> r == Err(RequestAuthorization(policy, roles))
    ensures r.Err? && r.error.RequestAuthorization? ==> r.error == RequestAuthorization(policy, roles)
  {
    if userId.None? || authHeader.None? then Err(RequestAuthorization(policy, roles))
    else
      match FirstAnswer(jwt, BearerTokens(authHeader.value), userId.value, policy)
      case Err(f) => Err(f)
      case Ok(None) => Err(RequestAuthorization(policy, roles))
      case Ok(Some(p)) => Ok(p)
  }

  /** The roles the gate asserts for the caller: `owner` for the ACL's owner. */
  function OwnerRoles(acl: ACL, userId: string): (roles: seq<string>)
    ensures "owner" in roles <==> acl.owner == Some(userId)
    ensures forall role :: role in roles ==> role == "owner"
  {
    if acl.owner == Some(userId) then ["owner"] else []
  }

  /** The permissions the caller holds on `acl`: the fixed `unprotected` one
      when the ACL has no policy, otherwise what the token scan finds under
      the policy, for an identified caller only. */
  function Held(jwt: JwtService, acl: ACL, xUserId: Option<string>, authorization: Option<string>, unprotected: string): (r: Result<seq<string>, Failure>)
    ensures acl.policy.None? ==> r == Ok([unprotected])
    ensures acl.policy.Some? && xUserId.None? ==> r == Err(UnknownUser)
    ensures acl.policy.Some? && xUserId.Some? ==>
              r == Scan(jwt, authorization, xUserId, acl.policy.value, OwnerRoles(acl, xUserId.value))
  {
    match acl.policy
    case None => Ok([unprotected])
    case Some(policy) =>
      if xUserId.None? then Err(UnknownUser)
      else Scan(jwt, authorization, xUserId, policy, OwnerRoles(acl, xUserId.value))
  }

  /** `GET /axsg/acl/{name}`: the ACL when the caller may read it. */
  function GetAcl(acls: map<string, ACL>, jwt: JwtService, name: string, xUserId: Option<string>, authorization: Option<string>): (r: Result<ACL, Failure>)
    ensures name !in acls ==> r == Err(NotFound(name))
    ensures name in acls && acls[name].policy.None? ==> r == Ok(acls[name])
    ensures name in acls && acls[name].policy.Some? && xUserId.None? ==> r == Err(UnknownUser)
    ensures r.Ok? ==> name in acls && r.value == acls[name]
    ensures r.Ok? && acls[name].policy.Some? ==>
              var scan := Scan(jwt, authorization, xUserId, acls[name].policy.value, OwnerRoles(acls[name], xUserId.value));
              scan.Ok? && "read" in scan.value
    ensures r.Err? && r.error.RequestAuthorization? ==>
              name in acls && acls[name].policy == Some(r.error.policy) && xUserId.Some?
              && r.error.roles == (if acls[name].owner == xUserId then ["owner"] else [])
    ensures name in acls && acls[name].policy.Some? && xUserId.Some? ==>
              var scan := Scan(jwt, authorization, xUserId, acls[name].policy.value, OwnerRoles(acls[name], xUserId.value));
              && (scan.Err? ==> r == Err(scan.error))
              && (scan.Ok? ==> r == if "read" in scan.value then Ok(acls[name]) else Err(AccessDenied))
  {
    if name !in acls then Err(NotFound(name))
    else
      var acl := acls[name];
      match Held(jwt, acl, xUserId, authorization, "read")
      case Err(f) => Err(f)
      case Ok(permissions) => if "read" in permissions then Ok(acl) else Err(AccessDenied)
  }

  /** `GET /axsg/put/acl/{name}`: succeeds for an unprotected ACL and
      challenges for a protected one without looking at any token. */
  function GetPutPermission(acls: map<string, ACL>, name: string, xUserId: Option<string>): (r: Result<(), Failure>)
    ensures name !in acls ==> r == Err(NotFound(name))
    ensures r.Ok? <==> name in acls && acls[name].policy.None?
    ensures name in acls && acls[name].policy.Some? ==>
              r == if xUserId.None? then Err(UnknownUser)
                   else Err(RequestAuthorization(acls[name].policy.value, OwnerRoles(acls[name], xUserId.value)))
  {
    if name !in acls then Err(NotFound(name))
    else
      var acl := acls[name];
      match acl.policy
      case None => Ok(())
      case Some(policy) =>
        if xUserId.None? then Err(UnknownUser)
        else Err(RequestAuthorization(policy, OwnerRoles(acl, xUserId.value)))
  }

  /** `GET /axsg/post/acl`: always a challenge for the creation policy. */
  function GetPostPermission(xUserId: Option<string>): (r: Result<(), Failure>)
    ensures r == Err(RequestAuthorization(CreateAclPolicy, []))
  {
    Err(RequestAuthorization(CreateAclPolicy, []))
  }

  /** The authorisation half of `PUT /axsg/acl/{name}`: the stored ACL must
      exist and the caller must hold `write` under its policy (anyone may
      write an unprotected one). */
  function PutAuthorization(acls: map<string, ACL>, jwt: JwtService, name: string, xUserId: Option<string>, authorization: Option<string>): (r: Result<(), Failure>)
    ensures name !in acls ==> r == Err(NotFound(name))
    ensures name in acls && acls[name].policy.None? ==> r.Ok?
    ensures r.Ok? ==> name in acls
    ensures r.Ok? && acls[name].policy.Some? ==>
              && xUserId.Some?
              && var scan := Scan(jwt, authorization, xUserId, acls[name].policy.value, OwnerRoles(acls[name], xUserId.value));
                 scan.Ok? && "write" in scan.value
    ensures name in acls && acls[name].policy.Some? && xUserId.None? ==> r == Err(UnknownUser)
    ensures name in acls && acls[name].policy.Some? && xUserId.Some? ==>
              var scan := Scan(jwt, authorization, xUserId, acls[name].policy.value, OwnerRoles(acls[name], xUserId.value));
              && (scan.Err? ==> r == Err(scan.error))
              && (scan.Ok? ==> r == if "write" in scan.value then Ok(()) else Err(AccessDenied))
  {
    if name !in acls then Err(NotFound(name))
    else
      match Held(jwt, acls[name], xUserId, authorization, "write")
      case Err(f) => Err(f)
      case Ok(permissions) => if "write" in permissions then Ok(()) else Err(AccessDenied)
  }

  /** The authorisation half of `POST /axsg/acl`: `create` under the creation
      policy, with no roles. */
  function PostAuthorization(jwt: JwtService, xUserId: Option<string>, authorization: Option<string>): (r: Result<(), Failure>)
    ensures r.Ok? <==> (var scan := Scan(jwt, authorization, xUserId, CreateAclPolicy, []); scan.Ok? && "create" in scan.value)
    ensures xUserId.None? || authorization.None? ==> r == Err(RequestAuthorization(CreateAclPolicy, []))
    ensures var scan := Scan(jwt, authorization, xUserId, CreateAclPolicy, []);
            && (scan.Err? ==> r == Err(scan.error))
            && (scan.Ok? ==> r == if "create" in scan.value then Ok(()) else Err(AccessDenied))
  {
    match Scan(jwt, authorization, xUserId, CreateAclPolicy, [])
    case Err(f) => Err(f)
    case Ok(permissions) => if "create" in permissions then Ok(()) else Err(AccessDenied)
  }

  /** The subject, roles and policy of the bearer token presented to the
      exchange endpoint. A missing one is a null passed to a non-null Kotlin
      parameter, an exception without a modelled message. */
  function ExchangeRequest(jwt: JwtService, authorization: string): (r: Result<(string, seq<string>, string), Failure>)
    ensures r.Ok? <==> jwt.Verify(StripBearer(authorization)).Ok?
                       && var t := jwt.Verify(StripBearer(authorization)).value;
                          t.subject.Some? && t.claims.roles.Some? && t.claims.policy.Some?
    ensures r.Ok? ==> var t := jwt.Verify(StripBearer(authorization)).value;
                      r.value == (t.subject.value, t.claims.roles.value, t.claims.policy.value)
    ensures jwt.Verify(StripBearer(authorization)).Err? ==> r == Err(jwt.Verify(StripBearer(authorization)).error)
    ensures jwt.Verify(StripBearer(authorization)).Ok? && r.Err? ==> r.error == OtherException(None)
  {
    match jwt.Verify(StripBearer(authorization))
    case Err(f) => Err(f)
    case Ok(t) =>
      if t.subject.None? || t.claims.roles.None? || t.claims.policy.None? then Err(OtherException(None))
      else Ok((t.subject.value, t.claims.roles.value, t.claims.policy.value))
  }

  /** The permission token the exchange endpoint signs: the service's own
      issuer, the caller's subject and policy, the granted permissions and no
      roles claim, valid from `now` for `ttl` seconds. */
  function PermissionToken(issuer: string, now: int, ttl: int, subject: string, policy: string, permissions: seq<string>): (t: Token)
    ensures t.issuer == Some(issuer) && t.subject == Some(subject)
    ensures t.claims.policy == Some(policy) && t.claims.permissions == Some(permissions)
    ensures t.claims.roles.None?
    ensures t.issuedAt == Some(now) && t.expiresAt == Some(now + ttl)
  {
    Token(Some(issuer), Some(subject), Some(now), Some(now + ttl), Claims(Some(policy), None, Some(permissions)))
  }

  class ApiController {
    const service: AccessControlService
    const jwt: JwtService
    const issuer: string
    const ttl: int

    constructor (service: AccessControlService, jwt: JwtService, issuer: string, ttl: int)
      ensures this.service == service && this.jwt == jwt && this.issuer == issuer && this.ttl == ttl
    {
      this.service := service;
      this.jwt := jwt;
      this.issuer := issuer;
      this.ttl := ttl;
    }

    /** `GET /axsg/permissions`: verifies the bearer token and signs a token
        for its subject and policy whose permissions are those the resolver
        grants to the subject with the token's roles. */
    method GetPermissions(authorization: string, now: int) returns (r: Result<string, Failure>)
      ensures r.Err? <==> ExchangeRequest(jwt, authorization).Err?
      ensures r.Err? ==> r.error == ExchangeRequest(jwt, authorization).error
      ensures r.Ok? ==>
                var (subject, roles, policy) := ExchangeRequest(jwt, authorization).value;
                exists permissions :: Listing(permissions, Permitted(service.repos.acls, subject, roles, policy))
                  && r.value == jwt.Sign(PermissionToken(issuer, now, ttl, subject, policy, permissions))
    {
      var request := ExchangeRequest(jwt, authorization);
      if request.Err? {
        return Err(request.error);
      }
      var (subject, roles, policy) := request.value;
      var permissions := service.Permissions(subject, roles, policy);
      r := Ok(jwt.Sign(PermissionToken(issuer, now, ttl, subject, policy, permissions)));
    }

    /** The private `getPermissions`: a loop over the bearer tokens that
        returns at the first one that answers for the user and policy. */
    method ScanTokens(authHeader: Option<string>, userId: Option<string>, policy: string, roles: seq<string>) returns (r: Result<seq<string>, Failure>)
      ensures r == Scan(jwt, authHeader, userId, policy, roles)
    {
      if userId.None? || authHeader.None? {
        return Err(RequestAuthorization(policy, roles));
      }
      var tokens := BearerTokens(authHeader.value);
      var i := 0;
      while i < |tokens|
        invariant 0 <= i <= |tokens|
        invariant FirstAnswer(jwt, tokens, userId.value, policy) == FirstAnswer(jwt, tokens[i..], userId.value, policy)
      {
        assert tokens[i..][1..] == tokens[i + 1..];
        var verified := jwt.Verify(tokens[i]);
        if verified.Err? {
          return Err(verified.error);
        }
        var t := verified.value;
        if t.subject == userId && PolicyOf(t) == policy && t.claims.permissions.Some? {
          return Ok(t.claims.permissions.value);
        }
        i := i + 1;
      }
      return Err(RequestAuthorization(policy, roles));
    }

    /** `PUT /axsg/acl/{name}`: on success the body is stored under the path
        name; on any refusal the store is untouched. */
    method PutAcl(name: string, body: ACL, xUserId: Option<string>, authorization: Option<string>) returns (r: Result<(), Failure>)
      requires service.repos.Valid()
      modifies service.repos
      ensures service.repos.Valid()
      ensures r == PutAuthorization(old(service.repos.acls), jwt, name, xUserId, authorization)
      ensures r.Ok? ==> service.repos.acls == old(service.repos.acls)[name := body.(name := name)]
      ensures r.Err? ==> service.repos.acls == old(service.repos.acls)
      ensures service.repos.aces == old(service.repos.aces) && service.repos.groups == old(service.repos.groups)
    {
      var stored := service.Acl(name);
      if stored.None? {
        return Err(NotFound(name));
      }
      var acl := stored.value;
      var permissions: seq<string>;
      if acl.policy.Some? {
        if xUserId.None? {
          return Err(UnknownUser);
        }
        var scan := ScanTokens(authorization, xUserId, acl.policy.value, OwnerRoles(acl, xUserId.value));
        if scan.Err? {
          return Err(scan.error);
        }
        permissions := scan.value;
      } else {
        permissions := ["write"];
      }
      if "write" !in permissions {
        return Err(AccessDenied);
      }
      service.Update(body.(name := name));
      r := Ok(());
    }

    /** `POST /axsg/acl`: on success the body is stored under its own name;
        on any refusal the store is untouched. */
    method PostAcl(body: ACL, xUserId: Option<string>, authorization: Option<string>) returns (r: Result<(), Failure>)
      requires service.repos.Valid()
      modifies service.repos
      ensures service.repos.Valid()
      ensures r == PostAuthorization(jwt, xUserId, authorization)
      ensures r.Ok? ==> service.repos.acls == old(service.repos.acls)[body.name := body]
      ensures r.Err? ==> service.repos.acls == old(service.repos.acls)
      ensures service.repos.aces == old(service.repos.aces) && service.repos.groups == old(service.repos.groups)
    {
      var scan := ScanTokens(authorization, xUserId, CreateAclPolicy, []);
      if scan.Err? {
        return Err(scan.error);
      }
      if "create" !in scan.value {
        return Err(AccessDenied);
      }
      service.Update(body);
      r := Ok(());
    }
  }
}
