/** The challenge–exchange–retry protocol end to end: the gate challenges,
    the exception handler answers with a request token, the exchange endpoint
    turns it into a permission token, and the gate admits the retry. All of
    it assumes an ideal signature library and the service's own issuer
    registered to its own algorithm. */
module Protocol {
  import opened Domain
  import opened Text
  import opened Jwt
  import opened AccessControl
  import opened Gate
  import opened ExceptionHandler

  /** The service can verify what it signs for its own issuer. */
  ghost predicate Trusting(cfg: HandlerConfig) {
    IdealLibrary(cfg.jwt.lib) && cfg.issuer in cfg.jwt.algorithms && cfg.jwt.algorithms[cfg.issuer] == cfg.jwt.algorithm
  }

  /** A signed token sent as `Bearer <token>` is the one token the gate reads. */
  lemma {:induction false} BearerOfSigned(raw: string)
    requires WireSafe(raw)
    ensures StripBearer("Bearer " + raw) == raw
    ensures BearerTokens("Bearer " + raw) == [raw]
  {
    WireSafeToken(raw);
    StripBearerScheme(raw);
    StripBearerWithoutSpace(raw);
  }

  /** A caller without a token is challenged for the ACL's policy, and the
      handler answers 401 with a request token for that caller, policy and
      the owner-derived roles. */
  lemma ChallengeIssued(acls: map<string, ACL>, cfg: HandlerConfig, name: string, req: RequestHeaders, now: int, timestamp: int)
    requires name in acls && acls[name].policy.Some?
    requires req.xUserId.Some?
    ensures var acl := acls[name];
            var roles := OwnerRoles(acl, req.xUserId.value);
            var r := GetAcl(acls, cfg.jwt, name, req.xUserId, None);
            && r == Err(RequestAuthorization(acl.policy.value, roles))
            && var response := Handle(r.error, req, cfg, now, timestamp);
               && response.status == HttpUnauthorized
               && response.requestAuthorization
                  == Some(cfg.jwt.Sign(RequestToken(cfg.issuer, now, cfg.ttl, req.xUserId.value, acl.policy.value, roles)))
  {
  }

  /** The exchange endpoint reads back from the request token exactly the
      caller, the roles and the policy of the challenge. */
  lemma RequestTokenExchanges(cfg: HandlerConfig, now: int, userId: string, policy: string, roles: seq<string>)
    requires Trusting(cfg)
    ensures ExchangeRequest(cfg.jwt, "Bearer " + cfg.jwt.Sign(RequestToken(cfg.issuer, now, cfg.ttl, userId, policy, roles)))
         == Ok((userId, roles, policy))
  {
    var t := RequestToken(cfg.issuer, now, cfg.ttl, userId, policy, roles);
    var raw := cfg.jwt.Sign(t);
    assert WireSafe(raw);
    BearerOfSigned(raw);
    SignThenVerify(cfg.jwt, t);
  }

  /** Retrying with the permission token admits the caller exactly when the
      resolver grants `read` under the policy. */
  lemma PermissionTokenAdmits(acls: map<string, ACL>, cfg: HandlerConfig, name: string, userId: string, later: int, permissions: seq<string>)
    requires Trusting(cfg)
    requires name in acls && acls[name].policy.Some?
    requires Listing(permissions, Permitted(acls, userId, OwnerRoles(acls[name], userId), acls[name].policy.value))
    ensures var acl := acls[name];
            var raw := cfg.jwt.Sign(PermissionToken(cfg.issuer, later, cfg.ttl, userId, acl.policy.value, permissions));
            GetAcl(acls, cfg.jwt, name, Some(userId), Some("Bearer " + raw))
              == if "read" in Permitted(acls, userId, OwnerRoles(acl, userId), acl.policy.value) then Ok(acl) else Err(AccessDenied)
  {
    var acl := acls[name];
    var t := PermissionToken(cfg.issuer, later, cfg.ttl, userId, acl.policy.value, permissions);
    var raw := cfg.jwt.Sign(t);
    assert WireSafe(raw);
    BearerOfSigned(raw);
    SignThenVerify(cfg.jwt, t);
    assert [raw][1..] == [];
    assert FirstAnswer(cfg.jwt, [raw], userId, acl.policy.value) == Ok(Some(permissions));
  }

  /** Creating an ACL: a permission token for the creation policy, signed by
      the service for the caller, authorises the `POST` exactly when the
      permissions it lists include `create`. */
  lemma CreateTokenAuthorizes(cfg: HandlerConfig, userId: string, later: int, permissions: seq<string>)
    requires Trusting(cfg)
    ensures var raw := cfg.jwt.Sign(PermissionToken(cfg.issuer, later, cfg.ttl, userId, CreateAclPolicy, permissions));
            PostAuthorization(cfg.jwt, Some(userId), Some("Bearer " + raw))
              == if "create" in permissions then Ok(()) else Err(AccessDenied)
  {
    var t := PermissionToken(cfg.issuer, later, cfg.ttl, userId, CreateAclPolicy, permissions);
    var raw := cfg.jwt.Sign(t);
    assert WireSafe(raw);
    BearerOfSigned(raw);
    SignThenVerify(cfg.jwt, t);
    assert [raw][1..] == [];
    assert FirstAnswer(cfg.jwt, [raw], userId, CreateAclPolicy) == Ok(Some(permissions));
  }

  /** A permission token issued to another user is not taken: the caller is
      challenged again. */
  lemma OtherUsersTokenRechallenged(acls: map<string, ACL>, cfg: HandlerConfig, name: string, userId: string, other: string, later: int, permissions: seq<string>)
    requires Trusting(cfg)
    requires name in acls && acls[name].policy.Some?
    requires other != userId
    ensures var acl := acls[name];
            var raw := cfg.jwt.Sign(PermissionToken(cfg.issuer, later, cfg.ttl, other, acl.policy.value, permissions));
            GetAcl(acls, cfg.jwt, name, Some(userId), Some("Bearer " + raw))
              == Err(RequestAuthorization(acl.policy.value, OwnerRoles(acl, userId)))
  {
    var acl := acls[name];
    var t := PermissionToken(cfg.issuer, later, cfg.ttl, other, acl.policy.value, permissions);
    var raw := cfg.jwt.Sign(t);
    assert WireSafe(raw);
    BearerOfSigned(raw);
    SignThenVerify(cfg.jwt, t);
    assert [raw][1..] == [];
    assert FirstAnswer(cfg.jwt, [raw], userId, acl.policy.value) == Ok(None);
  }

  /** A token from an issuer that is not registered ends the request with
      401 "Issuer … is invalid", whatever its signature, and no challenge. */
  lemma UntrustedIssuerRefused(acls: map<string, ACL>, cfg: HandlerConfig, name: string, req: RequestHeaders, raw: string, now: int, timestamp: int)
    requires name in acls && acls[name].policy.Some?
    requires req.xUserId.Some?
    requires WireSafe(raw)
    requires cfg.jwt.lib.decode(raw).Ok? && !cfg.jwt.Registered(cfg.jwt.lib.decode(raw).value.issuer)
    ensures var r := GetAcl(acls, cfg.jwt, name, req.xUserId, Some("Bearer " + raw));
            && r == Err(InvalidIssuer(cfg.jwt.lib.decode(raw).value.issuer))
            && var response := Handle(r.error, req, cfg, now, timestamp);
               response.status == HttpUnauthorized && response.location.None? && response.requestAuthorization.None?
  {
    BearerOfSigned(raw);
    assert [raw][1..] == [];
  }

  /** The whole handshake: challenge, exchange of the request token, retry
      with the permission token the exchange signs. */
  lemma Handshake(acls: map<string, ACL>, cfg: HandlerConfig, name: string, req: RequestHeaders, now: int, later: int, timestamp: int, permissions: seq<string>)
    requires Trusting(cfg)
    requires name in acls && acls[name].policy.Some?
    requires req.xUserId.Some?
    ensures var acl := acls[name];
            var userId := req.xUserId.value;
            var response := Handle(GetAcl(acls, cfg.jwt, name, req.xUserId, None).error, req, cfg, now, timestamp);
            var exchanged := ExchangeRequest(cfg.jwt, "Bearer " + response.requestAuthorization.value);
            && exchanged == Ok((userId, OwnerRoles(acl, userId), acl.policy.value))
            && (Listing(permissions, Permitted(acls, userId, OwnerRoles(acl, userId), acl.policy.value)) ==>
                  var raw := cfg.jwt.Sign(PermissionToken(cfg.issuer, later, cfg.ttl, userId, acl.policy.value, permissions));
                  GetAcl(acls, cfg.jwt, name, req.xUserId, Some("Bearer " + raw))
                    == if "read" in Permitted(acls, userId, OwnerRoles(acl, userId), acl.policy.value) then Ok(acl) else Err(AccessDenied))
  {
    var acl := acls[name];
    var userId := req.xUserId.value;
    ChallengeIssued(acls, cfg, name, req, now, timestamp);
    RequestTokenExchanges(cfg, now, userId, acl.policy.value, OwnerRoles(acl, userId));
    if Listing(permissions, Permitted(acls, userId, OwnerRoles(acl, userId), acl.policy.value)) {
      PermissionTokenAdmits(acls, cfg, name, userId, later, permissions);
    }
  }

  /** The request token sent back as the bearer token: the scan as written
      selects it (right subject and policy) and fails on its missing
      `permissions`, a 500; the intended scan skips it and challenges again. */
  lemma RequestTokenAsBearer(cfg: HandlerConfig, now: int, userId: string, policy: string, roles: seq<string>, req: RequestHeaders, timestamp: int)
    requires Trusting(cfg)
    ensures var raw := cfg.jwt.Sign(RequestToken(cfg.issuer, now, cfg.ttl, userId, policy, roles));
            var tokens := BearerTokens("Bearer " + raw);
            && FirstAnswerAsWritten(cfg.jwt, tokens, userId, policy) == Err(OtherException(None))
            && Handle(OtherException(None), req, cfg, now, timestamp).status == HttpInternalServerError
            && FirstAnswer(cfg.jwt, tokens, userId, policy) == Ok(None)
            && Scan(cfg.jwt, Some("Bearer " + raw), Some(userId), policy, roles) == Err(RequestAuthorization(policy, roles))
  {
    var t := RequestToken(cfg.issuer, now, cfg.ttl, userId, policy, roles);
    var raw := cfg.jwt.Sign(t);
    assert WireSafe(raw);
    BearerOfSigned(raw);
    SignThenVerify(cfg.jwt, t);
    assert [raw][1..] == [];
  }
}
