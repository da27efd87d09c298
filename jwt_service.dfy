/** `JwtService`: a fail-closed issuer gate in front of the signature check,
    and signing with the service's own algorithm. The issuer registry is the
    one `KnownApplications` fills at startup; here it is a value the service
    only reads. */
module Jwt {
  import opened Domain

  /** How Kotlin renders a nullable issuer inside a string template. */
  function IssuerText(issuer: Option<string>): string {
    if issuer.Some? then issuer.value else "null"
  }

  function InvalidIssuer(issuer: Option<string>): Failure {
    ApplicationException(HttpUnauthorized, "Issuer " + IssuerText(issuer) + " is invalid")
  }

  datatype JwtService = JwtService(algorithms: map<string, Algorithm>, algorithm: Algorithm, lib: Library)
  {
    predicate Registered(issuer: Option<string>) {
      issuer.Some? && issuer.value in algorithms
    }

    /** Only the issuer is read from the unverified decoding; it selects the
        registered verifier, and what is returned is what that verifier
        accepted. Library exceptions surface as other exceptions. */
    function Verify(raw: string): (r: Result<Token, Failure>)
      ensures lib.decode(raw).Err? ==> r == Err(OtherException(Some(lib.decode(raw).error)))
      ensures (lib.decode(raw).Ok? && !Registered(lib.decode(raw).value.issuer))
        ==> r == Err(InvalidIssuer(lib.decode(raw).value.issuer))
      ensures r.Ok? <==> lib.decode(raw).Ok? && Registered(lib.decode(raw).value.issuer)
                         && lib.verifyWith(algorithms[lib.decode(raw).value.issuer.value], raw).Ok?
      ensures r.Err? ==> !r.error.RequestAuthorization?
      ensures r.Ok? ==> r.value == lib.verifyWith(algorithms[lib.decode(raw).value.issuer.value], raw).value
      ensures lib.decode(raw).Ok? && Registered(lib.decode(raw).value.issuer)
              && lib.verifyWith(algorithms[lib.decode(raw).value.issuer.value], raw).Err?
        ==> r == Err(OtherException(Some(lib.verifyWith(algorithms[lib.decode(raw).value.issuer.value], raw).error)))
    {
      match lib.decode(raw)
      case Err(message) => Err(OtherException(Some(message)))
      case Ok(unverified) =>
        var issuer := unverified.issuer;
        if !Registered(issuer) then Err(InvalidIssuer(issuer))
        else
          match lib.verifyWith(algorithms[issuer.value], raw)
          case Err(message) => Err(OtherException(Some(message)))
          case Ok(token) => Ok(token)
    }

    /** Signs with the service's own algorithm, whatever issuer the token claims. */
    function Sign(t: Token): (raw: string)
      ensures IdealLibrary(lib) ==>
                && lib.decode(raw) == Ok(t) && lib.verifyWith(algorithm, raw) == Ok(t)
                && (forall other: Algorithm :: other != algorithm ==> lib.verifyWith(other, raw).Err?)
                && WireSafe(raw)
    {
      lib.sign(algorithm, t)
    }
  }

  /** The library behaves as an ideal signature scheme: what `alg` signed
      decodes to the same token, verifies under `alg` and under no other
      algorithm, and its wire form holds no whitespace and no comma. */
  ghost predicate IdealLibrary(lib: Library) {
    forall alg: Algorithm, t: Token {:trigger lib.sign(alg, t)} ::
      && lib.decode(lib.sign(alg, t)) == Ok(t)
      && lib.verifyWith(alg, lib.sign(alg, t)) == Ok(t)
      && (forall other: Algorithm {:trigger lib.verifyWith(other, lib.sign(alg, t))} ::
            other != alg ==> lib.verifyWith(other, lib.sign(alg, t)).Err?)
      && WireSafe(lib.sign(alg, t))
  }

  predicate WireSafe(raw: string) {
    forall k :: 0 <= k < |raw| ==> raw[k] != ',' && raw[k] != ' ' && !('\t' <= raw[k] <= '\r')
  }

  /** A token the service signed for its own issuer verifies to itself. */
  lemma SignThenVerify(jwt: JwtService, t: Token)
    requires IdealLibrary(jwt.lib)
    requires t.issuer.Some? && t.issuer.value in jwt.algorithms
    requires jwt.algorithms[t.issuer.value] == jwt.algorithm
    ensures jwt.Verify(jwt.Sign(t)) == Ok(t)
  {
    var raw := jwt.lib.sign(jwt.algorithm, t);
    assert jwt.lib.decode(raw) == Ok(t);
    assert jwt.lib.verifyWith(jwt.algorithm, raw) == Ok(t);
  }

  /** Signing with the service's own key does not make a token claiming
      another registered issuer acceptable: that issuer's verifier is applied. */
  lemma ForeignIssuerClaimRejected(jwt: JwtService, t: Token)
    requires IdealLibrary(jwt.lib)
    requires t.issuer.Some? && t.issuer.value in jwt.algorithms
    requires jwt.algorithms[t.issuer.value] != jwt.algorithm
    ensures jwt.Verify(jwt.Sign(t)).Err?
  {
    var raw := jwt.lib.sign(jwt.algorithm, t);
    assert jwt.lib.decode(raw) == Ok(t);
    assert jwt.lib.verifyWith(jwt.algorithms[t.issuer.value], raw).Err?;
  }

  /** An unregistered issuer is refused whatever the signature checker would
      say: two libraries that decode alike give the same answer. */
  lemma UnknownIssuerIgnoresSignature(jwt: JwtService, lib2: Library, raw: string)
    requires jwt.lib.decode(raw) == lib2.decode(raw)
    requires jwt.lib.decode(raw).Ok? && !jwt.Registered(jwt.lib.decode(raw).value.issuer)
    ensures jwt.Verify(raw) == jwt.(lib := lib2).Verify(raw)
    ensures jwt.Verify(raw).Err? && jwt.Verify(raw).error.status == HttpUnauthorized
  {
  }

  /** Only the entry of the claimed issuer matters: registries that agree on
      it verify alike, and there is no default verifier to fall back on. */
  lemma OnlyClaimedIssuerEntryMatters(jwt: JwtService, other: map<string, Algorithm>, raw: string)
    requires jwt.lib.decode(raw).Ok?
    requires var iss := jwt.lib.decode(raw).value.issuer;
             iss.Some? ==> (iss.value in jwt.algorithms <==> iss.value in other)
                           && (iss.value in other ==> other[iss.value] == jwt.algorithms[iss.value])
    ensures jwt.Verify(raw) == jwt.(algorithms := other).Verify(raw)
  {
  }
}
