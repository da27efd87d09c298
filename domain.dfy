/** The records of the service (ACL, ACE, Group), the token record, the
    abstract JWT library, HTTP statuses and the failures that the controller
    raises and the exception handler turns into responses. */
module Domain {

  datatype Option<T> = None | Some(value: T)

  datatype Result<T, E> = Ok(value: T) | Err(error: E)

  /** An access-control entry: a principal and the operations it is granted. */
  datatype ACE = ACE(principalId: string, operations: set<string>)

  /** An access-control list, identified by its name. An absent policy means
      the ACL is unprotected. */
  datatype ACL = ACL(name: string, policy: Option<string>, owner: Option<string>, aces: set<ACE>)

  datatype Group = Group(name: string, members: set<string>)

  /** The claims the service reads or writes; any other claim is not modelled. */
  datatype Claims = Claims(policy: Option<string>, roles: Option<seq<string>>, permissions: Option<seq<string>>)

  /** A decoded JWT. */
  datatype Token = Token(
    issuer: Option<string>,
    subject: Option<string>,
    issuedAt: Option<int>,
    expiresAt: Option<int>,
    claims: Claims)

  datatype PublicKey = PublicKey(material: string)

  /** A signature algorithm instance: its name (such as `ECDSA256`) and its key. */
  datatype Algorithm = Algorithm(name: string, key: PublicKey)

  /** The JWT library, left abstract:
      `decode` parses a raw token without any trust decision (`JWT.decode`),
      `verifyWith` checks signature and time claims with one algorithm
      (`JWT.require(alg).build().verify`), `sign` encodes and signs.
      An `Err` carries the library's exception message. */
  datatype Library = Library(
    decode: string -> Result<Token, string>,
    verifyWith: (Algorithm, string) -> Result<Token, string>,
    sign: (Algorithm, Token) -> string)

  datatype HttpStatus = HttpOk | HttpUnauthorized | HttpForbidden | HttpNotFound | HttpInternalServerError
  {
    function Code(): int {
      match this
      case HttpOk => 200
      case HttpUnauthorized => 401
      case HttpForbidden => 403
      case HttpNotFound => 404
      case HttpInternalServerError => 500
    }

    function ReasonPhrase(): string {
      match this
      case HttpOk => "OK"
      case HttpUnauthorized => "Unauthorized"
      case HttpForbidden => "Forbidden"
      case HttpNotFound => "Not Found"
      case HttpInternalServerError => "Internal Server Error"
    }
  }

  /** What a request can fail with: an `ApplicationException` with a status,
      a `RequestAuthorization` challenge for a policy and roles, or any other
      exception, whose message may be absent. */
  datatype Failure =
    | ApplicationException(status: HttpStatus, message: string)
    | RequestAuthorization(policy: string, roles: seq<string>)
    | OtherException(localizedMessage: Option<string>)

  /** `xs` lists the elements of `s`, each once. */
  ghost predicate Listing(xs: seq<string>, s: set<string>) {
    && (forall x :: x in xs <==> x in s)
    && (forall i, j :: 0 <= i < j < |xs| ==> xs[i] != xs[j])
  }
}
