# AxsessGard authorization core in Dafny

AxsessGard is a small access-control service. It stores ACLs (a name, an
optional policy, an optional owner and a set of ACEs, each a principal and the
operations granted to it). It guards them with JWTs from trusted issuers. A
caller asking for a protected ACL must present a permission token for the
ACL's policy. Without one, the caller is challenged:

- the response carries a signed request token and the `Location` of the
  exchange endpoint;
- the exchange endpoint trades the request token for a permission token
  listing the operations the resolver grants.

The model covers:

- the permission resolver and the ACL store (`AccessControlService`);
- the access gate and the exchange endpoint (`ApiController`);
- the mapping of failures to responses (`GlobalExceptionHandler`);
- the issuer registry loader (`KnownApplications`) and the issuer gate in
  front of signature checking (`JwtService`);
- the seed-data loader (`DataInitializer`).

Modules, one per source file, plus shared ones:

| module | file | models |
|---|---|---|
| `Text` | `text.dfy` | the Kotlin/Java string operations the service uses: `startsWith`, `substringAfter`, literal `split`, `trim`, the `Bearer\s+` replacement |
| `Domain` | `domain.dfy` | ACL, ACE, Group, the token record, the abstract JWT library, HTTP statuses, the failure kinds |
| `Jwt` | `jwt_service.dfy` | `JwtService.verify` / `sign` |
| `AccessControl` | `access_control_service.dfy` | the repositories and `AccessControlService` |
| `Gate` | `api_controller.dfy` | `ApiController` |
| `ExceptionHandler` | `global_exception_handler.dfy` | `GlobalExceptionHandler` |
| `Seed` | `data_initializer.dfy` | `DataInitializer` |
| `Apps` | `known_applications.dfy` | `KnownApplications` and `AlgorithmFactory.createAlgorithm` |
| `Protocol` | `protocol.dfy` | challenge, exchange and retry, end to end |

How the pieces are modelled:

- Code that changes state step by step is imperative Dafny:
  - the repositories are a class whose maps the service methods reassign;
  - `Permissions` loops over the ACL's ACEs, accumulating into a set;
  - the token scan `ScanTokens` loops over the bearer tokens and returns early;
  - `PutAcl` and `PostAcl` write the store;
  - `DataInitializer.Run` and `KnownApplications.Run` read lines in loops.
- Each such method is proved equal to a specification function. The
  properties are proved as lemmas about those functions. The gate's
  read-only decisions and the exception handler are functions.
- Cryptography is abstract. `Library` bundles three functions: an unverified
  `decode`, a `verifyWith(algorithm, raw)` and a `sign(algorithm, token)`.
  The end-to-end lemmas assume `IdealLibrary`: what an algorithm signs
  decodes and verifies to the same token under that algorithm only, and its
  wire form holds no comma and no whitespace.
- Clocks and configuration are parameters: `now`, `ttl`, the issuer, the
  data file's lines and the applications files' lines.

Where the code and its own description differ, the model follows the code:

- A token that fails signature or expiry checking, or cannot be decoded,
  ends the request with the library's exception. That is a 500, not a 401.
  Only an unregistered issuer gives 401 ("Issuer … is invalid").
- A protected ACL asked for without `x-user-id` gives 401 "Unknown user",
  not 403, and no challenge.
- An ACE matches only when its principal equals the user id or one of the
  roles. No group membership is consulted, whatever the ACE's type.
- A challenge carries a policy and roles, and a group carries a name and
  members. Those are the only fields the rest of the code uses.
- The principal type on a seed `ACE:` line must name one of `USER`, `ROLE`
  or `GROUP`, but the stored ACE does not keep it.

## Model

| member | source | states |
|---|---|---|
| `Text.SubstringAfter` | src/main/kotlin/com/javax0/axsessgard/initializer/DataInitializer.kt:43 | the text after the first delimiter, with the line being prefix, delimiter, result; the whole string when the delimiter is absent |
| `Text.Split` | src/main/kotlin/com/javax0/axsessgard/controller/ApiController.kt:77 | a literal split never yields an empty list and no field contains the delimiter |
| `Text.JoinSplit` | src/main/kotlin/com/javax0/axsessgard/controller/ApiController.kt:77 | joining the fields of a split with the delimiter gives back the string |
| `Text.SplitJoin` | src/main/kotlin/com/javax0/axsessgard/initializer/DataInitializer.kt:59 | splitting delimiter-free fields joined by the delimiter gives back the fields |
| `Text.Trim` | src/main/kotlin/com/javax0/axsessgard/initializer/KnownApplications.kt:50 | the result has no whitespace at either end and is a contiguous piece of the input with only whitespace cut away |
| `Text.TrimUnique` | src/main/kotlin/com/javax0/axsessgard/initializer/KnownApplications.kt:50 | any piece with no whitespace at its ends and only whitespace around it is the trim |
| `Text.TrimAfterWord` | src/main/kotlin/com/javax0/axsessgard/initializer/KnownApplications.kt:54-67 | the trim of a key word and any text starts with the word, and trimming what follows gives the trim of the text, so `ID: app` and `ID:app` name the same id |
| `Text.TrimIdempotent` | src/main/kotlin/com/javax0/axsessgard/initializer/KnownApplications.kt:55 | trimming twice is trimming once |
| `Text.StripBearer` | src/main/kotlin/com/javax0/axsessgard/controller/ApiController.kt:25 | removing every `Bearer\s+` never lengthens the header |
| `Text.StripBearerWithoutSpace` | src/main/kotlin/com/javax0/axsessgard/controller/ApiController.kt:76 | text without whitespace is left unchanged by the `Bearer\s+` removal |
| `Text.StripBearerScheme` | src/main/kotlin/com/javax0/axsessgard/controller/ApiController.kt:50 | `Bearer ` in front of a token not starting with whitespace is removed |
| `Text.StripBearerBeforeComma` | src/main/kotlin/com/javax0/axsessgard/controller/ApiController.kt:76 | text without `\s` before a comma is kept, with no match running into the comma, and the removal goes on after the comma |
| `Text.JoinNoRegexSpace` | src/main/kotlin/com/javax0/axsessgard/controller/ApiController.kt:76-77 | fields without `\s` joined by a delimiter that is not `\s` hold no `\s` |
| `Text.StripSchemedJoin` | src/main/kotlin/com/javax0/axsessgard/controller/ApiController.kt:76 | removing the schemes from `Bearer t1,Bearer t2,…` leaves `t1,t2,…` for tokens without `\s` |
| `Jwt.JwtService.Verify` | src/main/kotlin/com/javax0/axsessgard/service/JwtService.kt:15-21 | a decoding failure is an other exception; an unregistered or absent issuer is 401 "Issuer … is invalid"; success iff the issuer is registered and its verifier accepts; the result is what that verifier returned; a rejection by that verifier is the library's exception (an other exception, so a 500), not a 401; never a challenge |
| `Jwt.JwtService.Sign` | src/main/kotlin/com/javax0/axsessgard/service/JwtService.kt:23-25 | under an ideal library the signed text decodes and verifies to the token under the own algorithm, under no other, and holds no comma or whitespace |
| `Jwt.SignThenVerify` | src/main/kotlin/com/javax0/axsessgard/service/JwtService.kt:15-25 | a token signed for the own issuer, registered to the own algorithm, verifies to itself |
| `Jwt.ForeignIssuerClaimRejected` | src/main/kotlin/com/javax0/axsessgard/service/JwtService.kt:23-25 | signing always uses the own algorithm, so a token claiming another registered issuer fails verification |
| `Jwt.UnknownIssuerIgnoresSignature` | src/main/kotlin/com/javax0/axsessgard/service/JwtService.kt:16-18 | for an unregistered issuer the signature checker plays no part and the answer is 401 |
| `Jwt.OnlyClaimedIssuerEntryMatters` | src/main/kotlin/com/javax0/axsessgard/service/JwtService.kt:17-19 | registries that agree on the claimed issuer verify alike: no default verifier |
| `AccessControl.Permitted` | src/main/kotlin/com/javax0/axsessgard/service/AccessControlService.kt:28-42 | empty when no ACL has the name; otherwise an operation is granted iff some ACE of the ACL whose principal is the user or one of the roles lists it |
| `AccessControl.GrantedBy` | src/main/kotlin/com/javax0/axsessgard/service/AccessControlService.kt:33-40 | every applicable ACE's operations are granted, and nothing else is |
| `AccessControl.PermittedMonotoneInRoles` | src/main/kotlin/com/javax0/axsessgard/service/AccessControlService.kt:33-40 | more roles never remove an operation |
| `AccessControl.PermittedMonotoneInAces` | src/main/kotlin/com/javax0/axsessgard/service/AccessControlService.kt:33-40 | more ACEs never remove an operation |
| `AccessControl.InapplicableAceGrantsNothing` | src/main/kotlin/com/javax0/axsessgard/service/AccessControlService.kt:34-38 | an ACE naming neither the user nor a role (a group, say) changes nothing |
| `AccessControl.AccessControlService.Acl` | src/main/kotlin/com/javax0/axsessgard/service/AccessControlService.kt:24-26 | absent iff no ACL has exactly that name; otherwise the stored ACL, which carries that name |
| `AccessControl.AccessControlService.Update` | src/main/kotlin/com/javax0/axsessgard/service/AccessControlService.kt:16-18 | the ACL is stored under its name; nothing else changes; the store stays keyed by name |
| `AccessControl.AccessControlService.Delete` | src/main/kotlin/com/javax0/axsessgard/service/AccessControlService.kt:20-22 | the ACL of that name is removed; nothing else changes |
| `AccessControl.AccessControlService.Permissions` | src/main/kotlin/com/javax0/axsessgard/service/AccessControlService.kt:28-42 | the empty list for a missing ACL; otherwise lists exactly the permitted operations, each once |
| `AccessControl.ToList` | src/main/kotlin/com/javax0/axsessgard/service/AccessControlService.kt:41 | the list holds the set's elements, each once |
| `Gate.FirstAnswer` | src/main/kotlin/com/javax0/axsessgard/controller/ApiController.kt:77-85 | the scan of the tokens in order never yields a challenge itself; with `FirstAnswerIsFirst` it is the scan's specification |
| `Gate.BearerTokens` | src/main/kotlin/com/javax0/axsessgard/controller/ApiController.kt:76-77 | at least one token, none containing a comma, and joining them with commas gives back the header with its schemes removed |
| `Gate.BearerJoin` | src/main/kotlin/com/javax0/axsessgard/controller/ApiController.kt:76-77 | `Bearer t1,t2,…` of signed tokens yields exactly `t1, t2, …` in order |
| `Gate.BearerEach` | src/main/kotlin/com/javax0/axsessgard/controller/ApiController.kt:76-77 | `Bearer t1,Bearer t2,…` of signed tokens yields exactly `t1, t2, …` in order |
| `Gate.FirstAnswerIsFirst` | src/main/kotlin/com/javax0/axsessgard/controller/ApiController.kt:77-85 | nothing is found iff every token verifies and none has the user's subject, the policy and permissions; otherwise the first token that fails or answers decides the result |
| `Gate.FirstAnswerIgnoresLaterTokens` | src/main/kotlin/com/javax0/axsessgard/controller/ApiController.kt:77-83 | once a token decides, tokens after it are never examined |
| `Gate.FirstAnswerAsWritten` | src/main/kotlin/com/javax0/axsessgard/controller/ApiController.kt:77-85 | the scan as written: whenever it succeeds it agrees with the intended scan, and it never yields a challenge itself; it differs only by failing on a matching token without permissions |
| `Gate.AsWrittenAgreesWithPermissions` | src/main/kotlin/com/javax0/axsessgard/controller/ApiController.kt:79-82 | the scan as written and the intended scan agree whenever every matching token carries permissions |
| `Gate.Scan` | src/main/kotlin/com/javax0/axsessgard/controller/ApiController.kt:68-86 | a missing user id or header is a challenge for exactly the policy and roles; any challenge carries exactly them |
| `Gate.Held` | src/main/kotlin/com/javax0/axsessgard/controller/ApiController.kt:105-113 | an unprotected ACL grants the endpoint's own operation; a protected one needs a user ("Unknown user") and then the scan under its policy with the owner-derived roles |
| `Gate.OwnerRoles` | src/main/kotlin/com/javax0/axsessgard/controller/ApiController.kt:109 | the caller holds the role `owner` iff they own the ACL, and no other role |
| `Gate.GetAcl` | src/main/kotlin/com/javax0/axsessgard/controller/ApiController.kt:103-118 | 404 for an unknown name; the ACL without a token when unprotected; "Unknown user" without a user; for an identified user the scan decides: its failure or challenge is the answer, and a token it finds gives the ACL iff it lists `read`, else "Access denied" with no new challenge; a challenge carries the ACL's policy and `["owner"]` exactly for the owner |
| `Gate.GetPutPermission` | src/main/kotlin/com/javax0/axsessgard/controller/ApiController.kt:127-135 | 404 for an unknown name; success iff the ACL is unprotected; a protected one is challenged without reading any token, or "Unknown user" |
| `Gate.GetPostPermission` | src/main/kotlin/com/javax0/axsessgard/controller/ApiController.kt:138-143 | always a challenge for `createAcl` with no roles |
| `Gate.PutAuthorization` | src/main/kotlin/com/javax0/axsessgard/controller/ApiController.kt:157-168 | 404 for an unknown name; an unprotected ACL may be written; a protected one without a user is "Unknown user"; for an identified user the scan decides: its failure or challenge is the answer, and a token it finds allows the write iff it lists `write`, else "Access denied" |
| `Gate.PostAuthorization` | src/main/kotlin/com/javax0/axsessgard/controller/ApiController.kt:180-181 | a scan failure (challenge, foreign-token error) is passed through unchanged; a scan under `createAcl` with no roles that finds `create` allows, one that does not is "Access denied"; a missing user or header is a challenge |
| `Gate.ExchangeRequest` | src/main/kotlin/com/javax0/axsessgard/controller/ApiController.kt:50-54 | succeeds iff the bearer token verifies and carries subject, roles and policy, and then yields exactly those; a verification failure is passed through unchanged; a verified token missing one of the three is an other exception without a message |
| `Gate.PermissionToken` | src/main/kotlin/com/javax0/axsessgard/controller/ApiController.kt:55-61 | the signed token names the service's own issuer, the caller's subject and policy and the granted permissions, carries no roles claim, is issued at `now` and expires at `now + ttl` |
| `Gate.ApiController.GetPermissions` | src/main/kotlin/com/javax0/axsessgard/controller/ApiController.kt:49-62 | fails exactly as the request fails; otherwise signs, for the token's subject and policy, a token whose permissions list exactly what the resolver grants the subject with the token's roles |
| `Gate.ApiController.ScanTokens` | src/main/kotlin/com/javax0/axsessgard/controller/ApiController.kt:68-86 | the loop returns what `Scan` specifies |
| `Gate.ApiController.PutAcl` | src/main/kotlin/com/javax0/axsessgard/controller/ApiController.kt:150-172 | the result is `PutAuthorization`; on success the body is stored under the path name; on refusal the store is unchanged |
| `Gate.ApiController.PostAcl` | src/main/kotlin/com/javax0/axsessgard/controller/ApiController.kt:174-185 | the result is `PostAuthorization`; on success the body is stored under its own name; on refusal the store is unchanged |
| `ExceptionHandler.HandleAllExceptions` | src/main/kotlin/com/javax0/axsessgard/controller/GlobalExceptionHandler.kt:35-45 | 500, body status 500, the exception's message or "An unexpected error occurred", no challenge headers |
| `ExceptionHandler.HandleApplicationException` | src/main/kotlin/com/javax0/axsessgard/controller/GlobalExceptionHandler.kt:47-57 | the exception's status in the response and the body, its reason phrase and its message, no challenge headers |
| `ExceptionHandler.LocationUrl` | src/main/kotlin/com/javax0/axsessgard/controller/GlobalExceptionHandler.kt:61-68 | ends in `/axsg/permissions` after the forwarded value, else the context path, without doubling a trailing slash |
| `ExceptionHandler.HandleRequestAuthorization` | src/main/kotlin/com/javax0/axsessgard/controller/GlobalExceptionHandler.kt:59-104 | 401 with `Location` and a signed request token for the caller, policy and roles iff `x-user-id` is present, else 403 with neither; body status equals the status |
| `ExceptionHandler.Handle` | src/main/kotlin/com/javax0/axsessgard/controller/GlobalExceptionHandler.kt:35-104 | body status and reason always match the response status; challenge headers appear iff a challenge meets a user id; other exceptions are 500 |
| `ExceptionHandler.RequestToken` | src/main/kotlin/com/javax0/axsessgard/controller/GlobalExceptionHandler.kt:79-86 | the request token names the own issuer, the caller, the policy and the roles, carries no permissions, and expires `ttl` after it is issued |
| `ExceptionHandler.RequestTokenVerifies` | src/main/kotlin/com/javax0/axsessgard/controller/GlobalExceptionHandler.kt:79-86 | the request token verifies to subject = `x-user-id`, issuer = own issuer, the challenge's policy and roles, no permissions, expiry = issued-at + ttl |
| `Seed.PrincipalTypeOf` | src/main/kotlin/com/javax0/axsessgard/initializer/DataInitializer.kt:62 | succeeds exactly for `USER`, `ROLE`, `GROUP`; otherwise names the rejected constant |
| `Seed.AceOfLine` | src/main/kotlin/com/javax0/axsessgard/initializer/DataInitializer.kt:59-64 | an ACE is built iff the line has at least four colon fields and a known type |
| `Seed.SeedLine` | src/main/kotlin/com/javax0/axsessgard/initializer/DataInitializer.kt:41-82 | a line fails exactly when it is a `POLICY:`/`OWNER:` line without a current ACL, an `ACE:` line with a bad field list or type or without a current ACL, or a `MEMBER:`/`MEMBERS:` line without a current group |
| `Seed.SeedLines` | src/main/kotlin/com/javax0/axsessgard/initializer/DataInitializer.kt:40-83 | a failed run stops at a line that fails, with that line's error, on the state it ends in |
| `Seed.PrefixesExclusive` | src/main/kotlin/com/javax0/axsessgard/initializer/DataInitializer.kt:41-82 | a line starts with at most one of the seven prefixes, so the independent `if`s act as a chain |
| `Seed.AclLineStartsRecord` | src/main/kotlin/com/javax0/axsessgard/initializer/DataInitializer.kt:42-45 | `ACL:name` saves and makes current an ACL with that name and no policy, owner or ACEs; nothing else changes |
| `Seed.PolicyLineSetsPolicy` | src/main/kotlin/com/javax0/axsessgard/initializer/DataInitializer.kt:46-50 | `POLICY:p` sets only the policy of the current ACL and saves it; without one, "POLICY line without ACL" |
| `Seed.OwnerLineSetsOwner` | src/main/kotlin/com/javax0/axsessgard/initializer/DataInitializer.kt:52-56 | `OWNER:o` sets only the owner of the current ACL and saves it; without one, "OWNER line without ACL" |
| `Seed.AceLineAddsAce` | src/main/kotlin/com/javax0/axsessgard/initializer/DataInitializer.kt:58-69 | an `ACE:type:principal:ops` line adds the ACE with the trimmed operations to the current ACL and to the ACE store; an unknown type fails before the missing-ACL check |
| `Seed.ShortAceLineFails` | src/main/kotlin/com/javax0/axsessgard/initializer/DataInitializer.kt:59 | an `ACE:` line with fewer than four fields fails at the first missing index |
| `Seed.GroupLineKeepsCurrentAcl` | src/main/kotlin/com/javax0/axsessgard/initializer/DataInitializer.kt:72-75 | `GROUP:name` saves and makes current an empty group; the current ACL and the ACL store are untouched |
| `Seed.MemberLineAddsMembers` | src/main/kotlin/com/javax0/axsessgard/initializer/DataInitializer.kt:77-81 | `MEMBER:`/`MEMBERS:` add the trimmed names to the current group and save it; without one, "MEMBER line without GROUP" |
| `Seed.UnrecognisedLineSkipped` | src/main/kotlin/com/javax0/axsessgard/initializer/DataInitializer.kt:41-82 | a line with no known prefix changes nothing |
| `Seed.SeedLineKeepsConsistent` | src/main/kotlin/com/javax0/axsessgard/initializer/DataInitializer.kt:42-81 | each line keeps the stores keyed by name and the current records saved, forgets no name, and only appends ACEs |
| `Seed.SeedLinesKeepConsistent` | src/main/kotlin/com/javax0/axsessgard/initializer/DataInitializer.kt:41-82 | the same over a whole run, failed or not |
| `Seed.SeedLinesAppend` | src/main/kotlin/com/javax0/axsessgard/initializer/DataInitializer.kt:41-82 | a run over two parts is the first part's run followed, only if it did not fail, by the second's |
| `Seed.SeedRunKeyedByName` | src/main/kotlin/com/javax0/axsessgard/initializer/DataInitializer.kt:30-84 | a loaded store is keyed by name |
| `Seed.DataInitializer.Run` | src/main/kotlin/com/javax0/axsessgard/initializer/DataInitializer.kt:30-84 | nothing happens unless a file is configured and all three stores are empty; otherwise the stores are what the lines produce, up to and excluding a failing line, and that line's failure is returned |
| `Apps.CreateAlgorithm` | src/main/kotlin/com/javax0/axsessgard/utils/AlgorithmFactory.kt:24-27 | builds the named algorithm with the key iff the name is supported; otherwise "Unsupported algorithm: name" |
| `Apps.KeyLine` | src/main/kotlin/com/javax0/axsessgard/initializer/KnownApplications.kt:66-76 | a successful key line had a decodable key, a set and new id and a supported algorithm, and adds exactly that id |
| `Apps.KeyLineRegistersOne` | src/main/kotlin/com/javax0/axsessgard/initializer/KnownApplications.kt:66-76 | a successful `KEY:` line adds exactly one entry, for the current id, with the current algorithm |
| `Apps.KeyLineNotOther` | src/main/kotlin/com/javax0/axsessgard/initializer/KnownApplications.kt:51-66 | a `KEY:` line is neither ignored nor any other key |
| `Apps.LineAction` | src/main/kotlin/com/javax0/axsessgard/initializer/KnownApplications.kt:51-81 | a successful line never overwrites or removes an entry, and only a `KEY:` line changes the registry |
| `Apps.AppLine` | src/main/kotlin/com/javax0/axsessgard/initializer/KnownApplications.kt:49-82 | a line, trimmed first, never overwrites or removes an entry |
| `Apps.AppLines` | src/main/kotlin/com/javax0/axsessgard/initializer/KnownApplications.kt:45-84 | a file never overwrites or removes an entry; a failed file stops at a line that fails, with that line's error, on the state it ends in |
| `Apps.LoadFiles` | src/main/kotlin/com/javax0/axsessgard/initializer/KnownApplications.kt:44-85 | neither do all the files, however the load ends |
| `Apps.OwnIssuerKept` | src/main/kotlin/com/javax0/axsessgard/initializer/KnownApplications.kt:42 | the own issuer registered first keeps its own algorithm after the load |
| `Apps.CommentLineIgnored` | src/main/kotlin/com/javax0/axsessgard/initializer/KnownApplications.kt:50-53 | blank lines and `#`, `//`, `--` lines change nothing |
| `Apps.UnknownLineFails` | src/main/kotlin/com/javax0/axsessgard/initializer/KnownApplications.kt:79-81 | any other line fails with "Unknown line: …" |
| `Apps.KeyLineRefused` | src/main/kotlin/com/javax0/axsessgard/initializer/KnownApplications.kt:71-76 | a key for an id already registered fails with "multiple defined"; a key without an id fails with "ID not set" |
| `Apps.IdLineSetsId` | src/main/kotlin/com/javax0/axsessgard/initializer/KnownApplications.kt:50-56 | any line whose trim starts with `ID:` sets the id to the trimmed remainder, and nothing else |
| `Apps.AlgoLineSetsAlgo` | src/main/kotlin/com/javax0/axsessgard/initializer/KnownApplications.kt:50-60 | any line whose trim starts with `ALGO:` sets the algorithm name to the trimmed remainder, and nothing else |
| `Apps.AlgoTypeLineSetsAlgoType` | src/main/kotlin/com/javax0/axsessgard/initializer/KnownApplications.kt:50-64 | any line whose trim starts with `ALGO_TYPE:` sets the key type to the trimmed remainder, and nothing else |
| `Apps.KeyLineApplies` | src/main/kotlin/com/javax0/axsessgard/initializer/KnownApplications.kt:50-67 | any line whose trim starts with `KEY:` is decided by `KeyLine` on the trimmed remainder |
| `Apps.DefaultsApplyPerFile` | src/main/kotlin/com/javax0/axsessgard/initializer/KnownApplications.kt:46-48 | a file with only `ID:<id>` and `KEY:<key>` lines, spaces allowed, registers the trimmed id with the trimmed key decoded as `EC` and algorithm `ECDSA256` |
| `Apps.KnownApplications.Run` | src/main/kotlin/com/javax0/axsessgard/initializer/KnownApplications.kt:41-86 | the registry is the own issuer's entry followed by the files' load, the failure is the load's, and the own issuer keeps its algorithm |
| `Apps.KnownApplications.ReadFile` | src/main/kotlin/com/javax0/axsessgard/initializer/KnownApplications.kt:45-84 | one file from the defaults gives what the file's specification gives |
| `Apps.KnownApplications.ReadLine` | src/main/kotlin/com/javax0/axsessgard/initializer/KnownApplications.kt:49-82 | one line updates the file variables and the registry as specified; a failing line changes nothing |
| `Protocol.BearerOfSigned` | src/main/kotlin/com/javax0/axsessgard/controller/ApiController.kt:76-77 | `Bearer <signed token>` yields exactly that one token |
| `Protocol.ChallengeIssued` | src/main/kotlin/com/javax0/axsessgard/controller/ApiController.kt:74-75 | a caller without a token is challenged and the handler answers 401 with a request token for the ACL's policy and roles |
| `Protocol.RequestTokenExchanges` | src/main/kotlin/com/javax0/axsessgard/controller/ApiController.kt:49-54 | the exchange reads back the caller, roles and policy of the request token |
| `Protocol.PermissionTokenAdmits` | src/main/kotlin/com/javax0/axsessgard/controller/ApiController.kt:103-118 | retrying with the permission token returns the ACL iff the resolver grants `read`, and "Access denied" otherwise |
| `Protocol.CreateTokenAuthorizes` | src/main/kotlin/com/javax0/axsessgard/controller/ApiController.kt:174-185 | a permission token for the creation policy, signed by the service for the caller, authorises `POST /axsg/acl` iff its permissions include `create`, and is "Access denied" otherwise |
| `Protocol.OtherUsersTokenRechallenged` | src/main/kotlin/com/javax0/axsessgard/controller/ApiController.kt:81 | another user's permission token leads to a new challenge |
| `Protocol.UntrustedIssuerRefused` | src/main/kotlin/com/javax0/axsessgard/service/JwtService.kt:16-18 | a token of an unregistered issuer ends the request with 401 "Issuer … is invalid" and no challenge headers |
| `Protocol.Handshake` | src/main/kotlin/com/javax0/axsessgard/controller/GlobalExceptionHandler.kt:72-92 | challenge, exchange and retry compose: the caller ends with the ACL iff `read` is granted under the policy |
| `Protocol.RequestTokenAsBearer` | src/main/kotlin/com/javax0/axsessgard/controller/ApiController.kt:79-82 | the request token sent as bearer makes the scan as written fail with a 500, while the intended scan challenges again |

## Left out

- Cryptography: JWT encoding and ECDSA signatures belong to the JWT library, which is the abstract `Library`. The round-trip lemmas assume `IdealLibrary`.
- Key decoding: Base64, `KeyFactory` and the cast to an EC key are the abstract `KeyTools.decodeKey`.
- Apps.CreateAlgorithm: the factory is a set of supported names. A supported algorithm whose constructor rejects the decoded key type (an RSA algorithm given an EC key) fails in the source but is built here.
- Time: `now` is a parameter. The source reads the clock once for issued-at and once more for expiry; the model uses one instant. Expiry is enforced only inside the abstract verifier. `IdealLibrary` makes every token the service signs verify whatever its expiry, so `Protocol.PermissionTokenAdmits` and `Protocol.Handshake` hold for any `later` and any `ttl`, including a `ttl` of zero or less, where the real library would reject the token as expired.
- The `ttl` setting is an integer parameter; a value that does not parse is not modelled.
- HTTP: Spring routing, header binding, Gson serialisation and the response timestamp (a parameter) are not modelled. `echoRequest` and `HomeController` are not modelled either.
- Gate.ApiController.PutAcl and Gate.ApiController.PostAcl: the request body is an `ACL` value. Converting an arbitrary JSON body to an ACL is not modelled.
- Gate.ApiController.GetPermissions: the `Authorization` header is a plain string. A request without it is rejected by Spring before the endpoint runs.
- JVM exception messages: a null-pointer failure (a missing claim at the exchange endpoint, the as-written scan) is modelled as an other exception without a message; Kotlin's null-check message is not modelled. The text of the index-out-of-bounds and unknown-enum-constant messages is not modelled either.
- ExceptionHandler.LocationUrl: URI parsing, encoding and normalisation by `ServletUriComponentsBuilder` are left out. Appending the two segments is modelled as concatenation that does not double one trailing slash.
- JPA: generated ids, cascades and the unique constraint on ACL and group names are left out. The stores are maps keyed by name, and `count() == 0` is an empty map.
- Gate.ApiController.PostAcl: posting a name that is already stored overwrites it in the model. The database's unique constraint would reject it.
- Seed.DataInitializer.Run: a second `ACL:` or `GROUP:` line with a name already stored overwrites that record in the model. The database's unique constraint would reject it.
- AccessControl.AccessControlService.Delete: removes by name, where the source deletes the entity by its id.
- `AccessControlService.find` is not modelled: the repository does not declare the query it calls.
- Configuration and I/O:
  - reading the data file and the `AXSG_INIT_DATA` setting are replaced by the optional list of lines;
  - listing and reading the applications directory are replaced by the optional list of files' lines, in the listing's order;
  - the message of an unknown line names the applications directory path, as the source does.
- Shared state: the source keeps the issuer registry in a global map that `JwtService` reads live. Here `JwtService` holds the registry as a value.
- The message of `RequestAuthorization` is not modelled; its handler never reads it.

## Findings

| source | as written | input that shows it | evidently intended | confidence | as-written member | corrected member |
|---|---|---|---|---|---|---|
| src/main/kotlin/com/javax0/axsessgard/controller/ApiController.kt:79-82 | The scan keeps a token when `getClaim("permissions") != null`. java-jwt 4.4.0 returns a placeholder claim for a missing claim, never null, so the test always holds. A token with the caller's subject and the policy but no `permissions` claim is selected. Its list is null, and the request fails with a null-pointer exception, a 500. | `GET /axsg/acl/{name}` on an ACL with policy `p`, with `x-user-id: alice` and `Authorization: Bearer <the X-Request-Authorization token the service issued to alice for p>` | Skip tokens without a `permissions` claim. The caller is then challenged again with 401 and a fresh request token. | not executed; rests on java-jwt returning a null-object claim | `Gate.FirstAnswerAsWritten`, `Protocol.RequestTokenAsBearer` | `Gate.FirstAnswer`, `Gate.FirstAnswerIsFirst` |
