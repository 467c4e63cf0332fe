/** The HTTP status-code constants of backend/src/constants/http.ts and the
    `HttpStatusCode` union of exactly those constants, as a subset type. */
module Http {

  // Success
  const OK: int := 200
  const CREATED: int := 201
  const ACCEPTED: int := 202
  const NO_CONTENT: int := 204

  // Redirection
  const MOVED_PERMANENTLY: int := 301
  const FOUND: int := 302
  const NOT_MODIFIED: int := 304

  // Client errors
  const BAD_REQUEST: int := 400
  const UNAUTHORIZED: int := 401
  const FORBIDDEN: int := 403
  const NOT_FOUND: int := 404
  const METHOD_NOT_ALLOWED: int := 405
  const CONFLICT: int := 409
  const UNPROCESSABLE_ENTITY: int := 422
  const TOO_MANY_REQUESTS: int := 429

  // Server errors
  const INTERNAL_SERVER_ERROR: int := 500
  const NOT_IMPLEMENTED: int := 501
  const BAD_GATEWAY: int := 502
  const SERVICE_UNAVAILABLE: int := 503
  const GATEWAY_TIMEOUT: int := 504

  const SuccessCodes: seq<int> := [OK, CREATED, ACCEPTED, NO_CONTENT]
  const RedirectionCodes: seq<int> := [MOVED_PERMANENTLY, FOUND, NOT_MODIFIED]
  const ClientErrorCodes: seq<int> :=
    [BAD_REQUEST, UNAUTHORIZED, FORBIDDEN, NOT_FOUND, METHOD_NOT_ALLOWED,
     CONFLICT, UNPROCESSABLE_ENTITY, TOO_MANY_REQUESTS]
  const ServerErrorCodes: seq<int> :=
    [INTERNAL_SERVER_ERROR, NOT_IMPLEMENTED, BAD_GATEWAY, SERVICE_UNAVAILABLE, GATEWAY_TIMEOUT]

  /** Every constant of the file, in declaration order: the members of the union. */
  const StatusCodes: seq<int> := SuccessCodes + RedirectionCodes + ClientErrorCodes + ServerErrorCodes

  /** Membership in the union, one constant at a time. */
  predicate IsHttpStatusCode(c: int) {
    || c == OK || c == CREATED || c == ACCEPTED || c == NO_CONTENT
    || c == MOVED_PERMANENTLY || c == FOUND || c == NOT_MODIFIED
    || c == BAD_REQUEST || c == UNAUTHORIZED || c == FORBIDDEN || c == NOT_FOUND
    || c == METHOD_NOT_ALLOWED || c == CONFLICT || c == UNPROCESSABLE_ENTITY || c == TOO_MANY_REQUESTS
    || c == INTERNAL_SERVER_ERROR || c == NOT_IMPLEMENTED || c == BAD_GATEWAY
    || c == SERVICE_UNAVAILABLE || c == GATEWAY_TIMEOUT
  }

  /** The `HttpStatusCode` union: the listed constants and nothing else. */
  type HttpStatusCode = c: int | IsHttpStatusCode(c) witness 200

  datatype StatusClass = Successful | Redirection | ClientError | ServerError

  /** The group a constant is listed under; each group is exactly the
      members of the union that lie in the matching hundred. */
  function ClassOf(c: HttpStatusCode): (k: StatusClass)
    ensures k == Successful <==> 200 <= c <= 299
    ensures k == Redirection <==> 300 <= c <= 399
    ensures k == ClientError <==> 400 <= c <= 499
    ensures k == ServerError <==> 500 <= c <= 599
  {
    StatusCodesDistinct();
    assert c in StatusCodes;
    assert c in SuccessCodes || c in RedirectionCodes || c in ClientErrorCodes || c in ServerErrorCodes;
    if c in SuccessCodes then Successful
    else if c in RedirectionCodes then Redirection
    else if c in ClientErrorCodes then ClientError
    else ServerError
  }

  /** The union is exactly the listed constants: twenty of them, pairwise distinct. */
  lemma StatusCodesDistinct()
    ensures forall c :: IsHttpStatusCode(c) <==> c in StatusCodes
    ensures |StatusCodes| == 20
    ensures forall i, j :: 0 <= i < j < |StatusCodes| ==> StatusCodes[i] != StatusCodes[j]
  {
  }

  /** The four codes the session manager raises have their standard values. */
  lemma ManagerCodes()
    ensures UNAUTHORIZED == 401 && NOT_FOUND == 404 && CONFLICT == 409 && INTERNAL_SERVER_ERROR == 500
    ensures IsHttpStatusCode(UNAUTHORIZED) && IsHttpStatusCode(NOT_FOUND)
    ensures IsHttpStatusCode(CONFLICT) && IsHttpStatusCode(INTERNAL_SERVER_ERROR)
  {
  }
}
