/**
 * The mapping from use-case errors to HTTP responses (ErrorMap and
 * MapErrorToHTTPResponse in handler/errors.go). Lookup is by error
 * identity; anything not in the map is answered with 500 and a fixed
 * message, so the text of an unexpected error never reaches the client.
 */
module HttpErrors {
  import opened Errors

  const StatusBadRequest: int := 400
  const StatusUnauthorized: int := 401
  const StatusNotFound: int := 404
  const StatusConflict: int := 409
  const StatusPreconditionFailed: int := 412
  const StatusInternalServerError: int := 500

  const FallbackMessage: string := "something went wrong"

  /** The JSON body of an error response. */
  datatype CustomError = CustomError(statusCode: int, message: string)

  /** What echo.NewHTTPError builds: the status and the body. */
  datatype HttpError = HttpError(code: int, body: CustomError)

  const ErrorMap: map<Error, int> := map[
    EmailRequired := StatusBadRequest,
    PasswordRequired := StatusBadRequest,
    RoleRequired := StatusBadRequest,
    ReferralCodeRequired := StatusBadRequest,
    EmailAlreadyExist := StatusConflict,
    ReferralCodeNotFound := StatusBadRequest,
    InvalidRole := StatusBadRequest,
    InvalidEmail := StatusBadRequest,
    RoleNotFound := StatusNotFound,
    CantReferralToOwnCode := StatusPreconditionFailed,
    CantMultipleSubmitReferral := StatusConflict,
    InvalidCredentials := StatusUnauthorized
  ]

  function MapErrorToHTTPResponse(e: Error): (r: HttpError)
    ensures r.body.statusCode == r.code
    ensures r.code == StatusInternalServerError <==> e !in ErrorMap
    ensures r.body.message == (if e in ErrorMap then Text(e) else FallbackMessage)
  {
    if e in ErrorMap then
      HttpError(ErrorMap[e], CustomError(ErrorMap[e], Text(e)))
    else
      HttpError(StatusInternalServerError, CustomError(StatusInternalServerError, FallbackMessage))
  }

  /** Exactly the twelve sentinel errors are mapped. */
  lemma MappedExactlySentinels(e: Error)
    ensures e in ErrorMap <==> IsSentinel(e)
  {
  }

  /** The fixed status of each sentinel error. */
  lemma StatusOfEachError()
    ensures MapErrorToHTTPResponse(EmailRequired).code == 400
    ensures MapErrorToHTTPResponse(PasswordRequired).code == 400
    ensures MapErrorToHTTPResponse(RoleRequired).code == 400
    ensures MapErrorToHTTPResponse(ReferralCodeRequired).code == 400
    ensures MapErrorToHTTPResponse(InvalidEmail).code == 400
    ensures MapErrorToHTTPResponse(InvalidRole).code == 400
    ensures MapErrorToHTTPResponse(ReferralCodeNotFound).code == 400
    ensures MapErrorToHTTPResponse(EmailAlreadyExist).code == 409
    ensures MapErrorToHTTPResponse(CantMultipleSubmitReferral).code == 409
    ensures MapErrorToHTTPResponse(CantReferralToOwnCode).code == 412
    ensures MapErrorToHTTPResponse(RoleNotFound).code == 404
    ensures MapErrorToHTTPResponse(InvalidCredentials).code == 401
  {
  }

  /**
   * Matching is by identity: an error that is not the sentinel gets 500 and
   * the fixed message even when its text is the sentinel's text.
   */
  lemma SameTextIsNotSameError(id: nat, sentinel: Error)
    requires IsSentinel(sentinel)
    ensures MapErrorToHTTPResponse(Other(id, Text(sentinel))) ==
      HttpError(StatusInternalServerError, CustomError(StatusInternalServerError, FallbackMessage))
    ensures MapErrorToHTTPResponse(sentinel).code != StatusInternalServerError
  {
  }

  /** Broad classes of failure, as a client must be able to tell them apart. */
  datatype Category = Validation | Conflict | Missing | Authentication | Internal

  function CategoryOf(e: Error): Category
  {
    match e
    case EmailRequired | PasswordRequired | RoleRequired | ReferralCodeRequired | InvalidEmail | InvalidRole =>
      Validation
    case EmailAlreadyExist | CantReferralToOwnCode | CantMultipleSubmitReferral => Conflict
    case ReferralCodeNotFound | RoleNotFound => Missing
    case InvalidCredentials => Authentication
    case Other(_, _) => Internal
  }

  /**
   * Validation failures, conflicts, authentication failures and internal
   * errors never share a status. (An unknown referral code, a missing row,
   * shares 400 with validation failures.)
   */
  lemma CategoriesGetDistinctStatuses(e1: Error, e2: Error)
    requires CategoryOf(e1) != Missing && CategoryOf(e2) != Missing
    requires CategoryOf(e1) != CategoryOf(e2)
    ensures MapErrorToHTTPResponse(e1).code != MapErrorToHTTPResponse(e2).code
  {
    StatusOfCategory(e1);
    StatusOfCategory(e2);
  }

  /** The statuses each category can receive. */
  lemma StatusOfCategory(e: Error)
    ensures CategoryOf(e) == Validation ==> MapErrorToHTTPResponse(e).code == StatusBadRequest
    ensures CategoryOf(e) == Conflict ==>
      MapErrorToHTTPResponse(e).code == StatusConflict || MapErrorToHTTPResponse(e).code == StatusPreconditionFailed
    ensures CategoryOf(e) == Authentication ==> MapErrorToHTTPResponse(e).code == StatusUnauthorized
    ensures CategoryOf(e) == Internal ==> MapErrorToHTTPResponse(e).code == StatusInternalServerError
  {
    if e.Other? {
      assert e !in ErrorMap;
    }
  }

  lemma UnknownCodeSharesValidationStatus()
    ensures CategoryOf(ReferralCodeNotFound) == Missing
    ensures MapErrorToHTTPResponse(ReferralCodeNotFound).code == MapErrorToHTTPResponse(InvalidEmail).code
  {
  }
}
