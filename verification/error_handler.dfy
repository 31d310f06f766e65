/**
 * The global exception handler: Spring routes each exception to the handler
 * declared for its most specific type, and each handler builds an error
 * body whose status equals the HTTP status it answers with.
 */
module ErrorHandler {
  import opened Wrappers
  import opened JavaStrings
  import opened PaymentRequests
  import opened Exceptions

  const BadRequest := 400
  const NotFound := 404
  const InternalServerError := 500

  const UriPrefix := "uri="
  const FieldSeparator := ", "
  const NoFieldErrorsMessage := "Validation failed"
  const SupportMessagePrefix := "An unexpected error occurred. Please contact support with correlationId: "

  /** The JSON error body; the clock timestamp is left out. */
  datatype ErrorResponse = ErrorResponse(errorCode: string, message: Option<string>, status: int, path: string)

  /** The HTTP status answered together with the body. */
  datatype HandledError = HandledError(httpStatus: int, body: ErrorResponse)

  /** `request.getDescription(false).replace("uri=", "")` */
  function RequestPath(description: string): (path: string)
    ensures |path| <= |description|
    ensures path == description <==> !Contains(description, UriPrefix)
  {
    RemoveAllShortens(description, UriPrefix);
    RemoveAllIdentity(description, UriPrefix);
    RemoveAll(description, UriPrefix)
  }

  /** The usual description, "uri=" followed by the request URI, yields the URI. */
  lemma RequestPathOfUri(uri: string)
    requires !Contains(uri, UriPrefix)
    ensures RequestPath(UriPrefix + uri) == uri
  {
    RemoveLeading(UriPrefix, uri);
  }

  /** One field error as "field: message". */
  function FieldItem(e: FieldError): (item: string) {
    e.field + ": " + e.message
  }

  function FieldItems(errors: seq<FieldError>): (items: seq<string>)
    ensures |items| == |errors|
    ensures forall i :: 0 <= i < |errors| ==> items[i] == FieldItem(errors[i])
  {
    seq(|errors|, i requires 0 <= i < |errors| => FieldItem(errors[i]))
  }

  /** The validation message: the field items reduced with ", ", or a fixed text when there are none. */
  function FieldErrorsMessage(errors: seq<FieldError>): (m: string)
    ensures |errors| == 0 ==> m == "Validation failed"
    ensures |errors| > 0 ==> m == Join(FieldItems(errors), ", ")
  {
    ReduceIsJoin(FieldItems(errors), FieldSeparator);
    match Reduce(FieldItems(errors), FieldSeparator)
    case Some(joined) => joined
    case None => NoFieldErrorsMessage
  }

  /** The four handlers as one function of the exception, the request description and the correlation id. */
  function Classify(ex: Exception, description: string, correlationId: string): (h: HandledError)
    ensures h.body.status == h.httpStatus
    ensures h.body.path == RequestPath(description)
    ensures h.httpStatus == BadRequest <==> ex.BusinessException? || ex.ArgumentNotValid?
    ensures h.httpStatus == NotFound <==>
              ex.OtherRuntime? && ex.message.Some? && Contains(ex.message.value, "not found")
    ensures h.httpStatus == InternalServerError <==>
              ex.OtherChecked? || (ex.OtherRuntime? && !(ex.message.Some? && Contains(ex.message.value, "not found")))
    ensures ex.BusinessException? ==> h.body.errorCode == ex.errorCode && h.body.message == ex.message
    ensures ex.OtherRuntime? ==> h.body.message == ex.message
  {
    var path := RequestPath(description);
    match ex
    case BusinessException(code, message) =>
      HandledError(BadRequest, ErrorResponse(code, message, BadRequest, path))
    case ArgumentNotValid(errors) =>
      HandledError(BadRequest, ErrorResponse("VALIDATION_ERROR", Some(FieldErrorsMessage(errors)), BadRequest, path))
    case OtherChecked(_) =>
      HandledError(InternalServerError,
                   ErrorResponse("INTERNAL_SERVER_ERROR", Some(SupportMessagePrefix + correlationId),
                                 InternalServerError, path))
    case OtherRuntime(message) =>
      if message.Some? && Contains(message.value, "not found") then
        HandledError(NotFound, ErrorResponse("NOT_FOUND", message, NotFound, path))
      else
        HandledError(InternalServerError, ErrorResponse("RUNTIME_ERROR", message, InternalServerError, path))
  }

  /** Dispatch is by type: a business exception saying "not found" still answers 400 BUSINESS_ERROR. */
  lemma BusinessNotFoundIsBadRequest(description: string, correlationId: string)
    ensures Classify(Business("Transaction not found"), description, correlationId)
            == HandledError(400, ErrorResponse("BUSINESS_ERROR", Some("Transaction not found"), 400,
                                               RequestPath(description)))
  {
  }

  /** A validation failure answers 400 VALIDATION_ERROR with the joined field messages. */
  lemma ValidationFailureResponse(errors: seq<FieldError>, description: string, correlationId: string)
    ensures var h := Classify(ArgumentNotValid(errors), description, correlationId);
            && h.httpStatus == 400
            && h.body.errorCode == "VALIDATION_ERROR"
            && h.body.message == Some(if |errors| == 0 then "Validation failed"
                                      else Join(FieldItems(errors), ", "))
  {
  }

  /** An unexpected checked exception never leaks its own message; the correlation id is reported instead. */
  lemma UnexpectedErrorHidesMessage(m1: Option<string>, m2: Option<string>, description: string, correlationId: string)
    ensures Classify(OtherChecked(m1), description, correlationId)
            == Classify(OtherChecked(m2), description, correlationId)
    ensures Classify(OtherChecked(m1), description, correlationId).body
            == ErrorResponse("INTERNAL_SERVER_ERROR",
                             Some("An unexpected error occurred. Please contact support with correlationId: "
                                  + correlationId),
                             500, RequestPath(description))
  {
  }

  /** Other runtime exceptions: 404 NOT_FOUND when the message says "not found", else 500 RUNTIME_ERROR. */
  lemma RuntimeErrorCodes(message: Option<string>, description: string, correlationId: string)
    ensures var h := Classify(OtherRuntime(message), description, correlationId);
            && (message.Some? && Contains(message.value, "not found") ==> h.body.errorCode == "NOT_FOUND")
            && (message.None? || !Contains(message.value, "not found") ==> h.body.errorCode == "RUNTIME_ERROR")
  {
  }

  /** A single field error is reported as "field: message". */
  lemma SingleFieldErrorMessage(e: FieldError, description: string, correlationId: string)
    ensures Classify(ArgumentNotValid([e]), description, correlationId).body.message
            == Some(e.field + ": " + e.message)
  {
    assert FieldItems([e]) == [FieldItem(e)];
  }

  /** A request missing only its merchant id is answered with that one field's message. */
  lemma MissingMerchantIdResponse(r: PaymentRequest, description: string, correlationId: string)
    requires IsValid(r)
    ensures Classify(ArgumentNotValid(Validate(r.(merchantId := None))), description, correlationId).body.message
            == Some("merchantId: MerchantId is required")
  {
    var e := FieldError("merchantId", "MerchantId is required");
    assert Validate(r.(merchantId := None)) == [e] by {
      assert !NotBlank(None);
      OneInvalidField(r, None, None);
    }
    SingleFieldErrorMessage(e, description, correlationId);
    MerchantIdItem();
  }

  lemma MerchantIdItem()
    ensures FieldItem(FieldError("merchantId", "MerchantId is required")) == "merchantId: MerchantId is required"
  {
  }
}
