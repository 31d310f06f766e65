/**
 * End-to-end consequences of wiring the workflow to the mock issuer and of
 * answering its failures through the exception handler.
 */
module PaymentFlows {
  import opened Wrappers
  import opened JavaStrings
  import opened Transactions
  import opened PaymentRequests
  import opened IssuerClient
  import opened MockIssuer
  import opened Exceptions
  import opened ErrorHandler
  import opened PaymentService

  /** A thrown BusinessException as seen by the workflow's catch block: a non-null message. */
  function Thrown(message: string): (thrown: Option<string>) {
    Some(message)
  }

  /** The mock issuer's outcome for a request whose amount is present. */
  function MockOutcome(request: PaymentRequest, coin: bool): (outcome: IssuerOutcome)
    requires request.amount.Some?
  {
    Authorize(request.cardToken, request.amount.value, request.currency, coin).MapFailure(Thrown)
  }

  /** A blocked card is recorded as DECLINED with CARD_BLOCKED, whatever the amount and the coin. */
  lemma BlockedCardDeclined(store: Store, request: PaymentRequest, issuer: AuthorizeCall -> IssuerOutcome,
                            now: Timestamp, newId: string, coin: bool)
    requires newId !in store && request.amount.Some?
    requires issuer(CallFor(request)) == MockOutcome(request, coin)
    requires WellFormed(request.cardToken) && Blocked(request.cardToken.value)
    ensures var p := ProcessPayment(store, request, issuer, now, newId);
            && p.result == Success(PaymentResponse(Some(newId), Some(DECLINED), Some("CARD_BLOCKED"), Some(now)))
            && |p.store| == |store| + 1
  {
    var outcome := Authorize(request.cardToken, request.amount.value, request.currency, coin);
    AuthorizeTable(request.cardToken, request.amount.value, request.currency, coin);
    assert outcome == Success(CardBlocked);
    assert issuer(CallFor(request)) == Success(CardBlocked);
  }

  /** An amount over the limit is recorded as DECLINED with LIMIT_EXCEEDED, whatever the coin. */
  lemma OverLimitDeclined(store: Store, request: PaymentRequest, issuer: AuthorizeCall -> IssuerOutcome,
                          now: Timestamp, newId: string, coin: bool)
    requires newId !in store && request.amount.Some? && request.amount.value > 1000000.0
    requires issuer(CallFor(request)) == MockOutcome(request, coin)
    requires ReachesAmountChecks(request.cardToken)
    ensures ProcessPayment(store, request, issuer, now, newId).result
            == Success(PaymentResponse(Some(newId), Some(DECLINED), Some("LIMIT_EXCEEDED"), Some(now)))
  {
  }

  /** A token that is too short fails the payment with the wrapped issuer message and saves nothing. */
  lemma ShortTokenFails(store: Store, request: PaymentRequest, issuer: AuthorizeCall -> IssuerOutcome,
                        now: Timestamp, newId: string, coin: bool)
    requires newId !in store && request.amount.Some?
    requires issuer(CallFor(request)) == MockOutcome(request, coin)
    requires request.cardToken.Some? && !IsBlank(request.cardToken.value) && |request.cardToken.value| < 10
    ensures var p := ProcessPayment(store, request, issuer, now, newId);
            && p.store == store
            && p.result == Failure(Business("Failed to process payment: "
                                            + "Card token must be at least 10 characters long"))
  {
    MalformedTokenErrors(request.cardToken, request.amount.value, request.currency, coin);
  }

  /** Any malformed token fails the payment before anything is saved. */
  lemma MalformedTokenSavesNothing(store: Store, request: PaymentRequest, issuer: AuthorizeCall -> IssuerOutcome,
                                   now: Timestamp, newId: string, coin: bool)
    requires newId !in store && request.amount.Some?
    requires issuer(CallFor(request)) == MockOutcome(request, coin)
    requires !WellFormed(request.cardToken)
    ensures var p := ProcessPayment(store, request, issuer, now, newId);
            p.store == store && p.result.Failure? && p.result.error.BusinessException?
  {
  }

  /** A lookup miss reaches the caller as 400 BUSINESS_ERROR "Transaction not found", not as 404. */
  lemma LookupMissAnswer(store: Store, id: string, description: string, correlationId: string)
    requires id !in store
    ensures GetPaymentById(store, id).Failure?
    ensures Classify(GetPaymentById(store, id).error, description, correlationId)
            == HandledError(400, ErrorResponse("BUSINESS_ERROR", Some("Transaction not found"), 400,
                                               RequestPath(description)))
  {
  }

  /** A failed payment reaches the caller as 400 BUSINESS_ERROR carrying the wrapped cause. */
  lemma ProcessFailureAnswer(store: Store, request: PaymentRequest, issuer: AuthorizeCall -> IssuerOutcome,
                             now: Timestamp, newId: string, description: string, correlationId: string)
    requires newId !in store
    requires issuer(CallFor(request)).Failure?
    ensures var h := Classify(ProcessPayment(store, request, issuer, now, newId).result.error,
                              description, correlationId);
            && h.httpStatus == 400
            && h.body.errorCode == "BUSINESS_ERROR"
            && h.body.message == Some("Failed to process payment: " + Render(issuer(CallFor(request)).error))
  {
  }
}
