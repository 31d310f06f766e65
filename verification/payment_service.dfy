/**
 * The payment workflow: build a PENDING transaction from the request, ask the
 * issuer once, move the transaction to APPROVED or DECLINED, save it once and
 * answer from the saved record; and the lookup of a saved record by id.
 * The transaction store is a map from id to record; the issuer is a function
 * parameter standing for whichever client is wired in.
 */
module PaymentService {
  import opened Wrappers
  import opened JavaStrings
  import opened Transactions
  import opened PaymentRequests
  import opened IssuerClient
  import opened Exceptions

  type Store = map<string, Transaction>

  /** The answer to the caller: the record's id, status, code and creation time. */
  datatype PaymentResponse = PaymentResponse(
    transactionId: Option<string>,
    status: Option<TransactionStatus>,
    responseCode: Option<string>,
    createdAt: Option<Timestamp>)

  /** The outcome of processing: the answer or the exception, and the store afterwards. */
  datatype Processed = Processed(result: Result<PaymentResponse, Exception>, store: Store)

  const FailurePrefix := "Failed to process payment: "
  const NotFoundMessage := "Transaction not found"

  /** Every stored record is filed under its own id and is in a terminal state. */
  predicate WellFormedStore(store: Store) {
    forall k :: k in store ==> store[k].id == Some(k) && IsTerminal(store[k].status)
  }

  /** The response built from a record's getters. */
  function ResponseOf(t: Transaction): (r: PaymentResponse)
    ensures r.transactionId == t.id && r.status == t.status
    ensures r.responseCode == t.responseCode && r.createdAt == t.createdAt
  {
    PaymentResponse(t.id, t.status, t.responseCode, t.createdAt)
  }

  /** The issuer call made for a request: its own card token, amount and currency. */
  function CallFor(request: PaymentRequest): (call: AuthorizeCall) {
    AuthorizeCall(request.cardToken, request.amount, request.currency)
  }

  /**
   * The repository's `save` of a new record: the store generates the id
   * `newId` (a fresh UUID), writes it into the record and files the record
   * under it. Nothing else in the store changes.
   */
  function Save(store: Store, t: Transaction, newId: string): (s: Store)
    requires newId !in store
    ensures s.Keys == store.Keys + {newId}
    ensures |s| == |store| + 1
    ensures s[newId].id == Some(newId) && OnlyChanged(t, s[newId], Id)
    ensures forall k :: k in store ==> s[k] == store[k]
  {
    store[newId := SetId(t, Some(newId))]
  }

  /** Saving a decided record under its fresh id keeps every record self-keyed and terminal. */
  lemma SaveKeepsWellFormed(store: Store, t: Transaction, newId: string)
    requires newId !in store
    ensures WellFormedStore(store) && IsTerminal(t.status) ==> WellFormedStore(Save(store, t, newId))
  {
  }

  /** `processPayment` */
  function ProcessPayment(store: Store, request: PaymentRequest, issuer: AuthorizeCall -> IssuerOutcome,
                          now: Timestamp, newId: string): (p: Processed)
    requires newId !in store
    // the issuer is consulted with the request's own fields; a failure writes nothing
    ensures issuer(CallFor(request)).Failure? ==>
              && p.store == store
              && p.result == Failure(Business("Failed to process payment: " + Render(issuer(CallFor(request)).error)))
    // a decision adds exactly one record and leaves every other record as it was
    ensures issuer(CallFor(request)).Success? ==>
              && p.store.Keys == store.Keys + {newId}
              && |p.store| == |store| + 1
              && (forall k :: k in store ==> p.store[k] == store[k])
    // the saved record copies the request and takes the issuer's decision and code
    ensures issuer(CallFor(request)).Success? ==>
              var decision := issuer(CallFor(request)).value;
              var saved := p.store[newId];
              && saved.id == Some(newId)
              && saved.merchantId == request.merchantId
              && saved.amount == request.amount
              && saved.currency == request.currency
              && (saved.status == Some(APPROVED) <==> decision.approved)
              && (saved.status == Some(DECLINED) <==> !decision.approved)
              && saved.responseCode == Some(decision.responseCode)
              && saved.createdAt == Some(now)
              && p.result == Success(PaymentResponse(Some(newId), saved.status, saved.responseCode, Some(now)))
    ensures p.result.Success? ==> IsTerminal(p.result.value.status)
    ensures p.result.Failure? ==> p.result.error.BusinessException? && p.result.error.errorCode == "BUSINESS_ERROR"
    ensures WellFormedStore(store) ==> WellFormedStore(p.store)
  {
    var pending :=
      SetCreatedAt(
        SetStatus(
          SetCurrency(SetAmount(SetMerchantId(Empty(), request.merchantId), request.amount), request.currency),
          Some(PENDING)),
        Some(now));
    match issuer(CallFor(request))
    case Failure(message) =>
      Processed(Failure(Business(FailurePrefix + Render(message))), store)
    case Success(decision) =>
      var decided := SetStatus(pending, Some(if decision.approved then APPROVED else DECLINED));
      var coded := SetResponseCode(decided, Some(decision.responseCode));
      var saved := Save(store, coded, newId);
      SaveKeepsWellFormed(store, coded, newId);
      Processed(Success(ResponseOf(saved[newId])), saved)
  }

  /** `getPaymentById` */
  function GetPaymentById(store: Store, id: string): (r: Result<PaymentResponse, Exception>)
    ensures id !in store ==> r == Failure(Business("Transaction not found"))
    ensures id in store ==>
              && r.Success?
              && r.value.transactionId == store[id].id
              && r.value.status == store[id].status
              && r.value.responseCode == store[id].responseCode
              && r.value.createdAt == store[id].createdAt
    ensures WellFormedStore(store) && r.Success? ==>
              r.value.transactionId == Some(id) && IsTerminal(r.value.status)
  {
    if id in store then Success(ResponseOf(store[id])) else Failure(Business(NotFoundMessage))
  }

  /** Reading back a freshly processed payment returns exactly what processing answered. */
  lemma ProcessThenGet(store: Store, request: PaymentRequest, issuer: AuthorizeCall -> IssuerOutcome,
                       now: Timestamp, newId: string)
    requires newId !in store
    ensures var p := ProcessPayment(store, request, issuer, now, newId);
            p.result.Success? ==> GetPaymentById(p.store, newId) == p.result
  {
  }

  /** A failed payment leaves no trace: its id is still unknown to the store. */
  lemma FailureLeavesNoRecord(store: Store, request: PaymentRequest, issuer: AuthorizeCall -> IssuerOutcome,
                              now: Timestamp, newId: string)
    requires newId !in store
    ensures var p := ProcessPayment(store, request, issuer, now, newId);
            p.result.Failure? ==> GetPaymentById(p.store, newId) == Failure(Business("Transaction not found"))
  {
  }

  /** Processing one payment does not change what any other id reads back. */
  lemma ProcessKeepsOtherLookups(store: Store, request: PaymentRequest, issuer: AuthorizeCall -> IssuerOutcome,
                                 now: Timestamp, newId: string, id: string)
    requires newId !in store && id != newId
    ensures GetPaymentById(ProcessPayment(store, request, issuer, now, newId).store, id)
            == GetPaymentById(store, id)
  {
  }
}
