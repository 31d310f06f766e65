# Payment authorization core, modelled in Dafny

This project models the decision logic of the issuing-bank payment service:

- the **mock issuer** (`MockIssuerClient.authorize`), an ordered rule list over the card token and the amount that ends in a random approve/decline;
- the **payment workflow** (`PaymentServiceImpl.processPayment` / `getPaymentById`): a transaction is created PENDING, the issuer is asked once, the transaction becomes APPROVED or DECLINED, and it is saved once; any issuer failure is wrapped into a `BusinessException("Failed to process payment: " + cause)` and nothing is saved;
- the **global exception handler**, which maps an exception to `{errorCode, message, status, path}` by the exception's most specific type;
- the **request validator** given by the `@NotBlank` / `@NotNull` / `@Positive` annotations on `PaymentRequest`;
- the **`Transaction` record** with its two constructors and its setters.

Everything is a pure function over immutable datatypes. Java references that may be null are `Option`s. Thrown exceptions are the `Failure` side of a `Result`. Randomness, the clock and id generation are parameters:

- the issuer's `random.nextBoolean()` is `coin: bool`;
- `LocalDateTime.now()` is `now: Timestamp`;
- the UUID the store generates on save is `newId`, with the precondition `newId !in store`, the uniqueness the JPA generator is relied upon for;
- the `TransactionRepository` is a `map<string, Transaction>`;
- the `IssuerClient` the workflow calls is a function parameter `issuer: AuthorizeCall -> IssuerOutcome`, so every workflow property holds for any issuer. `PaymentFlows` then instantiates it with the mock.

Files and modules:

| file | module | models |
|---|---|---|
| wrappers.dfy | `Wrappers` | `Option` (nullable reference), `Result` (value or thrown exception) |
| java_strings.dfy | `JavaStrings` | `String.trim`, `endsWith`, `contains`, `replace(x, "")`, null rendering in concatenation, `reduce((a, b) -> a + sep + b)` |
| transaction.dfy | `Transactions` | `Transaction`, `TransactionStatus`, constructors and setters |
| payment_request.dfy | `PaymentRequests` | `PaymentRequest` and its constraint annotations as a violation-list validator |
| issuer.dfy | `IssuerClient` | `IssuerResponse` and the shape of an `authorize` call and its outcome |
| mock_issuer.dfy | `MockIssuer` | `MockIssuerClient.authorize` and its constants |
| exceptions.dfy | `Exceptions` | the exception types the handler dispatches on |
| error_handler.dfy | `ErrorHandler` | `GlobalExceptionHandler` as one classification function |
| payment_service.dfy | `PaymentService` | `processPayment`, `getPaymentById`, the store and its `save` |
| payment_flows.dfy | `PaymentFlows` | the workflow wired to the mock issuer and to the handler |

## Model

| member | source | states |
|---|---|---|
| JavaStrings.BlankIffAllTrimmable | src/main/java/org/bank/issuingbank/service/external/impl/MockIssuerClient.java:26 | `s.trim().isEmpty()` holds exactly when every char of `s` is at or below U+0020 |
| JavaStrings.RemoveAllIdentity | src/main/java/org/bank/issuingbank/exception/GlobalExceptionHandler.java:28 | removing every `uri=` leaves a description unchanged if and only if it contains no `uri=` |
| JavaStrings.ReduceIsJoin | src/main/java/org/bank/issuingbank/exception/GlobalExceptionHandler.java:55-60 | the stream's left-folding `reduce` is empty exactly for no items, and otherwise equals the items joined with the separator, defined independently by right recursion |
| Transactions.Empty | src/main/java/org/bank/issuingbank/model/Transaction.java:37-38 | the no-argument constructor leaves every field unset, the id included |
| Transactions.Create | src/main/java/org/bank/issuingbank/model/Transaction.java:40-52 | the six-argument constructor copies each argument into its own field and leaves the id for the store |
| Transactions.SetId | src/main/java/org/bank/issuingbank/model/Transaction.java:84-86 | the id reads back as the value set; every other field is unchanged |
| Transactions.SetMerchantId | src/main/java/org/bank/issuingbank/model/Transaction.java:88-90 | the merchant id reads back as the value set; every other field is unchanged |
| Transactions.SetAmount | src/main/java/org/bank/issuingbank/model/Transaction.java:92-94 | the amount reads back as the value set; every other field is unchanged |
| Transactions.SetCurrency | src/main/java/org/bank/issuingbank/model/Transaction.java:96-98 | the currency reads back as the value set; every other field is unchanged |
| Transactions.SetStatus | src/main/java/org/bank/issuingbank/model/Transaction.java:100-102 | the status reads back as the value set; every other field is unchanged |
| Transactions.SetResponseCode | src/main/java/org/bank/issuingbank/model/Transaction.java:104-106 | the response code reads back as the value set; every other field is unchanged |
| Transactions.SetCreatedAt | src/main/java/org/bank/issuingbank/model/Transaction.java:108-110 | the creation time reads back as the value set; every other field is unchanged |
| PaymentRequests.ViolationsMembers | src/main/java/org/bank/issuingbank/dto/request/PaymentRequest.java:9-30 | a constraint's message is reported exactly when that constraint is evaluated and broken; every report comes from a listed constraint; no message is reported twice |
| PaymentRequests.Validate | src/main/java/org/bank/issuingbank/dto/request/PaymentRequest.java:9-30 | each annotation's message is reported if and only if its constraint is broken, only such messages are reported, and none twice |
| PaymentRequests.NoViolationsIffValid | src/test/java/org/bank/issuingbank/dto/PaymentRequestTest.java:28-44 | a request has no violations exactly when its four strings are non-blank and its amount is present and positive |
| PaymentRequests.SingleViolation | src/main/java/org/bank/issuingbank/dto/request/PaymentRequest.java:9-30 | when exactly one constraint is broken, its message is the only violation |
| PaymentRequests.OneInvalidField | src/main/java/org/bank/issuingbank/dto/request/PaymentRequest.java:11-28 | spoiling one field of a valid request gives exactly its pinned message; a null amount gives only "Amount is required", a non-positive one only "Amount must be greater than zero" |
| PaymentRequests.AllFieldsInvalid | src/test/java/org/bank/issuingbank/dto/PaymentRequestTest.java:215-231 | with all five fields invalid there are exactly five violations, one per field |
| PaymentRequests.ContentsNotInspected | src/main/java/org/bank/issuingbank/dto/request/PaymentRequest.java:19-29 | any non-blank currency or expiration date gives the same violations |
| MockIssuer.AuthorizeTable | src/main/java/org/bank/issuingbank/service/external/impl/MockIssuerClient.java:23-66 | the rule chain read as a flat decision table: an error exactly for a malformed token or a non-positive amount that reaches the amount check; CARD_BLOCKED exactly for well-formed tokens ending in 999; INVALID_CARD exactly for well-formed tokens containing 0000 but not ending in 999; LIMIT_EXCEEDED exactly above 1,000,000 after those; approval exactly when the coin says so within limits; approval always carries "00" |
| MockIssuer.MalformedTokenErrors | src/main/java/org/bank/issuingbank/service/external/impl/MockIssuerClient.java:25-38 | null or blank, too short, and bad charset each give their own error message, whatever the amount, currency or coin |
| MockIssuer.NonPositiveAmountError | src/main/java/org/bank/issuingbank/service/external/impl/MockIssuerClient.java:50-53 | the amount error is raised if and only if the token passes every token rule and the amount is at most 0 |
| MockIssuer.OnlyLastRuleIsRandom | src/main/java/org/bank/issuingbank/service/external/impl/MockIssuerClient.java:60-66 | the coin changes the outcome if and only if the last rule is reached; there, heads gives (true, "00") and tails (false, "05") |
| MockIssuer.CurrencyIgnored | src/main/java/org/bank/issuingbank/service/external/impl/MockIssuerClient.java:23-66 | the currency never influences the outcome |
| MockIssuer.LimitBoundary | src/main/java/org/bank/issuingbank/service/external/impl/MockIssuerClient.java:55-58 | for a token that reaches the amount checks, exactly 1,000,000 is left to the coin and every larger amount gives LIMIT_EXCEEDED |
| MockIssuer.BlockedBeatsInvalidAndAmount | src/main/java/org/bank/issuingbank/service/external/impl/MockIssuerClient.java:40-53 | every well-formed token that ends in 999 and also contains 0000 is CARD_BLOCKED for every amount and coin, non-positive amounts included |
| MockIssuer.InvalidBeatsAmount | src/main/java/org/bank/issuingbank/service/external/impl/MockIssuerClient.java:45-53 | every well-formed token that contains 0000 and does not end in 999 is INVALID_CARD for every amount and coin, non-positive amounts included |
| MockIssuer.BlockedTokenWithZeros | src/main/java/org/bank/issuingbank/service/external/impl/MockIssuerClient.java:40-48 | "tok_0000999" is well formed, ends in 999 and contains 0000, and is CARD_BLOCKED for every amount and coin |
| MockIssuer.InvalidTokenWithZeros | src/main/java/org/bank/issuingbank/service/external/impl/MockIssuerClient.java:45-48 | "tok_0000abc" is well formed, contains 0000 without ending in 999, and is INVALID_CARD for every amount and coin |
| MockIssuer.InnerNinesNotBlocked | src/main/java/org/bank/issuingbank/service/external/impl/MockIssuerClient.java:40-43 | "AAAA999AAA" is well formed and not blocked, since only a trailing 999 blocks; for every amount within the limits its outcome is left to the coin |
| Exceptions.Business | src/test/java/org/bank/issuingbank/controller/PaymentControllerIntegrationTest.java:327-328 | a BusinessException built from a message carries the code BUSINESS_ERROR and that message |
| ErrorHandler.RequestPath | src/main/java/org/bank/issuingbank/exception/GlobalExceptionHandler.java:28 | the path is never longer than the description, and equals it exactly when the description has no `uri=` |
| ErrorHandler.RequestPathOfUri | src/main/java/org/bank/issuingbank/exception/GlobalExceptionHandler.java:53 | the description `uri=<uri>` yields `<uri>` when the URI itself holds no `uri=` |
| ErrorHandler.FieldErrorsMessage | src/main/java/org/bank/issuingbank/exception/GlobalExceptionHandler.java:55-60 | no field errors give "Validation failed"; otherwise the "field: message" items joined with ", " in order |
| ErrorHandler.Classify | src/main/java/org/bank/issuingbank/exception/GlobalExceptionHandler.java:22-136 | body status equals HTTP status in every branch; the path is the description without `uri=`; 400 exactly for business and validation exceptions; 404 exactly for other runtime exceptions whose message contains "not found"; 500 exactly for the rest; business code and message are passed through, as is the message of other runtime exceptions |
| ErrorHandler.BusinessNotFoundIsBadRequest | src/main/java/org/bank/issuingbank/exception/GlobalExceptionHandler.java:22-41 | a BusinessException "Transaction not found" answers 400 BUSINESS_ERROR, not 404: dispatch by type wins over the substring rule |
| ErrorHandler.ValidationFailureResponse | src/main/java/org/bank/issuingbank/exception/GlobalExceptionHandler.java:47-73 | a validation failure answers 400 VALIDATION_ERROR with the joined field messages, or "Validation failed" when there are none |
| ErrorHandler.UnexpectedErrorHidesMessage | src/main/java/org/bank/issuingbank/exception/GlobalExceptionHandler.java:79-98 | a checked exception answers 500 INTERNAL_SERVER_ERROR with the support text and correlation id; its own message never shows |
| ErrorHandler.RuntimeErrorCodes | src/main/java/org/bank/issuingbank/exception/GlobalExceptionHandler.java:112-133 | another runtime exception is NOT_FOUND when its message contains "not found", and RUNTIME_ERROR otherwise, a null message included |
| ErrorHandler.SingleFieldErrorMessage | src/main/java/org/bank/issuingbank/exception/GlobalExceptionHandler.java:55-60 | a single field error is reported as "field: message" with no separator |
| ErrorHandler.MissingMerchantIdResponse | src/main/java/org/bank/issuingbank/dto/request/PaymentRequest.java:11 | a request missing only its merchant id is answered with the message "merchantId: MerchantId is required" |
| PaymentService.Save | src/main/java/org/bank/issuingbank/model/Transaction.java:12-14 | saving a new record adds exactly one key, the generated id; the record gets that id and is otherwise as given; all other records stay as they were |
| PaymentService.ProcessPayment | src/main/java/org/bank/issuingbank/service/impl/PaymentServiceImpl.java:34-84 | the issuer is asked with the request's own token, amount and currency. Issuer failure leaves the store unchanged and fails with BUSINESS_ERROR "Failed to process payment: " + cause. Otherwise exactly one record is added and no other changes. The record copies merchant id, amount and currency, is APPROVED iff approved and DECLINED iff not, carries the issuer's code and the creation time, and the response mirrors it. The returned status is never PENDING. A store of terminal, self-keyed records stays so |
| PaymentService.GetPaymentById | src/main/java/org/bank/issuingbank/service/impl/PaymentServiceImpl.java:87-106 | an absent id fails with BUSINESS_ERROR "Transaction not found"; a present id answers that record's id, status, code and creation time; on a well-formed store the answered id is the one asked for and the status is terminal |
| PaymentService.ProcessThenGet | src/test/java/org/bank/issuingbank/controller/PaymentControllerIntegrationTest.java:290-315 | reading back a freshly processed payment returns exactly the response processing gave |
| PaymentService.FailureLeavesNoRecord | src/test/java/org/bank/issuingbank/service/impl/PaymentServiceImplTest.java:148-160 | after a failed payment the id it would have had is still unknown |
| PaymentService.ProcessKeepsOtherLookups | src/main/java/org/bank/issuingbank/service/impl/PaymentServiceImpl.java:67 | processing one payment does not change what any other id reads back |
| PaymentFlows.BlockedCardDeclined | src/main/java/org/bank/issuingbank/service/external/impl/MockIssuerClient.java:41-43 | with the mock issuer, a well-formed token ending in 999 is saved and answered as DECLINED / CARD_BLOCKED, whatever the amount and the coin |
| PaymentFlows.OverLimitDeclined | src/main/java/org/bank/issuingbank/service/external/impl/MockIssuerClient.java:56-58 | with the mock issuer, an amount over 1,000,000 on a usable token is answered as DECLINED / LIMIT_EXCEEDED, whatever the coin |
| PaymentFlows.ShortTokenFails | src/main/java/org/bank/issuingbank/service/impl/PaymentServiceImpl.java:79-83 | with the mock issuer, a short token fails the payment with the wrapped message and saves nothing |
| PaymentFlows.MalformedTokenSavesNothing | src/main/java/org/bank/issuingbank/service/external/impl/MockIssuerClient.java:25-38 | with the mock issuer, any malformed token fails with a business exception before any record is saved |
| PaymentFlows.LookupMissAnswer | src/test/java/org/bank/issuingbank/controller/PaymentControllerIntegrationTest.java:319-329 | a lookup of an unknown id reaches the caller as 400 BUSINESS_ERROR "Transaction not found" |
| PaymentFlows.ProcessFailureAnswer | src/main/java/org/bank/issuingbank/service/impl/PaymentServiceImpl.java:79-83 | a failed payment reaches the caller as 400 BUSINESS_ERROR whose message is the prefix plus the issuer's cause |

Notes on how the model reads the code:

- Only a trailing "999" blocks a token. "AAAA999AAA" is not blocked: for every amount within the limits its outcome is left to the coin (`MockIssuer.InnerNinesNotBlocked`). A non-positive amount still gets the amount error, and an amount over 1,000,000 still gets LIMIT_EXCEEDED.
- Every issuer error is a `BusinessException`, and `processPayment` wraps it in a new one.
- The handler dispatches by exception type first, and then by the substring "not found", inside the RuntimeException handler only.
- `BusinessException` is assumed to extend `RuntimeException`, with the default code BUSINESS_ERROR. Its source is not part of this model. The handler's most-specific-type rule therefore sends it to the business handler and never to the runtime handler.
- `getPaymentById` does not return the store, so it cannot change it.

## Left out

- Logging (SLF4J calls and the MDC): no effect on any result. The correlation id is a plain parameter of `Classify`.
- The `timestamp` of `ErrorResponse` and every `LocalDateTime.now()`: clock readings. Creation time is the parameter `now`.
- `java.util.Random`: replaced by the parameter `coin`.
- UUID generation: replaced by the parameter `newId`, assumed fresh. The UUID text format is not modelled.
- The controller, the correlation-id servlet filter, OpenAPI annotations and JPA wiring: routing and plumbing around the core. The repository's derived finders (`findByStatus` and the others) are not used by the workflow.
- A `save` that fails inside the store: the map store always accepts a new record. The source would wrap such a failure like an issuer failure.
- A null amount reaching `MockIssuerClient.authorize`: Java would throw a NullPointerException when unboxing at the amount check. Validation upstream prevents it, and the mock's `Authorize` takes a present amount.
- Floating point: amounts are `real`. Only comparisons with 0 and 1,000,000 occur, so rounding never matters. NaN and infinities are not modelled.
- MockIssuer.AuthorizeTable: a token's length is counted in chars, not Java's UTF-16 code units. A token with characters outside the Basic Multilingual Plane can therefore get the length message in the model where Java would give the charset message. Both are errors.
- PaymentRequests.Validate: violations are listed in field declaration order. Bean Validation returns an unordered set, so only membership and count are promised by the source.
- ErrorHandler.FieldErrorsMessage: joins the field errors in the order given. Spring does not fix the order of field errors coming from an unordered violation set.
- PaymentService.ProcessPayment: that `authorize` is invoked exactly once is not observable in a pure model. The contract states that the outcome is the issuer's answer to the request's own card token, amount and currency.
