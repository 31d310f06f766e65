/** The contract between the payment workflow and the card issuer. */
module IssuerClient {
  import opened Wrappers

  /** The issuer's decision and the code it reports with it. */
  datatype IssuerResponse = IssuerResponse(approved: bool, responseCode: string)

  /** The arguments of one `authorize` call. */
  datatype AuthorizeCall = AuthorizeCall(cardToken: Option<string>, amount: Option<real>, currency: Option<string>)

  /**
   * What one `authorize` call produced: a decision, or the message (possibly
   * null) of the exception it threw.
   */
  type IssuerOutcome = Result<IssuerResponse, Option<string>>
}
