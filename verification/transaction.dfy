/**
 * The persisted payment record. Every field is a nullable Java reference, so
 * each is an `Option`; the record's setters are pure updates of one field.
 */
module Transactions {
  import opened Wrappers

  /** A `LocalDateTime` reading; the clock itself is outside the model. */
  type Timestamp = int

  datatype TransactionStatus = PENDING | APPROVED | DECLINED

  /** APPROVED and DECLINED never change once written. */
  predicate IsTerminal(s: Option<TransactionStatus>) {
    s == Some(APPROVED) || s == Some(DECLINED)
  }

  datatype Transaction = Transaction(
    id: Option<string>,
    merchantId: Option<string>,
    amount: Option<real>,
    currency: Option<string>,
    status: Option<TransactionStatus>,
    responseCode: Option<string>,
    createdAt: Option<Timestamp>)

  /** The names of the record's fields, so that "only this field changed" can be stated once. */
  datatype Field = Id | MerchantId | Amount | Currency | Status | ResponseCode | CreatedAt

  /** `a` and `b` hold the same value in field `f`. */
  predicate Agree(a: Transaction, b: Transaction, f: Field) {
    match f
    case Id => a.id == b.id
    case MerchantId => a.merchantId == b.merchantId
    case Amount => a.amount == b.amount
    case Currency => a.currency == b.currency
    case Status => a.status == b.status
    case ResponseCode => a.responseCode == b.responseCode
    case CreatedAt => a.createdAt == b.createdAt
  }

  /** `b` differs from `a` in field `f` at most. */
  predicate OnlyChanged(a: Transaction, b: Transaction, f: Field) {
    forall g: Field :: g != f ==> Agree(a, b, g)
  }

  /** The no-argument constructor: every field, the id included, is null. */
  function Empty(): (t: Transaction)
    ensures t.id.None? && t.merchantId.None? && t.amount.None? && t.currency.None?
    ensures t.status.None? && t.responseCode.None? && t.createdAt.None?
  {
    Transaction(None, None, None, None, None, None, None)
  }

  /** The six-argument constructor: copies its arguments and leaves the id for the store. */
  function Create(merchantId: Option<string>, amount: Option<real>, currency: Option<string>,
                  status: Option<TransactionStatus>, responseCode: Option<string>,
                  createdAt: Option<Timestamp>): (t: Transaction)
    ensures t.id.None?
    ensures t.merchantId == merchantId && t.amount == amount && t.currency == currency
    ensures t.status == status && t.responseCode == responseCode && t.createdAt == createdAt
  {
    Transaction(None, merchantId, amount, currency, status, responseCode, createdAt)
  }

  function SetId(t: Transaction, v: Option<string>): (r: Transaction)
    ensures r.id == v && OnlyChanged(t, r, Id)
  {
    t.(id := v)
  }

  function SetMerchantId(t: Transaction, v: Option<string>): (r: Transaction)
    ensures r.merchantId == v && OnlyChanged(t, r, MerchantId)
  {
    t.(merchantId := v)
  }

  function SetAmount(t: Transaction, v: Option<real>): (r: Transaction)
    ensures r.amount == v && OnlyChanged(t, r, Amount)
  {
    t.(amount := v)
  }

  function SetCurrency(t: Transaction, v: Option<string>): (r: Transaction)
    ensures r.currency == v && OnlyChanged(t, r, Currency)
  {
    t.(currency := v)
  }

  function SetStatus(t: Transaction, v: Option<TransactionStatus>): (r: Transaction)
    ensures r.status == v && OnlyChanged(t, r, Status)
  {
    t.(status := v)
  }

  function SetResponseCode(t: Transaction, v: Option<string>): (r: Transaction)
    ensures r.responseCode == v && OnlyChanged(t, r, ResponseCode)
  {
    t.(responseCode := v)
  }

  function SetCreatedAt(t: Transaction, v: Option<Timestamp>): (r: Transaction)
    ensures r.createdAt == v && OnlyChanged(t, r, CreatedAt)
  {
    t.(createdAt := v)
  }
}
