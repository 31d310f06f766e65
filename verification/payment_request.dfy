/**
 * The incoming payment request and its Bean Validation constraints
 * (@NotBlank, @NotNull, @Positive), evaluated field by field into the list of
 * violations the framework reports.
 */
module PaymentRequests {
  import opened Wrappers
  import opened JavaStrings

  datatype PaymentRequest = PaymentRequest(
    merchantId: Option<string>,
    amount: Option<real>,
    currency: Option<string>,
    cardToken: Option<string>,
    expirationDate: Option<string>)

  /** One constraint violation: the offending property and the annotation's message. */
  datatype FieldError = FieldError(field: string, message: string)

  /** The constraint annotations on the request's components, one per check. */
  datatype Constraint =
    | MerchantIdNotBlank
    | AmountNotNull
    | AmountPositive
    | CurrencyNotBlank
    | CardTokenNotBlank
    | ExpirationDateNotBlank

  /** The annotated constraints in the order the components are declared. */
  const Constraints: seq<Constraint> := [MerchantIdNotBlank, AmountNotNull, AmountPositive,
                                         CurrencyNotBlank, CardTokenNotBlank, ExpirationDateNotBlank]

  /** The violation each constraint reports, with the message its annotation declares. */
  function ErrorOf(c: Constraint): (e: FieldError) {
    match c
    case MerchantIdNotBlank => FieldError("merchantId", "MerchantId is required")
    case AmountNotNull => FieldError("amount", "Amount is required")
    case AmountPositive => FieldError("amount", "Amount must be greater than zero")
    case CurrencyNotBlank => FieldError("currency", "Currency is required")
    case CardTokenNotBlank => FieldError("cardToken", "Card token is required")
    case ExpirationDateNotBlank => FieldError("expirationDate", "Expiration date is required")
  }

  /** Different constraints report different violations. */
  lemma ErrorOfInjective()
    ensures forall c, d :: ErrorOf(c) == ErrorOf(d) ==> c == d
  {
  }

  /** @NotBlank: not null, and not empty once trimmed. */
  predicate NotBlank(v: Option<string>) {
    v.Some? && !IsBlank(v.value)
  }

  /** @NotNull */
  predicate NotNull(v: Option<real>) {
    v.Some?
  }

  /** @Positive: a null value is left to @NotNull and passes. */
  predicate Positive(v: Option<real>) {
    v.None? || v.value > 0.0
  }

  /** Whether `r` meets constraint `c`. */
  predicate Satisfies(r: PaymentRequest, c: Constraint) {
    match c
    case MerchantIdNotBlank => NotBlank(r.merchantId)
    case AmountNotNull => NotNull(r.amount)
    case AmountPositive => Positive(r.amount)
    case CurrencyNotBlank => NotBlank(r.currency)
    case CardTokenNotBlank => NotBlank(r.cardToken)
    case ExpirationDateNotBlank => NotBlank(r.expirationDate)
  }

  predicate Distinct<T(==)>(xs: seq<T>) {
    forall i, j :: 0 <= i < j < |xs| ==> xs[i] != xs[j]
  }

  /** Evaluates each constraint of `cs` on its own and lists the violated ones, in order. */
  function Violations(r: PaymentRequest, cs: seq<Constraint>): (vs: seq<FieldError>)
    decreases |cs|
  {
    if |cs| == 0 then []
    else (if Satisfies(r, cs[0]) then [] else [ErrorOf(cs[0])]) + Violations(r, cs[1..])
  }

  /** A constraint's violation is listed exactly when the constraint is listed and broken. */
  lemma {:induction false} ViolationsMembers(r: PaymentRequest, cs: seq<Constraint>)
    ensures forall c :: ErrorOf(c) in Violations(r, cs) <==> c in cs && !Satisfies(r, c)
    ensures forall v :: v in Violations(r, cs) ==> exists c :: c in cs && v == ErrorOf(c)
    ensures Distinct(cs) ==> Distinct(Violations(r, cs))
    decreases |cs|
  {
    if |cs| > 0 {
      ViolationsMembers(r, cs[1..]);
      ErrorOfInjective();
      assert forall c :: c in cs <==> c == cs[0] || c in cs[1..];
    }
  }

  /** What a well-formed request looks like: four non-blank strings and a positive amount. */
  predicate IsValid(r: PaymentRequest) {
    && NotBlank(r.merchantId)
    && r.amount.Some? && r.amount.value > 0.0
    && NotBlank(r.currency)
    && NotBlank(r.cardToken)
    && NotBlank(r.expirationDate)
  }

  /** Every constraint is listed, and listed once. */
  lemma ConstraintsListed()
    ensures forall c :: c in Constraints
    ensures Distinct(Constraints)
  {
    forall c ensures c in Constraints {
      match c
      case MerchantIdNotBlank => assert Constraints[0] == c;
      case AmountNotNull => assert Constraints[1] == c;
      case AmountPositive => assert Constraints[2] == c;
      case CurrencyNotBlank => assert Constraints[3] == c;
      case CardTokenNotBlank => assert Constraints[4] == c;
      case ExpirationDateNotBlank => assert Constraints[5] == c;
    }
  }

  /** The violations of `r`: one independent check per annotation, in declaration order. */
  function Validate(r: PaymentRequest): (vs: seq<FieldError>)
    ensures forall c :: ErrorOf(c) in vs <==> !Satisfies(r, c)
    ensures forall v :: v in vs ==> exists c :: v == ErrorOf(c) && !Satisfies(r, c)
    ensures Distinct(vs)
  {
    ConstraintsListed();
    ViolationsMembers(r, Constraints);
    Violations(r, Constraints)
  }

  /** A request has no violations exactly when it is well formed. */
  lemma NoViolationsIffValid(r: PaymentRequest)
    ensures Validate(r) == [] <==> IsValid(r)
  {
    var vs := Validate(r);
    if vs != [] {
      assert vs[0] in vs;
    }
    if !IsValid(r) {
      var c :| !Satisfies(r, c);
      assert ErrorOf(c) in vs;
    }
  }

  /** A duplicate-free list whose every element is `x` is `[x]` once `x` occurs in it. */
  lemma DistinctConstant<T>(xs: seq<T>, x: T)
    requires Distinct(xs) && x in xs
    requires forall i :: 0 <= i < |xs| ==> xs[i] == x
    ensures xs == [x]
  {
    assert xs[0] == xs[|xs| - 1];
  }

  /** When `c` is the only broken constraint, its violation is the only one reported. */
  lemma SingleViolation(r: PaymentRequest, c: Constraint)
    requires !Satisfies(r, c)
    requires forall d :: d != c ==> Satisfies(r, d)
    ensures Validate(r) == [ErrorOf(c)]
  {
    var vs := Validate(r);
    assert ErrorOf(c) in vs;
    forall i | 0 <= i < |vs| ensures vs[i] == ErrorOf(c) {
      assert vs[i] in vs;
    }
    DistinctConstant(vs, ErrorOf(c));
  }

  /** Spoiling one field of a well-formed request yields exactly that field's message. */
  lemma OneInvalidField(r: PaymentRequest, s: Option<string>, a: Option<real>)
    requires IsValid(r)
    ensures !NotBlank(s) ==> Validate(r.(merchantId := s)) == [FieldError("merchantId", "MerchantId is required")]
    ensures a.None? ==> Validate(r.(amount := a)) == [FieldError("amount", "Amount is required")]
    ensures a.Some? && a.value <= 0.0 ==> Validate(r.(amount := a)) == [FieldError("amount", "Amount must be greater than zero")]
    ensures !NotBlank(s) ==> Validate(r.(currency := s)) == [FieldError("currency", "Currency is required")]
    ensures !NotBlank(s) ==> Validate(r.(cardToken := s)) == [FieldError("cardToken", "Card token is required")]
    ensures !NotBlank(s) ==> Validate(r.(expirationDate := s)) == [FieldError("expirationDate", "Expiration date is required")]
  {
    if !NotBlank(s) {
      SingleViolation(r.(merchantId := s), MerchantIdNotBlank);
      SingleViolation(r.(currency := s), CurrencyNotBlank);
      SingleViolation(r.(cardToken := s), CardTokenNotBlank);
      SingleViolation(r.(expirationDate := s), ExpirationDateNotBlank);
    }
    if a.None? {
      SingleViolation(r.(amount := a), AmountNotNull);
    } else if a.value <= 0.0 {
      SingleViolation(r.(amount := a), AmountPositive);
    }
  }

  /** The checks are independent: five bad fields give five violations, one per field. */
  lemma AllFieldsInvalid(r: PaymentRequest)
    requires !NotBlank(r.merchantId) && !NotBlank(r.currency)
    requires !NotBlank(r.cardToken) && !NotBlank(r.expirationDate)
    requires r.amount.None? || r.amount.value <= 0.0
    ensures |Validate(r)| == 5
    ensures Validate(r) == [ErrorOf(MerchantIdNotBlank),
                            ErrorOf(if r.amount.None? then AmountNotNull else AmountPositive),
                            ErrorOf(CurrencyNotBlank), ErrorOf(CardTokenNotBlank),
                            ErrorOf(ExpirationDateNotBlank)]
  {
    AllFieldsViolations(r);
  }

  /** The five broken checks of a request with every field invalid, in order. */
  lemma AllFieldsViolations(r: PaymentRequest)
    requires !NotBlank(r.merchantId) && !NotBlank(r.currency)
    requires !NotBlank(r.cardToken) && !NotBlank(r.expirationDate)
    requires r.amount.None? || r.amount.value <= 0.0
    ensures Violations(r, Constraints) == [ErrorOf(MerchantIdNotBlank),
                            ErrorOf(if r.amount.None? then AmountNotNull else AmountPositive),
                            ErrorOf(CurrencyNotBlank), ErrorOf(CardTokenNotBlank),
                            ErrorOf(ExpirationDateNotBlank)]
  {
    var e3 := [CurrencyNotBlank, CardTokenNotBlank, ExpirationDateNotBlank];
    ViolationsCons(r, ExpirationDateNotBlank, []);
    assert [ExpirationDateNotBlank] + [] == [ExpirationDateNotBlank];
    ViolationsCons(r, CardTokenNotBlank, [ExpirationDateNotBlank]);
    assert [CardTokenNotBlank] + [ExpirationDateNotBlank] == [CardTokenNotBlank, ExpirationDateNotBlank];
    ViolationsCons(r, CurrencyNotBlank, [CardTokenNotBlank, ExpirationDateNotBlank]);
    assert [CurrencyNotBlank] + [CardTokenNotBlank, ExpirationDateNotBlank] == e3;
    var v3 := Violations(r, e3);
    assert v3 == [ErrorOf(CurrencyNotBlank), ErrorOf(CardTokenNotBlank), ErrorOf(ExpirationDateNotBlank)];
    var e2 := [AmountPositive] + e3;
    var e1 := [AmountNotNull] + e2;
    ViolationsCons(r, AmountPositive, e3);
    ViolationsCons(r, AmountNotNull, e2);
    assert Violations(r, e1) == [ErrorOf(if r.amount.None? then AmountNotNull else AmountPositive)] + v3;
    ViolationsCons(r, MerchantIdNotBlank, e1);
    assert [MerchantIdNotBlank] + e1 == Constraints;
  }

  /** Evaluating a list of constraints starts with its first constraint. */
  lemma ViolationsCons(r: PaymentRequest, c: Constraint, cs: seq<Constraint>)
    ensures Violations(r, [c] + cs) == (if Satisfies(r, c) then [] else [ErrorOf(c)]) + Violations(r, cs)
  {
    assert ([c] + cs)[1..] == cs;
  }

  /** Currency and expiration date are only checked for blankness, never for content. */
  lemma ContentsNotInspected(r: PaymentRequest, c: string, e: string)
    requires NotBlank(r.currency) && NotBlank(r.expirationDate)
    requires !IsBlank(c) && !IsBlank(e)
    ensures Validate(r.(currency := Some(c), expirationDate := Some(e))) == Validate(r)
  {
    var r' := r.(currency := Some(c), expirationDate := Some(e));
    assert forall d :: Satisfies(r', d) == Satisfies(r, d);
    SameConstraintsSameViolations(r, r', Constraints);
  }

  lemma {:induction false} SameConstraintsSameViolations(r: PaymentRequest, r': PaymentRequest, cs: seq<Constraint>)
    requires forall d :: Satisfies(r', d) == Satisfies(r, d)
    ensures Violations(r, cs) == Violations(r', cs)
    decreases |cs|
  {
    if |cs| > 0 {
      SameConstraintsSameViolations(r, r', cs[1..]);
    }
  }
}
