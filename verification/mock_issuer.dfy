/**
 * The mock issuer: an ordered list of rules over the card token and the
 * amount, where the first rule that applies decides. The random decision at
 * the end is the explicit parameter `coin`.
 */
module MockIssuer {
  import opened Wrappers
  import opened JavaStrings
  import opened IssuerClient

  const MaxAmount: real := 1000000.0
  const MinTokenLength: nat := 10
  const BlockedCardSuffix := "999"
  const InvalidCardPattern := "0000"

  const BlankTokenMessage := "Card token cannot be null or empty"
  const ShortTokenMessage := "Card token must be at least 10 characters long"
  const TokenCharsetMessage := "Card token can only contain letters, numbers, and underscores"
  const AmountMessage := "Transaction amount must be greater than zero"

  const CardBlocked := IssuerResponse(false, "CARD_BLOCKED")
  const InvalidCard := IssuerResponse(false, "INVALID_CARD")
  const LimitExceeded := IssuerResponse(false, "LIMIT_EXCEEDED")

  /** A char of the token pattern `[A-Za-z0-9_]`. */
  predicate TokenChar(c: char) {
    ('A' <= c <= 'Z') || ('a' <= c <= 'z') || ('0' <= c <= '9') || c == '_'
  }

  /** The whole token matches `^[A-Za-z0-9_]+$`. */
  predicate MatchesTokenPattern(s: string) {
    |s| > 0 && forall i :: 0 <= i < |s| ==> TokenChar(s[i])
  }

  /** The token passes the three shape checks that raise errors. */
  predicate WellFormed(cardToken: Option<string>) {
    && cardToken.Some?
    && !IsBlank(cardToken.value)
    && |cardToken.value| >= MinTokenLength
    && MatchesTokenPattern(cardToken.value)
  }

  predicate Blocked(token: string) {
    EndsWith(token, BlockedCardSuffix)
  }

  predicate InvalidPattern(token: string) {
    Contains(token, InvalidCardPattern)
  }

  /** A well-formed token that is neither blocked nor invalid reaches the amount checks. */
  predicate ReachesAmountChecks(cardToken: Option<string>) {
    WellFormed(cardToken) && !Blocked(cardToken.value) && !InvalidPattern(cardToken.value)
  }

  /** An amount the issuer leaves to chance. */
  predicate WithinLimits(amount: real) {
    0.0 < amount <= MaxAmount
  }

  /** `MockIssuerClient.authorize`: the rules in source order, first match wins. */
  function Authorize(cardToken: Option<string>, amount: real, currency: Option<string>, coin: bool)
    : (r: Result<IssuerResponse, string>)
  {
    if cardToken.None? || IsBlank(cardToken.value) then Failure(BlankTokenMessage)
    else
      var token := cardToken.value;
      if |token| < MinTokenLength then Failure(ShortTokenMessage)
      else if !MatchesTokenPattern(token) then Failure(TokenCharsetMessage)
      else if EndsWith(token, BlockedCardSuffix) then Success(CardBlocked)
      else if Contains(token, InvalidCardPattern) then Success(InvalidCard)
      else if amount <= 0.0 then Failure(AmountMessage)
      else if amount > MaxAmount then Success(LimitExceeded)
      else Success(IssuerResponse(coin, if coin then "00" else "05"))
  }

  /**
   * The rule chain read as a flat decision table: each outcome together with
   * the exact inputs that lead to it.
   */
  lemma AuthorizeTable(cardToken: Option<string>, amount: real, currency: Option<string>, coin: bool)
    ensures var r := Authorize(cardToken, amount, currency, coin);
            && (r.Failure? <==> !WellFormed(cardToken) || (ReachesAmountChecks(cardToken) && amount <= 0.0))
            && (r == Success(CardBlocked) <==> WellFormed(cardToken) && Blocked(cardToken.value))
            && (r == Success(InvalidCard) <==>
                  WellFormed(cardToken) && !Blocked(cardToken.value) && InvalidPattern(cardToken.value))
            && (r == Success(LimitExceeded) <==> ReachesAmountChecks(cardToken) && amount > MaxAmount)
            && (r.Success? && r.value.approved <==> ReachesAmountChecks(cardToken) && WithinLimits(amount) && coin)
            && (r.Success? && r.value.approved ==> r.value.responseCode == "00")
  {
    var r := Authorize(cardToken, amount, currency, coin);
    if !WellFormed(cardToken) {
      assert r.Failure?;
    } else if Blocked(cardToken.value) {
      assert r == Success(CardBlocked);
    } else if InvalidPattern(cardToken.value) {
      assert r == Success(InvalidCard);
    } else if amount <= 0.0 {
      assert r == Failure(AmountMessage);
    } else if amount > MaxAmount {
      assert r == Success(LimitExceeded);
    } else {
      assert r == Success(IssuerResponse(coin, if coin then "00" else "05"));
    }
  }


  /** A long enough token made only of allowed characters passes the three shape checks. */
  lemma TokenCharsWellFormed(t: string)
    requires |t| >= MinTokenLength && MatchesTokenPattern(t)
    ensures WellFormed(Some(t))
  {
    BlankIffAllTrimmable(t);
    assert !IsTrimmable(t[0]);
  }

  /** The errors raised for a malformed token, whatever the amount, currency or coin. */
  lemma MalformedTokenErrors(cardToken: Option<string>, amount: real, currency: Option<string>, coin: bool)
    ensures cardToken.None? || IsBlank(cardToken.value) ==>
              Authorize(cardToken, amount, currency, coin) == Failure("Card token cannot be null or empty")
    ensures cardToken.Some? && !IsBlank(cardToken.value) && |cardToken.value| < 10 ==>
              Authorize(cardToken, amount, currency, coin) == Failure("Card token must be at least 10 characters long")
    ensures cardToken.Some? && !IsBlank(cardToken.value) && |cardToken.value| >= 10
            && (exists i :: 0 <= i < |cardToken.value| && !TokenChar(cardToken.value[i])) ==>
              Authorize(cardToken, amount, currency, coin)
              == Failure("Card token can only contain letters, numbers, and underscores")
  {
  }

  /**
   * The non-positive amount error is raised exactly for tokens that pass every
   * token rule; a blocked or invalid card is reported even for amount <= 0.
   */
  lemma NonPositiveAmountError(cardToken: Option<string>, amount: real, currency: Option<string>, coin: bool)
    ensures Authorize(cardToken, amount, currency, coin) == Failure("Transaction amount must be greater than zero")
            <==> ReachesAmountChecks(cardToken) && amount <= 0.0
  {
    if ReachesAmountChecks(cardToken) && amount <= 0.0 {
      assert Authorize(cardToken, amount, currency, coin) == Failure(AmountMessage);
    } else {
      AmountErrorOnlyAtAmountCheck(cardToken, amount, currency, coin);
    }
  }

  /** Every other way through the rules ends in another outcome than the amount error. */
  lemma AmountErrorOnlyAtAmountCheck(cardToken: Option<string>, amount: real, currency: Option<string>, coin: bool)
    requires !(ReachesAmountChecks(cardToken) && amount <= 0.0)
    ensures Authorize(cardToken, amount, currency, coin) != Failure(AmountMessage)
  {
    var r := Authorize(cardToken, amount, currency, coin);
    if cardToken.None? || IsBlank(cardToken.value) {
      assert r == Failure(BlankTokenMessage);
    } else if |cardToken.value| < MinTokenLength {
      assert r == Failure(ShortTokenMessage);
    } else if !MatchesTokenPattern(cardToken.value) {
      assert r == Failure(TokenCharsetMessage);
    } else {
      assert r.Success?;
    }
  }



  /** The coin decides the outcome exactly in the last rule, and nowhere else. */
  lemma OnlyLastRuleIsRandom(cardToken: Option<string>, amount: real, currency: Option<string>)
    ensures Authorize(cardToken, amount, currency, true) != Authorize(cardToken, amount, currency, false)
            <==> ReachesAmountChecks(cardToken) && WithinLimits(amount)
    ensures ReachesAmountChecks(cardToken) && WithinLimits(amount) ==>
              && Authorize(cardToken, amount, currency, true) == Success(IssuerResponse(true, "00"))
              && Authorize(cardToken, amount, currency, false) == Success(IssuerResponse(false, "05"))
  {
    var heads := Authorize(cardToken, amount, currency, true);
    var tails := Authorize(cardToken, amount, currency, false);
    if !WellFormed(cardToken) {
      assert heads == tails;
    } else if Blocked(cardToken.value) {
      assert heads == Success(CardBlocked) == tails;
    } else if InvalidPattern(cardToken.value) {
      assert heads == Success(InvalidCard) == tails;
    } else if amount <= 0.0 {
      assert heads == Failure(AmountMessage) == tails;
    } else if amount > MaxAmount {
      assert heads == Success(LimitExceeded) == tails;
    } else {
      assert heads == Success(IssuerResponse(true, "00"));
      assert tails == Success(IssuerResponse(false, "05"));
    }
  }


  /** The currency is accepted but never consulted. */
  lemma CurrencyIgnored(cardToken: Option<string>, amount: real, c1: Option<string>, c2: Option<string>, coin: bool)
    ensures Authorize(cardToken, amount, c1, coin) == Authorize(cardToken, amount, c2, coin)
  {
  }

  /** The limit is inclusive: exactly 1,000,000 is left to the coin, anything above is refused. */
  lemma LimitBoundary(cardToken: Option<string>, currency: Option<string>, coin: bool)
    requires ReachesAmountChecks(cardToken)
    ensures Authorize(cardToken, 1000000.0, currency, coin) == Success(IssuerResponse(coin, if coin then "00" else "05"))
    ensures forall a: real :: a > 1000000.0 ==> Authorize(cardToken, a, currency, coin) == Success(LimitExceeded)
  {
  }

  /** "999" is checked before "0000", and both before any amount check. */
  lemma BlockedBeatsInvalidAndAmount(cardToken: Option<string>, currency: Option<string>)
    requires WellFormed(cardToken) && Blocked(cardToken.value) && InvalidPattern(cardToken.value)
    ensures forall amount: real, coin: bool :: Authorize(cardToken, amount, currency, coin) == Success(CardBlocked)
  {
  }

  /** "0000" is checked before any amount check. */
  lemma InvalidBeatsAmount(cardToken: Option<string>, currency: Option<string>)
    requires WellFormed(cardToken) && !Blocked(cardToken.value) && InvalidPattern(cardToken.value)
    ensures forall amount: real, coin: bool :: Authorize(cardToken, amount, currency, coin) == Success(InvalidCard)
  {
  }

  /** "tok_0000999" both ends in "999" and contains "0000", and is blocked for every amount. */
  lemma BlockedTokenWithZeros(currency: Option<string>)
    ensures WellFormed(Some("tok_0000999")) && Blocked("tok_0000999") && InvalidPattern("tok_0000999")
    ensures forall amount: real, coin: bool ::
              Authorize(Some("tok_0000999"), amount, currency, coin) == Success(IssuerResponse(false, "CARD_BLOCKED"))
  {
    var t := "tok_0000999";
    assert MatchesTokenPattern(t) by {
      forall i | 0 <= i < |t| ensures TokenChar(t[i]) {
      }
    }
    TokenCharsWellFormed(t);
    assert Blocked(t) by {
      assert t[|t| - 3..] == "999";
    }
    assert InvalidPattern(t) by {
      assert OccursAt(t, InvalidCardPattern, 4);
    }
    BlockedBeatsInvalidAndAmount(Some(t), currency);
  }

  /** "tok_0000abc" contains "0000" without ending in "999", and is invalid for every amount. */
  lemma InvalidTokenWithZeros(currency: Option<string>)
    ensures WellFormed(Some("tok_0000abc")) && !Blocked("tok_0000abc") && InvalidPattern("tok_0000abc")
    ensures forall amount: real, coin: bool ::
              Authorize(Some("tok_0000abc"), amount, currency, coin) == Success(IssuerResponse(false, "INVALID_CARD"))
  {
    var t := "tok_0000abc";
    assert MatchesTokenPattern(t) by {
      forall i | 0 <= i < |t| ensures TokenChar(t[i]) {
      }
    }
    TokenCharsWellFormed(t);
    assert !Blocked(t) by {
      assert t[|t| - 3..] == "abc";
    }
    assert InvalidPattern(t) by {
      assert OccursAt(t, InvalidCardPattern, 4);
    }
    InvalidBeatsAmount(Some(t), currency);
  }

  /**
   * A token with "999" in the middle is not blocked: "AAAA999AAA" reaches the
   * amount checks, so within the limits its outcome is left to the coin.
   */
  lemma InnerNinesNotBlocked(currency: Option<string>)
    ensures WellFormed(Some("AAAA999AAA")) && !Blocked("AAAA999AAA")
    ensures forall amount: real | WithinLimits(amount) ::
              && Authorize(Some("AAAA999AAA"), amount, currency, true) == Success(IssuerResponse(true, "00"))
              && Authorize(Some("AAAA999AAA"), amount, currency, false) == Success(IssuerResponse(false, "05"))
  {
    var t := "AAAA999AAA";
    assert MatchesTokenPattern(t) by {
      forall i | 0 <= i < |t| ensures TokenChar(t[i]) {
      }
    }
    TokenCharsWellFormed(t);
    assert !Blocked(t) by {
      assert t[|t| - 3..] == "AAA";
    }
    assert !InvalidPattern(t) by {
      forall i: nat | i <= |t| ensures !OccursAt(t, InvalidCardPattern, i) {
        if i + 4 <= |t| {
          assert t[i..i + 4][0] == t[i] != '0';
        }
      }
    }
    assert ReachesAmountChecks(Some(t));
    forall amount: real | WithinLimits(amount)
      ensures && Authorize(Some(t), amount, currency, true) == Success(IssuerResponse(true, "00"))
              && Authorize(Some(t), amount, currency, false) == Success(IssuerResponse(false, "05"))
    {
      OnlyLastRuleIsRandom(Some(t), amount, currency);
    }
  }

}
