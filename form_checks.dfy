/**
 * What the transaction forms share: the amount field, kept to digits as it
 * is typed, read with `parseInt` and checked against the 1 000 Ar minimum,
 * and the messages a form can show instead of submitting.
 */
module FormChecks {
  import opened Wrappers
  import opened Text

  /** The smallest amount any transaction form submits, in Ariary. */
  const MinimumAmount := 1000

  /** The message each failed check shows. */
  datatype FormError =
    | SignInRequired
    | NoService
    | MissingPhone
    | MissingRecipientName
    | MissingRecipientPhone
    | InvalidAmount
    | BelowMinimum
    | CashTooLow(cashBalance: int)

  /**
   * The amount checks, in order: `parseInt` gives a number greater than
   * zero, then that number is at least the minimum.
   */
  function CheckAmount(field: string): (r: Result<int, FormError>)
    ensures r.Ok? <==> ParseInt(field).Some? && ParseInt(field).value >= MinimumAmount
    ensures r.Ok? ==> r.value == ParseInt(field).value
    ensures r == Err(InvalidAmount) <==> ParseInt(field).None? || ParseInt(field).value <= 0
    ensures r == Err(BelowMinimum) <==> ParseInt(field).Some? && 0 < ParseInt(field).value < MinimumAmount
  {
    match ParseInt(field)
    case None => Err(InvalidAmount)
    case Some(v) =>
      if v <= 0 then Err(InvalidAmount)
      else if v < MinimumAmount then Err(BelowMinimum)
      else Ok(v)
  }

  /**
   * On the amount field as the forms keep it (digits only), the amount is
   * accepted exactly when the field is not empty and its value is at least
   * the minimum.
   */
  lemma CheckAmountOfDigits(field: string)
    requires AllDigits(field)
    ensures CheckAmount(field).Ok? <==> field != [] && DigitsValue(field) >= MinimumAmount
    ensures CheckAmount(field).Ok? ==> CheckAmount(field).value == DigitsValue(field)
    ensures field == [] ==> CheckAmount(field) == Err(InvalidAmount)
  {
    ParseIntOfDigits(field);
  }

  /** 999 Ar is refused as below the minimum. */
  lemma BelowMinimumRefused()
    ensures CheckAmount("999") == Err(BelowMinimum)
  {
    assert "999"[..2] == "99" && "99"[..1] == "9" && "9"[..0] == "";
    assert DigitsValue("9") == 9;
    assert DigitsValue("99") == 99;
    assert DigitsValue("999") == 999;
    ParseIntOfDigits("999");
  }

  /** Exactly 1 000 Ar passes. */
  lemma MinimumAccepted()
    ensures CheckAmount("1000") == Ok(1000)
  {
    assert "1000"[..3] == "100" && "100"[..2] == "10" && "10"[..1] == "1" && "1"[..0] == "";
    assert DigitsValue("1") == 1;
    assert DigitsValue("10") == 10;
    assert DigitsValue("100") == 100;
    assert DigitsValue("1000") == 1000;
    ParseIntOfDigits("1000");
  }
}
