/**
 * The withdrawal form: the operator, service, customer phone and amount are
 * checked in order, then the amount is compared with the cash balance; the
 * form also previews the fee and the total.
 */
module WithdrawForm {
  import opened Wrappers
  import opened Text
  import opened Ledger
  import opened FormChecks

  /** What the form passes to the ledger's withdrawal. */
  datatype WithdrawRequest = WithdrawRequest(service: Service, amount: int, phone: string)

  /**
   * `handleSubmit`: signed in, service chosen, phone not empty, the amount
   * checks, then the amount must not exceed the cash balance; the first
   * failure is shown (the cash one with the balance) and nothing is submitted.
   */
  function HandleSubmit(signedIn: bool, service: Option<Service>, phone: string, amount: string, cashBalance: int)
    : (r: Result<WithdrawRequest, FormError>)
    ensures r == Err(SignInRequired) <==> !signedIn
    ensures r == Err(NoService) <==> signedIn && service.None?
    ensures r == Err(MissingPhone) <==> signedIn && service.Some? && phone == []
    ensures signedIn && service.Some? && phone != [] && CheckAmount(amount).Err? ==> r == Err(CheckAmount(amount).error)
    ensures r == Err(CashTooLow(cashBalance)) <==>
              signedIn && service.Some? && phone != [] && CheckAmount(amount).Ok? && CheckAmount(amount).value > cashBalance
    ensures r.Ok? <==>
              signedIn && service.Some? && phone != [] && CheckAmount(amount).Ok? && CheckAmount(amount).value <= cashBalance
    ensures r.Ok? ==> r.value == WithdrawRequest(service.value, ParseInt(amount).value, phone)
    ensures r.Ok? ==> MinimumAmount <= r.value.amount <= cashBalance
  {
    if !signedIn then Err(SignInRequired)
    else if service.None? then Err(NoService)
    else if phone == [] then Err(MissingPhone)
    else
      match CheckAmount(amount)
      case Err(e) => Err(e)
      case Ok(v) =>
        if v > cashBalance then Err(CashTooLow(cashBalance))
        else Ok(WithdrawRequest(service.value, v, phone))
  }

  /**
   * `calculateFee`: nothing for an amount that does not parse or is not
   * positive, otherwise the ledger's withdrawal fee of that amount.
   */
  function CalculateFee(amount: string): (fee: real)
    ensures ParseInt(amount).None? || ParseInt(amount).value <= 0 ==> fee == 0.0
    ensures ParseInt(amount).Some? && ParseInt(amount).value > 0 ==>
              fee == CalculateFees(Withdrawal, ParseInt(amount).value) && fee >= 300.0
  {
    match ParseInt(amount)
    case None => 0.0
    case Some(v) => if v <= 0 then 0.0 else Max(300.0, v as real * 0.02)
  }

  /**
   * `totalAmount`, the parsed amount plus the previewed fee; `None` stands
   * for NaN, shown while the field does not parse.
   */
  function TotalAmount(amount: string): (total: Option<real>)
    ensures total.None? <==> ParseInt(amount).None?
    ensures total.Some? ==> total.value == ParseInt(amount).value as real + CalculateFee(amount)
    ensures total.Some? && ParseInt(amount).value > 0 ==> total.value >= ParseInt(amount).value as real + 300.0
  {
    match ParseInt(amount)
    case None => None
    case Some(v) => Some(v as real + CalculateFee(amount))
  }

  function ToOperation(req: WithdrawRequest, id: string, date: int): Operation {
    WithdrawOp(req.service, req.amount, req.phone, id, date)
  }

  /**
   * The form's cash check is the ledger's: once the form submits against the
   * ledger's cash balance, the ledger accepts the withdrawal (when the phone
   * is not blank), and the fee it records is the fee the form previewed.
   */
  lemma SubmittedWithdrawalAccepted(l: LedgerState, service: Option<Service>, phone: string, amount: string,
                                    id: string, date: int)
    requires HandleSubmit(true, service, phone, amount, l.balances.cash).Ok?
    requires l.sessionStarted && !IsBlank(phone)
    ensures var req := HandleSubmit(true, service, phone, amount, l.balances.cash).value;
      var r := Apply(l, true, ToOperation(req, id, date));
      r.outcome.Accepted? && r.state.transactions[0].fees == CalculateFee(amount)
      && r.state.balances.cash == l.balances.cash - req.amount
  {
  }
}
