/**
 * The deposit form: service, customer phone and amount, checked in order
 * before the ledger's deposit is called.
 */
module DepositForm {
  import opened Wrappers
  import opened Text
  import opened Ledger
  import opened FormChecks

  /** What the form passes to the ledger's deposit. */
  datatype DepositRequest = DepositRequest(service: Service, amount: int, phone: string)

  /**
   * `handleSubmit`: no service, then an empty phone field, then the amount
   * checks; the first failure is shown and nothing is submitted.
   */
  function HandleSubmit(service: Option<Service>, phone: string, amount: string): (r: Result<DepositRequest, FormError>)
    ensures r == Err(NoService) <==> service.None?
    ensures r == Err(MissingPhone) <==> service.Some? && phone == []
    ensures r.Ok? <==> service.Some? && phone != [] && CheckAmount(amount).Ok?
    ensures service.Some? && phone != [] && CheckAmount(amount).Err? ==> r == Err(CheckAmount(amount).error)
    ensures r.Ok? ==> r.value == DepositRequest(service.value, ParseInt(amount).value, phone)
    ensures r.Ok? ==> r.value.amount >= MinimumAmount
  {
    if service.None? then Err(NoService)
    else if phone == [] then Err(MissingPhone)
    else
      match CheckAmount(amount)
      case Err(e) => Err(e)
      case Ok(v) => Ok(DepositRequest(service.value, v, phone))
  }

  function ToOperation(req: DepositRequest, id: string, date: int): Operation {
    DepositOp(req.service, req.amount, req.phone, id, date)
  }

  /**
   * A deposit the form submits can never make a sound ledger unsound: the
   * balances stay non-negative and their total does not change.
   */
  lemma SubmittedDepositKeepsLedgerSound(l: LedgerState, signedIn: bool, service: Option<Service>, phone: string,
                                         amount: string, id: string, date: int)
    requires HandleSubmit(service, phone, amount).Ok?
    requires l.balances.NonNegative()
    ensures var r := Apply(l, signedIn, ToOperation(HandleSubmit(service, phone, amount).value, id, date));
      r.state.balances.NonNegative() && r.state.balances.Total() == l.balances.Total()
  {
    ApplyBalances(l, signedIn, ToOperation(HandleSubmit(service, phone, amount).value, id, date));
  }

  /**
   * The form only checks that the phone field is not empty, the ledger that
   * it is not blank: a phone made of a space passes the form and is refused
   * by the ledger.
   */
  lemma BlankPhonePassesFormOnly(l: LedgerState, id: string, date: int)
    requires l.sessionStarted
    ensures HandleSubmit(Some(Mvola), " ", "1000") == Ok(DepositRequest(Mvola, 1000, " "))
    ensures Apply(l, true, DepositOp(Mvola, 1000, " ", id, date)).outcome == Rejected(PhoneRequired)
  {
    MinimumAccepted();
    BlankPhoneRefused(l, id, date);
  }

  lemma BlankPhoneRefused(l: LedgerState, id: string, date: int)
    requires l.sessionStarted
    ensures Apply(l, true, DepositOp(Mvola, 1000, " ", id, date)).outcome == Rejected(PhoneRequired)
  {
    assert IsBlank(" ") by {
      assert IsJsSpace(" "[0]);
    }
  }
}
