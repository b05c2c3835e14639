/**
 * The transfer form: service, recipient name, recipient phone and amount,
 * checked in order; the description is optional.
 */
module TransferForm {
  import opened Wrappers
  import opened Text
  import opened Ledger
  import opened FormChecks

  /** What the form passes to the ledger's transfer. */
  datatype TransferRequest = TransferRequest(service: Service, amount: int, recipient: Recipient, description: string)

  /**
   * `handleSubmit`: service, recipient name, recipient phone (both only
   * tested for emptiness, not trimmed), then the amount checks; the first
   * failure is shown and nothing is submitted.
   */
  function HandleSubmit(service: Option<Service>, name: string, phone: string, amount: string, description: string)
    : (r: Result<TransferRequest, FormError>)
    ensures r == Err(NoService) <==> service.None?
    ensures r == Err(MissingRecipientName) <==> service.Some? && name == []
    ensures r == Err(MissingRecipientPhone) <==> service.Some? && name != [] && phone == []
    ensures r.Ok? <==> service.Some? && name != [] && phone != [] && CheckAmount(amount).Ok?
    ensures service.Some? && name != [] && phone != [] && CheckAmount(amount).Err? ==>
              r == Err(CheckAmount(amount).error)
    ensures r.Ok? ==> r.value == TransferRequest(service.value, ParseInt(amount).value, Recipient(name, phone), description)
    ensures r.Ok? ==> r.value.amount >= MinimumAmount
  {
    if service.None? then Err(NoService)
    else if name == [] then Err(MissingRecipientName)
    else if phone == [] then Err(MissingRecipientPhone)
    else
      match CheckAmount(amount)
      case Err(e) => Err(e)
      case Ok(v) => Ok(TransferRequest(service.value, v, Recipient(name, phone), description))
  }

  function ToOperation(req: TransferRequest, id: string, date: int): Operation {
    TransferOp(req.service, req.amount, req.recipient, Some(req.description), id, date)
  }

  /** Recipient fields made only of spaces pass the form. */
  lemma BlankRecipientPasses()
    ensures HandleSubmit(Some(AirtelMoney), " ", " ", "1000", "").Ok?
  {
    MinimumAccepted();
  }

  /**
   * A transfer the form submits is accepted by the ledger exactly when the
   * service holds the amount, and the record carries the recipient exactly
   * as entered.
   */
  lemma SubmittedTransferOutcome(l: LedgerState, service: Option<Service>, name: string, phone: string,
                                 amount: string, description: string, id: string, date: int)
    requires HandleSubmit(service, name, phone, amount, description).Ok?
    requires l.sessionStarted
    ensures var req := HandleSubmit(service, name, phone, amount, description).value;
      var r := Apply(l, true, ToOperation(req, id, date));
      && (r.outcome.Accepted? <==> req.amount <= l.balances.Of(req.service))
      && (r.outcome.Accepted? ==> r.state.transactions[0].recipient == Some(Recipient(name, phone)))
      && (r.outcome.Accepted? ==> r.state.transactions[0].description == Some(description))
  {
  }
}
