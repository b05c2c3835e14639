/**
 * The opening-balance form: four fields kept to digits as they are typed,
 * read with `parseInt(...) || 0`, and handed to the ledger's session start.
 */
module SessionBalanceForm {
  import opened Wrappers
  import opened Text
  import opened Ledger

  /** `parseInt(field, 10) || 0`: a field that does not parse counts as zero. */
  function ParseOrZero(field: string): (v: int)
    ensures ParseInt(field).None? ==> v == 0
    ensures ParseInt(field).Some? ==> v == ParseInt(field).value
    ensures AllDigits(field) ==> v >= 0 && v == if field == [] then 0 else DigitsValue(field)
  {
    var v := match ParseInt(field)
      case None => 0
      case Some(n) => if n == 0 then 0 else n;
    if AllDigits(field) then ParseIntOfDigits(field); v else v
  }

  /** The balances passed to the session start, field by field. */
  function OpeningBalances(cash: string, mvola: string, orangeMoney: string, airtelMoney: string): (b: Balances)
    ensures b == Balances(ParseOrZero(cash), ParseOrZero(mvola), ParseOrZero(orangeMoney), ParseOrZero(airtelMoney))
    ensures AllDigits(cash) && AllDigits(mvola) && AllDigits(orangeMoney) && AllDigits(airtelMoney) ==> b.NonNegative()
  {
    Balances(ParseOrZero(cash), ParseOrZero(mvola), ParseOrZero(orangeMoney), ParseOrZero(airtelMoney))
  }

  /**
   * `handleSubmit` behind the submit button: nothing is submitted while the
   * button is disabled (loading, or a session already started); otherwise
   * the four parsed balances are.
   */
  function Submit(isLoading: bool, sessionStarted: bool, cash: string, mvola: string, orangeMoney: string,
                  airtelMoney: string): (r: Option<Balances>)
    ensures r.Some? <==> !isLoading && !sessionStarted
    ensures r.Some? ==> r.value == OpeningBalances(cash, mvola, orangeMoney, airtelMoney)
  {
    if isLoading || sessionStarted then None
    else Some(OpeningBalances(cash, mvola, orangeMoney, airtelMoney))
  }

  /**
   * Whatever the operator types, a session started from this form opens
   * with non-negative balances, and from then on any sequence of ledger
   * operations with non-negative amounts keeps them non-negative and keeps
   * their total equal to the opening total.
   */
  lemma {:induction false} FormSeedsSoundLedger(l: LedgerState, cash: string, mvola: string, orangeMoney: string,
                                                airtelMoney: string, signedIn: bool, ops: seq<Operation>)
    requires !l.sessionStarted
    requires forall i :: 0 <= i < |ops| ==> ops[i].amount >= 0
    ensures var b := Submit(false, l.sessionStarted, StripNonDigits(cash), StripNonDigits(mvola),
                            StripNonDigits(orangeMoney), StripNonDigits(airtelMoney));
      && b.Some? && b.value.NonNegative()
      && OpenSession(l, b.value).outcome.Accepted?
      && Run(OpenSession(l, b.value).state, signedIn, ops).balances.NonNegative()
      && Run(OpenSession(l, b.value).state, signedIn, ops).balances.Total() == b.value.Total()
  {
    var b := OpeningBalances(StripNonDigits(cash), StripNonDigits(mvola),
                             StripNonDigits(orangeMoney), StripNonDigits(airtelMoney));
    var started := OpenSession(l, b).state;
    RunKeepsNonNegative(started, signedIn, ops);
    RunConservesTotal(started, signedIn, ops);
  }
}
