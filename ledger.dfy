/**
 * The kiosk's session and balance ledger (the transaction provider): four
 * balances, a "session started" flag and the transaction list, newest first.
 *
 * The operations are stated once as functions on a `LedgerState` value
 * (`OpenSession`, `Apply`), where their properties are proved; the class
 * `TransactionStore` holds the same state in mutable fields and its methods
 * update those fields step by step, each proved to agree with the function.
 */
module Ledger {
  import opened Wrappers
  import opened Text

  datatype Service = Mvola | OrangeMoney | AirtelMoney

  datatype TxType = Deposit | Withdrawal | Transfer

  datatype Status = Completed | Pending | Failed

  datatype Recipient = Recipient(name: string, phone: string)

  /** One record of the history. Money is in Ariary; the fee is unrounded, hence `real`. */
  datatype Transaction = Transaction(
    id: string,
    txType: TxType,
    service: Service,
    amount: int,
    fees: real,
    phoneNumber: Option<string>,
    recipient: Option<Recipient>,
    description: Option<string>,
    date: int,
    status: Status)

  datatype Balances = Balances(cash: int, mvola: int, orangeMoney: int, airtelMoney: int)
  {
    /** `balances[service]` */
    function Of(s: Service): int {
      match s
      case Mvola => mvola
      case OrangeMoney => orangeMoney
      case AirtelMoney => airtelMoney
    }

    /** The balances with the field of `s` replaced by `v`. */
    function With(s: Service, v: int): (b: Balances)
      ensures b.Of(s) == v && b.cash == cash
      ensures forall t :: t != s ==> b.Of(t) == Of(t)
    {
      match s
      case Mvola => this.(mvola := v)
      case OrangeMoney => this.(orangeMoney := v)
      case AirtelMoney => this.(airtelMoney := v)
    }

    function Total(): int {
      cash + mvola + orangeMoney + airtelMoney
    }

    predicate NonNegative() {
      cash >= 0 && mvola >= 0 && orangeMoney >= 0 && airtelMoney >= 0
    }
  }

  /** The balances before any session has been started. */
  const ZeroBalances := Balances(0, 0, 0, 0)

  /**
   * A request to the ledger. The id and the date, which the source takes from
   * the clock, are part of the request.
   */
  datatype Operation =
    | DepositOp(service: Service, amount: int, phone: string, id: string, date: int)
    | WithdrawOp(service: Service, amount: int, phone: string, id: string, date: int)
    | TransferOp(service: Service, amount: int, recipient: Recipient, description: Option<string>,
                 id: string, date: int)
  {
    function Type(): TxType {
      match this
      case DepositOp(_, _, _, _, _) => Deposit
      case WithdrawOp(_, _, _, _, _) => Withdrawal
      case TransferOp(_, _, _, _, _, _) => Transfer
    }
  }

  /** The reason each rejection is reported to the operator. */
  datatype LedgerError =
    | NotSignedIn
    | NoSession
    | SessionAlreadyStarted
    | PhoneRequired
    | InsufficientService(service: Service)
    | InsufficientCash

  datatype Outcome = Accepted | Rejected(error: LedgerError)

  datatype LedgerState = LedgerState(balances: Balances, sessionStarted: bool, transactions: seq<Transaction>)

  datatype Step = Step(state: LedgerState, outcome: Outcome)

  /** The state before the first session. */
  const Initial := LedgerState(ZeroBalances, false, [])

  /**
   * The fee of an operation: nothing for a deposit, the larger of 300 and 2%
   * for a withdrawal, the larger of 200 and 1.5% for a transfer; never rounded.
   */
  function CalculateFees(t: TxType, amount: int): (fee: real)
    ensures t == Deposit ==> fee == 0.0
    ensures t == Withdrawal ==> fee >= 300.0 && fee >= amount as real * 0.02
    ensures t == Withdrawal ==> fee == 300.0 || fee == amount as real * 0.02
    ensures t == Transfer ==> fee >= 200.0 && fee >= amount as real * 0.015
    ensures t == Transfer ==> fee == 200.0 || fee == amount as real * 0.015
  {
    match t
    case Deposit => 0.0
    case Withdrawal => Max(300.0, amount as real * 0.02)
    case Transfer => Max(200.0, amount as real * 0.015)
  }

  function Max(a: real, b: real): real {
    if a >= b then a else b
  }

  /** The completed record that an accepted operation prepends to the history. */
  function RecordOf(op: Operation): (r: Transaction)
    ensures r.id == op.id && r.date == op.date && r.service == op.service && r.amount == op.amount
    ensures r.txType == op.Type() && r.status == Completed
    ensures r.fees == CalculateFees(op.Type(), op.amount)
    ensures !op.TransferOp? ==> r.phoneNumber == Some(op.phone) && r.recipient.None? && r.description.None?
    ensures op.TransferOp? ==> r.phoneNumber.None? && r.recipient == Some(op.recipient) && r.description == op.description
  {
    var fees := CalculateFees(op.Type(), op.amount);
    match op
    case DepositOp(s, a, phone, id, date) =>
      Transaction(id, Deposit, s, a, fees, Some(phone), None, None, date, Completed)
    case WithdrawOp(s, a, phone, id, date) =>
      Transaction(id, Withdrawal, s, a, fees, Some(phone), None, None, date, Completed)
    case TransferOp(s, a, recipient, description, id, date) =>
      Transaction(id, Transfer, s, a, fees, None, Some(recipient), description, date, Completed)
  }

  /**
   * Starts the session once: a second start is refused and changes nothing;
   * otherwise the balances become exactly the opening balances.
   */
  function OpenSession(l: LedgerState, opening: Balances): (r: Step)
    ensures r.outcome.Accepted? <==> !l.sessionStarted
    ensures r.outcome.Rejected? ==> r.state == l && r.outcome.error == SessionAlreadyStarted
    ensures r.outcome.Accepted? ==> r.state.balances == opening && r.state.transactions == l.transactions
    ensures r.state.sessionStarted
  {
    if l.sessionStarted then Step(l, Rejected(SessionAlreadyStarted))
    else Step(l.(balances := opening, sessionStarted := true), Accepted)
  }

  /** The balances once `amount` has moved from the service's float into the cash drawer. */
  function IntoCash(b: Balances, s: Service, amount: int): (r: Balances)
    ensures r.cash == b.cash + amount && r.Of(s) == b.Of(s) - amount
    ensures forall t :: t != s ==> r.Of(t) == b.Of(t)
    ensures r.Total() == b.Total()
    ensures b.NonNegative() && r.cash >= 0 && r.Of(s) >= 0 ==> r.NonNegative()
  {
    var updated := b.(cash := b.cash + amount);
    updated.With(s, updated.Of(s) - amount)
  }

  /** Moving a negative amount into cash is taking that amount out of cash and crediting the service. */
  lemma IntoCashNegated(b: Balances, s: Service, a: int)
    ensures IntoCash(b, s, -a) == b.(cash := b.cash - a).With(s, b.Of(s) + a)
  {
    match s
    case Mvola =>
    case OrangeMoney =>
    case AirtelMoney =>
  }

  /**
   * Deposit, withdrawal or transfer, checked in the source's order: the
   * operator is signed in, a session is started, then the per-type checks.
   * A deposit or a transfer moves `amount` from the service into cash and is
   * refused when the service would go negative; a withdrawal moves `amount`
   * from cash into the service and is refused when it exceeds cash. Deposits
   * and withdrawals also refuse a blank phone number. The fee is recorded
   * and never taken from any balance.
   */
  function Apply(l: LedgerState, signedIn: bool, op: Operation): (r: Step)
    ensures !signedIn ==> r == Step(l, Rejected(NotSignedIn))
    ensures signedIn && !l.sessionStarted ==> r == Step(l, Rejected(NoSession))
    ensures r.outcome.Rejected? ==> r.state == l
    ensures r.outcome.Accepted? ==> r.state.transactions == [RecordOf(op)] + l.transactions
    ensures r.state.sessionStarted == l.sessionStarted
  {
    if !signedIn then Step(l, Rejected(NotSignedIn))
    else if !l.sessionStarted then Step(l, Rejected(NoSession))
    else
      match op
      case DepositOp(s, a, phone, _, _) =>
        if IsBlank(phone) then Step(l, Rejected(PhoneRequired))
        else
          var updated := IntoCash(l.balances, s, a);
          if updated.Of(s) < 0 then Step(l, Rejected(InsufficientService(s)))
          else Step(Commit(l, updated, op), Accepted)
      case WithdrawOp(s, a, phone, _, _) =>
        if IsBlank(phone) then Step(l, Rejected(PhoneRequired))
        else if a > l.balances.cash then Step(l, Rejected(InsufficientCash))
        else Step(Commit(l, IntoCash(l.balances, s, -a), op), Accepted)
      case TransferOp(s, a, _, _, _, _) =>
        if a > l.balances.Of(s) then Step(l, Rejected(InsufficientService(s)))
        else Step(Commit(l, IntoCash(l.balances, s, a), op), Accepted)
  }

  function Commit(l: LedgerState, updated: Balances, op: Operation): LedgerState {
    l.(balances := updated, transactions := [RecordOf(op)] + l.transactions)
  }

  /**
   * What any operation does to the balances: the total of the four is kept,
   * only the operation's service and the cash move, and non-negative
   * balances stay non-negative for a non-negative amount.
   */
  lemma ApplyBalances(l: LedgerState, signedIn: bool, op: Operation)
    ensures var b := Apply(l, signedIn, op).state.balances;
      && b.Total() == l.balances.Total()
      && (forall s :: s != op.service ==> b.Of(s) == l.balances.Of(s))
      && (l.balances.NonNegative() && op.amount >= 0 ==> b.NonNegative())
  {
    var b := Apply(l, signedIn, op).state.balances;
    if Apply(l, signedIn, op).outcome.Accepted? {
      match op
      case DepositOp(s, a, _, _, _) =>
        assert b == IntoCash(l.balances, s, a);
      case WithdrawOp(s, a, _, _, _) =>
        assert b == IntoCash(l.balances, s, -a);
      case TransferOp(s, a, _, _, _, _) =>
        assert b == IntoCash(l.balances, s, a);
    }
  }

  /** A deposit is accepted exactly when the service holds the amount and the phone is not blank; it then moves the amount into cash. */
  lemma DepositEffect(l: LedgerState, s: Service, a: int, phone: string, id: string, date: int)
    requires l.sessionStarted
    ensures var r := Apply(l, true, DepositOp(s, a, phone, id, date));
      && (IsBlank(phone) ==> r.outcome == Rejected(PhoneRequired))
      && (!IsBlank(phone) && a > l.balances.Of(s) ==> r.outcome == Rejected(InsufficientService(s)))
      && (r.outcome.Accepted? <==> !IsBlank(phone) && a <= l.balances.Of(s))
      && (r.outcome.Accepted? ==>
            r.state.balances.cash == l.balances.cash + a && r.state.balances.Of(s) == l.balances.Of(s) - a)
  {
  }

  /**
   * A withdrawal is accepted exactly when cash covers the amount and the phone
   * is not blank; it moves exactly the amount, the fee is not deducted.
   */
  lemma WithdrawEffect(l: LedgerState, s: Service, a: int, phone: string, id: string, date: int)
    requires l.sessionStarted
    ensures var r := Apply(l, true, WithdrawOp(s, a, phone, id, date));
      && (IsBlank(phone) ==> r.outcome == Rejected(PhoneRequired))
      && (!IsBlank(phone) && a > l.balances.cash ==> r.outcome == Rejected(InsufficientCash))
      && (r.outcome.Accepted? <==> !IsBlank(phone) && a <= l.balances.cash)
      && (r.outcome.Accepted? ==>
            r.state.balances.cash == l.balances.cash - a && r.state.balances.Of(s) == l.balances.Of(s) + a)
      && (r.outcome.Accepted? ==> r.state.transactions[0].fees == CalculateFees(Withdrawal, a))
  {
  }

  /** A transfer checks only the service balance; recipient fields are not validated here. */
  lemma TransferEffect(l: LedgerState, s: Service, a: int, recipient: Recipient, description: Option<string>,
                       id: string, date: int)
    requires l.sessionStarted
    ensures var r := Apply(l, true, TransferOp(s, a, recipient, description, id, date));
      && (r.outcome.Accepted? <==> a <= l.balances.Of(s))
      && (r.outcome.Rejected? ==> r.outcome.error == InsufficientService(s))
      && (r.outcome.Accepted? ==>
            r.state.balances.cash == l.balances.cash + a && r.state.balances.Of(s) == l.balances.Of(s) - a)
      && (r.outcome.Accepted? ==> r.state.transactions[0].recipient == Some(recipient))
  {
  }

  /** The ledger after a sequence of operations, accepted or not. */
  function Run(l: LedgerState, signedIn: bool, ops: seq<Operation>): LedgerState
    decreases |ops|
  {
    if ops == [] then l else Run(Apply(l, signedIn, ops[0]).state, signedIn, ops[1..])
  }

  /** Conservation: no sequence of operations changes cash + mvola + orangeMoney + airtelMoney. */
  lemma {:induction false} RunConservesTotal(l: LedgerState, signedIn: bool, ops: seq<Operation>)
    ensures Run(l, signedIn, ops).balances.Total() == l.balances.Total()
    decreases |ops|
  {
    if ops != [] {
      ApplyBalances(l, signedIn, ops[0]);
      RunConservesTotal(Apply(l, signedIn, ops[0]).state, signedIn, ops[1..]);
    }
  }

  /** Non-negativity: with non-negative amounts, balances that start non-negative stay so. */
  lemma {:induction false} RunKeepsNonNegative(l: LedgerState, signedIn: bool, ops: seq<Operation>)
    requires l.balances.NonNegative()
    requires forall i :: 0 <= i < |ops| ==> ops[i].amount >= 0
    ensures Run(l, signedIn, ops).balances.NonNegative()
    decreases |ops|
  {
    if ops != [] {
      ApplyBalances(l, signedIn, ops[0]);
      RunKeepsNonNegative(Apply(l, signedIn, ops[0]).state, signedIn, ops[1..]);
    }
  }

  /** `a` is what remains of `t` after dropping some elements from its front. */
  predicate IsSuffix<T(==)>(a: seq<T>, t: seq<T>) {
    |a| <= |t| && t[|t| - |a|..] == a
  }

  /**
   * The history only grows at the front: the old list is a suffix of the new
   * one, and at most one record is added per operation.
   */
  lemma {:induction false} RunKeepsHistory(l: LedgerState, signedIn: bool, ops: seq<Operation>)
    ensures IsSuffix(l.transactions, Run(l, signedIn, ops).transactions)
    ensures |Run(l, signedIn, ops).transactions| <= |l.transactions| + |ops|
    ensures Run(l, signedIn, ops).sessionStarted == l.sessionStarted
    decreases |ops|
  {
    if ops != [] {
      var l' := Apply(l, signedIn, ops[0]).state;
      assert Run(l, signedIn, ops) == Run(l', signedIn, ops[1..]);
      RunKeepsHistory(l', signedIn, ops[1..]);
      ApplyKeepsHistory(l, signedIn, ops[0]);
      SuffixTransitive(l.transactions, l'.transactions, Run(l', signedIn, ops[1..]).transactions);
    }
  }

  /** One operation adds at most one record, at the front. */
  lemma ApplyKeepsHistory(l: LedgerState, signedIn: bool, op: Operation)
    ensures IsSuffix(l.transactions, Apply(l, signedIn, op).state.transactions)
    ensures |Apply(l, signedIn, op).state.transactions| <= |l.transactions| + 1
  {
    var t := Apply(l, signedIn, op).state.transactions;
    if Apply(l, signedIn, op).outcome.Accepted? {
      assert t[1..] == l.transactions;
    }
  }

  lemma SuffixTransitive<T>(a: seq<T>, b: seq<T>, c: seq<T>)
    requires IsSuffix(a, b) && IsSuffix(b, c)
    ensures IsSuffix(a, c)
  {
    assert c[|c| - |b|..][|b| - |a|..] == c[|c| - |a|..];
  }

  /** Without a started session, no sequence of operations changes anything. */
  lemma {:induction false} RunWithoutSessionIsInert(l: LedgerState, signedIn: bool, ops: seq<Operation>)
    requires !l.sessionStarted
    ensures Run(l, signedIn, ops) == l
    decreases |ops|
  {
    if ops != [] {
      RunWithoutSessionIsInert(l, signedIn, ops[1..]);
    }
  }

  /**
   * The kiosk: the four balances, the session flag and the history as
   * mutable fields, changed in place by the operations.
   */
  class TransactionStore {
    var cash: int
    var mvola: int
    var orangeMoney: int
    var airtelMoney: int
    var sessionStarted: bool
    var transactions: seq<Transaction>

    /** The abstract value of the store. */
    function State(): LedgerState
      reads this
    {
      LedgerState(Balances(cash, mvola, orangeMoney, airtelMoney), sessionStarted, transactions)
    }

    constructor ()
      ensures State() == Initial
    {
      cash, mvola, orangeMoney, airtelMoney := 0, 0, 0, 0;
      sessionStarted := false;
      transactions := [];
    }

    /** `getServiceBalance` */
    function GetServiceBalance(s: Service): (v: int)
      reads this
      ensures v == State().balances.Of(s)
    {
      match s
      case Mvola => mvola
      case OrangeMoney => orangeMoney
      case AirtelMoney => airtelMoney
    }

    /** `getCashBalance` */
    function GetCashBalance(): (v: int)
      reads this
      ensures v == State().balances.cash
    {
      cash
    }

    method SetBalances(b: Balances)
      modifies this
      ensures State() == old(State()).(balances := b)
    {
      cash, mvola, orangeMoney, airtelMoney := b.cash, b.mvola, b.orangeMoney, b.airtelMoney;
    }

    method StartSession(opening: Balances) returns (outcome: Outcome)
      modifies this
      ensures Step(State(), outcome) == OpenSession(old(State()), opening)
      ensures sessionStarted
    {
      if sessionStarted {
        return Rejected(SessionAlreadyStarted);
      }
      SetBalances(opening);
      sessionStarted := true;
      outcome := Accepted;
    }

    method DepositMoney(signedIn: bool, s: Service, amount: int, phone: string, id: string, date: int)
      returns (outcome: Outcome)
      modifies this
      ensures Step(State(), outcome) == Apply(old(State()), signedIn, DepositOp(s, amount, phone, id, date))
    {
      if !signedIn {
        return Rejected(NotSignedIn);
      }
      if !sessionStarted {
        return Rejected(NoSession);
      }
      if IsBlank(phone) {
        return Rejected(PhoneRequired);
      }
      var updated := State().balances;
      updated := updated.(cash := updated.cash + amount);
      updated := updated.With(s, updated.Of(s) - amount);
      assert updated == IntoCash(State().balances, s, amount);
      if updated.Of(s) < 0 {
        return Rejected(InsufficientService(s));
      }
      var fees := CalculateFees(Deposit, amount);
      transactions := [Transaction(id, Deposit, s, amount, fees, Some(phone), None, None, date, Completed)]
                      + transactions;
      SetBalances(updated);
      outcome := Accepted;
    }

    method WithdrawMoney(signedIn: bool, s: Service, amount: int, phone: string, id: string, date: int)
      returns (outcome: Outcome)
      modifies this
      ensures Step(State(), outcome) == Apply(old(State()), signedIn, WithdrawOp(s, amount, phone, id, date))
    {
      if !signedIn {
        return Rejected(NotSignedIn);
      }
      if !sessionStarted {
        return Rejected(NoSession);
      }
      if IsBlank(phone) {
        return Rejected(PhoneRequired);
      }
      var fees := CalculateFees(Withdrawal, amount);
      var updated := State().balances;
      if amount > updated.cash {
        return Rejected(InsufficientCash);
      }
      updated := updated.(cash := updated.cash - amount);
      updated := updated.With(s, updated.Of(s) + amount);
      IntoCashNegated(State().balances, s, amount);
      transactions := [Transaction(id, Withdrawal, s, amount, fees, Some(phone), None, None, date, Completed)]
                      + transactions;
      SetBalances(updated);
      outcome := Accepted;
    }

    method TransferMoney(signedIn: bool, s: Service, amount: int, recipient: Recipient,
                         description: Option<string>, id: string, date: int)
      returns (outcome: Outcome)
      modifies this
      ensures Step(State(), outcome)
              == Apply(old(State()), signedIn, TransferOp(s, amount, recipient, description, id, date))
    {
      if !signedIn {
        return Rejected(NotSignedIn);
      }
      if !sessionStarted {
        return Rejected(NoSession);
      }
      var fees := CalculateFees(Transfer, amount);
      var updated := State().balances;
      if amount > updated.Of(s) {
        return Rejected(InsufficientService(s));
      }
      updated := updated.(cash := updated.cash + amount);
      updated := updated.With(s, updated.Of(s) - amount);
      transactions := [Transaction(id, Transfer, s, amount, fees, None, Some(recipient), description, date, Completed)]
                      + transactions;
      SetBalances(updated);
      outcome := Accepted;
    }
  }
}
