# Cash-point ledger of a Madagascar mobile-money kiosk, in Dafny

This project models the core of a web app used by a kiosk operator in
Madagascar. The operator swaps cash for mobile money on three services:
MVola, Orange Money and Airtel Money.

- **Ledger** (`ledger.dfy`). Holds four balances (the cash drawer and one
  float per service), a "session started" flag and the transaction
  history, newest first.
  - A session is opened once, with opening balances.
  - A **deposit** or a **transfer** moves the amount from the service's
    float into cash.
  - A **withdrawal** moves the amount from cash into the float.
  - Each accepted operation prepends one completed record, with its fee, to
    the history.
  - The operations are stated once as functions on a value (`OpenSession`,
    `Apply`), and their properties are proved there. The class
    `TransactionStore` holds the same state in mutable fields; each of its
    methods is proved to leave exactly the state and outcome the function
    gives.
- **Queries** (`ledger_queries.dfy`). The history filtered by service or by
  type, and the most recent records. Sorting by date is modelled as an
  insertion sort, proved sorted and a permutation.
- **History page** (`history.dfy`). The sorted history filtered by a search
  box and a type selector.
- **Forms** (`form_checks.dfy`, `deposit_form.dfy`, `withdraw_form.dfy`,
  `transfer_form.dfy`, `session_balance_form.dfy`). Each modelled form's
  ordered checks before it calls the ledger:
  - amount fields are kept to digits and read with `parseInt`;
  - amounts have a minimum of 1 000 Ar;
  - the withdrawal form previews the fee and the total;
  - the opening-balance form reads its fields with `parseInt(...) || 0`.
- **Profile and contacts** (`auth.dfy`). The signed-in user, their contact
  book and profile updates. The list operations are functions; the
  provider's `user` is a field of the class `AuthStore`.
- **Signup checks** (`signup.dfy`):
  - required fields, PIN confirmation and PIN length;
  - the phone number with `+`, blanks and `-` deleted;
  - the email generated from that number.
- **Support modules.** `text.dfy` holds the JavaScript string functions the
  core relies on: `trim`, `parseInt`, ASCII `toLowerCase`, `includes`, and
  `replace(/\D/g, "")`. `seqs.dfy` holds order-preserving filtering.
  `includes` is a predicate; the lemma `ContainsIff` states what it means.
  `DigitsValue` and `LowerChar` are reference definitions without a
  contract of their own. The other functions there carry their own contracts.

Three facts about the code shape the ledger:

- Fees are `Math.max(300, amount * 0.02)` for a withdrawal and
  `Math.max(200, amount * 0.015)` for a transfer. They are never rounded up.
- The fee is recorded on the transaction and never taken from any balance.
- There is no operation that closes a session.

The identity of the signed-in user enters the ledger as a `signedIn` flag.
Transaction ids and dates come from the clock in the program; here they are
parameters, and dates are integers (milliseconds).

## Model

| member | source | states |
|---|---|---|
| Text.StripNonDigits | src/components/transactions/WithdrawForm.tsx:24-27 | The amount field after `replace(/\D/g, "")` holds only digits. It keeps every digit of the input, each as often as it occurs and in the input's order, and nothing else. A field already made of digits is unchanged. |
| Text.Trim | src/context/TransactionContext.tsx:230-232 | `trim()` gives the empty string exactly when every character is white space. Otherwise both ends of the result are not white space. |
| Text.BlankIffTrimmedEmpty | src/context/TransactionContext.tsx:230 | A string is blank (every character white space) exactly when `trim()` leaves nothing. |
| Text.ParseInt | src/components/transactions/WithdrawForm.tsx:48 | `parseInt(s, 10)` is NaN exactly when no digit follows the leading white space and the optional sign. A negative result needs a leading `-`; without one the result is non-negative. |
| Text.ParseIntOfDigits | src/components/transactions/WithdrawForm.tsx:48 | On a string of digits, `parseInt` is NaN for the empty string and otherwise the decimal value of the whole string. |
| Text.ParseIntOfDigitsNonNegative | src/components/transactions/WithdrawForm.tsx:48 | `parseInt` of a digit string is never negative. |
| Text.ToLower | src/pages/History.tsx:25 | `toLowerCase` keeps the length, turns each upper-case ASCII letter into its lower-case letter (code + 32) and keeps every other character. |
| Text.ToLowerIdempotent | src/pages/History.tsx:25-27 | Lower-casing twice equals lower-casing once. |
| Text.ToLowerIgnoresCase | src/pages/History.tsx:25-27 | Strings that differ only in the case of their letters lower-case to the same string. |
| Text.ContainsIff | src/pages/History.tsx:24-27 | `includes` holds exactly when the term occurs at some position of the string. |
| Text.ContainsEmpty | src/pages/History.tsx:24-27 | Every string includes the empty term. |
| Ledger.CalculateFees | src/context/TransactionContext.tsx:175-180 | Deposit fee is 0. Withdrawal fee is the larger of 300 and 2% of the amount. Transfer fee is the larger of 200 and 1.5% of the amount. Each is stated as at least both values and equal to one of them. |
| Ledger.RecordOf | src/context/TransactionContext.tsx:248-257 | The record of an operation carries its id, date, service, amount, type, fee and the status "completed". A deposit or withdrawal record carries the phone and has neither recipient nor description. A transfer record carries the recipient and description and no phone. |
| Ledger.OpenSession | src/context/TransactionContext.tsx:182-202 | Starting a session succeeds exactly when none is started. A second start is refused with the state unchanged. On success the balances are exactly the opening balances, the history is untouched and the flag is set. |
| Ledger.IntoCash | src/context/TransactionContext.tsx:237-239 | Moving an amount from a service into cash adds it to cash, takes it from that service, leaves the other services alone and keeps the total. |
| Ledger.Apply | src/context/TransactionContext.tsx:212-402 | Refusal order: first "not signed in", then "no session". A refusal changes nothing. An acceptance prepends exactly the operation's record. The session flag never changes. |
| Ledger.ApplyBalances | src/context/TransactionContext.tsx:237-244 | Any operation keeps the total of the four balances. Only the operation's service and cash move. Non-negative balances stay non-negative for a non-negative amount. |
| Ledger.ApplyKeepsHistory | src/context/TransactionContext.tsx:259 | One operation adds at most one record, at the front; the old history is a suffix of the new. |
| Ledger.DepositEffect | src/context/TransactionContext.tsx:229-259 | A deposit is refused for a blank phone, then when the service would go negative. It is accepted exactly otherwise, and then cash gains the amount and the service loses it. |
| Ledger.WithdrawEffect | src/context/TransactionContext.tsx:292-323 | A withdrawal is refused for a blank phone, then when it exceeds cash. It is accepted exactly otherwise. Cash loses exactly the amount and the service gains it. The fee is recorded, not deducted. |
| Ledger.TransferEffect | src/context/TransactionContext.tsx:361-388 | A transfer is accepted exactly when the service holds the amount; otherwise it is refused with that service named. Cash gains the amount, the service loses it, and the record carries the recipient. |
| Ledger.RunConservesTotal | src/context/TransactionContext.tsx:237-239 | Over any sequence of operations, the sum cash + mvola + orangeMoney + airtelMoney never changes. |
| Ledger.RunKeepsNonNegative | src/context/TransactionContext.tsx:241-244 | With non-negative amounts, balances that start non-negative stay non-negative through any sequence of operations. |
| Ledger.RunKeepsHistory | src/context/TransactionContext.tsx:259 | The history only grows at the front: the old history is a suffix of the new, with at most one record added per operation. The session flag is kept. |
| Ledger.RunWithoutSessionIsInert | src/context/TransactionContext.tsx:218-221 | Before a session is started, no sequence of operations changes the state. |
| Ledger.TransactionStore.constructor | src/context/TransactionContext.tsx:121-128 | The store starts with zero balances, no session and an empty history. |
| Ledger.TransactionStore.GetServiceBalance | src/context/TransactionContext.tsx:204-206 | Returns the stored balance of the given service. |
| Ledger.TransactionStore.GetCashBalance | src/context/TransactionContext.tsx:208-210 | Returns the stored cash balance. |
| Ledger.TransactionStore.StartSession | src/context/TransactionContext.tsx:182-202 | The fields and the outcome after the call are exactly those `OpenSession` gives for the state before it. |
| Ledger.TransactionStore.DepositMoney | src/context/TransactionContext.tsx:212-273 | The fields and the outcome after the call are exactly those `Apply` gives for the deposit. |
| Ledger.TransactionStore.WithdrawMoney | src/context/TransactionContext.tsx:275-337 | The fields and the outcome after the call are exactly those `Apply` gives for the withdrawal. |
| Ledger.TransactionStore.TransferMoney | src/context/TransactionContext.tsx:339-402 | The fields and the outcome after the call are exactly those `Apply` gives for the transfer. |
| LedgerQueries.SortByDateDesc | src/context/TransactionContext.tsx:413-414 | The copy sorted by date is newest first and a permutation of the history (same multiset, same length). |
| LedgerQueries.InsertByDate | src/context/TransactionContext.tsx:413-414 | Inserting one record adds exactly that record (same multiset plus it, one longer). |
| LedgerQueries.InsertByDateNewestFirst | src/context/TransactionContext.tsx:413-414 | Inserting into a newest-first list keeps it newest first. |
| LedgerQueries.ServiceTransactions | src/context/TransactionContext.tsx:404-406 | Holds exactly the records of the service, each as often as in the history, in stored order (a subsequence of the history). |
| LedgerQueries.TransactionsByType | src/context/TransactionContext.tsx:408-410 | Holds exactly the records of the type, each as often as in the history, in stored order (a subsequence of the history). |
| LedgerQueries.RecentTransactions | src/context/TransactionContext.tsx:412-416 | For a non-negative limit, returns min(limit, length) records; a negative limit drops that many from the end, as `slice` does. They are newest first and drawn from the history. |
| LedgerQueries.RecentAreNewest | src/context/TransactionContext.tsx:412-416 | No record left out of the recent list is newer than one in it. |
| History.FilteredTransactions | src/pages/History.tsx:18-32 | The page lists exactly the records that match both the search and the type, each as often as in the history, newest first, as a subsequence of the sorted copy. |
| History.SearchIgnoresCase | src/pages/History.tsx:24-27 | Two search terms that lower-case alike match the same records, unless one is found in the recipient's phone, which is compared exactly. |
| History.SearchIgnoresCaseOfTerm | src/pages/History.tsx:24-27 | A term and its lower-cased spelling match the same records by name or description. |
| History.NoRecipientNoDescriptionNeverMatches | src/pages/History.tsx:24-27 | A record with neither recipient nor description matches no search term, not even the empty one. |
| History.RecipientMatchesEmptyTerm | src/pages/History.tsx:24-27 | A record with a recipient, as every transfer has, matches the empty search term. |
| History.LedgerDepositsNeverListed | src/pages/History.tsx:24-27 | A deposit or withdrawal accepted by the ledger is in the history but never on the page, for any search term and type. |
| History.FilteredTransactionsCorrected | src/pages/History.tsx:18-32 | With an empty term matching everything, the page with no filter lists the whole sorted history. For a non-empty term it agrees with the page as written. |
| History.CorrectedListsLedgerDeposits | src/pages/History.tsx:23-32 | With the correction, every accepted record shows on the page when the search box is empty. |
| FormChecks.CheckAmount | src/components/transactions/WithdrawForm.tsx:48-57 | The amount is refused as invalid exactly when `parseInt` gives NaN or a number ≤ 0. It is refused as below the minimum exactly when that number is between 1 and 999. Otherwise it is accepted with that value. |
| FormChecks.CheckAmountOfDigits | src/components/transactions/DepositForm.tsx:39-48 | On a digits-only field, the amount passes exactly when the field is non-empty and its value is at least 1 000. |
| FormChecks.BelowMinimumRefused | src/components/transactions/DepositForm.tsx:45-48 | "999" is refused as below the minimum. |
| FormChecks.MinimumAccepted | src/components/transactions/DepositForm.tsx:45-48 | "1000" is accepted as 1 000. |
| DepositForm.HandleSubmit | src/components/transactions/DepositForm.tsx:25-54 | Checks run in order: no service, empty phone, then the amount. The first failure is returned. Otherwise the request carries the service, the parsed amount (≥ 1 000) and the phone. |
| DepositForm.SubmittedDepositKeepsLedgerSound | src/components/transactions/DepositForm.tsx:50 | A deposit the form submits keeps the ledger's balances non-negative and their total unchanged. |
| DepositForm.BlankPhonePassesFormOnly | src/components/transactions/DepositForm.tsx:34-37 | A phone of one space passes the form's emptiness check and is refused by the ledger as blank. |
| WithdrawForm.HandleSubmit | src/components/transactions/WithdrawForm.tsx:29-72 | Checks run in order: signed in, service, phone, amount, then amount ≤ cash (that error carries the balance). The first failure is returned. Otherwise the request's amount is between 1 000 and the cash balance. |
| WithdrawForm.CalculateFee | src/components/transactions/WithdrawForm.tsx:74-78 | The previewed fee is 0 for a NaN or non-positive amount. Otherwise it equals the ledger's withdrawal fee, at least 300. |
| WithdrawForm.TotalAmount | src/components/transactions/WithdrawForm.tsx:80-81 | The total is NaN exactly when the amount is NaN. Otherwise it is the amount plus the previewed fee. |
| WithdrawForm.SubmittedWithdrawalAccepted | src/components/transactions/WithdrawForm.tsx:59-67 | A withdrawal the form submits against the ledger's cash is accepted when the phone is not blank. The fee recorded is the fee previewed. |
| TransferForm.HandleSubmit | src/components/transactions/TransferForm.tsx:32-78 | Checks run in order: service, recipient name, recipient phone (emptiness only), then the amount. The first failure is returned. Otherwise the request carries the recipient as typed. |
| TransferForm.BlankRecipientPasses | src/components/transactions/TransferForm.tsx:41-49 | A recipient name and phone of one space each pass the form. |
| TransferForm.SubmittedTransferOutcome | src/components/transactions/TransferForm.tsx:63-68 | A submitted transfer is accepted exactly when the service holds the amount. The record keeps the recipient and description as typed. |
| SessionBalanceForm.ParseOrZero | src/components/transactions/SessionBalanceForm.tsx:27-30 | `parseInt(field) \|\| 0` is 0 for NaN, otherwise the parsed value. On a digits-only field it is non-negative (0 for the empty field). |
| SessionBalanceForm.OpeningBalances | src/components/transactions/SessionBalanceForm.tsx:27-38 | The opening balances are the four parsed fields. They are non-negative when the fields hold only digits. |
| SessionBalanceForm.Submit | src/components/transactions/SessionBalanceForm.tsx:153 | The form submits exactly when it is neither loading nor already started, and then submits the parsed balances. |
| SessionBalanceForm.FormSeedsSoundLedger | src/components/transactions/SessionBalanceForm.tsx:18-38 | Whatever is typed, a session started from the form opens with non-negative balances. Any later run of operations with non-negative amounts keeps them non-negative and keeps their total. |
| Auth.SignupUser | src/context/AuthContext.tsx:147-152 | The new user is the template with only id, name and phone replaced. |
| Auth.AppendContact | src/context/AuthContext.tsx:175-182 | Adding a contact keeps every existing contact in place and appends exactly one with the new id. |
| Auth.MergeContact | src/context/AuthContext.tsx:194 | A contact update never changes the id. Each field present in the update replaces the contact's, and each absent field is kept. An empty update changes nothing. |
| Auth.MergeContactIdempotent | src/context/AuthContext.tsx:194 | Applying a contact update twice equals applying it once. |
| Auth.UpdateContacts | src/context/AuthContext.tsx:193-195 | Length, order and ids are kept. A contact with another id is unchanged; one with the id gets the update. |
| Auth.RemoveContacts | src/context/AuthContext.tsx:210 | Keeps exactly the contacts with another id, each as often as before, in their order. |
| Auth.RemoveUndoesAppend | src/context/AuthContext.tsx:172-215 | Removing a contact just added under a fresh id gives back the previous list. |
| Auth.RemoveAfterUpdate | src/context/AuthContext.tsx:190-215 | Updating a contact and then removing it is the same as removing it. |
| Auth.MergeUser | src/context/AuthContext.tsx:229-232 | Each field present in the update replaces the user's, and each absent field is kept. An update with no fields changes nothing. |
| Auth.MergeUserIdempotent | src/context/AuthContext.tsx:229-232 | Applying a profile update twice equals applying it once. |
| Auth.AuthStore.constructor | src/context/AuthContext.tsx:101 | No user is signed in at first. |
| Auth.AuthStore.Login | src/context/AuthContext.tsx:119-137 | Any phone and PIN sign in the template user, and the call reports success. |
| Auth.AuthStore.Signup | src/context/AuthContext.tsx:139-164 | The user becomes `SignupUser(name, phone, id)`, and the call reports success. |
| Auth.AuthStore.Logout | src/context/AuthContext.tsx:166-170 | No user is signed in afterwards. |
| Auth.AuthStore.AddContact | src/context/AuthContext.tsx:172-188 | Without a user nothing changes. Otherwise the user's contacts become `AppendContact(...)` and nothing else changes. |
| Auth.AuthStore.UpdateContact | src/context/AuthContext.tsx:190-205 | Without a user nothing changes. Otherwise the contacts become `UpdateContacts(...)` and nothing else changes. |
| Auth.AuthStore.RemoveContact | src/context/AuthContext.tsx:207-220 | Without a user nothing changes. Otherwise the contacts become `RemoveContacts(...)` and nothing else changes. |
| Auth.AuthStore.UpdateUser | src/context/AuthContext.tsx:222-241 | Returns false with the state unchanged when no user is signed in. Otherwise returns true, and the user becomes `MergeUser(old user, updates)`. |
| Signup.NormalisePhone | src/pages/Signup.tsx:44 | The normalised phone contains no `+`, `-` or white space. It keeps every other character of the input, each as often as it occurs, in order. |
| Signup.NormalisePhoneIdempotent | src/pages/Signup.tsx:44 | Normalising twice equals normalising once. |
| Signup.NormalisePhoneOfDigits | src/pages/Signup.tsx:44 | A phone of digits only is left unchanged. |
| Signup.GeneratedEmail | src/pages/Signup.tsx:65 | The email is `user_`, then the phone, then `@cashpoint.app`, stated part by part with its length. |
| Signup.EmailRoundTrip | src/pages/Signup.tsx:65 | The phone can be read back from the generated email. |
| Signup.GeneratedEmailInjective | src/pages/Signup.tsx:65 | Different normalised phones never give the same email. |
| Signup.ValidateSignup | src/pages/Signup.tsx:28-65 | A blank name, phone or PIN is refused first, then a PIN that differs from its confirmation, then a PIN under 6 characters (untrimmed), each exactly when its condition holds. Otherwise it returns the name, the normalised phone, the PIN and the email generated from that phone. |
| Signup.PaddedPinAccepted | src/pages/Signup.tsx:38-41 | "12345 " counts as six characters and is accepted. |
| Signup.PlusOnlyPhoneGivesEmptyNumber | src/pages/Signup.tsx:28-65 | A phone of a lone `+` passes the checks, normalises to the empty string and gives the email `user_@cashpoint.app`. |

## Left out

- Persistence in `localStorage`, the simulated network delays, the loading
  flags the providers toggle around them, toast messages, navigation and
  rendering. The state is taken as already loaded. Each toast is kept only
  as the error value it reports.
- The mock data generators (the sample transaction history and the sample
  profile's data). The profile template is kept only because signup and
  login build the user from it.
- Supabase: the existing-account lookup, account creation, the fallback
  insert and the automatic sign-in after signup. These are calls to a
  foreign service. `ValidateSignup` covers the checks and the phone
  normalisation (src/pages/Signup.tsx:28-44) and the email built at line
  65. It skips the existing-account lookup between them (lines 51-62), so
  the refusal "Un compte avec ce numéro de téléphone existe déjà" is not
  modelled.
- The clock. Transaction and contact ids (`Date.now()`) and dates
  (`new Date()`) are parameters.
- Ledger.Apply: amounts are unbounded integers and fees are exact `real`s.
  JavaScript's double-precision rounding of fees and of very large amounts
  is not modelled.
- Ledger.Apply: negative amounts, which the forms never submit, are
  accepted by the ledger as written. Non-negativity of the balances is
  therefore stated only for non-negative amounts.
- Ledger.TransactionStore: the ledger's outcome is returned as a value.
  The source reports it by a boolean and a toast.
- LedgerQueries.SortByDateDesc: the insertion sort is stable, like the
  engine's sort, but stability is not stated. Only the order by date and
  the permutation are proved.
- Signup.ValidateSignup: the PIN's length is counted in characters. In
  JavaScript `pin.length` counts UTF-16 code units, so a PIN with a
  character outside the Basic Multilingual Plane (an emoji) is longer there:
  "1234" followed by one emoji is 6 long and accepted by the source, 5 long
  and refused as too short by the model.
- Text.ToLower: `toLowerCase` is modelled on ASCII letters only. Unicode
  case mapping is not modelled.
- Text.ParseInt: digits are ASCII only. Numbers too large for a double are
  read exactly, where JavaScript would lose precision.
- Auth.MergeUser and Auth.MergeContact: a `Partial` update whose key is
  present with the value `undefined`, which would clear an optional field
  under the spread, is not modelled. Each field of an update is either
  absent or a value.
- Auth: contact and user ids that `Date.now()` could repeat within one
  millisecond are not modelled. `RemoveUndoesAppend` requires a fresh id.
- The receipt, dashboard, profile and settings pages only display or edit
  this state through the operations above. They are not part of this model.

## Findings

| source | as written | input that shows it | evidently intended | confidence | as-written member | corrected member |
|---|---|---|---|---|---|---|
| src/pages/History.tsx:24-27 | The search predicate is built only from `recipient?.name`, `recipient?.phone` and `description?`. For a record with neither field it evaluates to `undefined`, so the record is dropped, even when the search box is empty. Deposits and withdrawals recorded by the ledger have neither field. | Any accepted deposit, e.g. 1 000 Ar on MVola for phone "0341234567", with the search box empty and the type "all": the deposit is not listed, though the transfers are. With the type "Dépôt" nothing is listed at all. | The page is titled "Consultez toutes vos transactions passées" (lines 64-65) and offers "Dépôt" and "Retrait" in its type selector (lines 89-94). An empty search should therefore match every record. | high (not executed) | History.LedgerDepositsNeverListed | History.FilteredTransactionsCorrected |
