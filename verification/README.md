# Payment routes of the Swift Secure Banking backend, as a verified ledger model

This project models the money-movement logic of the backend's payment router
(`react-project-apds/BACKEND/routes/payment.js`): the international-payment,
add-balance, transaction-status and transaction-query handlers. Each handler
becomes a pure function from a `Ledger` to a reply and a new `Ledger`, and
the guarantees the handlers give are proved about those functions.

The ledger (`LedgerTypes.Ledger`) has three parts:

- the set of registered users, which the `User.findById` lookups consult;
- a map from user id to account balance, which the `Account.findOne({ userId })`
  lookups consult;
- the sequence of transaction records. Each record carries its id, the owning
  user id, the recipient name, bank and account number, the amount, the SWIFT
  code, the transaction type, the status and the date.

Module layout:

- `ledger_types.dfy` (`LedgerTypes`): the entities, the request and reply
  shapes, the error taxonomy, the ledger invariants (`Solvent`, `UniqueIds`),
  and the validators.
- `transaction_query.dfy` (`TransactionQuery`): the store's
  `find(filter).sort({ date: -1 })`. It selects with one of the three filters
  the routes use, then orders by date, most recent first.
- `balance_total.dfy` (`BalanceTotal`): the total money held across all
  accounts. It is used to say how much a handler moves in or out.
- `payment.dfy` (`Payment`): the six handlers.
- `payment_properties.dfy` (`PaymentProperties`): properties that relate
  several calls. These cover money totals, a top-up/payment round trip, id
  uniqueness, the pending queue, per-user histories, and solvency across any
  sequence of requests.

Inputs the handlers take from outside are parameters:

- the authenticated caller id, which comes from the token;
- the current time, which `new Date()` supplies;
- the id the store assigns to a new record.

The four validation utilities are held in a `Validators` value of four
functions, so every result holds for any validation rules. The name rule
covers both the recipient name and the bank, so a payment runs five checks.
Among the solvency results, only the solvency of add-balance, and with it
`RunKeepsSolvent`, needs the hypothesis `AmountsPositive`, which says a
passing amount is positive. A payment keeps balances non-negative without
that hypothesis, because the sufficiency check alone guarantees it. Separately,
`TopUpThenPayRestoresBalances` assumes `AllFieldsValid`: every field of the
request passes its validator.

Behaviours of the handlers worth knowing:

- A status update accepts only `confirmed`, `denied` and `flagged`.
  `pending` is not accepted, in any casing.
- The pending query matches the literal `Pending`, with a capital P.
- The status of a new record is whatever the request submitted. The handler
  never validates it. `PaymentQueuedIffPending` shows that only a submission
  of exactly `Pending` enters the pending queue.
- Add-balance does not look the user up. It goes straight to the account.
- A status update moves no money. `UpdateStatus` leaves balances untouched,
  so denying a payment does not refund it.

## Model

| member | source | states |
|---|---|---|
| Payment.Transfer | react-project-apds/BACKEND/routes/payment.js:9-87 | Checks run in order. The first failing field check among name, bank, account number, amount and SWIFT code gives that field's `InvalidInput`. Next come `UserNotFound`, then `AccountNotFound`, then `InsufficientFunds` (when balance < amount). Success happens exactly when all checks pass. Every rejection leaves the ledger unchanged. A success debits exactly the amount from the caller, and only from the caller. It replies with the new balance and the new id. It appends exactly one record, which carries the submitted fields, the caller and the time, and keeps all earlier records. A payment never overdraws an account. |
| Payment.AddBalance | react-project-apds/BACKEND/routes/payment.js:90-112 | An invalid amount gives `InvalidAmount`. A missing account gives `AccountNotFound`. Either rejection leaves the ledger unchanged. A success raises the caller's balance by exactly the amount and replies with that new balance. It changes no other account, no user and no record. Given validators that admit only positive amounts, balances stay non-negative. |
| Payment.FindIndex | react-project-apds/BACKEND/routes/payment.js:144 | `findById` returns the position of the first record carrying the id. When no record carries it, the result is one past the end. |
| Payment.UpdateStatus | react-project-apds/BACKEND/routes/payment.js:133-158 | A status outside {confirmed, denied, flagged} gives `InvalidStatus`. An unknown id gives `TransactionNotFound`. Either rejection leaves the ledger unchanged. Success happens exactly for a whitelisted status and a known id, whatever the record's prior status. A success rewrites only that record's status, keeps every other record, and replies "Transaction status updated to <status>". Balances and users never change. |
| Payment.MyTransactions | react-project-apds/BACKEND/routes/payment.js:115-129 | An unregistered caller gets `UserNotFound`. A registered caller gets exactly the records they own, each as often as it is stored, most recent first. |
| Payment.PendingTransactions | react-project-apds/BACKEND/routes/payment.js:164-172 | Returns exactly the records whose status is the literal `Pending`, most recent first. |
| Payment.AllTransactions | react-project-apds/BACKEND/routes/payment.js:178-186 | Returns a permutation of every record, most recent first. |
| TransactionQuery.Find | react-project-apds/BACKEND/routes/payment.js:123-180 | The three queries at lines 123, 166 and 180: `find(filter).sort({date: -1})` returns each matching record as often as it is stored, nothing else, with dates never increasing. |
| TransactionQuery.SortByDate | react-project-apds/BACKEND/routes/payment.js:180 | `sort({date: -1})` is a permutation of its input with dates never increasing. |
| TransactionQuery.SelectCounts | react-project-apds/BACKEND/routes/payment.js:123-180 | The store's filter keeps every matching record with its multiplicity and drops every other record. |
| TransactionQuery.SelectAppend | react-project-apds/BACKEND/routes/payment.js:123-180 | A store with one more record yields the old selection, plus that record when the filter matches it. |
| PaymentProperties.TransferMovesMoneyOut | react-project-apds/BACKEND/routes/payment.js:48-60 | A successful payment lowers the total held across all accounts by exactly the amount, because no recipient account is credited. |
| PaymentProperties.AddBalanceMovesMoneyIn | react-project-apds/BACKEND/routes/payment.js:104-105 | A successful top-up raises the total held across all accounts by exactly the amount. |
| PaymentProperties.TopUpThenPayRestoresBalances | react-project-apds/BACKEND/routes/payment.js:44-107 | Take a registered user with a non-negative balance and a request whose fields all pass. Topping up the amount and then paying it out both succeed. Afterwards the balances and users are as before, and the only trace is the one new record. |
| PaymentProperties.TransferKeepsIdsUnique | react-project-apds/BACKEND/routes/payment.js:62-75 | Storing a payment under an unused id keeps record ids distinct. |
| PaymentProperties.UpdateStatusKeepsIds | react-project-apds/BACKEND/routes/payment.js:149-151 | A status update keeps the number of records and every record's id, so distinct ids stay distinct. |
| PaymentProperties.UpdateStatusChangesOnlyTarget | react-project-apds/BACKEND/routes/payment.js:144-151 | Assume ids are distinct. After a successful update, every record with the id has only its status replaced, and every other record is identical. |
| PaymentProperties.InPendingQueue | react-project-apds/BACKEND/routes/payment.js:166 | A record is in the pending query exactly when it is stored and its status is `Pending`. |
| PaymentProperties.InHistory | react-project-apds/BACKEND/routes/payment.js:123 | For a registered caller, a record is in the caller's history exactly when it is stored and owned by the caller. |
| PaymentProperties.ReviewedLeavesPendingQueue | react-project-apds/BACKEND/routes/payment.js:138-151 | Assume ids are distinct. After a successful status update, no record with that id is in the pending query, because no whitelisted status is `Pending`. |
| PaymentProperties.PaymentQueuedIffPending | react-project-apds/BACKEND/routes/payment.js:62-75 | A successful payment's record is in the pending query exactly when it was submitted with status `Pending`. |
| PaymentProperties.HistoryAfterAppend | react-project-apds/BACKEND/routes/payment.js:123 | Appending a record the caller owns adds exactly that record to the caller's history. |
| PaymentProperties.HistoryGrowsByOne | react-project-apds/BACKEND/routes/payment.js:123 | Appending a record the caller owns makes the caller's history one record longer, and the history contains the new record. |
| PaymentProperties.PaymentShowsInHistory | react-project-apds/BACKEND/routes/payment.js:62-75 | After a successful payment, the payer's history contains the new record and is one record longer. |
| PaymentProperties.PaymentLeavesOthersHistory | react-project-apds/BACKEND/routes/payment.js:62-75 | A payment leaves every other user's records unchanged. The store's selection for that user is the same sequence. The history reply succeeds exactly when it did before and holds the same records, each as often as before. The reply is also the very same sequence, but that part rests on the model's fixed order for equal dates. |
| PaymentProperties.RunKeepsSolvent | react-project-apds/BACKEND/routes/payment.js:44-105 | Take any sequence of payment, top-up and status-update requests, with validators that admit only positive amounts. No balance ever becomes negative, and the set of account holders never changes. |

## Left out

- Express routing, `helmet`, HTTP status codes and JSON serialisation. Replies are the `Result`/`Step` datatypes. Error messages are reduced to `Error` constructors. The add-balance message text is dropped; only `newBalance` is kept.
- `checkAuth` and token decoding. The caller id is a trusted parameter. The status-update and query routes also sit behind `checkAuth`, which is not modelled.
- The rules inside the validation utilities. Their source is not part of this model. Only their yes/no answers are used, through `Validators`.
- The `Transaction` schema's casting, enum checks and defaults, and absent request fields, are not modelled. The schema lives in a models file that is not part of this model. Every submitted field is a present string stored as given.
- MongoDB/Mongoose persistence and `_id` generation. The store is an in-memory map and sequence. The new id is a parameter, and distinct ids are a hypothesis (`UniqueIds`) of the lemmas that need them.
- The catch-all `catch` branches of every handler. These are storage failures, not logic. One example is `findById` rejecting a malformed id.
- Partial failure between the debit save (line 50) and the record save (line 75). Each handler is modelled as one atomic step.
- Concurrency, including the lost-update race between the balance read at line 44 and `save()` at line 50.
- JavaScript number semantics. Amounts and balances are unbounded integers, for example cents. Floating-point rounding is not modelled. Neither is string coercion: `balance += amount` would concatenate if a validator let a numeric string through.
- TransactionQuery.Find: does not fix which of several records with equal dates comes first, because MongoDB promises no tie order for `sort({date: -1})`. The query contracts promise a date-descending permutation and nothing more.
- PaymentProperties.PaymentLeavesOthersHistory: its last ensures, that another user's history reply is the very same sequence, holds only because `SortByDate` fixes the order of records with equal dates. MongoDB promises no tie order, so the program guarantees only the same records in date order.
- More than one account per user. `Account.findOne({ userId })` (lines 39 and 99) picks one account; the model keeps at most one balance per user id. The `Account` schema is not part of this model, so nothing says a user cannot own several.
- `console` logging.
