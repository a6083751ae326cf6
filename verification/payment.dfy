/**
 The handlers of the payment routes as atomic transitions of the ledger:
 international payment, add-balance, status update, and the three
 transaction queries. The caller id, the current time and the id the store
 would give a new record are parameters.
 */
module Payment {
  import opened LedgerTypes
  import opened TransactionQuery

  /** The order in which the international-payment handler checks its fields. */
  const CheckOrder: seq<Field> := [RecipientName, RecipientsBank, RecipientsAccountNumber, AmountToTransfer, SwiftCode]

  /** What the validators answer for one field of the request. Names and banks share one rule. */
  predicate FieldValid(v: Validators, req: TransferRequest, f: Field)
  {
    match f
    case RecipientName => v.validName(req.recipientName)
    case RecipientsBank => v.validName(req.recipientsBank)
    case RecipientsAccountNumber => v.validAccountNumber(req.recipientsAccountNumber)
    case AmountToTransfer => v.validAmount(req.amountToTransfer)
    case SwiftCode => v.validSwiftCode(req.swiftCode)
  }

  /** Position `k` of the check order is the first field the validators reject. */
  ghost predicate FirstInvalidAt(v: Validators, req: TransferRequest, k: int)
  {
    && 0 <= k < |CheckOrder|
    && !FieldValid(v, req, CheckOrder[k])
    && forall j :: 0 <= j < k ==> FieldValid(v, req, CheckOrder[j])
  }

  ghost predicate AllFieldsValid(v: Validators, req: TransferRequest)
  {
    forall k :: 0 <= k < |CheckOrder| ==> FieldValid(v, req, CheckOrder[k])
  }

  /** The check order, position by position. */
  lemma CheckOrderPositions(v: Validators, req: TransferRequest)
    ensures |CheckOrder| == 5
    ensures FieldValid(v, req, CheckOrder[0]) == v.validName(req.recipientName)
    ensures FieldValid(v, req, CheckOrder[1]) == v.validName(req.recipientsBank)
    ensures FieldValid(v, req, CheckOrder[2]) == v.validAccountNumber(req.recipientsAccountNumber)
    ensures FieldValid(v, req, CheckOrder[3]) == v.validAmount(req.amountToTransfer)
    ensures FieldValid(v, req, CheckOrder[4]) == v.validSwiftCode(req.swiftCode)
  {
  }

  /** `t` records request `req` of user `sender`, made at time `now`, under id `id`. */
  ghost predicate Records(t: Transaction, id: TxId, sender: UserId, req: TransferRequest, now: int)
  {
    && t.id == id
    && t.userId == sender
    && t.recipientName == req.recipientName
    && t.recipientsBank == req.recipientsBank
    && t.recipientsAccountNumber == req.recipientsAccountNumber
    && t.amountToTransfer == req.amountToTransfer
    && t.swiftCode == req.swiftCode
    && t.transactionType == req.transactionType
    && t.status == req.status
    && t.date == now
  }

  /** The record a successful payment stores. */
  function NewRecord(id: TxId, sender: UserId, req: TransferRequest, now: int): Transaction
  {
    Transaction(id, sender, req.recipientName, req.recipientsBank, req.recipientsAccountNumber,
                req.amountToTransfer, req.swiftCode, req.transactionType, req.status, now)
  }

  /** The payment the ledger can carry out: every field passes, the caller is a
      user with an account, and the balance covers the amount. */
  ghost predicate CanPay(v: Validators, s: Ledger, caller: UserId, req: TransferRequest)
  {
    && AllFieldsValid(v, req)
    && caller in s.users
    && caller in s.balances
    && s.balances[caller] >= req.amountToTransfer
  }

  /** International payment: validate, resolve the sender, check funds, debit
      the sender, append one record. The recipient is not credited. */
  function Transfer(v: Validators, s: Ledger, caller: UserId, req: TransferRequest, now: int, freshId: TxId)
    : (out: Step<Receipt>)
    // any rejection leaves the ledger as it was
    ensures out.result.Err? ==> out.after == s
    // the five field checks, first failure wins
    ensures forall k :: FirstInvalidAt(v, req, k) ==> out.result == Err(InvalidInput(CheckOrder[k]))
    // then the user, then the account, then the funds
    ensures AllFieldsValid(v, req) && caller !in s.users ==> out.result == Err(UserNotFound)
    ensures AllFieldsValid(v, req) && caller in s.users && caller !in s.balances
            ==> out.result == Err(AccountNotFound)
    ensures AllFieldsValid(v, req) && caller in s.users && caller in s.balances
            && s.balances[caller] < req.amountToTransfer
            ==> out.result == Err(InsufficientFunds)
    ensures out.result.Ok? <==> CanPay(v, s, caller, req)
    // a success debits exactly the amount from the caller and nobody else
    ensures out.result.Ok? ==>
              && out.after.users == s.users
              && out.after.balances.Keys == s.balances.Keys
              && out.after.balances[caller] == s.balances[caller] - req.amountToTransfer
              && out.result.value.senderNewBalance == out.after.balances[caller]
              && out.result.value.transactionId == freshId
              && (forall u :: u in s.balances && u != caller ==> out.after.balances[u] == s.balances[u])
    // a success appends exactly one record and keeps the others
    ensures out.result.Ok? ==>
              && |out.after.txs| == |s.txs| + 1
              && out.after.txs[..|s.txs|] == s.txs
              && Records(out.after.txs[|s.txs|], freshId, caller, req, now)
    // no account is overdrawn by a payment
    ensures Solvent(s.balances) ==> Solvent(out.after.balances)
  {
    CheckOrderPositions(v, req);
    if !v.validName(req.recipientName) then Step(Err(InvalidInput(RecipientName)), s)
    else if !v.validName(req.recipientsBank) then Step(Err(InvalidInput(RecipientsBank)), s)
    else if !v.validAccountNumber(req.recipientsAccountNumber) then Step(Err(InvalidInput(RecipientsAccountNumber)), s)
    else if !v.validAmount(req.amountToTransfer) then Step(Err(InvalidInput(AmountToTransfer)), s)
    else if !v.validSwiftCode(req.swiftCode) then Step(Err(InvalidInput(SwiftCode)), s)
    else if caller !in s.users then Step(Err(UserNotFound), s)
    else if caller !in s.balances then Step(Err(AccountNotFound), s)
    else if s.balances[caller] < req.amountToTransfer then Step(Err(InsufficientFunds), s)
    else
      var debited := s.balances[caller := s.balances[caller] - req.amountToTransfer];
      var record := NewRecord(freshId, caller, req, now);
      Step(Ok(Receipt(debited[caller], freshId)), Ledger(s.users, debited, s.txs + [record]))
  }

  /** Add-balance: validate the amount, find the caller's account, credit it.
      No user lookup and no transaction record. */
  function AddBalance(v: Validators, s: Ledger, caller: UserId, amount: int): (out: Step<int>)
    ensures !v.validAmount(amount) ==> out.result == Err(InvalidAmount)
    ensures v.validAmount(amount) && caller !in s.balances ==> out.result == Err(AccountNotFound)
    ensures out.result.Err? ==> out.after == s
    ensures out.result.Ok? <==> v.validAmount(amount) && caller in s.balances
    // a success credits exactly the amount to the caller, replies with the new balance, and touches nothing else
    ensures out.result.Ok? ==>
              && out.after.users == s.users
              && out.after.txs == s.txs
              && out.after.balances.Keys == s.balances.Keys
              && out.after.balances[caller] == s.balances[caller] + amount
              && out.result.value == out.after.balances[caller]
              && (forall u :: u in s.balances && u != caller ==> out.after.balances[u] == s.balances[u])
    // with validators that admit only positive amounts, no account is overdrawn by a credit
    ensures AmountsPositive(v) && Solvent(s.balances) ==> Solvent(out.after.balances)
  {
    if !v.validAmount(amount) then Step(Err(InvalidAmount), s)
    else if caller !in s.balances then Step(Err(AccountNotFound), s)
    else
      var credited := s.balances[caller := s.balances[caller] + amount];
      Step(Ok(credited[caller]), s.(balances := credited))
  }

  /** The only statuses a status update accepts. `pending`, in any casing, is not one of them. */
  const ReviewStatuses: set<string> := {"confirmed", "denied", "flagged"}

  /** Position of the first record with id `id`, or `|txs|` when there is none. */
  function FindIndex(txs: seq<Transaction>, id: TxId): (i: nat)
    ensures i <= |txs|
    ensures forall j :: 0 <= j < i ==> txs[j].id != id
    ensures i < |txs| ==> txs[i].id == id
    ensures i == |txs| <==> !HasId(txs, id)
  {
    if txs == [] then 0
    else if txs[0].id == id then 0
    else 1 + FindIndex(txs[1..], id)
  }

  /** Status update: accept only a review status, find the record by id, set its
      status whatever it was before. Balances are never touched, so a denial refunds nothing. */
  function UpdateStatus(s: Ledger, id: TxId, status: string): (out: Step<string>)
    ensures status !in ReviewStatuses ==> out.result == Err(InvalidStatus)
    ensures status in ReviewStatuses && !HasId(s.txs, id) ==> out.result == Err(TransactionNotFound)
    ensures out.result.Err? ==> out.after == s
    ensures out.result.Ok? <==> status in ReviewStatuses && HasId(s.txs, id)
    ensures out.after.users == s.users && out.after.balances == s.balances
    // a success rewrites the status of the first record carrying `id` and nothing else
    ensures out.result.Ok? ==>
              && out.result.value == "Transaction status updated to " + status
              && |out.after.txs| == |s.txs|
              && exists i :: && 0 <= i < |s.txs|
                             && s.txs[i].id == id
                             && (forall j :: 0 <= j < i ==> s.txs[j].id != id)
                             && out.after.txs[i] == s.txs[i].(status := status)
                             && (forall j :: 0 <= j < |s.txs| && j != i ==> out.after.txs[j] == s.txs[j])
  {
    if status !in ReviewStatuses then Step(Err(InvalidStatus), s)
    else
      var i := FindIndex(s.txs, id);
      if i == |s.txs| then Step(Err(TransactionNotFound), s)
      else
        var txs' := s.txs[i := s.txs[i].(status := status)];
        Step(Ok("Transaction status updated to " + status), s.(txs := txs'))
  }

  /** The caller's transactions, most recent first; the caller must be a registered user. */
  function MyTransactions(s: Ledger, caller: UserId): (r: Result<seq<Transaction>>)
    ensures r.Err? <==> caller !in s.users
    ensures r.Err? ==> r.error == UserNotFound
    ensures r.Ok? ==> NewestFirst(r.value)
    ensures r.Ok? ==> forall t :: multiset(r.value)[t] == if t.userId == caller then multiset(s.txs)[t] else 0
  {
    if caller !in s.users then Err(UserNotFound)
    else Ok(Find(s.txs, ByUser(caller)))
  }

  /** The status literal the pending query matches, capital P. */
  const PendingStatus: string := "Pending"

  /** Every transaction whose status is exactly `Pending`, most recent first. */
  function PendingTransactions(s: Ledger): (r: seq<Transaction>)
    ensures NewestFirst(r)
    ensures forall t :: multiset(r)[t] == if t.status == PendingStatus then multiset(s.txs)[t] else 0
  {
    Find(s.txs, ByStatus(PendingStatus))
  }

  /** Every transaction of every user, most recent first. */
  function AllTransactions(s: Ledger): (r: seq<Transaction>)
    ensures NewestFirst(r)
    ensures multiset(r) == multiset(s.txs)
  {
    Find(s.txs, Everything)
  }
}
