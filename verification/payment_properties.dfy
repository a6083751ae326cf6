/**
 Properties that relate several handler calls, or a handler call to the
 ledger-wide invariants: money totals, id uniqueness, the pending queue,
 each user's history, and solvency over any sequence of requests.
 */
module PaymentProperties {
  import opened LedgerTypes
  import opened TransactionQuery
  import opened BalanceTotal
  import opened Payment

  /** A successful payment takes exactly the amount out of the money held by all accounts:
      nobody inside the ledger receives it. */
  lemma TransferMovesMoneyOut(v: Validators, s: Ledger, caller: UserId, req: TransferRequest, now: int, freshId: TxId)
    requires Transfer(v, s, caller, req, now, freshId).result.Ok?
    ensures Total(Transfer(v, s, caller, req, now, freshId).after.balances) == Total(s.balances) - req.amountToTransfer
  {
    var out := Transfer(v, s, caller, req, now, freshId);
    assert out.after.balances == s.balances[caller := s.balances[caller] - req.amountToTransfer];
    TotalUpdate(s.balances, caller, s.balances[caller] - req.amountToTransfer);
  }

  /** A successful top-up adds exactly the amount to the money held by all accounts. */
  lemma AddBalanceMovesMoneyIn(v: Validators, s: Ledger, caller: UserId, amount: int)
    requires AddBalance(v, s, caller, amount).result.Ok?
    ensures Total(AddBalance(v, s, caller, amount).after.balances) == Total(s.balances) + amount
  {
    var out := AddBalance(v, s, caller, amount);
    assert out.after.balances == s.balances[caller := s.balances[caller] + amount];
    TotalUpdate(s.balances, caller, s.balances[caller] + amount);
  }

  /** Topping up an amount and then paying the same amount out restores every balance;
      the only trace left is the one payment record. */
  lemma TopUpThenPayRestoresBalances(v: Validators, s: Ledger, caller: UserId, req: TransferRequest, now: int, freshId: TxId)
    requires caller in s.users && caller in s.balances && s.balances[caller] >= 0
    requires AllFieldsValid(v, req)
    ensures AddBalance(v, s, caller, req.amountToTransfer).result.Ok?
    ensures Transfer(v, AddBalance(v, s, caller, req.amountToTransfer).after, caller, req, now, freshId).result.Ok?
    ensures Transfer(v, AddBalance(v, s, caller, req.amountToTransfer).after, caller, req, now, freshId).after
            == Ledger(s.users, s.balances, s.txs + [NewRecord(freshId, caller, req, now)])
  {
    CheckOrderPositions(v, req);
    var mid := AddBalance(v, s, caller, req.amountToTransfer).after;
    var out := Transfer(v, mid, caller, req, now, freshId);
    assert out.after.balances == s.balances;
  }

  /** A payment under an unused id keeps transaction ids distinct. */
  lemma TransferKeepsIdsUnique(v: Validators, s: Ledger, caller: UserId, req: TransferRequest, now: int, freshId: TxId)
    requires UniqueIds(s.txs) && !HasId(s.txs, freshId)
    ensures UniqueIds(Transfer(v, s, caller, req, now, freshId).after.txs)
  {
  }

  /** A status update keeps every id where it was. */
  lemma UpdateStatusKeepsIds(s: Ledger, id: TxId, status: string)
    ensures |UpdateStatus(s, id, status).after.txs| == |s.txs|
    ensures forall j :: 0 <= j < |s.txs| ==> UpdateStatus(s, id, status).after.txs[j].id == s.txs[j].id
    ensures UniqueIds(s.txs) ==> UniqueIds(UpdateStatus(s, id, status).after.txs)
  {
  }

  /** With distinct ids, a successful status update rewrites exactly the record named by
      `id`, only in its status; every other record stays as it was. */
  lemma UpdateStatusChangesOnlyTarget(s: Ledger, id: TxId, status: string)
    requires UniqueIds(s.txs)
    requires UpdateStatus(s, id, status).result.Ok?
    ensures |UpdateStatus(s, id, status).after.txs| == |s.txs|
    ensures forall j :: 0 <= j < |s.txs| ==>
              UpdateStatus(s, id, status).after.txs[j]
              == if s.txs[j].id == id then s.txs[j].(status := status) else s.txs[j]
  {
  }

  /** Membership in the pending queue, record by record. */
  lemma InPendingQueue(s: Ledger, t: Transaction)
    ensures t in PendingTransactions(s) <==> t in s.txs && t.status == PendingStatus
  {
  }

  /** Membership in a user's history, record by record. */
  lemma InHistory(s: Ledger, caller: UserId, t: Transaction)
    requires caller in s.users
    ensures t in MyTransactions(s, caller).value <==> t in s.txs && t.userId == caller
  {
  }

  /** Once reviewed, a transaction leaves the pending queue: no review status is `Pending`. */
  lemma ReviewedLeavesPendingQueue(s: Ledger, id: TxId, status: string)
    requires UniqueIds(s.txs)
    requires UpdateStatus(s, id, status).result.Ok?
    ensures forall t :: t in PendingTransactions(UpdateStatus(s, id, status).after) ==> t.id != id
  {
  }

  /** A successful payment enters the pending queue exactly when it was submitted with the
      status `Pending`; a lower-case `pending` never does. */
  lemma PaymentQueuedIffPending(v: Validators, s: Ledger, caller: UserId, req: TransferRequest, now: int, freshId: TxId)
    requires Transfer(v, s, caller, req, now, freshId).result.Ok?
    ensures var after := Transfer(v, s, caller, req, now, freshId).after;
            after.txs[|s.txs|] in PendingTransactions(after) <==> req.status == PendingStatus
  {
  }

  /** Appending a record of `caller` adds exactly that record to the caller's history. */
  lemma HistoryAfterAppend(s: Ledger, s': Ledger, rec: Transaction, caller: UserId)
    requires caller in s.users && s'.users == s.users
    requires s'.txs == s.txs + [rec] && rec.userId == caller
    ensures MyTransactions(s', caller).Ok?
    ensures multiset(MyTransactions(s', caller).value) == multiset(MyTransactions(s, caller).value) + multiset{rec}
  {
  }

  /** The same, counted: the history is one record longer and holds the new record. */
  lemma HistoryGrowsByOne(s: Ledger, s': Ledger, rec: Transaction, caller: UserId)
    requires caller in s.users && s'.users == s.users
    requires s'.txs == s.txs + [rec] && rec.userId == caller
    ensures MyTransactions(s', caller).Ok?
    ensures rec in MyTransactions(s', caller).value
    ensures |MyTransactions(s', caller).value| == |MyTransactions(s, caller).value| + 1
  {
    HistoryAfterAppend(s, s', rec, caller);
    var mine := MyTransactions(s', caller).value;
    var before := MyTransactions(s, caller).value;
    assert |multiset(mine)| == |multiset(before)| + 1;
    assert multiset(mine)[rec] > 0;
  }

  /** After a successful payment the payer's history holds one more record, the new one. */
  lemma PaymentShowsInHistory(v: Validators, s: Ledger, caller: UserId, req: TransferRequest, now: int, freshId: TxId)
    requires Transfer(v, s, caller, req, now, freshId).result.Ok?
    ensures var after := Transfer(v, s, caller, req, now, freshId).after;
            && MyTransactions(after, caller).Ok?
            && after.txs[|s.txs|] in MyTransactions(after, caller).value
            && |MyTransactions(after, caller).value| == |MyTransactions(s, caller).value| + 1
  {
    var after := Transfer(v, s, caller, req, now, freshId).after;
    var rec := after.txs[|s.txs|];
    assert after.txs == s.txs + [rec];
    HistoryGrowsByOne(s, after, rec, caller);
  }

  /** A payment leaves every other user's records as they were: the store's selection for
      that user is the same sequence, and the history reply holds the same records.
      The reply is even the same sequence, but only because `SortByDate` fixes the
      order of records with equal dates. */
  lemma PaymentLeavesOthersHistory(v: Validators, s: Ledger, caller: UserId, req: TransferRequest, now: int, freshId: TxId, u: UserId)
    requires u != caller
    ensures Select(Transfer(v, s, caller, req, now, freshId).after.txs, ByUser(u)) == Select(s.txs, ByUser(u))
    ensures MyTransactions(Transfer(v, s, caller, req, now, freshId).after, u).Ok? == MyTransactions(s, u).Ok?
    ensures MyTransactions(s, u).Ok? ==>
              multiset(MyTransactions(Transfer(v, s, caller, req, now, freshId).after, u).value)
              == multiset(MyTransactions(s, u).value)
    ensures MyTransactions(Transfer(v, s, caller, req, now, freshId).after, u) == MyTransactions(s, u)
  {
    var out := Transfer(v, s, caller, req, now, freshId);
    if out.result.Ok? {
      var after := out.after;
      var rec := after.txs[|s.txs|];
      assert after.txs == s.txs + [rec];
      SelectAppend(s.txs, rec, ByUser(u));
      assert !Matches(ByUser(u), rec);
      assert Select(after.txs, ByUser(u)) == Select(s.txs, ByUser(u));
      assert after.users == s.users;
    }
  }

  /** One request to the payment routes, with what the environment supplies:
      the authenticated caller, the clock and the id the store hands out. */
  datatype Request =
    | Pay(caller: UserId, req: TransferRequest, now: int, freshId: TxId)
    | TopUp(caller: UserId, amount: int)
    | Review(id: TxId, status: string)

  /** The ledger after handling one request. */
  function Handle(v: Validators, s: Ledger, r: Request): Ledger
  {
    match r
    case Pay(caller, req, now, freshId) => Transfer(v, s, caller, req, now, freshId).after
    case TopUp(caller, amount) => AddBalance(v, s, caller, amount).after
    case Review(id, status) => UpdateStatus(s, id, status).after
  }

  /** The ledger after handling the requests one after another. */
  function Run(v: Validators, s: Ledger, rs: seq<Request>): Ledger
    decreases |rs|
  {
    if rs == [] then s else Run(v, Handle(v, s, rs[0]), rs[1..])
  }

  /** No sequence of requests overdraws an account, given validators that admit only
      positive amounts; the set of account holders never changes. */
  lemma {:induction false} RunKeepsSolvent(v: Validators, s: Ledger, rs: seq<Request>)
    requires AmountsPositive(v) && Solvent(s.balances)
    ensures Solvent(Run(v, s, rs).balances)
    ensures Run(v, s, rs).balances.Keys == s.balances.Keys
    decreases |rs|
  {
    if rs != [] {
      var next := Handle(v, s, rs[0]);
      assert Solvent(next.balances) && next.balances.Keys == s.balances.Keys by {
        match rs[0]
        case Pay(caller, req, now, freshId) =>
        case TopUp(caller, amount) =>
        case Review(id, status) =>
      }
      RunKeepsSolvent(v, next, rs[1..]);
    }
  }
}
