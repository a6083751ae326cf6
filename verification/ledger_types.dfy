/**
 The state and the vocabulary of the payment routes: who exists, what each
 account holds, the transaction records, and the outcomes a handler reports.

 Amounts and balances are whole numbers of the smallest currency unit (cents).
 Timestamps are whole milliseconds. Identifiers are opaque strings.
 */
module LedgerTypes {

  type UserId = string
  type TxId = string

  /** One stored transfer record. Every field is fixed at creation except `status`. */
  datatype Transaction = Transaction(
    id: TxId,
    userId: UserId,
    recipientName: string,
    recipientsBank: string,
    recipientsAccountNumber: string,
    amountToTransfer: int,
    swiftCode: string,
    transactionType: string,
    status: string,
    date: int
  )

  /** The persisted world the handlers read and write: the registered users,
      one balance per user that owns an account, and every transaction record. */
  datatype Ledger = Ledger(users: set<UserId>, balances: map<UserId, int>, txs: seq<Transaction>)

  /** The body of an international-payment request. `status` is taken as submitted. */
  datatype TransferRequest = TransferRequest(
    recipientName: string,
    recipientsBank: string,
    recipientsAccountNumber: string,
    amountToTransfer: int,
    swiftCode: string,
    transactionType: string,
    status: string
  )

  /** The international-payment fields checked by the validation utilities. */
  datatype Field = RecipientName | RecipientsBank | RecipientsAccountNumber | AmountToTransfer | SwiftCode

  /** The user-facing failures of the handlers. */
  datatype Error =
    | InvalidInput(field: Field)
    | InvalidAmount
    | InvalidStatus
    | UserNotFound
    | AccountNotFound
    | TransactionNotFound
    | InsufficientFunds

  datatype Result<+T> = Ok(value: T) | Err(error: Error)

  /** What a state-changing handler produces: its reply and the ledger after it. */
  datatype Step<+T> = Step(result: Result<T>, after: Ledger)

  /** The reply of a successful international payment. */
  datatype Receipt = Receipt(senderNewBalance: int, transactionId: TxId)

  /** The yes/no answers of the field validators, whose rules live outside this model. */
  datatype Validators = Validators(
    validName: string -> bool,
    validAccountNumber: string -> bool,
    validAmount: int -> bool,
    validSwiftCode: string -> bool
  )

  /** The validators' stated promise about amounts: only positive ones pass. */
  ghost predicate AmountsPositive(v: Validators)
  {
    forall a: int :: v.validAmount(a) ==> a > 0
  }

  /** No account is overdrawn. */
  ghost predicate Solvent(balances: map<UserId, int>)
  {
    forall u :: u in balances ==> balances[u] >= 0
  }

  /** Transaction ids are distinct, as the store's primary key guarantees. */
  ghost predicate UniqueIds(txs: seq<Transaction>)
  {
    forall i, j :: 0 <= i < j < |txs| ==> txs[i].id != txs[j].id
  }

  ghost predicate HasId(txs: seq<Transaction>, id: TxId)
  {
    exists i :: 0 <= i < |txs| && txs[i].id == id
  }
}
