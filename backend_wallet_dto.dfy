/** Requests and responses of the backend's wallet endpoints. */
module BackendWalletDto {
  import opened Wrappers
  import opened BackendEntities
  import opened BackendValidation

  datatype TransferRequest = TransferRequest(toUserId: nat, amount: int, description: string, idempotencyKey: string)

  /** A positive amount credits the user, a negative one debits. */
  datatype AdjustBalanceRequest = AdjustBalanceRequest(userId: nat, amount: int, reason: string, idempotencyKey: string)

  /** TransferRequest.Validate */
  function ValidateTransfer(r: TransferRequest): (es: seq<FieldError>)
    ensures es == [] <==> r.toUserId != 0 && r.amount > 0 && r.idempotencyKey != ""
    ensures Reports(es, ToUserIdField) <==> r.toUserId == 0
    ensures Reports(es, AmountField) <==> r.amount <= 0
    ensures Reports(es, IdempotencyKeyField) <==> r.idempotencyKey == ""
    ensures |es| <= 3
  {
    var a := Check(r.toUserId == 0, ToUserIdField, "Recipient user ID is required");
    var b := Check(r.amount <= 0, AmountField, "Amount must be positive");
    var c := Check(r.idempotencyKey == "", IdempotencyKeyField, "Idempotency key is required");
    ReportsCheck(r.toUserId == 0, ToUserIdField, "Recipient user ID is required");
    ReportsCheck(r.amount <= 0, AmountField, "Amount must be positive");
    ReportsCheck(r.idempotencyKey == "", IdempotencyKeyField, "Idempotency key is required");
    ReportsConcat(a, b);
    ReportsConcat(a + b, c);
    a + b + c
  }

  /** The order in which TransferRequest.Validate checks its fields. */
  function TransferRank(f: Field): nat
  {
    match f
    case ToUserIdField => 0
    case AmountField => 1
    case IdempotencyKeyField => 2
    case _ => 3
  }

  /** Transfer errors come out in the order to_user_id, amount, idempotency_key. */
  lemma {:induction false} TransferErrorsInOrder(r: TransferRequest)
    ensures InOrder(ValidateTransfer(r), TransferRank)
  {
    var a := Check(r.toUserId == 0, ToUserIdField, "Recipient user ID is required");
    var b := Check(r.amount <= 0, AmountField, "Amount must be positive");
    InOrderThen([], TransferRank, r.toUserId == 0, ToUserIdField, "Recipient user ID is required");
    UpToLater(a, TransferRank, ToUserIdField, AmountField);
    InOrderThen(a, TransferRank, r.amount <= 0, AmountField, "Amount must be positive");
    UpToLater(a + b, TransferRank, AmountField, IdempotencyKeyField);
    InOrderThen(a + b, TransferRank, r.idempotencyKey == "", IdempotencyKeyField, "Idempotency key is required");
  }

  /** AdjustBalanceRequest.Validate: any non-zero amount, of either sign, is accepted. */
  function ValidateAdjust(r: AdjustBalanceRequest): (es: seq<FieldError>)
    ensures es == [] <==> r.userId != 0 && r.amount != 0 && r.reason != "" && r.idempotencyKey != ""
    ensures Reports(es, UserIdField) <==> r.userId == 0
    ensures Reports(es, AmountField) <==> r.amount == 0
    ensures Reports(es, ReasonField) <==> r.reason == ""
    ensures Reports(es, IdempotencyKeyField) <==> r.idempotencyKey == ""
    ensures |es| <= 4
  {
    var a := Check(r.userId == 0, UserIdField, "User ID is required");
    var b := Check(r.amount == 0, AmountField, "Amount cannot be zero");
    var c := Check(r.reason == "", ReasonField, "Reason is required for adjustment");
    var d := Check(r.idempotencyKey == "", IdempotencyKeyField, "Idempotency key is required");
    ReportsCheck(r.userId == 0, UserIdField, "User ID is required");
    ReportsCheck(r.amount == 0, AmountField, "Amount cannot be zero");
    ReportsCheck(r.reason == "", ReasonField, "Reason is required for adjustment");
    ReportsCheck(r.idempotencyKey == "", IdempotencyKeyField, "Idempotency key is required");
    ReportsConcat(a, b);
    ReportsConcat(a + b, c);
    ReportsConcat(a + b + c, d);
    a + b + c + d
  }

  function AdjustRank(f: Field): nat
  {
    match f
    case UserIdField => 0
    case AmountField => 1
    case ReasonField => 2
    case IdempotencyKeyField => 3
    case _ => 4
  }

  /** Adjust errors come out in the order user_id, amount, reason, idempotency_key. */
  lemma {:induction false} AdjustErrorsInOrder(r: AdjustBalanceRequest)
    ensures InOrder(ValidateAdjust(r), AdjustRank)
  {
    var a := Check(r.userId == 0, UserIdField, "User ID is required");
    var b := Check(r.amount == 0, AmountField, "Amount cannot be zero");
    var c := Check(r.reason == "", ReasonField, "Reason is required for adjustment");
    InOrderThen([], AdjustRank, r.userId == 0, UserIdField, "User ID is required");
    UpToLater(a, AdjustRank, UserIdField, AmountField);
    InOrderThen(a, AdjustRank, r.amount == 0, AmountField, "Amount cannot be zero");
    UpToLater(a + b, AdjustRank, AmountField, ReasonField);
    InOrderThen(a + b, AdjustRank, r.reason == "", ReasonField, "Reason is required for adjustment");
    UpToLater(a + b + c, AdjustRank, ReasonField, IdempotencyKeyField);
    InOrderThen(a + b + c, AdjustRank, r.idempotencyKey == "", IdempotencyKeyField, "Idempotency key is required");
  }

  /** Adjustment validation lets debits through: only zero is refused. */
  lemma {:induction false} AdjustAcceptsNegative(r: AdjustBalanceRequest)
    requires r.userId != 0 && r.amount < 0 && r.reason != "" && r.idempotencyKey != ""
    ensures ValidateAdjust(r) == []
  {
  }

  /** The JSON view of a transaction; "" stands for an omitted optional field. */
  datatype TransactionResponse = TransactionResponse(
    id: nat, transactionCode: string, transactionType: TxType, status: TxStatus,
    amount: int, netAmount: int, description: string, direction: string,
    counterparty: string, processedAt: Option<int>)

  /** ToTransactionResponse */
  function ToTransactionResponse(t: Transaction, direction: string, counterparty: string): (r: TransactionResponse)
    ensures r.id == t.id && r.transactionCode == t.code && r.transactionType == t.txType
    ensures r.amount == t.amount && r.netAmount == t.netAmount && r.status == t.status
    ensures t.description.Some? ==> r.description == t.description.value
    ensures t.description.None? ==> r.description == ""
    ensures r.processedAt == t.processedAt
    ensures r.direction == direction && r.counterparty == counterparty
  {
    TransactionResponse(t.id, t.code, t.txType, t.status, t.amount, t.netAmount,
                        t.description.GetOr(""), direction, counterparty, t.processedAt)
  }

  datatype LedgerEntryResponse = LedgerEntryResponse(
    id: nat, entryType: LedgerType, amount: int, balanceBefore: int, balanceAfter: int,
    description: string, referenceType: TxType, referenceId: string)

  /** ToLedgerResponse: a field-for-field copy. */
  function ToLedgerResponse(e: LedgerEntry): (r: LedgerEntryResponse)
    ensures r.id == e.id && r.entryType == e.entryType && r.amount == e.amount
    ensures r.balanceBefore == e.balanceBefore && r.balanceAfter == e.balanceAfter
    ensures r.description == e.description && r.referenceType == e.referenceType && r.referenceId == e.referenceId
  {
    LedgerEntryResponse(e.id, e.entryType, e.amount, e.balanceBefore, e.balanceAfter,
                        e.description, e.referenceType, e.referenceId)
  }
}
