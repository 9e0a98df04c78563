/**
 * Rows, status constants and error codes of the original (int64) backend.
 * Every SQL table is a sequence of rows in insertion order; a nullable
 * column is an Option. Times are Unix seconds.
 */
module BackendEntities {
  import opened Wrappers

  datatype TxType = QrPayment | Topup | MissionReward | Transfer | Sync | Adjustment | Purchase
  datatype TxStatus = Pending | Processing | Completed | Failed | Cancelled | Refunded
  datatype QrStatus = Active | Used | Expired | QrCancelled
  datatype LedgerType = Credit | Debit
  datatype LogStatus = Started | InProgress | Submitted | LogCompleted | LogFailed | LogExpired
  datatype OrderStatus = OrderPending | OrderPaid | OrderCompleted | OrderCancelled

  /** The application error codes the services return. */
  datatype ErrorCode =
    | NotFound | Forbidden
    | WalletNotFound | WalletFrozen | InsufficientBalance
    | CannotTransferSelf | RecipientNotFound | RecipientFrozen
    | QrNotFound | QrNotActive | QrExpired | QrAlreadyUsed | QrInvalidSignature | CannotPaySelf
    | PayeeWalletNotFound
    | ProductNotFound | ProductNotActive | CannotBuyOwn | OutOfStock | SellerWalletNotFound
    | CannotStartOwn | MissionInactive | AlreadyParticipated | MaxParticipants
    | NotStarted | InvalidStatus | NotSubmitted
    | ValidationError | DbError | InternalError

  datatype Wallet = Wallet(
    id: nat, userId: nat, balance: int, lockedBalance: int,
    lifetimeEarned: int, lifetimeSpent: int, isFrozen: bool)

  datatype Transaction = Transaction(
    id: nat, code: string, idempotencyKey: string, txType: TxType, status: TxStatus,
    fromWalletId: Option<nat>, toWalletId: Option<nat>,
    amount: int, feeAmount: int, netAmount: int,
    description: Option<string>, qrCodeId: Option<nat>, processedAt: Option<int>)

  datatype LedgerEntry = LedgerEntry(
    id: nat, walletId: nat, transactionId: Option<nat>, entryType: LedgerType,
    amount: int, balanceBefore: int, balanceAfter: int,
    description: string, referenceType: TxType, referenceId: string)

  datatype QrCode = QrCode(
    id: nat, code: string, qrType: string, creatorId: nat, amount: int,
    description: Option<string>, productId: Option<nat>, signature: string,
    status: QrStatus, isSingleUse: bool, maxUses: int, currentUses: int,
    scannedBy: Option<nat>, scannedAt: Option<int>, expiresAt: int)

  /** A product; a NULL stock means unlimited. */
  datatype Product = Product(
    id: nat, sellerId: nat, name: string, description: Option<string>, productType: string,
    price: int, stock: Option<int>, thumbnailUrl: Option<string>, fileUrl: Option<string>,
    soldCount: int, isActive: bool, deleted: bool)

  datatype Order = Order(
    id: nat, orderCode: string, buyerId: nat, sellerId: nat, productId: nat,
    quantity: int, unitPrice: int, totalPrice: int, discountAmount: int, finalPrice: int,
    status: OrderStatus, transactionId: Option<nat>, notes: Option<string>)

  datatype Mission = Mission(
    id: nat, title: string, description: Option<string>, missionType: string, creatorId: nat,
    rewardPoints: int, maxParticipants: Option<int>, currentParticipants: int,
    difficulty: string, content: Option<string>, isActive: bool, isRepeatable: bool,
    startDate: Option<int>, endDate: Option<int>, deadline: Option<int>, deleted: bool)

  datatype MissionLog = MissionLog(
    id: nat, missionId: nat, userId: nat, status: LogStatus, score: Option<real>,
    answers: Option<string>, rewardClaimed: bool, rewardPoints: Option<int>,
    submittedAt: Option<int>, completedAt: Option<int>, gradedAt: Option<int>,
    gradedBy: Option<nat>, notes: Option<string>)

  /** The whole MySQL database of the backend as one value. */
  datatype Db = Db(
    wallets: seq<Wallet>, transactions: seq<Transaction>, ledger: seq<LedgerEntry>,
    qrCodes: seq<QrCode>, products: seq<Product>, orders: seq<Order>,
    missions: seq<Mission>, missionLogs: seq<MissionLog>)
}
