/**
 * The rewrite's GORM models (walletpoint-backend/internal/shared/models).
 * Ids are the UUID strings the repositories generate; statuses and types
 * are the strings the code writes; float64 amounts are integers here (no
 * decimal(15,2) rounding). The whole database is the value `WpDb`, each
 * table a sequence of rows in insertion order.
 */
module WpModels {
  import opened Wrappers

  datatype Wallet = Wallet(id: string, userId: string, balance: int, lockedBalance: int)

  datatype Ledger = Ledger(
    id: string, walletId: string, transactionId: Option<string>, kind: string,
    amount: int, balanceBefore: int, balanceAfter: int, description: Option<string>)

  datatype Transaction = Transaction(
    id: string, senderId: Option<string>, receiverId: Option<string>, amount: int,
    txType: string, status: string, idempotencyKey: Option<string>, description: Option<string>)

  datatype QrCode = QrCode(
    id: string, userId: string, orderId: Option<string>, transactionId: Option<string>,
    code: string, amount: int, qrType: string, status: string, signature: string,
    description: Option<string>, expiresAt: int, usedAt: Option<int>)

  datatype Product = Product(
    id: string, sellerId: string, name: string, description: Option<string>, price: int,
    category: string, thumbnailUrl: Option<string>, fileUrl: Option<string>,
    stock: int, totalSold: int, status: string)

  datatype Order = Order(
    id: string, buyerId: string, transactionId: Option<string>, qrCodeId: Option<string>,
    totalAmount: int, status: string, notes: Option<string>)

  datatype OrderItem = OrderItem(
    id: string, orderId: string, productId: string, sellerId: string, quantity: int, price: int)

  datatype Mission = Mission(
    id: string, creatorId: string, title: string, description: Option<string>,
    pointsReward: int, maxParticipants: int, currentParticipants: int,
    missionType: string, status: string)

  datatype MissionProgress = MissionProgress(
    id: string, userId: string, missionId: string, status: string,
    completedAt: Option<int>, claimedAt: Option<int>)

  /** The rewrite's database as a value. */
  datatype WpDb = WpDb(
    wallets: seq<Wallet>, ledgers: seq<Ledger>, transactions: seq<Transaction>,
    qrCodes: seq<QrCode>, products: seq<Product>, orders: seq<Order>,
    orderItems: seq<OrderItem>, missions: seq<Mission>, progress: seq<MissionProgress>)

  /**
   * What the handlers answer with besides success: the service errors by
   * name, MySQL's duplicate-entry error on a unique index, and the HTTP
   * statuses the Fiber handlers return directly.
   */
  datatype WpError =
    | WalletNotFound | InsufficientBalance | DuplicateTransaction
    | QrNotFound | QrExpired | QrAlreadyUsed | QrInvalidSignature | QrInactive | CannotPaySelf
    | BadRequest(message: string) | NotFound(message: string) | Conflict(message: string)
    | DuplicateEntry
    | InternalError
}
