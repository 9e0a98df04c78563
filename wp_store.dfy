/**
 * The rewrite's live database and the repository statements that read and
 * write it (wallet and qr repositories, and the GORM calls the marketplace
 * and mission modules make directly). Locked reads read the same row as
 * plain reads in this sequential model. The unique indexes that matter to
 * the flows are enforced on insert: wallets.user_id and
 * transactions.idempotency_key.
 */
module WpStore {
  import opened Wrappers
  import opened WpModels
  import opened WpTables
  import BT = BackendTables
  import BD = BackendDatabase
  import WpHelpers

  /**
   * GORM's Offset(offset).Limit(limit); a negative limit means no LIMIT
   * clause. The page is the run of rows starting at row `offset`.
   */
  function PageRows<T>(rows: seq<T>, offset: nat, limit: int): (r: seq<T>)
    ensures limit >= 0 ==> |r| <= limit
    ensures forall x :: x in r ==> x in rows
    ensures offset < |rows| && limit > 0 ==> r != [] && r[0] == rows[offset]
    ensures |r| == if offset >= |rows| then 0 else if limit < 0 || limit >= |rows| - offset then |rows| - offset else limit
    ensures forall i :: 0 <= i < |r| ==> r[i] == rows[offset + i]
  {
    if offset >= |rows| then []
    else if limit < 0 || offset + limit >= |rows| then rows[offset..]
    else rows[offset..offset + limit]
  }

  class Store {
    var wallets: seq<Wallet>
    var ledgers: seq<Ledger>
    var transactions: seq<Transaction>
    var qrCodes: seq<QrCode>
    var products: seq<Product>
    var orders: seq<Order>
    var orderItems: seq<OrderItem>
    var missions: seq<Mission>
    var progress: seq<MissionProgress>

    /** The database as a value. */
    function Snapshot(): WpDb
      reads this
    {
      WpDb(wallets, ledgers, transactions, qrCodes, products, orders, orderItems, missions, progress)
    }

    constructor (db: WpDb)
      ensures Snapshot() == db
    {
      wallets, ledgers, transactions := db.wallets, db.ledgers, db.transactions;
      qrCodes, products, orders := db.qrCodes, db.products, db.orders;
      orderItems, missions, progress := db.orderItems, db.missions, db.progress;
    }

    /** tx.Rollback(): every write since `saved` was taken is undone. */
    method Rollback(saved: WpDb)
      modifies this
      ensures Snapshot() == saved
    {
      wallets, ledgers, transactions := saved.wallets, saved.ledgers, saved.transactions;
      qrCodes, products, orders := saved.qrCodes, saved.products, saved.orders;
      orderItems, missions, progress := saved.orderItems, saved.missions, saved.progress;
    }

    // ------------------------------------------------ wallet repository

    /** GetByUserID: None when no wallet row has this user id. */
    method GetByUserID(userId: string) returns (w: Option<Wallet>)
      ensures w.None? <==> forall x :: x in wallets ==> x.userId != userId
      ensures w == WalletByUser(wallets, userId)
    {
      w := WalletByUser(wallets, userId);
    }

    /** GetByUserIDForUpdate: None when no row is found or the scanned row has an empty id. */
    method GetByUserIDForUpdate(userId: string) returns (w: Option<Wallet>)
      ensures w.Some? ==> w.value in wallets && w.value.userId == userId && w.value.id != ""
      ensures w == LockedWalletByUser(wallets, userId)
    {
      w := LockedWalletByUser(wallets, userId);
    }

    /** Create: the wallet gets a fresh id; a second wallet for the same user breaks the unique user_id. */
    method CreateWallet(w: Wallet, id: string) returns (ok: bool)
      modifies this`wallets
      ensures ok <==> WalletByUser(old(wallets), w.userId).None?
      ensures wallets == if ok then old(wallets) + [w.(id := id)] else old(wallets)
    {
      ok := WalletByUser(wallets, w.userId).None?;
      if ok {
        wallets := wallets + [w.(id := id)];
      }
    }

    /** UpdateBalance: overwrites the balance of exactly the rows with this wallet id. */
    method UpdateBalance(walletId: string, newBalance: int)
      modifies this`wallets
      ensures wallets == BalanceRows(old(wallets), walletId, newBalance)
    {
      wallets := BalanceRows(wallets, walletId, newBalance);
    }

    /** GetTransactionsByUserID: the user's transactions, newest first, one page, and their count. */
    method GetTransactionsByUserID(userId: string, page: int, limit: int, txType: string)
      returns (rows: seq<Transaction>, total: nat)
      ensures forall t :: t in rows ==> t in transactions && ForUser(t, userId, txType)
      ensures total == |UserTransactions(transactions, userId, txType)|
      ensures rows == PageRows(BD.Newest(UserTransactions(transactions, userId, txType)),
        WpHelpers.CalculatePagination(page, limit, total).offset, limit)
      ensures page <= 1 ==> rows == PageRows(BD.Newest(UserTransactions(transactions, userId, txType)), 0, limit)
      ensures limit >= 0 ==> |rows| <= limit
    {
      var mine := UserTransactions(transactions, userId, txType);
      total := |mine|;
      var offset := WpHelpers.CalculatePagination(page, limit, total).offset;
      rows := PageRows(BD.Newest(mine), offset, limit);
      forall t | t in rows ensures t in transactions && ForUser(t, userId, txType) {
        var k :| 0 <= k < |mine| && BD.Newest(mine)[k] == t;
      }
    }

    /** GetLedgersByWalletID: the wallet's ledger rows, newest first, one page, and their count. */
    method GetLedgersByWalletID(walletId: string, page: int, limit: int) returns (rows: seq<Ledger>, total: nat)
      ensures total == |WalletLedgers(ledgers, walletId)|
      ensures rows == PageRows(BD.Newest(WalletLedgers(ledgers, walletId)),
        WpHelpers.CalculatePagination(page, limit, total).offset, limit)
      ensures page <= 1 ==> rows == PageRows(BD.Newest(WalletLedgers(ledgers, walletId)), 0, limit)
      ensures forall l :: l in rows ==> l in ledgers && l.walletId == walletId
    {
      var mine := WalletLedgers(ledgers, walletId);
      total := |mine|;
      var offset := WpHelpers.CalculatePagination(page, limit, total).offset;
      rows := PageRows(BD.Newest(mine), offset, limit);
      forall l | l in rows ensures l in ledgers && l.walletId == walletId {
        var k :| 0 <= k < |mine| && BD.Newest(mine)[k] == l;
      }
    }

    /** CreateLedgerEntry: the entry gets a fresh id. */
    method CreateLedgerEntry(l: Ledger, id: string)
      modifies this`ledgers
      ensures ledgers == old(ledgers) + [l.(id := id)]
    {
      ledgers := ledgers + [l.(id := id)];
    }

    /** CreateTransaction: the record gets a fresh id; a key already stored breaks the unique index. */
    method CreateTransaction(t: Transaction, id: string) returns (ok: bool)
      modifies this`transactions
      ensures ok <==> !KeyTaken(old(transactions), t)
      ensures transactions == if ok then old(transactions) + [t.(id := id)] else old(transactions)
    {
      ok := !KeyTaken(transactions, t);
      if ok {
        transactions := transactions + [t.(id := id)];
      }
    }

    /** GetTransactionByIdempotencyKey: None when no row carries the key. */
    method GetTransactionByIdempotencyKey(key: string) returns (t: Option<Transaction>)
      ensures t.None? <==> forall x :: x in transactions ==> x.idempotencyKey != Some(key)
      ensures t == TxByKey(transactions, key)
    {
      t := TxByKey(transactions, key);
    }

    // ---------------------------------------------------- qr repository

    /** Create: the code gets a fresh id. */
    method CreateQr(q: QrCode, id: string)
      modifies this`qrCodes
      ensures qrCodes == old(qrCodes) + [q.(id := id)]
    {
      qrCodes := qrCodes + [q.(id := id)];
    }

    /** GetByCode: None when no row has this code. */
    method GetByCode(code: string) returns (q: Option<QrCode>)
      ensures q.None? <==> forall x :: x in qrCodes ==> x.code != code
      ensures q == QrByCode(qrCodes, code)
    {
      q := QrByCode(qrCodes, code);
    }

    /** GetByCodeForUpdate: None when no row has this code or the scanned row has an empty id. */
    method GetByCodeForUpdate(code: string) returns (q: Option<QrCode>)
      ensures q.Some? ==> q.value in qrCodes && q.value.code == code && q.value.id != ""
      ensures q == LockedQrByCode(qrCodes, code)
    {
      q := LockedQrByCode(qrCodes, code);
    }

    /** GetByID: None when no row has this id. */
    method GetQrByID(id: string) returns (q: Option<QrCode>)
      ensures q.None? <==> forall x :: x in qrCodes ==> x.id != id
      ensures q == QrById(qrCodes, id)
    {
      q := QrById(qrCodes, id);
    }

    /** UpdateStatus: the status, and used_at only for USED (a nil handle runs on the base connection). */
    method UpdateStatus(id: string, status: string, now: int)
      modifies this`qrCodes
      ensures qrCodes == QrStatusRows(old(qrCodes), id, status, now)
    {
      qrCodes := QrStatusRows(qrCodes, id, status, now);
    }

    /** UpdateTransactionID: transaction id, USED and used_at in one UPDATE. */
    method UpdateTransactionID(id: string, transactionId: string, now: int)
      modifies this`qrCodes
      ensures qrCodes == QrTransactionRows(old(qrCodes), id, transactionId, now)
    {
      qrCodes := QrTransactionRows(qrCodes, id, transactionId, now);
    }

    /** ExpireOldQRCodes: every ACTIVE code past its expiry becomes EXPIRED. */
    method ExpireOldQRCodes(now: int)
      modifies this`qrCodes
      ensures qrCodes == ExpireRows(old(qrCodes), now)
    {
      qrCodes := ExpireRows(qrCodes, now);
    }

    // ------------------------------------------- marketplace statements

    /** First(&product, "id = ? AND status = 'active'"). */
    method GetActiveProduct(id: string) returns (p: Option<Product>)
      ensures p == ActiveProduct(products, id)
    {
      p := ActiveProduct(products, id);
    }

    method InsertProduct(p: Product)
      modifies this`products
      ensures products == old(products) + [p]
    {
      products := products + [p];
    }

    method SaveProduct(p: Product)
      modifies this`products
      ensures products == ProductRows(old(products), p)
    {
      products := ProductRows(products, p);
    }

    /** The paid-order stock statement: CASE WHEN stock > 0 THEN stock - q ELSE stock END, total_sold + q. */
    method SellProduct(id: string, quantity: int)
      modifies this`products
      ensures products == SoldRows(old(products), id, quantity)
    {
      products := SoldRows(products, id, quantity);
    }

    method InsertOrder(o: Order)
      modifies this`orders
      ensures orders == old(orders) + [o]
    {
      orders := orders + [o];
    }

    /** Update("qr_code_id", ...) on the order just created. */
    method SetOrderQr(orderId: string, qrId: string)
      modifies this`orders
      ensures orders == OrderQrRows(old(orders), orderId, qrId)
    {
      orders := OrderQrRows(orders, orderId, qrId);
    }

    method InsertOrderItem(item: OrderItem)
      modifies this`orderItems
      ensures orderItems == old(orderItems) + [item]
    {
      orderItems := orderItems + [item];
    }

    // ----------------------------------------------- mission statements

    method InsertProgress(p: MissionProgress)
      modifies this`progress
      ensures progress == old(progress) + [p]
    {
      progress := progress + [p];
    }

    method SaveProgress(p: MissionProgress)
      modifies this`progress
      ensures progress == ProgressRows(old(progress), p)
    {
      progress := ProgressRows(progress, p);
    }

    method SaveMission(m: Mission)
      modifies this`missions
      ensures missions == MissionRows(old(missions), m)
    {
      missions := MissionRows(missions, m);
    }
  }
}
