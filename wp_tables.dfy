/**
 * The rewrite's row-level reads and writes as functions on table contents:
 * the lookups GORM's First and the raw locked SELECTs perform, and the
 * UPDATE statements of the repositories and modules. First orders by the
 * primary key; every column it looks up by here is unique (user_id of
 * wallets, idempotency_key of transactions, code of QR codes, the ids), so
 * the first row in insertion order is the row it finds.
 */
module WpTables {
  import opened Wrappers
  import opened WpModels
  import BT = BackendTables

  // ------------------------------------------------------------ wallets

  /** GetByUserID: First(&wallet, "user_id = ?"). */
  function WalletByUser(ws: seq<Wallet>, userId: string): (r: Option<Wallet>)
    ensures r.None? <==> forall w :: w in ws ==> w.userId != userId
    ensures r.Some? ==> r.value in ws && r.value.userId == userId
  {
    BT.First(ws, (w: Wallet) => w.userId == userId)
  }

  /**
   * GetByUserIDForUpdate: the raw SELECT ... FOR UPDATE scans into a zero
   * Wallet and reports none when the scanned id is empty.
   */
  function LockedWalletByUser(ws: seq<Wallet>, userId: string): (r: Option<Wallet>)
    ensures r.Some? ==> r.value in ws && r.value.userId == userId && r.value.id != ""
    ensures r.None? <==> WalletByUser(ws, userId).None? || WalletByUser(ws, userId).value.id == ""
  {
    match WalletByUser(ws, userId)
    case None => None
    case Some(w) => if w.id == "" then None else Some(w)
  }

  /** UpdateBalance: balance = newBalance for the rows with this wallet id, nothing else. */
  function BalanceRows(ws: seq<Wallet>, walletId: string, newBalance: int): (r: seq<Wallet>)
    ensures |r| == |ws|
    ensures forall i :: 0 <= i < |ws| ==>
      r[i] == if ws[i].id == walletId then ws[i].(balance := newBalance) else ws[i]
  {
    seq(|ws|, i requires 0 <= i < |ws| => if ws[i].id == walletId then ws[i].(balance := newBalance) else ws[i])
  }

  /** balance = balance + delta on the rows with this wallet id. */
  function AddRows(ws: seq<Wallet>, walletId: string, delta: int): (r: seq<Wallet>)
    ensures |r| == |ws|
    ensures forall i :: 0 <= i < |ws| ==>
      r[i] == if ws[i].id == walletId then ws[i].(balance := ws[i].balance + delta) else ws[i]
  {
    seq(|ws|, i requires 0 <= i < |ws| =>
      if ws[i].id == walletId then ws[i].(balance := ws[i].balance + delta) else ws[i])
  }

  function TotalBalance(ws: seq<Wallet>): int
  {
    if ws == [] then 0 else TotalBalance(ws[..|ws| - 1]) + ws[|ws| - 1].balance
  }

  function CountId(ws: seq<Wallet>, id: string): nat
  {
    if ws == [] then 0 else CountId(ws[..|ws| - 1], id) + (if ws[|ws| - 1].id == id then 1 else 0)
  }

  /** Each wallet id and each user id appears on one row (primary key, unique user_id). */
  ghost predicate UniqueWallets(ws: seq<Wallet>)
  {
    (forall i, j :: 0 <= i < j < |ws| ==> ws[i].id != ws[j].id) &&
    (forall i, j :: 0 <= i < j < |ws| ==> ws[i].userId != ws[j].userId)
  }

  /** Adding delta to the rows of one id moves the total by delta once per such row. */
  lemma {:induction false} AddRowsTotal(ws: seq<Wallet>, walletId: string, delta: int)
    ensures TotalBalance(AddRows(ws, walletId, delta)) == TotalBalance(ws) + CountId(ws, walletId) * delta
  {
    if ws != [] {
      var n := |ws| - 1;
      assert AddRows(ws, walletId, delta)[..n] == AddRows(ws[..n], walletId, delta);
      AddRowsTotal(ws[..n], walletId, delta);
    }
  }

  lemma {:induction false} AddRowsCount(ws: seq<Wallet>, walletId: string, delta: int, id: string)
    ensures CountId(AddRows(ws, walletId, delta), id) == CountId(ws, id)
  {
    if ws != [] {
      var n := |ws| - 1;
      assert AddRows(ws, walletId, delta)[..n] == AddRows(ws[..n], walletId, delta);
      AddRowsCount(ws[..n], walletId, delta, id);
    }
  }

  /** A wallet id that is on exactly one row counts once. */
  lemma {:induction false} CountIdOne(ws: seq<Wallet>, k: nat)
    requires k < |ws|
    requires forall i, j :: 0 <= i < j < |ws| ==> ws[i].id != ws[j].id
    ensures CountId(ws, ws[k].id) == 1
  {
    var n := |ws| - 1;
    if k == n {
      CountIdNone(ws[..n], ws[k].id);
    } else {
      CountIdOne(ws[..n], k);
    }
  }

  lemma {:induction false} CountIdNone(ws: seq<Wallet>, id: string)
    requires forall i :: 0 <= i < |ws| ==> ws[i].id != id
    ensures CountId(ws, id) == 0
  {
    if ws != [] {
      CountIdNone(ws[..|ws| - 1], id);
    }
  }

  /** Adding delta to the one row carrying an id moves the sum of balances by delta. */
  lemma {:induction false} AddRowsTotalOne(ws: seq<Wallet>, walletId: string, delta: int)
    requires CountId(ws, walletId) == 1
    ensures TotalBalance(AddRows(ws, walletId, delta)) == TotalBalance(ws) + delta
  {
    AddRowsTotal(ws, walletId, delta);
  }

  /** A debit of a and a credit of a, on two wallets of the table, leave the sum of balances alone. */
  lemma {:induction false} MoveConserves(ws: seq<Wallet>, from: Wallet, to: Wallet, amount: int)
    requires forall i, j :: 0 <= i < j < |ws| ==> ws[i].id != ws[j].id
    requires from in ws && to in ws
    ensures TotalBalance(AddRows(AddRows(ws, from.id, -amount), to.id, amount)) == TotalBalance(ws)
  {
    CountIdMember(ws, from);
    CountIdMember(ws, to);
    var ws1 := AddRows(ws, from.id, -amount);
    AddRowsTotalOne(ws, from.id, -amount);
    AddRowsCount(ws, from.id, -amount, to.id);
    AddRowsTotalOne(ws1, to.id, amount);
  }

  /** With unique ids, a wallet of the table is the one row carrying its id. */
  lemma {:induction false} CountIdMember(ws: seq<Wallet>, w: Wallet)
    requires forall i, j :: 0 <= i < j < |ws| ==> ws[i].id != ws[j].id
    requires w in ws
    ensures CountId(ws, w.id) == 1
  {
    var k :| 0 <= k < |ws| && ws[k] == w;
    CountIdOne(ws, k);
  }

  // ------------------------------------------------------- transactions

  /** GetTransactionByIdempotencyKey: First(&transaction, "idempotency_key = ?"). */
  function TxByKey(ts: seq<Transaction>, key: string): (r: Option<Transaction>)
    ensures r.None? <==> forall t :: t in ts ==> t.idempotencyKey != Some(key)
    ensures r.Some? ==> r.value in ts && r.value.idempotencyKey == Some(key)
  {
    BT.First(ts, (t: Transaction) => t.idempotencyKey == Some(key))
  }

  /**
   * The unique index on idempotency_key refuses a row whose key is already
   * stored; NULL keys never collide.
   */
  predicate KeyTaken(ts: seq<Transaction>, t: Transaction)
  {
    t.idempotencyKey.Some? && TxByKey(ts, t.idempotencyKey.value).Some?
  }

  /** The transactions a user takes part in, optionally of one type. */
  predicate ForUser(t: Transaction, userId: string, txType: string)
  {
    (t.senderId == Some(userId) || t.receiverId == Some(userId)) && (txType == "" || t.txType == txType)
  }

  /** The rows GetTransactionsByUserID counts and pages through, in insertion order. */
  function UserTransactions(ts: seq<Transaction>, userId: string, txType: string): (r: seq<Transaction>)
    ensures forall t :: t in r <==> t in ts && ForUser(t, userId, txType)
  {
    BT.Filter(ts, (t: Transaction) => ForUser(t, userId, txType))
  }

  // ------------------------------------------------------------ ledgers

  /** The ledger rows of one wallet. */
  function WalletLedgers(ls: seq<Ledger>, walletId: string): (r: seq<Ledger>)
    ensures forall l :: l in r <==> l in ls && l.walletId == walletId
  {
    BT.Filter(ls, (l: Ledger) => l.walletId == walletId)
  }

  // ----------------------------------------------------------- QR codes

  /** The WHERE code = ? condition. */
  function HasCode(code: string): QrCode -> bool
  {
    (q: QrCode) => q.code == code
  }

  /** GetByCode: First(&qr, "code = ?"). */
  function QrByCode(qs: seq<QrCode>, code: string): (r: Option<QrCode>)
    ensures r.None? <==> forall q :: q in qs ==> q.code != code
    ensures r.Some? ==> r.value in qs && r.value.code == code
  {
    BT.First(qs, HasCode(code))
  }

  /**
   * An UPDATE that keeps every row's code keeps which row GetByCode finds:
   * the row at the same position, as the update left it.
   */
  lemma {:induction false} QrByCodeAfterUpdate(qs: seq<QrCode>, rs: seq<QrCode>, code: string)
    requires |rs| == |qs| && forall k :: 0 <= k < |qs| ==> rs[k].code == qs[k].code
    ensures QrByCode(qs, code).None? <==> QrByCode(rs, code).None?
    ensures QrByCode(qs, code).Some? ==>
      exists k :: 0 <= k < |qs| && qs[k] == QrByCode(qs, code).value && rs[k] == QrByCode(rs, code).value
  {
    FirstIndexAgree(qs, rs, HasCode(code));
    var i := BT.FirstIndex(qs, HasCode(code));
    if i.Some? {
      assert qs[i.value] == QrByCode(qs, code).value;
      assert rs[i.value] == QrByCode(rs, code).value;
    }
  }

  /** Two tables on which a condition holds at the same positions have the same first match. */
  lemma {:induction false} FirstIndexAgree<T>(s: seq<T>, t: seq<T>, p: T -> bool)
    requires |s| == |t| && forall k :: 0 <= k < |s| ==> p(s[k]) == p(t[k])
    ensures BT.FirstIndex(s, p) == BT.FirstIndex(t, p)
  {
  }

  /** GetByCodeForUpdate: like GetByCode, but a scanned row with an empty id counts as none. */
  function LockedQrByCode(qs: seq<QrCode>, code: string): (r: Option<QrCode>)
    ensures r.Some? ==> r.value in qs && r.value.code == code && r.value.id != ""
    ensures r.None? <==> QrByCode(qs, code).None? || QrByCode(qs, code).value.id == ""
  {
    match QrByCode(qs, code)
    case None => None
    case Some(q) => if q.id == "" then None else Some(q)
  }

  function QrById(qs: seq<QrCode>, id: string): (r: Option<QrCode>)
    ensures r.None? <==> forall q :: q in qs ==> q.id != id
    ensures r.Some? ==> r.value in qs && r.value.id == id
  {
    BT.First(qs, (q: QrCode) => q.id == id)
  }

  /** UpdateStatus' update map: the status, and used_at only when the status is USED. */
  function WithStatus(q: QrCode, status: string, now: int): (r: QrCode)
    ensures r.status == status
    ensures r.usedAt == if status == "USED" then Some(now) else q.usedAt
    ensures r.(status := q.status, usedAt := q.usedAt) == q
  {
    if status == "USED" then q.(status := status, usedAt := Some(now)) else q.(status := status)
  }

  function QrStatusRows(qs: seq<QrCode>, id: string, status: string, now: int): (r: seq<QrCode>)
    ensures |r| == |qs|
    ensures forall i :: 0 <= i < |qs| ==> r[i] == if qs[i].id == id then WithStatus(qs[i], status, now) else qs[i]
  {
    seq(|qs|, i requires 0 <= i < |qs| => if qs[i].id == id then WithStatus(qs[i], status, now) else qs[i])
  }

  /** UpdateTransactionID's update map: transaction id, USED and used_at together. */
  function WithTransaction(q: QrCode, transactionId: string, now: int): (r: QrCode)
    ensures r.status == "USED" && r.transactionId == Some(transactionId) && r.usedAt == Some(now)
    ensures r.(status := q.status, transactionId := q.transactionId, usedAt := q.usedAt) == q
  {
    q.(transactionId := Some(transactionId), status := "USED", usedAt := Some(now))
  }

  function QrTransactionRows(qs: seq<QrCode>, id: string, transactionId: string, now: int): (r: seq<QrCode>)
    ensures |r| == |qs|
    ensures forall i :: 0 <= i < |qs| ==>
      r[i] == if qs[i].id == id then WithTransaction(qs[i], transactionId, now) else qs[i]
  {
    seq(|qs|, i requires 0 <= i < |qs| => if qs[i].id == id then WithTransaction(qs[i], transactionId, now) else qs[i])
  }

  /** ExpireOldQRCodes' WHERE clause. */
  predicate Overdue(q: QrCode, now: int) { q.status == "ACTIVE" && q.expiresAt < now }

  function ExpireRows(qs: seq<QrCode>, now: int): (r: seq<QrCode>)
    ensures |r| == |qs|
    ensures forall i :: 0 <= i < |qs| ==> r[i] == if Overdue(qs[i], now) then qs[i].(status := "EXPIRED") else qs[i]
  {
    seq(|qs|, i requires 0 <= i < |qs| => if Overdue(qs[i], now) then qs[i].(status := "EXPIRED") else qs[i])
  }

  /**
   * After the bulk expiry no ACTIVE code is past its expiry, only overdue
   * ACTIVE codes changed, and running it again at the same time changes nothing.
   */
  lemma {:induction false} ExpireRowsEffect(qs: seq<QrCode>, now: int)
    ensures var r := ExpireRows(qs, now);
      (forall i :: 0 <= i < |r| ==> !Overdue(r[i], now)) &&
      (forall i :: 0 <= i < |r| && r[i] != qs[i] ==> qs[i].status == "ACTIVE" && qs[i].expiresAt < now && r[i].status == "EXPIRED") &&
      ExpireRows(r, now) == r
  {
  }

  // ----------------------------------------------------------- products

  function ProductById(ps: seq<Product>, id: string): (r: Option<Product>)
    ensures r.None? <==> forall p :: p in ps ==> p.id != id
    ensures r.Some? ==> r.value in ps && r.value.id == id
  {
    BT.First(ps, (p: Product) => p.id == id)
  }

  /** First(&product, "id = ? AND status = 'active'"). */
  function ActiveProduct(ps: seq<Product>, id: string): (r: Option<Product>)
    ensures r.None? <==> forall p :: p in ps ==> p.id != id || p.status != "active"
    ensures r.Some? ==> r.value in ps && r.value.id == id && r.value.status == "active"
  {
    BT.First(ps, (p: Product) => p.id == id && p.status == "active")
  }

  /**
   * The stock update of a paid order item: stock falls by the quantity only
   * when it is positive, total_sold rises by the quantity.
   */
  function Sold(p: Product, quantity: int): (r: Product)
    ensures r.totalSold == p.totalSold + quantity
    ensures p.stock > 0 ==> r.stock == p.stock - quantity
    ensures p.stock <= 0 ==> r.stock == p.stock
    ensures r.(stock := p.stock, totalSold := p.totalSold) == p
  {
    p.(stock := if p.stock > 0 then p.stock - quantity else p.stock, totalSold := p.totalSold + quantity)
  }

  function SoldRows(ps: seq<Product>, id: string, quantity: int): (r: seq<Product>)
    ensures |r| == |ps|
    ensures forall i :: 0 <= i < |ps| ==> r[i] == if ps[i].id == id then Sold(ps[i], quantity) else ps[i]
  {
    seq(|ps|, i requires 0 <= i < |ps| => if ps[i].id == id then Sold(ps[i], quantity) else ps[i])
  }

  /** Replaces the rows with this product's id (Updates on a loaded model). */
  function ProductRows(ps: seq<Product>, p: Product): (r: seq<Product>)
    ensures |r| == |ps|
    ensures forall i :: 0 <= i < |ps| ==> r[i] == if ps[i].id == p.id then p else ps[i]
  {
    seq(|ps|, i requires 0 <= i < |ps| => if ps[i].id == p.id then p else ps[i])
  }

  /** Update("qr_code_id", ...) on an order. */
  function OrderQrRows(os: seq<Order>, orderId: string, qrId: string): (r: seq<Order>)
    ensures |r| == |os|
    ensures forall i :: 0 <= i < |os| ==> r[i] == if os[i].id == orderId then os[i].(qrCodeId := Some(qrId)) else os[i]
  {
    seq(|os|, i requires 0 <= i < |os| => if os[i].id == orderId then os[i].(qrCodeId := Some(qrId)) else os[i])
  }

  // ----------------------------------------------------------- missions

  function MissionById(ms: seq<Mission>, id: string): (r: Option<Mission>)
    ensures r.None? <==> forall m :: m in ms ==> m.id != id
    ensures r.Some? ==> r.value in ms && r.value.id == id
  {
    BT.First(ms, (m: Mission) => m.id == id)
  }

  function MissionRows(ms: seq<Mission>, m: Mission): (r: seq<Mission>)
    ensures |r| == |ms|
    ensures forall i :: 0 <= i < |ms| ==> r[i] == if ms[i].id == m.id then m else ms[i]
  {
    seq(|ms|, i requires 0 <= i < |ms| => if ms[i].id == m.id then m else ms[i])
  }

  /** The condition user_id = ? AND mission_id = ?. */
  function OfUserMission(userId: string, missionId: string): MissionProgress -> bool
  {
    (p: MissionProgress) => p.userId == userId && p.missionId == missionId
  }

  /** First(&progress, "user_id = ? AND mission_id = ?"). */
  function ProgressOf(ps: seq<MissionProgress>, userId: string, missionId: string): (r: Option<MissionProgress>)
    ensures r.None? <==> forall p :: p in ps ==> p.userId != userId || p.missionId != missionId
    ensures r.Some? ==> r.value in ps && r.value.userId == userId && r.value.missionId == missionId
  {
    BT.First(ps, OfUserMission(userId, missionId))
  }

  /** First(&progress, "user_id = ? AND mission_id = ? AND status = ?"). */
  function ProgressIn(ps: seq<MissionProgress>, userId: string, missionId: string, status: string): (r: Option<MissionProgress>)
    ensures r.None? <==> forall p :: p in ps ==> p.userId != userId || p.missionId != missionId || p.status != status
    ensures r.Some? ==> r.value in ps && r.value.userId == userId && r.value.missionId == missionId && r.value.status == status
  {
    BT.First(ps, (p: MissionProgress) => p.userId == userId && p.missionId == missionId && p.status == status)
  }

  /** Replaces the rows with this progress' id (Updates on a loaded model). */
  function ProgressRows(ps: seq<MissionProgress>, p: MissionProgress): (r: seq<MissionProgress>)
    ensures |r| == |ps|
    ensures forall i :: 0 <= i < |ps| ==> r[i] == if ps[i].id == p.id then p else ps[i]
  {
    seq(|ps|, i requires 0 <= i < |ps| => if ps[i].id == p.id then p else ps[i])
  }
}
