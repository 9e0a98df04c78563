/**
 * The rewrite's QR service: generating a signed payment or checkout code,
 * validating a scanned code and paying it through the wallet service's
 * TransferPoints. The clock is the parameter `now` (unix seconds), fresh
 * UUIDs are parameters, and HMAC-SHA256 is the uninterpreted `hmac` of the
 * configuration.
 *
 * The validator checks USED, then expiry, then non-ACTIVE, then the
 * signature, then self-payment. An expired code is marked EXPIRED on the
 * base connection, so the mark stays even though the scan fails. The QR row
 * is read without a lock, and marking it USED happens after, and outside,
 * the transfer's database transaction.
 */
module WpQrService {
  import opened Wrappers
  import opened WpModels
  import opened WpTables
  import opened WpStore
  import opened WpWalletService
  import BU = BackendUtils
  import WpHelpers

  /** The QR settings of the configuration: the HMAC function, the secret and the lifetime in minutes. */
  datatype QrConfig = QrConfig(hmac: BU.Hmac, secret: string, expiryMinutes: int)

  /**
   * The signed payload "code:userID:amount:expiryUnix". Amounts are whole
   * numbers here, so the two decimals of %.2f are always ".00".
   */
  function PaymentPayload(code: string, userId: string, amount: int, expiresAt: int): string
  {
    code + ":" + userId + ":" + BU.Decimal(amount) + ".00" + ":" + BU.Decimal(expiresAt)
  }

  function SignQr(cfg: QrConfig, code: string, userId: string, amount: int, expiresAt: int): string
  {
    WpHelpers.CreateHmacSignature(cfg.hmac, PaymentPayload(code, userId, amount, expiresAt), cfg.secret)
  }

  /** The row GenerateQR and GenerateCheckoutQR insert (before the repository gives it an id). */
  function NewQr(cfg: QrConfig, userId: string, orderId: Option<string>, code: string, amount: int,
                 qrType: string, description: Option<string>, now: int): (q: QrCode)
    ensures q.status == "ACTIVE" && q.usedAt.None? && q.transactionId.None?
    ensures q.expiresAt == now + cfg.expiryMinutes * 60
    ensures q.signature == cfg.hmac(PaymentPayload(code, userId, amount, q.expiresAt), cfg.secret)
  {
    var expiresAt := now + cfg.expiryMinutes * 60;
    QrCode("", userId, orderId, None, code, amount, qrType, "ACTIVE",
           SignQr(cfg, code, userId, amount, expiresAt), description, expiresAt, None)
  }

  /** GenerateQR: a PAYMENT code for the user, with the request's description. */
  method GenerateQR(store: Store, cfg: QrConfig, userId: string, amount: int, description: string,
                    codeUuid: string, id: string, now: int) returns (q: QrCode)
    requires |codeUuid| >= 12
    modifies store
    ensures q == NewQr(cfg, userId, None, WpHelpers.GenerateQrCode(codeUuid), amount, "PAYMENT", Some(description), now).(id := id)
    ensures store.Snapshot() == old(store.Snapshot()).(qrCodes := old(store.qrCodes) + [q])
  {
    var code := WpHelpers.GenerateQrCode(codeUuid);
    var row := NewQr(cfg, userId, None, code, amount, "PAYMENT", Some(description), now);
    store.CreateQr(row, id);
    q := row.(id := id);
  }

  /** GenerateCheckoutQR: a CHECKOUT code for an order, described as "Checkout payment". */
  method GenerateCheckoutQR(store: Store, cfg: QrConfig, userId: string, orderId: string, amount: int,
                            codeUuid: string, id: string, now: int) returns (q: QrCode)
    requires |codeUuid| >= 12
    modifies store
    ensures q == NewQr(cfg, userId, Some(orderId), WpHelpers.GenerateQrCode(codeUuid), amount, "CHECKOUT",
                       Some("Checkout payment"), now).(id := id)
    ensures store.Snapshot() == old(store.Snapshot()).(qrCodes := old(store.qrCodes) + [q])
  {
    var code := WpHelpers.GenerateQrCode(codeUuid);
    var row := NewQr(cfg, userId, Some(orderId), code, amount, "CHECKOUT", Some("Checkout payment"), now);
    store.CreateQr(row, id);
    q := row.(id := id);
  }

  // ---------------------------------------------------------- validation

  /** validateQR's verdict on a code: None when it may be paid, otherwise the first check that fails. */
  function QrCheck(cfg: QrConfig, q: QrCode, scannerId: string, now: int): (r: Option<WpError>)
    ensures r.None? <==>
      q.status == "ACTIVE" && now <= q.expiresAt &&
      q.signature == cfg.hmac(PaymentPayload(q.code, q.userId, q.amount, q.expiresAt), cfg.secret) &&
      scannerId != q.userId
    ensures r == Some(QrAlreadyUsed) <==> q.status == "USED"
    ensures r == Some(QrExpired) <==> q.status != "USED" && (q.status == "EXPIRED" || now > q.expiresAt)
    ensures r == Some(QrInactive) <==>
      q.status != "ACTIVE" && q.status != "USED" && q.status != "EXPIRED" && now <= q.expiresAt
    ensures r == Some(CannotPaySelf) ==> q.status == "ACTIVE" && scannerId == q.userId
    ensures r.Some? ==> r.value in {QrAlreadyUsed, QrExpired, QrInactive, QrInvalidSignature, CannotPaySelf}
  {
    if q.status == "USED" then Some(QrAlreadyUsed)
    else if q.status == "EXPIRED" || now > q.expiresAt then Some(QrExpired)
    else if q.status != "ACTIVE" then Some(QrInactive)
    else if !WpHelpers.VerifyHmacSignature(cfg.hmac, PaymentPayload(q.code, q.userId, q.amount, q.expiresAt),
                                            q.signature, cfg.secret) then Some(QrInvalidSignature)
    else if scannerId == q.userId then Some(CannotPaySelf)
    else None
  }

  /** What validateQR leaves behind: an expired code is marked EXPIRED, nothing else changes. */
  function AfterCheck(db: WpDb, q: QrCode, verdict: Option<WpError>, now: int): WpDb
  {
    if verdict == Some(QrExpired) then db.(qrCodes := QrStatusRows(db.qrCodes, q.id, "EXPIRED", now)) else db
  }

  /** validateQR, with its write on the base connection. */
  method ValidateQR(store: Store, cfg: QrConfig, q: QrCode, scannerId: string, now: int) returns (err: Option<WpError>)
    modifies store
    ensures err == QrCheck(cfg, q, scannerId, now)
    ensures store.Snapshot() == AfterCheck(old(store.Snapshot()), q, err, now)
  {
    if q.status == "USED" {
      return Some(QrAlreadyUsed);
    }
    if q.status == "EXPIRED" || now > q.expiresAt {
      store.UpdateStatus(q.id, "EXPIRED", now);
      return Some(QrExpired);
    }
    if q.status != "ACTIVE" {
      return Some(QrInactive);
    }
    var payload := PaymentPayload(q.code, q.userId, q.amount, q.expiresAt);
    if !WpHelpers.VerifyHmacSignature(cfg.hmac, payload, q.signature, cfg.secret) {
      return Some(QrInvalidSignature);
    }
    if scannerId == q.userId {
      return Some(CannotPaySelf);
    }
    err := None;
  }

  /**
   * A code just generated passes validation for anyone but its owner until
   * it expires: the validator rebuilds the payload that was signed.
   */
  lemma {:induction false} FreshQrValidates(cfg: QrConfig, userId: string, orderId: Option<string>, code: string, amount: int,
                         qrType: string, description: Option<string>, created: int, id: string,
                         scannerId: string, now: int)
    requires scannerId != userId
    requires now <= created + cfg.expiryMinutes * 60
    ensures QrCheck(cfg, NewQr(cfg, userId, orderId, code, amount, qrType, description, created).(id := id),
                    scannerId, now).None?
  {
  }

  // ------------------------------------------------------------- payment

  /** PaymentResultDTO: a duplicate carries only the stored transaction's id, status and the flag. */
  datatype PaymentResult = PaymentResult(
    transactionId: string, amount: int, status: string, balanceAfter: int, receiverId: string, isDuplicate: bool)

  /** The idempotency key of a scan: the request's key, or one built from scanner, code and the current second. */
  function PaymentKey(scannerId: string, code: string, key: string, now: int): (k: string)
    ensures k != ""
    ensures key != "" ==> k == key
  {
    if key == "" then "qr_" + scannerId + "_" + code + "_" + BU.Decimal(now) else key
  }

  /** A generated key embeds the second: two scans without a key in different seconds are not deduplicated. */
  lemma {:induction false} GeneratedKeysDiffer(scannerId: string, code: string, now1: int, now2: int)
    requires now1 != now2
    ensures PaymentKey(scannerId, code, "", now1) != PaymentKey(scannerId, code, "", now2)
  {
    var prefix := "qr_" + scannerId + "_" + code + "_";
    var k1, k2 := PaymentKey(scannerId, code, "", now1), PaymentKey(scannerId, code, "", now2);
    assert k1 == prefix + BU.Decimal(now1) && k2 == prefix + BU.Decimal(now2);
    if k1 == k2 {
      assert k1[|prefix|..] == BU.Decimal(now1);
      assert k2[|prefix|..] == BU.Decimal(now2);
      BU.DecimalRoundTrip(now1);
      BU.DecimalRoundTrip(now2);
    }
  }

  function PaymentTransfer(q: QrCode, scannerId: string, key: string): TransferArgs
  {
    TransferArgs(scannerId, q.userId, q.amount, "QR_PAYMENT", "QR Payment - " + q.code, key)
  }

  /** The payer's balance the response reports: 0 when the wallet cannot be read. */
  function BalanceOf(ws: seq<Wallet>, userId: string): int
  {
    match WalletByUser(ws, userId)
    case Some(w) => w.balance
    case None => 0
  }

  /** What ProcessPayment does once the code has passed validation. */
  function PayValidQr(db: WpDb, q: QrCode, scannerId: string, key: string, now: int, ids: seq<string>)
    : (Result<PaymentResult, WpError>, WpDb)
    requires |ids| >= 3
  {
    var (out, db1) := TransferPointsSpec(db, PaymentTransfer(q, scannerId, key), ids);
    match out
    case Duplicate(t) => (Ok(PaymentResult(t.id, 0, "SUCCESS", 0, "", true)), db1)
    case Failed(e) => (Err(e), db1)
    case Done(t) =>
      var db2 := db1.(qrCodes := QrTransactionRows(db1.qrCodes, q.id, t.id, now));
      (Ok(PaymentResult(t.id, t.amount, "SUCCESS", BalanceOf(db2.wallets, scannerId), q.userId, false)), db2)
  }

  /** ProcessPayment: look the code up, validate it, transfer, then mark the code used. */
  function ProcessPaymentSpec(db: WpDb, cfg: QrConfig, scannerId: string, code: string, key: string, now: int,
                              ids: seq<string>): (Result<PaymentResult, WpError>, WpDb)
    requires |ids| >= 3
  {
    match QrByCode(db.qrCodes, code)
    case None => (Err(QrNotFound), db)
    case Some(q) =>
      var verdict := QrCheck(cfg, q, scannerId, now);
      if verdict.Some? then (Err(verdict.value), AfterCheck(db, q, verdict, now))
      else PayValidQr(db, q, scannerId, PaymentKey(scannerId, code, key, now), now, ids)
  }

  method ProcessPayment(store: Store, cfg: QrConfig, scannerId: string, code: string, key: string, now: int,
                        ids: seq<string>) returns (r: Result<PaymentResult, WpError>)
    requires |ids| >= 3
    modifies store
    ensures (r, store.Snapshot()) == ProcessPaymentSpec(old(store.Snapshot()), cfg, scannerId, code, key, now, ids)
  {
    var idempotencyKey := PaymentKey(scannerId, code, key, now);
    var found := store.GetByCode(code);
    if found.None? {
      return Err(QrNotFound);
    }
    var q := found.value;
    var invalid := ValidateQR(store, cfg, q, scannerId, now);
    if invalid.Some? {
      return Err(invalid.value);
    }
    r := Pay(store, q, scannerId, idempotencyKey, now, ids);
  }

  /** The transfer and the follow-up writes of ProcessPayment. */
  method Pay(store: Store, q: QrCode, scannerId: string, key: string, now: int, ids: seq<string>)
    returns (r: Result<PaymentResult, WpError>)
    requires |ids| >= 3
    modifies store
    ensures (r, store.Snapshot()) == PayValidQr(old(store.Snapshot()), q, scannerId, key, now, ids)
  {
    var out := TransferPoints(store, PaymentTransfer(q, scannerId, key), ids);
    match out
    case Duplicate(t) =>
      r := Ok(PaymentResult(t.id, 0, "SUCCESS", 0, "", true));
    case Failed(e) =>
      r := Err(e);
    case Done(t) =>
      store.UpdateTransactionID(q.id, t.id, now);
      var wallet := store.GetByUserID(scannerId);
      var balanceAfter := if wallet.Some? then wallet.value.balance else 0;
      r := Ok(PaymentResult(t.id, t.amount, "SUCCESS", balanceAfter, q.userId, false));
  }

  /**
   * The outcomes of a scan, first failure first: an unknown code, a failed
   * validation (which writes only the EXPIRED mark), and the transfer's own
   * errors, which write nothing.
   */
  lemma {:induction false} PaymentRejections(db: WpDb, cfg: QrConfig, scannerId: string, code: string, key: string, now: int,
                          ids: seq<string>)
    requires |ids| >= 3
    ensures var (r, db') := ProcessPaymentSpec(db, cfg, scannerId, code, key, now, ids);
      var q := QrByCode(db.qrCodes, code);
      (r == Err(QrNotFound) <==> q.None?) &&
      (q.Some? && QrCheck(cfg, q.value, scannerId, now).Some? ==>
        r == Err(QrCheck(cfg, q.value, scannerId, now).value)) &&
      (r == Err(QrExpired) ==> db' == db.(qrCodes := QrStatusRows(db.qrCodes, q.value.id, "EXPIRED", now))) &&
      (r.Err? && r != Err(QrExpired) ==> db' == db)
  {
    var (r, db') := ProcessPaymentSpec(db, cfg, scannerId, code, key, now, ids);
    var q := QrByCode(db.qrCodes, code);
    if q.Some? && QrCheck(cfg, q.value, scannerId, now).None? {
      var k := PaymentKey(scannerId, code, key, now);
      if KeyReplay(db.transactions, k).None? {
        TransferRejections(db, PaymentTransfer(q.value, scannerId, k), ids);
      }
    }
  }

  /**
   * A completed payment debits nothing and credits nothing (the transfer
   * writes no balance), records one QR_PAYMENT transaction from the scanner to
   * the code's owner for the code's amount, marks the code USED with that
   * transaction, and reports the scanner's unchanged balance.
   */
  lemma {:induction false} PaymentEffect(db: WpDb, cfg: QrConfig, scannerId: string, code: string, key: string, now: int,
                      ids: seq<string>)
    requires |ids| >= 3
    requires var r := ProcessPaymentSpec(db, cfg, scannerId, code, key, now, ids).0; r.Ok? && !r.value.isDuplicate
    ensures var (r, db') := ProcessPaymentSpec(db, cfg, scannerId, code, key, now, ids);
      var q := QrByCode(db.qrCodes, code).value;
      var t := db'.transactions[|db.transactions|];
      |db'.transactions| == |db.transactions| + 1 &&
      t.id == r.value.transactionId && t.txType == "QR_PAYMENT" &&
      t.senderId == Some(scannerId) && t.receiverId == Some(q.userId) && t.amount == q.amount &&
      db'.wallets == db.wallets &&
      r.value.balanceAfter == BalanceOf(db.wallets, scannerId) &&
      QrByCode(db'.qrCodes, code) == Some(WithTransaction(q, t.id, now))
  {
    var q := QrByCode(db.qrCodes, code).value;
    var k := PaymentKey(scannerId, code, key, now);
    var a := PaymentTransfer(q, scannerId, k);
    TransferWrites(db, a, ids);
    var db1 := TransferPointsSpec(db, a, ids).1;
    var t := TransferPointsSpec(db, a, ids).0.tx;
    UsedCodeFound(db1.qrCodes, code, t.id, now);
  }

  /** After UpdateTransactionID on the row GetByCode found, GetByCode finds it USED. */
  lemma {:induction false} UsedCodeFound(qs: seq<QrCode>, code: string, txId: string, now: int)
    requires QrByCode(qs, code).Some?
    ensures var q := QrByCode(qs, code).value;
      QrByCode(QrTransactionRows(qs, q.id, txId, now), code) == Some(WithTransaction(q, txId, now))
  {
    var q := QrByCode(qs, code).value;
    QrByCodeAfterUpdate(qs, QrTransactionRows(qs, q.id, txId, now), code);
  }

  /** After the EXPIRED mark on the row GetByCode found, GetByCode finds it EXPIRED. */
  lemma {:induction false} ExpiredCodeFound(qs: seq<QrCode>, code: string, now: int)
    requires QrByCode(qs, code).Some?
    ensures var q := QrByCode(qs, code).value;
      QrByCode(QrStatusRows(qs, q.id, "EXPIRED", now), code) == Some(WithStatus(q, "EXPIRED", now))
  {
    var q := QrByCode(qs, code).value;
    QrByCodeAfterUpdate(qs, QrStatusRows(qs, q.id, "EXPIRED", now), code);
  }

  /**
   * A code pays once: after a completed payment every later scan of it, by
   * anyone, with any key (the same key included) and at any time, is
   * refused as already used rather than answered as a duplicate.
   */
  lemma {:induction false} PaidCodeIsUsedUp(db: WpDb, cfg: QrConfig, scannerId: string, code: string, key: string, now: int,
                         ids: seq<string>, scanner2: string, key2: string, now2: int, ids2: seq<string>)
    requires |ids| >= 3 && |ids2| >= 3
    requires var r := ProcessPaymentSpec(db, cfg, scannerId, code, key, now, ids).0; r.Ok? && !r.value.isDuplicate
    ensures var db' := ProcessPaymentSpec(db, cfg, scannerId, code, key, now, ids).1;
      ProcessPaymentSpec(db', cfg, scanner2, code, key2, now2, ids2) == (Err(QrAlreadyUsed), db')
  {
    PaymentEffect(db, cfg, scannerId, code, key, now, ids);
  }

  /**
   * An expired code stays refused: once a scan has found it expired, later
   * scans find it EXPIRED whatever the clock says.
   */
  lemma {:induction false} ExpiredCodeStaysExpired(db: WpDb, cfg: QrConfig, scannerId: string, code: string, key: string, now: int,
                                ids: seq<string>, scanner2: string, key2: string, now2: int, ids2: seq<string>)
    requires |ids| >= 3 && |ids2| >= 3
    requires ProcessPaymentSpec(db, cfg, scannerId, code, key, now, ids).0 == Err(QrExpired)
    ensures var db' := ProcessPaymentSpec(db, cfg, scannerId, code, key, now, ids).1;
      ProcessPaymentSpec(db', cfg, scanner2, code, key2, now2, ids2).0 == Err(QrExpired)
  {
    PaymentRejections(db, cfg, scannerId, code, key, now, ids);
    ExpiredCodeFound(db.qrCodes, code, now);
  }

  /**
   * A key already on file answers a scan of a valid code with success
   * flagged as a duplicate, the stored transaction's id, and no write.
   */
  lemma {:induction false} ReusedKeyIsDuplicate(db: WpDb, cfg: QrConfig, scannerId: string, code: string, key: string, now: int,
                             ids: seq<string>)
    requires |ids| >= 3 && key != ""
    requires QrByCode(db.qrCodes, code).Some?
    requires QrCheck(cfg, QrByCode(db.qrCodes, code).value, scannerId, now).None?
    requires TxByKey(db.transactions, key).Some?
    ensures ProcessPaymentSpec(db, cfg, scannerId, code, key, now, ids) ==
      (Ok(PaymentResult(TxByKey(db.transactions, key).value.id, 0, "SUCCESS", 0, "", true)), db)
  {
  }
}
