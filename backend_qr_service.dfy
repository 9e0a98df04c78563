/**
 * The older backend's QR service: creating a signed single-use payment code,
 * cancelling it, and paying it. Payment runs in one SQL transaction that
 * holds the code's row lock from its SELECT ... FOR UPDATE. On an expired
 * code the service issues UPDATE ... SET status = 'EXPIRED' through the pool
 * connection, outside that transaction: the statement waits for the row
 * lock this same request holds, fails at the lock-wait timeout, and its
 * error is ignored, so the code keeps its status.
 */
module BackendQrService {
  import opened Wrappers
  import opened BackendEntities
  import opened BackendTables
  import opened BackendUtils
  import opened BackendQrDto
  import opened BackendDatabase
  import BackendWalletService

  /** The service's configuration: the HMAC, its secret and the lifetime of a code. */
  datatype QrConfig = QrConfig(hmac: Hmac, secret: string, expiryMinutes: int)

  datatype PaymentResult = PaymentResult(
    transactionId: nat, transactionCode: string, amount: int, description: string, yourNewBalance: int)

  /** Every stored code has a positive amount, as CreateQR's validated requests do. */
  ghost predicate QrInvariant(db: Db)
  {
    UniqueQrs(db.qrCodes) && forall i :: 0 <= i < |db.qrCodes| ==> db.qrCodes[i].amount > 0
  }

  // ---------------------------------------------------------------- create

  /** The row CreateQR inserts (its id is assigned on insert). */
  function NewQr(req: CreateQrRequest, creatorId: nat, cfg: QrConfig, env: Env): (q: QrCode)
    ensures q.status == Active && q.isSingleUse && q.maxUses == 1 && q.currentUses == 0
    ensures q.code == env.uuid && q.amount == req.amount && q.creatorId == creatorId
    ensures VerifyQrSignature(cfg.hmac, q.code, q.amount, q.creatorId, q.signature, cfg.secret)
    ensures q.expiresAt == env.now + cfg.expiryMinutes * 60
  {
    QrCode(0, env.uuid, req.qrType, creatorId, req.amount,
           if req.description != "" then Some(req.description) else None, req.productId,
           GenerateQrSignature(cfg.hmac, env.uuid, req.amount, creatorId, cfg.secret),
           Active, true, 1, 0, None, None, env.now + cfg.expiryMinutes * 60)
  }

  /** Service.CreateQR: the response and the database after it. The PNG is a parameter. */
  function CreateQrSpec(db: Db, req: CreateQrRequest, creatorId: nat, cfg: QrConfig, env: Env, image: string): (QrCodeResponse, Db)
  {
    var q := NewQr(req, creatorId, cfg, env).(id := NextId(QrIds(db.qrCodes)));
    (ToQrCodeResponse(q, image, env.now), db.(qrCodes := db.qrCodes + [q]))
  }

  method CreateQr(db: Database, req: CreateQrRequest, creatorId: nat, cfg: QrConfig, env: Env, image: string)
    returns (resp: QrCodeResponse)
    modifies db
    ensures (resp, db.Snapshot()) == CreateQrSpec(old(db.Snapshot()), req, creatorId, cfg, env, image)
  {
    var q := NewQr(req, creatorId, cfg, env);
    var id := db.CreateQr(q);
    resp := ToQrCodeResponse(q.(id := id), image, env.now);
  }

  /**
   * A created code is found by its code, ACTIVE and with a valid signature,
   * and with a fresh UUID and a validated amount the QR invariant is kept.
   */
  lemma {:induction false} CreateQrEffect(db: Db, req: CreateQrRequest, creatorId: nat, cfg: QrConfig, env: Env, image: string,
                        resp: QrCodeResponse, db': Db)
    requires QrInvariant(db) && ValidateCreateQr(req).0 == []
    requires QrByCode(db.qrCodes, env.uuid).None?
    requires CreateQrSpec(db, req, creatorId, cfg, env, image) == (resp, db')
    ensures QrInvariant(db')
    ensures QrByCode(db'.qrCodes, env.uuid).Some?
    ensures var q := QrByCode(db'.qrCodes, env.uuid).value;
      q.status == Active && q.currentUses == 0 && q.id == resp.id && q.amount == req.amount &&
      VerifyQrSignature(cfg.hmac, q.code, q.amount, q.creatorId, q.signature, cfg.secret)
  {
    var q := NewQr(req, creatorId, cfg, env).(id := NextId(QrIds(db.qrCodes)));
    assert db'.qrCodes == db.qrCodes + [q];
    assert resp == ToQrCodeResponse(q, image, env.now);
    AppendFreshQr(db.qrCodes, q);
  }

  /** A code with a fresh id and an unused code string keeps the codes unique and is found by its code. */
  lemma {:induction false} AppendFreshQr(qs: seq<QrCode>, q: QrCode)
    requires UniqueQrs(qs) && QrByCode(qs, q.code).None? && q.id == NextId(QrIds(qs))
    ensures UniqueQrs(qs + [q])
    ensures QrByCode(qs + [q], q.code) == Some(q)
  {
    var qs' := qs + [q];
    forall i, j | 0 <= i < j < |qs'| ensures qs'[i].id != qs'[j].id && qs'[i].code != qs'[j].code {
      if j == |qs| {
        assert qs[i] in qs;
        assert QrIds(qs)[i] == qs[i].id;
      }
    }
    var found := QrByCode(qs', q.code).value;
    assert found in qs || found == q;
    assert found == q;
  }

  // ---------------------------------------------------------------- cancel

  /** Service.CancelQR: the error, if any, and the database after it. */
  function CancelQrSpec(db: Db, id: nat, creatorId: nat): (Option<ErrorCode>, Db)
  {
    match QrById(db.qrCodes, id)
    case None => (Some(QrNotFound), db)
    case Some(q) =>
      if q.creatorId != creatorId then (Some(Forbidden), db)
      else if q.status != Active then (Some(QrNotActive), db)
      else (None, db.(qrCodes := QrStatusRows(db.qrCodes, id, QrCancelled)))
  }

  method CancelQr(db: Database, id: nat, creatorId: nat) returns (err: Option<ErrorCode>)
    modifies db
    ensures (err, db.Snapshot()) == CancelQrSpec(old(db.Snapshot()), id, creatorId)
  {
    var q := db.GetQrByID(id);
    if q.None? {
      return Some(QrNotFound);
    }
    if q.value.creatorId != creatorId {
      return Some(Forbidden);
    }
    if q.value.status != Active {
      return Some(QrNotActive);
    }
    db.UpdateQrStatus(id, QrCancelled);
    return None;
  }

  /**
   * Only the creator cancels, and only an ACTIVE code: the outcomes in the
   * order they are checked, and a successful cancel leaves the code CANCELLED
   * with nothing else changed.
   */
  lemma {:induction false} CancelQrOutcomes(db: Db, q: QrCode, creatorId: nat)
    requires UniqueQrs(db.qrCodes) && q in db.qrCodes
    ensures var (err, db') := CancelQrSpec(db, q.id, creatorId);
      (err == Some(Forbidden) <==> q.creatorId != creatorId) &&
      (err == Some(QrNotActive) <==> q.creatorId == creatorId && q.status != Active) &&
      (err.None? <==> q.creatorId == creatorId && q.status == Active) &&
      (err.Some? ==> db' == db) &&
      (err.None? ==> db' == db.(qrCodes := db'.qrCodes) && QrByCode(db'.qrCodes, q.code) == Some(q.(status := QrCancelled)))
  {
    var i :| 0 <= i < |db.qrCodes| && db.qrCodes[i] == q;
    var found := QrById(db.qrCodes, q.id).value;
    var k :| 0 <= k < |db.qrCodes| && db.qrCodes[k] == found;
    assert k == i;
    QrStatusLookup(db.qrCodes, q, QrCancelled);
  }

  // --------------------------------------------------------------- payment

  /**
   * The checks ProcessPayment makes on a code whose signature is valid and
   * that has not expired: its status, self-payment, then the payer's and the
   * payee's wallets. The payee's frozen flag is not looked at.
   */
  function PaymentChecks(ws: seq<Wallet>, q: QrCode, payerId: nat): (r: Result<(Wallet, Wallet), ErrorCode>)
    ensures r.Ok? ==>
      q.status == Active && q.creatorId != payerId &&
      r.value.0 in ws && r.value.1 in ws && r.value.0.userId == payerId && r.value.1.userId == q.creatorId &&
      !r.value.0.isFrozen && r.value.0.balance >= q.amount
  {
    if q.status == Used then Err(QrAlreadyUsed)
    else if q.status != Active then Err(QrNotActive)
    else if q.creatorId == payerId then Err(CannotPaySelf)
    else match WalletByUser(ws, payerId)
      case None => Err(WalletNotFound)
      case Some(payer) =>
        if payer.isFrozen then Err(WalletFrozen)
        else if payer.balance < q.amount then Err(InsufficientBalance)
        else match WalletByUser(ws, q.creatorId)
          case None => Err(PayeeWalletNotFound)
          case Some(payee) => Ok((payer, payee))
  }

  function PaymentRecord(q: QrCode, payer: Wallet, payee: Wallet, key: string, code: string, now: int): Transaction
  {
    Transaction(0, code, key, QrPayment, Completed, Some(payer.id), Some(payee.id),
                q.amount, 0, q.amount, q.description, Some(q.id), Some(now))
  }

  /** The writes ProcessPayment commits once every check has passed, and its response. */
  function PaymentCommit(db: Db, q: QrCode, payer: Wallet, payee: Wallet, key: string, code: string, now: int): (PaymentResult, Db)
  {
    var txId := NextId(TxIds(db.transactions));
    var txs := db.transactions + [PaymentRecord(q, payer, payee, key, code, now).(id := txId)];
    var ws := StatsRows(StatsRows(db.wallets, payer.id, q.amount, false), payee.id, q.amount, true);
    var debit := LedgerEntry(0, payer.id, Some(txId), Debit, q.amount, payer.balance, payer.balance - q.amount,
                             "QR Payment", QrPayment, q.code);
    var l1 := db.ledger + [debit.(id := NextId(LedgerIds(db.ledger)))];
    var credit := LedgerEntry(0, payee.id, Some(txId), Credit, q.amount, payee.balance, payee.balance + q.amount,
                              "QR Payment Received", QrPayment, q.code);
    var l2 := l1 + [credit.(id := NextId(LedgerIds(l1)))];
    (PaymentResult(txId, code, q.amount, q.description.GetOr(""), payer.balance - q.amount),
     db.(transactions := txs, wallets := ws, ledger := l2,
         qrCodes := MarkAsUsedRows(db.qrCodes, q.id, payer.userId, now)))
  }

  /** Service.ProcessPayment: the outcome and the database after it. */
  function ProcessPaymentSpec(db: Db, req: ProcessQrRequest, payerId: nat, cfg: QrConfig, env: Env): (Result<PaymentResult, ErrorCode>, Db)
    requires ValidEnv(env)
  {
    match TxByKey(db.transactions, req.idempotencyKey)
    case Some(t) => (Ok(PaymentResult(t.id, t.code, t.amount, "", 0)), db)
    case None =>
      match QrByCode(db.qrCodes, req.qrCode)
      case None => (Err(QrNotFound), db)
      case Some(q) =>
        if !VerifyQrSignature(cfg.hmac, q.code, q.amount, q.creatorId, q.signature, cfg.secret) then (Err(QrInvalidSignature), db)
        else if env.now > q.expiresAt then (Err(QrExpired), db)
        else match PaymentChecks(db.wallets, q, payerId)
          case Err(e) => (Err(e), db)
          case Ok((payer, payee)) =>
            var commit := PaymentCommit(db, q, payer, payee, req.idempotencyKey,
                                        TransactionCode("TRX", env.today, env.random), env.now);
            (Ok(commit.0), commit.1)
  }

  method CommitPayment(db: Database, q: QrCode, payer: Wallet, payee: Wallet, key: string, code: string, now: int)
    returns (resp: PaymentResult)
    modifies db
    ensures (resp, db.Snapshot()) == PaymentCommit(old(db.Snapshot()), q, payer, payee, key, code, now)
  {
    var txId := db.CreateTransaction(PaymentRecord(q, payer, payee, key, code, now));
    db.UpdateBalanceWithStats(payer.id, q.amount, false);
    db.UpdateBalanceWithStats(payee.id, q.amount, true);
    var _ := db.CreateLedgerEntry(LedgerEntry(0, payer.id, Some(txId), Debit, q.amount, payer.balance,
                                              payer.balance - q.amount, "QR Payment", QrPayment, q.code));
    var _ := db.CreateLedgerEntry(LedgerEntry(0, payee.id, Some(txId), Credit, q.amount, payee.balance,
                                              payee.balance + q.amount, "QR Payment Received", QrPayment, q.code));
    db.MarkAsUsed(q.id, payer.userId, now);
    resp := PaymentResult(txId, code, q.amount, q.description.GetOr(""), payer.balance - q.amount);
  }

  /** Service.ProcessPayment against the live database. */
  method ProcessPayment(db: Database, req: ProcessQrRequest, payerId: nat, cfg: QrConfig, env: Env)
    returns (r: Result<PaymentResult, ErrorCode>)
    requires ValidEnv(env)
    modifies db
    ensures (r, db.Snapshot()) == ProcessPaymentSpec(old(db.Snapshot()), req, payerId, cfg, env)
  {
    var existing := db.GetTransactionByIdempotencyKey(req.idempotencyKey);
    if existing.Some? {
      return Ok(PaymentResult(existing.value.id, existing.value.code, existing.value.amount, "", 0));
    }
    var found := db.GetByCode(req.qrCode);
    if found.None? {
      return Err(QrNotFound);
    }
    var q := found.value;
    if !VerifyQrSignature(cfg.hmac, q.code, q.amount, q.creatorId, q.signature, cfg.secret) {
      return Err(QrInvalidSignature);
    }
    if env.now > q.expiresAt {
      // UpdateStatus on the pool connection blocks on the row lock held here
      // and fails at the lock-wait timeout; its error is dropped.
      return Err(QrExpired);
    }
    if q.status == Used {
      return Err(QrAlreadyUsed);
    }
    if q.status != Active {
      return Err(QrNotActive);
    }
    if q.creatorId == payerId {
      return Err(CannotPaySelf);
    }
    var payerWallet := db.GetByUserID(payerId);
    if payerWallet.None? {
      return Err(WalletNotFound);
    }
    var payer := payerWallet.value;
    if payer.isFrozen {
      return Err(WalletFrozen);
    }
    if payer.balance < q.amount {
      return Err(InsufficientBalance);
    }
    var payeeWallet := db.GetByUserID(q.creatorId);
    if payeeWallet.None? {
      return Err(PayeeWalletNotFound);
    }
    var code := TransactionCode("TRX", env.today, env.random);
    var resp := CommitPayment(db, q, payer, payeeWallet.value, req.idempotencyKey, code, env.now);
    return Ok(resp);
  }

  /**
   * The order of ProcessPayment's checks on a new key: existence, signature,
   * expiry, USED, any other non-ACTIVE status, self-payment; the first that
   * fails decides the error. No failure writes anything: the EXPIRED update
   * the expiry path issues outside the transaction cannot get the row lock.
   */
  lemma {:induction false} PaymentCheckOrder(db: Db, req: ProcessQrRequest, payerId: nat, cfg: QrConfig, env: Env,
                                             r: Result<PaymentResult, ErrorCode>, db': Db)
    requires ValidEnv(env)
    requires TxByKey(db.transactions, req.idempotencyKey).None?
    requires ProcessPaymentSpec(db, req, payerId, cfg, env) == (r, db')
    ensures var found := QrByCode(db.qrCodes, req.qrCode);
      (r == Err(QrNotFound) <==> found.None?) &&
      (found.Some? ==>
        var q := found.value;
        var signed := VerifyQrSignature(cfg.hmac, q.code, q.amount, q.creatorId, q.signature, cfg.secret);
        (r == Err(QrInvalidSignature) <==> !signed) &&
        (r == Err(QrExpired) <==> signed && env.now > q.expiresAt) &&
        (r == Err(QrAlreadyUsed) <==> signed && env.now <= q.expiresAt && q.status == Used) &&
        (r == Err(QrNotActive) <==> signed && env.now <= q.expiresAt && q.status != Used && q.status != Active) &&
        (r == Err(CannotPaySelf) <==> signed && env.now <= q.expiresAt && q.status == Active && q.creatorId == payerId))
    ensures r.Err? ==> db' == db
  {
    match QrByCode(db.qrCodes, req.qrCode)
    case None =>
    case Some(q) =>
      if VerifyQrSignature(cfg.hmac, q.code, q.amount, q.creatorId, q.signature, cfg.secret) && env.now <= q.expiresAt {
        PaymentChecksErrors(db.wallets, q, payerId);
      }
  }

  /** The checks after expiry report the status and self-payment failures, and never an earlier check's error. */
  lemma {:induction false} PaymentChecksErrors(ws: seq<Wallet>, q: QrCode, payerId: nat)
    ensures var c := PaymentChecks(ws, q, payerId);
      (c == Err(QrAlreadyUsed) <==> q.status == Used) &&
      (c == Err(QrNotActive) <==> q.status != Used && q.status != Active) &&
      (c == Err(CannotPaySelf) <==> q.status == Active && q.creatorId == payerId) &&
      c != Err(QrNotFound) && c != Err(QrInvalidSignature) && c != Err(QrExpired)
  {
  }

  /** A payer can pay a code whose creator's wallet is frozen: the payee is never checked for it. */
  lemma {:induction false} PayeeFrozenIgnored(db: Db, req: ProcessQrRequest, payerId: nat, cfg: QrConfig, env: Env, q: QrCode, payer: Wallet, payee: Wallet)
    requires ValidEnv(env)
    requires TxByKey(db.transactions, req.idempotencyKey).None?
    requires QrByCode(db.qrCodes, req.qrCode) == Some(q) && q.status == Active && env.now <= q.expiresAt
    requires VerifyQrSignature(cfg.hmac, q.code, q.amount, q.creatorId, q.signature, cfg.secret)
    requires WalletByUser(db.wallets, payerId) == Some(payer) && !payer.isFrozen && payer.balance >= q.amount
    requires WalletByUser(db.wallets, q.creatorId) == Some(payee) && payee.isFrozen && q.creatorId != payerId
    ensures ProcessPaymentSpec(db, req, payerId, cfg, env).0.Ok?
  {
  }

  /**
   * A successful payment debits the payer and credits the payee by the code's
   * amount, with consistent paired ledger entries referencing the code; the
   * points in circulation and the ledger's net do not move, the transaction
   * references the code, and the reported balance is the payer's before,
   * minus the amount.
   */
  lemma {:induction false} PaymentEffect(db: Db, req: ProcessQrRequest, payerId: nat, cfg: QrConfig, env: Env,
                                         r: Result<PaymentResult, ErrorCode>, db': Db)
    requires ValidEnv(env) && UniqueWallets(db.wallets)
    requires TxByKey(db.transactions, req.idempotencyKey).None?
    requires ProcessPaymentSpec(db, req, payerId, cfg, env) == (r, db') && r.Ok?
    ensures QrByCode(db.qrCodes, req.qrCode).Some? && WalletByUser(db.wallets, payerId).Some?
    ensures var q := QrByCode(db.qrCodes, req.qrCode).value;
      var payer := WalletByUser(db.wallets, payerId).value;
      TotalBalance(db'.wallets) == TotalBalance(db.wallets) &&
      |db'.ledger| == |db.ledger| + 2 && db'.ledger[..|db.ledger|] == db.ledger &&
      var d := db'.ledger[|db.ledger|];
      var c := db'.ledger[|db.ledger| + 1];
      d.entryType == Debit && c.entryType == Credit && d.amount == c.amount == q.amount &&
      EntryConsistent(d) && EntryConsistent(c) && d.referenceId == c.referenceId == q.code &&
      LedgerNet(db'.ledger) == LedgerNet(db.ledger) &&
      db'.transactions[|db.transactions|].qrCodeId == Some(q.id) &&
      r.value.yourNewBalance == payer.balance - q.amount
  {
    var q := QrByCode(db.qrCodes, req.qrCode).value;
    var (payer, payee) := PaymentChecks(db.wallets, q, payerId).value;
    var code := TransactionCode("TRX", env.today, env.random);
    var commit := PaymentCommit(db, q, payer, payee, req.idempotencyKey, code, env.now);
    assert r == Ok(commit.0) && db' == commit.1;
    assert payer == WalletByUser(db.wallets, payerId).value;
    PaymentCommitEffect(db, q, payer, payee, req.idempotencyKey, code, env.now, commit.0, commit.1);
  }

  /** The committed writes of a payment: balances conserved, a consistent debit and credit pair, the reference. */
  lemma {:induction false} PaymentCommitEffect(db: Db, q: QrCode, payer: Wallet, payee: Wallet, key: string, code: string,
                                               now: int, resp: PaymentResult, db': Db)
    requires UniqueWallets(db.wallets) && payer in db.wallets && payee in db.wallets
    requires PaymentCommit(db, q, payer, payee, key, code, now) == (resp, db')
    ensures TotalBalance(db'.wallets) == TotalBalance(db.wallets)
    ensures |db'.ledger| == |db.ledger| + 2 && db'.ledger[..|db.ledger|] == db.ledger
    ensures var d := db'.ledger[|db.ledger|];
      var c := db'.ledger[|db.ledger| + 1];
      d.entryType == Debit && c.entryType == Credit && d.amount == c.amount == q.amount &&
      EntryConsistent(d) && EntryConsistent(c) && d.referenceId == c.referenceId == q.code
    ensures LedgerNet(db'.ledger) == LedgerNet(db.ledger)
    ensures db'.transactions[|db.transactions|].qrCodeId == Some(q.id)
    ensures resp.yourNewBalance == payer.balance - q.amount
  {
    DebitCreditConserves(db.wallets, payer.id, payee.id, q.amount);
    var l1 := db'.ledger[..|db.ledger| + 1];
    assert l1 == db.ledger + [db'.ledger[|db.ledger|]];
    assert db'.ledger == l1 + [db'.ledger[|db.ledger| + 1]];
    LedgerNetAppend(db.ledger, db'.ledger[|db.ledger|]);
    LedgerNetAppend(l1, db'.ledger[|db.ledger| + 1]);
  }

  /**
   * A code is paid at most once: after a successful payment, any later
   * payment of the same code under a new key fails (QR_ALREADY_USED, or
   * QR_EXPIRED once it has expired).
   */
  lemma {:induction false} PaymentOneShot(db: Db, req: ProcessQrRequest, payerId: nat, cfg: QrConfig, env: Env,
                       req2: ProcessQrRequest, payer2: nat, env2: Env)
    requires ValidEnv(env) && ValidEnv(env2) && UniqueQrs(db.qrCodes)
    requires TxByKey(db.transactions, req.idempotencyKey).None?
    requires ProcessPaymentSpec(db, req, payerId, cfg, env).0.Ok?
    requires req2.qrCode == req.qrCode
    requires TxByKey(ProcessPaymentSpec(db, req, payerId, cfg, env).1.transactions, req2.idempotencyKey).None?
    ensures ProcessPaymentSpec(ProcessPaymentSpec(db, req, payerId, cfg, env).1, req2, payer2, cfg, env2).0.Err?
  {
    var q := QrByCode(db.qrCodes, req.qrCode).value;
    var (payer, payee) := PaymentChecks(db.wallets, q, payerId).value;
    MarkAsUsedLookup(db.qrCodes, q, payer.userId, env.now);
  }

  /**
   * The expiry check comes before the status check, so a used code presented
   * after its expiry is reported as expired, not as already used; it stays
   * USED in the table.
   */
  lemma {:induction false} UsedCodeReportedExpired(db: Db, req: ProcessQrRequest, payerId: nat, cfg: QrConfig, env: Env, q: QrCode)
    requires ValidEnv(env) && UniqueQrs(db.qrCodes)
    requires TxByKey(db.transactions, req.idempotencyKey).None?
    requires QrByCode(db.qrCodes, req.qrCode) == Some(q) && q.status == Used && env.now > q.expiresAt
    requires VerifyQrSignature(cfg.hmac, q.code, q.amount, q.creatorId, q.signature, cfg.secret)
    ensures var (r, db') := ProcessPaymentSpec(db, req, payerId, cfg, env);
      r == Err(QrExpired) && r != Err(QrAlreadyUsed) && QrByCode(db'.qrCodes, req.qrCode) == Some(q)
  {
  }

  /**
   * Payment keeps the wallet invariant and the QR invariant: codes carry
   * positive amounts, so the debit never exceeds the balance the payer showed.
   */
  lemma {:induction false} PaymentKeepsInvariants(db: Db, req: ProcessQrRequest, payerId: nat, cfg: QrConfig, env: Env)
    requires ValidEnv(env)
    requires BackendWalletService.WalletInvariant(db) && QrInvariant(db)
    ensures var db' := ProcessPaymentSpec(db, req, payerId, cfg, env).1;
      BackendWalletService.WalletInvariant(db') && QrInvariant(db')
  {
    if TxByKey(db.transactions, req.idempotencyKey).None? && QrByCode(db.qrCodes, req.qrCode).Some? {
      var q := QrByCode(db.qrCodes, req.qrCode).value;
      if !VerifyQrSignature(cfg.hmac, q.code, q.amount, q.creatorId, q.signature, cfg.secret) {
      } else if env.now > q.expiresAt {
      } else if PaymentChecks(db.wallets, q, payerId).Ok? {
        var (payer, payee) := PaymentChecks(db.wallets, q, payerId).value;
        var code := TransactionCode("TRX", env.today, env.random);
        var commit := PaymentCommit(db, q, payer, payee, req.idempotencyKey, code, env.now);
        assert ProcessPaymentSpec(db, req, payerId, cfg, env).1 == commit.1;
        PaymentCommitKeeps(db, q, payer, payee, req.idempotencyKey, code, env.now);
      }
    }
  }

  /** The committed writes of a payment keep both invariants. */
  lemma {:induction false} PaymentCommitKeeps(db: Db, q: QrCode, payer: Wallet, payee: Wallet, key: string, code: string, now: int)
    requires BackendWalletService.WalletInvariant(db) && QrInvariant(db)
    requires q in db.qrCodes && q.status == Active
    requires payer in db.wallets && payee in db.wallets && payer.userId != payee.userId && payer.balance >= q.amount
    requires TxByKey(db.transactions, key).None?
    ensures var db' := PaymentCommit(db, q, payer, payee, key, code, now).1;
      BackendWalletService.WalletInvariant(db') && QrInvariant(db')
  {
    assert q.amount > 0 by {
      var i :| 0 <= i < |db.qrCodes| && db.qrCodes[i] == q;
    }
    DebitCreditKeeps(db.wallets, payer, payee, q.amount);
    InsertNewKey(db.transactions, PaymentRecord(q, payer, payee, key, code, now).(id := NextId(TxIds(db.transactions))));
    MarkAsUsedLookup(db.qrCodes, q, payer.userId, now);
  }
}
