/**
 * The older backend's wallet service: peer transfer, admin adjustment and the
 * transaction history. Each flow is a function from the database before to
 * its outcome and the database after (the writes of a committed SQL
 * transaction, or none when it rolls back), and a method that performs the
 * repository calls in the service's order and is proved to agree with it.
 */
module BackendWalletService {
  import opened Wrappers
  import opened BackendEntities
  import opened BackendTables
  import opened BackendUtils
  import opened BackendWalletDto
  import opened BackendDatabase

  datatype TransferResponse = TransferResponse(transactionId: nat, transactionCode: string, amount: int, yourNewBalance: int)

  /** The database facts every flow keeps: unique keys and no negative balance. */
  ghost predicate WalletInvariant(db: Db)
  {
    UniqueWallets(db.wallets) && NonNegative(db.wallets) && UniqueTxKeys(db.transactions)
  }

  // --------------------------------------------------------------- transfer

  /**
   * The checks Transfer makes after the idempotency lookup: the locked source
   * and destination wallets, or the first check that fails.
   */
  function TransferChecks(ws: seq<Wallet>, fromUserId: nat, req: TransferRequest): (r: Result<(Wallet, Wallet), ErrorCode>)
    ensures r.Ok? ==>
      r.value.0 in ws && r.value.1 in ws &&
      r.value.0.userId == fromUserId && r.value.1.userId == req.toUserId && fromUserId != req.toUserId &&
      !r.value.0.isFrozen && !r.value.1.isFrozen && r.value.0.balance >= req.amount
  {
    if fromUserId == req.toUserId then Err(CannotTransferSelf)
    else match WalletByUser(ws, fromUserId)
      case None => Err(WalletNotFound)
      case Some(from) =>
        if from.isFrozen then Err(WalletFrozen)
        else if from.balance < req.amount then Err(InsufficientBalance)
        else match WalletByUser(ws, req.toUserId)
          case None => Err(RecipientNotFound)
          case Some(to) =>
            if to.isFrozen then Err(RecipientFrozen)
            else Ok((from, to))
  }

  /** The transaction row Transfer inserts (its id is assigned on insert). */
  function TransferRecord(from: Wallet, to: Wallet, req: TransferRequest, code: string, now: int): Transaction
  {
    Transaction(0, code, req.idempotencyKey, TxType.Transfer, Completed, Some(from.id), Some(to.id),
                req.amount, 0, req.amount, if req.description != "" then Some(req.description) else None,
                None, Some(now))
  }

  function TransferDebitEntry(from: Wallet, txId: nat, req: TransferRequest, code: string): LedgerEntry
  {
    LedgerEntry(0, from.id, Some(txId), Debit, req.amount, from.balance, from.balance - req.amount,
                "Transfer to user", TxType.Transfer, code)
  }

  function TransferCreditEntry(to: Wallet, txId: nat, req: TransferRequest, code: string): LedgerEntry
  {
    LedgerEntry(0, to.id, Some(txId), Credit, req.amount, to.balance, to.balance + req.amount,
                "Transfer received", TxType.Transfer, code)
  }

  /** The writes Transfer commits once every check has passed, and its response. */
  function TransferCommit(db: Db, from: Wallet, to: Wallet, req: TransferRequest, code: string, now: int): (TransferResponse, Db)
  {
    var txId := NextId(TxIds(db.transactions));
    var txs := db.transactions + [TransferRecord(from, to, req, code, now).(id := txId)];
    var ws := StatsRows(StatsRows(db.wallets, from.id, req.amount, false), to.id, req.amount, true);
    var debit := TransferDebitEntry(from, txId, req, code);
    var l1 := db.ledger + [debit.(id := NextId(LedgerIds(db.ledger)))];
    var credit := TransferCreditEntry(to, txId, req, code);
    var l2 := l1 + [credit.(id := NextId(LedgerIds(l1)))];
    (TransferResponse(txId, code, req.amount, from.balance - req.amount),
     db.(transactions := txs, wallets := ws, ledger := l2))
  }

  /** Service.Transfer: the outcome and the database after it. */
  function TransferSpec(db: Db, fromUserId: nat, req: TransferRequest, env: Env): (Result<TransferResponse, ErrorCode>, Db)
    requires ValidEnv(env)
  {
    match TxByKey(db.transactions, req.idempotencyKey)
    case Some(t) => (Ok(TransferResponse(t.id, t.code, t.amount, 0)), db)
    case None =>
      match TransferChecks(db.wallets, fromUserId, req)
      case Err(e) => (Err(e), db)
      case Ok((from, to)) =>
        var commit := TransferCommit(db, from, to, req, TransactionCode("TRX", env.today, env.random), env.now);
        (Ok(commit.0), commit.1)
  }

  /** Service.Transfer against the live database, in the service's order of calls. */
  method Transfer(db: Database, fromUserId: nat, req: TransferRequest, env: Env) returns (r: Result<TransferResponse, ErrorCode>)
    requires ValidEnv(env)
    modifies db
    ensures (r, db.Snapshot()) == TransferSpec(old(db.Snapshot()), fromUserId, req, env)
  {
    var existing := db.GetTransactionByIdempotencyKey(req.idempotencyKey);
    if existing.Some? {
      return Ok(TransferResponse(existing.value.id, existing.value.code, existing.value.amount, 0));
    }
    if fromUserId == req.toUserId {
      return Err(CannotTransferSelf);
    }
    var fromWallet := db.GetByUserID(fromUserId);
    if fromWallet.None? {
      return Err(WalletNotFound);
    }
    var from := fromWallet.value;
    if from.isFrozen {
      return Err(WalletFrozen);
    }
    if from.balance < req.amount {
      return Err(InsufficientBalance);
    }
    var toWallet := db.GetByUserID(req.toUserId);
    if toWallet.None? {
      return Err(RecipientNotFound);
    }
    var to := toWallet.value;
    if to.isFrozen {
      return Err(RecipientFrozen);
    }
    var code := TransactionCode("TRX", env.today, env.random);
    var resp := CommitTransfer(db, from, to, req, code, env.now);
    return Ok(resp);
  }

  /** The writes of Transfer after its checks: the transaction, the two balance updates, the two ledger entries. */
  method CommitTransfer(db: Database, from: Wallet, to: Wallet, req: TransferRequest, code: string, now: int)
    returns (resp: TransferResponse)
    modifies db
    ensures (resp, db.Snapshot()) == TransferCommit(old(db.Snapshot()), from, to, req, code, now)
  {
    var txId := db.CreateTransaction(TransferRecord(from, to, req, code, now));
    db.UpdateBalanceWithStats(from.id, req.amount, false);
    db.UpdateBalanceWithStats(to.id, req.amount, true);
    var _ := db.CreateLedgerEntry(TransferDebitEntry(from, txId, req, code));
    var _ := db.CreateLedgerEntry(TransferCreditEntry(to, txId, req, code));
    resp := TransferResponse(txId, code, req.amount, from.balance - req.amount);
  }

  /** Each rejection of Transfer, with the condition that decides it, in the order they are checked. */
  lemma {:induction false} TransferRejections(db: Db, fromUserId: nat, req: TransferRequest, env: Env)
    requires ValidEnv(env)
    requires TxByKey(db.transactions, req.idempotencyKey).None?
    ensures var r := TransferSpec(db, fromUserId, req, env).0;
      var from := WalletByUser(db.wallets, fromUserId);
      var to := WalletByUser(db.wallets, req.toUserId);
      (r == Err(CannotTransferSelf) <==> fromUserId == req.toUserId) &&
      (r == Err(WalletNotFound) <==> fromUserId != req.toUserId && from.None?) &&
      (r == Err(WalletFrozen) <==> fromUserId != req.toUserId && from.Some? && from.value.isFrozen) &&
      (r == Err(InsufficientBalance) <==>
        fromUserId != req.toUserId && from.Some? && !from.value.isFrozen && from.value.balance < req.amount) &&
      (r == Err(RecipientNotFound) <==>
        fromUserId != req.toUserId && from.Some? && !from.value.isFrozen && from.value.balance >= req.amount && to.None?) &&
      (r == Err(RecipientFrozen) <==>
        fromUserId != req.toUserId && from.Some? && !from.value.isFrozen && from.value.balance >= req.amount &&
        to.Some? && to.value.isFrozen)
    ensures TransferSpec(db, fromUserId, req, env).0.Err? ==> TransferSpec(db, fromUserId, req, env).1 == db
  {
  }

  /** A key already on file is answered from the stored transaction; nothing is written. */
  lemma {:induction false} TransferReplay(db: Db, fromUserId: nat, req: TransferRequest, env: Env)
    requires ValidEnv(env)
    requires TxByKey(db.transactions, req.idempotencyKey).Some?
    ensures var t := TxByKey(db.transactions, req.idempotencyKey).value;
      TransferSpec(db, fromUserId, req, env) == (Ok(TransferResponse(t.id, t.code, t.amount, 0)), db)
  {
  }

  /**
   * A successful transfer inserts one COMPLETED transaction with fee 0 and
   * net = amount, and two ledger entries, a debit of the source and a credit
   * of the destination, each consistent, so the ledger's net does not move.
   * The reported new balance is the source's balance before, minus amount.
   */
  lemma {:induction false} TransferWrites(db: Db, fromUserId: nat, req: TransferRequest, env: Env)
    requires ValidEnv(env)
    requires TxByKey(db.transactions, req.idempotencyKey).None?
    requires TransferSpec(db, fromUserId, req, env).0.Ok?
    ensures var (r, db') := TransferSpec(db, fromUserId, req, env);
      var from := WalletByUser(db.wallets, fromUserId).value;
      var to := WalletByUser(db.wallets, req.toUserId).value;
      |db'.transactions| == |db.transactions| + 1 &&
      db'.transactions[..|db.transactions|] == db.transactions &&
      var t := db'.transactions[|db.transactions|];
      t.id == r.value.transactionId && t.status == Completed && t.txType == TxType.Transfer &&
      t.feeAmount == 0 && t.netAmount == t.amount == req.amount &&
      t.fromWalletId == Some(from.id) && t.toWalletId == Some(to.id) &&
      |db'.ledger| == |db.ledger| + 2 && db'.ledger[..|db.ledger|] == db.ledger &&
      var d := db'.ledger[|db.ledger|];
      var c := db'.ledger[|db.ledger| + 1];
      d.walletId == from.id && d.entryType == Debit && d.balanceBefore == from.balance && EntryConsistent(d) &&
      c.walletId == to.id && c.entryType == Credit && c.balanceBefore == to.balance && EntryConsistent(c) &&
      d.transactionId == c.transactionId == Some(t.id) &&
      LedgerNet(db'.ledger) == LedgerNet(db.ledger) &&
      r.value.yourNewBalance == from.balance - req.amount
  {
    var (r, db') := TransferSpec(db, fromUserId, req, env);
    var l1 := db'.ledger[..|db.ledger| + 1];
    assert l1 == db.ledger + [db'.ledger[|db.ledger|]];
    assert db'.ledger == l1 + [db'.ledger[|db.ledger| + 1]];
    LedgerNetAppend(db.ledger, db'.ledger[|db.ledger|]);
    LedgerNetAppend(l1, db'.ledger[|db.ledger| + 1]);
  }

  /** A transfer moves points between wallets: the points in circulation do not change. */
  lemma {:induction false} TransferConserves(db: Db, fromUserId: nat, req: TransferRequest, env: Env)
    requires ValidEnv(env)
    requires UniqueWallets(db.wallets)
    ensures TotalBalance(TransferSpec(db, fromUserId, req, env).1.wallets) == TotalBalance(db.wallets)
  {
    if TxByKey(db.transactions, req.idempotencyKey).None? && TransferChecks(db.wallets, fromUserId, req).Ok? {
      var (from, to) := TransferChecks(db.wallets, fromUserId, req).value;
      DebitCreditConserves(db.wallets, from.id, to.id, req.amount);
    }
  }

  /** The writes of a transfer keep the wallet invariant when the source covers a non-negative amount. */
  lemma {:induction false} CommitKeepsInvariant(db: Db, from: Wallet, to: Wallet, req: TransferRequest, code: string, now: int,
                                                resp: TransferResponse, db': Db)
    requires WalletInvariant(db) && from in db.wallets && to in db.wallets && from.userId != to.userId
    requires 0 <= req.amount <= from.balance
    requires TxByKey(db.transactions, req.idempotencyKey).None?
    requires TransferCommit(db, from, to, req, code, now) == (resp, db')
    ensures WalletInvariant(db')
    ensures WalletByUser(db'.wallets, from.userId) == Some(Debited(from, resp.yourNewBalance, req.amount))
  {
    DebitCreditKeeps(db.wallets, from, to, req.amount);
    InsertNewKey(db.transactions, TransferRecord(from, to, req, code, now).(id := NextId(TxIds(db.transactions))));
    assert db'.wallets == StatsRows(StatsRows(db.wallets, from.id, req.amount, false), to.id, req.amount, true);
    assert Debited(from, resp.yourNewBalance, req.amount) ==
      from.(balance := from.balance - req.amount, lifetimeSpent := from.lifetimeSpent + req.amount);
  }

  /** Once the key is new and the checks pass, a transfer is exactly its commit. */
  lemma {:induction false} TransferSpecIsCommit(db: Db, fromUserId: nat, req: TransferRequest, env: Env, from: Wallet, to: Wallet,
                                                r: Result<TransferResponse, ErrorCode>, db': Db)
    requires ValidEnv(env)
    requires TxByKey(db.transactions, req.idempotencyKey).None?
    requires TransferChecks(db.wallets, fromUserId, req) == Ok((from, to))
    requires TransferSpec(db, fromUserId, req, env) == (r, db')
    ensures r.Ok? && TransferCommit(db, from, to, req, TransactionCode("TRX", env.today, env.random), env.now) == (r.value, db')
  {
  }

  /** The source wallet after a debit: the reported balance, and the amount added to lifetime spending. */
  function Debited(w: Wallet, newBalance: int, amount: int): Wallet
  {
    w.(balance := newBalance, lifetimeSpent := w.lifetimeSpent + amount)
  }

  /**
   * With an amount the request validator accepts, a transfer keeps the wallet
   * invariant, and the source wallet's balance afterwards is the one the
   * response reports.
   */
  lemma {:induction false} TransferKeepsInvariant(db: Db, fromUserId: nat, req: TransferRequest, env: Env,
                                r: Result<TransferResponse, ErrorCode>, db': Db)
    requires ValidEnv(env)
    requires WalletInvariant(db) && ValidateTransfer(req) == []
    requires TransferSpec(db, fromUserId, req, env) == (r, db')
    ensures WalletInvariant(db')
    ensures TxByKey(db.transactions, req.idempotencyKey).None? && r.Ok? ==>
      WalletByUser(db.wallets, fromUserId).Some? &&
      WalletByUser(db'.wallets, fromUserId) ==
        Some(Debited(WalletByUser(db.wallets, fromUserId).value, r.value.yourNewBalance, req.amount))
  {
    assert req.amount > 0;
    match TxByKey(db.transactions, req.idempotencyKey)
    case Some(_) =>
      assert db' == db;
    case None =>
      match TransferChecks(db.wallets, fromUserId, req)
      case Err(_) =>
        assert r.Err? && db' == db;
      case Ok((from, to)) =>
        assert WalletByUser(db.wallets, fromUserId) == Some(from);
        TransferCommitKeeps(db, fromUserId, req, env, from, to, r, db');
  }

  /** A transfer whose key is new and whose checks pass keeps the invariant and debits the source wallet. */
  lemma {:induction false} TransferCommitKeeps(db: Db, fromUserId: nat, req: TransferRequest, env: Env, from: Wallet, to: Wallet,
                                               r: Result<TransferResponse, ErrorCode>, db': Db)
    requires ValidEnv(env)
    requires WalletInvariant(db) && req.amount > 0
    requires TxByKey(db.transactions, req.idempotencyKey).None?
    requires TransferChecks(db.wallets, fromUserId, req) == Ok((from, to))
    requires TransferSpec(db, fromUserId, req, env) == (r, db')
    ensures WalletInvariant(db')
    ensures r.Ok? && WalletByUser(db'.wallets, fromUserId) == Some(Debited(from, r.value.yourNewBalance, req.amount))
  {
    TransferSpecIsCommit(db, fromUserId, req, env, from, to, r, db');
    CommitKeepsInvariant(db, from, to, req, TransactionCode("TRX", env.today, env.random), env.now, r.value, db');
  }

  /**
   * Repeating a successful transfer with the same key writes nothing and
   * answers with the same transaction, but reports a new balance of 0.
   */
  lemma {:induction false} TransferIdempotent(db: Db, fromUserId: nat, req: TransferRequest, env: Env, env2: Env)
    requires ValidEnv(env) && ValidEnv(env2)
    requires TxByKey(db.transactions, req.idempotencyKey).None?
    requires TransferSpec(db, fromUserId, req, env).0.Ok?
    ensures var (r, db') := TransferSpec(db, fromUserId, req, env);
      TransferSpec(db', fromUserId, req, env2) ==
        (Ok(r.value.(yourNewBalance := 0)), db')
  {
    var (from, to) := TransferChecks(db.wallets, fromUserId, req).value;
    InsertNewKey(db.transactions, TransferRecord(from, to, req, TransactionCode("TRX", env.today, env.random), env.now)
      .(id := NextId(TxIds(db.transactions))));
  }

  // ------------------------------------------------------------ adjustment

  /** The transaction row AdjustBalance inserts: only the side the sign selects names the wallet. */
  function AdjustRecord(w: Wallet, req: AdjustBalanceRequest, code: string, now: int): (t: Transaction)
    ensures t.toWalletId == (if req.amount > 0 then Some(w.id) else None)
    ensures t.fromWalletId == (if req.amount > 0 then None else Some(w.id))
    ensures t.amount == t.netAmount == req.amount && t.feeAmount == 0 && t.status == Completed
  {
    Transaction(0, code, req.idempotencyKey, Adjustment, Completed,
                if req.amount > 0 then None else Some(w.id),
                if req.amount > 0 then Some(w.id) else None,
                req.amount, 0, req.amount, Some(req.reason), None, Some(now))
  }

  function AdjustEntry(w: Wallet, txId: nat, req: AdjustBalanceRequest, code: string): LedgerEntry
  {
    LedgerEntry(0, w.id, Some(txId), if req.amount > 0 then Credit else Debit, Abs(req.amount),
                w.balance, w.balance + req.amount, "Admin adjustment: " + req.reason, Adjustment, code)
  }

  /** The ledger type AdjustBalance reports as the response's direction. */
  function EntryTypeName(t: LedgerType): string
  {
    match t
    case Credit => "CREDIT"
    case Debit => "DEBIT"
  }

  /** Service.AdjustBalance: the outcome and the database after it. The calling admin is not used. */
  function AdjustSpec(db: Db, req: AdjustBalanceRequest, env: Env): (Result<TransactionResponse, ErrorCode>, Db)
    requires ValidEnv(env)
  {
    match TxByKey(db.transactions, req.idempotencyKey)
    case Some(t) => (Ok(ToTransactionResponse(t, "", "")), db)
    case None =>
      match WalletByUser(db.wallets, req.userId)
      case None => (Err(WalletNotFound), db)
      case Some(w) =>
        if req.amount < 0 && w.balance < -req.amount then (Err(InsufficientBalance), db)
        else
          var commit := AdjustCommit(db, w, req, TransactionCode("ADJ", env.today, env.random), env.now);
          (Ok(commit.0), commit.1)
  }

  /** The writes AdjustBalance commits once its checks have passed, and its response. */
  function AdjustCommit(db: Db, w: Wallet, req: AdjustBalanceRequest, code: string, now: int): (TransactionResponse, Db)
  {
    var txId := NextId(TxIds(db.transactions));
    var t := AdjustRecord(w, req, code, now).(id := txId);
    var e := AdjustEntry(w, txId, req, code);
    (ToTransactionResponse(t, EntryTypeName(e.entryType), ""),
     db.(transactions := db.transactions + [t],
         wallets := StatsRows(db.wallets, w.id, Abs(req.amount), req.amount > 0),
         ledger := db.ledger + [e.(id := NextId(LedgerIds(db.ledger)))]))
  }

  /** Service.AdjustBalance against the live database. */
  method AdjustBalance(db: Database, adminId: nat, req: AdjustBalanceRequest, env: Env) returns (r: Result<TransactionResponse, ErrorCode>)
    requires ValidEnv(env)
    modifies db
    ensures (r, db.Snapshot()) == AdjustSpec(old(db.Snapshot()), req, env)
  {
    var existing := db.GetTransactionByIdempotencyKey(req.idempotencyKey);
    if existing.Some? {
      return Ok(ToTransactionResponse(existing.value, "", ""));
    }
    var wallet := db.GetByUserID(req.userId);
    if wallet.None? {
      return Err(WalletNotFound);
    }
    var w := wallet.value;
    if req.amount < 0 && w.balance < -req.amount {
      return Err(InsufficientBalance);
    }
    var resp := CommitAdjust(db, w, req, TransactionCode("ADJ", env.today, env.random), env.now);
    return Ok(resp);
  }

  /** The writes of AdjustBalance after its checks: the transaction, the balance update, the ledger entry. */
  method CommitAdjust(db: Database, w: Wallet, req: AdjustBalanceRequest, code: string, now: int)
    returns (resp: TransactionResponse)
    modifies db
    ensures (resp, db.Snapshot()) == AdjustCommit(old(db.Snapshot()), w, req, code, now)
  {
    var t := AdjustRecord(w, req, code, now);
    var txId := db.CreateTransaction(t);
    var isCredit := req.amount > 0;
    var absAmount := req.amount;
    if absAmount < 0 {
      absAmount := -absAmount;
    }
    db.UpdateBalanceWithStats(w.id, absAmount, isCredit);
    var e := AdjustEntry(w, txId, req, code);
    var _ := db.CreateLedgerEntry(e);
    resp := ToTransactionResponse(t.(id := txId), EntryTypeName(e.entryType), "");
  }

  /**
   * A fresh adjustment moves the points in circulation by exactly the signed
   * amount, records one consistent ledger entry whose after-balance is the
   * wallet's new balance, and names the wallet on the side the sign selects.
   */
  lemma {:induction false} AdjustEffect(db: Db, req: AdjustBalanceRequest, env: Env)
    requires ValidEnv(env) && UniqueWallets(db.wallets)
    requires TxByKey(db.transactions, req.idempotencyKey).None?
    requires AdjustSpec(db, req, env).0.Ok?
    ensures var db' := AdjustSpec(db, req, env).1;
      var w := WalletByUser(db.wallets, req.userId).value;
      TotalBalance(db'.wallets) == TotalBalance(db.wallets) + req.amount &&
      |db'.ledger| == |db.ledger| + 1 &&
      var e := db'.ledger[|db.ledger|];
      EntryConsistent(e) && e.balanceAfter == w.balance + req.amount &&
      WalletByUser(db'.wallets, req.userId).Some? &&
      WalletByUser(db'.wallets, req.userId).value.balance == e.balanceAfter &&
      var t := db'.transactions[|db.transactions|];
      (req.amount > 0 ==> t.toWalletId == Some(w.id) && t.fromWalletId.None?) &&
      (req.amount <= 0 ==> t.fromWalletId == Some(w.id) && t.toWalletId.None?)
  {
    var w := WalletByUser(db.wallets, req.userId).value;
    SingleStatsTotal(db.wallets, w.id, Abs(req.amount), req.amount > 0);
    StatsRowsUpdate(db.wallets, w, Abs(req.amount), req.amount > 0);
    assert WithStats(w, Abs(req.amount), req.amount > 0).balance == w.balance + req.amount;
  }

  /** The frozen flag plays no part in an adjustment: a frozen wallet is credited all the same. */
  lemma {:induction false} AdjustIgnoresFrozen(db: Db, req: AdjustBalanceRequest, env: Env)
    requires ValidEnv(env)
    requires TxByKey(db.transactions, req.idempotencyKey).None?
    requires WalletByUser(db.wallets, req.userId).Some? && WalletByUser(db.wallets, req.userId).value.isFrozen
    requires req.amount > 0
    ensures AdjustSpec(db, req, env).0.Ok?
  {
  }

  /** An adjustment keeps the wallet invariant: debits are refused when they would overdraw. */
  lemma {:induction false} AdjustKeepsInvariant(db: Db, req: AdjustBalanceRequest, env: Env)
    requires ValidEnv(env) && WalletInvariant(db)
    ensures WalletInvariant(AdjustSpec(db, req, env).1)
  {
    if TxByKey(db.transactions, req.idempotencyKey).None? && WalletByUser(db.wallets, req.userId).Some? {
      var w := WalletByUser(db.wallets, req.userId).value;
      if !(req.amount < 0 && w.balance < -req.amount) {
        StatsRowsNonNegative(db.wallets, w, Abs(req.amount), req.amount > 0);
        StatsRowsKeys(db.wallets, w.id, Abs(req.amount), req.amount > 0);
        var code := TransactionCode("ADJ", env.today, env.random);
        var t := AdjustRecord(w, req, code, env.now).(id := NextId(TxIds(db.transactions)));
        InsertNewKey(db.transactions, t);
        var db' := AdjustCommit(db, w, req, code, env.now).1;
        assert AdjustSpec(db, req, env).1 == db';
        assert db'.wallets == StatsRows(db.wallets, w.id, Abs(req.amount), req.amount > 0);
        assert db'.transactions == db.transactions + [t];
      }
    }
  }

  // --------------------------------------------------------------- history

  /** GetHistory's direction: DEBIT when the wallet is the sender, CREDIT otherwise. */
  function HistoryDirection(t: Transaction, walletId: nat): (d: string)
    ensures d == "DEBIT" <==> t.fromWalletId == Some(walletId)
    ensures d == "DEBIT" || d == "CREDIT"
  {
    if t.fromWalletId == Some(walletId) then "DEBIT" else "CREDIT"
  }

  /** The mapping loop of Service.GetHistory: each transaction with its direction from the wallet. */
  method HistoryResponses(txs: seq<Transaction>, walletId: nat) returns (responses: seq<TransactionResponse>)
    ensures |responses| == |txs|
    ensures forall i :: 0 <= i < |txs| ==>
      responses[i] == ToTransactionResponse(txs[i], HistoryDirection(txs[i], walletId), "")
  {
    responses := [];
    for i := 0 to |txs|
      invariant responses == seq(i, k requires 0 <= k < i => ToTransactionResponse(txs[k], HistoryDirection(txs[k], walletId), ""))
    {
      var direction := "CREDIT";
      if txs[i].fromWalletId.Some? && txs[i].fromWalletId.value == walletId {
        direction := "DEBIT";
      }
      responses := responses + [ToTransactionResponse(txs[i], direction, "")];
    }
  }

  /**
   * Service.GetHistory: one page of the caller's transactions, each with its
   * direction as seen from the caller's wallet, and the total count.
   */
  method GetHistory(db: Database, userId: nat, page: int, perPage: int)
    returns (r: Result<(seq<TransactionResponse>, nat), ErrorCode>)
    ensures r == Err(WalletNotFound) <==> WalletByUser(db.wallets, userId).None?
    ensures r == Err(InternalError) <==>
      WalletByUser(db.wallets, userId).Some? && (perPage < 0 || (page - 1) * perPage < 0)
    ensures r.Ok? ==>
      var w := WalletByUser(db.wallets, userId).value;
      r.value.1 == |WalletTransactions(db.transactions, w.id)| &&
      |r.value.0| <= perPage &&
      forall resp :: resp in r.value.0 ==>
        exists t :: t in db.transactions && Involves(t, w.id) &&
          resp == ToTransactionResponse(t, HistoryDirection(t, w.id), "")
    ensures r.Ok? ==>
      var w := WalletByUser(db.wallets, userId).value;
      var txs := Page(Newest(WalletTransactions(db.transactions, w.id)), perPage, (page - 1) * perPage);
      txs.Some? && |r.value.0| == |txs.value| &&
      forall i :: 0 <= i < |txs.value| ==>
        r.value.0[i] == ToTransactionResponse(txs.value[i], HistoryDirection(txs.value[i], w.id), "")
  {
    var wallet := db.GetByUserID(userId);
    if wallet.None? {
      return Err(WalletNotFound);
    }
    var w := wallet.value;
    var offset := (page - 1) * perPage;
    var found := db.GetTransactionsByWalletID(w.id, perPage, offset);
    if found.Err? {
      return Err(InternalError);
    }
    var (txs, total) := found.value;
    var responses := HistoryResponses(txs, w.id);
    forall resp | resp in responses
      ensures exists t :: t in db.transactions && Involves(t, w.id) && resp == ToTransactionResponse(t, HistoryDirection(t, w.id), "")
    {
      var k :| 0 <= k < |responses| && responses[k] == resp;
      assert txs[k] in txs;
    }
    return Ok((responses, total));
  }
}
