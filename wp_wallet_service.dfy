/**
 * The rewrite's wallet service: TransferPoints, CreditPoints, the wallet
 * summary, the direction of a listed transaction and wallet creation. Each
 * flow is a function from the database before to its outcome and the
 * database after, and a method that performs the repository calls in the
 * service's order and is proved to agree with it. Fresh UUIDs are passed in,
 * in the order the repository calls generate them.
 *
 * As written, neither TransferPoints nor CreditPoints changes a wallet's
 * balance: they insert a transaction row and ledger rows only. The
 * idempotency key is stored even when it is empty, so the unique index on
 * idempotency_key lets only one empty-key transaction exist. The corrected
 * flows at the end of the module apply the balance deltas and store an
 * empty key as NULL.
 */
module WpWalletService {
  import opened Wrappers
  import opened WpModels
  import opened WpTables
  import opened WpStore
  import BD = BackendDatabase
  import BT = BackendTables

  /** What TransferPoints and CreditPoints return: the new row, the stored row for a used key, or an error. */
  datatype TxOutcome = Done(tx: Transaction) | Duplicate(existing: Transaction) | Failed(err: WpError)

  /** The arguments of TransferPoints. */
  datatype TransferArgs = TransferArgs(
    senderId: string, receiverId: string, amount: int, txType: string, description: string, key: string)

  /** The arguments of CreditPoints. */
  datatype CreditArgs = CreditArgs(userId: string, amount: int, txType: string, description: string, key: string)

  // ----------------------------------------------------------- transfer

  /** The duplicate check both flows start with: skipped for an empty key. */
  function KeyReplay(ts: seq<Transaction>, key: string): (r: Option<Transaction>)
    ensures key == "" ==> r.None?
    ensures key != "" ==> r == TxByKey(ts, key)
  {
    if key == "" then None else TxByKey(ts, key)
  }

  /** The two locked wallets, or the first check that fails (no self-transfer check). */
  function TransferChecks(ws: seq<Wallet>, a: TransferArgs): (r: Result<(Wallet, Wallet), WpError>)
    ensures r.Ok? ==>
      LockedWalletByUser(ws, a.senderId) == Some(r.value.0) &&
      LockedWalletByUser(ws, a.receiverId) == Some(r.value.1) && r.value.0.balance >= a.amount
    ensures r.Err? ==> r.error == WalletNotFound || r.error == InsufficientBalance
  {
    match LockedWalletByUser(ws, a.senderId)
    case None => Err(WalletNotFound)
    case Some(sender) =>
      if sender.balance < a.amount then Err(InsufficientBalance)
      else match LockedWalletByUser(ws, a.receiverId)
        case None => Err(WalletNotFound)
        case Some(receiver) => Ok((sender, receiver))
  }

  /** The transaction row TransferPoints inserts; the key column holds the key even when it is empty. */
  function TransferRecord(a: TransferArgs, id: string): Transaction
  {
    Transaction(id, Some(a.senderId), Some(a.receiverId), a.amount, a.txType, "SUCCESS", Some(a.key), Some(a.description))
  }

  function DebitLedger(w: Wallet, txId: string, amount: int, description: string, id: string): Ledger
  {
    Ledger(id, w.id, Some(txId), "DEBIT", amount, w.balance, w.balance - amount, Some(description))
  }

  function CreditLedger(w: Wallet, txId: string, amount: int, description: string, id: string): Ledger
  {
    Ledger(id, w.id, Some(txId), "CREDIT", amount, w.balance, w.balance + amount, Some(description))
  }

  /** The inserts of TransferPoints after its checks; a refused insert rolls everything back. */
  function TransferCommit(db: WpDb, sender: Wallet, receiver: Wallet, a: TransferArgs, ids: seq<string>): (TxOutcome, WpDb)
    requires |ids| >= 3
  {
    var t := TransferRecord(a, ids[0]);
    if KeyTaken(db.transactions, t) then (Failed(DuplicateEntry), db)
    else
      (Done(t), db.(transactions := db.transactions + [t],
                    ledgers := db.ledgers + [DebitLedger(sender, ids[0], a.amount, a.description, ids[1]),
                                             CreditLedger(receiver, ids[0], a.amount, a.description, ids[2])]))
  }

  /** TransferPoints as written: the outcome and the database after it. */
  function TransferPointsSpec(db: WpDb, a: TransferArgs, ids: seq<string>): (TxOutcome, WpDb)
    requires |ids| >= 3
  {
    match KeyReplay(db.transactions, a.key)
    case Some(t) => (Duplicate(t), db)
    case None =>
      match TransferChecks(db.wallets, a)
      case Err(e) => (Failed(e), db)
      case Ok((sender, receiver)) => TransferCommit(db, sender, receiver, a, ids)
  }

  /** TransferPoints against the live database, in the service's order of calls. */
  method TransferPoints(store: Store, a: TransferArgs, ids: seq<string>) returns (r: TxOutcome)
    requires |ids| >= 3
    modifies store
    ensures (r, store.Snapshot()) == TransferPointsSpec(old(store.Snapshot()), a, ids)
  {
    if a.key != "" {
      var existing := store.GetTransactionByIdempotencyKey(a.key);
      if existing.Some? {
        return Duplicate(existing.value);
      }
    }
    var senderWallet := store.GetByUserIDForUpdate(a.senderId);
    if senderWallet.None? {
      return Failed(WalletNotFound);
    }
    var sender := senderWallet.value;
    if sender.balance < a.amount {
      return Failed(InsufficientBalance);
    }
    var receiverWallet := store.GetByUserIDForUpdate(a.receiverId);
    if receiverWallet.None? {
      return Failed(WalletNotFound);
    }
    assert TransferChecks(store.Snapshot().wallets, a) == Ok((sender, receiverWallet.value));
    r := CommitTransfer(store, sender, receiverWallet.value, a, ids);
  }

  /** The inserts of TransferPoints inside its database transaction. */
  method CommitTransfer(store: Store, sender: Wallet, receiver: Wallet, a: TransferArgs, ids: seq<string>)
    returns (r: TxOutcome)
    requires |ids| >= 3
    modifies store
    ensures (r, store.Snapshot()) == TransferCommit(old(store.Snapshot()), sender, receiver, a, ids)
  {
    var saved := store.Snapshot();
    var ok := store.CreateTransaction(TransferRecord(a, ""), ids[0]);
    if !ok {
      store.Rollback(saved);
      return Failed(DuplicateEntry);
    }
    store.CreateLedgerEntry(DebitLedger(sender, ids[0], a.amount, a.description, ""), ids[1]);
    store.CreateLedgerEntry(CreditLedger(receiver, ids[0], a.amount, a.description, ""), ids[2]);
    r := Done(TransferRecord(a, ids[0]));
    assert !KeyTaken(saved.transactions, TransferRecord(a, ids[0]));
    assert store.transactions == saved.transactions + [TransferRecord(a, ids[0])];
    assert store.ledgers == saved.ledgers + [DebitLedger(sender, ids[0], a.amount, a.description, ids[1]),
                                             CreditLedger(receiver, ids[0], a.amount, a.description, ids[2])];
  }

  /** A non-empty key already on file returns the stored row and writes nothing; an empty key is never looked up. */
  lemma {:induction false} TransferReplay(db: WpDb, a: TransferArgs, ids: seq<string>)
    requires |ids| >= 3
    ensures a.key != "" && TxByKey(db.transactions, a.key).Some? ==>
      TransferPointsSpec(db, a, ids) == (Duplicate(TxByKey(db.transactions, a.key).value), db)
    ensures TransferPointsSpec(db, a, ids).0.Duplicate? ==> a.key != ""
  {
  }

  /**
   * Each rejection, with the condition that decides it, in the order they
   * are checked; a rejected transfer writes nothing. A refused insert needs
   * the key to be empty, since a non-empty key on file was answered before.
   */
  lemma {:induction false} TransferRejections(db: WpDb, a: TransferArgs, ids: seq<string>)
    requires |ids| >= 3
    requires KeyReplay(db.transactions, a.key).None?
    ensures var (r, db') := TransferPointsSpec(db, a, ids);
      var s := LockedWalletByUser(db.wallets, a.senderId);
      var v := LockedWalletByUser(db.wallets, a.receiverId);
      (r == Failed(InsufficientBalance) <==> s.Some? && s.value.balance < a.amount) &&
      (r == Failed(WalletNotFound) <==> s.None? || (s.value.balance >= a.amount && v.None?)) &&
      (r == Failed(DuplicateEntry) ==> a.key == "") &&
      (r.Failed? ==> db' == db) &&
      (r.Done? <==> s.Some? && s.value.balance >= a.amount && v.Some? && !KeyTaken(db.transactions, TransferRecord(a, ids[0])))
  {
  }

  /** There is no self-transfer check: a user with enough balance may pay themself. */
  lemma {:induction false} SelfTransferAccepted(db: WpDb, a: TransferArgs, ids: seq<string>)
    requires |ids| >= 3 && a.senderId == a.receiverId && a.key != ""
    requires TxByKey(db.transactions, a.key).None?
    requires LockedWalletByUser(db.wallets, a.senderId).Some?
    requires LockedWalletByUser(db.wallets, a.senderId).value.balance >= a.amount
    ensures TransferPointsSpec(db, a, ids).0.Done?
  {
    assert !KeyTaken(db.transactions, TransferRecord(a, ids[0]));
  }

  /**
   * A completed transfer inserts one SUCCESS transaction from sender to
   * receiver and two ledger rows that reference it: a debit of the sender
   * (after = before - amount) and a credit of the receiver (after = before +
   * amount). No wallet row changes, nor does any other table.
   */
  lemma {:induction false} TransferWrites(db: WpDb, a: TransferArgs, ids: seq<string>)
    requires |ids| >= 3
    requires TransferPointsSpec(db, a, ids).0.Done?
    ensures var (r, db') := TransferPointsSpec(db, a, ids);
      var s := LockedWalletByUser(db.wallets, a.senderId).value;
      var v := LockedWalletByUser(db.wallets, a.receiverId).value;
      var t := r.tx;
      db'.transactions == db.transactions + [t] &&
      t.id == ids[0] && t.senderId == Some(a.senderId) && t.receiverId == Some(a.receiverId) &&
      t.amount == a.amount && t.status == "SUCCESS" && t.idempotencyKey == Some(a.key) &&
      |db'.ledgers| == |db.ledgers| + 2 && db'.ledgers[..|db.ledgers|] == db.ledgers &&
      var d := db'.ledgers[|db.ledgers|];
      var c := db'.ledgers[|db.ledgers| + 1];
      d.walletId == s.id && d.kind == "DEBIT" && d.transactionId == Some(t.id) &&
      d.amount == a.amount && d.balanceBefore == s.balance && d.balanceAfter == s.balance - a.amount &&
      c.walletId == v.id && c.kind == "CREDIT" && c.transactionId == Some(t.id) &&
      c.amount == a.amount && c.balanceBefore == v.balance && c.balanceAfter == v.balance + a.amount &&
      db'.wallets == db.wallets &&
      db' == db.(transactions := db'.transactions, ledgers := db'.ledgers)
  {
  }

  /**
   * Because no balance is written, the credit row's balance_after disagrees
   * with the receiver's wallet for any non-zero amount, and the sender's
   * balance check sees the old balance again: the same points can be sent
   * once more.
   */
  lemma {:induction false} TransferLeavesBalances(db: WpDb, a: TransferArgs, ids: seq<string>, next: TransferArgs)
    requires |ids| >= 3 && a.amount != 0
    requires TransferPointsSpec(db, a, ids).0.Done?
    ensures var db' := TransferPointsSpec(db, a, ids).1;
      var v := LockedWalletByUser(db'.wallets, a.receiverId).value;
      db'.ledgers[|db.ledgers| + 1].balanceAfter != v.balance &&
      TransferChecks(db'.wallets, next) == TransferChecks(db.wallets, next)
  {
    TransferWrites(db, a, ids);
  }

  /**
   * Two empty-key requests: once an empty-key transfer is stored, every later
   * empty-key transfer whose checks pass is refused by the unique index.
   */
  lemma {:induction false} EmptyKeyTransferOnlyOnce(db: WpDb, a: TransferArgs, ids: seq<string>, b: TransferArgs, ids2: seq<string>)
    requires |ids| >= 3 && |ids2| >= 3 && a.key == "" && b.key == ""
    requires TransferPointsSpec(db, a, ids).0.Done?
    requires TransferChecks(TransferPointsSpec(db, a, ids).1.wallets, b).Ok?
    ensures var db' := TransferPointsSpec(db, a, ids).1;
      TransferPointsSpec(db', b, ids2) == (Failed(DuplicateEntry), db')
  {
    var db' := TransferPointsSpec(db, a, ids).1;
    TransferWrites(db, a, ids);
    var t := TransferRecord(a, ids[0]);
    assert t in db'.transactions && t.idempotencyKey == Some("");
    assert TxByKey(db'.transactions, "").Some?;
    assert KeyTaken(db'.transactions, TransferRecord(b, ids2[0]));
  }

  // ------------------------------------------------------------- credit

  function CreditRecord(a: CreditArgs, id: string): Transaction
  {
    Transaction(id, None, Some(a.userId), a.amount, a.txType, "SUCCESS", Some(a.key), Some(a.description))
  }

  /** CreditPoints as written: the outcome and the database after it. */
  function CreditPointsSpec(db: WpDb, a: CreditArgs, ids: seq<string>): (TxOutcome, WpDb)
    requires |ids| >= 2
  {
    match KeyReplay(db.transactions, a.key)
    case Some(t) => (Duplicate(t), db)
    case None =>
      match LockedWalletByUser(db.wallets, a.userId)
      case None => (Failed(WalletNotFound), db)
      case Some(w) =>
        var t := CreditRecord(a, ids[0]);
        if KeyTaken(db.transactions, t) then (Failed(DuplicateEntry), db)
        else (Done(t), Credited(db, w, a, ids))
  }

  /** The store after a credit: the transaction row and the wallet's credit ledger row appended. */
  function Credited(db: WpDb, w: Wallet, a: CreditArgs, ids: seq<string>): WpDb
    requires |ids| >= 2
  {
    db.(transactions := db.transactions + [CreditRecord(a, ids[0])],
        ledgers := db.ledgers + [CreditLedger(w, ids[0], a.amount, a.description, ids[1])])
  }

  /** CreditPoints against the live database, in the service's order of calls. */
  method CreditPoints(store: Store, a: CreditArgs, ids: seq<string>) returns (r: TxOutcome)
    requires |ids| >= 2
    modifies store
    ensures (r, store.Snapshot()) == CreditPointsSpec(old(store.Snapshot()), a, ids)
  {
    if a.key != "" {
      var existing := store.GetTransactionByIdempotencyKey(a.key);
      if existing.Some? {
        return Duplicate(existing.value);
      }
    }
    var saved := store.Snapshot();
    var wallet := store.GetByUserIDForUpdate(a.userId);
    if wallet.None? {
      return Failed(WalletNotFound);
    }
    var ok := WriteCredit(store, wallet.value, a, ids);
    if !ok {
      store.Rollback(saved);
      return Failed(DuplicateEntry);
    }
    r := Done(CreditRecord(a, ids[0]));
  }

  /**
   * The writes of a credit: the transaction row, refused when its key is
   * taken, then the ledger row.
   */
  method WriteCredit(store: Store, w: Wallet, a: CreditArgs, ids: seq<string>) returns (ok: bool)
    requires |ids| >= 2
    modifies store
    ensures ok <==> !KeyTaken(old(store.transactions), CreditRecord(a, ids[0]))
    ensures store.Snapshot() == if ok then Credited(old(store.Snapshot()), w, a, ids) else old(store.Snapshot())
  {
    ok := store.CreateTransaction(CreditRecord(a, ""), ids[0]);
    if ok {
      store.CreateLedgerEntry(CreditLedger(w, ids[0], a.amount, a.description, ""), ids[1]);
    }
  }

  /**
   * The outcomes of CreditPoints: a used non-empty key answers with the
   * stored row, a missing wallet fails, and otherwise one transaction with
   * only the receiver set and one CREDIT ledger row referencing it are
   * inserted; no wallet row changes.
   */
  lemma {:induction false} CreditOutcomes(db: WpDb, a: CreditArgs, ids: seq<string>)
    requires |ids| >= 2
    ensures var (r, db') := CreditPointsSpec(db, a, ids);
      var w := LockedWalletByUser(db.wallets, a.userId);
      (r.Duplicate? <==> a.key != "" && TxByKey(db.transactions, a.key).Some?) &&
      (r == Failed(WalletNotFound) <==> KeyReplay(db.transactions, a.key).None? && w.None?) &&
      (r.Failed? || r.Duplicate? ==> db' == db) &&
      (r.Done? ==>
        db'.transactions == db.transactions + [r.tx] &&
        r.tx.senderId.None? && r.tx.receiverId == Some(a.userId) && r.tx.amount == a.amount &&
        db'.ledgers == db.ledgers + [CreditLedger(w.value, r.tx.id, a.amount, a.description, ids[1])] &&
        db'.ledgers[|db.ledgers|].kind == "CREDIT" &&
        db'.ledgers[|db.ledgers|].balanceAfter == w.value.balance + a.amount &&
        db'.wallets == db.wallets)
  {
  }

  /** The direction a listed transaction shows: DEBIT when the user sent it, CREDIT otherwise. */
  function Direction(t: Transaction, userId: string): (d: string)
    ensures d == "DEBIT" <==> t.senderId == Some(userId)
    ensures d == "DEBIT" || d == "CREDIT"
  {
    if t.senderId == Some(userId) then "DEBIT" else "CREDIT"
  }

  /**
   * A completed transfer is listed for both parties, as DEBIT for the sender
   * and, when the receiver is someone else, as CREDIT for the receiver; a
   * credit is listed as CREDIT for its user.
   */
  lemma {:induction false} ListedDirections(db: WpDb, a: TransferArgs, ids: seq<string>, c: CreditArgs, ids2: seq<string>)
    requires |ids| >= 3 && |ids2| >= 2
    ensures var r := TransferPointsSpec(db, a, ids).0;
      r.Done? ==>
        ForUser(r.tx, a.senderId, "") && ForUser(r.tx, a.receiverId, "") &&
        Direction(r.tx, a.senderId) == "DEBIT" &&
        (a.receiverId != a.senderId ==> Direction(r.tx, a.receiverId) == "CREDIT")
    ensures var r := CreditPointsSpec(db, c, ids2).0;
      r.Done? ==> ForUser(r.tx, c.userId, "") && Direction(r.tx, c.userId) == "CREDIT"
  {
  }

  // ------------------------------------------------------------ summary

  /** The amounts of the CREDIT rows. */
  function CreditSum(ls: seq<Ledger>): int
  {
    if ls == [] then 0
    else CreditSum(ls[..|ls| - 1]) + (if ls[|ls| - 1].kind == "CREDIT" then ls[|ls| - 1].amount else 0)
  }

  /** The amounts of every other row, whatever its type. */
  function DebitSum(ls: seq<Ledger>): int
  {
    if ls == [] then 0
    else DebitSum(ls[..|ls| - 1]) + (if ls[|ls| - 1].kind == "CREDIT" then 0 else ls[|ls| - 1].amount)
  }

  function AmountSum(ls: seq<Ledger>): int
  {
    if ls == [] then 0 else AmountSum(ls[..|ls| - 1]) + ls[|ls| - 1].amount
  }

  /** Every row is counted once, on one side or the other. */
  lemma {:induction false} SumsSplit(ls: seq<Ledger>)
    ensures CreditSum(ls) + DebitSum(ls) == AmountSum(ls)
  {
    if ls != [] {
      SumsSplit(ls[..|ls| - 1]);
    }
  }

  datatype WalletSummary = WalletSummary(
    wallet: Wallet, totalCredit: int, totalDebit: int, transactionCount: nat, lastTransaction: Option<Transaction>)

  /** The ledger rows the summary adds up: page 1 of the wallet's rows, newest first, limit 1000. */
  function SummaryWindow(db: WpDb, w: Wallet): seq<Ledger>
  {
    PageRows(BD.Newest(WalletLedgers(db.ledgers, w.id)), 0, 1000)
  }

  /** GetWalletSummary: totals over the newest 1000 ledger rows, the transaction count and the latest one. */
  function WalletSummarySpec(db: WpDb, userId: string): (r: Result<WalletSummary, WpError>)
    ensures r.Err? <==> WalletByUser(db.wallets, userId).None?
  {
    match WalletByUser(db.wallets, userId)
    case None => Err(WalletNotFound)
    case Some(w) =>
      var mine := UserTransactions(db.transactions, userId, "");
      var window := SummaryWindow(db, w);
      Ok(WalletSummary(w, CreditSum(window), DebitSum(window), |mine|,
                       if mine == [] then None else Some(BD.Newest(mine)[0])))
  }

  /** The accumulation loop of GetWalletSummary: CREDIT rows on one side, every other row on the other. */
  method AddUpLedgers(ledgers: seq<Ledger>) returns (totalCredit: int, totalDebit: int)
    ensures totalCredit == CreditSum(ledgers) && totalDebit == DebitSum(ledgers)
  {
    totalCredit, totalDebit := 0, 0;
    for i := 0 to |ledgers|
      invariant totalCredit == CreditSum(ledgers[..i])
      invariant totalDebit == DebitSum(ledgers[..i])
    {
      assert ledgers[..i + 1][..i] == ledgers[..i];
      if ledgers[i].kind == "CREDIT" {
        totalCredit := totalCredit + ledgers[i].amount;
      } else {
        totalDebit := totalDebit + ledgers[i].amount;
      }
    }
    assert ledgers[..|ledgers|] == ledgers;
  }

  /** GetWalletSummary against the live database. */
  method GetWalletSummary(store: Store, userId: string) returns (r: Result<WalletSummary, WpError>)
    ensures r == WalletSummarySpec(store.Snapshot(), userId)
  {
    var wallet := store.GetByUserID(userId);
    if wallet.None? {
      return Err(WalletNotFound);
    }
    var w := wallet.value;
    var transactions, total := store.GetTransactionsByUserID(userId, 1, 1, "");
    var ledgers, _ := store.GetLedgersByWalletID(w.id, 1, 1000);
    var totalCredit, totalDebit := AddUpLedgers(ledgers);
    LatestIsFirstOfPage(UserTransactions(store.transactions, userId, ""), transactions);
    r := Ok(WalletSummary(w, totalCredit, totalDebit, total, if |transactions| > 0 then Some(transactions[0]) else None));
  }

  lemma {:induction false} LatestIsFirstOfPage(mine: seq<Transaction>, rows: seq<Transaction>)
    requires rows == PageRows(BD.Newest(mine), 0, 1)
    ensures (|rows| > 0) == (mine != [])
    ensures |rows| > 0 ==> rows[0] == BD.Newest(mine)[0]
  {
  }

  // ------------------------------------------------------------- create

  /** CreateWalletForUser: a wallet with balance 0 and locked balance 0; one per user. */
  function CreateWalletSpec(db: WpDb, userId: string, id: string): (Result<Wallet, WpError>, WpDb)
  {
    var w := Wallet(id, userId, 0, 0);
    if WalletByUser(db.wallets, userId).Some? then (Err(DuplicateEntry), db)
    else (Ok(w), db.(wallets := db.wallets + [w]))
  }

  method CreateWalletForUser(store: Store, userId: string, id: string) returns (r: Result<Wallet, WpError>)
    modifies store
    ensures (r, store.Snapshot()) == CreateWalletSpec(old(store.Snapshot()), userId, id)
  {
    var ok := store.CreateWallet(Wallet("", userId, 0, 0), id);
    if !ok {
      return Err(DuplicateEntry);
    }
    r := Ok(Wallet(id, userId, 0, 0));
  }

  /**
   * A new wallet starts empty and is what the user's lookup then finds; a
   * second wallet for the same user is refused and changes nothing.
   */
  lemma {:induction false} CreateWalletEffect(db: WpDb, userId: string, id: string, id2: string)
    requires WalletByUser(db.wallets, userId).None?
    ensures var (r, db') := CreateWalletSpec(db, userId, id);
      r.Ok? && r.value.balance == 0 && r.value.lockedBalance == 0 &&
      WalletByUser(db'.wallets, userId) == Some(r.value) &&
      CreateWalletSpec(db', userId, id2) == (Err(DuplicateEntry), db')
  {
    var (r, db') := CreateWalletSpec(db, userId, id);
    FirstAppendMiss(db.wallets, r.value, userId);
  }

  lemma {:induction false} FirstAppendMiss(ws: seq<Wallet>, w: Wallet, userId: string)
    requires WalletByUser(ws, userId).None? && w.userId == userId
    ensures WalletByUser(ws + [w], userId) == Some(w)
  {
    assert w in ws + [w];
  }

  // ---------------------------------------------------------- corrected

  /** The corrected key column: an empty key is stored as NULL, which the unique index ignores. */
  function StoredKey(key: string): (k: Option<string>)
    ensures k.None? <==> key == ""
  {
    if key == "" then None else Some(key)
  }

  /**
   * TransferPoints as intended: the same checks and rows, the key stored as
   * NULL when empty, and the two balance updates applied, so the ledger rows
   * describe the wallets as they are afterwards.
   */
  function TransferPointsCorrected(db: WpDb, a: TransferArgs, ids: seq<string>): (TxOutcome, WpDb)
    requires |ids| >= 3
  {
    match KeyReplay(db.transactions, a.key)
    case Some(t) => (Duplicate(t), db)
    case None =>
      match TransferChecks(db.wallets, a)
      case Err(e) => (Failed(e), db)
      case Ok((sender, receiver)) => CorrectedCommit(db, sender, receiver, a, ids)
  }

  /** The corrected inserts and the two balance updates. */
  function CorrectedCommit(db: WpDb, sender: Wallet, receiver: Wallet, a: TransferArgs, ids: seq<string>): (TxOutcome, WpDb)
    requires |ids| >= 3
  {
    var t := TransferRecord(a, ids[0]).(idempotencyKey := StoredKey(a.key));
    if KeyTaken(db.transactions, t) then (Failed(DuplicateEntry), db)
    else
      (Done(t), db.(transactions := db.transactions + [t],
                    wallets := Moved(db.wallets, sender, receiver, a.amount),
                    ledgers := db.ledgers + [DebitLedger(sender, ids[0], a.amount, a.description, ids[1]),
                                             CreditLedger(receiver, ids[0], a.amount, a.description, ids[2])]))
  }

  /**
   * The corrected transfer moves the amount: the sum of balances is kept, the
   * sender loses the amount and the receiver gains it, exactly as the two
   * ledger rows say.
   */
  lemma {:induction false} CorrectedTransferMoves(db: WpDb, a: TransferArgs, ids: seq<string>, s: Wallet, v: Wallet)
    requires |ids| >= 3 && UniqueWallets(db.wallets) && a.senderId != a.receiverId
    requires TransferChecks(db.wallets, a) == Ok((s, v))
    requires TransferPointsCorrected(db, a, ids).0.Done?
    ensures var db' := TransferPointsCorrected(db, a, ids).1;
      TotalBalance(db'.wallets) == TotalBalance(db.wallets) &&
      WalletByUser(db'.wallets, a.senderId) == Some(s.(balance := s.balance - a.amount)) &&
      WalletByUser(db'.wallets, a.receiverId) == Some(v.(balance := v.balance + a.amount)) &&
      db'.ledgers[|db.ledgers|].balanceAfter == s.balance - a.amount &&
      db'.ledgers[|db.ledgers| + 1].balanceAfter == v.balance + a.amount
  {
    CommitMoves(db, s, v, a, ids);
  }

  lemma {:induction false} CommitMoves(db: WpDb, s: Wallet, v: Wallet, a: TransferArgs, ids: seq<string>)
    requires |ids| >= 3 && UniqueWallets(db.wallets) && s in db.wallets && v in db.wallets && s.userId != v.userId
    requires CorrectedCommit(db, s, v, a, ids).0.Done?
    ensures var db' := CorrectedCommit(db, s, v, a, ids).1;
      TotalBalance(db'.wallets) == TotalBalance(db.wallets) &&
      WalletByUser(db'.wallets, s.userId) == Some(s.(balance := s.balance - a.amount)) &&
      WalletByUser(db'.wallets, v.userId) == Some(v.(balance := v.balance + a.amount)) &&
      db'.ledgers[|db.ledgers|].balanceAfter == s.balance - a.amount &&
      db'.ledgers[|db.ledgers| + 1].balanceAfter == v.balance + a.amount
  {
    MoveEffect(db.wallets, s, v, a.amount);
  }

  /** The corrected balance updates: the sender's row loses the amount, the receiver's gains it. */
  function Moved(ws: seq<Wallet>, sender: Wallet, receiver: Wallet, amount: int): seq<Wallet>
  {
    AddRows(AddRows(ws, sender.id, -amount), receiver.id, amount)
  }

  /** The two deltas on a table of unique wallets: the sum is kept and each party finds its adjusted row. */
  lemma {:induction false} MoveEffect(ws: seq<Wallet>, s: Wallet, v: Wallet, amount: int)
    requires UniqueWallets(ws) && s in ws && v in ws && s.userId != v.userId
    ensures var ws' := Moved(ws, s, v, amount);
      TotalBalance(ws') == TotalBalance(ws) &&
      WalletByUser(ws', s.userId) == Some(s.(balance := s.balance - amount)) &&
      WalletByUser(ws', v.userId) == Some(v.(balance := v.balance + amount))
  {
    MoveConserves(ws, s, v, amount);
    MovedLookup(ws, s, v, amount);
  }

  /** In a table of unique wallets, after the two deltas each party's lookup finds its adjusted row. */
  lemma {:induction false} MovedLookup(ws: seq<Wallet>, s: Wallet, v: Wallet, amount: int)
    requires UniqueWallets(ws) && s in ws && v in ws && s.userId != v.userId
    ensures var ws' := AddRows(AddRows(ws, s.id, -amount), v.id, amount);
      WalletByUser(ws', s.userId) == Some(s.(balance := s.balance - amount)) &&
      WalletByUser(ws', v.userId) == Some(v.(balance := v.balance + amount))
  {
    var ws' := AddRows(AddRows(ws, s.id, -amount), v.id, amount);
    var i :| 0 <= i < |ws| && ws[i] == s;
    var j :| 0 <= j < |ws| && ws[j] == v;
    assert s.id != v.id;
    assert forall k :: 0 <= k < |ws| ==> ws'[k].userId == ws[k].userId;
    assert ws'[i] == s.(balance := s.balance - amount);
    assert ws'[j] == v.(balance := v.balance + amount);
    UniqueUserLookup(ws', i);
    UniqueUserLookup(ws', j);
  }

  /** When user ids are unique, the lookup of row k's user finds row k. */
  lemma {:induction false} UniqueUserLookup(ws: seq<Wallet>, k: nat)
    requires k < |ws|
    requires forall i, j :: 0 <= i < j < |ws| ==> ws[i].userId != ws[j].userId
    ensures WalletByUser(ws, ws[k].userId) == Some(ws[k])
  {
    var r := WalletByUser(ws, ws[k].userId);
    assert ws[k] in ws;
    var j :| 0 <= j < |ws| && ws[j] == r.value;
  }

  /**
   * With the empty key stored as NULL, empty-key transfers never collide: a
   * transfer whose checks pass is completed, whatever was stored before.
   */
  lemma {:induction false} CorrectedEmptyKeyRepeats(db: WpDb, a: TransferArgs, ids: seq<string>)
    requires |ids| >= 3 && a.key == ""
    requires TransferChecks(db.wallets, a).Ok?
    ensures TransferPointsCorrected(db, a, ids).0.Done?
  {
  }

  /** CreditPoints as intended: the key stored as NULL when empty and the balance raised by the amount. */
  function CreditPointsCorrected(db: WpDb, a: CreditArgs, ids: seq<string>): (TxOutcome, WpDb)
    requires |ids| >= 2
  {
    match KeyReplay(db.transactions, a.key)
    case Some(t) => (Duplicate(t), db)
    case None =>
      match LockedWalletByUser(db.wallets, a.userId)
      case None => (Failed(WalletNotFound), db)
      case Some(w) =>
        var t := CreditRecord(a, ids[0]).(idempotencyKey := StoredKey(a.key));
        if KeyTaken(db.transactions, t) then (Failed(DuplicateEntry), db)
        else (Done(t), db.(transactions := db.transactions + [t],
                           wallets := AddRows(db.wallets, w.id, a.amount),
                           ledgers := db.ledgers + [CreditLedger(w, ids[0], a.amount, a.description, ids[1])]))
  }

  /** The corrected credit raises the sum of balances by exactly the amount, as its ledger row says. */
  lemma {:induction false} CorrectedCreditRaises(db: WpDb, a: CreditArgs, ids: seq<string>, o: TxOutcome, db': WpDb)
    requires |ids| >= 2 && UniqueWallets(db.wallets)
    requires CreditPointsCorrected(db, a, ids) == (o, db') && o.Done?
    ensures LockedWalletByUser(db.wallets, a.userId).Some?
    ensures TotalBalance(db'.wallets) == TotalBalance(db.wallets) + a.amount
    ensures db'.ledgers[|db.ledgers|].balanceAfter == LockedWalletByUser(db.wallets, a.userId).value.balance + a.amount
  {
    var w := LockedWalletByUser(db.wallets, a.userId).value;
    assert db'.wallets == AddRows(db.wallets, w.id, a.amount);
    assert db'.ledgers == db.ledgers + [CreditLedger(w, ids[0], a.amount, a.description, ids[1])];
    CountIdMember(db.wallets, w);
    AddRowsTotalOne(db.wallets, w.id, a.amount);
  }
}
