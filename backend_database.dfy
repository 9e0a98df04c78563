/**
 * The backend's live MySQL database and the repository statements that read
 * and write it (wallet, qr, product and mission repositories). Locked reads
 * (SELECT ... FOR UPDATE) read the same row as plain reads in this sequential
 * model. Each write is tied to the row function of BackendTables that states
 * its effect.
 */
module BackendDatabase {
  import opened Wrappers
  import opened BackendEntities
  import opened BackendTables

  /**
   * LIMIT/OFFSET paging; MySQL rejects a negative limit or offset. A page is
   * the run of at most `limit` rows starting at row `offset`.
   */
  function Page<T>(rows: seq<T>, limit: int, offset: int): (r: Option<seq<T>>)
    ensures r.None? <==> limit < 0 || offset < 0
    ensures r.Some? ==> |r.value| <= limit && forall x :: x in r.value ==> x in rows
    ensures r.Some? ==> |r.value| == if offset >= |rows| then 0 else if limit <= |rows| - offset then limit else |rows| - offset
    ensures r.Some? ==> forall i :: 0 <= i < |r.value| ==> r.value[i] == rows[offset + i]
  {
    if limit < 0 || offset < 0 then None
    else if offset >= |rows| then Some([])
    else if offset + limit >= |rows| then Some(rows[offset..])
    else Some(rows[offset..offset + limit])
  }

  /** ORDER BY created_at DESC over rows stored in insertion order. */
  function Newest<T>(rows: seq<T>): (r: seq<T>)
    ensures |r| == |rows|
    ensures forall i :: 0 <= i < |rows| ==> r[i] == rows[|rows| - 1 - i]
  {
    if rows == [] then [] else Newest(rows[1..]) + [rows[0]]
  }

  /**
   * ORDER BY submitted_at DESC: a may precede b. MySQL sorts NULL below every
   * time, so a log that was never submitted comes after every submitted one.
   */
  predicate NoEarlier(a: Option<int>, b: Option<int>)
  {
    b.None? || (a.Some? && a.value >= b.value)
  }

  /** Rows in ORDER BY submitted_at DESC order. */
  predicate SubmittedDesc(ls: seq<MissionLog>)
  {
    forall i, j :: 0 <= i < j < |ls| ==> NoEarlier(ls[i].submittedAt, ls[j].submittedAt)
  }

  /** Places a log before the first row it is not earlier than. */
  function InsertBySubmitted(l: MissionLog, ls: seq<MissionLog>): (r: seq<MissionLog>)
    ensures multiset(r) == multiset(ls) + multiset{l}
  {
    if ls == [] then [l]
    else if NoEarlier(l.submittedAt, ls[0].submittedAt) then [l] + ls
    else
      assert ls == [ls[0]] + ls[1..];
      [ls[0]] + InsertBySubmitted(l, ls[1..])
  }

  /** Inserting into sorted rows keeps them sorted. */
  lemma {:induction false} InsertSorted(l: MissionLog, ls: seq<MissionLog>)
    requires SubmittedDesc(ls)
    ensures SubmittedDesc(InsertBySubmitted(l, ls))
  {
    var r := InsertBySubmitted(l, ls);
    if ls == [] {
    } else if NoEarlier(l.submittedAt, ls[0].submittedAt) {
      forall i, j | 0 <= i < j < |r| ensures NoEarlier(r[i].submittedAt, r[j].submittedAt) {
        if i == 0 {
          assert NoEarlier(ls[0].submittedAt, ls[j - 1].submittedAt) || j == 1;
        }
      }
    } else {
      var rest := InsertBySubmitted(l, ls[1..]);
      InsertSorted(l, ls[1..]);
      forall i, j | 0 <= i < j < |r| ensures NoEarlier(r[i].submittedAt, r[j].submittedAt) {
        if i == 0 {
          var y := rest[j - 1];
          assert y in multiset(rest);
          if y != l {
            assert y in multiset(ls[1..]);
            var k :| 0 <= k < |ls[1..]| && ls[1..][k] == y;
            assert ls[k + 1] == y;
          }
        } else {
          assert r[i] == rest[i - 1] && r[j] == rest[j - 1];
        }
      }
    }
  }

  /** The rows sorted by submitted_at, latest first, never-submitted last. */
  function SortBySubmitted(ls: seq<MissionLog>): (r: seq<MissionLog>)
    ensures multiset(r) == multiset(ls)
    ensures SubmittedDesc(r)
  {
    if ls == [] then []
    else
      assert ls == [ls[0]] + ls[1..];
      InsertSorted(ls[0], SortBySubmitted(ls[1..]));
      InsertBySubmitted(ls[0], SortBySubmitted(ls[1..]))
  }

  /** The transactions the wallet takes part in: from_wallet_id = ? OR to_wallet_id = ? */
  predicate Involves(t: Transaction, walletId: nat)
  {
    t.fromWalletId == Some(walletId) || t.toWalletId == Some(walletId)
  }

  /** The wallet's transactions in insertion order. */
  function WalletTransactions(txs: seq<Transaction>, walletId: nat): (r: seq<Transaction>)
    ensures forall t :: t in r <==> t in txs && Involves(t, walletId)
  {
    Filter(txs, (t: Transaction) => Involves(t, walletId))
  }

  /** The logs of the mission in insertion order. */
  function MissionLogs(ls: seq<MissionLog>, missionId: nat): (r: seq<MissionLog>)
    ensures forall l :: l in r <==> l in ls && l.missionId == missionId
  {
    Filter(ls, (l: MissionLog) => l.missionId == missionId)
  }

  /** The codes made by the creator in insertion order. */
  function CreatorQrs(qrs: seq<QrCode>, creatorId: nat): (r: seq<QrCode>)
    ensures forall q :: q in r <==> q in qrs && q.creatorId == creatorId
  {
    Filter(qrs, (q: QrCode) => q.creatorId == creatorId)
  }

  class Database {
    var wallets: seq<Wallet>
    var transactions: seq<Transaction>
    var ledger: seq<LedgerEntry>
    var qrCodes: seq<QrCode>
    var products: seq<Product>
    var orders: seq<Order>
    var missions: seq<Mission>
    var missionLogs: seq<MissionLog>

    /** The database as a value. */
    function Snapshot(): Db
      reads this
    {
      Db(wallets, transactions, ledger, qrCodes, products, orders, missions, missionLogs)
    }

    /** tx.Rollback(): every write since `saved` was taken is undone. */
    method Rollback(saved: Db)
      modifies this
      ensures Snapshot() == saved
    {
      wallets, transactions, ledger := saved.wallets, saved.transactions, saved.ledger;
      qrCodes, products, orders := saved.qrCodes, saved.products, saved.orders;
      missions, missionLogs := saved.missions, saved.missionLogs;
    }

    constructor (db: Db)
      ensures Snapshot() == db
    {
      wallets, transactions, ledger := db.wallets, db.transactions, db.ledger;
      qrCodes, products, orders := db.qrCodes, db.products, db.orders;
      missions, missionLogs := db.missions, db.missionLogs;
    }

    // ------------------------------------------------ wallet repository

    /** GetByUserID and GetByUserIDForUpdate: None when no wallet row has this user id. */
    method GetByUserID(userId: nat) returns (w: Option<Wallet>)
      ensures w.None? <==> forall x :: x in wallets ==> x.userId != userId
      ensures w.Some? ==> w.value in wallets && w.value.userId == userId
      ensures w == WalletByUser(wallets, userId)
    {
      w := WalletByUser(wallets, userId);
    }

    /** UpdateBalanceWithStats: only the rows with this wallet id change. */
    method UpdateBalanceWithStats(walletId: nat, amount: int, isCredit: bool)
      modifies this`wallets
      ensures wallets == StatsRows(old(wallets), walletId, amount, isCredit)
    {
      wallets := StatsRows(wallets, walletId, amount, isCredit);
    }

    /** UpdateBalance: balance = balance + amount, without touching the lifetime counters. */
    method UpdateBalance(walletId: nat, amount: int)
      modifies this`wallets
      ensures wallets == AddBalanceRows(old(wallets), walletId, amount)
    {
      wallets := AddBalanceRows(wallets, walletId, amount);
    }

    /** CreateLedgerEntry: inserts the entry and hands back its AUTO_INCREMENT id. */
    method CreateLedgerEntry(e: LedgerEntry) returns (id: nat)
      modifies this`ledger
      ensures id == NextId(LedgerIds(old(ledger)))
      ensures ledger == old(ledger) + [e.(id := id)]
    {
      id := NextId(LedgerIds(ledger));
      ledger := ledger + [e.(id := id)];
    }

    /** GetTransactionByIdempotencyKey: None when no transaction carries the key. */
    method GetTransactionByIdempotencyKey(key: string) returns (t: Option<Transaction>)
      ensures t.None? <==> forall x :: x in transactions ==> x.idempotencyKey != key
      ensures t == TxByKey(transactions, key)
    {
      t := TxByKey(transactions, key);
    }

    /** CreateTransaction: inserts the record and hands back its AUTO_INCREMENT id. */
    method CreateTransaction(t: Transaction) returns (id: nat)
      modifies this`transactions
      ensures id == NextId(TxIds(old(transactions)))
      ensures transactions == old(transactions) + [t.(id := id)]
    {
      id := NextId(TxIds(transactions));
      transactions := transactions + [t.(id := id)];
    }

    /** GetTransactionsByWalletID: a page of the wallet's transactions, newest first, and their total count. */
    method GetTransactionsByWalletID(walletId: nat, limit: int, offset: int)
      returns (r: Result<(seq<Transaction>, nat), ErrorCode>)
      ensures r.Err? <==> limit < 0 || offset < 0
      ensures r.Ok? ==> |r.value.0| <= limit
      ensures r.Ok? ==> forall t :: t in r.value.0 ==> t in transactions && Involves(t, walletId)
      ensures r.Ok? ==> r.value.1 == |WalletTransactions(transactions, walletId)|
      ensures r.Ok? ==> Some(r.value.0) == Page(Newest(WalletTransactions(transactions, walletId)), limit, offset)
    {
      var mine := WalletTransactions(transactions, walletId);
      var page := Page(Newest(mine), limit, offset);
      if page.None? {
        return Err(DbError);
      }
      forall t | t in page.value ensures t in transactions && Involves(t, walletId) {
        assert t in Newest(mine);
        var k :| 0 <= k < |mine| && Newest(mine)[k] == t;
      }
      r := Ok((page.value, |mine|));
    }

    // ---------------------------------------------------- qr repository

    /** Create: inserts the code and hands back its AUTO_INCREMENT id. */
    method CreateQr(q: QrCode) returns (id: nat)
      modifies this`qrCodes
      ensures id == NextId(QrIds(old(qrCodes)))
      ensures qrCodes == old(qrCodes) + [q.(id := id)]
    {
      id := NextId(QrIds(qrCodes));
      qrCodes := qrCodes + [q.(id := id)];
    }

    /** GetByCode and GetByCodeForUpdate: None when no row has this code. */
    method GetByCode(code: string) returns (q: Option<QrCode>)
      ensures q.None? <==> forall x :: x in qrCodes ==> x.code != code
      ensures q == QrByCode(qrCodes, code)
    {
      q := QrByCode(qrCodes, code);
    }

    /** GetByID: None when no row has this id. */
    method GetQrByID(id: nat) returns (q: Option<QrCode>)
      ensures q.None? <==> forall x :: x in qrCodes ==> x.id != id
      ensures q == QrById(qrCodes, id)
    {
      q := QrById(qrCodes, id);
    }

    /** MarkAsUsed: USED, scanned_by, scanned_at, current_uses + 1, whatever the prior status. */
    method MarkAsUsed(id: nat, scannedBy: nat, now: int)
      modifies this`qrCodes
      ensures qrCodes == MarkAsUsedRows(old(qrCodes), id, scannedBy, now)
    {
      qrCodes := MarkAsUsedRows(qrCodes, id, scannedBy, now);
    }

    /** UpdateStatus: runs on the base connection, outside any open transaction. */
    method UpdateQrStatus(id: nat, status: QrStatus)
      modifies this`qrCodes
      ensures qrCodes == QrStatusRows(old(qrCodes), id, status)
    {
      qrCodes := QrStatusRows(qrCodes, id, status);
    }

    /** GetByCreatorID: a page of the creator's codes, newest first, and their total count. */
    method GetByCreatorID(creatorId: nat, limit: int, offset: int) returns (r: Result<(seq<QrCode>, nat), ErrorCode>)
      ensures r.Err? <==> limit < 0 || offset < 0
      ensures r.Ok? ==> |r.value.0| <= limit
      ensures r.Ok? ==> forall q :: q in r.value.0 ==> q in qrCodes && q.creatorId == creatorId
      ensures r.Ok? ==> r.value.1 == |CreatorQrs(qrCodes, creatorId)|
      ensures r.Ok? ==> Some(r.value.0) == Page(Newest(CreatorQrs(qrCodes, creatorId)), limit, offset)
    {
      var mine := CreatorQrs(qrCodes, creatorId);
      var page := Page(Newest(mine), limit, offset);
      if page.None? {
        return Err(DbError);
      }
      forall q | q in page.value ensures q in qrCodes && q.creatorId == creatorId {
        assert q in Newest(mine);
        var k :| 0 <= k < |mine| && Newest(mine)[k] == q;
      }
      r := Ok((page.value, |mine|));
    }

    // ----------------------------------------------- product repository

    /** GetProductByID: deleted products are invisible. */
    method GetProductByID(id: nat) returns (p: Option<Product>)
      ensures p.None? <==> forall x :: x in products ==> x.id != id || x.deleted
      ensures p == ProductById(products, id)
    {
      p := ProductById(products, id);
    }

    method UpdateProduct(p: Product)
      modifies this`products
      ensures products == ProductUpdateRows(old(products), p)
    {
      products := ProductUpdateRows(products, p);
    }

    /** DeleteProduct: soft delete by setting deleted_at. */
    method DeleteProduct(id: nat)
      modifies this`products
      ensures products == SoftDeleteProductRows(old(products), id)
    {
      products := SoftDeleteProductRows(products, id);
    }

    /** DecrementStock: a guarded UPDATE; no matching row means sql.ErrNoRows and no change. */
    method DecrementStock(id: nat, quantity: int) returns (ok: bool)
      modifies this`products
      ensures ok <==> exists p :: p in old(products) && StockCovers(p, id, quantity)
      ensures products == DecrementStockRows(old(products), id, quantity)
    {
      ok := exists p :: p in products && StockCovers(p, id, quantity);
      products := DecrementStockRows(products, id, quantity);
    }

    /**
     * CreateOrder: inserts the order, with the notes column built as the
     * repository builds it (one character per number), and hands back its
     * AUTO_INCREMENT id.
     */
    method CreateOrder(o: Order) returns (id: nat)
      modifies this`orders
      ensures id == NextId(OrderIds(old(orders)))
      ensures orders == old(orders) + [o.(id := id, notes := Some(OrderNotesAsWritten(o.productId, o.quantity)))]
    {
      id := NextId(OrderIds(orders));
      orders := orders + [o.(id := id, notes := Some(OrderNotesAsWritten(o.productId, o.quantity)))];
    }

    // ----------------------------------------------- mission repository

    /** GetByID: deleted missions are invisible. */
    method GetMissionByID(id: nat) returns (m: Option<Mission>)
      ensures m.None? <==> forall x :: x in missions ==> x.id != id || x.deleted
      ensures m == MissionById(missions, id)
    {
      m := MissionById(missions, id);
    }

    method UpdateMission(m: Mission)
      modifies this`missions
      ensures missions == MissionUpdateRows(old(missions), m)
    {
      missions := MissionUpdateRows(missions, m);
    }

    /** Delete: soft delete by setting deleted_at. */
    method DeleteMission(id: nat)
      modifies this`missions
      ensures missions == SoftDeleteMissionRows(old(missions), id)
    {
      missions := SoftDeleteMissionRows(missions, id);
    }

    method IncrementParticipants(id: nat)
      modifies this`missions
      ensures missions == IncrementParticipantsRows(old(missions), id)
    {
      missions := IncrementParticipantsRows(missions, id);
    }

    /** CreateLog: inserts the log and hands back its AUTO_INCREMENT id. */
    method CreateLog(l: MissionLog) returns (id: nat)
      modifies this`missionLogs
      ensures id == NextId(LogIds(old(missionLogs)))
      ensures missionLogs == old(missionLogs) + [l.(id := id)]
    {
      id := NextId(LogIds(missionLogs));
      missionLogs := missionLogs + [l.(id := id)];
    }

    /** GetLogByMissionAndUser: None when the user has no log for the mission. */
    method GetLogByMissionAndUser(missionId: nat, userId: nat) returns (l: Option<MissionLog>)
      ensures l.None? <==> forall x :: x in missionLogs ==> x.missionId != missionId || x.userId != userId
      ensures l == LogOf(missionLogs, missionId, userId)
    {
      l := LogOf(missionLogs, missionId, userId);
    }

    method SubmitLog(id: nat, answers: string, now: int)
      modifies this`missionLogs
      ensures missionLogs == SubmitLogRows(old(missionLogs), id, answers, now)
    {
      missionLogs := SubmitLogRows(missionLogs, id, answers, now);
    }

    method GradeLog(id: nat, score: real, notes: string, approved: bool, graderId: nat, reward: int, now: int)
      modifies this`missionLogs
      ensures missionLogs == GradeLogRows(old(missionLogs), id, score, notes, approved, graderId, reward, now)
    {
      missionLogs := GradeLogRows(missionLogs, id, score, notes, approved, graderId, reward, now);
    }

    /** GetLogsByMissionID: every log of the mission, ORDER BY submitted_at DESC. */
    method GetLogsByMissionID(missionId: nat) returns (ls: seq<MissionLog>)
      ensures forall l :: l in ls ==> l in missionLogs && l.missionId == missionId
      ensures forall l :: l in missionLogs && l.missionId == missionId ==> l in ls
      ensures multiset(ls) == multiset(MissionLogs(missionLogs, missionId))
      ensures SubmittedDesc(ls)
    {
      ls := SortBySubmitted(MissionLogs(missionLogs, missionId));
      forall l | l in ls ensures l in missionLogs && l.missionId == missionId {
        assert l in multiset(MissionLogs(missionLogs, missionId));
      }
      forall l | l in missionLogs && l.missionId == missionId ensures l in ls {
        assert l in multiset(ls);
      }
    }
  }
}
