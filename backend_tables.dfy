/**
 * The row-level semantics of the backend's repository statements: which row a
 * lookup returns, which rows an UPDATE ... WHERE id = ? rewrites and how,
 * and the identifiers an AUTO_INCREMENT insert hands out.
 */
module BackendTables {
  import opened Wrappers
  import opened BackendEntities
  import opened BackendUtils

  // ---------------------------------------------------------------- lookups

  /** Index of the first row satisfying `p`; QueryRow returns that row. */
  function FirstIndex<T>(s: seq<T>, p: T -> bool): (r: Option<nat>)
    ensures r.None? <==> forall i :: 0 <= i < |s| ==> !p(s[i])
    ensures r.Some? ==> r.value < |s| && p(s[r.value]) && forall j :: 0 <= j < r.value ==> !p(s[j])
  {
    if s == [] then None
    else if p(s[0]) then Some(0)
    else
      var rest := FirstIndex(s[1..], p);
      if rest.None? then None else Some(rest.value + 1)
  }

  /** The first row satisfying `p`, or None when the query matches no row. */
  function First<T>(s: seq<T>, p: T -> bool): (r: Option<T>)
    ensures r.None? <==> forall i :: 0 <= i < |s| ==> !p(s[i])
    ensures r.Some? ==> r.value in s && p(r.value)
  {
    var i := FirstIndex(s, p);
    if i.None? then None else Some(s[i.value])
  }

  /** SELECT ... FROM wallets WHERE user_id = ? (with or without FOR UPDATE). */
  function WalletByUser(ws: seq<Wallet>, userId: nat): (r: Option<Wallet>)
    ensures r.None? <==> forall w :: w in ws ==> w.userId != userId
    ensures r.Some? ==> r.value in ws && r.value.userId == userId
  {
    First(ws, (w: Wallet) => w.userId == userId)
  }

  /** SELECT ... FROM transactions WHERE idempotency_key = ? */
  function TxByKey(txs: seq<Transaction>, key: string): (r: Option<Transaction>)
    ensures r.None? <==> forall t :: t in txs ==> t.idempotencyKey != key
    ensures r.Some? ==> r.value in txs && r.value.idempotencyKey == key
  {
    First(txs, (t: Transaction) => t.idempotencyKey == key)
  }

  /** SELECT ... FROM qr_codes WHERE code = ? (with or without FOR UPDATE). */
  function QrByCode(qrs: seq<QrCode>, code: string): (r: Option<QrCode>)
    ensures r.None? <==> forall q :: q in qrs ==> q.code != code
    ensures r.Some? ==> r.value in qrs && r.value.code == code
  {
    First(qrs, (q: QrCode) => q.code == code)
  }

  /** SELECT ... FROM qr_codes WHERE id = ? */
  function QrById(qrs: seq<QrCode>, id: nat): (r: Option<QrCode>)
    ensures r.None? <==> forall q :: q in qrs ==> q.id != id
    ensures r.Some? ==> r.value in qrs && r.value.id == id
  {
    First(qrs, (q: QrCode) => q.id == id)
  }

  /** SELECT ... FROM products WHERE id = ? AND deleted_at IS NULL */
  function ProductById(ps: seq<Product>, id: nat): (r: Option<Product>)
    ensures r.None? <==> forall p :: p in ps ==> p.id != id || p.deleted
    ensures r.Some? ==> r.value in ps && r.value.id == id && !r.value.deleted
  {
    First(ps, (p: Product) => p.id == id && !p.deleted)
  }

  /** SELECT ... FROM missions WHERE id = ? AND deleted_at IS NULL */
  function MissionById(ms: seq<Mission>, id: nat): (r: Option<Mission>)
    ensures r.None? <==> forall m :: m in ms ==> m.id != id || m.deleted
    ensures r.Some? ==> r.value in ms && r.value.id == id && !r.value.deleted
  {
    First(ms, (m: Mission) => m.id == id && !m.deleted)
  }

  /** SELECT ... FROM mission_logs WHERE mission_id = ? AND user_id = ? */
  function LogOf(logs: seq<MissionLog>, missionId: nat, userId: nat): (r: Option<MissionLog>)
    ensures r.None? <==> forall l :: l in logs ==> l.missionId != missionId || l.userId != userId
    ensures r.Some? ==> r.value in logs && r.value.missionId == missionId && r.value.userId == userId
  {
    First(logs, (l: MissionLog) => l.missionId == missionId && l.userId == userId)
  }

  /** The rows that satisfy `p`, in table order. */
  function Filter<T>(s: seq<T>, p: T -> bool): (r: seq<T>)
    ensures forall i :: 0 <= i < |r| ==> r[i] in s && p(r[i])
    ensures forall i :: 0 <= i < |s| && p(s[i]) ==> s[i] in r
    ensures |r| <= |s|
  {
    if s == [] then []
    else if p(s[0]) then [s[0]] + Filter(s[1..], p)
    else Filter(s[1..], p)
  }

  /** A nullable column the request may overwrite: a value that is set wins. */
  function Overwrite<T>(update: Option<T>, current: Option<T>): (r: Option<T>)
    ensures update.Some? ==> r == update
    ensures update.None? ==> r == current
  {
    if update.Some? then update else current
  }

  // ------------------------------------------------------- AUTO_INCREMENT

  /** An identifier larger than every identifier in `ids` (the next AUTO_INCREMENT value). */
  function NextId(ids: seq<nat>): (r: nat)
    ensures r >= 1
    ensures forall i :: 0 <= i < |ids| ==> ids[i] < r
  {
    if ids == [] then 1
    else
      var rest := NextId(ids[1..]);
      if ids[0] < rest then rest else ids[0] + 1
  }

  function WalletIds(ws: seq<Wallet>): seq<nat> { seq(|ws|, i requires 0 <= i < |ws| => ws[i].id) }
  function TxIds(ts: seq<Transaction>): seq<nat> { seq(|ts|, i requires 0 <= i < |ts| => ts[i].id) }
  function LedgerIds(ls: seq<LedgerEntry>): seq<nat> { seq(|ls|, i requires 0 <= i < |ls| => ls[i].id) }
  function QrIds(qs: seq<QrCode>): seq<nat> { seq(|qs|, i requires 0 <= i < |qs| => qs[i].id) }
  function OrderIds(os: seq<Order>): seq<nat> { seq(|os|, i requires 0 <= i < |os| => os[i].id) }
  function LogIds(ls: seq<MissionLog>): seq<nat> { seq(|ls|, i requires 0 <= i < |ls| => ls[i].id) }

  // ------------------------------------------------------------- wallets

  function Abs(x: int): int { if x < 0 then -x else x }

  /**
   * One wallet row after UpdateBalanceWithStats: a credit adds |amount| to the
   * balance and to lifetime_earned, a debit takes |amount| from the balance and
   * adds it to lifetime_spent. The sign of `amount` is ignored.
   */
  function WithStats(w: Wallet, amount: int, isCredit: bool): (r: Wallet)
    ensures r.balance - r.lifetimeEarned + r.lifetimeSpent == w.balance - w.lifetimeEarned + w.lifetimeSpent
    ensures r.lifetimeEarned >= w.lifetimeEarned && r.lifetimeSpent >= w.lifetimeSpent
    ensures r.balance == w.balance + (if isCredit then Abs(amount) else -Abs(amount))
    ensures r == w.(balance := r.balance, lifetimeEarned := r.lifetimeEarned, lifetimeSpent := r.lifetimeSpent)
  {
    if isCredit then
      w.(balance := w.balance + Abs(amount), lifetimeEarned := w.lifetimeEarned + Abs(amount))
    else
      w.(balance := w.balance - Abs(amount), lifetimeSpent := w.lifetimeSpent + Abs(amount))
  }

  /** UPDATE wallets SET balance = balance -/+ |amount|, lifetime_... WHERE id = walletId */
  function StatsRows(ws: seq<Wallet>, walletId: nat, amount: int, isCredit: bool): seq<Wallet>
  {
    seq(|ws|, i requires 0 <= i < |ws| => if ws[i].id == walletId then WithStats(ws[i], amount, isCredit) else ws[i])
  }

  /** UPDATE wallets SET balance = balance + amount WHERE id = walletId */
  function AddBalanceRows(ws: seq<Wallet>, walletId: nat, amount: int): seq<Wallet>
  {
    seq(|ws|, i requires 0 <= i < |ws| => if ws[i].id == walletId then ws[i].(balance := ws[i].balance + amount) else ws[i])
  }

  /** The sum of all wallet balances: the points in circulation. */
  function TotalBalance(ws: seq<Wallet>): int
  {
    if ws == [] then 0 else ws[0].balance + TotalBalance(ws[1..])
  }

  /** The number of wallet rows carrying identifier `id`. */
  function CountId(ws: seq<Wallet>, id: nat): nat
  {
    if ws == [] then 0 else (if ws[0].id == id then 1 else 0) + CountId(ws[1..], id)
  }

  /** Wallet ids and user ids are unique (PRIMARY KEY and UNIQUE user_id). */
  ghost predicate UniqueWallets(ws: seq<Wallet>)
  {
    forall i, j :: 0 <= i < j < |ws| ==> ws[i].id != ws[j].id && ws[i].userId != ws[j].userId
  }

  lemma {:induction false} CountIdUnique(ws: seq<Wallet>, id: nat)
    requires forall i, j :: 0 <= i < j < |ws| ==> ws[i].id != ws[j].id
    ensures CountId(ws, id) == if exists w :: w in ws && w.id == id then 1 else 0
  {
    if ws != [] {
      CountIdUnique(ws[1..], id);
      if ws[0].id == id {
        assert forall w :: w in ws[1..] ==> w.id != id by {
          forall w | w in ws[1..] ensures w.id != id {
            var k :| 0 <= k < |ws[1..]| && ws[1..][k] == w;
            assert ws[k + 1] == w;
          }
        }
      } else {
        assert (exists w :: w in ws && w.id == id) <==> (exists w :: w in ws[1..] && w.id == id) by {
          forall w | w in ws && w.id == id ensures w in ws[1..] {
            var k :| 0 <= k < |ws| && ws[k] == w;
            assert k != 0;
            assert ws[1..][k - 1] == w;
          }
        }
      }
    }
  }

  /** UpdateBalanceWithStats moves the total by |amount| once per row it rewrites. */
  lemma {:induction false} StatsRowsTotal(ws: seq<Wallet>, walletId: nat, amount: int, isCredit: bool)
    ensures |StatsRows(ws, walletId, amount, isCredit)| == |ws|
    ensures TotalBalance(StatsRows(ws, walletId, amount, isCredit))
         == TotalBalance(ws) + (if isCredit then Abs(amount) else -Abs(amount)) * CountId(ws, walletId)
  {
    if ws != [] {
      var delta := if isCredit then Abs(amount) else -Abs(amount);
      var r := StatsRows(ws, walletId, amount, isCredit);
      var rest := StatsRows(ws[1..], walletId, amount, isCredit);
      StatsRowsTotal(ws[1..], walletId, amount, isCredit);
      assert r[1..] == rest;
      var hit := if ws[0].id == walletId then 1 else 0;
      assert r[0].balance == ws[0].balance + delta * hit;
      assert TotalBalance(r) == r[0].balance + TotalBalance(rest);
      assert CountId(ws, walletId) == hit + CountId(ws[1..], walletId);
      Distribute(delta, hit, CountId(ws[1..], walletId));
    }
  }

  lemma {:induction false} Distribute(d: int, x: int, y: int)
    ensures d * (x + y) == d * x + d * y
  {
  }

  /** UpdateBalanceWithStats keeps every row's id and user id, so keys stay unique. */
  lemma {:induction false} StatsRowsKeys(ws: seq<Wallet>, walletId: nat, amount: int, isCredit: bool)
    ensures var r := StatsRows(ws, walletId, amount, isCredit);
      |r| == |ws| && forall i :: 0 <= i < |ws| ==> r[i].id == ws[i].id && r[i].userId == ws[i].userId
  {
  }

  lemma {:induction false} CountIdStats(ws: seq<Wallet>, walletId: nat, amount: int, isCredit: bool, id: nat)
    ensures CountId(StatsRows(ws, walletId, amount, isCredit), id) == CountId(ws, id)
  {
    if ws != [] {
      CountIdStats(ws[1..], walletId, amount, isCredit, id);
      assert StatsRows(ws, walletId, amount, isCredit)[1..] == StatsRows(ws[1..], walletId, amount, isCredit);
    }
  }

  /**
   * A debit of one wallet followed by a credit of the same |amount| to another
   * wallet leaves the points in circulation unchanged.
   */
  lemma {:induction false} DebitCreditConserves(ws: seq<Wallet>, fromId: nat, toId: nat, amount: int)
    requires UniqueWallets(ws)
    requires exists w :: w in ws && w.id == fromId
    requires exists w :: w in ws && w.id == toId
    ensures TotalBalance(StatsRows(StatsRows(ws, fromId, amount, false), toId, amount, true)) == TotalBalance(ws)
  {
    var mid := StatsRows(ws, fromId, amount, false);
    StatsRowsTotal(ws, fromId, amount, false);
    CountIdUnique(ws, fromId);
    StatsRowsTotal(mid, toId, amount, true);
    CountIdStats(ws, fromId, amount, false, toId);
    CountIdUnique(ws, toId);
  }

  /** A single UpdateBalanceWithStats on an existing wallet moves the total by exactly |amount|. */
  lemma {:induction false} SingleStatsTotal(ws: seq<Wallet>, walletId: nat, amount: int, isCredit: bool)
    requires UniqueWallets(ws)
    requires exists w :: w in ws && w.id == walletId
    ensures TotalBalance(StatsRows(ws, walletId, amount, isCredit))
         == TotalBalance(ws) + (if isCredit then Abs(amount) else -Abs(amount))
  {
    StatsRowsTotal(ws, walletId, amount, isCredit);
    CountIdUnique(ws, walletId);
  }

  /**
   * UpdateBalanceWithStats touches only the rows carrying `walletId`; on those a
   * credit raises balance and lifetime_earned by |amount|, a debit lowers the
   * balance and raises lifetime_spent by |amount|, and neither lowers a counter.
   */
  lemma {:induction false} StatsRowsEffect(ws: seq<Wallet>, walletId: nat, amount: int, isCredit: bool)
    ensures var r := StatsRows(ws, walletId, amount, isCredit);
      |r| == |ws| &&
      (forall i :: 0 <= i < |ws| && ws[i].id != walletId ==> r[i] == ws[i]) &&
      (forall i :: 0 <= i < |ws| && ws[i].id == walletId ==>
        r[i].lifetimeEarned >= ws[i].lifetimeEarned && r[i].lifetimeSpent >= ws[i].lifetimeSpent &&
        (isCredit ==> r[i].balance == ws[i].balance + Abs(amount) &&
                      r[i].lifetimeEarned == ws[i].lifetimeEarned + Abs(amount) &&
                      r[i].lifetimeSpent == ws[i].lifetimeSpent) &&
        (!isCredit ==> r[i].balance == ws[i].balance - Abs(amount) &&
                       r[i].lifetimeSpent == ws[i].lifetimeSpent + Abs(amount) &&
                       r[i].lifetimeEarned == ws[i].lifetimeEarned))
  {
  }

  /** Every balance is at least zero. */
  predicate NonNegative(ws: seq<Wallet>)
  {
    forall i :: 0 <= i < |ws| ==> ws[i].balance >= 0
  }

  /**
   * The debit statement has no balance guard of its own: balances stay
   * non-negative only because a caller saw at least |amount| in the wallet it
   * debits, and that wallet is the only row with its id.
   */
  lemma {:induction false} StatsRowsNonNegative(ws: seq<Wallet>, w: Wallet, amount: int, isCredit: bool)
    requires UniqueWallets(ws) && NonNegative(ws)
    requires w in ws
    requires !isCredit ==> w.balance >= Abs(amount)
    ensures NonNegative(StatsRows(ws, w.id, amount, isCredit))
  {
    var r := StatsRows(ws, w.id, amount, isCredit);
    forall i | 0 <= i < |r| ensures r[i].balance >= 0 {
      if ws[i].id == w.id {
        var k :| 0 <= k < |ws| && ws[k] == w;
        assert k == i;
      }
    }
  }

  /** With unique user ids, the lookup by a wallet's user id finds that wallet. */
  lemma {:induction false} UniqueLookup(ws: seq<Wallet>, w: Wallet)
    requires UniqueWallets(ws) && w in ws
    ensures WalletByUser(ws, w.userId) == Some(w)
  {
    var found := WalletByUser(ws, w.userId).value;
    var k :| 0 <= k < |ws| && ws[k] == found;
    var i :| 0 <= i < |ws| && ws[i] == w;
    assert k == i;
  }

  /** Two wallets of different users carry different ids. */
  lemma {:induction false} DistinctWallets(ws: seq<Wallet>, a: Wallet, b: Wallet)
    requires UniqueWallets(ws) && a in ws && b in ws && a.userId != b.userId
    ensures a.id != b.id
  {
    var i :| 0 <= i < |ws| && ws[i] == a;
    var j :| 0 <= j < |ws| && ws[j] == b;
  }

  /**
   * UpdateBalanceWithStats on one wallet of a well-keyed table: keys stay
   * unique, the wallet is replaced by its updated row, every other wallet is
   * kept, and a lookup by the owner finds the updated row.
   */
  lemma {:induction false} StatsRowsUpdate(ws: seq<Wallet>, w: Wallet, amount: int, isCredit: bool)
    requires UniqueWallets(ws) && w in ws
    ensures var r := StatsRows(ws, w.id, amount, isCredit);
      UniqueWallets(r) &&
      WithStats(w, amount, isCredit) in r &&
      (forall x :: x in ws && x.id != w.id ==> x in r) &&
      WalletByUser(r, w.userId) == Some(WithStats(w, amount, isCredit))
  {
    var r := StatsRows(ws, w.id, amount, isCredit);
    StatsRowsKeys(ws, w.id, amount, isCredit);
    StatsRowsAt(ws, w, amount, isCredit);
    forall x | x in ws && x.id != w.id ensures x in r {
      var k :| 0 <= k < |ws| && ws[k] == x;
      assert r[k] == x;
    }
    UniqueLookup(r, WithStats(w, amount, isCredit));
  }

  /**
   * A debit of `from` followed by a credit of `to`, for an amount `from`
   * covers, keeps keys unique and balances non-negative, and leaves `from`
   * with its balance lowered and its lifetime_spent raised by the amount.
   */
  lemma {:induction false} DebitCreditKeeps(ws: seq<Wallet>, from: Wallet, to: Wallet, amount: int)
    requires UniqueWallets(ws) && NonNegative(ws) && from in ws && to in ws && from.userId != to.userId
    requires 0 <= amount <= from.balance
    ensures var r := StatsRows(StatsRows(ws, from.id, amount, false), to.id, amount, true);
      UniqueWallets(r) && NonNegative(r) &&
      WalletByUser(r, from.userId) == Some(from.(balance := from.balance - amount, lifetimeSpent := from.lifetimeSpent + amount))
  {
    var mid := StatsRows(ws, from.id, amount, false);
    var from' := WithStats(from, amount, false);
    assert UniqueWallets(mid) && NonNegative(mid) && to in mid && from' in mid by {
      DistinctWallets(ws, from, to);
      StatsRowsUpdate(ws, from, amount, false);
      StatsRowsNonNegative(ws, from, amount, false);
    }
    var last := StatsRows(mid, to.id, amount, true);
    assert UniqueWallets(last) && NonNegative(last) && from' in last by {
      StatsRowsUpdate(mid, to, amount, true);
      StatsRowsNonNegative(mid, to, amount, true);
    }
    UniqueLookup(last, from');
    assert from' == from.(balance := from.balance - amount, lifetimeSpent := from.lifetimeSpent + amount);
  }

  /** Without the caller's check a debit can leave a balance below zero. */
  lemma {:induction false} DebitCanOverdraw(w: Wallet)
    requires w.balance == 0
    ensures NonNegative([w]) && !NonNegative(StatsRows([w], w.id, 1, false))
  {
    assert StatsRows([w], w.id, 1, false)[0].balance == -1;
  }

  /** The row of a unique wallet id after UpdateBalanceWithStats. */
  lemma {:induction false} StatsRowsAt(ws: seq<Wallet>, w: Wallet, amount: int, isCredit: bool)
    requires UniqueWallets(ws) && w in ws
    ensures WithStats(w, amount, isCredit) in StatsRows(ws, w.id, amount, isCredit)
    ensures forall x :: x in StatsRows(ws, w.id, amount, isCredit) && x.id == w.id ==> x == WithStats(w, amount, isCredit)
  {
    var r := StatsRows(ws, w.id, amount, isCredit);
    var k :| 0 <= k < |ws| && ws[k] == w;
    assert r[k] == WithStats(w, amount, isCredit);
    forall x | x in r && x.id == w.id ensures x == WithStats(w, amount, isCredit) {
      var j :| 0 <= j < |r| && r[j] == x;
      assert ws[j].id == w.id;
      assert j == k;
    }
  }

  // --------------------------------------------------------------- ledger

  /** The change of balance a ledger entry records, signed by its type. */
  function SignedAmount(e: LedgerEntry): int
  {
    if e.entryType == Credit then e.amount else -e.amount
  }

  /** An entry whose before/after columns agree with its type and amount. */
  predicate EntryConsistent(e: LedgerEntry)
  {
    e.balanceAfter - e.balanceBefore == SignedAmount(e)
  }

  function LedgerNet(es: seq<LedgerEntry>): int
  {
    if es == [] then 0 else SignedAmount(es[0]) + LedgerNet(es[1..])
  }

  /** Appending an entry adds its signed amount to the ledger's net. */
  lemma {:induction false} LedgerNetAppend(es: seq<LedgerEntry>, e: LedgerEntry)
    ensures LedgerNet(es + [e]) == LedgerNet(es) + SignedAmount(e)
  {
    if es == [] {
      assert [] + [e] == [e];
      assert [e][1..] == [];
    } else {
      LedgerNetAppend(es[1..], e);
      assert (es + [e])[1..] == es[1..] + [e];
    }
  }

  // -------------------------------------------------------- transactions

  /** Idempotency keys are unique (the UNIQUE index on idempotency_key). */
  ghost predicate UniqueTxKeys(ts: seq<Transaction>)
  {
    forall i, j :: 0 <= i < j < |ts| ==> ts[i].idempotencyKey != ts[j].idempotencyKey
  }

  /**
   * After a transaction with a new key is inserted, the lookup by that key
   * finds it, and keys stay unique.
   */
  lemma {:induction false} InsertNewKey(ts: seq<Transaction>, t: Transaction)
    requires TxByKey(ts, t.idempotencyKey).None?
    ensures TxByKey(ts + [t], t.idempotencyKey) == Some(t)
    ensures UniqueTxKeys(ts) ==> UniqueTxKeys(ts + [t])
  {
    var r := TxByKey(ts + [t], t.idempotencyKey);
    assert (ts + [t])[|ts|] == t;
    assert r.Some?;
  }

  // ------------------------------------------------------------ qr codes

  /** Codes and ids are unique (PRIMARY KEY and UNIQUE code). */
  ghost predicate UniqueQrs(qs: seq<QrCode>)
  {
    forall i, j :: 0 <= i < j < |qs| ==> qs[i].id != qs[j].id && qs[i].code != qs[j].code
  }

  /** One row after MarkAsUsed, whatever its status was before. */
  function MarkedUsed(q: QrCode, scannedBy: nat, now: int): (r: QrCode)
    ensures r.status == Used && r.scannedBy == Some(scannedBy) && r.scannedAt == Some(now)
    ensures r.currentUses == q.currentUses + 1
    ensures r.id == q.id && r.code == q.code && r.amount == q.amount && r.creatorId == q.creatorId
    ensures r.signature == q.signature && r.expiresAt == q.expiresAt && r.description == q.description
  {
    q.(status := Used, scannedBy := Some(scannedBy), scannedAt := Some(now), currentUses := q.currentUses + 1)
  }

  /** MarkAsUsed: the row with that id is marked used; no status is required of it. */
  function MarkAsUsedRows(qs: seq<QrCode>, id: nat, scannedBy: nat, now: int): seq<QrCode>
  {
    seq(|qs|, i requires 0 <= i < |qs| => if qs[i].id == id then MarkedUsed(qs[i], scannedBy, now) else qs[i])
  }

  /** UpdateStatus: only the status column of the row with that id. */
  function QrStatusRows(qs: seq<QrCode>, id: nat, status: QrStatus): seq<QrCode>
  {
    seq(|qs|, i requires 0 <= i < |qs| => if qs[i].id == id then qs[i].(status := status) else qs[i])
  }

  /**
   * UpdateStatus rewrites the status of the addressed row and of no other,
   * and leaves every other column as it was.
   */
  lemma {:induction false} QrStatusEffect(qs: seq<QrCode>, id: nat, status: QrStatus)
    ensures var r := QrStatusRows(qs, id, status);
      |r| == |qs| &&
      (forall i :: 0 <= i < |qs| && qs[i].id != id ==> r[i] == qs[i]) &&
      (forall i :: 0 <= i < |qs| && qs[i].id == id ==> r[i].status == status && r[i].(status := qs[i].status) == qs[i])
  {
  }

  /**
   * After MarkAsUsed on a code of a well-keyed table, keys stay unique, the
   * lookup by its code finds it marked used, and every other code is kept.
   */
  lemma {:induction false} MarkAsUsedLookup(qs: seq<QrCode>, q: QrCode, scannedBy: nat, now: int)
    requires UniqueQrs(qs) && q in qs
    ensures var r := MarkAsUsedRows(qs, q.id, scannedBy, now);
      UniqueQrs(r) && QrByCode(r, q.code) == Some(MarkedUsed(q, scannedBy, now)) &&
      (forall x :: x in qs && x.id != q.id ==> x in r)
  {
    var r := MarkAsUsedRows(qs, q.id, scannedBy, now);
    MarkKeepsKeys(qs, q.id, scannedBy, now);
    var i :| 0 <= i < |qs| && qs[i] == q;
    assert r[i] == MarkedUsed(q, scannedBy, now);
    var found := QrByCode(r, q.code).value;
    var k :| 0 <= k < |r| && r[k] == found;
    assert qs[k].code == q.code;
    assert k == i;
    forall x | x in qs && x.id != q.id ensures x in r {
      var j :| 0 <= j < |qs| && qs[j] == x;
      assert r[j] == x;
    }
  }

  /** Marking a code used keeps every row's id and code, so the rows stay unique. */
  lemma {:induction false} MarkKeepsKeys(qs: seq<QrCode>, id: nat, scannedBy: nat, now: int)
    requires UniqueQrs(qs)
    ensures var r := MarkAsUsedRows(qs, id, scannedBy, now);
      |r| == |qs| && UniqueQrs(r) &&
      forall j :: 0 <= j < |qs| ==> r[j].id == qs[j].id && r[j].code == qs[j].code
  {
    var r := MarkAsUsedRows(qs, id, scannedBy, now);
    assert forall j :: 0 <= j < |qs| ==> r[j].id == qs[j].id && r[j].code == qs[j].code;
  }


  /** After UpdateStatus on a code of a well-keyed table, the lookup by its code finds the new status. */
  lemma {:induction false} QrStatusLookup(qs: seq<QrCode>, q: QrCode, status: QrStatus)
    requires UniqueQrs(qs) && q in qs
    ensures var r := QrStatusRows(qs, q.id, status);
      UniqueQrs(r) && QrByCode(r, q.code) == Some(q.(status := status))
  {
    var r := QrStatusRows(qs, q.id, status);
    var i :| 0 <= i < |qs| && qs[i] == q;
    assert r[i].code == q.code;
    var found := QrByCode(r, q.code).value;
    var k :| 0 <= k < |r| && r[k] == found;
    assert qs[k].code == q.code;
    assert k == i;
  }

  // ------------------------------------------------------------ products

  /** A NULL stock means unlimited; derived on every read of a product. */
  predicate IsUnlimited(p: Product) { p.stock.None? }

  /** The WHERE clause of DecrementStock: the row exists and its stock is NULL or covers the quantity. */
  predicate StockCovers(p: Product, id: nat, quantity: int)
  {
    p.id == id && (p.stock.None? || p.stock.value >= quantity)
  }

  /** Product ids are unique (the primary key). */
  ghost predicate UniqueProducts(ps: seq<Product>)
  {
    forall i, j :: 0 <= i < |ps| && 0 <= j < |ps| && ps[i].id == ps[j].id ==> i == j
  }

  /**
   * stock = stock - q (NULL stays NULL), sold_count = sold_count + q on every
   * row the WHERE matches; when no row matches, the UPDATE changes nothing.
   */
  function DecrementStockRows(ps: seq<Product>, id: nat, quantity: int): (r: seq<Product>)
    ensures |r| == |ps|
    ensures (forall p :: p in ps ==> !StockCovers(p, id, quantity)) ==> r == ps
    ensures forall i :: 0 <= i < |ps| && !StockCovers(ps[i], id, quantity) ==> r[i] == ps[i]
    ensures forall i :: 0 <= i < |ps| && StockCovers(ps[i], id, quantity) ==>
      r[i].soldCount == ps[i].soldCount + quantity &&
      (ps[i].stock.None? ==> r[i].stock.None?) &&
      (ps[i].stock.Some? ==> r[i].stock == Some(ps[i].stock.value - quantity)) &&
      r[i] == ps[i].(stock := r[i].stock, soldCount := r[i].soldCount)
  {
    seq(|ps|, i requires 0 <= i < |ps| =>
      if StockCovers(ps[i], id, quantity)
      then ps[i].(stock := if ps[i].stock.None? then None else Some(ps[i].stock.value - quantity),
                  soldCount := ps[i].soldCount + quantity)
      else ps[i])
  }

  /** UpdateProduct writes name, description, price, stock, thumbnail, file and is_active from `p`. */
  function ProductUpdateRows(ps: seq<Product>, p: Product): seq<Product>
  {
    seq(|ps|, i requires 0 <= i < |ps| =>
      if ps[i].id == p.id
      then ps[i].(name := p.name, description := p.description, price := p.price, stock := p.stock,
                  thumbnailUrl := p.thumbnailUrl, fileUrl := p.fileUrl, isActive := p.isActive)
      else ps[i])
  }

  /** DeleteProduct: sets deleted_at on the row with that id. */
  function SoftDeleteProductRows(ps: seq<Product>, id: nat): seq<Product>
  {
    seq(|ps|, i requires 0 <= i < |ps| => if ps[i].id == id then ps[i].(deleted := true) else ps[i])
  }

  /**
   * DecrementStock on a limited product of a well-keyed table that covers the
   * quantity: a lookup by id then finds its stock lowered and its sold count
   * raised by the quantity, and nothing else about it changed.
   */
  lemma {:induction false} DecrementStockLookup(ps: seq<Product>, p: Product, quantity: int)
    requires UniqueProducts(ps) && p in ps && !p.deleted
    requires p.stock.Some? && p.stock.value >= quantity
    ensures var r := DecrementStockRows(ps, p.id, quantity);
      UniqueProducts(r) &&
      ProductById(r, p.id) == Some(p.(stock := Some(p.stock.value - quantity), soldCount := p.soldCount + quantity))
  {
    var r := DecrementStockRows(ps, p.id, quantity);
    var i :| 0 <= i < |ps| && ps[i] == p;
    assert r[i] == p.(stock := Some(p.stock.value - quantity), soldCount := p.soldCount + quantity);
    assert forall j :: 0 <= j < |r| ==> r[j].id == ps[j].id && r[j].deleted == ps[j].deleted;
    var found := ProductById(r, p.id).value;
    var k :| 0 <= k < |r| && r[k] == found;
    assert k == i;
  }

  /** After a soft delete the product is no longer found, and every other product is found as before. */
  lemma {:induction false} SoftDeleteHides(ps: seq<Product>, id: nat, other: nat)
    requires other != id
    ensures ProductById(SoftDeleteProductRows(ps, id), id).None?
    ensures ProductById(SoftDeleteProductRows(ps, id), other) == ProductById(ps, other)
  {
    var r := SoftDeleteProductRows(ps, id);
    var f := (p: Product) => p.id == other && !p.deleted;
    assert forall i :: 0 <= i < |ps| ==> f(r[i]) == f(ps[i]) && (f(ps[i]) ==> r[i] == ps[i]);
    FirstIndexAgrees(ps, r, f);
  }

  /** Two tables whose rows agree wherever the filter holds give the same first match. */
  lemma {:induction false} FirstIndexAgrees<T>(s: seq<T>, t: seq<T>, f: T -> bool)
    requires |s| == |t|
    requires forall i :: 0 <= i < |s| ==> f(t[i]) == f(s[i]) && (f(s[i]) ==> t[i] == s[i])
    ensures FirstIndex(t, f) == FirstIndex(s, f)
    ensures First(t, f) == First(s, f)
  {
    if s != [] {
      FirstIndexAgrees(s[1..], t[1..], f);
    }
  }

  // ---------------------------------------------------------------- orders

  /**
   * Go's string(rune(n)): the low 32 bits of n read as a signed code point,
   * encoded as one character; a value that is not a Unicode scalar value
   * becomes U+FFFD.
   */
  function RuneString(n: int): (s: string)
    ensures |s| == 1
  {
    var m := n % 0x1_0000_0000;
    var r := if m >= 0x8000_0000 then m - 0x1_0000_0000 else m;
    if 0 <= r < 0xD800 || 0xE000 <= r < 0x11_0000 then [r as char] else ['\U{FFFD}']
  }

  /** The notes column CreateOrder stores, as the repository builds it: one character per number. */
  function OrderNotesAsWritten(productId: nat, quantity: int): string
  {
    "{\"product_id\":" + RuneString(productId) + ",\"quantity\":" + RuneString(quantity) + "}"
  }

  /**
   * The as-written notes do not carry the product id: product 65 is written
   * as the letter A, and products 0xD800 and 0xD801 give the same notes.
   */
  lemma {:induction false} OrderNotesLoseProductId()
    ensures OrderNotesAsWritten(65, 1) == "{\"product_id\":A,\"quantity\":\U{1}}"
    ensures OrderNotesAsWritten(0xD800, 1) == OrderNotesAsWritten(0xD801, 1)
    ensures OrderNotesAsWritten(65, 1) != OrderNotes(65, 1)
  {
    assert RuneString(65) == "A";
    assert OrderNotesAsWritten(65, 1)[14] == 'A' != '6' == OrderNotes(65, 1)[14];
  }

  /** The notes stored for product 65 cannot be read back as a product id at all. */
  lemma {:induction false} OrderNotesAsWrittenUnreadable()
    ensures ParseOrderNotes(OrderNotesAsWritten(65, 1)) == None
  {
    var tail := "\"quantity\":\U{1}";
    var body := "A" + [','] + tail;
    var s := OrderNotesAsWritten(65, 1);
    assert RuneString(65) == "A" && RuneString(1) == "\U{1}";
    assert s == "{\"product_id\":" + body + "}";
    assert s[14..|s| - 1] == body;
    IndexOfAfterPrefix("A", ',', tail);
    assert !IsDigit(body[..1][0]);
  }

  /** The notes column as intended: a JSON object with the product id and quantity in decimal. */
  function OrderNotes(productId: nat, quantity: int): string
  {
    "{\"product_id\":" + NatDecimal(productId) + ",\"quantity\":" + Decimal(quantity) + "}"
  }

  /** Reads the product id and quantity back from a notes column. */
  function ParseOrderNotes(s: string): (r: Option<(nat, int)>)
  {
    var head := "{\"product_id\":";
    var key := "\"quantity\":";
    if |s| < |head| + 1 || s[..|head|] != head || s[|s| - 1] != '}' then None
    else
      var body := s[|head|..|s| - 1];
      var i := IndexOf(body, ',');
      if i == 0 || i == |body| || !AllDigits(body[..i]) then None
      else
        var tail := body[i + 1..];
        if |tail| < |key| || tail[..|key|] != key then None
        else match ParseDecimal(tail[|key|..])
          case None => None
          case Some(q) => Some((DigitsValue(body[..i]), q))
  }

  /** The corrected notes give back the product id and the quantity they were built from. */
  lemma {:induction false} OrderNotesRoundTrip(productId: nat, quantity: int)
    ensures ParseOrderNotes(OrderNotes(productId, quantity)) == Some((productId, quantity))
  {
    NatDecimalValue(productId);
    DecimalRoundTrip(quantity);
    ParseNotesOf(NatDecimal(productId), Decimal(quantity), quantity);
  }

  /** The notes template splits into its opening, the body between the braces, and the closing brace. */
  lemma {:induction false} NotesTemplateSplit(d: string, dq: string)
    ensures var s := "{\"product_id\":" + d + ",\"quantity\":" + dq + "}";
      |s| >= |"{\"product_id\":"| + 1 && s[..|"{\"product_id\":"|] == "{\"product_id\":" && s[|s| - 1] == '}' &&
      s[|"{\"product_id\":"|..|s| - 1] == d + [','] + ("\"quantity\":" + dq)
  {
    var head := "{\"product_id\":";
    var tail := "\"quantity\":" + dq;
    var s := "{\"product_id\":" + d + ",\"quantity\":" + dq + "}";
    assert s == head + (d + [','] + tail) + "}";
  }

  /** A digit run and a decimal placed in the notes template parse back into their values. */
  lemma {:induction false} ParseNotesOf(d: string, dq: string, q: int)
    requires |d| >= 1 && AllDigits(d)
    requires ParseDecimal(dq) == Some(q)
    ensures ParseOrderNotes("{\"product_id\":" + d + ",\"quantity\":" + dq + "}") == Some((DigitsValue(d), q))
  {
    var key := "\"quantity\":";
    var tail := key + dq;
    var body := d + [','] + tail;
    NotesTemplateSplit(d, dq);
    assert IndexOf(body, ',') == |d| by {
      assert ',' !in d by {
        forall k | 0 <= k < |d| ensures d[k] != ',' {
          assert IsDigit(d[k]);
        }
      }
      IndexOfAfterPrefix(d, ',', tail);
    }
    assert body[..|d|] == d && body[|d| + 1..] == tail;
    assert tail[..|key|] == key && tail[|key|..] == dq;
  }

  // ------------------------------------------------------------ missions

  function IncrementParticipantsRows(ms: seq<Mission>, id: nat): seq<Mission>
  {
    seq(|ms|, i requires 0 <= i < |ms| =>
      if ms[i].id == id then ms[i].(currentParticipants := ms[i].currentParticipants + 1) else ms[i])
  }

  /** Update writes every editable column of the mission from `m`. */
  function MissionUpdateRows(ms: seq<Mission>, m: Mission): seq<Mission>
  {
    seq(|ms|, i requires 0 <= i < |ms| =>
      if ms[i].id == m.id
      then ms[i].(title := m.title, description := m.description, rewardPoints := m.rewardPoints,
                  maxParticipants := m.maxParticipants, difficulty := m.difficulty, content := m.content,
                  isActive := m.isActive, startDate := m.startDate, endDate := m.endDate, deadline := m.deadline)
      else ms[i])
  }

  function SoftDeleteMissionRows(ms: seq<Mission>, id: nat): seq<Mission>
  {
    seq(|ms|, i requires 0 <= i < |ms| => if ms[i].id == id then ms[i].(deleted := true) else ms[i])
  }

  /** Mission ids are unique (the primary key). */
  ghost predicate UniqueMissions(ms: seq<Mission>)
  {
    forall i, j :: 0 <= i < |ms| && 0 <= j < |ms| && ms[i].id == ms[j].id ==> i == j
  }

  /** IncrementParticipants on a well-keyed table: a lookup by id finds the count raised by exactly one. */
  lemma {:induction false} IncrementLookup(ms: seq<Mission>, m: Mission)
    requires UniqueMissions(ms) && m in ms && !m.deleted
    ensures var r := IncrementParticipantsRows(ms, m.id);
      UniqueMissions(r) && MissionById(r, m.id) == Some(m.(currentParticipants := m.currentParticipants + 1))
  {
    var r := IncrementParticipantsRows(ms, m.id);
    var i :| 0 <= i < |ms| && ms[i] == m;
    assert r[i] == m.(currentParticipants := m.currentParticipants + 1);
    assert forall j :: 0 <= j < |r| ==> r[j].id == ms[j].id && r[j].deleted == ms[j].deleted;
    var found := MissionById(r, m.id).value;
    var k :| 0 <= k < |r| && r[k] == found;
    assert k == i;
  }

  /** After a soft delete the mission is no longer found, and every other mission is found as before. */
  lemma {:induction false} SoftDeleteMissionHides(ms: seq<Mission>, id: nat, other: nat)
    requires other != id
    ensures MissionById(SoftDeleteMissionRows(ms, id), id).None?
    ensures MissionById(SoftDeleteMissionRows(ms, id), other) == MissionById(ms, other)
  {
    var r := SoftDeleteMissionRows(ms, id);
    var f := (m: Mission) => m.id == other && !m.deleted;
    assert forall i :: 0 <= i < |ms| ==> f(r[i]) == f(ms[i]) && (f(ms[i]) ==> r[i] == ms[i]);
    FirstIndexAgrees(ms, r, f);
  }

  /** Appending a row does not change which row a query that already matched returns first. */
  lemma {:induction false} FirstIndexAppend<T>(s: seq<T>, x: T, f: T -> bool)
    requires FirstIndex(s, f).Some?
    ensures FirstIndex(s + [x], f) == FirstIndex(s, f)
    ensures First(s + [x], f) == First(s, f)
  {
    if !f(s[0]) {
      assert (s + [x])[1..] == s[1..] + [x];
      FirstIndexAppend(s[1..], x, f);
    }
  }

  /** The log a user's most recent attempt at the mission wrote: the last matching row. */
  function LatestLogOf(logs: seq<MissionLog>, missionId: nat, userId: nat): (r: Option<MissionLog>)
    ensures r.None? <==> forall l :: l in logs ==> l.missionId != missionId || l.userId != userId
    ensures r.Some? ==> r.value in logs && r.value.missionId == missionId && r.value.userId == userId
  {
    if logs == [] then None
    else
      var last := logs[|logs| - 1];
      if last.missionId == missionId && last.userId == userId then Some(last)
      else
        var rest := LatestLogOf(logs[..|logs| - 1], missionId, userId);
        assert forall l :: l in logs ==> l in logs[..|logs| - 1] || l == last;
        rest
  }

  /** SubmitLog: answers, status SUBMITTED and submitted_at on the log with that id. */
  function SubmitLogRows(ls: seq<MissionLog>, id: nat, answers: string, now: int): seq<MissionLog>
  {
    seq(|ls|, i requires 0 <= i < |ls| =>
      if ls[i].id == id then ls[i].(answers := Some(answers), status := Submitted, submittedAt := Some(now)) else ls[i])
  }

  /** One log after GradeLog. */
  function Graded(l: MissionLog, score: real, notes: string, approved: bool, graderId: nat, reward: int, now: int): (r: MissionLog)
    ensures r.status == (if approved then LogCompleted else LogFailed)
    ensures r.rewardClaimed == approved && r.rewardPoints == Some(reward)
    ensures r.completedAt.Some? <==> approved
    ensures r.gradedBy == Some(graderId) && r.score == Some(score) && r.notes == Some(notes)
    ensures r.id == l.id && r.missionId == l.missionId && r.userId == l.userId && r.answers == l.answers
  {
    l.(status := if approved then LogCompleted else LogFailed, score := Some(score), notes := Some(notes),
       gradedAt := Some(now), gradedBy := Some(graderId),
       completedAt := if approved then Some(now) else None,
       rewardPoints := Some(reward), rewardClaimed := approved)
  }

  function GradeLogRows(ls: seq<MissionLog>, id: nat, score: real, notes: string, approved: bool,
                        graderId: nat, reward: int, now: int): seq<MissionLog>
  {
    seq(|ls|, i requires 0 <= i < |ls| =>
      if ls[i].id == id then Graded(ls[i], score, notes, approved, graderId, reward, now) else ls[i])
  }
}
