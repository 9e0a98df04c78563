/**
 * The older backend's marketplace service: buying a product (an order paid
 * in points inside one SQL transaction) and the seller-only product update
 * and delete. Each flow is a function from the database before to its
 * outcome and the database after, and a method that performs the repository
 * calls in the service's order and is proved to agree with it.
 */
module BackendProductService {
  import opened Wrappers
  import opened BackendEntities
  import opened BackendTables
  import opened BackendUtils
  import opened BackendProductDto
  import opened BackendDatabase
  import BackendWalletService

  datatype OrderResponse = OrderResponse(
    id: nat, orderCode: string, productId: nat, productName: string,
    quantity: int, totalPrice: int, finalPrice: int, status: OrderStatus)

  /** Every product row has a positive price, as CreateProductRequest.Validate demands of new products. */
  ghost predicate PricesPositive(ps: seq<Product>)
  {
    forall p :: p in ps ==> p.price > 0
  }

  // ------------------------------------------------------------ create order

  /** The checks CreateOrder makes before it opens the DB transaction: the product, or the first failure. */
  function ProductChecks(ps: seq<Product>, req: CreateOrderRequest, buyerId: nat): (r: Result<Product, ErrorCode>)
    ensures r.Ok? ==> ProductById(ps, req.productId) == Some(r.value)
    ensures r.Ok? <==>
      var p := ProductById(ps, req.productId);
      p.Some? && p.value.isActive && p.value.sellerId != buyerId &&
      (p.value.stock.Some? ==> p.value.stock.value >= req.quantity)
  {
    match ProductById(ps, req.productId)
    case None => Err(ProductNotFound)
    case Some(p) =>
      if !p.isActive then Err(ProductNotActive)
      else if p.sellerId == buyerId then Err(CannotBuyOwn)
      else if !IsUnlimited(p) && p.stock.value < req.quantity then Err(OutOfStock)
      else Ok(p)
  }

  /**
   * The checks CreateOrder makes on the locked wallets: the buyer's wallet
   * and the seller's, or the first failure. The seller's frozen flag is not
   * looked at.
   */
  function WalletChecks(ws: seq<Wallet>, buyerId: nat, sellerId: nat, total: int): (r: Result<(Wallet, Wallet), ErrorCode>)
    ensures r.Ok? ==>
      r.value.0 in ws && r.value.1 in ws && r.value.0.userId == buyerId && r.value.1.userId == sellerId &&
      !r.value.0.isFrozen && r.value.0.balance >= total
  {
    match WalletByUser(ws, buyerId)
    case None => Err(WalletNotFound)
    case Some(buyer) =>
      if buyer.isFrozen then Err(WalletFrozen)
      else if buyer.balance < total then Err(InsufficientBalance)
      else match WalletByUser(ws, sellerId)
        case None => Err(SellerWalletNotFound)
        case Some(seller) => Ok((buyer, seller))
  }

  /** The PURCHASE transaction of an order; its idempotency key is the order code. */
  function OrderRecord(p: Product, buyer: Wallet, seller: Wallet, total: int, orderCode: string, txCode: string): Transaction
  {
    Transaction(0, txCode, orderCode, Purchase, Completed, Some(buyer.id), Some(seller.id),
                total, 0, total, Some("Purchase: " + p.name), None, None)
  }

  /** The order row: COMPLETED, no discount, so the final price is the total. */
  function OrderRow(p: Product, buyerId: nat, quantity: int, orderCode: string, txId: nat): Order
  {
    Order(0, orderCode, buyerId, p.sellerId, p.id, quantity, p.price, p.price * quantity, 0,
          p.price * quantity, OrderCompleted, Some(txId), None)
  }

  /**
   * The writes CreateOrder commits once every check has passed: the
   * transaction, the order, the debit and the credit, and for a limited
   * product the stock decrement. A decrement that matches no row rolls
   * everything back with a DB error.
   */
  function OrderCommit(db: Db, p: Product, buyer: Wallet, seller: Wallet, quantity: int,
                       orderCode: string, txCode: string): (Result<OrderResponse, ErrorCode>, Db)
  {
    var total := p.price * quantity;
    var txId := NextId(TxIds(db.transactions));
    var o := OrderRow(p, buyer.userId, quantity, orderCode, txId);
    var orderId := NextId(OrderIds(db.orders));
    var db1 := db.(transactions := db.transactions + [OrderRecord(p, buyer, seller, total, orderCode, txCode).(id := txId)],
                   orders := db.orders + [o.(id := orderId, notes := Some(OrderNotesAsWritten(p.id, quantity)))],
                   wallets := StatsRows(StatsRows(db.wallets, buyer.id, total, false), seller.id, total, true));
    if IsUnlimited(p) then
      (Ok(OrderResponse(orderId, orderCode, p.id, p.name, quantity, total, total, OrderCompleted)), db1)
    else if !(exists x :: x in db1.products && StockCovers(x, p.id, quantity)) then
      (Err(DbError), db)
    else
      (Ok(OrderResponse(orderId, orderCode, p.id, p.name, quantity, total, total, OrderCompleted)),
       db1.(products := DecrementStockRows(db1.products, p.id, quantity)))
  }

  /** Service.CreateOrder: the outcome and the database after it. */
  function CreateOrderSpec(db: Db, req: CreateOrderRequest, buyerId: nat, env: Env): (Result<OrderResponse, ErrorCode>, Db)
    requires ValidEnv(env)
  {
    match ProductChecks(db.products, req, buyerId)
    case Err(e) => (Err(e), db)
    case Ok(p) =>
      match WalletChecks(db.wallets, buyerId, p.sellerId, p.price * req.quantity)
      case Err(e) => (Err(e), db)
      case Ok((buyer, seller)) =>
        OrderCommit(db, p, buyer, seller, req.quantity,
                    TransactionCode("ORD", env.today, env.random), TransactionCode("TRX", env.today, env.random2))
  }

  /** Service.CreateOrder against the live database, in the service's order of calls. */
  method CreateOrder(db: Database, req: CreateOrderRequest, buyerId: nat, env: Env) returns (r: Result<OrderResponse, ErrorCode>)
    requires ValidEnv(env)
    modifies db
    ensures (r, db.Snapshot()) == CreateOrderSpec(old(db.Snapshot()), req, buyerId, env)
  {
    var product := db.GetProductByID(req.productId);
    if product.None? {
      return Err(ProductNotFound);
    }
    var p := product.value;
    if !p.isActive {
      return Err(ProductNotActive);
    }
    if p.sellerId == buyerId {
      return Err(CannotBuyOwn);
    }
    if !IsUnlimited(p) && p.stock.value < req.quantity {
      return Err(OutOfStock);
    }
    var total := p.price * req.quantity;
    var buyerWallet := db.GetByUserID(buyerId);
    if buyerWallet.None? {
      return Err(WalletNotFound);
    }
    var buyer := buyerWallet.value;
    if buyer.isFrozen {
      return Err(WalletFrozen);
    }
    if buyer.balance < total {
      return Err(InsufficientBalance);
    }
    var sellerWallet := db.GetByUserID(p.sellerId);
    if sellerWallet.None? {
      return Err(SellerWalletNotFound);
    }
    var orderCode := TransactionCode("ORD", env.today, env.random);
    var txCode := TransactionCode("TRX", env.today, env.random2);
    r := CommitOrder(db, p, buyer, sellerWallet.value, req.quantity, orderCode, txCode);
  }

  /** The writes of CreateOrder after its checks, rolled back if the stock decrement fails. */
  method CommitOrder(db: Database, p: Product, buyer: Wallet, seller: Wallet, quantity: int,
                     orderCode: string, txCode: string) returns (r: Result<OrderResponse, ErrorCode>)
    modifies db
    ensures (r, db.Snapshot()) == OrderCommit(old(db.Snapshot()), p, buyer, seller, quantity, orderCode, txCode)
  {
    var saved := db.Snapshot();
    var total := p.price * quantity;
    var txId := db.CreateTransaction(OrderRecord(p, buyer, seller, total, orderCode, txCode));
    var orderId := db.CreateOrder(OrderRow(p, buyer.userId, quantity, orderCode, txId));
    db.UpdateBalanceWithStats(buyer.id, total, false);
    db.UpdateBalanceWithStats(seller.id, total, true);
    if !IsUnlimited(p) {
      var ok := db.DecrementStock(p.id, quantity);
      if !ok {
        db.Rollback(saved);
        return Err(DbError);
      }
    }
    r := Ok(OrderResponse(orderId, orderCode, p.id, p.name, quantity, total, total, OrderCompleted));
  }

  /**
   * Each rejection of CreateOrder with the condition that decides it, in the
   * order they are checked; a rejection writes nothing.
   */
  lemma {:induction false} OrderRejections(db: Db, req: CreateOrderRequest, buyerId: nat, env: Env)
    requires ValidEnv(env)
    ensures var r := CreateOrderSpec(db, req, buyerId, env).0;
      var p := ProductById(db.products, req.productId);
      (r == Err(ProductNotFound) <==> p.None?) &&
      (r == Err(ProductNotActive) <==> p.Some? && !p.value.isActive) &&
      (r == Err(CannotBuyOwn) <==> p.Some? && p.value.isActive && p.value.sellerId == buyerId) &&
      (r == Err(OutOfStock) <==>
        p.Some? && p.value.isActive && p.value.sellerId != buyerId &&
        p.value.stock.Some? && p.value.stock.value < req.quantity)
    ensures var r := CreateOrderSpec(db, req, buyerId, env).0;
      ProductChecks(db.products, req, buyerId).Ok? ==>
        var p := ProductChecks(db.products, req, buyerId).value;
        var total := p.price * req.quantity;
        var buyer := WalletByUser(db.wallets, buyerId);
        (r == Err(WalletNotFound) <==> buyer.None?) &&
        (r == Err(WalletFrozen) <==> buyer.Some? && buyer.value.isFrozen) &&
        (r == Err(InsufficientBalance) <==> buyer.Some? && !buyer.value.isFrozen && buyer.value.balance < total) &&
        (r == Err(SellerWalletNotFound) <==>
          buyer.Some? && !buyer.value.isFrozen && buyer.value.balance >= total &&
          WalletByUser(db.wallets, p.sellerId).None?)
    ensures CreateOrderSpec(db, req, buyerId, env).0.Err? ==> CreateOrderSpec(db, req, buyerId, env).1 == db
  {
    var r := CreateOrderSpec(db, req, buyerId, env).0;
    ProductCheckErrors(db.products, req, buyerId);
    match ProductChecks(db.products, req, buyerId)
    case Err(e) =>
      assert r == Err(e);
    case Ok(p) =>
      var total := p.price * req.quantity;
      WalletCheckErrors(db.wallets, buyerId, p.sellerId, total);
      match WalletChecks(db.wallets, buyerId, p.sellerId, total)
      case Err(e) =>
        assert r == Err(e);
      case Ok((buyer, seller)) =>
        OrderCommitOk(db, p, buyer, seller, req.quantity,
                      TransactionCode("ORD", env.today, env.random), TransactionCode("TRX", env.today, env.random2));
        assert r.Ok?;
  }

  /** Each product refusal happens exactly under its condition, in the order the checks run. */
  lemma {:induction false} ProductCheckErrors(ps: seq<Product>, req: CreateOrderRequest, buyerId: nat)
    ensures var r := ProductChecks(ps, req, buyerId);
      var p := ProductById(ps, req.productId);
      (r == Err(ProductNotFound) <==> p.None?) &&
      (r == Err(ProductNotActive) <==> p.Some? && !p.value.isActive) &&
      (r == Err(CannotBuyOwn) <==> p.Some? && p.value.isActive && p.value.sellerId == buyerId) &&
      (r == Err(OutOfStock) <==>
        p.Some? && p.value.isActive && p.value.sellerId != buyerId &&
        p.value.stock.Some? && p.value.stock.value < req.quantity) &&
      (r.Err? ==> r.error in {ProductNotFound, ProductNotActive, CannotBuyOwn, OutOfStock})
  {
    match ProductById(ps, req.productId)
    case None =>
    case Some(p) =>
  }

  /** Each wallet refusal happens exactly under its condition, in the order the checks run. */
  lemma {:induction false} WalletCheckErrors(ws: seq<Wallet>, buyerId: nat, sellerId: nat, total: int)
    ensures var r := WalletChecks(ws, buyerId, sellerId, total);
      var buyer := WalletByUser(ws, buyerId);
      (r == Err(WalletNotFound) <==> buyer.None?) &&
      (r == Err(WalletFrozen) <==> buyer.Some? && buyer.value.isFrozen) &&
      (r == Err(InsufficientBalance) <==> buyer.Some? && !buyer.value.isFrozen && buyer.value.balance < total) &&
      (r == Err(SellerWalletNotFound) <==>
        buyer.Some? && !buyer.value.isFrozen && buyer.value.balance >= total && WalletByUser(ws, sellerId).None?) &&
      (r.Err? ==> r.error in {WalletNotFound, WalletFrozen, InsufficientBalance, SellerWalletNotFound})
  {
    match WalletByUser(ws, buyerId)
    case None =>
    case Some(b) =>
  }

  /** Once the checks pass, the order's writes succeed: the stock re-check finds the product. */
  lemma {:induction false} OrderCommitOk(db: Db, p: Product, buyer: Wallet, seller: Wallet, quantity: int,
                                         orderCode: string, txCode: string)
    requires p in db.products && (p.stock.Some? ==> p.stock.value >= quantity)
    ensures OrderCommit(db, p, buyer, seller, quantity, orderCode, txCode).0.Ok?
  {
    StockRecheckPasses(db, p, quantity);
  }


  /** The in-transaction stock UPDATE always matches a product that passed the stock check. */
  lemma {:induction false} StockRecheckPasses(db: Db, p: Product, quantity: int)
    requires p in db.products && (p.stock.Some? ==> p.stock.value >= quantity)
    ensures exists x :: x in db.products && StockCovers(x, p.id, quantity)
  {
    assert StockCovers(p, p.id, quantity);
  }

  /** A frozen seller wallet does not stop a sale: the seller is credited anyway. */
  lemma {:induction false} SellerFrozenIgnored(ws: seq<Wallet>, buyerId: nat, seller: Wallet, total: int)
    requires seller in ws
    requires var b := WalletByUser(ws, buyerId); b.Some? && !b.value.isFrozen && b.value.balance >= total
    ensures WalletChecks(ws, buyerId, seller.userId, total).Ok?
  {
  }

  /**
   * A successful order: one COMPLETED PURCHASE transaction whose key is the
   * order code, one COMPLETED order whose final price is price × quantity,
   * the buyer debited and the seller credited that amount (so the points in
   * circulation do not move), and no ledger entry.
   */
  lemma {:induction false} OrderEffect(db: Db, req: CreateOrderRequest, buyerId: nat, env: Env)
    requires ValidEnv(env) && UniqueWallets(db.wallets)
    requires CreateOrderSpec(db, req, buyerId, env).0.Ok?
    ensures var (r, db') := CreateOrderSpec(db, req, buyerId, env);
      var p := ProductById(db.products, req.productId).value;
      var total := p.price * req.quantity;
      var orderCode := TransactionCode("ORD", env.today, env.random);
      |db'.transactions| == |db.transactions| + 1 && db'.transactions[..|db.transactions|] == db.transactions &&
      var t := db'.transactions[|db.transactions|];
      t.txType == Purchase && t.status == Completed && t.idempotencyKey == orderCode &&
      t.amount == t.netAmount == total && t.feeAmount == 0 &&
      |db'.orders| == |db.orders| + 1 && db'.orders[..|db.orders|] == db.orders &&
      var o := db'.orders[|db.orders|];
      o.id == r.value.id && o.orderCode == orderCode && o.status == OrderCompleted &&
      o.buyerId == buyerId && o.sellerId == p.sellerId && o.productId == p.id &&
      o.unitPrice == p.price && o.totalPrice == o.finalPrice == total && o.discountAmount == 0 &&
      o.transactionId == Some(t.id) && o.notes == Some(OrderNotesAsWritten(p.id, req.quantity)) &&
      r.value.finalPrice == total &&
      TotalBalance(db'.wallets) == TotalBalance(db.wallets) &&
      db'.ledger == db.ledger
  {
    var p := ProductChecks(db.products, req, buyerId).value;
    var total := p.price * req.quantity;
    var (buyer, seller) := WalletChecks(db.wallets, buyerId, p.sellerId, total).value;
    DebitCreditConserves(db.wallets, buyer.id, seller.id, total);
  }

  /**
   * Stock moves only for a limited product: the stock UPDATE is applied to
   * its row, lowering the stock and raising the sold count by the quantity
   * (DecrementStockLookup). An unlimited product's row, sold count included,
   * is left as it was.
   */
  lemma {:induction false} OrderStock(db: Db, req: CreateOrderRequest, buyerId: nat, env: Env)
    requires ValidEnv(env)
    requires CreateOrderSpec(db, req, buyerId, env).0.Ok?
    ensures ProductChecks(db.products, req, buyerId).Ok?
    ensures var p := ProductChecks(db.products, req, buyerId).value;
      CreateOrderSpec(db, req, buyerId, env).1.products ==
        if IsUnlimited(p) then db.products else DecrementStockRows(db.products, p.id, req.quantity)
  {
    var p := ProductChecks(db.products, req, buyerId).value;
    var (buyer, seller) := WalletChecks(db.wallets, buyerId, p.sellerId, p.price * req.quantity).value;
    var orderCode := TransactionCode("ORD", env.today, env.random);
    var txCode := TransactionCode("TRX", env.today, env.random2);
    CommitProducts(db, p, buyer, seller, req.quantity, orderCode, txCode);
  }

  /** The product rows after the writes of an order that passed the stock check. */
  lemma {:induction false} CommitProducts(db: Db, p: Product, buyer: Wallet, seller: Wallet, quantity: int, orderCode: string, txCode: string)
    requires p in db.products && (p.stock.Some? ==> p.stock.value >= quantity)
    ensures OrderCommit(db, p, buyer, seller, quantity, orderCode, txCode).0.Ok?
    ensures OrderCommit(db, p, buyer, seller, quantity, orderCode, txCode).1.products ==
      if IsUnlimited(p) then db.products else DecrementStockRows(db.products, p.id, quantity)
  {
    StockRecheckPasses(db, p, quantity);
  }

  /**
   * Retries are not recognised: whether an order goes through does not
   * depend on the transactions already on file, since the key it stores is
   * a freshly generated order code.
   */
  lemma {:induction false} OrderIgnoresPriorTransactions(db: Db, txs: seq<Transaction>, req: CreateOrderRequest, buyerId: nat, env: Env)
    requires ValidEnv(env)
    ensures CreateOrderSpec(db.(transactions := txs), req, buyerId, env).0.Ok? <==>
            CreateOrderSpec(db, req, buyerId, env).0.Ok?
  {
    if ProductChecks(db.products, req, buyerId).Ok? {
      var p := ProductChecks(db.products, req, buyerId).value;
      if WalletChecks(db.wallets, buyerId, p.sellerId, p.price * req.quantity).Ok? {
        StockRecheckPasses(db, p, req.quantity);
      }
    }
  }

  /**
   * With positive prices, a validated quantity and a fresh order code, an
   * order keeps the wallet invariant: no balance goes below zero.
   */
  lemma {:induction false} OrderKeepsInvariant(db: Db, req: CreateOrderRequest, buyerId: nat, env: Env)
    requires ValidEnv(env)
    requires BackendWalletService.WalletInvariant(db) && PricesPositive(db.products) && req.quantity >= 1
    requires TxByKey(db.transactions, TransactionCode("ORD", env.today, env.random)).None?
    ensures BackendWalletService.WalletInvariant(CreateOrderSpec(db, req, buyerId, env).1)
  {
    if ProductChecks(db.products, req, buyerId).Ok? {
      var p := ProductChecks(db.products, req, buyerId).value;
      var total := p.price * req.quantity;
      if WalletChecks(db.wallets, buyerId, p.sellerId, total).Ok? {
        var (buyer, seller) := WalletChecks(db.wallets, buyerId, p.sellerId, total).value;
        var orderCode := TransactionCode("ORD", env.today, env.random);
        var txCode := TransactionCode("TRX", env.today, env.random2);
        assert CreateOrderSpec(db, req, buyerId, env) == OrderCommit(db, p, buyer, seller, req.quantity, orderCode, txCode);
        OrderCommitKeeps(db, p, buyer, seller, req.quantity, orderCode, txCode);
      }
    }
  }

  /** The writes of a sale keep the wallet invariant when the price is positive and the buyer can pay. */
  lemma {:induction false} OrderCommitKeeps(db: Db, p: Product, buyer: Wallet, seller: Wallet, quantity: int,
                                            orderCode: string, txCode: string)
    requires BackendWalletService.WalletInvariant(db) && p in db.products && p.price > 0 && quantity >= 1
    requires p.stock.Some? ==> p.stock.value >= quantity
    requires buyer in db.wallets && seller in db.wallets && buyer.userId != seller.userId
    requires buyer.balance >= p.price * quantity
    requires TxByKey(db.transactions, orderCode).None?
    ensures BackendWalletService.WalletInvariant(OrderCommit(db, p, buyer, seller, quantity, orderCode, txCode).1)
  {
    var total := p.price * quantity;
    assert total >= 0;
    DebitCreditKeeps(db.wallets, buyer, seller, total);
    InsertNewKey(db.transactions, OrderRecord(p, buyer, seller, total, orderCode, txCode).(id := NextId(TxIds(db.transactions))));
    StockRecheckPasses(db, p, quantity);
  }

  // ------------------------------------------------- update and delete product

  /** Applies the fields the request sets to the product; an absent field keeps its value. */
  function MergeUpdate(p: Product, req: UpdateProductRequest): (r: Product)
    ensures r.id == p.id && r.sellerId == p.sellerId && r.productType == p.productType &&
            r.soldCount == p.soldCount && r.deleted == p.deleted
    ensures r.price == req.price.GetOr(p.price)
    ensures r.stock == Overwrite(req.stock, p.stock)
    ensures r.isActive == req.isActive.GetOr(p.isActive)
  {
    p.(name := req.name.GetOr(p.name), description := Overwrite(req.description, p.description),
       price := req.price.GetOr(p.price), stock := Overwrite(req.stock, p.stock),
       thumbnailUrl := Overwrite(req.thumbnailUrl, p.thumbnailUrl), fileUrl := Overwrite(req.fileUrl, p.fileUrl),
       isActive := req.isActive.GetOr(p.isActive))
  }

  /**
   * The is_unlimited field of an update is not persisted: the stock column
   * alone decides, so the flag has no effect on the stored product.
   */
  lemma {:induction false} UnlimitedFlagIgnored(p: Product, req: UpdateProductRequest, flag: Option<bool>)
    ensures MergeUpdate(p, req.(isUnlimited := flag)) == MergeUpdate(p, req)
    ensures IsUnlimited(MergeUpdate(p, req)) <==> (req.stock.None? && IsUnlimited(p))
  {
  }

  /** Service.UpdateProduct as written: any price, zero or negative included, is stored. */
  function UpdateProductSpec(db: Db, id: nat, req: UpdateProductRequest, userId: nat): (Option<ErrorCode>, Db)
  {
    match ProductById(db.products, id)
    case None => (Some(NotFound), db)
    case Some(p) =>
      if p.sellerId != userId then (Some(Forbidden), db)
      else (None, db.(products := ProductUpdateRows(db.products, MergeUpdate(p, req))))
  }

  method UpdateProduct(db: Database, id: nat, req: UpdateProductRequest, userId: nat) returns (err: Option<ErrorCode>)
    modifies db
    ensures (err, db.Snapshot()) == UpdateProductSpec(old(db.Snapshot()), id, req, userId)
  {
    var p := db.GetProductByID(id);
    if p.None? {
      return Some(NotFound);
    }
    if p.value.sellerId != userId {
      return Some(Forbidden);
    }
    db.UpdateProduct(MergeUpdate(p.value, req));
    return None;
  }

  /**
   * UpdateProduct with the price rule of CreateProductRequest.Validate: a
   * price that is set must be positive.
   */
  function UpdateProductChecked(db: Db, id: nat, req: UpdateProductRequest, userId: nat): (Option<ErrorCode>, Db)
  {
    if req.price.Some? && req.price.value <= 0 then (Some(ValidationError), db)
    else UpdateProductSpec(db, id, req, userId)
  }

  /** Only the seller updates, and only a product that is not deleted; otherwise nothing is written. */
  lemma {:induction false} UpdateProductOutcomes(db: Db, id: nat, req: UpdateProductRequest, userId: nat)
    ensures var (err, db') := UpdateProductSpec(db, id, req, userId);
      var p := ProductById(db.products, id);
      (err == Some(NotFound) <==> p.None?) &&
      (err == Some(Forbidden) <==> p.Some? && p.value.sellerId != userId) &&
      (err.None? <==> p.Some? && p.value.sellerId == userId) &&
      (err.Some? ==> db' == db) &&
      (err.None? ==> db' == db.(products := db'.products))
  {
  }

  /** The corrected update keeps every price positive. */
  lemma {:induction false} UpdateCheckedKeepsPrices(db: Db, id: nat, req: UpdateProductRequest, userId: nat)
    requires PricesPositive(db.products)
    ensures PricesPositive(UpdateProductChecked(db, id, req, userId).1.products)
  {
    var (err, db') := UpdateProductChecked(db, id, req, userId);
    if err.None? {
      var p := ProductById(db.products, id).value;
      var m := MergeUpdate(p, req);
      assert m.price > 0;
      forall x | x in db'.products ensures x.price > 0 {
        var k :| 0 <= k < |db'.products| && db'.products[k] == x;
        assert x.price == db.products[k].price || x.price == m.price;
      }
    }
  }

  /**
   * As written, a seller can set a price of -5; a buyer with no points then
   * buys the product, is debited 5 points and is left at -5.
   */
  lemma {:induction false} NegativePriceOverdraws(env: Env)
    requires ValidEnv(env)
    ensures var buyer := Wallet(1, 10, 0, 0, 0, 0, false);
      var seller := Wallet(2, 20, 0, 0, 0, 0, false);
      var p := Product(1, 20, "Notes", None, "EBOOK", 5, None, None, None, 0, true, false);
      var db := Db([buyer, seller], [], [], [], [p], [], [], []);
      var req := UpdateProductRequest(None, None, Some(-5), None, None, None, None, None);
      var (err, db1) := UpdateProductSpec(db, 1, req, 20);
      var (r, db2) := CreateOrderSpec(db1, CreateOrderRequest(1, 1), 10, env);
      BackendWalletService.WalletInvariant(db) && PricesPositive(db.products) &&
      err.None? && r.Ok? && r.value.finalPrice == -5 &&
      WalletByUser(db2.wallets, 10) == Some(buyer.(balance := -5, lifetimeSpent := 5)) &&
      !NonNegative(db2.wallets)
  {
    var buyer := Wallet(1, 10, 0, 0, 0, 0, false);
    var seller := Wallet(2, 20, 0, 0, 0, 0, false);
    var p := Product(1, 20, "Notes", None, "EBOOK", 5, None, None, None, 0, true, false);
    var db := Db([buyer, seller], [], [], [], [p], [], [], []);
    var req := UpdateProductRequest(None, None, Some(-5), None, None, None, None, None);
    var p' := p.(price := -5);
    assert ProductById(db.products, 1) == Some(p);
    assert ProductUpdateRows([p], MergeUpdate(p, req)) == [p'];
    assert UpdateProductSpec(db, 1, req, 20) == (None, db.(products := [p']));
    NegativePriceOrder(buyer, seller, p', db.(products := [p']), env);
  }

  /** The order step of NegativePriceOverdraws: a price of -5 debits the buyer 5 points and credits the seller 5. */
  lemma {:induction false} NegativePriceOrder(buyer: Wallet, seller: Wallet, p: Product, db: Db, env: Env)
    requires ValidEnv(env)
    requires buyer == Wallet(1, 10, 0, 0, 0, 0, false) && seller == Wallet(2, 20, 0, 0, 0, 0, false)
    requires p == Product(1, 20, "Notes", None, "EBOOK", -5, None, None, None, 0, true, false)
    requires db == Db([buyer, seller], [], [], [], [p], [], [], [])
    ensures var (r, db2) := CreateOrderSpec(db, CreateOrderRequest(1, 1), 10, env);
      r.Ok? && r.value.finalPrice == -5 &&
      db2.wallets == [buyer.(balance := -5, lifetimeSpent := 5), seller.(balance := 5, lifetimeEarned := 5)]
  {
    assert ProductById(db.products, 1) == Some(p);
    assert ProductChecks(db.products, CreateOrderRequest(1, 1), 10) == Ok(p);
    assert WalletByUser(db.wallets, 10) == Some(buyer);
    assert WalletByUser(db.wallets, 20) == Some(seller);
    assert WalletChecks(db.wallets, 10, 20, -5) == Ok((buyer, seller));
    var ws := StatsRows(StatsRows(db.wallets, 1, -5, false), 2, -5, true);
    assert ws == [buyer.(balance := -5, lifetimeSpent := 5), seller.(balance := 5, lifetimeEarned := 5)];
  }

  /** Go's int64 arithmetic: the exact value reduced to [-2^63, 2^63). */
  function Int64(x: int): (r: int)
    ensures -0x8000_0000_0000_0000 <= r < 0x8000_0000_0000_0000
    ensures (r - x) % 0x1_0000_0000_0000_0000 == 0
  {
    var m := x % 0x1_0000_0000_0000_0000;
    if m >= 0x8000_0000_0000_0000 then m - 0x1_0000_0000_0000_0000 else m
  }

  /** product.Price * int64(req.Quantity) as Go computes it: wrapped to 64 bits. */
  function OrderTotalAsWritten(price: int, quantity: int): (r: int)
    ensures -0x8000_0000_0000_0000 <= price * quantity < 0x8000_0000_0000_0000 ==> r == price * quantity
  {
    Int64(price * quantity)
  }

  /**
   * As written, the total wraps. For an unlimited product priced 4 and a
   * quantity of 2^62 the total is 0, so a buyer with no points passes the
   * balance check that the exact total 2^64 fails. A quantity of
   * (2^64 - 1) / 3 at price 3 gives a total of -1, which passes the check,
   * and the debit of |-1| leaves the buyer at -1.
   */
  lemma {:induction false} OrderTotalOverflows()
    ensures var buyer := Wallet(1, 10, 0, 0, 0, 0, false);
      var seller := Wallet(2, 20, 0, 0, 0, 0, false);
      OrderTotalAsWritten(4, 0x4000_0000_0000_0000) == 0 &&
      WalletChecks([buyer, seller], 10, 20, OrderTotalAsWritten(4, 0x4000_0000_0000_0000)) == Ok((buyer, seller)) &&
      WalletChecks([buyer, seller], 10, 20, 4 * 0x4000_0000_0000_0000) == Err(InsufficientBalance) &&
      OrderTotalAsWritten(3, 6148914691236517205) == -1 &&
      WalletChecks([buyer, seller], 10, 20, OrderTotalAsWritten(3, 6148914691236517205)) == Ok((buyer, seller)) &&
      StatsRows([buyer, seller], 1, OrderTotalAsWritten(3, 6148914691236517205), false)[0].balance == -1
  {
    var buyer := Wallet(1, 10, 0, 0, 0, 0, false);
    var seller := Wallet(2, 20, 0, 0, 0, 0, false);
    assert 4 * 0x4000_0000_0000_0000 == 0x1_0000_0000_0000_0000;
    assert 3 * 6148914691236517205 == 0x1_0000_0000_0000_0000 - 1;
    assert WalletByUser([buyer, seller], 10) == Some(buyer);
    assert WalletByUser([buyer, seller], 20) == Some(seller);
  }

  /** Service.DeleteProduct: seller only; a soft delete. */
  function DeleteProductSpec(db: Db, id: nat, userId: nat): (Option<ErrorCode>, Db)
  {
    match ProductById(db.products, id)
    case None => (Some(NotFound), db)
    case Some(p) =>
      if p.sellerId != userId then (Some(Forbidden), db)
      else (None, db.(products := SoftDeleteProductRows(db.products, id)))
  }

  method DeleteProduct(db: Database, id: nat, userId: nat) returns (err: Option<ErrorCode>)
    modifies db
    ensures (err, db.Snapshot()) == DeleteProductSpec(old(db.Snapshot()), id, userId)
  {
    var p := db.GetProductByID(id);
    if p.None? {
      return Some(NotFound);
    }
    if p.value.sellerId != userId {
      return Some(Forbidden);
    }
    db.DeleteProduct(id);
    return None;
  }

  /**
   * Only the seller deletes; afterwards the product is not found (so it can
   * no longer be bought) and every other product is found as before.
   */
  lemma {:induction false} DeleteProductOutcomes(db: Db, id: nat, userId: nat, other: nat)
    requires other != id
    ensures var (err, db') := DeleteProductSpec(db, id, userId);
      var p := ProductById(db.products, id);
      (err == Some(NotFound) <==> p.None?) &&
      (err == Some(Forbidden) <==> p.Some? && p.value.sellerId != userId) &&
      (err.Some? ==> db' == db) &&
      (err.None? ==>
        ProductById(db'.products, id).None? &&
        ProductById(db'.products, other) == ProductById(db.products, other))
  {
    SoftDeleteHides(db.products, id, other);
  }

  /** A deleted product cannot be ordered. */
  lemma {:induction false} DeletedNotForSale(db: Db, id: nat, userId: nat, req: CreateOrderRequest, buyerId: nat, env: Env)
    requires ValidEnv(env) && req.productId == id
    requires DeleteProductSpec(db, id, userId).0.None?
    ensures CreateOrderSpec(DeleteProductSpec(db, id, userId).1, req, buyerId, env).0 == Err(ProductNotFound)
  {
    SoftDeleteHides(db.products, id, id + 1);
  }
}
