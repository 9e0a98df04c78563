/**
 * The rewrite's marketplace handlers (marketplace/module.go): creating and
 * patching products, placing an order paid from the balance or by a
 * checkout QR code, and the seller's view of orders grouped by order id.
 *
 * The order handler runs without a database transaction: its checks all
 * come before its first write, so a rejected order writes nothing, but a
 * balance order debits the buyer with a plain Save and credits no seller.
 */
module WpMarketplace {
  import opened Wrappers
  import opened WpModels
  import opened WpTables
  import opened WpStore
  import opened WpQrService
  import BT = BackendTables
  import BD = BackendDatabase
  import WpHelpers

  // ------------------------------------------------------------- products

  /** The create-product request body. */
  datatype ProductForm = ProductForm(
    name: string, description: string, price: int, category: string,
    stock: int, thumbnailUrl: string, fileUrl: string)

  /** The row CreateProduct inserts: stock 0 means the default of 10; every text field is stored, even empty. */
  function NewProduct(id: string, sellerId: string, form: ProductForm): (p: Product)
    ensures p.id == id && p.sellerId == sellerId && p.status == "active" && p.totalSold == 0
    ensures p.stock != 0
    ensures p.stock == (if form.stock == 0 then 10 else form.stock)
    ensures p.description == Some(form.description) && p.fileUrl == Some(form.fileUrl)
  {
    Product(id, sellerId, form.name, Some(form.description), form.price, form.category,
            Some(form.thumbnailUrl), Some(form.fileUrl), if form.stock == 0 then 10 else form.stock, 0, "active")
  }

  method CreateProduct(store: Store, sellerId: string, form: ProductForm, id: string) returns (p: Product)
    modifies store
    ensures p == NewProduct(id, sellerId, form)
    ensures store.Snapshot() == old(store.Snapshot()).(products := old(store.products) + [p])
  {
    p := NewProduct(id, sellerId, form);
    store.InsertProduct(p);
  }

  /** A product just created can be ordered at once: the active-product lookup finds it. */
  lemma {:induction false} CreatedProductOrderable(ps: seq<Product>, sellerId: string, form: ProductForm, id: string)
    requires forall p :: p in ps ==> p.id != id
    ensures ActiveProduct(ps + [NewProduct(id, sellerId, form)], id) == Some(NewProduct(id, sellerId, form))
  {
    var np := NewProduct(id, sellerId, form);
    var r := ActiveProduct(ps + [np], id);
    assert np in ps + [np];
    assert r.Some?;
    assert r.value in ps + [np];
  }

  /** The update-product request body; absent fields are None. */
  datatype ProductPatch = ProductPatch(
    name: string, description: string, price: int, category: string,
    stock: Option<int>, thumbnailUrl: Option<string>, status: string)

  /** The product a caller may update: any product for an admin, only their own for everyone else. */
  function EditableProduct(ps: seq<Product>, id: string, userId: string, role: string): (r: Option<Product>)
    ensures r.Some? ==> r.value in ps && r.value.id == id
    ensures r.Some? && role != "admin" ==> r.value.sellerId == userId
    ensures role == "admin" ==> (r.None? <==> forall p :: p in ps ==> p.id != id)
    ensures role != "admin" ==> (r.None? <==> forall p :: p in ps ==> p.id != id || p.sellerId != userId)
  {
    if role == "admin" then ProductById(ps, id)
    else BT.First(ps, (p: Product) => p.id == id && p.sellerId == userId)
  }

  /** The columns the patch sets: empty text, a non-positive price and absent fields leave a column alone. */
  function Patched(p: Product, patch: ProductPatch): (r: Product)
    ensures r.id == p.id && r.sellerId == p.sellerId && r.fileUrl == p.fileUrl && r.totalSold == p.totalSold
  {
    p.(name := if patch.name != "" then patch.name else p.name,
       description := if patch.description != "" then Some(patch.description) else p.description,
       price := if patch.price > 0 then patch.price else p.price,
       category := if patch.category != "" then patch.category else p.category,
       stock := if patch.stock.Some? then patch.stock.value else p.stock,
       thumbnailUrl := if patch.thumbnailUrl.Some? then patch.thumbnailUrl else p.thumbnailUrl,
       status := if patch.status != "" then patch.status else p.status)
  }

  /** Applying the same patch twice is applying it once, and an empty patch changes nothing. */
  lemma {:induction false} PatchIdempotent(p: Product, patch: ProductPatch)
    ensures Patched(Patched(p, patch), patch) == Patched(p, patch)
    ensures Patched(p, ProductPatch("", "", 0, "", None, None, "")) == p
  {
  }

  /** Unlike the older backend, a patch cannot make a positive price zero or negative. */
  lemma {:induction false} PatchKeepsPricePositive(p: Product, patch: ProductPatch)
    requires p.price > 0
    ensures Patched(p, patch).price > 0
    ensures patch.price > 0 ==> Patched(p, patch).price == patch.price
  {
  }

  function UpdateProductSpec(db: WpDb, id: string, userId: string, role: string, patch: ProductPatch)
    : (Result<Product, WpError>, WpDb)
  {
    match EditableProduct(db.products, id, userId, role)
    case None => (Err(NotFound("Product not found")), db)
    case Some(p) =>
      var np := Patched(p, patch);
      (Ok(np), db.(products := ProductRows(db.products, np)))
  }

  method UpdateProduct(store: Store, id: string, userId: string, role: string, patch: ProductPatch)
    returns (r: Result<Product, WpError>)
    modifies store
    ensures (r, store.Snapshot()) == UpdateProductSpec(old(store.Snapshot()), id, userId, role, patch)
  {
    var found := EditableProduct(store.products, id, userId, role);
    if found.None? {
      return Err(NotFound("Product not found"));
    }
    var np := Patched(found.value, patch);
    store.SaveProduct(np);
    r := Ok(np);
  }

  /**
   * A refused update writes nothing; an accepted one rewrites only the
   * product's own row, and reloading the product by id gives the patched row.
   */
  lemma {:induction false} UpdateProductOutcomes(db: WpDb, id: string, userId: string, role: string, patch: ProductPatch)
    ensures var (r, db') := UpdateProductSpec(db, id, userId, role, patch);
      (r.Err? <==> EditableProduct(db.products, id, userId, role).None?) &&
      (r.Err? ==> r.error == NotFound("Product not found") && db' == db) &&
      (r.Ok? ==> r.value == Patched(EditableProduct(db.products, id, userId, role).value, patch) &&
                 ProductById(db'.products, id) == Some(r.value) &&
                 db' == db.(products := db'.products) &&
                 forall i :: 0 <= i < |db.products| && db.products[i].id != id ==> db'.products[i] == db.products[i])
  {
    match EditableProduct(db.products, id, userId, role)
    case None =>
    case Some(p) =>
      RewriteById(db.products, p, Patched(p, patch));
  }

  /** Rewriting a stored product's row by id: the lookup by id finds the new row, and other rows stay. */
  lemma {:induction false} RewriteById(ps: seq<Product>, p: Product, np: Product)
    requires p in ps && np.id == p.id
    ensures ProductById(ProductRows(ps, np), p.id) == Some(np)
    ensures forall i :: 0 <= i < |ps| && ps[i].id != p.id ==> ProductRows(ps, np)[i] == ps[i]
  {
    var rs := ProductRows(ps, np);
    var i :| 0 <= i < |ps| && ps[i] == p;
    assert rs[i] == np;
    var got := ProductById(rs, p.id);
    assert got.Some?;
    var j :| 0 <= j < |rs| && rs[j] == got.value;
    assert ps[j].id == p.id;
  }


  // --------------------------------------------------------------- orders

  datatype ItemRequest = ItemRequest(productId: string, quantity: int)

  datatype OrderRequest = OrderRequest(items: seq<ItemRequest>, notes: string, paymentMethod: string)

  /** The generated ids one order needs: one per item, the purchase record, the order, the checkout code. */
  datatype OrderIds = OrderIds(items: seq<string>, txId: string, orderId: string, codeUuid: string, qrId: string)

  /** The response: the order, its items, the payment method, the buyer's balance afterwards and the checkout code. */
  datatype OrderResult = OrderResult(
    order: Order, items: seq<OrderItem>, paymentMethod: string, walletBalance: int, qr: Option<QrCode>)

  /** A quantity below one is ordered as one. */
  function Quantity(q: int): (r: int)
    ensures r >= 1 && (q >= 1 ==> r == q)
  {
    if q < 1 then 1 else q
  }

  function PaymentMethod(m: string): string
  {
    if m == "" then "balance" else m
  }

  function OrderLine(p: Product, quantity: int, id: string): OrderItem
  {
    OrderItem(id, "", p.id, p.sellerId, Quantity(quantity), p.price)
  }

  function Subtotal(item: OrderItem): int
  {
    item.price * item.quantity
  }

  function LinesTotal(lines: seq<OrderItem>): int
  {
    if lines == [] then 0 else LinesTotal(lines[..|lines| - 1]) + Subtotal(lines[|lines| - 1])
  }

  /**
   * The pricing loop: one line per requested item, in request order, at the
   * active product's price; the first item whose product is missing or not
   * active stops the order.
   */
  function PriceItems(ps: seq<Product>, items: seq<ItemRequest>, ids: seq<string>): (r: Result<seq<OrderItem>, WpError>)
    requires |ids| >= |items|
    ensures r.Ok? ==> |r.value| == |items|
  {
    if items == [] then Ok([])
    else
      var n := |items| - 1;
      match PriceItems(ps, items[..n], ids)
      case Err(e) => Err(e)
      case Ok(lines) =>
        match ActiveProduct(ps, items[n].productId)
        case None => Err(NotFound("Product not found: " + items[n].productId))
        case Some(p) => Ok(lines + [OrderLine(p, items[n].quantity, ids[n])])
  }

  /** An accepted request has one line per item, at the price of the active product it names. */
  lemma {:induction false} PricedLines(ps: seq<Product>, items: seq<ItemRequest>, ids: seq<string>)
    requires |ids| >= |items|
    requires PriceItems(ps, items, ids).Ok?
    ensures forall k :: 0 <= k < |items| ==>
      ActiveProduct(ps, items[k].productId).Some? &&
      PriceItems(ps, items, ids).value[k] == OrderLine(ActiveProduct(ps, items[k].productId).value, items[k].quantity, ids[k])
  {
    if items != [] {
      var n := |items| - 1;
      var init := items[..n];
      assert PriceItems(ps, init, ids).Ok?;
      PricedLines(ps, init, ids);
      var lines := PriceItems(ps, init, ids).value;
      var p := ActiveProduct(ps, items[n].productId).value;
      var all := lines + [OrderLine(p, items[n].quantity, ids[n])];
      assert PriceItems(ps, items, ids).value == all;
      forall k | 0 <= k < |items|
        ensures ActiveProduct(ps, items[k].productId).Some? &&
                all[k] == OrderLine(ActiveProduct(ps, items[k].productId).value, items[k].quantity, ids[k])
      {
        if k < n {
          assert items[k] == init[k];
          assert ActiveProduct(ps, init[k].productId).Some? &&
                 lines[k] == OrderLine(ActiveProduct(ps, init[k].productId).value, init[k].quantity, ids[k]);
          assert all[k] == lines[k];
        } else {
          assert k == n;
        }
      }
    }
  }

  /** A request is refused exactly when some item names no active product. */
  lemma {:induction false} PriceRefused(ps: seq<Product>, items: seq<ItemRequest>, ids: seq<string>)
    requires |ids| >= |items|
    ensures PriceItems(ps, items, ids).Err? <==> exists k :: 0 <= k < |items| && ActiveProduct(ps, items[k].productId).None?
  {
    if items != [] {
      var n := |items| - 1;
      var init := items[..n];
      PriceRefused(ps, init, ids);
      if PriceItems(ps, init, ids).Err? {
        var k :| 0 <= k < n && ActiveProduct(ps, init[k].productId).None?;
        assert items[k] == init[k];
      } else if ActiveProduct(ps, items[n].productId).None? {
        assert PriceItems(ps, items, ids).Err?;
      } else {
        assert PriceItems(ps, items, ids).Ok?;
        forall k | 0 <= k < |items|
          ensures ActiveProduct(ps, items[k].productId).Some?
        {
          if k < n {
            assert items[k] == init[k];
            assert !(0 <= k < n && ActiveProduct(ps, init[k].productId).None?);
          } else {
            assert k == n;
          }
        }
      }
    }
  }

  /** The item reported is the first one naming no active product. */
  lemma {:induction false} FirstRefusal(ps: seq<Product>, items: seq<ItemRequest>, ids: seq<string>)
    requires |ids| >= |items|
    requires PriceItems(ps, items, ids).Err?
    ensures exists k :: (0 <= k < |items| && ActiveProduct(ps, items[k].productId).None? &&
      PriceItems(ps, items, ids).error == NotFound("Product not found: " + items[k].productId) &&
      forall j :: 0 <= j < k ==> ActiveProduct(ps, items[j].productId).Some?)
  {
    var n := |items| - 1;
    var init := items[..n];
    assert forall k :: 0 <= k < n ==> init[k] == items[k];
    if PriceItems(ps, init, ids).Err? {
      FirstRefusal(ps, init, ids);
    } else {
      PriceRefused(ps, init, ids);
    }
  }

  /** What the order should cost: each item's active price times its quantity (at least one). */
  function ItemsTotal(ps: seq<Product>, items: seq<ItemRequest>): int
  {
    if items == [] then 0
    else
      var n := |items| - 1;
      var price := match ActiveProduct(ps, items[n].productId) case Some(p) => p.price case None => 0;
      ItemsTotal(ps, items[..n]) + price * Quantity(items[n].quantity)
  }

  /** The total the handler charges is the sum over the request of price times clamped quantity. */
  lemma {:induction false} PricedTotal(ps: seq<Product>, items: seq<ItemRequest>, ids: seq<string>)
    requires |ids| >= |items|
    requires PriceItems(ps, items, ids).Ok?
    ensures LinesTotal(PriceItems(ps, items, ids).value) == ItemsTotal(ps, items)
  {
    if items != [] {
      var n := |items| - 1;
      var lines := PriceItems(ps, items, ids).value;
      assert PriceItems(ps, items[..n], ids).Ok?;
      assert lines[..n] == PriceItems(ps, items[..n], ids).value;
      PricedTotal(ps, items[..n], ids);
    }
  }

  /** Once a prefix of the request is refused, the whole request is refused the same way. */
  lemma {:induction false} PriceItemsStops(ps: seq<Product>, items: seq<ItemRequest>, ids: seq<string>, j: nat)
    requires j <= |items| <= |ids|
    requires PriceItems(ps, items[..j], ids).Err?
    ensures PriceItems(ps, items, ids) == PriceItems(ps, items[..j], ids)
  {
    if j < |items| {
      var n := |items| - 1;
      assert items[..n][..j] == items[..j];
      PriceItemsStops(ps, items[..n], ids, j);
      assert PriceItems(ps, items[..n], ids).Err?;
    } else {
      assert items[..j] == items;
    }
  }

  /** One more accepted item extends the priced prefix by its line and the total by its subtotal. */
  lemma {:induction false} PriceStep(ps: seq<Product>, items: seq<ItemRequest>, ids: seq<string>, i: nat, lines: seq<OrderItem>, p: Product)
    requires i < |items| <= |ids|
    requires PriceItems(ps, items[..i], ids) == Ok(lines)
    requires ActiveProduct(ps, items[i].productId) == Some(p)
    ensures PriceItems(ps, items[..i + 1], ids) == Ok(lines + [OrderLine(p, items[i].quantity, ids[i])])
    ensures LinesTotal(lines + [OrderLine(p, items[i].quantity, ids[i])]) == LinesTotal(lines) + Subtotal(OrderLine(p, items[i].quantity, ids[i]))
  {
    assert items[..i + 1][..i] == items[..i];
    var line := OrderLine(p, items[i].quantity, ids[i]);
    assert (lines + [line])[..|lines|] == lines;
  }

  /** A refused item refuses the whole request with the not-found error naming it. */
  lemma {:induction false} PriceRefusedAt(ps: seq<Product>, items: seq<ItemRequest>, ids: seq<string>, i: nat, lines: seq<OrderItem>)
    requires i < |items| <= |ids|
    requires PriceItems(ps, items[..i], ids) == Ok(lines)
    requires ActiveProduct(ps, items[i].productId).None?
    ensures PriceItems(ps, items, ids) == Err(NotFound("Product not found: " + items[i].productId))
  {
    assert items[..i + 1][..i] == items[..i];
    PriceItemsStops(ps, items, ids, i + 1);
  }

  /** The pricing loop of CreateOrder. */
  method PriceOrderItems(store: Store, items: seq<ItemRequest>, ids: seq<string>)
    returns (r: Result<seq<OrderItem>, WpError>, total: int)
    requires |ids| >= |items|
    ensures r == PriceItems(store.products, items, ids)
    ensures r.Ok? ==> total == LinesTotal(r.value)
  {
    var ps := store.products;
    var lines: seq<OrderItem> := [];
    total := 0;
    var i := 0;
    while i < |items|
      invariant 0 <= i <= |items|
      invariant PriceItems(ps, items[..i], ids) == Ok(lines)
      invariant total == LinesTotal(lines)
    {
      var p := store.GetActiveProduct(items[i].productId);
      if p.None? {
        r := Err(NotFound("Product not found: " + items[i].productId));
        PriceRefusedAt(ps, items, ids, i, lines);
        return;
      }
      var line := OrderLine(p.value, items[i].quantity, ids[i]);
      PriceStep(ps, items, ids, i, lines, p.value);
      lines := lines + [line];
      total := total + Subtotal(line);
      i := i + 1;
    }
    assert items[..i] == items;
    r := Ok(lines);
  }

  /** The purchase record: sender only, no receiver, no idempotency key. */
  function PurchaseRecord(buyerId: string, total: int, id: string): Transaction
  {
    Transaction(id, Some(buyerId), None, total, "PURCHASE", "SUCCESS", None, Some("Pembayaran order marketplace"))
  }

  /** The balance path: the wallet is loaded, checked, saved with balance - total, and a purchase record written. */
  function ChargeSpec(db: WpDb, buyerId: string, total: int, txId: string): (r: Result<WpDb, WpError>)
  {
    match WalletByUser(db.wallets, buyerId)
    case None => Err(BadRequest("Wallet not found"))
    case Some(w) =>
      if w.balance < total then Err(BadRequest("Saldo tidak mencukupi"))
      else Ok(Charged(db, w, buyerId, total, txId))
  }

  /** The tables after a charge: the buyer's wallet saved with balance - total and the purchase record added. */
  function Charged(db: WpDb, w: Wallet, buyerId: string, total: int, txId: string): WpDb
  {
    db.(wallets := BalanceRows(db.wallets, w.id, w.balance - total),
        transactions := db.transactions + [PurchaseRecord(buyerId, total, txId)])
  }

  method ChargeBuyer(store: Store, buyerId: string, total: int, txId: string) returns (err: Option<WpError>)
    modifies store
    ensures var c := ChargeSpec(old(store.Snapshot()), buyerId, total, txId);
      err == (if c.Err? then Some(c.error) else None) &&
      store.Snapshot() == (if c.Ok? then c.value else old(store.Snapshot()))
  {
    var w := store.GetByUserID(buyerId);
    if w.None? {
      return Some(BadRequest("Wallet not found"));
    }
    if w.value.balance < total {
      return Some(BadRequest("Saldo tidak mencukupi"));
    }
    WriteCharge(store, w.value, buyerId, total, txId);
    err := None;
  }

  /** The writes of a charge: the buyer's new balance, then the purchase transaction. */
  method WriteCharge(store: Store, w: Wallet, buyerId: string, total: int, txId: string)
    modifies store
    ensures store.Snapshot() == Charged(old(store.Snapshot()), w, buyerId, total, txId)
  {
    store.UpdateBalance(w.id, w.balance - total);
    var _ := store.CreateTransaction(PurchaseRecord(buyerId, total, ""), txId);
    assert PurchaseRecord(buyerId, total, "").(id := txId) == PurchaseRecord(buyerId, total, txId);
  }

  /** The items with the new order's id filled in. */
  function WithOrder(lines: seq<OrderItem>, orderId: string): (r: seq<OrderItem>)
    ensures |r| == |lines|
    ensures forall k :: 0 <= k < |lines| ==> r[k] == lines[k].(orderId := orderId)
  {
    seq(|lines|, k requires 0 <= k < |lines| => lines[k].(orderId := orderId))
  }

  /** The stock statement of a paid order, run once per item in order. */
  function SoldAll(ps: seq<Product>, items: seq<OrderItem>): (r: seq<Product>)
    ensures |r| == |ps|
  {
    if items == [] then ps
    else
      var n := |items| - 1;
      SoldRows(SoldAll(ps, items[..n]), items[n].productId, items[n].quantity)
  }

  function CheckoutQr(cfg: QrConfig, buyerId: string, orderId: string, total: int, gen: OrderIds, now: int): QrCode
    requires |gen.codeUuid| >= 12
  {
    NewQr(cfg, buyerId, Some(orderId), WpHelpers.GenerateQrCode(gen.codeUuid), total, "CHECKOUT",
          Some("Checkout payment"), now).(id := gen.qrId)
  }

  /** Everything after the checks: the order, its items, the paid-order stock update and the checkout code. */
  function PlaceSpec(db: WpDb, cfg: QrConfig, buyerId: string, lines: seq<OrderItem>, total: int, pay: string,
                     notes: string, gen: OrderIds, now: int): (OrderResult, WpDb)
    requires |gen.codeUuid| >= 12
  {
    var status := if pay == "balance" then "PAID" else "PENDING";
    var order := Order(gen.orderId, buyerId, None, None, total, status, Some(notes));
    var items := WithOrder(lines, gen.orderId);
    var db1 := db.(orders := db.orders + [order], orderItems := db.orderItems + items);
    var db2 := if status == "PAID" then db1.(products := SoldAll(db1.products, items)) else db1;
    if pay == "qris" then
      var q := CheckoutQr(cfg, buyerId, gen.orderId, total, gen, now);
      var db3 := db2.(qrCodes := db2.qrCodes + [q], orders := OrderQrRows(db2.orders, gen.orderId, q.id));
      (OrderResult(order, items, pay, BalanceOf(db3.wallets, buyerId), Some(q)), db3)
    else
      (OrderResult(order, items, pay, BalanceOf(db2.wallets, buyerId), None), db2)
  }

  function CreateOrderSpec(db: WpDb, cfg: QrConfig, buyerId: string, req: OrderRequest, gen: OrderIds, now: int)
    : (Result<OrderResult, WpError>, WpDb)
    requires |gen.items| >= |req.items| && |gen.codeUuid| >= 12
  {
    if req.items == [] then (Err(BadRequest("No items in order")), db)
    else
      var pay := PaymentMethod(req.paymentMethod);
      match PriceItems(db.products, req.items, gen.items)
      case Err(e) => (Err(e), db)
      case Ok(lines) =>
        var total := LinesTotal(lines);
        if pay == "balance" then
          match ChargeSpec(db, buyerId, total, gen.txId)
          case Err(e) => (Err(e), db)
          case Ok(db1) =>
            var (o, db2) := PlaceSpec(db1, cfg, buyerId, lines, total, pay, req.notes, gen, now);
            (Ok(o), db2)
        else
          var (o, db2) := PlaceSpec(db, cfg, buyerId, lines, total, pay, req.notes, gen, now);
          (Ok(o), db2)
  }

  method CreateOrder(store: Store, cfg: QrConfig, buyerId: string, req: OrderRequest, gen: OrderIds, now: int)
    returns (r: Result<OrderResult, WpError>)
    requires |gen.items| >= |req.items| && |gen.codeUuid| >= 12
    modifies store
    ensures (r, store.Snapshot()) == CreateOrderSpec(old(store.Snapshot()), cfg, buyerId, req, gen, now)
  {
    if req.items == [] {
      return Err(BadRequest("No items in order"));
    }
    var pay := PaymentMethod(req.paymentMethod);
    var priced, total := PriceOrderItems(store, req.items, gen.items);
    if priced.Err? {
      return Err(priced.error);
    }
    if pay == "balance" {
      var err := ChargeBuyer(store, buyerId, total, gen.txId);
      if err.Some? {
        return Err(err.value);
      }
    }
    var o := PlaceOrder(store, cfg, buyerId, priced.value, total, pay, req.notes, gen, now);
    r := Ok(o);
  }

  method PlaceOrder(store: Store, cfg: QrConfig, buyerId: string, lines: seq<OrderItem>, total: int, pay: string,
                    notes: string, gen: OrderIds, now: int) returns (o: OrderResult)
    requires |gen.codeUuid| >= 12
    modifies store
    ensures (o, store.Snapshot()) == PlaceSpec(old(store.Snapshot()), cfg, buyerId, lines, total, pay, notes, gen, now)
  {
    var status := if pay == "balance" then "PAID" else "PENDING";
    var order := Order(gen.orderId, buyerId, None, None, total, status, Some(notes));
    store.InsertOrder(order);
    var items := WithOrder(lines, gen.orderId);
    InsertItems(store, items);
    if status == "PAID" {
      SellItems(store, items);
    }
    var qr: Option<QrCode> := None;
    if pay == "qris" {
      var q := GenerateCheckoutQR(store, cfg, buyerId, gen.orderId, total, gen.codeUuid, gen.qrId, now);
      store.SetOrderQr(gen.orderId, q.id);
      qr := Some(q);
    }
    var w := store.GetByUserID(buyerId);
    o := OrderResult(order, items, pay, if w.Some? then w.value.balance else 0, qr);
  }

  method InsertItems(store: Store, items: seq<OrderItem>)
    modifies store
    ensures store.Snapshot() == old(store.Snapshot()).(orderItems := old(store.orderItems) + items)
  {
    var i := 0;
    while i < |items|
      invariant 0 <= i <= |items|
      invariant store.Snapshot() == old(store.Snapshot()).(orderItems := old(store.orderItems) + items[..i])
    {
      store.InsertOrderItem(items[i]);
      assert items[..i + 1] == items[..i] + [items[i]];
      i := i + 1;
    }
    assert items[..i] == items;
  }

  method SellItems(store: Store, items: seq<OrderItem>)
    modifies store
    ensures store.Snapshot() == old(store.Snapshot()).(products := SoldAll(old(store.products), items))
  {
    var i := 0;
    while i < |items|
      invariant 0 <= i <= |items|
      invariant store.Snapshot() == old(store.Snapshot()).(products := SoldAll(old(store.products), items[..i]))
    {
      assert items[..i + 1][..i] == items[..i];
      store.SellProduct(items[i].productId, items[i].quantity);
      i := i + 1;
    }
    assert items[..i] == items;
  }

  /**
   * Every rejection comes before the first write, so a rejected order leaves
   * the database as it was; which rejection it is follows the handler's order.
   */
  lemma {:induction false} OrderRejections(db: WpDb, cfg: QrConfig, buyerId: string, req: OrderRequest, gen: OrderIds, now: int)
    requires |gen.items| >= |req.items| && |gen.codeUuid| >= 12
    ensures var (r, db') := CreateOrderSpec(db, cfg, buyerId, req, gen, now);
      (r.Err? ==> db' == db) &&
      (req.items == [] ==> r == Err(BadRequest("No items in order"))) &&
      (req.items != [] && PriceItems(db.products, req.items, gen.items).Err? ==>
         r == Err(PriceItems(db.products, req.items, gen.items).error)) &&
      (req.items != [] && PriceItems(db.products, req.items, gen.items).Ok? &&
       PaymentMethod(req.paymentMethod) == "balance" && WalletByUser(db.wallets, buyerId).None? ==>
         r == Err(BadRequest("Wallet not found"))) &&
      (req.items != [] && PriceItems(db.products, req.items, gen.items).Ok? &&
       PaymentMethod(req.paymentMethod) == "balance" && WalletByUser(db.wallets, buyerId).Some? &&
       WalletByUser(db.wallets, buyerId).value.balance < LinesTotal(PriceItems(db.products, req.items, gen.items).value) ==>
         r == Err(BadRequest("Saldo tidak mencukupi"))) &&
      (req.items != [] && PaymentMethod(req.paymentMethod) != "balance" ==>
         (r.Err? <==> PriceItems(db.products, req.items, gen.items).Err?))
  {
  }

  /** Placing the order never touches wallets, ledgers or transactions. */
  lemma {:induction false} PlaceKeepsMoney(db: WpDb, cfg: QrConfig, buyerId: string, lines: seq<OrderItem>, total: int, pay: string,
                        notes: string, gen: OrderIds, now: int)
    requires |gen.codeUuid| >= 12
    ensures var (o, db') := PlaceSpec(db, cfg, buyerId, lines, total, pay, notes, gen, now);
      db'.wallets == db.wallets && db'.ledgers == db.ledgers && db'.transactions == db.transactions &&
      o.walletBalance == BalanceOf(db.wallets, buyerId) && o.order.totalAmount == total &&
      (o.order.status == "PAID" <==> pay == "balance") &&
      (pay != "balance" ==> db'.products == db.products)
  {
  }

  /** With one row per wallet id, the handler's Save of balance - total is a debit of total. */
  lemma {:induction false} SaveIsDebit(ws: seq<Wallet>, w: Wallet, total: int)
    requires UniqueWallets(ws) && w in ws
    ensures BalanceRows(ws, w.id, w.balance - total) == AddRows(ws, w.id, -total)
  {
    var a := BalanceRows(ws, w.id, w.balance - total);
    var b := AddRows(ws, w.id, -total);
    var k :| 0 <= k < |ws| && ws[k] == w;
    forall i | 0 <= i < |ws|
      ensures a[i] == b[i]
    {
    }
  }

  /** With one wallet per id, the balance path takes exactly the total out of the sum of balances. */
  lemma {:induction false} ChargeDebits(db: WpDb, buyerId: string, total: int, txId: string, db1: WpDb)
    requires UniqueWallets(db.wallets)
    requires ChargeSpec(db, buyerId, total, txId) == Ok(db1)
    ensures TotalBalance(db1.wallets) == TotalBalance(db.wallets) - total
    ensures db1.ledgers == db.ledgers
    ensures db1.transactions == db.transactions + [PurchaseRecord(buyerId, total, txId)]
  {
    ChargedBuyer(db, buyerId, total, txId, db1);
    var w := WalletByUser(db.wallets, buyerId).value;
    var saved := BalanceRows(db.wallets, w.id, w.balance - total);
    assert TotalBalance(saved) == TotalBalance(db.wallets) - total by {
      DebitTotal(db.wallets, w, total);
    }
    assert db1.wallets == saved;
  }

  /** An accepted charge found the buyer's wallet and left exactly the charged tables. */
  lemma {:induction false} ChargedBuyer(db: WpDb, buyerId: string, total: int, txId: string, db1: WpDb)
    requires ChargeSpec(db, buyerId, total, txId) == Ok(db1)
    ensures WalletByUser(db.wallets, buyerId).Some?
    ensures WalletByUser(db.wallets, buyerId).value in db.wallets
    ensures var w := WalletByUser(db.wallets, buyerId).value;
      db1.wallets == BalanceRows(db.wallets, w.id, w.balance - total) && db1.ledgers == db.ledgers &&
      db1.transactions == db.transactions + [PurchaseRecord(buyerId, total, txId)]
  {
  }

  /** Saving one wallet of the table with balance - total lowers the sum of balances by total. */
  lemma {:induction false} DebitTotal(ws: seq<Wallet>, w: Wallet, total: int)
    requires UniqueWallets(ws) && w in ws
    ensures TotalBalance(BalanceRows(ws, w.id, w.balance - total)) == TotalBalance(ws) - total
  {
    SaveIsDebit(ws, w, total);
    CountIdMember(ws, w);
    AddRowsTotalOne(ws, w.id, -total);
  }

  /**
   * A balance payment debits the buyer by the order total and credits
   * nobody: the sum of all balances falls by that total and no ledger
   * entry is written.
   */
  lemma {:induction false} BalanceOrderDestroysPoints(db: WpDb, cfg: QrConfig, buyerId: string, req: OrderRequest, gen: OrderIds, now: int,
                                   o: OrderResult, db': WpDb)
    requires |gen.items| >= |req.items| && |gen.codeUuid| >= 12
    requires UniqueWallets(db.wallets)
    requires PaymentMethod(req.paymentMethod) == "balance"
    requires CreateOrderSpec(db, cfg, buyerId, req, gen, now) == (Ok(o), db')
    ensures o.order.status == "PAID"
    ensures o.order.totalAmount == ItemsTotal(db.products, req.items)
    ensures TotalBalance(db'.wallets) == TotalBalance(db.wallets) - o.order.totalAmount
    ensures db'.ledgers == db.ledgers
    ensures db'.transactions == db.transactions + [PurchaseRecord(buyerId, o.order.totalAmount, gen.txId)]
  {
    var lines := PriceItems(db.products, req.items, gen.items).value;
    var total := LinesTotal(lines);
    PricedTotal(db.products, req.items, gen.items);
    var db1 := ChargeSpec(db, buyerId, total, gen.txId).value;
    ChargeDebits(db, buyerId, total, gen.txId, db1);
    PlaceKeepsMoney(db1, cfg, buyerId, lines, total, "balance", req.notes, gen, now);
  }

  /**
   * An order paid any other way touches no wallet, stays PENDING and leaves
   * stock alone; a "qris" order carries a checkout code owned by the buyer
   * and linked from the order row.
   */
  lemma {:induction false} DeferredOrderEffect(db: WpDb, cfg: QrConfig, buyerId: string, req: OrderRequest, gen: OrderIds, now: int)
    requires |gen.items| >= |req.items| && |gen.codeUuid| >= 12
    requires PaymentMethod(req.paymentMethod) != "balance"
    requires CreateOrderSpec(db, cfg, buyerId, req, gen, now).0.Ok?
    ensures var (r, db') := CreateOrderSpec(db, cfg, buyerId, req, gen, now);
      r.value.order.status == "PENDING" &&
      db'.wallets == db.wallets && db'.transactions == db.transactions && db'.products == db.products &&
      (req.paymentMethod == "qris" <==> r.value.qr.Some?) &&
      (r.value.qr.Some? ==>
         r.value.qr.value.userId == buyerId && r.value.qr.value.qrType == "CHECKOUT" &&
         r.value.qr.value.amount == r.value.order.totalAmount &&
         r.value.qr.value.orderId == Some(gen.orderId) && r.value.qr.value in db'.qrCodes)
  {
    var lines := PriceItems(db.products, req.items, gen.items).value;
    PlaceKeepsMoney(db, cfg, buyerId, lines, LinesTotal(lines), PaymentMethod(req.paymentMethod), req.notes, gen, now);
  }

  /**
   * The checkout code belongs to the buyer, so the buyer scanning it before it
   * expires is refused as a payment to oneself.
   */
  lemma {:induction false} CheckoutQrRefusesBuyer(cfg: QrConfig, buyerId: string, orderId: string, total: int, gen: OrderIds, now: int, later: int)
    requires |gen.codeUuid| >= 12
    requires later <= CheckoutQr(cfg, buyerId, orderId, total, gen, now).expiresAt
    ensures QrCheck(cfg, CheckoutQr(cfg, buyerId, orderId, total, gen, now), buyerId, later) == Some(CannotPaySelf)
  {
  }

  /**
   * Stock is not checked when ordering: a paid one-item order for more than
   * the product's positive stock is accepted and leaves the stock at stock -
   * quantity, below zero.
   */
  lemma {:induction false} PaidOrderOversells(db: WpDb, cfg: QrConfig, buyerId: string, req: OrderRequest, gen: OrderIds, now: int, i: int)
    requires |gen.items| >= |req.items| && |gen.codeUuid| >= 12
    requires |req.items| == 1 && PaymentMethod(req.paymentMethod) == "balance"
    requires 0 <= i < |db.products| && db.products[i].id == req.items[0].productId
    requires 0 < db.products[i].stock < req.items[0].quantity
    requires CreateOrderSpec(db, cfg, buyerId, req, gen, now).0.Ok?
    ensures var after := CreateOrderSpec(db, cfg, buyerId, req, gen, now).1.products;
      i < |after| && after[i].stock == db.products[i].stock - req.items[0].quantity && after[i].stock < 0
  {
    var item := req.items[0];
    var priced := PriceItems(db.products, req.items, gen.items);
    assert priced.Ok?;
    PricedLines(db.products, req.items, gen.items);
    var p := ActiveProduct(db.products, item.productId).value;
    var lines := priced.value;
    assert lines == [OrderLine(p, item.quantity, gen.items[0])];
    var total := LinesTotal(lines);
    var db1 := ChargeSpec(db, buyerId, total, gen.txId).value;
    assert db1.products == db.products;
    var items := WithOrder(lines, gen.orderId);
    assert items[..0] == [];
    assert SoldAll(db1.products, items) == SoldRows(db.products, item.productId, item.quantity);
  }

  // ------------------------------------------------ corrected settlement

  /** Each line's subtotal credited to its seller's wallet, when the seller has one. */
  function PaySellers(ws: seq<Wallet>, lines: seq<OrderItem>): (r: seq<Wallet>)
    ensures |r| == |ws|
  {
    if lines == [] then ws
    else
      var n := |lines| - 1;
      var ws1 := PaySellers(ws, lines[..n]);
      match WalletByUser(ws1, lines[n].sellerId)
      case None => ws1
      case Some(w) => AddRows(ws1, w.id, Subtotal(lines[n]))
  }

  /** The buyer's wallet debited by the lines' total, then each seller credited. */
  function Settled(ws: seq<Wallet>, buyer: Wallet, lines: seq<OrderItem>, total: int): seq<Wallet>
  {
    PaySellers(AddRows(ws, buyer.id, -total), lines)
  }

  /** The evidently intended balance path: debit the buyer by the total, credit every seller by their lines. */
  function ChargeCorrected(db: WpDb, buyerId: string, lines: seq<OrderItem>, txId: string): (r: Result<WpDb, WpError>)
  {
    var total := LinesTotal(lines);
    match WalletByUser(db.wallets, buyerId)
    case None => Err(BadRequest("Wallet not found"))
    case Some(w) =>
      if w.balance < total then Err(BadRequest("Saldo tidak mencukupi"))
      else Ok(db.(wallets := Settled(db.wallets, w, lines, total),
                  transactions := db.transactions + [PurchaseRecord(buyerId, total, txId)]))
  }

  /** Two tables with the same rows up to balances. */
  ghost predicate SameOwners(a: seq<Wallet>, b: seq<Wallet>)
  {
    |a| == |b| && forall i :: 0 <= i < |a| ==> a[i].id == b[i].id && a[i].userId == b[i].userId
  }

  lemma {:induction false} AddRowsOwners(ws: seq<Wallet>, id: string, delta: int)
    ensures SameOwners(ws, AddRows(ws, id, delta))
  {
  }

  lemma {:induction false} OwnersUnique(a: seq<Wallet>, b: seq<Wallet>)
    requires SameOwners(a, b) && UniqueWallets(a)
    ensures UniqueWallets(b)
  {
  }

  /** Tables with the same owners agree on who has a wallet. */
  lemma {:induction false} OwnersAgree(a: seq<Wallet>, b: seq<Wallet>, u: string)
    requires SameOwners(a, b)
    ensures WalletByUser(a, u).Some? ==> WalletByUser(b, u).Some?
  {
    if WalletByUser(a, u).Some? {
      var i :| 0 <= i < |a| && a[i] == WalletByUser(a, u).value;
      assert b[i] in b;
    }
  }

  /** Every line's seller has a wallet in the table. */
  ghost predicate SellersHaveWallets(ws: seq<Wallet>, lines: seq<OrderItem>)
  {
    forall k :: 0 <= k < |lines| ==> WalletByUser(ws, lines[k].sellerId).Some?
  }

  lemma {:induction false} SellersKept(a: seq<Wallet>, b: seq<Wallet>, lines: seq<OrderItem>)
    requires SameOwners(a, b) && SellersHaveWallets(a, lines)
    ensures SellersHaveWallets(b, lines)
  {
    forall k | 0 <= k < |lines|
      ensures WalletByUser(b, lines[k].sellerId).Some?
    {
      OwnersAgree(a, b, lines[k].sellerId);
    }
  }

  /** Paying sellers changes balances only. */
  lemma {:induction false} PaySellersOwners(ws: seq<Wallet>, lines: seq<OrderItem>)
    ensures SameOwners(ws, PaySellers(ws, lines))
  {
    if lines != [] {
      var n := |lines| - 1;
      var ws1 := PaySellers(ws, lines[..n]);
      PaySellersOwners(ws, lines[..n]);
      match WalletByUser(ws1, lines[n].sellerId)
      case None =>
      case Some(w) => AddRowsOwners(ws1, w.id, Subtotal(lines[n]));
    }
  }

  /** When every seller has a wallet, paying them adds exactly the lines' total to the sum of balances. */
  lemma {:induction false} PaySellersTotal(ws: seq<Wallet>, lines: seq<OrderItem>)
    requires UniqueWallets(ws)
    requires SellersHaveWallets(ws, lines)
    ensures TotalBalance(PaySellers(ws, lines)) == TotalBalance(ws) + LinesTotal(lines)
  {
    if lines != [] {
      var n := |lines| - 1;
      var ws1 := PaySellers(ws, lines[..n]);
      assert SellersHaveWallets(ws, lines[..n]);
      PaySellersTotal(ws, lines[..n]);
      PaySellersOwners(ws, lines[..n]);
      OwnersAgree(ws, ws1, lines[n].sellerId);
      OwnersUnique(ws, ws1);
      var w := WalletByUser(ws1, lines[n].sellerId).value;
      AddOneRow(ws1, w, Subtotal(lines[n]));
    }
  }

  /** With one row per wallet id, adding to one wallet of the table moves the sum by that much. */
  lemma {:induction false} AddOneRow(ws: seq<Wallet>, w: Wallet, delta: int)
    requires UniqueWallets(ws) && w in ws
    ensures TotalBalance(AddRows(ws, w.id, delta)) == TotalBalance(ws) + delta
  {
    CountIdMember(ws, w);
    AddRowsTotalOne(ws, w.id, delta);
  }

  /** Debiting one wallet by a total and crediting each seller by their lines moves the sum by the difference. */
  lemma {:induction false} SettleMoves(ws: seq<Wallet>, w: Wallet, lines: seq<OrderItem>, total: int)
    requires UniqueWallets(ws) && w in ws
    requires SellersHaveWallets(ws, lines)
    ensures TotalBalance(Settled(ws, w, lines, total)) == TotalBalance(ws) - total + LinesTotal(lines)
  {
    var debited := AddRows(ws, w.id, -total);
    AddOneRow(ws, w, -total);
    PayAfterDebit(ws, w.id, -total, lines, debited);
  }

  lemma {:induction false} PayAfterDebit(ws: seq<Wallet>, id: string, delta: int, lines: seq<OrderItem>, debited: seq<Wallet>)
    requires UniqueWallets(ws) && SellersHaveWallets(ws, lines)
    requires debited == AddRows(ws, id, delta)
    ensures TotalBalance(PaySellers(debited, lines)) == TotalBalance(debited) + LinesTotal(lines)
  {
    DebitKeepsSellers(ws, id, delta, lines);
    PaySellersTotal(debited, lines);
  }

  lemma {:induction false} DebitKeepsSellers(ws: seq<Wallet>, id: string, delta: int, lines: seq<OrderItem>)
    requires UniqueWallets(ws) && SellersHaveWallets(ws, lines)
    ensures UniqueWallets(AddRows(ws, id, delta)) && SellersHaveWallets(AddRows(ws, id, delta), lines)
  {
    AddRowsOwners(ws, id, delta);
    SellersKept(ws, AddRows(ws, id, delta), lines);
    OwnersUnique(ws, AddRows(ws, id, delta));
  }

  /** With every seller holding a wallet, the corrected payment keeps the sum of all balances. */
  lemma {:induction false} CorrectedChargeConserves(db: WpDb, buyerId: string, lines: seq<OrderItem>, txId: string, db1: WpDb)
    requires UniqueWallets(db.wallets)
    requires SellersHaveWallets(db.wallets, lines)
    requires ChargeCorrected(db, buyerId, lines, txId) == Ok(db1)
    ensures TotalBalance(db1.wallets) == TotalBalance(db.wallets)
  {
    SettleMoves(db.wallets, WalletByUser(db.wallets, buyerId).value, lines, LinesTotal(lines));
  }

  // -------------------------------------------------------- seller orders

  /** One item as the seller sees it. */
  datatype SellerLine = SellerLine(productId: string, productName: string, quantity: int, price: int, subtotal: int)

  /** One order as the seller sees it: the order's status and total, and the seller's items in it. */
  datatype SellerOrder = SellerOrder(orderId: string, status: string, totalAmount: int, items: seq<SellerLine>)

  function OrderById(os: seq<Order>, id: string): (r: Option<Order>)
    ensures r.Some? ==> r.value in os && r.value.id == id
  {
    BT.First(os, (o: Order) => o.id == id)
  }

  /** The ids of the seller's products (Pluck("id") where seller_id = ?). */
  function SellerProducts(ps: seq<Product>, sellerId: string): set<string>
  {
    set p | p in ps && p.sellerId == sellerId :: p.id
  }

  function OfProducts(ids: set<string>): OrderItem -> bool
  {
    (item: OrderItem) => item.productId in ids
  }

  /** The order items of those products, newest first. */
  function SellerItems(db: WpDb, ids: set<string>): seq<OrderItem>
  {
    BD.Newest(BT.Filter(db.orderItems, OfProducts(ids)))
  }

  /**
   * An item line with its preloaded product's name. The order_items foreign
   * key to products makes a missing product unreachable; the model gives an
   * empty name there only so that the function is total.
   */
  function LineOf(db: WpDb, item: OrderItem): SellerLine
  {
    var name := match ProductById(db.products, item.productId) case Some(p) => p.name case None => "";
    SellerLine(item.productId, name, item.quantity, item.price, item.price * item.quantity)
  }

  /**
   * A new group: the preloaded order's status and total. The order_items
   * foreign key to orders makes a missing order unreachable; the model gives
   * zero values there only so that the function is total.
   */
  function Header(db: WpDb, orderId: string): SellerOrder
  {
    match OrderById(db.orders, orderId)
    case Some(o) => SellerOrder(orderId, o.status, o.totalAmount, [])
    case None => SellerOrder(orderId, "", 0, [])
  }

  /** The grouping loop: items keyed by order id, each group's items in the order they came. */
  function Group(db: WpDb, items: seq<OrderItem>): map<string, SellerOrder>
  {
    if items == [] then map[]
    else
      var n := |items| - 1;
      var m := Group(db, items[..n]);
      var k := items[n].orderId;
      var g := if k in m then m[k] else Header(db, k);
      m[k := g.(items := g.items + [LineOf(db, items[n])])]
  }

  /** The lines of one order, in item order: the reference the grouping is checked against. */
  function LinesFor(db: WpDb, items: seq<OrderItem>, orderId: string): seq<SellerLine>
  {
    if items == [] then []
    else
      var n := |items| - 1;
      LinesFor(db, items[..n], orderId) + (if items[n].orderId == orderId then [LineOf(db, items[n])] else [])
  }

  /** An order id no item carries has no lines. */
  lemma {:induction false} LinesForNone(db: WpDb, items: seq<OrderItem>, orderId: string)
    requires forall i :: 0 <= i < |items| ==> items[i].orderId != orderId
    ensures LinesFor(db, items, orderId) == []
  {
    if items != [] {
      LinesForNone(db, items[..|items| - 1], orderId);
    }
  }

  /** One step of the grouping loop. */
  lemma {:induction false} GroupStep(db: WpDb, items: seq<OrderItem>)
    requires items != []
    ensures var n := |items| - 1;
      var m0 := Group(db, items[..n]);
      var key := items[n].orderId;
      var g := if key in m0 then m0[key] else Header(db, key);
      Group(db, items) == m0[key := g.(items := g.items + [LineOf(db, items[n])])]
  {
  }

  /** There is one group per order id among the items. */
  lemma {:induction false} GroupKeys(db: WpDb, items: seq<OrderItem>)
    ensures forall k :: k in Group(db, items) <==> exists i :: 0 <= i < |items| && items[i].orderId == k
  {
    GroupKeySet(db, items);
  }

  /** The order ids that occur among the items. */
  ghost function OrderIdsOf(items: seq<OrderItem>): set<string>
  {
    set i | 0 <= i < |items| :: items[i].orderId
  }

  lemma {:induction false} GroupKeySet(db: WpDb, items: seq<OrderItem>)
    ensures Group(db, items).Keys == OrderIdsOf(items)
  {
    if items != [] {
      var n := |items| - 1;
      GroupKeySet(db, items[..n]);
      GroupStep(db, items);
      OrderIdsSnoc(items);
    }
  }

  lemma {:induction false} OrderIdsSnoc(items: seq<OrderItem>)
    requires items != []
    ensures OrderIdsOf(items) == OrderIdsOf(items[..|items| - 1]) + {items[|items| - 1].orderId}
  {
    var n := |items| - 1;
    forall k | k in OrderIdsOf(items)
      ensures k in OrderIdsOf(items[..n]) + {items[n].orderId}
    {
      var i :| 0 <= i < |items| && items[i].orderId == k;
      if i < n {
        assert items[..n][i].orderId == k;
      }
    }
    forall k | k in OrderIdsOf(items[..n])
      ensures k in OrderIdsOf(items)
    {
      var i :| 0 <= i < n && items[..n][i].orderId == k;
      assert items[i].orderId == k;
    }
    assert items[n].orderId in OrderIdsOf(items);
  }


  /** Each group carries its order's header and exactly that order's lines, in item order. */
  lemma {:induction false} GroupLines(db: WpDb, items: seq<OrderItem>)
    ensures forall k :: k in Group(db, items) ==>
      Group(db, items)[k] == Header(db, k).(items := LinesFor(db, items, k))
  {
    if items != [] {
      var n := |items| - 1;
      var init := items[..n];
      GroupLines(db, init);
      GroupStep(db, items);
      var key := items[n].orderId;
      if key !in Group(db, init) {
        GroupKeys(db, init);
        LinesForNone(db, init, key);
      }
    }
  }

  /** Every item line of a seller product shows up in its order's group. */
  lemma {:induction false} LinesForHas(db: WpDb, items: seq<OrderItem>, i: nat)
    requires i < |items|
    ensures LineOf(db, items[i]) in LinesFor(db, items, items[i].orderId)
  {
    var n := |items| - 1;
    if i < n {
      LinesForHas(db, items[..n], i);
    }
  }

  function SellerOrdersSpec(db: WpDb, sellerId: string): map<string, SellerOrder>
  {
    var ids := SellerProducts(db.products, sellerId);
    if ids == {} then map[] else Group(db, SellerItems(db, ids))
  }

  /** The grouping loop of GetSellerOrders. */
  method GroupItems(db: WpDb, items: seq<OrderItem>) returns (orders: map<string, SellerOrder>)
    ensures orders == Group(db, items)
  {
    orders := map[];
    var i := 0;
    while i < |items|
      invariant 0 <= i <= |items|
      invariant orders == Group(db, items[..i])
    {
      assert items[..i + 1][..i] == items[..i];
      var k := items[i].orderId;
      var g := if k in orders then orders[k] else Header(db, k);
      orders := orders[k := g.(items := g.items + [LineOf(db, items[i])])];
      i := i + 1;
    }
    assert items[..i] == items;
  }

  /** GetSellerOrders; the handler then lists the map's values in map order. */
  method GetSellerOrders(store: Store, sellerId: string) returns (orders: map<string, SellerOrder>)
    ensures orders == SellerOrdersSpec(store.Snapshot(), sellerId)
  {
    var db := store.Snapshot();
    var ids := SellerProducts(store.products, sellerId);
    if ids == {} {
      return map[];
    }
    orders := GroupItems(db, SellerItems(db, ids));
  }

  /** An order item of one of the listed products has a position among the seller's items. */
  lemma {:induction false} SellerItemAt(db: WpDb, ids: set<string>, item: OrderItem) returns (i: nat)
    requires item in db.orderItems && item.productId in ids
    ensures i < |SellerItems(db, ids)| && SellerItems(db, ids)[i] == item
  {
    var filtered := BT.Filter(db.orderItems, OfProducts(ids));
    var i0 :| 0 <= i0 < |db.orderItems| && db.orderItems[i0] == item;
    assert OfProducts(ids)(db.orderItems[i0]);
    assert item in filtered;
    var j :| 0 <= j < |filtered| && filtered[j] == item;
    i := |filtered| - 1 - j;
  }

  /** The grouping files every item's line under its own order id. */
  lemma {:induction false} GroupHasLine(db: WpDb, items: seq<OrderItem>, i: nat)
    requires i < |items|
    ensures items[i].orderId in Group(db, items)
    ensures LineOf(db, items[i]) in Group(db, items)[items[i].orderId].items
  {
    GroupKeys(db, items);
    GroupLines(db, items);
    LinesForHas(db, items, i);
  }

  /** Every order item of one of the seller's products is listed, under its own order, with its subtotal. */
  lemma {:induction false} SellerSeesEveryItem(db: WpDb, sellerId: string, item: OrderItem)
    requires item in db.orderItems
    requires ProductById(db.products, item.productId).Some? &&
             ProductById(db.products, item.productId).value.sellerId == sellerId
    ensures var m := SellerOrdersSpec(db, sellerId);
      item.orderId in m && LineOf(db, item) in m[item.orderId].items &&
      LineOf(db, item).subtotal == item.price * item.quantity
  {
    var ids := SellerProducts(db.products, sellerId);
    var p := ProductById(db.products, item.productId).value;
    assert p.id in ids;
    var i := SellerItemAt(db, ids, item);
    GroupHasLine(db, SellerItems(db, ids), i);
  }
}
