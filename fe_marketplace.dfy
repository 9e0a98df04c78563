/**
 * The web client's marketplace page (walletpoint/www/js/pages/marketplace.js):
 * the cart kept in memory and mirrored to localStorage, the browse filter
 * on stock, the order progress bar, and the pending QRIS payment stored in
 * localStorage and released by scanning its QR code.
 */
module FeMarketplace {
  import opened Wrappers
  import BT = BackendTables

  /** A product as the browse list holds it. */
  datatype ListedProduct = ListedProduct(id: string, name: string, price: int, stock: int)

  /** A cart line: the product id, how many, and the product as it was when first added. */
  datatype CartLine = CartLine(productId: string, quantity: int, product: ListedProduct)

  /** The pending QRIS payment saved under walletpoint_pending_qris. */
  datatype PendingQris = PendingQris(
    orderId: string, total: int, items: seq<(string, int)>, qrData: string, createdAt: int, expiresAt: int)

  /** The payment state taken over from an accepted scan. */
  datatype QrisOrder = QrisOrder(orderId: string, total: int, items: seq<(string, int)>)

  /** What processScannedQRPayment returns. */
  datatype ScanResult = ScanRefused(message: string) | ScanAccepted(pending: PendingQris)

  // ------------------------------------------------------------------ cart

  function HasId(id: string): ListedProduct -> bool
  {
    (p: ListedProduct) => p.id == id
  }

  function ForProduct(id: string): CartLine -> bool
  {
    (l: CartLine) => l.productId == id
  }

  /** The cart after addToCart: one more of a product already in it, or a new line of one. */
  function CartAfterAdd(products: seq<ListedProduct>, cart: seq<CartLine>, productId: string): (r: seq<CartLine>)
  {
    match BT.First(products, HasId(productId))
    case None => cart
    case Some(p) =>
      match BT.FirstIndex(cart, ForProduct(productId))
      case Some(i) => cart[i := cart[i].(quantity := cart[i].quantity + 1)]
      case None => cart + [CartLine(productId, 1, p)]
  }

  /** The index splice(index, 1) starts at: negative indices count from the end, large ones clamp. */
  function SpliceStart(index: int, len: nat): (s: nat)
    ensures s <= len
    ensures 0 <= index <= len ==> s == index
  {
    if index < 0 then (if len + index < 0 then 0 else len + index)
    else if index > len then len
    else index
  }

  /** The cart after removeFromCart: splice(index, 1). */
  function CartAfterRemove(cart: seq<CartLine>, index: int): (r: seq<CartLine>)
    ensures 0 <= index < |cart| ==> r == cart[..index] + cart[index + 1..]
    ensures index >= |cart| ==> r == cart
    ensures cart != [] ==> |r| == |cart| - 1 || index >= |cart|
  {
    var s := SpliceStart(index, |cart|);
    if s < |cart| then cart[..s] + cart[s + 1..] else cart
  }

  function Subtotal(l: CartLine): int
  {
    l.product.price * l.quantity
  }

  /** The cart total: the sum of price times quantity over the lines. */
  function CartTotal(cart: seq<CartLine>): int
  {
    if cart == [] then 0 else CartTotal(cart[..|cart| - 1]) + Subtotal(cart[|cart| - 1])
  }

  ghost predicate DistinctProducts(cart: seq<CartLine>)
  {
    forall i, j :: 0 <= i < j < |cart| ==> cart[i].productId != cart[j].productId
  }

  /** The total splits at any point of the cart. */
  /** Appending a line adds its subtotal. */
  lemma {:induction false} AppendTotal(cart: seq<CartLine>, line: CartLine)
    ensures CartTotal(cart + [line]) == CartTotal(cart) + Subtotal(line)
  {
    assert (cart + [line])[..|cart|] == cart;
  }

  lemma {:induction false} TotalSplit(a: seq<CartLine>, b: seq<CartLine>)
    ensures CartTotal(a + b) == CartTotal(a) + CartTotal(b)
  {
    if b == [] {
      assert a + b == a;
    } else {
      var b0 := b[..|b| - 1];
      TotalSplit(a, b0);
      assert (a + b)[..|a + b| - 1] == a + b0;
    }
  }

  /** Raising one line's quantity by one raises the total by that line's price. */
  lemma {:induction false} BumpTotal(cart: seq<CartLine>, i: nat)
    requires i < |cart|
    ensures CartTotal(cart[i := cart[i].(quantity := cart[i].quantity + 1)]) == CartTotal(cart) + cart[i].product.price
  {
    var line := cart[i];
    var bumped := line.(quantity := line.quantity + 1);
    var c2 := cart[i := bumped];
    var left, right := cart[..i], cart[i + 1..];
    assert cart == left + [line] + right;
    assert c2 == left + [bumped] + right;
    TotalSplit(left + [line], right);
    TotalSplit(left, [line]);
    TotalSplit(left + [bumped], right);
    TotalSplit(left, [bumped]);
    assert CartTotal([line]) == Subtotal(line) by { assert [line][..0] == []; }
    assert CartTotal([bumped]) == Subtotal(bumped) by { assert [bumped][..0] == []; }
    assert Subtotal(bumped) == Subtotal(line) + line.product.price by {
      BT.Distribute(line.product.price, line.quantity, 1);
    }
  }

  /** What one addToCart adds to the total: nothing for an unknown product, else one unit's price. */
  function AddedPrice(products: seq<ListedProduct>, cart: seq<CartLine>, productId: string): int
  {
    match BT.First(products, HasId(productId))
    case None => 0
    case Some(p) =>
      match BT.FirstIndex(cart, ForProduct(productId))
      case Some(i) => cart[i].product.price
      case None => p.price
  }

  /**
   * addToCart raises the total by one unit's price: the price stored in the
   * existing line (not the current listing), or the listed price for a new
   * line; an unknown product leaves the cart as it was.
   */
  lemma {:induction false} AddToCartTotal(products: seq<ListedProduct>, cart: seq<CartLine>, productId: string)
    ensures CartTotal(CartAfterAdd(products, cart, productId)) == CartTotal(cart) + AddedPrice(products, cart, productId)
    ensures BT.First(products, HasId(productId)).None? ==> CartAfterAdd(products, cart, productId) == cart
  {
    match BT.First(products, HasId(productId))
    case None =>
    case Some(p) =>
      match BT.FirstIndex(cart, ForProduct(productId))
      case Some(i) =>
        assert CartAfterAdd(products, cart, productId) == cart[i := cart[i].(quantity := cart[i].quantity + 1)];
        assert AddedPrice(products, cart, productId) == cart[i].product.price;
        BumpTotal(cart, i);
      case None =>
        assert CartAfterAdd(products, cart, productId) == cart + [CartLine(productId, 1, p)];
        assert AddedPrice(products, cart, productId) == p.price;
        AppendTotal(cart, CartLine(productId, 1, p));
  }


  /** addToCart keeps one line per product, and a known product has a line afterwards. */
  lemma {:induction false} AddToCartLines(products: seq<ListedProduct>, cart: seq<CartLine>, productId: string)
    requires DistinctProducts(cart)
    ensures DistinctProducts(CartAfterAdd(products, cart, productId))
    ensures BT.First(products, HasId(productId)).Some? ==>
      exists k :: 0 <= k < |CartAfterAdd(products, cart, productId)| && CartAfterAdd(products, cart, productId)[k].productId == productId
  {
    var p := BT.First(products, HasId(productId));
    var i := BT.FirstIndex(cart, ForProduct(productId));
    var r := CartAfterAdd(products, cart, productId);
    if p.Some? {
      if i.Some? {
        assert r[i.value].productId == productId;
        forall a, b | 0 <= a < b < |r|
          ensures r[a].productId != r[b].productId
        {
          assert r[a].productId == cart[a].productId && r[b].productId == cart[b].productId;
        }
      } else {
        assert r[|cart|].productId == productId;
        forall a, b | 0 <= a < b < |r|
          ensures r[a].productId != r[b].productId
        {
          if b == |cart| {
            assert ForProduct(productId)(cart[a]) == false;
          }
        }
      }
    }
  }

  /** A line between two parts of a cart adds its subtotal to theirs. */
  lemma {:induction false} MiddleTotal(left: seq<CartLine>, c: CartLine, right: seq<CartLine>)
    ensures CartTotal(left + [c] + right) == CartTotal(left + right) + Subtotal(c)
  {
    TotalSplit(left + [c], right);
    TotalSplit(left, [c]);
    TotalSplit(left, right);
    assert [c][..0] == [];
  }

  /** Removing the line at an index lowers the total by that line's subtotal. */
  lemma {:induction false} RemoveFromCartTotal(cart: seq<CartLine>, index: int)
    requires 0 <= index < |cart|
    ensures CartTotal(CartAfterRemove(cart, index)) == CartTotal(cart) - Subtotal(cart[index])
  {
    MiddleTotal(cart[..index], cart[index], cart[index + 1..]);
    assert cart[..index] + [cart[index]] + cart[index + 1..] == cart;
  }

  /** Removing a line keeps one line per product. */
  lemma {:induction false} RemoveFromCartLines(cart: seq<CartLine>, index: int)
    requires DistinctProducts(cart)
    ensures DistinctProducts(CartAfterRemove(cart, index))
  {
    var r := CartAfterRemove(cart, index);
    var s := SpliceStart(index, |cart|);
    if s < |cart| {
      forall a, b | 0 <= a < b < |r|
        ensures r[a].productId != r[b].productId
      {
        var a' := if a < s then a else a + 1;
        var b' := if b < s then b else b + 1;
        assert r[a] == cart[a'] && r[b] == cart[b'];
      }
    }
  }

  /** Adding a product new to the cart and removing the last line gives the cart back. */
  lemma {:induction false} AddThenRemoveLast(products: seq<ListedProduct>, cart: seq<CartLine>, productId: string)
    requires BT.First(products, HasId(productId)).Some?
    requires forall l :: l in cart ==> l.productId != productId
    ensures CartAfterRemove(CartAfterAdd(products, cart, productId), |cart|) == cart
    ensures CartAfterRemove(CartAfterAdd(products, cart, productId), -1) == cart
  {
  }

  /** The balance button is offered exactly when the balance covers the cart total. */
  function CanPayWithBalance(balance: int, cart: seq<CartLine>): (b: bool)
  {
    balance >= CartTotal(cart)
  }

  /** After a removal the balance option can only open up, never close, while prices and quantities are non-negative. */
  lemma {:induction false} RemoveKeepsBalanceOption(balance: int, cart: seq<CartLine>, index: int)
    requires 0 <= index < |cart|
    requires cart[index].product.price >= 0 && cart[index].quantity >= 0
    ensures CanPayWithBalance(balance, cart) ==> CanPayWithBalance(balance, CartAfterRemove(cart, index))
  {
    RemoveFromCartTotal(cart, index);
  }

  // ------------------------------------------------------- browse and track

  /** Stock -1 means unlimited. */
  function InStock(p: ListedProduct): bool
  {
    p.stock == -1 || p.stock > 0
  }

  /** The browse list keeps the products with unlimited or positive stock, in order. */
  function Browsable(ps: seq<ListedProduct>): (r: seq<ListedProduct>)
    ensures forall p :: p in r <==> p in ps && (p.stock == -1 || p.stock > 0)
    ensures |r| <= |ps|
  {
    BT.Filter(ps, InStock)
  }

  /** How many steps of paid, packed, ready the progress bar fills. */
  function ProgressStep(status: string, fulfillment: string): (n: int)
    ensures 0 <= n <= 3
    ensures n == 3 <==> fulfillment == "ready" || status == "READY" || status == "COMPLETED"
    ensures n == 2 <==> fulfillment == "processing" && status != "READY" && status != "COMPLETED"
    ensures n == 1 <==> status == "PAID" && fulfillment != "processing" && fulfillment != "ready"
    ensures n == 0 <==> status != "PAID" && status != "READY" && status != "COMPLETED" &&
                        fulfillment != "processing" && fulfillment != "ready"
  {
    var s0 := 0;
    var s1 := if status == "PAID" || status == "READY" || status == "COMPLETED" then 1 else s0;
    var s2 := if fulfillment == "processing" then 2 else s1;
    var s3 := if fulfillment == "ready" || status == "READY" then 3 else s2;
    if status == "COMPLETED" then 3 else s3
  }

  // ------------------------------------------------------------- QRIS scan

  /** Whether `sub` occurs in `s` (String.prototype.includes). */
  function Includes(s: string, sub: string): (b: bool)
    decreases |s|
  {
    if sub <= s then true
    else if |s| <= |sub| then false
    else Includes(s[1..], sub)
  }

  /** The pattern sits at offset i of the string. */
  predicate OccursAt(s: string, sub: string, i: int)
  {
    0 <= i <= |s| - |sub| && s[i..i + |sub|] == sub
  }

  /** Includes holds exactly when some slice of the string is the pattern. */
  lemma {:induction false} IncludesMeans(s: string, sub: string)
    ensures Includes(s, sub) <==> exists i :: OccursAt(s, sub, i)
    decreases |s|
  {
    if sub <= s {
      assert OccursAt(s, sub, 0);
    } else if |s| <= |sub| {
      forall i | OccursAt(s, sub, i)
        ensures false
      {
      }
    } else {
      IncludesMeans(s[1..], sub);
      if exists i :: OccursAt(s, sub, i) {
        var i :| OccursAt(s, sub, i);
        if i != 0 {
          assert s[1..][i - 1..i - 1 + |sub|] == s[i..i + |sub|];
          assert OccursAt(s[1..], sub, i - 1);
        }
      }
      if Includes(s[1..], sub) {
        var j :| OccursAt(s[1..], sub, j);
        assert s[1..][j..j + |sub|] == s[j + 1..j + 1 + |sub|];
        assert OccursAt(s, sub, j + 1);
      }
    }
  }

  const OrderMarker := "WALLETPOINT-ORDER"

  /** processScannedQRPayment: the answer and what is left under the pending key. */
  function ScanSpec(pending: Option<PendingQris>, qrData: string, now: int): (ScanResult, Option<PendingQris>)
  {
    match pending
    case None => (ScanRefused("Tidak ada transaksi pending"), pending)
    case Some(p) =>
      if !Includes(qrData, OrderMarker) then (ScanRefused("QR code tidak valid"), pending)
      else if now > p.expiresAt then (ScanRefused("Transaksi sudah kadaluarsa"), None)
      else (ScanAccepted(p), None)
  }

  /** checkPendingQRISTransaction: the entry while it is still live, and what is left stored. */
  function CheckSpec(pending: Option<PendingQris>, now: int): (Option<PendingQris>, Option<PendingQris>)
  {
    match pending
    case None => (None, None)
    case Some(p) => if now < p.expiresAt then (pending, pending) else (None, None)
  }

  /**
   * A scan is accepted exactly when an entry is pending, the data carries
   * the order marker and the deadline has not passed; every outcome but the
   * missing-marker one consumes the entry. The order id in the data is not
   * compared with the pending order.
   */
  lemma {:induction false} ScanOutcomes(pending: Option<PendingQris>, qrData: string, now: int)
    ensures var (r, left) := ScanSpec(pending, qrData, now);
      (r.ScanAccepted? <==> pending.Some? && Includes(qrData, OrderMarker) && now <= pending.value.expiresAt) &&
      (r.ScanAccepted? ==> r.pending == pending.value && left.None?) &&
      (r == ScanRefused("QR code tidak valid") ==> left == pending) &&
      (r.ScanRefused? && r != ScanRefused("QR code tidak valid") ==> left.None?)
  {
  }

  /**
   * At the deadline itself the two checks disagree: the pending check has
   * already dropped the entry while a scan would still be accepted.
   */
  lemma {:induction false} DeadlineDisagreement(p: PendingQris, qrData: string)
    requires Includes(qrData, OrderMarker)
    ensures CheckSpec(Some(p), p.expiresAt) == (None, None)
    ensures ScanSpec(Some(p), qrData, p.expiresAt) == (ScanAccepted(p), None)
  {
  }

  /** Whatever a live entry's check says, a scan at the same moment with the marker pays it. */
  lemma {:induction false} LiveEntryScans(pending: Option<PendingQris>, qrData: string, now: int)
    requires Includes(qrData, OrderMarker)
    ensures CheckSpec(pending, now).0.Some? ==> ScanSpec(pending, qrData, now).0.ScanAccepted?
  {
  }

  /** A scan of any data containing the marker pays the pending order, whatever order the data names. */
  lemma {:induction false} OtherOrderQrAccepted(p: PendingQris, otherOrderId: string, stamp: string, now: int)
    requires now <= p.expiresAt
    ensures ScanSpec(Some(p), OrderMarker + "-" + otherOrderId + "-" + stamp, now).0 == ScanAccepted(p)
  {
    var data := OrderMarker + "-" + otherOrderId + "-" + stamp;
    assert OrderMarker <= data;
  }

  class MarketplacePage {
    var products: seq<ListedProduct>
    var cart: seq<CartLine>
    /** The copy of the cart under the user's cart key. */
    var savedCart: Option<seq<CartLine>>
    /** The entry under walletpoint_pending_qris. */
    var pendingQris: Option<PendingQris>
    var qrisOrder: Option<QrisOrder>

    constructor ()
      ensures products == [] && cart == [] && savedCart.None? && pendingQris.None? && qrisOrder.None?
    {
      products := [];
      cart := [];
      savedCart := None;
      pendingQris := None;
      qrisOrder := None;
    }

    /** The cart invariant addToCart and removeFromCart keep. */
    ghost predicate Valid()
      reads this
    {
      DistinctProducts(cart)
    }

    /** addToCart: the new cart is saved, unless the product is unknown and nothing happens. */
    method AddToCart(productId: string)
      modifies this`cart, this`savedCart
      ensures cart == CartAfterAdd(products, old(cart), productId)
      ensures BT.First(products, HasId(productId)).Some? ==> savedCart == Some(cart)
      ensures BT.First(products, HasId(productId)).None? ==> savedCart == old(savedCart)
      ensures old(Valid()) ==> Valid()
    {
      var product := BT.First(products, HasId(productId));
      if product.None? {
        return;
      }
      ghost var before := cart;
      var existing := BT.FirstIndex(cart, ForProduct(productId));
      if existing.Some? {
        var i := existing.value;
        cart := cart[i := cart[i].(quantity := cart[i].quantity + 1)];
      } else {
        cart := cart + [CartLine(productId, 1, product.value)];
      }
      assert cart == CartAfterAdd(products, before, productId);
      if DistinctProducts(before) {
        AddToCartLines(products, before, productId);
      }
      savedCart := Some(cart);
    }

    /** removeFromCart: the line at the index goes and the cart is saved. */
    method RemoveFromCart(index: int)
      modifies this`cart, this`savedCart
      ensures cart == CartAfterRemove(old(cart), index) && savedCart == Some(cart)
      ensures old(Valid()) ==> Valid()
    {
      if DistinctProducts(cart) {
        RemoveFromCartLines(cart, index);
      }
      cart := CartAfterRemove(cart, index);
      savedCart := Some(cart);
    }

    /** clearCart: the cart and its saved copy are gone. */
    method ClearCart()
      modifies this`cart, this`savedCart
      ensures cart == [] && savedCart.None?
    {
      cart := [];
      savedCart := None;
    }

    /** processScannedQRPayment. */
    method ProcessScannedQRPayment(qrData: string, now: int) returns (r: ScanResult)
      modifies this`pendingQris, this`qrisOrder
      ensures (r, pendingQris) == ScanSpec(old(pendingQris), qrData, now)
      ensures r.ScanAccepted? ==> qrisOrder == Some(QrisOrder(r.pending.orderId, r.pending.total, r.pending.items))
      ensures r.ScanRefused? ==> qrisOrder == old(qrisOrder)
    {
      if pendingQris.None? {
        return ScanRefused("Tidak ada transaksi pending");
      }
      var p := pendingQris.value;
      if !Includes(qrData, OrderMarker) {
        return ScanRefused("QR code tidak valid");
      }
      if now > p.expiresAt {
        pendingQris := None;
        return ScanRefused("Transaksi sudah kadaluarsa");
      }
      qrisOrder := Some(QrisOrder(p.orderId, p.total, p.items));
      pendingQris := None;
      r := ScanAccepted(p);
    }

    /** checkPendingQRISTransaction. */
    method CheckPendingQRISTransaction(now: int) returns (r: Option<PendingQris>)
      modifies this`pendingQris
      ensures (r, pendingQris) == CheckSpec(old(pendingQris), now)
    {
      if pendingQris.Some? && now < pendingQris.value.expiresAt {
        return pendingQris;
      } else if pendingQris.Some? {
        pendingQris := None;
      }
      r := None;
    }
  }
}
