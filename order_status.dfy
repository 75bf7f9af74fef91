/** Order status updates (controller/order.js): the seller route
    `/update-order-status/:id` and the admin route
    `/admin-update-order-status/:id`.  `status` is free text; the two
    fulfilment statuses settle stock, and "Delivered" also stamps the order
    and credits a shop.  Both routes are modelled as written: the seller
    route overwrites the balance, the admin route adds to it, and neither
    remembers that an order was already settled. */
module OrderStatus {
  import opened Common
  import opened Entities
  import opened Store

  const READY_TO_SHIP := "Ready To Ship"
  const DELIVERED := "Delivered"
  const PAYMENT_SUCCEEDED := "Succeeded"

  /** The service charge is `totalPrice * 0.0`: the platform keeps nothing. */
  const SERVICE_CHARGE_RATE := 0

  /** The statuses on which the cart's products are settled. */
  predicate IsFulfilment(status: string)
  {
    status == READY_TO_SHIP || status == DELIVERED
  }

  /** What the shop is credited for a delivered order. */
  function NetPayout(total: int): (r: int)
    ensures r == total
  {
    total - total * SERVICE_CHARGE_RATE
  }

  // ---------------------------------------------------------------------
  // Seller route: stock ledger
  // ---------------------------------------------------------------------

  /** `updateOrder(id, qty)` on the seller route.  A product that no longer
      exists makes the fire-and-forget update fail on its own; the store is
      then left as it is. */
  function SellerSettleItem(ps: map<Id, Product>, item: CartItem): (r: map<Id, Product>)
    ensures r.Keys == ps.Keys
    ensures forall pid :: pid in ps && pid != item.productId ==> r[pid] == ps[pid]
    ensures item.productId in ps ==>
      r[item.productId].stock + r[item.productId].soldOut == ps[item.productId].stock + ps[item.productId].soldOut
  {
    if item.productId in ps then
      var p := ps[item.productId];
      ps[item.productId := p.(stock := p.stock - item.qty, soldOut := p.soldOut + item.qty)]
    else
      ps
  }

  /** The whole cart, line by line. */
  function SellerSettle(ps: map<Id, Product>, cart: seq<CartItem>): map<Id, Product>
  {
    if cart == [] then ps else SellerSettle(SellerSettleItem(ps, cart[0]), cart[1..])
  }

  /** Total quantity the cart orders of one product. */
  function QtyFor(cart: seq<CartItem>, pid: Id): int
  {
    if cart == [] then 0
    else (if cart[0].productId == pid then cart[0].qty else 0) + QtyFor(cart[1..], pid)
  }

  /** Seller settlement moves exactly the ordered quantity of every product
      from `stock` to `soldOut` and changes nothing else; no product is
      added or removed. */
  lemma {:induction false} SellerSettleEffect(ps: map<Id, Product>, cart: seq<CartItem>)
    ensures SellerSettle(ps, cart).Keys == ps.Keys
    ensures forall pid :: pid in ps ==>
      SellerSettle(ps, cart)[pid] ==
        ps[pid].(stock := ps[pid].stock - QtyFor(cart, pid), soldOut := ps[pid].soldOut + QtyFor(cart, pid))
  {
    if cart != [] {
      var ps1 := SellerSettleItem(ps, cart[0]);
      SellerSettleEffect(ps1, cart[1..]);
    }
  }

  /** Conservation: `stock + soldOut` of every product is unchanged. */
  lemma SellerSettleConserves(ps: map<Id, Product>, cart: seq<CartItem>, pid: Id)
    requires pid in ps
    ensures pid in SellerSettle(ps, cart)
    ensures SellerSettle(ps, cart)[pid].stock + SellerSettle(ps, cart)[pid].soldOut
         == ps[pid].stock + ps[pid].soldOut
  {
    SellerSettleEffect(ps, cart);
  }

  lemma {:induction false} QtyForAbsent(cart: seq<CartItem>, pid: Id)
    requires forall i :: 0 <= i < |cart| ==> cart[i].productId != pid
    ensures QtyFor(cart, pid) == 0
  {
    if cart != [] {
      QtyForAbsent(cart[1..], pid);
    }
  }

  /** Frame: a product the cart does not mention is untouched. */
  lemma SellerSettleFrame(ps: map<Id, Product>, cart: seq<CartItem>, pid: Id)
    requires pid in ps
    requires forall i :: 0 <= i < |cart| ==> cart[i].productId != pid
    ensures pid in SellerSettle(ps, cart) && SellerSettle(ps, cart)[pid] == ps[pid]
  {
    SellerSettleEffect(ps, cart);
    QtyForAbsent(cart, pid);
  }

  /** Settling is not idempotent: a second fulfilment update on the same
      order takes the quantities out of stock a second time. */
  lemma SellerSettleTwice(ps: map<Id, Product>, cart: seq<CartItem>, pid: Id)
    requires pid in ps
    ensures pid in SellerSettle(SellerSettle(ps, cart), cart)
    ensures SellerSettle(SellerSettle(ps, cart), cart)[pid].stock == ps[pid].stock - 2 * QtyFor(cart, pid)
    ensures SellerSettle(SellerSettle(ps, cart), cart)[pid].soldOut == ps[pid].soldOut + 2 * QtyFor(cart, pid)
  {
    SellerSettleEffect(ps, cart);
    SellerSettleEffect(SellerSettle(ps, cart), cart);
  }

  // ---------------------------------------------------------------------
  // Admin route: colour-aware stock ledger
  // ---------------------------------------------------------------------

  /** `colorList.findIndex(cl => cl.color === color)`. */
  function FirstColorIndex(colors: seq<ColorEntry>, color: string): (r: Option<nat>)
    ensures r.Some? ==> r.value < |colors| && colors[r.value].color == color
    ensures r.Some? ==> forall i :: 0 <= i < r.value ==> colors[i].color != color
    ensures r.None? <==> forall i :: 0 <= i < |colors| ==> colors[i].color != color
  {
    if colors == [] then None
    else if colors[0].color == color then Some(0)
    else
      match FirstColorIndex(colors[1..], color)
      case None => None
      case Some(k) => Some(k + 1)
  }

  /** `updateOrder(id, qty, color)` on the admin route: with a matching
      colour entry, that entry's stock and the product's stock drop by `qty`
      and `soldOut` rises by `qty`; with no match the product is unchanged. */
  function AdminSettleItem(ps: map<Id, Product>, item: CartItem): (r: map<Id, Product>)
    ensures r.Keys == ps.Keys
    ensures forall pid :: pid in ps && pid != item.productId ==> r[pid] == ps[pid]
  {
    if item.productId !in ps then ps
    else
      var p := ps[item.productId];
      match FirstColorIndex(p.colorList, item.color)
      case None => ps
      case Some(k) =>
        var entry := p.colorList[k];
        ps[item.productId := p.(colorList := p.colorList[k := entry.(stock := entry.stock - item.qty)],
                                stock := p.stock - item.qty,
                                soldOut := p.soldOut + item.qty)]
  }

  /** The admin route's loop over the cart, line by line; no product is
      added or removed. */
  function AdminSettle(ps: map<Id, Product>, cart: seq<CartItem>): (r: map<Id, Product>)
    ensures r.Keys == ps.Keys
  {
    if cart == [] then ps else AdminSettle(AdminSettleItem(ps, cart[0]), cart[1..])
  }

  /** The stock held by a product's colour variants. */
  function ColorStock(colors: seq<ColorEntry>): int
  {
    if colors == [] then 0 else colors[0].stock + ColorStock(colors[1..])
  }

  lemma {:induction false} ColorStockTake(colors: seq<ColorEntry>, k: nat, qty: int)
    requires k < |colors|
    ensures ColorStock(colors[k := colors[k].(stock := colors[k].stock - qty)]) == ColorStock(colors) - qty
  {
    var updated := colors[k := colors[k].(stock := colors[k].stock - qty)];
    if k == 0 {
      assert updated[1..] == colors[1..];
    } else {
      assert updated[1..] == colors[1..][k - 1 := colors[k].(stock := colors[k].stock - qty)];
      ColorStockTake(colors[1..], k - 1, qty);
    }
  }

  /** `q` differs from `p` at most in its stock counters and in the stock of
      its colour entries. */
  ghost predicate StockOnlyChange(p: Product, q: Product)
  {
    && q == p.(stock := q.stock, soldOut := q.soldOut, colorList := q.colorList)
    && |q.colorList| == |p.colorList|
    && (forall i :: 0 <= i < |p.colorList| ==> q.colorList[i] == p.colorList[i].(stock := q.colorList[i].stock))
  }

  /** `q` is `p` changed only in its stock counters, with
      `stock + soldOut` conserved and the gap between the product's stock
      and its variants' stock kept. */
  ghost predicate StockKept(p: Product, q: Product)
  {
    && StockOnlyChange(p, q)
    && q.stock + q.soldOut == p.stock + p.soldOut
    && q.stock - ColorStock(q.colorList) == p.stock - ColorStock(p.colorList)
  }

  /** `qs` holds the same products as `ps`, each related by `StockKept`. */
  ghost predicate StockSettled(ps: map<Id, Product>, qs: map<Id, Product>)
  {
    qs.Keys == ps.Keys && forall pid :: pid in ps ==> StockKept(ps[pid], qs[pid])
  }

  lemma StockKeptTrans(p: Product, q: Product, r: Product)
    requires StockKept(p, q) && StockKept(q, r)
    ensures StockKept(p, r)
  {
    forall i | 0 <= i < |p.colorList|
      ensures r.colorList[i] == p.colorList[i].(stock := r.colorList[i].stock)
    {
      assert q.colorList[i] == p.colorList[i].(stock := q.colorList[i].stock);
    }
  }

  lemma StockSettledTrans(ps: map<Id, Product>, qs: map<Id, Product>, rs: map<Id, Product>)
    requires StockSettled(ps, qs) && StockSettled(qs, rs)
    ensures StockSettled(ps, rs)
  {
    forall pid | pid in ps
      ensures StockKept(ps[pid], rs[pid])
    {
      StockKeptTrans(ps[pid], qs[pid], rs[pid]);
    }
  }

  /** Taking `qty` from colour variant `k` of a product, as the admin route
      does. */
  lemma TakeKeepsStock(p: Product, k: nat, qty: int)
    requires k < |p.colorList|
    ensures var entry := p.colorList[k];
      StockKept(p, p.(colorList := p.colorList[k := entry.(stock := entry.stock - qty)],
                      stock := p.stock - qty, soldOut := p.soldOut + qty))
  {
    ColorStockTake(p.colorList, k, qty);
  }

  /** One cart line settled by the admin route. */
  lemma AdminSettleItemSettles(ps: map<Id, Product>, item: CartItem)
    ensures StockSettled(ps, AdminSettleItem(ps, item))
  {
    var qs := AdminSettleItem(ps, item);
    forall pid | pid in ps
      ensures StockKept(ps[pid], qs[pid])
    {
      if pid == item.productId {
        var p := ps[pid];
        match FirstColorIndex(p.colorList, item.color)
        case None =>
        case Some(k) =>
          TakeKeepsStock(p, k, item.qty);
      }
    }
  }

  /** Admin settlement keeps the set of products, changes only stock
      counters, conserves `stock + soldOut`, and keeps the product's stock
      in step with its colour variants' stock. */
  lemma {:induction false} AdminSettleInvariants(ps: map<Id, Product>, cart: seq<CartItem>)
    ensures StockSettled(ps, AdminSettle(ps, cart))
  {
    if cart != [] {
      var ps1 := AdminSettleItem(ps, cart[0]);
      AdminSettleItemSettles(ps, cart[0]);
      AdminSettleInvariants(ps1, cart[1..]);
      StockSettledTrans(ps, ps1, AdminSettle(ps, cart));
    }
  }

  /** A line whose colour no variant carries leaves the store unchanged. */
  lemma AdminUnmatchedColour(ps: map<Id, Product>, item: CartItem)
    requires item.productId in ps
    requires forall i :: 0 <= i < |ps[item.productId].colorList| ==>
      ps[item.productId].colorList[i].color != item.color
    ensures AdminSettleItem(ps, item) == ps
  {
  }

  /** Frame: a product no line of the cart names keeps its value, and is
      present afterwards exactly when it was before. */
  lemma {:induction false} AdminSettleFrame(ps: map<Id, Product>, cart: seq<CartItem>, pid: Id)
    requires forall i :: 0 <= i < |cart| ==> cart[i].productId != pid
    ensures pid in AdminSettle(ps, cart) <==> pid in ps
    ensures pid in ps ==> AdminSettle(ps, cart)[pid] == ps[pid]
  {
    if cart != [] {
      var ps1 := AdminSettleItem(ps, cart[0]);
      assert cart[0].productId != pid;
      assert pid in ps1 <==> pid in ps;
      assert pid in ps ==> ps1[pid] == ps[pid];
      AdminSettleFrame(ps1, cart[1..], pid);
    }
  }

  /** The colour names of a product's variants, in order. */
  function Colors(colors: seq<ColorEntry>): (r: seq<string>)
    ensures |r| == |colors| && forall i :: 0 <= i < |colors| ==> r[i] == colors[i].color
  {
    seq(|colors|, i requires 0 <= i < |colors| => colors[i].color)
  }

  /** Total quantity the cart orders of one product in a colour it has a
      variant for: what the admin route takes out of stock. */
  function MatchedQty(cart: seq<CartItem>, pid: Id, colors: seq<string>): int
  {
    if cart == [] then 0
    else (if cart[0].productId == pid && cart[0].color in colors then cart[0].qty else 0)
         + MatchedQty(cart[1..], pid, colors)
  }

  /** Changing only stock counters keeps the variants' colour names. */
  lemma StockKeptColors(p: Product, q: Product)
    requires StockKept(p, q)
    ensures Colors(q.colorList) == Colors(p.colorList)
  {
    forall i | 0 <= i < |p.colorList|
      ensures q.colorList[i].color == p.colorList[i].color
    {
      assert q.colorList[i] == p.colorList[i].(stock := q.colorList[i].stock);
    }
  }

  /** A colour has a variant exactly when `findIndex` finds one. */
  lemma FirstColorIndexFinds(colors: seq<ColorEntry>, color: string)
    ensures FirstColorIndex(colors, color).Some? <==> color in Colors(colors)
  {
    if color in Colors(colors) {
      var i :| 0 <= i < |colors| && Colors(colors)[i] == color;
      assert colors[i].color == color;
    }
  }

  /** One cart line as the admin route settles it: the product it names
      loses `qty` of stock and gains `qty` sold exactly when its colour has
      a variant. */
  lemma AdminSettleItemEffect(ps: map<Id, Product>, item: CartItem, pid: Id)
    requires pid in ps
    ensures pid in AdminSettleItem(ps, item)
    ensures var q := AdminSettleItem(ps, item)[pid];
      var taken := MatchedQty([item], pid, Colors(ps[pid].colorList));
      q.stock == ps[pid].stock - taken && q.soldOut == ps[pid].soldOut + taken
  {
    assert [item][1..] == [];
    FirstColorIndexFinds(ps[pid].colorList, item.color);
  }

  /** Net effect of the admin route's settlement: every product loses from
      `stock`, and gains in `sold_out`, the quantity ordered of it in
      colours it has a variant for. */
  lemma {:induction false} AdminSettleEffect(ps: map<Id, Product>, cart: seq<CartItem>)
    ensures AdminSettle(ps, cart).Keys == ps.Keys
    ensures forall pid :: pid in ps ==>
      var taken := MatchedQty(cart, pid, Colors(ps[pid].colorList));
      AdminSettle(ps, cart)[pid].stock == ps[pid].stock - taken
      && AdminSettle(ps, cart)[pid].soldOut == ps[pid].soldOut + taken
  {
    AdminSettleInvariants(ps, cart);
    if cart != [] {
      var ps1 := AdminSettleItem(ps, cart[0]);
      AdminSettleItemSettles(ps, cart[0]);
      AdminSettleEffect(ps1, cart[1..]);
      forall pid | pid in ps
        ensures var taken := MatchedQty(cart, pid, Colors(ps[pid].colorList));
          AdminSettle(ps, cart)[pid].stock == ps[pid].stock - taken
          && AdminSettle(ps, cart)[pid].soldOut == ps[pid].soldOut + taken
      {
        AdminSettleItemEffect(ps, cart[0], pid);
        StockKeptColors(ps[pid], ps1[pid]);
      }
    }
  }

  /** The admin route is not idempotent either: settling a line whose
      colour matches a second time takes its quantity out of stock again. */
  lemma AdminNotIdempotent(ps: map<Id, Product>, item: CartItem)
    requires item.productId in ps && item.qty != 0
    requires exists i :: 0 <= i < |ps[item.productId].colorList| && ps[item.productId].colorList[i].color == item.color
    ensures AdminSettleItem(AdminSettleItem(ps, item), item) != AdminSettleItem(ps, item)
  {
    var pid := item.productId;
    var once := AdminSettleItem(ps, item);
    AdminSettleItemSettles(ps, item);
    StockKeptColors(ps[pid], once[pid]);
    AdminSettleItemEffect(ps, item, pid);
    AdminSettleItemEffect(once, item, pid);
    FirstColorIndexFinds(ps[pid].colorList, item.color);
    assert AdminSettleItem(once, item)[pid].stock == once[pid].stock - item.qty;
  }

  /** The seller route does not keep the variants in step: settling a
      product with colour variants lowers `stock` but no variant's stock. */
  lemma SellerSettleDrifts(ps: map<Id, Product>, item: CartItem)
    requires item.productId in ps && item.qty != 0
    ensures var q := SellerSettleItem(ps, item)[item.productId];
      q.colorList == ps[item.productId].colorList
      && q.stock - ColorStock(q.colorList) != ps[item.productId].stock - ColorStock(ps[item.productId].colorList)
  {
  }

  // ---------------------------------------------------------------------
  // Order record and balances
  // ---------------------------------------------------------------------

  /** The order after `order.status = status` and, for "Delivered", the
      delivery stamp and the payment status. */
  function ApplyStatus(o: Order, status: string, now: int): (r: Order)
    ensures r.status == status
    ensures r.cart == o.cart && r.totalPrice == o.totalPrice && r.user == o.user
    ensures r.shippingAddress == o.shippingAddress && r.createdAt == o.createdAt
    ensures status == DELIVERED ==>
      r.deliveredAt == Some(now) && r.paymentInfo == o.paymentInfo.(status := PAYMENT_SUCCEEDED)
    ensures status != DELIVERED ==> r.deliveredAt == o.deliveredAt && r.paymentInfo == o.paymentInfo
  {
    var r := o.(status := status);
    if status == DELIVERED then
      r.(deliveredAt := Some(now), paymentInfo := r.paymentInfo.(status := PAYMENT_SUCCEEDED))
    else
      r
  }

  /** Seller route `updateSellerInfo`: the balance is replaced. */
  function CreditBySeller(shop: Shop, amount: int): Shop
  {
    shop.(availableBalance := amount)
  }

  /** Admin route `updateSellerInfo`: the balance is increased. */
  function CreditByAdmin(shop: Shop, amount: int): Shop
  {
    shop.(availableBalance := shop.availableBalance + amount)
  }

  /** Two deliveries credited on the seller route leave only the second
      payout; on the admin route both accumulate. */
  lemma TwoDeliveries(shop: Shop, first: int, second: int)
    ensures CreditBySeller(CreditBySeller(shop, NetPayout(first)), NetPayout(second)).availableBalance == second
    ensures CreditByAdmin(CreditByAdmin(shop, NetPayout(first)), NetPayout(second)).availableBalance
         == shop.availableBalance + first + second
  {
  }

  // ---------------------------------------------------------------------
  // Handlers
  // ---------------------------------------------------------------------

  /** The seller route's `forEach(updateOrder)`, run line by line. */
  method SettleBySeller(db: Db, cart: seq<CartItem>)
    modifies db`products
    ensures db.products == SellerSettle(old(db.products), cart)
  {
    var i := 0;
    while i < |cart|
      invariant 0 <= i <= |cart|
      invariant SellerSettle(db.products, cart[i..]) == SellerSettle(old(db.products), cart)
    {
      var item := cart[i];
      assert cart[i..][0] == item && cart[i..][1..] == cart[i + 1..];
      if item.productId in db.products {
        var product := db.products[item.productId];
        product := product.(stock := product.stock - item.qty);
        product := product.(soldOut := product.soldOut + item.qty);
        db.products := db.products[item.productId := product];
      }
      i := i + 1;
    }
  }

  /** The admin route's `forEach(updateOrder)`, run line by line. */
  method SettleByAdmin(db: Db, cart: seq<CartItem>)
    modifies db`products
    ensures db.products == AdminSettle(old(db.products), cart)
  {
    var ps: map<Id, Product> := db.products;
    var i := 0;
    while i < |cart|
      invariant 0 <= i <= |cart|
      invariant AdminSettle(ps, cart[i..]) == AdminSettle(db.products, cart)
    {
      var item := cart[i];
      assert cart[i..][0] == item && cart[i..][1..] == cart[i + 1..];
      if item.productId in ps {
        var product := ps[item.productId];
        var colorIndex := FirstColorIndex(product.colorList, item.color);
        if colorIndex.Some? {
          var k := colorIndex.value;
          var colors := product.colorList;
          colors := colors[k := colors[k].(stock := colors[k].stock - item.qty)];
          product := product.(colorList := colors);
          product := product.(soldOut := product.soldOut + item.qty, stock := product.stock - item.qty);
          ps := ps[item.productId := product];
        }
      }
      i := i + 1;
    }
    db.products := ps;
  }


  /** `/update-order-status/:id` for the signed-in seller `sellerId`.
      An unknown order is a 400 with nothing changed.  Otherwise products
      are settled on a fulfilment status; for "Delivered" the seller's
      balance is overwritten with the payout, and a missing seller record
      fails with 500 before the order is saved.  The buyer is notified
      exactly when the status changes. */
  method UpdateOrderStatusBySeller(db: Db, orderId: Id, status: string, sellerId: Id, now: int)
    returns (code: int, notified: bool)
    modifies db`orders, db`products, db`shops
    ensures orderId !in old(db.orders) ==>
      && code == BAD_REQUEST && !notified
      && db.orders == old(db.orders) && db.products == old(db.products) && db.shops == old(db.shops)
    ensures orderId in old(db.orders) ==>
      var o := old(db.orders)[orderId];
      && db.products == (if IsFulfilment(status) then SellerSettle(old(db.products), o.cart) else old(db.products))
      && (if status == DELIVERED && sellerId !in old(db.shops) then
            && code == SERVER_ERROR && !notified
            && db.orders == old(db.orders) && db.shops == old(db.shops)
          else
            && code == OK
            && notified == (o.status != status)
            && db.orders == old(db.orders)[orderId := ApplyStatus(o, status, now)]
            && db.shops == (if status == DELIVERED
                            then old(db.shops)[sellerId := CreditBySeller(old(db.shops)[sellerId], NetPayout(o.totalPrice))]
                            else old(db.shops)))
  {
    if orderId !in db.orders {
      return BAD_REQUEST, false;
    }
    var order := db.orders[orderId];
    if IsFulfilment(status) {
      SettleBySeller(db, order.cart);
    }
    var previousStatus := order.status;
    order := order.(status := status);
    if status == DELIVERED {
      order := order.(deliveredAt := Some(now));
      order := order.(paymentInfo := order.paymentInfo.(status := PAYMENT_SUCCEEDED));
      var serviceCharge := order.totalPrice * SERVICE_CHARGE_RATE;
      if sellerId !in db.shops {
        return SERVER_ERROR, false;
      }
      var seller := db.shops[sellerId];
      seller := seller.(availableBalance := order.totalPrice - serviceCharge);
      db.shops := db.shops[sellerId := seller];
    }
    db.orders := db.orders[orderId := order];
    notified := previousStatus != status;
    code := OK;
  }

  /** `/admin-update-order-status/:id`.  Like the seller route, but stock is
      settled per colour variant and "Delivered" adds the payout to the
      balance of the shop embedded in the first cart line; an empty cart or
      a missing shop fails with 500 before the order is saved. */
  method UpdateOrderStatusByAdmin(db: Db, orderId: Id, status: string, now: int)
    returns (code: int, notified: bool)
    modifies db`orders, db`products, db`shops
    ensures orderId !in old(db.orders) ==>
      && code == BAD_REQUEST && !notified
      && db.orders == old(db.orders) && db.products == old(db.products) && db.shops == old(db.shops)
    ensures orderId in old(db.orders) ==>
      var o := old(db.orders)[orderId];
      && db.products == (if IsFulfilment(status) then AdminSettle(old(db.products), o.cart) else old(db.products))
      && (if status == DELIVERED && (o.cart == [] || o.cart[0].shopRef !in old(db.shops)) then
            && code == SERVER_ERROR && !notified
            && db.orders == old(db.orders) && db.shops == old(db.shops)
          else
            && code == OK
            && notified == (o.status != status)
            && db.orders == old(db.orders)[orderId := ApplyStatus(o, status, now)]
            && db.shops == (if status == DELIVERED
                            then old(db.shops)[o.cart[0].shopRef :=
                                   CreditByAdmin(old(db.shops)[o.cart[0].shopRef], NetPayout(o.totalPrice))]
                            else old(db.shops)))
  {
    if orderId !in db.orders {
      return BAD_REQUEST, false;
    }
    var order := db.orders[orderId];
    if IsFulfilment(status) {
      SettleByAdmin(db, order.cart);
    }
    var previousStatus := order.status;
    order := order.(status := status);
    if status == DELIVERED {
      order := order.(deliveredAt := Some(now));
      order := order.(paymentInfo := order.paymentInfo.(status := PAYMENT_SUCCEEDED));
      var serviceCharge := order.totalPrice * SERVICE_CHARGE_RATE;
      if order.cart == [] || order.cart[0].shopRef !in db.shops {
        return SERVER_ERROR, false;
      }
      var shopId := order.cart[0].shopRef;
      var seller := db.shops[shopId];
      seller := seller.(availableBalance := seller.availableBalance + (order.totalPrice - serviceCharge));
      db.shops := db.shops[shopId := seller];
    }
    db.orders := db.orders[orderId := order];
    notified := previousStatus != status;
    code := OK;
  }
}
