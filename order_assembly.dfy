/** Order creation (`/create-order` in controller/order.js): the cart is
    split into one order per `shopId`, in order of each shop's first
    appearance, and every order's `totalPrice` is a fold over its lines. */
module OrderAssembly {
  import opened Common
  import opened Entities
  import opened Store

  /** Status of a freshly created order (the order schema's default). */
  const INITIAL_STATUS := "Processing"

  // ---------------------------------------------------------------------
  // Pricing
  // ---------------------------------------------------------------------

  /** What one cart line adds to the total: its discount price when that is
      non-zero, else its original price.  The quantity is not multiplied in. */
  function LinePrice(item: CartItem): int
  {
    if item.discountPrice != 0 then item.discountPrice else item.originalPrice
  }

  /** Reference definition of an order's value: the sum of its line prices. */
  function SumPrices(items: seq<CartItem>): int
  {
    if items == [] then 0 else LinePrice(items[0]) + SumPrices(items[1..])
  }

  /** `items.reduce((total, item) => ..., 0)`: a left fold with an accumulator. */
  function Reduce(items: seq<CartItem>, total: int): int
  {
    if items == [] then total else Reduce(items[1..], total + LinePrice(items[0]))
  }

  lemma {:induction false} ReduceIsSum(items: seq<CartItem>, total: int)
    ensures Reduce(items, total) == total + SumPrices(items)
  {
    if items != [] {
      ReduceIsSum(items[1..], total + LinePrice(items[0]));
    }
  }

  /** The `totalPrice` stored on a created order: the reduce, which equals
      the sum of the line prices. */
  function OrderTotal(items: seq<CartItem>): (r: int)
    ensures r == SumPrices(items)
  {
    ReduceIsSum(items, 0);
    Reduce(items, 0)
  }

  lemma {:induction false} SumPricesAppend(a: seq<CartItem>, b: seq<CartItem>)
    ensures SumPrices(a + b) == SumPrices(a) + SumPrices(b)
  {
    if a == [] {
      assert a + b == b;
    } else {
      assert (a + b)[1..] == a[1..] + b;
      SumPricesAppend(a[1..], b);
    }
  }

  /** Reordering the lines does not change their total. */
  /** Taking line `j` out of a list takes its price out of the total. */
  lemma {:induction false} SumPricesRemove(b: seq<CartItem>, j: nat)
    requires j < |b|
    ensures SumPrices(b) == LinePrice(b[j]) + SumPrices(b[..j] + b[j + 1..])
  {
    if j == 0 {
      assert b[..0] + b[1..] == b[1..];
    } else {
      var tl := b[1..];
      SumPricesRemove(tl, j - 1);
      var rest := tl[..j - 1] + tl[j..];
      assert b[..j] + b[j + 1..] == [b[0]] + rest;
      assert ([b[0]] + rest)[1..] == rest;
    }
  }

  lemma MultisetRemove(b: seq<CartItem>, j: nat)
    requires j < |b|
    ensures multiset(b[..j] + b[j + 1..]) == multiset(b) - multiset{b[j]}
  {
    assert b == b[..j] + [b[j]] + b[j + 1..];
  }

  lemma {:induction false} SumPricesPermutation(a: seq<CartItem>, b: seq<CartItem>)
    requires multiset(a) == multiset(b)
    ensures SumPrices(a) == SumPrices(b)
    decreases |a|
  {
    if a == [] {
      assert |b| == |multiset(b)| == 0;
    } else {
      var x := a[0];
      assert a == [x] + a[1..];
      assert x in multiset(b);
      var j :| 0 <= j < |b| && b[j] == x;
      SumPricesRemove(b, j);
      MultisetRemove(b, j);
      SumPricesPermutation(a[1..], b[..j] + b[j + 1..]);
    }
  }

  lemma {:induction false} SumPricesPointwise(a: seq<CartItem>, b: seq<CartItem>)
    requires |a| == |b|
    requires forall i :: 0 <= i < |a| ==> LinePrice(a[i]) == LinePrice(b[i])
    ensures SumPrices(a) == SumPrices(b)
  {
    if a != [] {
      assert LinePrice(a[0]) == LinePrice(b[0]);
      SumPricesPointwise(a[1..], b[1..]);
    }
  }

  /** The lines with their quantities replaced. */
  function WithQuantities(items: seq<CartItem>, qtys: seq<int>): (r: seq<CartItem>)
    requires |qtys| == |items|
    ensures |r| == |items|
    ensures forall i :: 0 <= i < |r| ==> r[i] == items[i].(qty := qtys[i])
  {
    seq(|items|, i requires 0 <= i < |items| => items[i].(qty := qtys[i]))
  }

  /** An order's total does not depend on the quantities ordered. */
  lemma TotalIgnoresQuantity(items: seq<CartItem>, qtys: seq<int>)
    requires |qtys| == |items|
    ensures OrderTotal(WithQuantities(items, qtys)) == OrderTotal(items)
  {
    SumPricesPointwise(WithQuantities(items, qtys), items);
  }

  // ---------------------------------------------------------------------
  // Grouping by shop
  // ---------------------------------------------------------------------

  /** The distinct shops of a cart, in order of first appearance: the key
      order of the JavaScript Map the handler fills. */
  function ShopsOf(cart: seq<CartItem>): seq<Id>
  {
    if cart == [] then []
    else
      var prev := ShopsOf(cart[..|cart| - 1]);
      if cart[|cart| - 1].shopId in prev then prev else prev + [cart[|cart| - 1].shopId]
  }

  /** The lines of one shop, in cart order. */
  function ItemsOf(cart: seq<CartItem>, shop: Id): seq<CartItem>
  {
    if cart == [] then []
    else
      ItemsOf(cart[..|cart| - 1], shop)
      + (if cart[|cart| - 1].shopId == shop then [cart[|cart| - 1]] else [])
  }

  predicate Distinct(s: seq<Id>)
  {
    forall i, j :: 0 <= i < j < |s| ==> s[i] != s[j]
  }

  /** Index of the first line of `shop`, or |cart| when it has none. */
  function FirstIndex(cart: seq<CartItem>, shop: Id): (k: nat)
    ensures k <= |cart|
    ensures k < |cart| ==> cart[k].shopId == shop
    ensures forall i :: 0 <= i < k ==> cart[i].shopId != shop
  {
    if cart == [] then 0
    else if cart[0].shopId == shop then 0
    else 1 + FirstIndex(cart[1..], shop)
  }

  lemma {:induction false} FirstIndexSnoc(c: seq<CartItem>, x: CartItem, shop: Id)
    ensures FirstIndex(c + [x], shop) ==
      if FirstIndex(c, shop) < |c| then FirstIndex(c, shop)
      else if x.shopId == shop then |c|
      else |c| + 1
  {
    if c != [] && c[0].shopId != shop {
      assert (c + [x])[1..] == c[1..] + [x];
      FirstIndexSnoc(c[1..], x, shop);
    }
  }

  /** The shops of a cart are distinct, are exactly the shops of its lines,
      and come out in order of first appearance. */
  lemma {:induction false} ShopsOfSpec(cart: seq<CartItem>)
    ensures Distinct(ShopsOf(cart))
    ensures forall s :: s in ShopsOf(cart) <==> FirstIndex(cart, s) < |cart|
    ensures forall i, j :: 0 <= i < j < |ShopsOf(cart)| ==>
      FirstIndex(cart, ShopsOf(cart)[i]) < FirstIndex(cart, ShopsOf(cart)[j])
  {
    if cart != [] {
      var c, x := cart[..|cart| - 1], cart[|cart| - 1];
      assert cart == c + [x];
      ShopsOfSpec(c);
      var prev := ShopsOf(c);
      forall s
        ensures FirstIndex(cart, s) ==
          if FirstIndex(c, s) < |c| then FirstIndex(c, s)
          else if x.shopId == s then |c|
          else |c| + 1
      {
        FirstIndexSnoc(c, x, s);
      }
      if x.shopId !in prev {
        ShopsOfSnocNew(prev, x.shopId, c, cart);
      }
    }
  }

  /** The step of `ShopsOfSpec` where the new line's shop is a new key. */
  lemma ShopsOfSnocNew(prev: seq<Id>, t: Id, c: seq<CartItem>, cart: seq<CartItem>)
    requires |cart| == |c| + 1 && t !in prev && Distinct(prev)
    requires forall s :: s in prev <==> FirstIndex(c, s) < |c|
    requires forall i, j :: 0 <= i < j < |prev| ==> FirstIndex(c, prev[i]) < FirstIndex(c, prev[j])
    requires forall s :: FirstIndex(cart, s) ==
                         if FirstIndex(c, s) < |c| then FirstIndex(c, s) else if t == s then |c| else |c| + 1
    ensures Distinct(prev + [t])
    ensures forall i, j :: 0 <= i < j < |prev + [t]| ==>
      FirstIndex(cart, (prev + [t])[i]) < FirstIndex(cart, (prev + [t])[j])
  {
    var next := prev + [t];
    forall i, j | 0 <= i < j < |next|
      ensures next[i] != next[j] && FirstIndex(cart, next[i]) < FirstIndex(cart, next[j])
    {
      assert next[i] == prev[i] && next[i] in prev;
      if j < |prev| {
        assert next[j] == prev[j];
      }
    }
  }

  /** A shop occurs in the cart exactly when some line carries it. */
  lemma ShopsOfMembers(cart: seq<CartItem>, s: Id)
    ensures s in ShopsOf(cart) <==> exists i :: 0 <= i < |cart| && cart[i].shopId == s
  {
    ShopsOfSpec(cart);
  }

  lemma {:induction false} ItemsOfSnoc(c: seq<CartItem>, x: CartItem, shop: Id)
    ensures ItemsOf(c + [x], shop) == ItemsOf(c, shop) + (if x.shopId == shop then [x] else [])
  {
    assert (c + [x])[..|c|] == c;
  }

  /** A shop's group holds only that shop's lines, and each of them as
      often as the cart does. */
  lemma {:induction false} ItemsOfSpec(cart: seq<CartItem>, shop: Id)
    ensures forall x: CartItem :: x in ItemsOf(cart, shop) ==> x.shopId == shop
    ensures forall x: CartItem :: x.shopId == shop ==> multiset(ItemsOf(cart, shop))[x] == multiset(cart)[x]
  {
    if cart != [] {
      var c, y := cart[..|cart| - 1], cart[|cart| - 1];
      assert cart == c + [y];
      ItemsOfSpec(c, shop);
      ItemsOfSnoc(c, y, shop);
    }
  }

  /** A shop without lines gets no items. */
  lemma {:induction false} ItemsOfAbsent(cart: seq<CartItem>, shop: Id)
    requires FirstIndex(cart, shop) == |cart|
    ensures ItemsOf(cart, shop) == []
  {
    if cart != [] {
      var c := cart[..|cart| - 1];
      FirstIndexSnoc(c, cart[|cart| - 1], shop);
      assert cart == c + [cart[|cart| - 1]];
      ItemsOfAbsent(c, shop);
    }
  }

  /** The carts of the orders for `shops`, one after the other. */
  function Concat(shops: seq<Id>, cart: seq<CartItem>): seq<CartItem>
  {
    if shops == [] then [] else ItemsOf(cart, shops[0]) + Concat(shops[1..], cart)
  }

  lemma {:induction false} ConcatSnocShop(shops: seq<Id>, t: Id, cart: seq<CartItem>)
    ensures Concat(shops + [t], cart) == Concat(shops, cart) + ItemsOf(cart, t)
  {
    if shops == [] {
      assert Concat([t], cart) == ItemsOf(cart, t) + Concat([], cart);
    } else {
      assert (shops + [t])[1..] == shops[1..] + [t];
      ConcatSnocShop(shops[1..], t, cart);
    }
  }

  lemma JoinGrowth(a: seq<CartItem>, a': seq<CartItem>, b: seq<CartItem>, b': seq<CartItem>,
                   ea: multiset<CartItem>, eb: multiset<CartItem>)
    requires multiset(a') == multiset(a) + ea && multiset(b') == multiset(b) + eb
    ensures multiset(a' + b') == multiset(a + b) + ea + eb
  {
  }

  /** The head of a list of distinct shops does not recur in its tail, and
      its tail is distinct too. */
  lemma DistinctTail(shops: seq<Id>)
    requires Distinct(shops) && shops != []
    ensures Distinct(shops[1..]) && shops[0] !in shops[1..]
    ensures forall s :: s in shops <==> s == shops[0] || s in shops[1..]
  {
    assert shops == [shops[0]] + shops[1..];
    forall k | 0 <= k < |shops| - 1 ensures shops[1..][k] != shops[0] {
      assert shops[1..][k] == shops[k + 1];
    }
  }

  lemma {:induction false} ConcatSnocItem(shops: seq<Id>, c: seq<CartItem>, x: CartItem)
    requires Distinct(shops)
    ensures multiset(Concat(shops, c + [x])) ==
      multiset(Concat(shops, c)) + (if x.shopId in shops then multiset{x} else multiset{})
  {
    if shops != [] {
      var hd, tl := shops[0], shops[1..];
      DistinctTail(shops);
      ConcatSnocItem(tl, c, x);
      ItemsOfSnoc(c, x, hd);
      var ea := if x.shopId == hd then multiset{x} else multiset{};
      var eb := if x.shopId in tl then multiset{x} else multiset{};
      JoinGrowth(ItemsOf(c, hd), ItemsOf(c + [x], hd), Concat(tl, c), Concat(tl, c + [x]), ea, eb);
    }
  }

  /** Partition: the created orders' carts, concatenated, are a permutation
      of the input cart; no line is lost or duplicated. */
  lemma {:induction false} GroupingIsPermutation(cart: seq<CartItem>)
    ensures multiset(Concat(ShopsOf(cart), cart)) == multiset(cart)
  {
    if cart != [] {
      var c, x := cart[..|cart| - 1], cart[|cart| - 1];
      assert cart == c + [x];
      GroupingIsPermutation(c);
      ShopsOfSpec(c);
      var shops := ShopsOf(c);
      ConcatSnocItem(shops, c, x);
      if x.shopId !in shops {
        ConcatSnocShop(shops, x.shopId, cart);
        ItemsOfAbsent(c, x.shopId);
        ItemsOfSnoc(c, x, x.shopId);
      }
    }
  }

  /** Sum of the totals of the orders for `shops`. */
  function SumTotals(shops: seq<Id>, cart: seq<CartItem>): int
  {
    if shops == [] then 0 else OrderTotal(ItemsOf(cart, shops[0])) + SumTotals(shops[1..], cart)
  }

  lemma {:induction false} SumTotalsIsConcatSum(shops: seq<Id>, cart: seq<CartItem>)
    ensures SumTotals(shops, cart) == SumPrices(Concat(shops, cart))
  {
    if shops != [] {
      SumTotalsIsConcatSum(shops[1..], cart);
      SumPricesAppend(ItemsOf(cart, shops[0]), Concat(shops[1..], cart));
    }
  }

  /** Splitting the cart neither creates nor loses value: the order totals
      add up to the sum of the cart's line prices. */
  lemma OrderTotalsCoverCart(cart: seq<CartItem>)
    ensures SumTotals(ShopsOf(cart), cart) == SumPrices(cart)
  {
    SumTotalsIsConcatSum(ShopsOf(cart), cart);
    GroupingIsPermutation(cart);
    SumPricesPermutation(Concat(ShopsOf(cart), cart), cart);
  }

  /** The grouping after a cart prefix: `shops` in first-appearance order
      and each shop's lines under its key. */
  ghost predicate Grouped(prefix: seq<CartItem>, shops: seq<Id>, groups: map<Id, seq<CartItem>>)
  {
    && shops == ShopsOf(prefix)
    && (forall s :: s in groups <==> s in shops)
    && (forall s :: s in groups ==> groups[s] == ItemsOf(prefix, s))
  }

  lemma GroupStep(prefix: seq<CartItem>, item: CartItem,
                  shops: seq<Id>, groups: map<Id, seq<CartItem>>,
                  shops': seq<Id>, groups': map<Id, seq<CartItem>>)
    requires Grouped(prefix, shops, groups)
    requires shops' == if item.shopId in groups then shops else shops + [item.shopId]
    requires groups' == groups[item.shopId := (if item.shopId in groups then groups[item.shopId] else []) + [item]]
    ensures Grouped(prefix + [item], shops', groups')
  {
    var c := prefix + [item];
    assert c[..|c| - 1] == prefix;
    forall s
      ensures ItemsOf(c, s) == ItemsOf(prefix, s) + (if item.shopId == s then [item] else [])
    {
      ItemsOfSnoc(prefix, item, s);
    }
    if item.shopId !in groups {
      ShopsOfSpec(prefix);
      ItemsOfAbsent(prefix, item.shopId);
    }
  }

  /** The grouping loop: a Map from shop to lines, filled in cart order;
      `shops` is the Map's key order. */
  method GroupByShop(cart: seq<CartItem>) returns (shops: seq<Id>, groups: map<Id, seq<CartItem>>)
    ensures shops == ShopsOf(cart)
    ensures forall s :: s in groups <==> s in shops
    ensures forall s :: s in groups ==> groups[s] == ItemsOf(cart, s)
  {
    shops, groups := [], map[];
    for i := 0 to |cart|
      invariant Grouped(cart[..i], shops, groups)
    {
      var item := cart[i];
      ghost var shops0, groups0 := shops, groups;
      if item.shopId !in groups {
        groups := groups[item.shopId := []];
        shops := shops + [item.shopId];
      }
      groups := groups[item.shopId := groups[item.shopId] + [item]];
      GroupStep(cart[..i], item, shops0, groups0, shops, groups);
      assert cart[..i + 1] == cart[..i] + [item];
    }
    assert cart[..|cart|] == cart;
  }

  // ---------------------------------------------------------------------
  // Creating the orders
  // ---------------------------------------------------------------------

  /** The order created for one shop's lines. */
  function NewOrder(items: seq<CartItem>, shippingAddress: Document, user: Id,
                    paymentInfo: PaymentInfo, now: int): (o: Order)
    ensures o.cart == items && o.totalPrice == SumPrices(items)
    ensures o.status == INITIAL_STATUS && o.deliveredAt.None? && o.createdAt == now
    ensures o.shippingAddress == shippingAddress && o.user == user && o.paymentInfo == paymentInfo
  {
    Order(items, shippingAddress, user, OrderTotal(items), paymentInfo, INITIAL_STATUS, None, now)
  }

  /** `after` is `before` plus one fresh entry `created[i] := orders[i]`
      per created id. */
  ghost predicate Extends(before: map<Id, Order>, after: map<Id, Order>, created: seq<Id>, orders: seq<Order>)
  {
    && |created| == |orders|
    && (forall i :: 0 <= i < |created| ==> created[i] !in before)
    && (forall i, j :: 0 <= i < j < |created| ==> created[i] != created[j])
    && (forall id :: id in before ==> id in after && after[id] == before[id])
    && (forall i :: 0 <= i < |created| ==> created[i] in after && after[created[i]] == orders[i])
    && (forall id :: id in after ==> id in before || id in created)
  }

  /** Storing one more order under an id not yet taken extends the store. */
  lemma ExtendsStep(before: map<Id, Order>, after: map<Id, Order>, created: seq<Id>, orders: seq<Order>,
                    id: Id, o: Order)
    requires Extends(before, after, created, orders) && id !in after
    ensures Extends(before, after[id := o], created + [id], orders + [o])
  {
    var c, a := created + [id], after[id := o];
    forall i | 0 <= i < |created|
      ensures c[i] != id && a[c[i]] == orders[i]
    {
      assert created[i] in after;
    }
  }

  /** The second loop of `/create-order`: for each shop of the Map in key
      order, save an order of that shop's lines into `table`, then look the
      shop up in `shopTable`.  Looking up a shop that does not exist throws
      after that shop's order was saved, so the loop stops with 500 and the
      orders created so far remain. */
  method SaveOrders(table: map<Id, Order>, shopTable: map<Id, Shop>, shops: seq<Id>,
                    groups: map<Id, seq<CartItem>>, shippingAddress: Document,
                    user: Id, paymentInfo: PaymentInfo, now: int)
    returns (code: int, created: seq<Id>, saved: map<Id, Order>, ghost orders: seq<Order>)
    requires forall s :: s in shops ==> s in groups
    ensures 0 <= |created| <= |shops|
    ensures Extends(table, saved, created, orders)
    ensures forall i :: 0 <= i < |orders| ==>
      orders[i] == NewOrder(groups[shops[i]], shippingAddress, user, paymentInfo, now)
    ensures code == CREATED <==> forall i :: 0 <= i < |shops| ==> shops[i] in shopTable
    ensures code == CREATED ==> |created| == |shops|
    ensures code != CREATED ==>
      && code == SERVER_ERROR && |created| > 0
      && (forall i :: 0 <= i < |created| - 1 ==> shops[i] in shopTable)
      && shops[|created| - 1] !in shopTable
  {
    ghost var planned := seq(|shops|, i requires 0 <= i < |shops| =>
      NewOrder(groups[shops[i]], shippingAddress, user, paymentInfo, now));
    created, orders, saved := [], [], table;
    var k := 0;
    while k < |shops|
      invariant 0 <= k <= |shops| && |created| == k
      invariant Extends(table, saved, created, orders)
      invariant orders == planned[..k]
      invariant forall i :: 0 <= i < k ==> shops[i] in shopTable
    {
      FreshIdExists(saved.Keys);
      var id: Id :| id !in saved;
      var order := NewOrder(groups[shops[k]], shippingAddress, user, paymentInfo, now);
      ExtendsStep(table, saved, created, orders, id, order);
      saved := saved[id := order];
      created, orders := created + [id], orders + [order];
      assert orders == planned[..k + 1];
      if shops[k] !in shopTable {
        code := SERVER_ERROR;
        return;
      }
      k := k + 1;
    }
    code := CREATED;
  }

  /** `/create-order`: one order per shop, created in first-appearance
      order, each holding exactly that shop's lines; 500 as soon as a shop
      is missing, with the orders created up to it kept. */
  method CreateOrders(db: Db, cart: seq<CartItem>, shippingAddress: Document, user: Id,
                      paymentInfo: PaymentInfo, now: int) returns (code: int, created: seq<Id>)
    modifies db`orders
    ensures 0 <= |created| <= |ShopsOf(cart)|
    ensures forall i :: 0 <= i < |created| ==> created[i] !in old(db.orders)
    ensures forall i, j :: 0 <= i < j < |created| ==> created[i] != created[j]
    ensures forall id :: id in db.orders <==> id in old(db.orders) || id in created
    ensures forall id :: id in old(db.orders) ==> db.orders[id] == old(db.orders)[id]
    ensures forall i :: 0 <= i < |created| ==>
      db.orders[created[i]] == NewOrder(ItemsOf(cart, ShopsOf(cart)[i]), shippingAddress, user, paymentInfo, now)
    ensures code == CREATED <==> forall i :: 0 <= i < |ShopsOf(cart)| ==> ShopsOf(cart)[i] in db.shops
    ensures code == CREATED ==> |created| == |ShopsOf(cart)|
    ensures code != CREATED ==>
      && code == SERVER_ERROR && |created| > 0
      && (forall i :: 0 <= i < |created| - 1 ==> ShopsOf(cart)[i] in db.shops)
      && ShopsOf(cart)[|created| - 1] !in db.shops
  {
    var shops, groups := GroupByShop(cart);
    ghost var orders;
    var saved;
    code, created, saved, orders := SaveOrders(db.orders, db.shops, shops, groups, shippingAddress, user, paymentInfo, now);
    db.orders := saved;
  }
}
