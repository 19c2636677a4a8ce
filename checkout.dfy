/** The checkout commit (`processPayment`) on pure state: the order record,
    the customer's history, and the stock update over the cart lines. */
module Checkout {
  import opened Wrappers
  import opened Collections
  import opened ShopData
  import opened Cart

  /** The name recorded when no customer is selected. */
  const WalkInName: string := "Walk-in Customer"

  /** Why checkout would not open. */
  datatype CheckoutError = EmptyCart

  /** `openCheckout`'s guard: an empty cart is refused. */
  function CheckoutGuard(cart: seq<CartLine>): (r: Option<CheckoutError>)
    ensures r.Some? <==> |cart| == 0
  {
    if |cart| == 0 then Some(EmptyCart) else None
  }

  /** Every order's total is the total of its lines. */
  predicate OrdersBalanced(orders: seq<Order>) {
    forall o :: o in orders ==> o.total == CartTotal(o.items)
  }

  /** The customer a checkout selection names: the first with that id, none
      for the walk-in entry or an id nobody has. */
  function SelectedCustomer(users: seq<User>, selected: Option<int>): (r: Option<User>)
    ensures r.Some? ==> selected.Some? && r.value in users && r.value.id == selected.value
    ensures r.None? ==> selected.None? || !HasKey(users, UserId, selected.value)
  {
    if selected.None? then None
    else match FindIndex(users, UserId, selected.value)
      case Some(k) => Some(users[k])
      case None => None
  }

  /** The order committed at checkout: the next order id, the selection, the
      selected customer's name and phone (or the walk-in name and no phone),
      a copy of the cart and its total. */
  function NewOrder(orders: seq<Order>, users: seq<User>, cart: seq<CartLine>, selected: Option<int>,
                    payment: PaymentMethod, date: string, timestamp: int): (o: Order)
    ensures o.id == NextId(orders, OrderId)
    ensures forall i :: 0 <= i < |orders| ==> orders[i].id < o.id
    ensures |orders| == 0 ==> o.id == 1
    ensures o.items == cart && o.total == CartTotal(cart)
    ensures o.customerId == selected && o.paymentMethod == payment
    ensures o.date == date && o.timestamp == timestamp
    ensures SelectedCustomer(users, selected).None? ==> o.customerName == WalkInName && o.customerPhone == ""
    ensures SelectedCustomer(users, selected).Some? ==>
      var c := SelectedCustomer(users, selected).value;
      o.customerName == c.name && o.customerPhone == c.phone
  {
    var customer := SelectedCustomer(users, selected);
    Order(NextId(orders, OrderId), selected,
          if customer.Some? then customer.value.name else WalkInName,
          if customer.Some? then customer.value.phone else "",
          cart, CartTotal(cart), payment, date, timestamp)
  }

  /** The selected customer's history with the new order id pushed on it. */
  function RecordOrder(users: seq<User>, selected: Option<int>, orderId: int): (r: seq<User>)
    ensures |r| == |users|
    ensures forall i :: 0 <= i < |users| ==> r[i].id == users[i].id
  {
    if selected.None? then users
    else match FindIndex(users, UserId, selected.value)
      case Some(k) => users[k := users[k].(orders := users[k].orders + [orderId])]
      case None => users
  }

  /** With a customer selected, exactly that customer's history gains the
      order id, at its end; nothing else changes. */
  lemma RecordOrderAppends(users: seq<User>, orderId: int, k: nat)
    requires UniqueKeys(users, UserId) && k < |users|
    ensures var r := RecordOrder(users, Some(users[k].id), orderId);
      && r[k] == users[k].(orders := users[k].orders + [orderId])
      && forall j :: 0 <= j < |users| && j != k ==> r[j] == users[j]
  {
    FindIndexOfUnique(users, UserId, k);
  }

  /** For the walk-in entry, or an id nobody has, no history changes. */
  lemma RecordOrderWalkIn(users: seq<User>, selected: Option<int>, orderId: int)
    requires SelectedCustomer(users, selected).None?
    ensures RecordOrder(users, selected, orderId) == users
  {
  }

  /** Recording a new order keeps every history pointing at an order of the
      ledger that now also holds the new order. */
  lemma RecordOrderKeepsHistories(users: seq<User>, orders: seq<Order>, selected: Option<int>, o: Order)
    requires HistoriesKnown(users, orders)
    ensures HistoriesKnown(RecordOrder(users, selected, o.id), orders + [o])
  {
    var r := RecordOrder(users, selected, o.id);
    var all := orders + [o];
    assert HasKey(all, OrderId, o.id) by {
      assert all[|orders|] == o;
    }
    forall u, k | u in r && k in u.orders ensures HasKey(all, OrderId, k) {
      var i :| 0 <= i < |r| && r[i] == u;
      if k == o.id {
      } else {
        assert k in users[i].orders;
        assert users[i] in users;
        assert HasKey(orders, OrderId, k);
        var j :| 0 <= j < |orders| && OrderId(orders[j]) == k;
        assert all[j] == orders[j];
      }
    }
  }

  /** `Math.max(0, stock - quantity)`. */
  function ReducedStock(stock: real, quantity: real): (s: real)
    ensures s >= 0.0
    ensures s >= stock - quantity
    ensures s == 0.0 || s == stock - quantity
  {
    MaxReal(0.0, stock - quantity)
  }

  /** One step of the stock loop: the first product with the line's id
      loses the line's quantity, floored at 0; a line whose product is gone
      changes nothing. */
  function Decrement(products: seq<Product>, line: CartLine): (r: seq<Product>)
    ensures |r| == |products|
    ensures forall i :: 0 <= i < |products| ==> r[i] == products[i].(stock := r[i].stock)
  {
    match FindIndex(products, ProductId, line.productId)
    case Some(k) => products[k := products[k].(stock := ReducedStock(products[k].stock, line.quantity))]
    case None => products
  }

  /** The stock loop over the lines in cart order. */
  function ApplyStock(products: seq<Product>, lines: seq<CartLine>): (r: seq<Product>)
    ensures |r| == |products|
    ensures forall i :: 0 <= i < |products| ==> r[i] == products[i].(stock := r[i].stock)
  {
    if |lines| == 0 then products
    else Decrement(ApplyStock(products, lines[..|lines| - 1]), lines[|lines| - 1])
  }

  /** The stock a product should have after checkout: lowered by the
      quantity of the cart line holding it, floored at 0, or unchanged when
      no line holds it. */
  function StockAfter(p: Product, lines: seq<CartLine>): (s: real)
    ensures p.stock >= 0.0 ==> s >= 0.0
    ensures !HasKey(lines, LineProductId, p.id) ==> s == p.stock
  {
    match FindIndex(lines, LineProductId, p.id)
    case Some(j) => ReducedStock(p.stock, lines[j].quantity)
    case None => p.stock
  }

  /** With unique product ids and one line per product, the stock loop sets
      every product's stock to `StockAfter`: each product in the cart loses
      its line's quantity, floored at 0, and every other product keeps its
      stock. */
  lemma {:induction false} ApplyStockPerProduct(products: seq<Product>, lines: seq<CartLine>)
    requires UniqueKeys(products, ProductId)
    requires UniqueKeys(lines, LineProductId)
    ensures var r := ApplyStock(products, lines);
      forall k :: 0 <= k < |products| ==> r[k].stock == StockAfter(products[k], lines)
  {
    if |lines| > 0 {
      var n := |lines| - 1;
      var prefix, last := lines[..n], lines[n];
      assert lines == prefix + [last];
      assert UniqueKeys(prefix, LineProductId);
      ApplyStockPerProduct(products, prefix);
      var mid := ApplyStock(products, prefix);
      assert UniqueKeys(mid, ProductId) by {
        forall i, j | 0 <= i < j < |mid| ensures mid[i].id != mid[j].id {
          assert mid[i].id == products[i].id && mid[j].id == products[j].id;
        }
      }
      var r := ApplyStock(products, lines);
      forall k | 0 <= k < |products| ensures r[k].stock == StockAfter(products[k], lines) {
        var id := products[k].id;
        assert mid[k].id == id;
        FindIndexSnoc(prefix, last, LineProductId, id);
        if last.productId == id {
          FindIndexOfUnique(mid, ProductId, k);
          assert !HasKey(prefix, LineProductId, id) by {
            forall j | 0 <= j < n ensures prefix[j].productId != id {
              assert prefix[j] == lines[j];
            }
          }
        } else {
          match FindIndex(mid, ProductId, last.productId)
          case None =>
          case Some(k') =>
            assert k' != k;
        }
      }
    }
  }

  /** Stock that was never negative stays so. */
  lemma ApplyStockNonNegative(products: seq<Product>, lines: seq<CartLine>)
    requires UniqueKeys(products, ProductId)
    requires UniqueKeys(lines, LineProductId)
    requires forall k :: 0 <= k < |products| ==> products[k].stock >= 0.0
    ensures var r := ApplyStock(products, lines);
      forall k :: 0 <= k < |r| ==> r[k].stock >= 0.0
  {
    ApplyStockPerProduct(products, lines);
  }

  /** The stock loop keeps product ids increasing: it touches stock only. */
  lemma ApplyStockIncreasing(products: seq<Product>, lines: seq<CartLine>)
    requires IncreasingKeys(products, ProductId)
    ensures IncreasingKeys(ApplyStock(products, lines), ProductId)
  {
    var ps := ApplyStock(products, lines);
    forall a, b | 0 <= a < b < |ps| ensures ps[a].id < ps[b].id {
      assert ps[a].id == products[a].id && ps[b].id == products[b].id;
    }
  }

  /** What every handler of the shop keeps: ids issued in increasing order,
      one cart line per product, every order's total the total of its
      lines, every history entry naming an order. */
  predicate ShopInvariant(products: seq<Product>, cart: seq<CartLine>, users: seq<User>, orders: seq<Order>) {
    && IncreasingKeys(products, ProductId)
    && UniqueKeys(cart, LineProductId)
    && IncreasingKeys(users, UserId)
    && IncreasingKeys(orders, OrderId)
    && OrdersBalanced(orders)
    && HistoriesKnown(users, orders)
  }

  /** The checkout commit keeps the shop invariant. */
  lemma CheckoutKeepsInvariant(products: seq<Product>, cart: seq<CartLine>, users: seq<User>, orders: seq<Order>,
                               selected: Option<int>, payment: PaymentMethod, date: string, timestamp: int)
    requires ShopInvariant(products, cart, users, orders)
    ensures var o := NewOrder(orders, users, cart, selected, payment, date, timestamp);
      ShopInvariant(ApplyStock(products, cart), [], RecordOrder(users, selected, o.id), orders + [o])
  {
    var o := NewOrder(orders, users, cart, selected, payment, date, timestamp);
    ApplyStockIncreasing(products, cart);
    AppendNextIdIncreasing(orders, OrderId, o);
    RecordOrderKeepsHistories(users, orders, selected, o);
    var us := RecordOrder(users, selected, o.id);
    assert IncreasingKeys(us, UserId) by {
      forall a, b | 0 <= a < b < |us| ensures us[a].id < us[b].id {
        assert us[a].id == users[a].id && us[b].id == users[b].id;
      }
    }
  }
}
