/** The shop's state as the page keeps it — catalog, cart, customers and
    order ledger, the selected payment method and whether the checkout
    dialog is showing — and the handlers that change it in place. */
module ShopState {
  import opened Wrappers
  import opened Collections
  import opened ShopData
  import opened Cart
  import opened Catalog
  import opened Customers
  import opened Checkout

  class Shop {
    var products: seq<Product>
    var cart: seq<CartLine>
    var users: seq<User>
    var orders: seq<Order>
    var paymentMethod: PaymentMethod
    var checkoutOpen: bool

    /** The shop invariant over the four collections. */
    ghost predicate Valid()
      reads this
    {
      ShopInvariant(products, cart, users, orders)
    }

    /** A shop with nothing stored yet. */
    constructor ()
      ensures Valid()
      ensures products == [] && cart == [] && users == [] && orders == []
      ensures paymentMethod == Cash && !checkoutOpen
    {
      products, cart, users, orders := [], [], [], [];
      paymentMethod, checkoutOpen := Cash, false;
    }

    /** `addToCart`: `field` is the product's quantity field as parsed. A
        refused add leaves the cart as it was. */
    method AddToCart(productId: int, field: Option<real>) returns (err: Option<CartError>)
      requires Valid()
      modifies this`cart
      ensures Valid()
      ensures var r := TryAdd(old(products), old(cart), productId, QuantityOrOne(field));
        && (r.Failure? ==> err == Some(r.error) && cart == old(cart))
        && (r.Success? ==> err.None? && cart == r.value)
    {
      var quantity := QuantityOrOne(field);
      var found := FindIndex(products, ProductId, productId);
      if found.None? {
        return Some(UnknownProduct);
      }
      var product := products[found.value];
      if quantity > product.stock {
        return Some(OutOfStock);
      }
      var existing := FindIndex(cart, LineProductId, productId);
      if existing.Some? {
        var i := existing.value;
        var newQuantity := cart[i].quantity + quantity;
        if newQuantity > product.stock {
          return Some(OutOfStock);
        }
        cart := cart[i := cart[i].(quantity := newQuantity, total := LineTotal(newQuantity, product.price))];
      } else {
        cart := cart + [CartLine(productId, product.name, product.price, quantity, product.unit,
                                 LineTotal(quantity, product.price))];
      }
      AddKeepsLinesUnique(old(products), old(cart), productId, quantity);
      err := None;
    }

    /** `removeFromCart`: `cart.splice(index, 1)`. For an index inside the
        cart, exactly that line goes and the total drops by its total. */
    method RemoveFromCart(index: int)
      requires Valid()
      modifies this`cart
      ensures Valid()
      ensures cart == SpliceOne(old(cart), index)
      ensures 0 <= index < |old(cart)| ==> CartTotal(cart) == CartTotal(old(cart)) - old(cart)[index].total
    {
      var start := SpliceStart(|cart|, index);
      if start < |cart| {
        cart := cart[..start] + cart[start + 1..];
      }
      SpliceOneUnique(old(cart), LineProductId, index);
      if 0 <= index < |old(cart)| {
        CartTotalRemove(old(cart), index);
      }
    }

    /** The product form's submit handler. */
    method SubmitProductForm(editId: Option<int>, f: ProductForm)
      requires Valid()
      modifies this`products
      ensures Valid()
      ensures products == SaveProduct(old(products), editId, f)
    {
      if editId.Some? {
        var index := FindIndex(products, ProductId, editId.value);
        if index.Some? {
          products := products[index.value := Edited(products[index.value], f)];
        }
      } else {
        var newId := if |products| > 0 then MaxKey(products, ProductId) + 1 else 1;
        products := products + [Product(newId, f.name, f.category, f.price, f.unit, f.stock, f.image)];
      }
    }

    /** `deleteProduct`: once confirmed, every product with the id goes. */
    method DeleteProduct(id: int, confirmed: bool)
      requires Valid()
      modifies this`products
      ensures Valid()
      ensures products == if confirmed then Without(old(products), ProductId, id) else old(products)
    {
      if confirmed {
        products := Without(products, ProductId, id);
        WithoutIncreasing(old(products), ProductId, id);
      }
    }

    /** The user form's submit handler; a create with a phone on file is
        refused and changes nothing. */
    method SubmitUserForm(editId: Option<int>, f: UserForm) returns (err: Option<UserError>)
      requires Valid()
      modifies this`users
      ensures Valid()
      ensures var r := SaveUser(old(users), editId, f);
        && (r.Failure? ==> err == Some(DuplicatePhone) && users == old(users))
        && (r.Success? ==> err.None? && users == r.value)
    {
      if editId.Some? {
        var index := FindIndex(users, UserId, editId.value);
        if index.Some? {
          users := users[index.value := users[index.value].(name := f.name, phone := f.phone)];
        }
      } else {
        if PhoneTaken(users, f.phone) {
          return Some(DuplicatePhone);
        }
        var newId := if |users| > 0 then MaxKey(users, UserId) + 1 else 1;
        users := users + [User(newId, f.name, f.phone, [])];
      }
      SaveUserIncreasing(old(users), editId, f);
      SaveUserKeepsHistories(old(users), orders, editId, f);
      err := None;
    }

    /** `deleteUser`: once confirmed, every customer with the id goes; orders
        keep their copies of name and phone. */
    method DeleteUser(id: int, confirmed: bool)
      requires Valid()
      modifies this`users
      ensures Valid()
      ensures users == if confirmed then Without(old(users), UserId, id) else old(users)
    {
      if confirmed {
        users := Without(users, UserId, id);
        WithoutIncreasing(old(users), UserId, id);
        DeleteKeepsHistories(old(users), orders, id);
      }
    }

    /** `openCheckout`: an empty cart is refused and nothing changes;
        otherwise the dialog shows. */
    method OpenCheckout() returns (err: Option<CheckoutError>)
      requires Valid()
      modifies this`checkoutOpen
      ensures Valid()
      ensures err == CheckoutGuard(cart)
      ensures checkoutOpen == if err.None? then true else old(checkoutOpen)
    {
      if |cart| == 0 {
        return Some(EmptyCart);
      }
      checkoutOpen := true;
      err := None;
    }

    /** The state part of `selectPayment`. */
    method SelectPayment(m: PaymentMethod)
      requires Valid()
      modifies this`paymentMethod
      ensures Valid()
      ensures paymentMethod == m
    {
      paymentMethod := m;
    }

    /** The state part of `closeCheckout`: the dialog closes and the payment
        method goes back to cash; the cart survives. */
    method CloseCheckout()
      requires Valid()
      modifies this`checkoutOpen, this`paymentMethod
      ensures Valid()
      ensures !checkoutOpen && paymentMethod == Cash
    {
      checkoutOpen := false;
      paymentMethod := Cash;
    }

    /** `processPayment`: `selected` is the customer selection (`None` for
        walk-in), `date` and `timestamp` the clock readings. Appends one
        order holding the cart and its total, pushes its id on the selected
        customer's history, lowers the stock of every product in the cart
        (never below 0), empties the cart and closes the dialog. */
    method ProcessPayment(selected: Option<int>, date: string, timestamp: int) returns (order: Order)
      requires Valid()
      modifies this
      ensures Valid()
      ensures order == NewOrder(old(orders), old(users), old(cart), selected, old(paymentMethod), date, timestamp)
      ensures orders == old(orders) + [order]
      ensures users == RecordOrder(old(users), selected, order.id)
      ensures products == ApplyStock(old(products), old(cart))
      ensures forall k :: 0 <= k < |products| ==> products[k].stock == StockAfter(old(products)[k], old(cart))
      ensures cart == [] && !checkoutOpen && paymentMethod == Cash
    {
      ghost var products0, cart0, users0, orders0 := products, cart, users, orders;
      CheckoutKeepsInvariant(products0, cart0, users0, orders0, selected, paymentMethod, date, timestamp);
      IncreasingKeysAreUnique(products0, ProductId);
      ApplyStockPerProduct(products0, cart0);

      order := NewOrder(orders, users, cart, selected, paymentMethod, date, timestamp);
      orders := orders + [order];

      RecordInHistory(selected, order.id);
      DecrementStock();

      cart := [];
      checkoutOpen := false;
      paymentMethod := Cash;
      assert ShopInvariant(ApplyStock(products0, cart0), [], RecordOrder(users0, selected, order.id), orders0 + [order]);
    }

    /** `processPayment`'s history update: the customer found for the
        selection gets the order id pushed on their history. */
    method RecordInHistory(selected: Option<int>, orderId: int)
      modifies this`users
      ensures users == RecordOrder(old(users), selected, orderId)
    {
      var customer := if selected.Some? then FindIndex(users, UserId, selected.value) else None;
      if customer.Some? {
        var k := customer.value;
        users := users[k := users[k].(orders := users[k].orders + [orderId])];
      }
    }

    /** The stock loop of `processPayment`: for each cart line in order, the
        first product with its id loses the line's quantity, floored at 0. */
    method DecrementStock()
      modifies this`products
      ensures products == ApplyStock(old(products), cart)
      ensures old(Valid()) ==> Valid()
    {
      var i := 0;
      while i < |cart|
        invariant 0 <= i <= |cart|
        invariant products == ApplyStock(old(products), cart[..i])
      {
        var line := cart[i];
        var found := FindIndex(products, ProductId, line.productId);
        if found.Some? {
          var k := found.value;
          products := products[k := products[k].(stock := ReducedStock(products[k].stock, line.quantity))];
        }
        assert cart[..i + 1][..i] == cart[..i];
        i := i + 1;
      }
      assert cart[..i] == cart;
      if old(Valid()) {
        ApplyStockIncreasing(old(products), cart);
      }
    }
  }

  /** The first half of the end-to-end run: product 1 at 45 with 10 in
      stock, added twice with quantity 3. */
  method OnionCart() returns (shop: Shop)
    ensures fresh(shop) && shop.Valid()
    ensures shop.products == [Product(1, "Onion", "vegetables", 45.0, "kg", 10.0, "")]
    ensures shop.cart == [CartLine(1, "Onion", 45.0, 6.0, "kg", 270.0)]
    ensures shop.users == [] && shop.orders == []
  {
    shop := new Shop();
    shop.SubmitProductForm(None, ProductForm("Onion", "vegetables", 45.0, "kg", 10.0, ""));
    assert shop.products == [Product(1, "Onion", "vegetables", 45.0, "kg", 10.0, "")];
    FindIndexAt(shop.products, ProductId, 1, 0);

    var err := shop.AddToCart(1, Some(3.0));
    assert err.None?;
    assert shop.cart == [CartLine(1, "Onion", 45.0, 3.0, "kg", 135.0)];

    FindIndexAt(shop.cart, LineProductId, 1, 0);
    err := shop.AddToCart(1, Some(3.0));
    assert err.None?;
  }

  /** The end-to-end run: the cart of `OnionCart`, paid by a walk-in customer. */
  method CheckoutScenario() {
    var shop := OnionCart();
    var refused := shop.OpenCheckout();
    assert refused.None? && shop.checkoutOpen;

    var line := CartLine(1, "Onion", 45.0, 6.0, "kg", 270.0);
    assert CartTotal([line]) == 270.0 by {
      assert [line][..0] == [];
    }
    FindIndexAt(shop.cart, LineProductId, 1, 0);
    var order := shop.ProcessPayment(None, "2024-01-01T00:00:00.000Z", 0);
    assert order.id == 1 && order.total == 270.0 && order.customerName == WalkInName;
    assert shop.products[0].stock == 4.0;
    assert shop.cart == [] && |shop.orders| == 1;
  }
}
