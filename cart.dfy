/** The cart: reading the quantity field, the quantity buttons, the cart
    total, and adding a product to the cart. */
module Cart {
  import opened Wrappers
  import opened Collections
  import opened ShopData

  /** Why an add was refused: the id is not in the catalog (a silent return
      in the shop), or the requested or merged quantity exceeds the stock. */
  datatype CartError = UnknownProduct | OutOfStock

  /** The smallest quantity the quantity field lets through. */
  const MinQuantity: real := 0.5

  /** `parseFloat(field) || 1`: an unparseable field (`None`, NaN in the
      shop) and a zero both read as 1; any other number is taken as is. */
  function QuantityOrOne(field: Option<real>): (q: real)
    ensures q != 0.0
    ensures field.Some? && field.value != 0.0 ==> q == field.value
    ensures field.None? ==> q == 1.0
    ensures field.Some? && field.value == 0.0 ==> q == 1.0
  {
    if field.Some? && field.value != 0.0 then field.value else 1.0
  }

  /** The value the − and + buttons write back into the quantity field:
      the current value moved by `delta`, never below 0.5. */
  function StepQuantity(field: Option<real>, delta: real): (v: real)
    ensures v >= MinQuantity
    ensures v >= QuantityOrOne(field) + delta
    ensures v == MinQuantity || v == QuantityOrOne(field) + delta
  {
    MaxReal(MinQuantity, QuantityOrOne(field) + delta)
  }

  /** The value written back when the quantity field is edited by hand:
      what was typed, never below 0.5. */
  function ClampQuantity(field: Option<real>): (v: real)
    ensures v >= MinQuantity
    ensures v >= QuantityOrOne(field)
    ensures v == MinQuantity || v == QuantityOrOne(field)
  {
    MaxReal(MinQuantity, QuantityOrOne(field))
  }

  /** `cart.reduce((sum, item) => sum + item.total, 0)`, folding from the left. */
  function CartTotal(lines: seq<CartLine>): (t: real)
    ensures (forall i :: 0 <= i < |lines| ==> lines[i].total >= 0.0) ==> t >= 0.0
  {
    if |lines| == 0 then 0.0
    else CartTotal(lines[..|lines| - 1]) + lines[|lines| - 1].total
  }

  /** The total of two carts put end to end is the sum of their totals. */
  lemma {:induction false} CartTotalConcat(a: seq<CartLine>, b: seq<CartLine>)
    ensures CartTotal(a + b) == CartTotal(a) + CartTotal(b)
  {
    if |b| > 0 {
      assert (a + b)[..|a + b| - 1] == a + b[..|b| - 1];
      CartTotalConcat(a, b[..|b| - 1]);
    } else {
      assert a + b == a;
    }
  }

  /** Dropping line `i` lowers the total by exactly that line's total. */
  lemma CartTotalRemove(lines: seq<CartLine>, i: nat)
    requires i < |lines|
    ensures CartTotal(lines[..i] + lines[i + 1..]) == CartTotal(lines) - lines[i].total
  {
    SplitAt(lines, i);
    CartTotalConcat(lines[..i], [lines[i]] + lines[i + 1..]);
    CartTotalConcat([lines[i]], lines[i + 1..]);
    CartTotalConcat(lines[..i], lines[i + 1..]);
    assert CartTotal([lines[i]]) == lines[i].total by {
      assert [lines[i]][..0] == [];
    }
  }

  /** Replacing line `i` changes the total by the difference of the two line totals. */
  lemma CartTotalReplace(lines: seq<CartLine>, i: nat, l: CartLine)
    requires i < |lines|
    ensures CartTotal(lines[i := l]) == CartTotal(lines) - lines[i].total + l.total
  {
    var t := lines[i := l];
    CartTotalRemove(lines, i);
    CartTotalRemove(t, i);
    assert t[..i] + t[i + 1..] == lines[..i] + lines[i + 1..];
  }

  /** A line's total: quantity times unit price. */
  function LineTotal(quantity: real, price: real): real {
    quantity * price
  }

  /** `addToCart` on the pure state: look the product up, refuse a quantity
      above its stock, then either raise the quantity of the cart line that
      already holds the product (refusing a merged quantity above the
      stock) or append a new line. A merged line is re-totalled with the
      product's current catalog price while its stored price is kept. */
  function TryAdd(products: seq<Product>, cart: seq<CartLine>, productId: int, quantity: real)
    : (r: Result<seq<CartLine>, CartError>)
    ensures r.Failure? && r.error == UnknownProduct <==> !HasKey(products, ProductId, productId)
    ensures r.Success? ==>
      var k := FindIndex(products, ProductId, productId).value;
      var i := FindIndex(r.value, LineProductId, productId);
      i.Some? && r.value[i.value].quantity <= products[k].stock
  {
    match FindIndex(products, ProductId, productId)
    case None => Failure(UnknownProduct)
    case Some(k) =>
      var product := products[k];
      if quantity > product.stock then Failure(OutOfStock)
      else
        match FindIndex(cart, LineProductId, productId)
        case Some(i) =>
          var newQuantity := cart[i].quantity + quantity;
          if newQuantity > product.stock then Failure(OutOfStock)
          else
            var merged := cart[i].(quantity := newQuantity, total := LineTotal(newQuantity, product.price));
            FindIndexAt(cart[i := merged], LineProductId, productId, i);
            Success(cart[i := merged])
        case None =>
          var line := CartLine(productId, product.name, product.price, quantity, product.unit,
                               LineTotal(quantity, product.price));
          FindIndexAt(cart + [line], LineProductId, productId, |cart|);
          Success(cart + [line])
  }

  /** The catalog entry `addToCart` reads: the first product with the id. */
  function ProductFor(products: seq<Product>, productId: int): (p: Product)
    requires HasKey(products, ProductId, productId)
    ensures p in products && p.id == productId
  {
    products[FindIndex(products, ProductId, productId).value]
  }

  /** A product already in the cart: the add succeeds exactly when neither
      the request nor the merged quantity exceeds the stock, and then only
      that line changes — quantities summed, its stored product id, name,
      price and unit kept, total set to the merged quantity times the
      current catalog price. */
  lemma AddMerges(products: seq<Product>, cart: seq<CartLine>, productId: int, quantity: real, i: nat)
    requires HasKey(products, ProductId, productId)
    requires UniqueKeys(cart, LineProductId) && i < |cart| && cart[i].productId == productId
    ensures var p := ProductFor(products, productId);
      var r := TryAdd(products, cart, productId, quantity);
      && (r.Success? <==> quantity <= p.stock && cart[i].quantity + quantity <= p.stock)
      && (r.Success? ==>
            && |r.value| == |cart|
            && r.value[i] == cart[i].(quantity := cart[i].quantity + quantity,
                                      total := LineTotal(cart[i].quantity + quantity, p.price))
            && forall j :: 0 <= j < |cart| && j != i ==> r.value[j] == cart[j])
  {
    FindIndexOfUnique(cart, LineProductId, i);
  }

  /** A product not yet in the cart: the add succeeds exactly when the
      request does not exceed the stock, and then appends one line with the
      catalog's name, price and unit and total quantity × price. */
  lemma AddAppends(products: seq<Product>, cart: seq<CartLine>, productId: int, quantity: real)
    requires HasKey(products, ProductId, productId)
    requires !HasKey(cart, LineProductId, productId)
    ensures TryAdd(products, cart, productId, quantity).Success? <==> quantity <= ProductFor(products, productId).stock
    ensures var p := ProductFor(products, productId);
      TryAdd(products, cart, productId, quantity).Success? ==>
        TryAdd(products, cart, productId, quantity).value
          == cart + [CartLine(productId, p.name, p.price, quantity, p.unit, LineTotal(quantity, p.price))]
  {
  }

  /** A successful add never creates a second line for a product. */
  lemma AddKeepsLinesUnique(products: seq<Product>, cart: seq<CartLine>, productId: int, quantity: real)
    requires UniqueKeys(cart, LineProductId)
    ensures var r := TryAdd(products, cart, productId, quantity);
      r.Success? ==> UniqueKeys(r.value, LineProductId)
  {
  }

  /** Removing the line that a first add appended gives the cart back. */
  lemma AddThenRemove(products: seq<Product>, cart: seq<CartLine>, productId: int, quantity: real)
    requires !HasKey(cart, LineProductId, productId)
    ensures var r := TryAdd(products, cart, productId, quantity);
      r.Success? ==> SpliceOne(r.value, |cart|) == cart
  {
    var r := TryAdd(products, cart, productId, quantity);
    if r.Success? {
      assert r.value[..|cart|] == cart;
    }
  }

  /** A line is consistent when its total is its quantity times its stored price. */
  predicate LineConsistent(l: CartLine) {
    l.total == LineTotal(l.quantity, l.price)
  }

  /** The line total distributes over a sum of quantities. */
  lemma LineTotalAdds(a: real, b: real, price: real)
    ensures LineTotal(a + b, price) == LineTotal(a, price) + LineTotal(b, price)
  {
  }

  /** While the catalog price of the product equals the price stored on its
      line, a successful add keeps every line consistent, and the cart total
      grows by exactly quantity × price. */
  lemma AddKeepsLinesConsistent(products: seq<Product>, cart: seq<CartLine>, productId: int, quantity: real)
    requires UniqueKeys(cart, LineProductId)
    requires forall j :: 0 <= j < |cart| ==> LineConsistent(cart[j])
    requires HasKey(products, ProductId, productId)
    requires forall j :: 0 <= j < |cart| && cart[j].productId == productId ==>
               cart[j].price == ProductFor(products, productId).price
    ensures var r := TryAdd(products, cart, productId, quantity);
      r.Success? ==>
        && (forall j :: 0 <= j < |r.value| ==> LineConsistent(r.value[j]))
        && CartTotal(r.value) == CartTotal(cart) + LineTotal(quantity, ProductFor(products, productId).price)
  {
    var r := TryAdd(products, cart, productId, quantity);
    if r.Success? {
      var f := FindIndex(cart, LineProductId, productId);
      if f.Some? {
        MergeKeepsConsistent(products, cart, productId, quantity, f.value);
      } else {
        AppendKeepsConsistent(products, cart, productId, quantity);
      }
    }
  }

  lemma MergeKeepsConsistent(products: seq<Product>, cart: seq<CartLine>, productId: int, quantity: real, i: nat)
    requires UniqueKeys(cart, LineProductId)
    requires forall j :: 0 <= j < |cart| ==> LineConsistent(cart[j])
    requires HasKey(products, ProductId, productId)
    requires i < |cart| && cart[i].productId == productId
    requires cart[i].price == ProductFor(products, productId).price
    requires TryAdd(products, cart, productId, quantity).Success?
    ensures var r := TryAdd(products, cart, productId, quantity).value;
      && (forall j :: 0 <= j < |r| ==> LineConsistent(r[j]))
      && CartTotal(r) == CartTotal(cart) + LineTotal(quantity, ProductFor(products, productId).price)
  {
    var p := ProductFor(products, productId);
    var r := TryAdd(products, cart, productId, quantity).value;
    AddMerges(products, cart, productId, quantity, i);
    assert r == cart[i := r[i]];
    CartTotalReplace(cart, i, r[i]);
    LineTotalAdds(cart[i].quantity, quantity, p.price);
  }

  lemma AppendKeepsConsistent(products: seq<Product>, cart: seq<CartLine>, productId: int, quantity: real)
    requires forall j :: 0 <= j < |cart| ==> LineConsistent(cart[j])
    requires HasKey(products, ProductId, productId)
    requires !HasKey(cart, LineProductId, productId)
    requires TryAdd(products, cart, productId, quantity).Success?
    ensures var r := TryAdd(products, cart, productId, quantity).value;
      && (forall j :: 0 <= j < |r| ==> LineConsistent(r[j]))
      && CartTotal(r) == CartTotal(cart) + LineTotal(quantity, ProductFor(products, productId).price)
  {
    var p := ProductFor(products, productId);
    var r := TryAdd(products, cart, productId, quantity).value;
    AddAppends(products, cart, productId, quantity);
    var line := r[|cart|];
    CartTotalConcat(cart, [line]);
    assert CartTotal([line]) == line.total by {
      assert [line][..0] == [];
    }
  }

  /** After the catalog price changes, merging into an existing line leaves
      it inconsistent: 3 kg stored at 45, re-added at a catalog price of 50,
      gives 6 kg at a stored 45 with a total of 300 rather than 270. */
  lemma MergeUsesCatalogPrice()
    ensures var products := [Product(1, "Onion", "vegetables", 50.0, "kg", 10.0, "")];
      var cart := [CartLine(1, "Onion", 45.0, 3.0, "kg", 135.0)];
      var r := TryAdd(products, cart, 1, 3.0);
      && r == Success([CartLine(1, "Onion", 45.0, 6.0, "kg", 300.0)])
      && !LineConsistent(r.value[0])
  {
    var products := [Product(1, "Onion", "vegetables", 50.0, "kg", 10.0, "")];
    var cart := [CartLine(1, "Onion", 45.0, 3.0, "kg", 135.0)];
    FindIndexAt(products, ProductId, 1, 0);
    FindIndexAt(cart, LineProductId, 1, 0);
    assert LineTotal(6.0, 50.0) == 300.0;
    assert LineTotal(6.0, 45.0) == 270.0;
    var merged := CartLine(1, "Onion", 45.0, 6.0, "kg", 300.0);
    assert cart[0].(quantity := 6.0, total := LineTotal(6.0, 50.0)) == merged;
    assert cart[0 := merged] == [merged];
  }
}
