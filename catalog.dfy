/** The catalog: the product form's submit handler (edit or create) and
    product deletion. */
module Catalog {
  import opened Wrappers
  import opened Collections
  import opened ShopData

  /** The fields of the product form; the image field arrives trimmed. */
  datatype ProductForm = ProductForm(
    name: string,
    category: string,
    price: real,
    unit: string,
    stock: real,
    image: string)

  /** `{ ...p, name, category, price, unit, stock, image }`: every form field
      overwrites the product's, the id stays. */
  function Edited(p: Product, f: ProductForm): Product {
    p.(name := f.name, category := f.category, price := f.price, unit := f.unit,
       stock := f.stock, image := f.image)
  }

  /** A new product built from the form under the next free id. */
  function Created(products: seq<Product>, f: ProductForm): Product {
    Product(NextId(products, ProductId), f.name, f.category, f.price, f.unit, f.stock, f.image)
  }

  /** The product form's submit handler. With an id in the hidden field,
      the first product with that id is overwritten in place (an id no
      product has changes nothing); without one, a new product is appended
      under `max(ids) + 1`, or 1 in an empty catalog. */
  function SaveProduct(products: seq<Product>, editId: Option<int>, f: ProductForm): (r: seq<Product>)
    ensures editId.Some? ==> |r| == |products| && forall i :: 0 <= i < |r| ==> r[i].id == products[i].id
    ensures editId.Some? && !HasKey(products, ProductId, editId.value) ==> r == products
    ensures editId.None? ==>
      && |r| == |products| + 1
      && r[..|products|] == products
      && r[|products|] == Product(NextId(products, ProductId), f.name, f.category, f.price, f.unit, f.stock, f.image)
      && (forall i :: 0 <= i < |products| ==> products[i].id < r[|products|].id)
    ensures IncreasingKeys(products, ProductId) ==> IncreasingKeys(r, ProductId)
  {
    match editId
    case Some(id) =>
      (match FindIndex(products, ProductId, id)
       case Some(k) => products[k := Edited(products[k], f)]
       case None => products)
    case None =>
      var r := products + [Created(products, f)];
      assert r[..|products|] == products;
      r
  }

  /** Editing an existing product replaces that one entry, in place, with the
      form's fields under the same id, and leaves every other entry as it was. */
  lemma SaveProductEdits(products: seq<Product>, f: ProductForm, k: nat)
    requires UniqueKeys(products, ProductId) && k < |products|
    ensures var r := SaveProduct(products, Some(products[k].id), f);
      && |r| == |products|
      && r[k] == Product(products[k].id, f.name, f.category, f.price, f.unit, f.stock, f.image)
      && forall j :: 0 <= j < |products| && j != k ==> r[j] == products[j]
  {
    FindIndexOfUnique(products, ProductId, k);
  }

  /** Whatever the save, looking the saved id up afterwards finds the
      form's fields: the edited id on an edit of an existing product, the
      fresh id on a create. */
  lemma SaveThenFind(products: seq<Product>, editId: Option<int>, f: ProductForm)
    requires UniqueKeys(products, ProductId)
    requires editId.Some? ==> HasKey(products, ProductId, editId.value)
    ensures var id := if editId.Some? then editId.value else NextId(products, ProductId);
      var r := SaveProduct(products, editId, f);
      match FindIndex(r, ProductId, id)
      case Some(k) =>
        r[k] == Product(id, f.name, f.category, f.price, f.unit, f.stock, f.image)
      case None => false
  {
    var r := SaveProduct(products, editId, f);
    if editId.Some? {
      var k := FindIndex(products, ProductId, editId.value).value;
      SaveProductEdits(products, f, k);
      assert UniqueKeys(r, ProductId);
      FindIndexOfUnique(r, ProductId, k);
    } else {
      FindIndexSnoc(products, Created(products, f), ProductId, NextId(products, ProductId));
    }
  }

  /** Deleting a product right after creating it gives the catalog back. */
  lemma DeleteUndoesCreate(products: seq<Product>, f: ProductForm)
    ensures Without(SaveProduct(products, None, f), ProductId, NextId(products, ProductId)) == products
  {
    var x := Created(products, f);
    WithoutConcat(products, [x], ProductId, x.id);
    WithoutAbsent(products, ProductId, x.id);
    assert Without([x], ProductId, x.id) == [] by {
      assert [x][1..] == [];
    }
  }

  /** A fresh id is only fresh among the products still on file: after the
      product with the largest id is deleted, the next product created is
      given that same id again. */
  lemma DeletedTopIdIsReissued(f: ProductForm)
    ensures var products := [Product(1, "Onion", "vegetables", 45.0, "kg", 50.0, ""),
                             Product(2, "Tomato", "vegetables", 60.0, "kg", 40.0, "")];
      var r := SaveProduct(Without(products, ProductId, 2), None, f);
      |r| == 2 && r[1].id == 2
  {
    var products := [Product(1, "Onion", "vegetables", 45.0, "kg", 50.0, ""),
                     Product(2, "Tomato", "vegetables", 60.0, "kg", 40.0, "")];
    var p1 := products[0];
    assert products == [p1] + [products[1]];
    WithoutConcat([p1], [products[1]], ProductId, 2);
    WithoutAbsent([p1], ProductId, 2);
    assert Without([products[1]], ProductId, 2) == [] by {
      assert [products[1]][1..] == [];
    }
    assert MaxKey([p1], ProductId) == 1;
  }
}
