/** The records the shop keeps in its four arrays, and the functions that
    read their ids. Prices, quantities and stock are exact reals. */
module ShopData {
  import opened Wrappers
  import opened Collections

  /** A catalog entry. */
  datatype Product = Product(
    id: int,
    name: string,
    category: string,
    price: real,
    unit: string,
    stock: real,
    image: string)

  /** One cart line: the product's id, snapshots of its name, price and unit
      taken when the line was created, the quantity and the line total. */
  datatype CartLine = CartLine(
    productId: int,
    name: string,
    price: real,
    quantity: real,
    unit: string,
    total: real)

  /** A registered customer and the ids of the orders placed for them. */
  datatype User = User(id: int, name: string, phone: string, orders: seq<int>)

  /** The four payment buttons of the checkout dialog. */
  datatype PaymentMethod = Cash | Card | Qr | QrScan

  /** A committed order. `customerId` is the selection made at checkout
      (`None` for the walk-in entry); name and phone are copies. */
  datatype Order = Order(
    id: int,
    customerId: Option<int>,
    customerName: string,
    customerPhone: string,
    items: seq<CartLine>,
    total: real,
    paymentMethod: PaymentMethod,
    date: string,
    timestamp: int)

  function ProductId(p: Product): int { p.id }
  function LineProductId(l: CartLine): int { l.productId }
  function UserId(u: User): int { u.id }
  function OrderId(o: Order): int { o.id }

  /** `Math.max(a, b)` on exact numbers. */
  function MaxReal(a: real, b: real): real {
    if a >= b then a else b
  }

  /** Every id in a customer's order history names an order in the ledger. */
  predicate HistoriesKnown(users: seq<User>, orders: seq<Order>) {
    forall u, k :: u in users && k in u.orders ==> HasKey(orders, OrderId, k)
  }
}
