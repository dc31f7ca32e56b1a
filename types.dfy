/** Entities of the order service: catalog variants, cart items, orders,
    payments, and the responses the request handlers send back. */
module OrderTypes {

  type UserId = nat
  type ProductId = nat
  type OrderId = nat
  type PaymentId = nat

  datatype Option<+T> = None | Some(value: T) {
    /** The value, or `default` when absent (a JavaScript default parameter). */
    function GetOr(default: T): T {
      match this
      case Some(v) => v
      case None => default
    }
  }

  /** What a handler sends: the body on success, or the kind of failure.
      `Unauthorized` is the marker the track handler sends as a body. */
  datatype Response<+T> = Ok(value: T) | BadRequest(msg: string) | NotFound | Unauthorized

  /** `Order.status`; only NEW and PAYED are used by the handlers, every other
      value of the enumeration is carried by name. */
  datatype OrderStatus = NEW | PAYED | Other(name: string) {
    function Name(): string {
      match this
      case NEW => "NEW"
      case PAYED => "PAYED"
      case Other(n) => n
    }

    /** A status that `ParseStatus` can produce: `Other` never spells NEW or PAYED. */
    predicate WellFormed() {
      Other? ==> name != "NEW" && name != "PAYED"
    }
  }

  /** A status string from a request body or path, as stored in an order. */
  function ParseStatus(s: string): (st: OrderStatus)
    ensures st.WellFormed()
    ensures st.Name() == s
  {
    if s == "NEW" then NEW else if s == "PAYED" then PAYED else Other(s)
  }

  /** Two status strings select the same stored status exactly when they are equal,
      so comparing parsed statuses is comparing the strings the database compares. */
  lemma ParseStatusInjective(a: string, b: string)
    ensures ParseStatus(a) == ParseStatus(b) <==> a == b
  {
  }

  /** Every well-formed status is read back from its own name. */
  lemma ParseStatusName(st: OrderStatus)
    requires st.WellFormed()
    ensures ParseStatus(st.Name()) == st
  {
  }

  /** One (size, price) entry of a product's `quantities`. Prices are integers
      (cents) compared exactly. */
  datatype Variant = Variant(size: string, price: int)

  /** The read-only food catalog: product id to its variants, in stored order. */
  type Catalog = map<ProductId, seq<Variant>>

  /** A cart line. `product` is None when the request carries no product reference. */
  datatype Item = Item(product: Option<ProductId>, size: string, price: int, quantity: int)

  datatype Order = Order(
    user: UserId,
    items: seq<Item>,
    status: OrderStatus,
    totalPrice: int,
    paymentId: Option<string>,
    createdAt: int)

  datatype Payment = Payment(
    order: OrderId,
    user: UserId,
    paymentId: Option<string>,
    payMethod: string,
    amount: int,
    status: string)

  /** A stored order together with its id, as a query returns it. */
  datatype Entry = Entry(id: OrderId, order: Order)

  const CompletedStatus := "COMPLETED"
  const DefaultPaymentMethod := "PayPal"

  const CartIsEmptyMsg := "Cart Is Empty!"
  const InvalidProductMsg := "Invalid product in cart!"
  const InvalidSizeMsg := "Invalid size for product!"
  const PriceMismatchMsg := "Price mismatch!"
  const NoValidProductsMsg := "No valid products in cart!"
  const OrderNotFoundMsg := "Order Not Found!"
  const OrderDeletedMsg := "Order deleted successfully"
}
