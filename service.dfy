/** The order service: the handlers of the order router that change the order
    and payment stores, over one read-only catalog. Requests are handled one at
    a time; the caller's id and admin flag come from the authentication layer. */
module OrderRouter {
  import opened OrderTypes
  import opened CartValidation
  import opened OrderQueries

  /** The body of `POST /create`. Every body field is spread into the new
      order, so a status or payment id sent by the client is kept. */
  datatype CreateRequest = CreateRequest(
    items: seq<Item>,
    totalPrice: int,
    status: Option<string>,
    paymentId: Option<string>)

  /** The body of `PUT /pay`; `payMethod` is the body's `method` field. */
  datatype PayRequest = PayRequest(
    paymentId: Option<string>,
    payMethod: Option<string>,
    status: Option<string>)

  /** What `/pay` sends back: the order id, the new payment's id and its status. */
  datatype PayReceipt = PayReceipt(orderId: OrderId, paymentDocId: PaymentId, paymentStatus: string)

  /** The status `/pay` records: the body's, or COMPLETED when absent. */
  function PayStatus(req: PayRequest): (s: string)
    ensures req.status.None? ==> s == CompletedStatus
    ensures req.status.Some? ==> s == req.status.value
  {
    req.status.GetOr(CompletedStatus)
  }

  /** The order `/create` persists for an accepted cart: owned by the caller,
      priced with the client's total, NEW unless the body names a status. */
  function NewOrder(caller: UserId, req: CreateRequest, now: int): (o: Order)
    ensures o.user == caller && o.items == req.items && o.totalPrice == req.totalPrice
    ensures o.status == (if req.status.Some? then ParseStatus(req.status.value) else NEW)
    ensures o.status.WellFormed()
    ensures o.paymentId == req.paymentId && o.createdAt == now
  {
    Order(caller, req.items, if req.status.Some? then ParseStatus(req.status.value) else NEW,
          req.totalPrice, req.paymentId, now)
  }

  /** The payment `/pay` records against `oid`, owned by `caller`. */
  function NewPayment(oid: OrderId, order: Order, caller: UserId, req: PayRequest): (p: Payment)
    ensures p.order == oid && p.user == caller && p.amount == order.totalPrice
    ensures p.paymentId == req.paymentId && p.status == PayStatus(req)
    ensures p.payMethod == (if req.payMethod.Some? then req.payMethod.value else DefaultPaymentMethod)
  {
    Payment(oid, caller, req.paymentId, req.payMethod.GetOr(DefaultPaymentMethod), order.totalPrice, PayStatus(req))
  }

  /** An order marked paid: status PAYED and the payment id recorded; every
      other field as it was. */
  function MarkPaid(o: Order, paymentId: Option<string>): (p: Order)
    ensures p.status == PAYED && p.paymentId == paymentId
    ensures p.(status := o.status, paymentId := o.paymentId) == o
  {
    o.(status := PAYED, paymentId := paymentId)
  }

  /** `id` is the caller's NEW order created last. */
  ghost predicate IsLatestOpenOrder(orders: map<OrderId, Order>, caller: UserId, id: OrderId) {
    && id in orders && IsOpenOrderOf(orders[id], caller)
    && forall k :: k in orders && IsOpenOrderOf(orders[k], caller) ==> orders[k].createdAt <= orders[id].createdAt
  }

  /** The effect on the orders of an admin setting payment `p`'s status: the
      linked order becomes PAYED, with the payment's id, when the status is
      COMPLETED and the order exists and is not PAYED yet. */
  function Reconcile(orders: map<OrderId, Order>, p: Payment): (r: map<OrderId, Order>)
    ensures r.Keys == orders.Keys
    ensures forall id :: id in orders && id != p.order ==> r[id] == orders[id]
    ensures p.status != CompletedStatus ==> r == orders
    ensures p.order in orders && orders[p.order].status == PAYED ==> r == orders
    ensures p.order in orders && p.status == CompletedStatus ==> r[p.order].status == PAYED
    ensures p.order in orders && p.status == CompletedStatus && orders[p.order].status != PAYED ==>
              r[p.order] == MarkPaid(orders[p.order], p.paymentId)
  {
    if p.status == CompletedStatus && p.order in orders && orders[p.order].status != PAYED
    then orders[p.order := MarkPaid(orders[p.order], p.paymentId)]
    else orders
  }

  /** Setting the same payment status twice leaves the orders as the first time. */
  lemma ReconcileIdempotent(orders: map<OrderId, Order>, p: Payment)
    ensures Reconcile(Reconcile(orders, p), p) == Reconcile(orders, p)
  {
  }

  /** Marking an order paid removes exactly that order from every user's open
      orders, so a later `/pay` never targets it again. */
  lemma MarkPaidClosesOrder(orders: map<OrderId, Order>, oid: OrderId, paymentId: Option<string>, caller: UserId)
    requires oid in orders
    ensures forall k :: k in orders ==>
              (IsOpenOrderOf(orders[oid := MarkPaid(orders[oid], paymentId)][k], caller) <==>
               k != oid && IsOpenOrderOf(orders[k], caller))
    ensures !IsLatestOpenOrder(orders[oid := MarkPaid(orders[oid], paymentId)], caller, oid)
  {
  }

  /** Marking one of the caller's unpaid orders paid raises the caller's
      purchase count by exactly one: a completed `/pay` (or admin completion)
      shows up in `/user-purchase-count`. */
  lemma {:induction false} MarkPaidCountsAsPurchase(orders: map<OrderId, Order>, oid: OrderId, paymentId: Option<string>)
    requires oid in orders && orders[oid].status != PAYED
    ensures var owner := orders[oid].user;
            var after := orders[oid := MarkPaid(orders[oid], paymentId)];
            |MatchingIds(after, PurchaseFilter(owner), after.Keys)|
              == |MatchingIds(orders, PurchaseFilter(owner), orders.Keys)| + 1
  {
    var owner := orders[oid].user;
    var after := orders[oid := MarkPaid(orders[oid], paymentId)];
    var before := MatchingIds(orders, PurchaseFilter(owner), orders.Keys);
    assert oid !in before;
    assert MatchingIds(after, PurchaseFilter(owner), after.Keys) == before + {oid};
  }

  class OrderService {
    const catalog: Catalog
    var orders: map<OrderId, Order>
    var payments: map<PaymentId, Payment>
    var nextOrderId: OrderId
    var nextPaymentId: PaymentId
    /** The receipts handed to the mail helper, oldest first. */
    ghost var receipts: seq<Order>

    /** Store ids are below the next id to hand out; stored statuses are well formed. */
    ghost predicate Valid()
      reads this
    {
      && (forall id :: id in orders ==> id < nextOrderId && orders[id].status.WellFormed())
      && (forall id :: id in payments ==> id < nextPaymentId)
    }

    constructor (catalog: Catalog)
      ensures Valid()
      ensures this.catalog == catalog && orders == map[] && payments == map[] && receipts == []
    {
      this.catalog := catalog;
      orders := map[];
      payments := map[];
      nextOrderId := 0;
      nextPaymentId := 0;
      receipts := [];
    }

    /** `POST /create`: validates the cart item by item, stopping at the first
        failure, and persists a new order only when every item passes. */
    method Create(caller: UserId, req: CreateRequest, now: int) returns (r: Response<Entry>)
      requires Valid()
      modifies this`orders, this`nextOrderId
      ensures Valid()
      ensures r.Ok? || r.BadRequest?
      ensures r.BadRequest? <==> CheckCart(catalog, req.items).Some?
      ensures r.BadRequest? ==> CheckCart(catalog, req.items) == Some(r.msg) && orders == old(orders)
      ensures r.Ok? ==> && r.value.id !in old(orders)
                        && r.value.order == NewOrder(caller, req, now)
                        && orders == old(orders)[r.value.id := r.value.order]
    {
      if |req.items| <= 0 {
        return BadRequest(CartIsEmptyMsg);
      }
      var i := 0;
      while i < |req.items|
        invariant 0 <= i <= |req.items|
        invariant FirstViolation(catalog, req.items) == FirstViolation(catalog, req.items[i..])
      {
        var item := req.items[i];
        if item.product.None? || item.product.value !in catalog {
          return BadRequest(InvalidProductMsg);
        }
        var quantity := FindVariant(catalog[item.product.value], item.size);
        if quantity.None? {
          return BadRequest(InvalidSizeMsg);
        }
        if quantity.value.price != item.price {
          return BadRequest(PriceMismatchMsg);
        }
        assert req.items[i..][1..] == req.items[i + 1..];
        i := i + 1;
      }
      var kept := WithProduct(req.items);
      if |kept| == 0 {
        return BadRequest(NoValidProductsMsg);
      }
      var order := NewOrder(caller, req, now).(items := kept);
      var id := nextOrderId;
      orders := orders[id := order];
      nextOrderId := nextOrderId + 1;
      r := Ok(Entry(id, order));
    }

    /** `PUT /pay`: records a payment against the caller's latest NEW order,
        and marks that order paid (sending a receipt) only when the payment's
        status is COMPLETED. */
    method Pay(caller: UserId, req: PayRequest) returns (r: Response<PayReceipt>)
      requires Valid()
      modifies this`orders, this`payments, this`nextPaymentId, this`receipts
      ensures Valid()
      ensures r.Ok? || r == BadRequest(OrderNotFoundMsg)
      ensures r.BadRequest? <==> forall id :: id in old(orders) ==> !IsOpenOrderOf(old(orders)[id], caller)
      ensures r.BadRequest? ==> orders == old(orders) && payments == old(payments) && receipts == old(receipts)
      ensures r.Ok? ==>
                var oid := r.value.orderId;
                && IsLatestOpenOrder(old(orders), caller, oid)
                && r.value.paymentStatus == PayStatus(req)
                && r.value.paymentDocId !in old(payments)
                && payments == old(payments)[r.value.paymentDocId := NewPayment(oid, old(orders)[oid], caller, req)]
                && (PayStatus(req) == CompletedStatus ==>
                      && orders == old(orders)[oid := MarkPaid(old(orders)[oid], req.paymentId)]
                      && receipts == old(receipts) + [orders[oid]])
                && (PayStatus(req) != CompletedStatus ==> orders == old(orders) && receipts == old(receipts))
    {
      var latest := LatestOpenOrder(orders, caller);
      if latest.None? {
        return BadRequest(OrderNotFoundMsg);
      }
      var oid, order := latest.value.id, latest.value.order;
      var status := PayStatus(req);
      var payment := Payment(oid, caller, req.paymentId, req.payMethod.GetOr(DefaultPaymentMethod),
                             order.totalPrice, status);
      var pid := nextPaymentId;
      payments := payments[pid := payment];
      nextPaymentId := nextPaymentId + 1;
      if status == CompletedStatus {
        order := order.(paymentId := req.paymentId);
        order := order.(status := PAYED);
        orders := orders[oid := order];
        receipts := receipts + [order];
      }
      r := Ok(PayReceipt(oid, pid, status));
    }

    /** `PATCH /order/:id/status` (admin): overwrites the status, with no
        check that the transition is legal. */
    method SetOrderStatus(id: OrderId, status: Option<string>) returns (r: Response<Order>)
      requires Valid()
      modifies this`orders
      ensures Valid()
      ensures r.Ok? <==> id in old(orders)
      ensures !r.Ok? ==> r == NotFound && orders == old(orders)
      ensures r.Ok? && status.Some? ==> r.value == old(orders)[id].(status := ParseStatus(status.value))
      ensures r.Ok? && status.None? ==> r.value == old(orders)[id]
      ensures r.Ok? ==> orders == old(orders)[id := r.value]
    {
      if id !in orders {
        return NotFound;
      }
      var order := orders[id];
      if status.Some? {
        order := order.(status := ParseStatus(status.value));
      }
      orders := orders[id := order];
      r := Ok(order);
    }

    /** `PATCH /payment/:id/status` (admin): overwrites the payment's status and,
        on COMPLETED, marks the linked order paid unless it already is. No
        receipt is sent on this path. */
    method SetPaymentStatus(id: PaymentId, status: Option<string>) returns (r: Response<Payment>)
      requires Valid()
      modifies this`orders, this`payments
      ensures Valid()
      ensures r.Ok? <==> id in old(payments)
      ensures !r.Ok? ==> r == NotFound && orders == old(orders) && payments == old(payments)
      ensures r.Ok? && status.Some? ==> && r.value == old(payments)[id].(status := status.value)
                                        && orders == Reconcile(old(orders), r.value)
      ensures r.Ok? && status.None? ==> r.value == old(payments)[id] && orders == old(orders)
      ensures r.Ok? ==> payments == old(payments)[id := r.value]
      ensures receipts == old(receipts)
    {
      if id !in payments {
        return NotFound;
      }
      var payment := payments[id];
      if status.Some? {
        payment := payment.(status := status.value);
      }
      payments := payments[id := payment];
      if status == Some(CompletedStatus) {
        if payment.order in orders && orders[payment.order].status != PAYED {
          var order := orders[payment.order];
          order := order.(status := PAYED);
          order := order.(paymentId := payment.paymentId);
          orders := orders[payment.order := order];
        }
      }
      r := Ok(payment);
    }

    /** `DELETE /:id`: removes that order; payments that reference it stay. */
    method Delete(id: OrderId) returns (r: Response<string>)
      requires Valid()
      modifies this`orders
      ensures Valid()
      ensures r.Ok? <==> id in old(orders)
      ensures r.Ok? ==> r.value == OrderDeletedMsg
      ensures !r.Ok? ==> r == NotFound
      ensures orders == old(orders) - {id}
    {
      if id !in orders {
        return NotFound;
      }
      orders := orders - {id};
      r := Ok(OrderDeletedMsg);
    }
  }

  /** A checkout: one valid cart line, then a completed payment. */
  method CheckoutExample() {
    var catalog: Catalog := map[1 := [Variant("S", 700), Variant("M", 999)]];
    var service := new OrderService(catalog);
    var cart := [Item(Some(1), "M", 999, 2)];
    assert ItemError(catalog, cart[0]).None? by {
      assert FirstOfSize(catalog[1], "M", 1);
    }
    var created := service.Create(7, CreateRequest(cart, 1998, None, None), 100);
    assert created.Ok?;
    var oid := created.value.id;
    assert service.orders == map[oid := Order(7, cart, NEW, 1998, None, 100)];
    var paid := service.Pay(7, PayRequest(Some("tx_1"), None, None));
    assert paid.Ok? && paid.value.orderId == oid;
    assert service.orders[oid].status == PAYED && service.orders[oid].paymentId == Some("tx_1");
    assert service.payments[paid.value.paymentDocId].amount == 1998;
    assert |service.receipts| == 1;
  }
}
