/** The read-only handlers: each builds a filter over the order store (a map
    from id to order), and the store answers `find` sorted by newest first,
    `findOne`, or `countDocuments`. */
module OrderQueries {
  import opened OrderTypes

  /** A store query: every present field must match. `from` and `to` bound
      `createdAt` inclusively. */
  datatype Filter = Filter(
    id: Option<OrderId>,
    user: Option<UserId>,
    status: Option<OrderStatus>,
    from: Option<int>,
    to: Option<int>)

  predicate Matches(f: Filter, id: OrderId, o: Order) {
    && (f.id.Some? ==> id == f.id.value)
    && (f.user.Some? ==> o.user == f.user.value)
    && (f.status.Some? ==> o.status == f.status.value)
    && (f.from.Some? ==> f.from.value <= o.createdAt)
    && (f.to.Some? ==> o.createdAt <= f.to.value)
  }

  /** The orders among the ids `among` that a filter selects, with their ids. */
  ghost function SelectedAmong(orders: map<OrderId, Order>, f: Filter, among: set<OrderId>): set<Entry> {
    set id | id in among && id in orders && Matches(f, id, orders[id]) :: Entry(id, orders[id])
  }

  /** The orders a filter selects, with their ids. */
  ghost function Selected(orders: map<OrderId, Order>, f: Filter): set<Entry> {
    SelectedAmong(orders, f, orders.Keys)
  }

  /** The ids among `among` that a filter selects. */
  ghost function MatchingIds(orders: map<OrderId, Order>, f: Filter, among: set<OrderId>): set<OrderId> {
    set id | id in among && id in orders && Matches(f, id, orders[id])
  }

  lemma SelectedMembers(orders: map<OrderId, Order>, f: Filter)
    ensures forall e :: e in Selected(orders, f) ==>
              e.id in orders && orders[e.id] == e.order && Matches(f, e.id, e.order)
    ensures forall id :: id in orders && Matches(f, id, orders[id]) ==>
              Entry(id, orders[id]) in Selected(orders, f)
  {
  }

  /** Looking at one more id adds its entry exactly when the filter selects it. */
  lemma SelectedStep(orders: map<OrderId, Order>, f: Filter, done: set<OrderId>, id: OrderId)
    requires id in orders && id !in done
    ensures multiset(SelectedAmong(orders, f, done + {id})) ==
              multiset(SelectedAmong(orders, f, done))
              + (if Matches(f, id, orders[id]) then multiset{Entry(id, orders[id])} else multiset{})
  {
  }

  /** A sequence holding exactly the selected entries lists every selected
      order and nothing else. */
  lemma ListsSelected(orders: map<OrderId, Order>, f: Filter, r: seq<Entry>)
    requires multiset(r) == multiset(Selected(orders, f))
    ensures forall i :: 0 <= i < |r| ==>
              r[i].id in orders && orders[r[i].id] == r[i].order && Matches(f, r[i].id, r[i].order)
    ensures forall id :: id in orders && Matches(f, id, orders[id]) ==> Entry(id, orders[id]) in r
  {
    SelectedMembers(orders, f);
    forall i | 0 <= i < |r|
      ensures r[i].id in orders && orders[r[i].id] == r[i].order && Matches(f, r[i].id, r[i].order)
    {
      assert r[i] in multiset(r);
    }
    forall id | id in orders && Matches(f, id, orders[id])
      ensures Entry(id, orders[id]) in r
    {
      assert Entry(id, orders[id]) in multiset(r);
    }
  }

  /** Newest first: `.sort('-createdAt')`. */
  predicate SortedDesc(r: seq<Entry>) {
    forall i, j :: 0 <= i < j < |r| ==> r[i].order.createdAt >= r[j].order.createdAt
  }

  /** Places `e` into a newest-first sequence. */
  function Insert(r: seq<Entry>, e: Entry): (s: seq<Entry>)
    ensures multiset(s) == multiset(r) + multiset{e}
  {
    if r == [] || r[0].order.createdAt <= e.order.createdAt then [e] + r
    else
      assert r == [r[0]] + r[1..];
      [r[0]] + Insert(r[1..], e)
  }

  /** Insertion keeps a sequence newest first. */
  lemma {:induction false} InsertSorted(r: seq<Entry>, e: Entry)
    requires SortedDesc(r)
    ensures SortedDesc(Insert(r, e))
  {
    if r != [] && r[0].order.createdAt > e.order.createdAt {
      var t := Insert(r[1..], e);
      InsertSorted(r[1..], e);
      forall j | 0 <= j < |t|
        ensures t[j].order.createdAt <= r[0].order.createdAt
      {
        assert t[j] in multiset(t);
        assert t[j] == e || t[j] in r[1..];
      }
    }
  }

  /** The first element of a newest-first sequence is at least as new as any. */
  lemma SortedHeadIsNewest(r: seq<Entry>, e: Entry)
    requires SortedDesc(r) && e in r
    ensures e.order.createdAt <= r[0].order.createdAt
  {
  }

  /** `OrderModel.find(f).sort('-createdAt')`: every selected order once, newest first. */
  method Find(orders: map<OrderId, Order>, f: Filter) returns (r: seq<Entry>)
    ensures SortedDesc(r)
    ensures multiset(r) == multiset(Selected(orders, f))
    ensures forall i :: 0 <= i < |r| ==>
              r[i].id in orders && orders[r[i].id] == r[i].order && Matches(f, r[i].id, r[i].order)
    ensures forall id :: id in orders && Matches(f, id, orders[id]) ==> Entry(id, orders[id]) in r
  {
    r := [];
    var todo := orders.Keys;
    ghost var done: set<OrderId> := {};
    while todo != {}
      invariant todo + done == orders.Keys && todo !! done
      invariant SortedDesc(r)
      invariant multiset(r) == multiset(SelectedAmong(orders, f, done))
      decreases todo
    {
      var id :| id in todo;
      SelectedStep(orders, f, done, id);
      if Matches(f, id, orders[id]) {
        InsertSorted(r, Entry(id, orders[id]));
        r := Insert(r, Entry(id, orders[id]));
      }
      todo := todo - {id};
      done := done + {id};
    }
    ListsSelected(orders, f, r);
  }

  /** `OrderModel.countDocuments(f)`: the number of orders the filter selects. */
  method Count(orders: map<OrderId, Order>, f: Filter) returns (n: nat)
    ensures n == |MatchingIds(orders, f, orders.Keys)|
  {
    n := 0;
    var todo := orders.Keys;
    ghost var done: set<OrderId> := {};
    while todo != {}
      invariant todo + done == orders.Keys && todo !! done
      invariant n == |MatchingIds(orders, f, done)|
      decreases todo
    {
      var id :| id in todo;
      if Matches(f, id, orders[id]) {
        assert MatchingIds(orders, f, done + {id}) == MatchingIds(orders, f, done) + {id};
        n := n + 1;
      } else {
        assert MatchingIds(orders, f, done + {id}) == MatchingIds(orders, f, done);
      }
      todo := todo - {id};
      done := done + {id};
    }
  }

  /** The filter of `/track/:orderId`: that id, and the caller's own orders
      unless the caller is an admin. */
  function TrackFilter(id: OrderId, caller: UserId, isAdmin: bool): (f: Filter)
    ensures forall oid, o :: Matches(f, oid, o) <==> oid == id && (isAdmin || o.user == caller)
  {
    Filter(Some(id), if isAdmin then None else Some(caller), None, None, None)
  }

  /** `/track/:orderId`: `findOne` with the track filter; a missing or foreign
      order yields the unauthorized marker. */
  function Track(orders: map<OrderId, Order>, id: OrderId, caller: UserId, isAdmin: bool): (r: Response<Order>)
    ensures r.Ok? <==> id in orders && (isAdmin || orders[id].user == caller)
    ensures r.Ok? ==> r.value == orders[id]
    ensures !r.Ok? ==> r == Unauthorized
  {
    var f := TrackFilter(id, caller, isAdmin);
    if id in orders && Matches(f, id, orders[id]) then Ok(orders[id]) else Unauthorized
  }

  /** Track answers what `findOne` on its filter finds: the filter selects at
      most the one order, and Track returns it exactly when it is selected. */
  lemma TrackIsFindOne(orders: map<OrderId, Order>, id: OrderId, caller: UserId, isAdmin: bool)
    ensures var r := Track(orders, id, caller, isAdmin);
            var sel := Selected(orders, TrackFilter(id, caller, isAdmin));
            (r.Ok? ==> sel == {Entry(id, r.value)}) && (!r.Ok? ==> sel == {})
  {
  }

  /** A caller who is not an admin never receives someone else's order. */
  lemma TrackKeepsOwnership(orders: map<OrderId, Order>, id: OrderId, caller: UserId, other: UserId)
    requires id in orders && orders[id].user == other && other != caller
    ensures Track(orders, id, caller, false) == Unauthorized
  {
  }

  /** The filter of `GET /:status?`: the caller's orders unless admin, and the
      given status when present. */
  function ListFilter(caller: UserId, isAdmin: bool, status: Option<string>): (f: Filter)
    ensures forall oid, o :: Matches(f, oid, o) <==>
              (isAdmin || o.user == caller) && (status.Some? ==> o.status == ParseStatus(status.value))
  {
    Filter(None, if isAdmin then None else Some(caller),
           if status.Some? then Some(ParseStatus(status.value)) else None, None, None)
  }

  /** `GET /:status?`: the listed orders, newest first. */
  method List(orders: map<OrderId, Order>, caller: UserId, isAdmin: bool, status: Option<string>)
    returns (r: seq<Entry>)
    ensures SortedDesc(r)
    ensures multiset(r) == multiset(Selected(orders, ListFilter(caller, isAdmin, status)))
    ensures forall i :: 0 <= i < |r| ==> (isAdmin || r[i].order.user == caller)
    ensures forall id :: id in orders && (isAdmin || orders[id].user == caller)
                      && (status.Some? ==> orders[id].status == ParseStatus(status.value))
                      ==> Entry(id, orders[id]) in r
  {
    r := Find(orders, ListFilter(caller, isAdmin, status));
  }

  /** The filter of `GET /orders`: optional user and status, and an optional
      createdAt range that includes both ends. */
  function AdminFilter(user: Option<UserId>, status: Option<string>, from: Option<int>, to: Option<int>): (f: Filter)
    ensures forall oid, o :: Matches(f, oid, o) <==>
              && (user.Some? ==> o.user == user.value)
              && (status.Some? ==> o.status == ParseStatus(status.value))
              && (from.Some? ==> from.value <= o.createdAt)
              && (to.Some? ==> o.createdAt <= to.value)
  {
    Filter(None, user, if status.Some? then Some(ParseStatus(status.value)) else None, from, to)
  }

  /** `GET /orders` (admin): the selected orders, newest first. */
  method AdminList(orders: map<OrderId, Order>, user: Option<UserId>, status: Option<string>,
                   from: Option<int>, to: Option<int>)
    returns (r: seq<Entry>)
    ensures SortedDesc(r)
    ensures multiset(r) == multiset(Selected(orders, AdminFilter(user, status, from, to)))
    ensures forall i :: 0 <= i < |r| ==>
              (from.Some? ==> from.value <= r[i].order.createdAt) && (to.Some? ==> r[i].order.createdAt <= to.value)
  {
    r := Find(orders, AdminFilter(user, status, from, to));
  }

  /** An order created exactly at either end of the range is listed. */
  lemma AdminRangeInclusive(id: OrderId, o: Order, from: int, to: int)
    requires o.createdAt == from || o.createdAt == to
    requires from <= to
    ensures Matches(AdminFilter(None, None, Some(from), Some(to)), id, o)
  {
  }

  /** The filter of `/user-purchase-count`: the caller's orders in PAYED. */
  function PurchaseFilter(caller: UserId): (f: Filter)
    ensures forall oid, o :: Matches(f, oid, o) <==> o.user == caller && o.status == PAYED
  {
    Filter(None, Some(caller), Some(ParseStatus("PAYED")), None, None)
  }

  /** `/user-purchase-count`: how many of the caller's orders are PAYED. */
  method PurchaseCount(orders: map<OrderId, Order>, caller: UserId) returns (n: nat)
    ensures n == |set id | id in orders && orders[id].user == caller && orders[id].status == PAYED|
  {
    n := Count(orders, PurchaseFilter(caller));
    assert MatchingIds(orders, PurchaseFilter(caller), orders.Keys)
        == set id | id in orders && orders[id].user == caller && orders[id].status == PAYED;
  }

  /** An order in NEW belonging to `caller`: a candidate current cart. */
  predicate IsOpenOrderOf(o: Order, caller: UserId) {
    o.user == caller && o.status == NEW
  }

  /** The filter `{ user: caller, status: NEW }` of the open-order lookups. */
  function OpenOrderFilter(caller: UserId): (f: Filter)
    ensures forall oid, o :: Matches(f, oid, o) <==> IsOpenOrderOf(o, caller)
  {
    Filter(None, Some(caller), Some(NEW), None, None)
  }

  /** `getNewOrderForCurrentUser`: the caller's NEW order with the greatest
      createdAt, or None when the caller has no NEW order. */
  method LatestOpenOrder(orders: map<OrderId, Order>, caller: UserId) returns (r: Option<Entry>)
    ensures r.None? <==> forall id :: id in orders ==> !IsOpenOrderOf(orders[id], caller)
    ensures r.Some? ==> (r.value.id in orders && orders[r.value.id] == r.value.order
                         && IsOpenOrderOf(r.value.order, caller))
    ensures r.Some? ==> forall id :: id in orders && IsOpenOrderOf(orders[id], caller) ==>
                          orders[id].createdAt <= r.value.order.createdAt
  {
    var found := Find(orders, OpenOrderFilter(caller));
    if found == [] {
      r := None;
    } else {
      r := Some(found[0]);
      forall id | id in orders && IsOpenOrderOf(orders[id], caller)
        ensures orders[id].createdAt <= found[0].order.createdAt
      {
        SortedHeadIsNewest(found, Entry(id, orders[id]));
      }
    }
  }

  /** `GET /newOrderForCurrentUser`: some NEW order of the caller (the lookup
      has no sort, so not necessarily the newest), or not found. */
  method CurrentOpenOrder(orders: map<OrderId, Order>, caller: UserId) returns (r: Response<Order>)
    ensures r.Ok? || r.NotFound?
    ensures r.NotFound? <==> forall id :: id in orders ==> !IsOpenOrderOf(orders[id], caller)
    ensures r.Ok? ==> IsOpenOrderOf(r.value, caller) && r.value in orders.Values
  {
    var found := Find(orders, OpenOrderFilter(caller));
    if found == [] {
      r := NotFound;
    } else {
      r := Ok(found[0].order);
      assert orders[found[0].id] == found[0].order;
    }
  }

  /** `GET /order/:id`: the order with that id whoever asks, or not found. */
  function FindById(orders: map<OrderId, Order>, id: OrderId): (r: Response<Order>)
    ensures r.Ok? <==> id in orders
    ensures r.Ok? ==> r.value == orders[id]
    ensures !r.Ok? ==> r == NotFound
  {
    if id in orders then Ok(orders[id]) else NotFound
  }
}
