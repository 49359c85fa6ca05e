/**
 * The request handlers of server/routes.ts, from an already decoded request
 * to a `Response` value: the two product listings and `POST /api/orders`.
 *
 * The in-memory store never throws, but the handlers map any failure of a
 * store call to a server error. That failure is an input here: a
 * `StoreFault` names which store call of the request throws.
 */
module Routes {
  import opened Wrappers
  import opened Schema
  import opened Storage

  datatype Body =
    | ProductsBody(products: seq<Product>)
    | OrderBody(order: Order)
    | ValidationFailure(issues: seq<Issue>)
    | Message(text: string)

  datatype Response = Response(status: int, body: Body)

  /**
   * `FailAt(0)`: the `createOrder` call throws; `FailAt(k)` with `k >= 1`:
   * the `addOrderItem` call for item `k - 1` throws.
   */
  datatype StoreFault = NoFault | FailAt(call: nat)

  const ProductsFailed: string := "Failed to fetch products"
  const CategoryFailed: string := "Failed to fetch products by category"
  const OrderFailed: string := "Failed to create order"

  /** `GET /api/products`. */
  function ListProducts(store: MemStorage, fails: bool): (r: Response)
    reads store
    requires store.Valid()
    ensures !fails ==> r.status == 200 && r.body.ProductsBody?
                       && |r.body.products| == store.currentProductId - 1
                       && forall i :: 0 <= i < |r.body.products| ==>
                            r.body.products[i] == store.products[i + 1]
    ensures fails ==> r == Response(500, Message(ProductsFailed))
  {
    if fails then Response(500, Message(ProductsFailed))
    else Response(200, ProductsBody(store.GetProducts()))
  }

  /** `GET /api/products/category/:category`: no match is an empty list, not an error. */
  function ListProductsByCategory(store: MemStorage, category: string, fails: bool): (r: Response)
    reads store
    requires store.Valid()
    ensures !fails ==> r.status == 200 && r.body == ProductsBody(FilterCategory(store.GetProducts(), category))
    ensures !fails ==> forall i :: 0 <= i < |r.body.products| ==> r.body.products[i].category == category
    ensures fails ==> r == Response(500, Message(CategoryFailed))
  {
    if fails then Response(500, Message(CategoryFailed))
    else Response(200, ProductsBody(store.GetProductsByCategory(category)))
  }

  /** The order record the handler asks the store to create. */
  function OrderInput(data: CreateOrder): InsertOrder {
    InsertOrder(data.customerName, data.phone, data.address, Total(data.items), "pending")
  }

  /** The line item the handler asks the store to add for `item`. */
  function ItemInput(item: CreateOrderItem, orderId: int): InsertOrderItem {
    InsertOrderItem(orderId, item.productId, item.quantity, item.price)
  }

  /** The order items for `items` of order `orderId`, numbered from `first` in input order. */
  function NewItems(items: seq<CreateOrderItem>, orderId: int, first: int): map<int, OrderItem> {
    if items == [] then map[]
    else
      var n := |items| - 1;
      NewItems(items[..n], orderId, first)[first + n := OrderItemWithId(ItemInput(items[n], orderId), first + n)]
  }

  /**
   * The items made for a request are keyed `first .. first + |items| - 1`, and
   * item `first + i` carries the order's id and line `i`'s product, quantity
   * and price.
   */
  lemma {:induction false} NewItemsAt(items: seq<CreateOrderItem>, orderId: int, first: int)
    ensures forall k :: k in NewItems(items, orderId, first) <==> first <= k < first + |items|
    ensures forall i :: 0 <= i < |items| ==>
              NewItems(items, orderId, first)[first + i]
              == OrderItem(first + i, orderId, items[i].productId, items[i].quantity, items[i].price)
  {
    if items != [] {
      var n := |items| - 1;
      NewItemsAt(items[..n], orderId, first);
      assert forall i :: 0 <= i < n ==> items[..n][i] == items[i];
    }
  }

  /** How many order items a request with `n` items persists before `fault` strikes. */
  function ItemsPersisted(fault: StoreFault, n: nat): (k: nat)
    ensures k <= n
    ensures fault == NoFault ==> k == n
  {
    if ItemCallThrows(fault, n) then fault.call - 1 else n
  }

  /** Whether the `addOrderItem` call for one of the `n` lines throws. */
  predicate ItemCallThrows(fault: StoreFault, n: nat) {
    fault.FailAt? && 1 <= fault.call <= n
  }

  /** Whether the request reaches a store call that throws: `createOrder` or one of the item calls. */
  predicate Strikes(fault: StoreFault, n: nat) {
    fault == FailAt(0) || ItemCallThrows(fault, n)
  }

  lemma NewItemsExtend(items: seq<CreateOrderItem>, i: nat, orderId: int, first: int)
    requires i < |items|
    ensures NewItems(items[..i + 1], orderId, first)
         == NewItems(items[..i], orderId, first)[first + i := OrderItemWithId(ItemInput(items[i], orderId), first + i)]
  {
    assert items[..i + 1][..i] == items[..i];
  }

  /** One more stored item extends the map of items stored so far by the next line. */
  lemma StoredItemsStep(before: map<int, OrderItem>, items: seq<CreateOrderItem>, i: nat, orderId: int, first: int)
    requires i < |items|
    ensures (before + NewItems(items[..i], orderId, first))[first + i := OrderItemWithId(ItemInput(items[i], orderId), first + i)]
         == before + NewItems(items[..i + 1], orderId, first)
  {
    NewItemsExtend(items, i, orderId, first);
  }

  /**
   * The handler's loop `for (const item of items) await storage.addOrderItem(...)`:
   * item `i` is stored under the next order-item id with `orderId` and its
   * own product, quantity and price. `ok` is false when a call throws, and
   * the items added before it stay.
   */
  method AddItems(store: MemStorage, items: seq<CreateOrderItem>, orderId: int, fault: StoreFault)
    returns (ok: bool)
    requires store.Valid()
    modifies store`orderItems, store`currentOrderItemId
    ensures store.Valid()
    ensures ok == !ItemCallThrows(fault, |items|)
    ensures var k := ItemsPersisted(fault, |items|);
            && store.orderItems == old(store.orderItems) + NewItems(items[..k], orderId, old(store.currentOrderItemId))
            && store.currentOrderItemId == old(store.currentOrderItemId) + k
  {
    ghost var first := store.currentOrderItemId;
    ghost var before := store.orderItems;
    for i := 0 to |items|
      invariant store.Valid()
      invariant store.currentOrderItemId == first + i
      invariant store.orderItems == before + NewItems(items[..i], orderId, first)
      invariant !ItemCallThrows(fault, i)
    {
      if fault == FailAt(i + 1) {
        return false;
      }
      var added := store.AddOrderItem(ItemInput(items[i], orderId));
      assert added == OrderItemWithId(ItemInput(items[i], orderId), first + i);
      StoredItemsStep(before, items, i, orderId, first);
    }
    assert items[..|items|] == items;
    return true;
  }

  /**
   * `POST /api/orders`: validate, create the order with the folded total and
   * status "pending", then add one item per request line in input order.
   * A validation failure answers 400 before any write; a store failure
   * answers 500 and leaves what was written before it.
   */
  method PostOrder(store: MemStorage, body: CreateOrder, fault: StoreFault) returns (resp: Response)
    requires store.Valid()
    modifies store`orders, store`currentOrderId, store`orderItems, store`currentOrderItemId
    ensures store.Valid()
    ensures Validate(body).Err? ==>
              && resp == Response(400, ValidationFailure(Issues(body)))
              && store.orders == old(store.orders) && store.currentOrderId == old(store.currentOrderId)
              && store.orderItems == old(store.orderItems)
              && store.currentOrderItemId == old(store.currentOrderItemId)
    ensures Validate(body).Ok? && fault == FailAt(0) ==>
              && resp == Response(500, Message(OrderFailed))
              && store.orders == old(store.orders) && store.currentOrderId == old(store.currentOrderId)
              && store.orderItems == old(store.orderItems)
              && store.currentOrderItemId == old(store.currentOrderItemId)
    ensures Validate(body).Ok? && fault != FailAt(0) ==>
              var order := OrderWithId(OrderInput(body), old(store.currentOrderId));
              var k := ItemsPersisted(fault, |body.items|);
              && store.orders == old(store.orders)[order.id := order]
              && store.currentOrderId == old(store.currentOrderId) + 1
              && store.orderItems
                 == old(store.orderItems) + NewItems(body.items[..k], order.id, old(store.currentOrderItemId))
              && store.currentOrderItemId == old(store.currentOrderItemId) + k
              && resp == if Strikes(fault, |body.items|) then Response(500, Message(OrderFailed))
                         else Response(200, OrderBody(order))
    ensures resp.status == 200 <==> Validate(body).Ok? && !Strikes(fault, |body.items|)
    ensures resp.status == 200 ==>
              && resp.body.OrderBody? && resp.body.order.id == old(store.currentOrderId)
              && resp.body.order.status == "pending" && resp.body.order.total == Total(body.items)
              && resp.body.order.customerName == body.customerName
              && resp.body.order.phone == body.phone && resp.body.order.address == body.address
              && store.currentOrderItemId == old(store.currentOrderItemId) + |body.items|
  {
    var parsed := Validate(body);
    if parsed.Err? {
      return Response(400, ValidationFailure(parsed.error));
    }
    var data := parsed.value;
    if fault == FailAt(0) {
      return Response(500, Message(OrderFailed));
    }
    var order := store.CreateOrder(OrderInput(data));
    assert order == OrderWithId(OrderInput(data), order.id);
    var ok := AddItems(store, data.items, order.id, fault);
    if ok {
      resp := Response(200, OrderBody(order));
    } else {
      resp := Response(500, Message(OrderFailed));
    }
  }

  /** The same valid submission posted twice stores two orders with the same fields and consecutive ids. */
  method PostTwice(store: MemStorage, body: CreateOrder) returns (first: Response, second: Response)
    requires store.Valid()
    requires Validate(body).Ok?
    modifies store`orders, store`currentOrderId, store`orderItems, store`currentOrderItemId
    ensures store.Valid()
    ensures first.status == 200 && first.body.OrderBody? && second.status == 200 && second.body.OrderBody?
    ensures first.body.order.id == old(store.currentOrderId)
    ensures second.body.order.id == first.body.order.id + 1
    ensures OrderInsert(first.body.order) == OrderInsert(second.body.order)
    ensures store.orders == old(store.orders)[first.body.order.id := first.body.order]
                                             [second.body.order.id := second.body.order]
    ensures store.currentOrderItemId == old(store.currentOrderItemId) + 2 * |body.items|
  {
    first := PostOrder(store, body, NoFault);
    assert body.items[..|body.items|] == body.items;
    second := PostOrder(store, body, NoFault);
  }

  /** The two-line submission used below: accepted, total 25, items numbered from 1. */
  lemma TwoLineFacts(body: CreateOrder)
    requires body == CreateOrder("Ann Lee", "1234567890", "1 Main St",
                                 [CreateOrderItem(1, 2, 10), CreateOrderItem(2, 1, 5)])
    ensures Validate(body).Ok?
    ensures Total(body.items) == 25
    ensures ItemsPersisted(NoFault, |body.items|) == 2 && body.items[..2] == body.items
    ensures NewItems(body.items, 1, 1) == map[1 := OrderItem(1, 1, 1, 2, 10), 2 := OrderItem(2, 1, 2, 1, 5)]
  {
    assert Acceptable(body);
    TwoLineTotal(body.items[0], body.items[1]);
    assert body.items == [body.items[0], body.items[1]];
    TwoLineItems(body.items);
  }

  lemma TwoLineTotal(x: CreateOrderItem, y: CreateOrderItem)
    ensures Total([x, y]) == x.price * x.quantity + y.price * y.quantity
  {
    TotalSnoc([], x);
    assert [] + [x] == [x];
    TotalSnoc([x], y);
    assert [x] + [y] == [x, y];
  }

  lemma TwoLineItems(items: seq<CreateOrderItem>)
    requires items == [CreateOrderItem(1, 2, 10), CreateOrderItem(2, 1, 5)]
    ensures NewItems(items, 1, 1) == map[1 := OrderItem(1, 1, 1, 2, 10), 2 := OrderItem(2, 1, 2, 1, 5)]
  {
    assert items[..1] == [items[0]];
    assert items[..1][..0] == [];
    assert NewItems(items[..1], 1, 1) == map[1 := OrderItem(1, 1, 1, 2, 10)];
  }

  /** A valid two-line order on a new store: total 2 × 10 + 1 × 5 and two linked items. */
  method TwoLineOrder() returns (store: MemStorage, resp: Response)
    ensures store.Valid()
    ensures resp == Response(200, OrderBody(Order(1, "Ann Lee", "1234567890", "1 Main St", 25, "pending", None)))
    ensures store.orders == map[1 := resp.body.order]
    ensures store.orderItems == map[1 := OrderItem(1, 1, 1, 2, 10), 2 := OrderItem(2, 1, 2, 1, 5)]
  {
    store := new MemStorage();
    var body := CreateOrder("Ann Lee", "1234567890", "1 Main St",
                            [CreateOrderItem(1, 2, 10), CreateOrderItem(2, 1, 5)]);
    TwoLineFacts(body);
    resp := PostOrder(store, body, NoFault);
  }

  /** A one-character name is refused with 400 and nothing is written. */
  method ShortNameOrder() returns (store: MemStorage, resp: Response)
    ensures store.Valid()
    ensures resp.status == 400 && resp.body.ValidationFailure?
    ensures Issue(CustomerName, NameMessage) in resp.body.issues
    ensures store.orders == map[] && store.orderItems == map[]
    ensures store.currentOrderId == 1 && store.currentOrderItemId == 1
  {
    store := new MemStorage();
    var body := CreateOrder("A", "1234567890", "1 Main St", [CreateOrderItem(1, 2, 10)]);
    resp := PostOrder(store, body, NoFault);
  }

  /** An order without items is accepted, totals 0 and stores no item. */
  method EmptyOrder() returns (store: MemStorage, resp: Response)
    ensures store.Valid()
    ensures resp == Response(200, OrderBody(Order(1, "Ann Lee", "1234567890", "1 Main St", 0, "pending", None)))
    ensures store.orderItems == map[] && store.currentOrderItemId == 1
  {
    store := new MemStorage();
    var body := CreateOrder("Ann Lee", "1234567890", "1 Main St", []);
    assert Acceptable(body);
    resp := PostOrder(store, body, NoFault);
    assert body.items[..0] == [];
  }
}
