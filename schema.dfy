/**
 * The record shapes shared by the store and the handlers (shared/schema.ts),
 * and the validator `createOrderSchema` for an order submission.
 *
 * Prices, quantities and totals are integers (for instance minor currency
 * units): the product catalog keeps its price as a decimal string, as the
 * source does, but an order's total and a line item's price are stored as
 * numbers rather than as the result of JavaScript's `toString`.
 */
module Schema {
  import opened Wrappers

  // ---------------------------------------------------------------------
  // Records and their insert variants
  // ---------------------------------------------------------------------

  datatype Product = Product(
    id: int,
    name: string,
    description: string,
    price: string,
    category: string,
    imageUrl: string,
    inStock: int)

  /** A product without its `id`: what the catalog seeding supplies. */
  datatype InsertProduct = InsertProduct(
    name: string,
    description: string,
    price: string,
    category: string,
    imageUrl: string,
    inStock: int)

  /** `createdAt` is a timestamp that the in-memory store never assigns. */
  datatype Order = Order(
    id: int,
    customerName: string,
    phone: string,
    address: string,
    total: int,
    status: string,
    createdAt: Option<int>)

  /** An order without `id` and without `createdAt`. */
  datatype InsertOrder = InsertOrder(
    customerName: string,
    phone: string,
    address: string,
    total: int,
    status: string)

  datatype OrderItem = OrderItem(
    id: int,
    orderId: int,
    productId: int,
    quantity: int,
    price: int)

  /** An order item without its `id`. */
  datatype InsertOrderItem = InsertOrderItem(
    orderId: int,
    productId: int,
    quantity: int,
    price: int)

  /** The insert variant of a product: the full record with `id` omitted. */
  function ProductInsert(p: Product): InsertProduct {
    InsertProduct(p.name, p.description, p.price, p.category, p.imageUrl, p.inStock)
  }

  /** `{ ...product, id }`: the insert record completed with an identifier. */
  function ProductWithId(p: InsertProduct, id: int): (r: Product)
    ensures r.id == id && ProductInsert(r) == p
  {
    Product(id, p.name, p.description, p.price, p.category, p.imageUrl, p.inStock)
  }

  /** The insert variant of an order: `id` and `createdAt` omitted. */
  function OrderInsert(o: Order): InsertOrder {
    InsertOrder(o.customerName, o.phone, o.address, o.total, o.status)
  }

  /** `{ ...order, id }`: the spread sets no `createdAt`. */
  function OrderWithId(o: InsertOrder, id: int): (r: Order)
    ensures r.id == id && r.createdAt == None && OrderInsert(r) == o
  {
    Order(id, o.customerName, o.phone, o.address, o.total, o.status, None)
  }

  /** The insert variant of an order item: `id` omitted. */
  function OrderItemInsert(i: OrderItem): InsertOrderItem {
    InsertOrderItem(i.orderId, i.productId, i.quantity, i.price)
  }

  /** `{ ...item, id }`. */
  function OrderItemWithId(i: InsertOrderItem, id: int): (r: OrderItem)
    ensures r.id == id && OrderItemInsert(r) == i
  {
    OrderItem(id, i.orderId, i.productId, i.quantity, i.price)
  }

  lemma ProductRecordRoundTrip(r: Product)
    ensures ProductWithId(ProductInsert(r), r.id) == r
  {
  }

  lemma OrderRecordRoundTrip(r: Order)
    requires r.createdAt == None
    ensures OrderWithId(OrderInsert(r), r.id) == r
  {
  }

  // ---------------------------------------------------------------------
  // The order submission and its validator
  // ---------------------------------------------------------------------

  datatype CreateOrderItem = CreateOrderItem(productId: int, quantity: int, price: int)

  /** The body of `POST /api/orders`, already decoded from JSON. */
  datatype CreateOrder = CreateOrder(
    customerName: string,
    phone: string,
    address: string,
    items: seq<CreateOrderItem>)

  const MinNameLength: nat := 2
  const MinPhoneLength: nat := 10
  const MinAddressLength: nat := 5
  const MinQuantity: int := 1

  const NameMessage: string := "Имя должно содержать минимум 2 символа"
  const PhoneMessage: string := "Введите корректный номер телефона"
  const AddressMessage: string := "Введите корректный адрес"
  /** The validation library's own message for a number below its minimum. */
  const QuantityMessage: string := "Number must be greater than or equal to 1"

  /** The field an issue is about; an item issue carries the item's index. */
  datatype Field = CustomerName | Phone | Address | ItemQuantity(index: nat)

  datatype Issue = Issue(field: Field, message: string)

  function QuantityIssue(index: nat): Issue {
    Issue(ItemQuantity(index), QuantityMessage)
  }

  /** Every rule of the schema holds: the reference for the validator. */
  predicate Acceptable(req: CreateOrder) {
    && |req.customerName| >= MinNameLength
    && |req.phone| >= MinPhoneLength
    && |req.address| >= MinAddressLength
    && forall i :: 0 <= i < |req.items| ==> req.items[i].quantity >= MinQuantity
  }

  /**
   * The issues for the items, one per item whose quantity is below the
   * minimum, in index order. `productId` and `price` carry no rule.
   */
  function ItemIssues(items: seq<CreateOrderItem>): (r: seq<Issue>)
    ensures forall j :: 0 <= j < |r| ==>
              r[j].field.ItemQuantity? && r[j] == QuantityIssue(r[j].field.index) && r[j].field.index < |items|
  {
    if items == [] then []
    else
      var n := |items| - 1;
      ItemIssues(items[..n]) + (if items[n].quantity < MinQuantity then [QuantityIssue(n)] else [])
  }

  /** Item `i` has an issue iff its quantity is below the minimum. */
  lemma {:induction false} ItemIssueExact(items: seq<CreateOrderItem>, i: nat)
    requires i < |items|
    ensures QuantityIssue(i) in ItemIssues(items) <==> items[i].quantity < MinQuantity
  {
    var n := |items| - 1;
    var init := ItemIssues(items[..n]);
    if i < n {
      ItemIssueExact(items[..n], i);
      assert QuantityIssue(i) != QuantityIssue(n);
    } else {
      assert QuantityIssue(n) !in init;
    }
  }

  /** The item issues are listed in increasing index order. */
  lemma {:induction false} ItemIssuesOrdered(items: seq<CreateOrderItem>)
    ensures forall j, k :: 0 <= j < k < |ItemIssues(items)| ==>
              ItemIssues(items)[j].field.index < ItemIssues(items)[k].field.index
  {
    if items != [] {
      var n := |items| - 1;
      var init := ItemIssues(items[..n]);
      ItemIssuesOrdered(items[..n]);
      var r := ItemIssues(items);
      forall j, k | 0 <= j < k < |r| ensures r[j].field.index < r[k].field.index {
        assert r == init + (if items[n].quantity < MinQuantity then [QuantityIssue(n)] else []);
        if k < |init| {
          assert r[j] == init[j] && r[k] == init[k];
        } else {
          assert r[j] == init[j] && r[k] == QuantityIssue(n);
          assert init[j].field.index < |items[..n]| == n;
        }
      }
    }
  }

  /** No item issue iff every quantity meets the minimum. */
  lemma ItemIssuesEmpty(items: seq<CreateOrderItem>)
    ensures ItemIssues(items) == [] <==> forall i :: 0 <= i < |items| ==> items[i].quantity >= MinQuantity
  {
    var r := ItemIssues(items);
    if r != [] {
      ItemIssueExact(items, r[0].field.index);
    } else {
      forall i | 0 <= i < |items| ensures items[i].quantity >= MinQuantity {
        ItemIssueExact(items, i);
      }
    }
  }

  /** The issues for the three text fields, in the schema's field order. */
  function FieldIssues(req: CreateOrder): (r: seq<Issue>)
    ensures forall j :: 0 <= j < |r| ==> !r[j].field.ItemQuantity?
    ensures r == [] <==>
              && |req.customerName| >= MinNameLength
              && |req.phone| >= MinPhoneLength
              && |req.address| >= MinAddressLength
    ensures Issue(CustomerName, NameMessage) in r <==> |req.customerName| < MinNameLength
    ensures Issue(Phone, PhoneMessage) in r <==> |req.phone| < MinPhoneLength
    ensures Issue(Address, AddressMessage) in r <==> |req.address| < MinAddressLength
  {
    var name := if |req.customerName| < MinNameLength then [Issue(CustomerName, NameMessage)] else [];
    var phone := if |req.phone| < MinPhoneLength then [Issue(Phone, PhoneMessage)] else [];
    var address := if |req.address| < MinAddressLength then [Issue(Address, AddressMessage)] else [];
    name + phone + address
  }

  /** All issues of a submission: the text fields first, then the items. */
  function Issues(req: CreateOrder): seq<Issue> {
    FieldIssues(req) + ItemIssues(req.items)
  }

  /** A submission has no issue iff every rule of the schema holds. */
  lemma IssuesEmpty(req: CreateOrder)
    ensures Issues(req) == [] <==> Acceptable(req)
  {
    ItemIssuesEmpty(req.items);
  }

  /** Each rule's issue is reported iff that rule fails. */
  lemma IssueReported(req: CreateOrder)
    ensures Issue(CustomerName, NameMessage) in Issues(req) <==> |req.customerName| < MinNameLength
    ensures Issue(Phone, PhoneMessage) in Issues(req) <==> |req.phone| < MinPhoneLength
    ensures Issue(Address, AddressMessage) in Issues(req) <==> |req.address| < MinAddressLength
  {
    var items := ItemIssues(req.items);
    assert Issue(CustomerName, NameMessage) !in items;
    assert Issue(Phone, PhoneMessage) !in items;
    assert Issue(Address, AddressMessage) !in items;
  }

  /** Item `i`'s issue is reported iff its quantity is below the minimum. */
  lemma QuantityIssueReported(req: CreateOrder, i: nat)
    requires i < |req.items|
    ensures QuantityIssue(i) in Issues(req) <==> req.items[i].quantity < MinQuantity
  {
    assert QuantityIssue(i) !in FieldIssues(req);
    ItemIssueExact(req.items, i);
  }

  /** `createOrderSchema.parse`: the submission itself, or every issue found. */
  function Validate(req: CreateOrder): (r: Result<CreateOrder, seq<Issue>>)
    ensures r.Ok? <==> Acceptable(req)
    ensures r.Ok? ==> r.value == req
    ensures r.Err? ==> r.error != [] && r.error == Issues(req)
  {
    IssuesEmpty(req);
    var issues := Issues(req);
    if issues == [] then Ok(req) else Err(issues)
  }

  /** One failing field rejects the whole submission, whatever else holds. */
  lemma ShortNameRejects(req: CreateOrder)
    requires |req.customerName| < MinNameLength
    ensures Validate(req).Err? && Issue(CustomerName, NameMessage) in Validate(req).error
  {
    IssueReported(req);
  }

  lemma ShortPhoneRejects(req: CreateOrder)
    requires |req.phone| < MinPhoneLength
    ensures Validate(req).Err? && Issue(Phone, PhoneMessage) in Validate(req).error
  {
    IssueReported(req);
  }

  lemma ShortAddressRejects(req: CreateOrder)
    requires |req.address| < MinAddressLength
    ensures Validate(req).Err? && Issue(Address, AddressMessage) in Validate(req).error
  {
    IssueReported(req);
  }

  lemma LowQuantityRejects(req: CreateOrder, i: nat)
    requires i < |req.items| && req.items[i].quantity < MinQuantity
    ensures Validate(req).Err? && QuantityIssue(i) in Validate(req).error
  {
    QuantityIssueReported(req, i);
  }

  /** The item list has no minimum length. */
  lemma EmptyItemsAccepted(req: CreateOrder)
    requires req.items == []
    requires |req.customerName| >= MinNameLength && |req.phone| >= MinPhoneLength
    requires |req.address| >= MinAddressLength
    ensures Validate(req) == Ok(req)
  {
  }

  // ---------------------------------------------------------------------
  // The order total
  // ---------------------------------------------------------------------

  /** `items.reduce((sum, item) => sum + item.price * item.quantity, acc)`. */
  function Reduce(items: seq<CreateOrderItem>, acc: int): int {
    if items == [] then acc
    else Reduce(items[1..], acc + items[0].price * items[0].quantity)
  }

  /** The total of an order: the fold started from 0. */
  function Total(items: seq<CreateOrderItem>): (r: int)
    ensures r == Sum(items)
  {
    ReduceIsSum(items, 0);
    Reduce(items, 0)
  }

  /** Σ price × quantity, summed from the right: the reference for the fold. */
  function Sum(items: seq<CreateOrderItem>): int {
    if items == [] then 0 else items[0].price * items[0].quantity + Sum(items[1..])
  }

  lemma {:induction false} ReduceIsSum(items: seq<CreateOrderItem>, acc: int)
    ensures Reduce(items, acc) == acc + Sum(items)
  {
    if items != [] {
      ReduceIsSum(items[1..], acc + items[0].price * items[0].quantity);
    }
  }

  lemma {:induction false} SumAppend(a: seq<CreateOrderItem>, b: seq<CreateOrderItem>)
    ensures Sum(a + b) == Sum(a) + Sum(b)
  {
    if a == [] {
      assert a + b == b;
    } else {
      assert (a + b)[0] == a[0];
      assert (a + b)[1..] == a[1..] + b;
      SumAppend(a[1..], b);
    }
  }

  /** The total of a longer submission adds the new line's price × quantity. */
  lemma TotalSnoc(items: seq<CreateOrderItem>, x: CreateOrderItem)
    ensures Total(items + [x]) == Total(items) + x.price * x.quantity
  {
    ReduceIsSum(items + [x], 0);
    ReduceIsSum(items, 0);
    SumAppend(items, [x]);
  }

  /** Prices carry no range rule, so an accepted order can total below zero. */
  lemma NegativeTotalAccepted()
    ensures var req := CreateOrder("Ann", "0123456789", "1 Main", [CreateOrderItem(1, 1, -5)]);
            Validate(req).Ok? && Total(req.items) == -5
  {
  }

  /** With non-negative prices, an accepted submission never totals below zero. */
  lemma {:induction false} TotalNonNegative(items: seq<CreateOrderItem>)
    requires forall i :: 0 <= i < |items| ==> items[i].price >= 0 && items[i].quantity >= MinQuantity
    ensures Total(items) >= 0
  {
    ReduceIsSum(items, 0);
    SumNonNegative(items);
  }

  lemma {:induction false} SumNonNegative(items: seq<CreateOrderItem>)
    requires forall i :: 0 <= i < |items| ==> items[i].price >= 0 && items[i].quantity >= MinQuantity
    ensures Sum(items) >= 0
  {
    if items != [] {
      SumNonNegative(items[1..]);
    }
  }
}
