# Shop backend: store, order validation and order handler

A Dafny model of the core of a small shop backend written in TypeScript:

- `schema.dfy` (module `Schema`): the three records (`Product`, `Order`,
  `OrderItem`), their insert variants without `id`, the order-submission
  validator `createOrderSchema` as a function returning `Ok(CreateOrder)` or
  `Err(issues)`, and the order total as the left fold the handler uses
  (`Reduce`), proved equal to an independent right-recursive sum (`Sum`).
- `storage.dfy` (module `Storage`): the in-memory store `MemStorage` as a
  class. It has three `map<int, …>` fields, the insertion order of the
  products as a `seq<int>` of keys (a JavaScript `Map` iterates in insertion
  order), and three `nat` counters that start at 1 and are post-incremented
  on every insert. Its invariant `Valid()` says that each counter is one past
  the last id it issued, that the keys of each map are exactly
  `1 .. counter - 1` (so an insert never overwrites an entry), that every
  record's `id` is its key, and that products iterate in id order. The
  constructor seeds the five sample products through the seeding loop. The
  getters are functions that read the store. `CreateOrder` and `AddOrderItem`
  are methods whose `modifies` clauses name only their own map and counter,
  so nothing else can change.
- `routes.dfy` (module `Routes`): the handlers, from an already decoded
  request to a `Response(status, body)` value. They are the two product
  listings and `POST /api/orders`. The order handler validates, creates one
  order with status `"pending"` and the folded total, then adds one item per
  request line in input order (`AddItems`, the handler's `for` loop). A
  validation failure gives 400 and writes nothing. Any other failure gives
  500 with `"Failed to create order"`.
- `catalog.dfy` (module `Catalog`): the five sample products, names,
  descriptions, prices, categories, image URLs and stock counts as listed.
- `wrappers.dfy` (module `Wrappers`): `Option` and `Result`.

The in-memory store never throws. The handlers' `catch` branches for a
non-validation failure are reached through an input: `StoreFault` names which
store call of the request throws (`FailAt(0)` is `createOrder`, `FailAt(k)` is
the `addOrderItem` for item `k - 1`). For the listings this input is a `bool`.
As in the code, there is no rollback: the order and the items stored before a
failing call stay stored.

Prices, quantities and totals are integers, for instance minor currency
units. A product keeps its price as a decimal string, as in the seed data.
An order's total and an item's price are stored as numbers, not as the
string that `toString()` makes of them.

The store's `createOrder` (storage.ts:96-101) neither stamps a creation time
nor defaults the status. The handler sets the status to "pending"
(routes.ts:35), and nothing assigns `createdAt`, so `Order.createdAt` is
always `None`.

The order total comes from the prices the client sends and is not checked
against the catalog. `productId` is not checked against the catalog either.
The model keeps this behaviour: `NegativeTotalAccepted` shows an accepted
order with a negative total.

## Model

| member | source | states |
|---|---|---|
| Schema.ProductInsert | schema.ts:33 | the insert record of a product (`.omit({ id })`); `ProductWithId` and `ProductRecordRoundTrip` state that it and adding the id undo each other |
| Schema.OrderInsert | schema.ts:34 | the insert record of an order (`.omit({ id, createdAt })`); `OrderWithId` and `OrderRecordRoundTrip` state that it and adding the id undo each other |
| Schema.OrderItemInsert | schema.ts:35 | the insert record of an order item (`.omit({ id })`); `OrderItemWithId` states that it recovers the record it was completed from |
| Schema.ProductWithId | schema.ts:33 | the record has the given id, and omitting the id gives back the insert record |
| Schema.OrderWithId | schema.ts:34 | the record has the given id and no `createdAt`, and omitting both gives back the insert record |
| Schema.OrderItemWithId | schema.ts:35 | the record has the given id, and omitting the id gives back the insert record |
| Schema.ProductRecordRoundTrip | schema.ts:33 | a product equals its insert record completed with its own id |
| Schema.OrderRecordRoundTrip | schema.ts:34 | an order without `createdAt` equals its insert record completed with its own id |
| Schema.FieldIssues | schema.ts:38-40 | the issue for `customerName` is present iff its length is below 2, for `phone` iff below 10, for `address` iff below 5; no item issue is present; the list is empty iff all three rules pass |
| Schema.ItemIssues | schema.ts:41-45 | every item issue is the quantity issue of an existing item index |
| Schema.ItemIssueExact | schema.ts:43 | item i has an issue iff its quantity is below 1; `productId` and `price` never give one |
| Schema.ItemIssuesOrdered | schema.ts:41-45 | the item issues come in increasing index order |
| Schema.ItemIssuesEmpty | schema.ts:41-45 | there is no item issue iff every quantity is at least 1 |
| Schema.Issues | schema.ts:37-46 | the issues `parse` reports for a submission; `IssuesEmpty`, `IssueReported` and `QuantityIssueReported` state when each one is present |
| Schema.IssuesEmpty | schema.ts:37-46 | a submission has no issue iff every rule of the schema holds (`Acceptable`) |
| Schema.IssueReported | schema.ts:38-40 | the issue of each text field, with its message, is reported iff that field's length rule fails |
| Schema.QuantityIssueReported | schema.ts:43 | the issue of item i is reported iff its quantity is below 1 |
| Schema.Validate | schema.ts:37-46 | the result is `Ok` iff the submission is acceptable, and then it carries the submission unchanged; otherwise it is `Err` with the non-empty list of issues |
| Schema.ShortNameRejects | schema.ts:38 | a name shorter than 2 rejects the submission, whatever the other fields hold |
| Schema.ShortPhoneRejects | schema.ts:39 | a phone shorter than 10 rejects the submission |
| Schema.ShortAddressRejects | schema.ts:40 | an address shorter than 5 rejects the submission |
| Schema.LowQuantityRejects | schema.ts:43 | any item with quantity below 1 rejects the submission, with an issue for that index |
| Schema.EmptyItemsAccepted | schema.ts:41 | an empty item list is accepted when the three text fields pass |
| Schema.Reduce | routes.ts:34 | the handler's left `reduce` over the lines; `ReduceIsSum` states that it equals the accumulator plus the sum of price × quantity |
| Schema.Total | routes.ts:34 | the order total, the fold from 0, equals the right-recursive sum of price × quantity over the lines |
| Schema.ReduceIsSum | routes.ts:34 | the `reduce` fold from an accumulator equals the accumulator plus the sum of price × quantity |
| Schema.SumAppend | routes.ts:34 | the sum over a concatenation is the sum of the two sums |
| Schema.TotalSnoc | routes.ts:34 | appending one line adds its price × quantity to the total |
| Schema.TotalNonNegative | routes.ts:34 | with non-negative prices and quantities of at least 1, the total is not negative |
| Schema.NegativeTotalAccepted | schema.ts:44 | price has no range rule: a submission with a negative price is accepted and totals below zero |
| Storage.ValuesInOrder | storage.ts:85 | the listing has one value per key, the i-th being the value of the i-th key |
| Storage.ValuesInOrderAppend | storage.ts:80 | setting a new key appends its value at the end of the iteration order |
| Storage.FilterCategory | storage.ts:89 | every kept product has exactly the category, and there are no more than in the input |
| Storage.FilterCategoryMember | storage.ts:89 | a product is kept iff it is in the input and its category equals the argument exactly |
| Storage.FilterCategoryMembers | storage.ts:89 | the same for every product at once |
| Storage.FilterCategoryAppend | storage.ts:89 | filtering distributes over concatenation, so the kept products keep their relative order |
| Storage.FilterCategoryNone | storage.ts:89 | when no product has the category the result is empty, not an error |
| Catalog.SampleProducts | storage.ts:35-76 | the sample catalog has five entries |
| Storage.Numbered | storage.ts:78-81 | the i-th seeded product has id `first + i` and is the i-th sample entry otherwise |
| Storage.ConsecutiveOrders | storage.ts:96-101 | two orders created in a row get ids that differ by exactly 1, and both are stored |
| Storage.SeededCategoryNames | storage.ts:35-76 | the seeded categories are fruits, fruits, vegetables, vegetables, dried |
| Storage.SeededCategories | storage.ts:88-90 | on the seeded catalog, "fruits" gives products 1 and 2, "vegetables" 3 and 4, "dried" 5, and the differently cased "Fruits" nothing |
| Storage.SeededCatalog | storage.ts:22-32 | a new store lists five products with ids 1 to 5, two of them fruits, none under "Fruits", and has no product 6 |
| Storage.MemStorage.constructor | storage.ts:22-32 | the new store is valid, lists exactly the sample catalog under ids 1..5 in order, its product counter is 6, and orders and items are empty with counters 1 |
| Storage.MemStorage.InitializeProducts | storage.ts:34-82 | the listing grows by the sample catalog numbered from the old product counter, which grows by 5 |
| Storage.MemStorage.SeedAll | storage.ts:78-81 | the loop stores the given products in order under consecutive ids from the old counter; the listing grows by exactly them |
| Storage.MemStorage.SeedProduct | storage.ts:78-81 | the product is stored under the old counter value, which was not a key, the counter grows by 1 and the listing grows by that one product |
| Storage.MemStorage.GetProducts | storage.ts:84-86 | the listing has one product per issued id, the i-th being the product stored under id i + 1 |
| Storage.MemStorage.GetProductsByCategory | storage.ts:88-90 | every listed product is a stored product of exactly that category, and every stored product of that category is listed |
| Storage.MemStorage.GetProduct | storage.ts:92-94 | there is a result iff the id was issued, and it is the product stored under that id |
| Storage.MemStorage.CreateOrder | storage.ts:96-101 | the order gets the old counter as id and the input's fields otherwise; the id was not a key; the counter grows by exactly 1; only the order map gains the new entry |
| Storage.MemStorage.AddOrderItem | storage.ts:103-108 | the item gets the old item counter as id and the input's fields otherwise; the id was not a key; only the item map and its own counter change |
| Routes.ListProducts | routes.ts:8-15 | 200 with one product per issued id in id order; 500 with "Failed to fetch products" when the store call throws |
| Routes.ListProductsByCategory | routes.ts:17-24 | 200 with the filtered catalog, every product of exactly that category; 500 with "Failed to fetch products by category" when the store call throws |
| Routes.OrderInput | routes.ts:30-36 | the record passed to `createOrder`: the submission's name, phone and address, the folded total and status "pending"; `PostOrder` states that the stored order is this record under the old counter |
| Routes.ItemInput | routes.ts:39-44 | the record passed to `addOrderItem` for one line; `NewItemsAt` states that the stored item holds the order's id and the line's product, quantity and price |
| Routes.NewItemsAt | routes.ts:38-45 | the items made for a request are keyed `first .. first + n - 1`, and item `first + i` holds the order's id and the i-th line's product, quantity and price |
| Routes.ItemsPersisted | routes.ts:38-45 | the number of items stored before a failure is at most the number of lines, and all of them without a failure |
| Routes.AddItems | routes.ts:38-45 | the loop stores the lines in input order under consecutive ids from the old counter, all linked to the order; it reports failure exactly when a call throws, and keeps the items stored before it |
| Routes.PostOrder | routes.ts:26-55 | invalid input gives 400 with the issues and no write; otherwise one order with status "pending", the folded total and the old counter as id, then one item per line; 200 with the order itself iff no store call throws, else 500 "Failed to create order" with the earlier writes kept |
| Routes.PostTwice | routes.ts:30 | two identical valid submissions both succeed, and both orders, with the same fields and consecutive ids, end up in the store beside the orders already there |
| Routes.TwoLineFacts | routes.ts:34 | the two-line submission is accepted and totals 2 × 10 + 1 × 5 = 25 |
| Routes.TwoLineOrder | routes.ts:26-47 | on a new store that submission answers 200 with order 1, total 25, status pending, and stores items 1 and 2 linked to order 1 |
| Routes.ShortNameOrder | routes.ts:28 | a one-character name answers 400 with the name issue, and no order or item is stored |
| Routes.EmptyOrder | routes.ts:34-38 | a submission without items answers 200 with total 0 and stores no item |

## Left out

- Express wiring, request parsing and `res.json` are not modelled. Each handler goes from an already decoded request to a `Response` value.
- `async` and `Promise`: every store call is synchronous here. Nothing suspends inside the store.
- The `IStorage` interface is not a separate declaration. `MemStorage` is its only implementation and carries its operations.
- The exported singleton `storage` is not modelled. Each handler takes the store as a parameter.
- Schema shape errors are not modelled: a missing field, a wrong JSON type, or a fractional or NaN number. The validator receives a typed `CreateOrder`.
- String lengths count Dafny characters. The validation library counts UTF-16 code units, and the two differ only outside the Basic Multilingual Plane.
- The 400 response carries the list of issues. It is not the message that `fromZodError` would join from them.
- The quantity issue carries the validation library's default wording, which is not part of the repository.
- JavaScript floating-point arithmetic in the total is not modelled. Money is integers, so the total is exact.
- `toString()` of the total and of each item's price is not modelled. They are stored as integers.
- Identifiers are unbounded integers. JavaScript numbers lose precision above 2^53.
- `createdAt` is never set by the store and no clock is modelled.
- Failures of a store call are an input (`StoreFault`, or a `bool` for the listings). The in-memory store itself never throws.
- The iteration order of the order and order-item maps is not kept, since nothing lists them. Their keys are still exactly the issued ids.
- Catalog.SampleProducts: its contract states only the number of entries. The contents are the literal catalog, whose categories `SeededCategoryNames` states.
- Drizzle table definitions and column types are not modelled; only the record shapes are kept.
- Concurrency between requests is not modelled; the code has none.
