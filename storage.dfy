/**
 * The in-memory store `MemStorage` (server/storage.ts): three maps, each
 * with its own identifier counter, and a product catalog seeded at
 * construction. The class is the only implementation of the `IStorage`
 * contract; its operations are synchronous here.
 */
module Storage {
  import opened Wrappers
  import opened Schema
  import opened Catalog

  /** The values of `m` at `keys`, in the order of `keys`. */
  function ValuesInOrder<V>(keys: seq<int>, m: map<int, V>): (r: seq<V>)
    requires forall i :: 0 <= i < |keys| ==> keys[i] in m
    ensures |r| == |keys|
    ensures forall i :: 0 <= i < |keys| ==> r[i] == m[keys[i]]
  {
    if keys == [] then []
    else ValuesInOrder(keys[..|keys| - 1], m) + [m[keys[|keys| - 1]]]
  }

  /** A new key at the end of the order lists its new value last. */
  lemma ValuesInOrderAppend<V>(keys: seq<int>, m: map<int, V>, k: int, v: V)
    requires forall i :: 0 <= i < |keys| ==> keys[i] in m && keys[i] != k
    ensures ValuesInOrder(keys + [k], m[k := v]) == ValuesInOrder(keys, m) + [v]
  {
    var a := ValuesInOrder(keys + [k], m[k := v]);
    var b := ValuesInOrder(keys, m) + [v];
    assert |a| == |b|;
    forall i | 0 <= i < |a| ensures a[i] == b[i] {
      if i < |keys| {
        assert (keys + [k])[i] == keys[i];
      }
    }
  }

  /** The product alone if it has exactly the category, else nothing. */
  function Keep(p: Product, category: string): seq<Product> {
    if p.category == category then [p] else []
  }

  /** `Array.from(...).filter(p => p.category === category)`. */
  function FilterCategory(ps: seq<Product>, category: string): (r: seq<Product>)
    ensures forall i :: 0 <= i < |r| ==> r[i].category == category
    ensures |r| <= |ps|
  {
    if ps == [] then []
    else
      FilterCategory(ps[..|ps| - 1], category) + Keep(ps[|ps| - 1], category)
  }

  /** A product is kept iff it is in the input and has exactly the category. */
  lemma {:induction false} FilterCategoryMember(ps: seq<Product>, category: string, p: Product)
    ensures p in FilterCategory(ps, category) <==> p in ps && p.category == category
  {
    if ps != [] {
      var init := ps[..|ps| - 1];
      assert ps == init + [ps[|ps| - 1]];
      FilterCategoryMember(init, category, p);
    }
  }

  lemma FilterCategoryMembers(ps: seq<Product>, category: string)
    ensures forall p :: p in FilterCategory(ps, category) <==> p in ps && p.category == category
  {
    forall p {
      FilterCategoryMember(ps, category, p);
    }
  }

  /** Filtering distributes over concatenation, so it keeps the catalog's order. */
  lemma {:induction false} FilterCategoryAppend(a: seq<Product>, b: seq<Product>, category: string)
    ensures FilterCategory(a + b, category) == FilterCategory(a, category) + FilterCategory(b, category)
  {
    if b == [] {
      assert a + b == a;
    } else {
      var init := b[..|b| - 1];
      assert (a + b)[..|a + b| - 1] == a + init;
      assert (a + b)[|a + b| - 1] == b[|b| - 1];
      FilterCategoryAppend(a, init, category);
    }
  }

  /** No product of the category: an empty listing, not an error. */
  lemma FilterCategoryNone(ps: seq<Product>, category: string)
    requires forall i :: 0 <= i < |ps| ==> ps[i].category != category
    ensures FilterCategory(ps, category) == []
  {
  }

  /** The insert records numbered consecutively from `first`. */
  function Numbered(ps: seq<InsertProduct>, first: int): (r: seq<Product>)
    ensures |r| == |ps|
    ensures forall i :: 0 <= i < |ps| ==> r[i].id == first + i && ProductInsert(r[i]) == ps[i]
  {
    seq(|ps|, i requires 0 <= i < |ps| => ProductWithId(ps[i], first + i))
  }

  lemma NumberedSnoc(ps: seq<InsertProduct>, i: nat, first: int)
    requires i < |ps|
    ensures Numbered(ps[..i + 1], first) == Numbered(ps[..i], first) + [ProductWithId(ps[i], first + i)]
  {
    var a := Numbered(ps[..i + 1], first);
    var b := Numbered(ps[..i], first) + [ProductWithId(ps[i], first + i)];
    assert |a| == |b|;
    forall j | 0 <= j < |a| ensures a[j] == b[j] {
      assert ps[..i + 1][j] == ps[j];
      if j < i {
        assert ps[..i][j] == ps[j];
      }
    }
  }

  /**
   * The product part of the store's invariant, on values: the keys in
   * insertion order are exactly 1 .. counter - 1 and each key is its
   * product's id.
   */
  ghost predicate DenseCatalog(keys: seq<int>, products: map<int, Product>, counter: int) {
    && 1 <= counter
    && |keys| == counter - 1
    && (forall i :: 0 <= i < |keys| ==> keys[i] == i + 1)
    && (forall k :: k in products <==> 1 <= k < counter)
    && (forall k :: k in products ==> products[k].id == k)
  }

  /** Storing a product under the counter, then bumping it, keeps the catalog dense. */
  lemma DenseCatalogInsert(keys: seq<int>, products: map<int, Product>, counter: int, p: Product)
    requires DenseCatalog(keys, products, counter) && p.id == counter
    ensures DenseCatalog(keys + [counter], products[counter := p], counter + 1)
    ensures counter !in products
    ensures forall i :: 0 <= i < |keys| ==> keys[i] in products && keys[i] != counter
  {
  }

  class MemStorage {
    var products: map<int, Product>
    /** The keys of `products` in insertion order, the order a `Map` iterates in. */
    var productKeys: seq<int>
    var orders: map<int, Order>
    var orderItems: map<int, OrderItem>
    var currentProductId: nat
    var currentOrderId: nat
    var currentOrderItemId: nat

    /**
     * The store's invariant: each counter is one past the last identifier it
     * handed out, every identifier below it is a key, every key is the id of
     * its record, and products iterate in identifier order.
     */
    ghost predicate Valid()
      reads this
    {
      ProductsValid() && OrdersValid() && OrderItemsValid()
    }

    ghost predicate ProductsValid()
      reads this`products, this`productKeys, this`currentProductId
    {
      DenseCatalog(productKeys, products, currentProductId)
    }

    ghost predicate OrdersValid()
      reads this`orders, this`currentOrderId
    {
      && 1 <= currentOrderId
      && (forall k :: k in orders <==> 1 <= k < currentOrderId)
      && (forall k :: k in orders ==> orders[k].id == k)
    }

    ghost predicate OrderItemsValid()
      reads this`orderItems, this`currentOrderItemId
    {
      && 1 <= currentOrderItemId
      && (forall k :: k in orderItems <==> 1 <= k < currentOrderItemId)
      && (forall k :: k in orderItems ==> orderItems[k].id == k)
    }

    /** A store seeded with the sample catalog and with no orders. */
    constructor ()
      ensures Valid()
      ensures GetProducts() == Numbered(SampleProducts(), 1)
      ensures currentProductId == 6
      ensures orders == map[] && currentOrderId == 1
      ensures orderItems == map[] && currentOrderItemId == 1
    {
      products := map[];
      productKeys := [];
      orders := map[];
      orderItems := map[];
      currentProductId := 1;
      currentOrderId := 1;
      currentOrderItemId := 1;
      new;
      assert ProductsValid() && OrdersValid() && OrderItemsValid();
      assert GetProducts() == [];
      InitializeProducts();
      assert GetProducts() == [] + Numbered(SampleProducts(), 1);
    }

    /** `initializeProducts`: adds the sample catalog. */
    method InitializeProducts()
      requires Valid()
      modifies this`products, this`productKeys, this`currentProductId
      ensures Valid()
      ensures currentProductId == old(currentProductId) + |SampleProducts()|
      ensures GetProducts() == old(GetProducts()) + Numbered(SampleProducts(), old(currentProductId))
    {
      SeedAll(SampleProducts());
    }

    /** `sampleProducts.forEach(...)`: each product under the next identifier, in order. */
    method SeedAll(sample: seq<InsertProduct>)
      requires Valid()
      modifies this`products, this`productKeys, this`currentProductId
      ensures Valid()
      ensures currentProductId == old(currentProductId) + |sample|
      ensures GetProducts() == old(GetProducts()) + Numbered(sample, old(currentProductId))
    {
      for i := 0 to |sample|
        invariant Valid()
        invariant currentProductId == old(currentProductId) + i
        invariant GetProducts() == old(GetProducts()) + Numbered(sample[..i], old(currentProductId))
      {
        var p := SeedProduct(sample[i]);
        NumberedSnoc(sample, i, old(currentProductId));
      }
      assert sample[..|sample|] == sample;
    }

    /** One step of the seeding loop: `products.set(id, { ...product, id })` with `id = currentProductId++`. */
    method SeedProduct(product: InsertProduct) returns (r: Product)
      requires Valid()
      modifies this`products, this`productKeys, this`currentProductId
      ensures Valid()
      ensures r == ProductWithId(product, old(currentProductId))
      ensures old(currentProductId) !in old(products)
      ensures products == old(products)[r.id := r]
      ensures currentProductId == old(currentProductId) + 1
      ensures GetProducts() == old(GetProducts()) + [r]
    {
      var id := currentProductId;
      currentProductId := currentProductId + 1;
      r := ProductWithId(product, id);
      DenseCatalogInsert(productKeys, products, id, r);
      ValuesInOrderAppend(productKeys, products, id, r);
      products := products[id := r];
      productKeys := productKeys + [id];
    }

    /** Every stored product, in insertion order. */
    function GetProducts(): (r: seq<Product>)
      reads this
      requires Valid()
      ensures |r| == currentProductId - 1
      ensures forall i :: 0 <= i < |r| ==> r[i] == products[i + 1] && r[i].id == i + 1
    {
      ValuesInOrder(productKeys, products)
    }

    /** The stored products whose category is exactly `category`, in catalog order. */
    function GetProductsByCategory(category: string): (r: seq<Product>)
      reads this
      requires Valid()
      ensures forall p :: p in r <==> p in GetProducts() && p.category == category
    {
      FilterCategoryMembers(GetProducts(), category);
      FilterCategory(GetProducts(), category)
    }

    /** The product stored under `id`, if there is one. */
    function GetProduct(id: int): (r: Option<Product>)
      reads this
      requires Valid()
      ensures r.Some? <==> 1 <= id < currentProductId
      ensures r.Some? ==> r.value.id == id && r.value == products[id]
    {
      if id in products then Some(products[id]) else None
    }

    /** Stores `order` under the next order identifier and returns the record. */
    method CreateOrder(order: InsertOrder) returns (r: Order)
      requires Valid()
      modifies this`orders, this`currentOrderId
      ensures Valid()
      ensures r.id == old(currentOrderId) && r.createdAt == None && OrderInsert(r) == order
      ensures old(currentOrderId) !in old(orders)
      ensures orders == old(orders)[r.id := r]
      ensures currentOrderId == old(currentOrderId) + 1
    {
      var id := currentOrderId;
      currentOrderId := currentOrderId + 1;
      r := OrderWithId(order, id);
      orders := orders[id := r];
    }

    /** Stores `item` under the next order-item identifier and returns the record. */
    method AddOrderItem(item: InsertOrderItem) returns (r: OrderItem)
      requires Valid()
      modifies this`orderItems, this`currentOrderItemId
      ensures Valid()
      ensures r.id == old(currentOrderItemId) && OrderItemInsert(r) == item
      ensures old(currentOrderItemId) !in old(orderItems)
      ensures orderItems == old(orderItems)[r.id := r]
      ensures currentOrderItemId == old(currentOrderItemId) + 1
    {
      var id := currentOrderItemId;
      currentOrderItemId := currentOrderItemId + 1;
      r := OrderItemWithId(item, id);
      orderItems := orderItems[id := r];
    }
  }

  /** Two orders created one after the other get ids that differ by exactly 1. */
  method ConsecutiveOrders(s: MemStorage, a: InsertOrder, b: InsertOrder) returns (x: Order, y: Order)
    requires s.Valid()
    modifies s`orders, s`currentOrderId
    ensures s.Valid()
    ensures x.id == old(s.currentOrderId) && y.id == x.id + 1
    ensures OrderInsert(x) == a && OrderInsert(y) == b
    ensures s.orders == old(s.orders)[x.id := x][y.id := y]
  {
    x := s.CreateOrder(a);
    y := s.CreateOrder(b);
  }

  /** The categories of the seeded catalog, in order. */
  lemma SeededCategoryNames(ps: seq<Product>)
    requires ps == Numbered(SampleProducts(), 1)
    ensures |ps| == 5
    ensures ps[0].category == "fruits" && ps[1].category == "fruits"
    ensures ps[2].category == "vegetables" && ps[3].category == "vegetables"
    ensures ps[4].category == "dried"
  {
    var sample := SampleProducts();
    forall i | 0 <= i < 5 ensures ps[i].category == sample[i].category {
      assert ProductInsert(ps[i]) == sample[i];
    }
  }

  lemma FilterPrefix(ps: seq<Product>, k: nat, category: string)
    requires k < |ps|
    ensures FilterCategory(ps[..k + 1], category)
         == FilterCategory(ps[..k], category) + Keep(ps[k], category)
  {
    assert ps[..k + 1][..k] == ps[..k];
  }

  /** Filtering five products one by one. */
  lemma FilterFive(ps: seq<Product>, category: string)
    requires |ps| == 5
    ensures FilterCategory(ps, category)
         == Keep(ps[0], category) + Keep(ps[1], category) + Keep(ps[2], category)
          + Keep(ps[3], category) + Keep(ps[4], category)
  {
    assert ps[..0] == [];
    FilterPrefix(ps, 0, category);
    FilterPrefix(ps, 1, category);
    FilterPrefix(ps, 2, category);
    FilterPrefix(ps, 3, category);
    FilterPrefix(ps, 4, category);
    assert ps[..5] == ps;
  }

  /** The seeded catalog by category: two fruits, two vegetables, one dried, matched exactly. */
  lemma SeededCategories(ps: seq<Product>)
    requires ps == Numbered(SampleProducts(), 1)
    ensures |ps| == 5
    ensures ByCategoryOfFive(ps)
  {
    SeededCategoryNames(ps);
    CategoriesOfFive(ps);
  }

  ghost predicate ByCategoryOfFive(ps: seq<Product>)
    requires |ps| == 5
  {
    && FilterCategory(ps, "fruits") == [ps[0], ps[1]]
    && FilterCategory(ps, "vegetables") == [ps[2], ps[3]]
    && FilterCategory(ps, "dried") == [ps[4]]
    && FilterCategory(ps, "Fruits") == []
  }

  lemma CategoriesOfFive(ps: seq<Product>)
    requires |ps| == 5
    requires ps[0].category == "fruits" && ps[1].category == "fruits"
    requires ps[2].category == "vegetables" && ps[3].category == "vegetables"
    requires ps[4].category == "dried"
    ensures FilterCategory(ps, "fruits") == [ps[0], ps[1]]
    ensures FilterCategory(ps, "vegetables") == [ps[2], ps[3]]
    ensures FilterCategory(ps, "dried") == [ps[4]]
    ensures FilterCategory(ps, "Fruits") == []
  {
    FilterFive(ps, "fruits");
    FilterFive(ps, "vegetables");
    FilterFive(ps, "dried");
    FilterFive(ps, "Fruits");
  }

  /** A new store lists the five sample products under ids 1 to 5, in catalog order. */
  method SeededCatalog() returns (s: MemStorage)
    ensures s.Valid()
    ensures |s.GetProducts()| == 5
    ensures forall i :: 0 <= i < 5 ==> s.GetProducts()[i].id == i + 1
    ensures |s.GetProductsByCategory("fruits")| == 2
    ensures s.GetProductsByCategory("Fruits") == []
    ensures s.GetProduct(5).Some? && s.GetProduct(6) == None
  {
    s := new MemStorage();
    SeededCategories(s.GetProducts());
  }
}
