/** The order store and the order-creation aggregation: orders resolve their
    products through the product lookup, are priced, and are kept in an
    in-memory table in insertion order. */
module OrderService {
  import opened Common
  import opened ProductEntity
  import opened ProductService
  import opened OrderEntity

  /** The answer of the product lookup (`POST /products/by-ids`): the
      products, or the message of the error the call failed with. */
  datatype Fetch = Fetched(products: seq<Product>) | FetchFailed(message: string)

  const ProductsNotFound := "One or more products not found"

  /** `items.map(item => item.productId)`: one id per item, repeats kept. */
  function ProductIdsOf(items: seq<OrderItem>): (r: seq<string>)
    ensures |r| == |items| && forall k :: 0 <= k < |items| ==> r[k] == items[k].productId
  {
    seq(|items|, k requires 0 <= k < |items| => items[k].productId)
  }

  // ---------------------------------------------------------------------------
  // Pricing

  /** An item's contribution: its first matching product's price times its
      quantity, or 0 when no product matches. */
  function LineTotal(item: OrderItem, products: seq<Product>): int {
    match FirstWithId(products, item.productId)
    case Some(p) => p.price * item.quantity
    case None => 0
  }

  /** The sum of the line totals. */
  function SumOfLines(items: seq<OrderItem>, products: seq<Product>): int {
    if items == [] then 0 else LineTotal(items[0], products) + SumOfLines(items[1..], products)
  }

  /** `items.reduce((sum, item) => sum + line, sum)`: a left fold. */
  function ReduceTotal(sum: int, items: seq<OrderItem>, products: seq<Product>): int
    decreases |items|
  {
    if items == [] then sum
    else ReduceTotal(sum + LineTotal(items[0], products), items[1..], products)
  }

  lemma {:induction false} ReduceIsSum(sum: int, items: seq<OrderItem>, products: seq<Product>)
    ensures ReduceTotal(sum, items, products) == sum + SumOfLines(items, products)
    decreases |items|
  {
    if items != [] {
      ReduceIsSum(sum + LineTotal(items[0], products), items[1..], products);
    }
  }

  /** The order total as the reduction computes it, starting from 0. */
  function TotalPrice(items: seq<OrderItem>, products: seq<Product>): (t: int)
    ensures t == SumOfLines(items, products)
  {
    ReduceIsSum(0, items, products);
    ReduceTotal(0, items, products)
  }

  /** The total of two item lists together is the sum of their totals. */
  lemma {:induction false} SumOfLinesAppend(a: seq<OrderItem>, b: seq<OrderItem>, products: seq<Product>)
    ensures SumOfLines(a + b, products) == SumOfLines(a, products) + SumOfLines(b, products)
  {
    if a == [] {
      assert a + b == b;
    } else {
      assert (a + b)[0] == a[0];
      assert (a + b)[1..] == a[1..] + b;
      SumOfLinesAppend(a[1..], b, products);
    }
  }

  /** With non-negative prices and quantities the total is non-negative. */
  lemma {:induction false} SumOfLinesNonNegative(items: seq<OrderItem>, products: seq<Product>)
    requires forall k :: 0 <= k < |products| ==> products[k].price >= 0
    requires forall k :: 0 <= k < |items| ==> items[k].quantity >= 0
    ensures SumOfLines(items, products) >= 0
  {
    if items != [] {
      SumOfLinesNonNegative(items[1..], products);
      match FirstWithId(products, items[0].productId)
      case Some(p) =>
        assert p == products[IndexOfId(products, items[0].productId)];
      case None =>
    }
  }

  /** What creation decides from the items and the lookup's answer: the
      total to store, or the message of the error it throws. */
  function PlanOrder(items: seq<OrderItem>, fetched: Fetch): (r: Result<int>)
    ensures fetched.FetchFailed? ==> r == Err(fetched.message)
    ensures fetched.Fetched? && |fetched.products| != |items| ==> r == Err(ProductsNotFound)
    ensures r.Ok? <==> fetched.Fetched? && |fetched.products| == |items|
    ensures r.Ok? ==> r.value == SumOfLines(items, fetched.products)
  {
    match fetched
    case FetchFailed(message) => Err(message)
    case Fetched(products) =>
      if |products| != |ProductIdsOf(items)| then Err(ProductsNotFound)
      else Ok(TotalPrice(items, products))
  }

  /** Creation against the product store's lookup (a table `ps` with distinct
      ids): it goes through iff no product id repeats and every id is
      stored, and the total then uses the stored prices. */
  lemma CreateAgainstStore(items: seq<OrderItem>, ps: seq<Product>)
    requires DistinctIds(ps)
    ensures var r := PlanOrder(items, Fetched(FilterByIds(ps, ProductIdsOf(items))));
      && (r.Ok? <==> NoDuplicates(ProductIdsOf(items))
                     && forall k :: 0 <= k < |items| ==> items[k].productId in IdsOf(ps))
      && (r.Ok? ==> r.value == SumOfLines(items, ps))
      && (r.Err? ==> r.message == ProductsNotFound)
  {
    var ids := ProductIdsOf(items);
    FilterCountExact(ps, ids);
    SumOfLinesInFilter(items, ps, ids);
  }

  /** Pricing against the filtered table equals pricing against the whole
      table when every item's id was asked for. */
  lemma {:induction false} SumOfLinesInFilter(items: seq<OrderItem>, ps: seq<Product>, ids: seq<string>)
    requires forall k :: 0 <= k < |items| ==> items[k].productId in ids
    ensures SumOfLines(items, FilterByIds(ps, ids)) == SumOfLines(items, ps)
  {
    if items != [] {
      FirstWithIdInFilter(ps, ids, items[0].productId);
      SumOfLinesInFilter(items[1..], ps, ids);
    }
  }

  /** An order that lists the same product twice is refused by the store's
      lookup, although the product exists: the lookup answers each stored
      product once while the check counts the items. */
  lemma RepeatedProductRejected(items: seq<OrderItem>, ps: seq<Product>, i: nat, j: nat)
    requires DistinctIds(ps)
    requires i < j < |items| && items[i].productId == items[j].productId
    ensures PlanOrder(items, Fetched(FilterByIds(ps, ProductIdsOf(items)))) == Err(ProductsNotFound)
  {
    var ids := ProductIdsOf(items);
    assert ids[i] == ids[j];
    FilterCountExact(ps, ids);
  }

  // ---------------------------------------------------------------------------
  // Enrichment

  /** The order with each item joined to the first product of its id. */
  function EnrichOrder(o: Order, products: seq<Product>): (r: OrderWithProducts)
    ensures r.id == o.id && r.totalPrice == o.totalPrice && r.status == o.status
    ensures r.createdAt == o.createdAt && r.updatedAt == o.updatedAt
    ensures |r.items| == |o.items|
    ensures forall k :: 0 <= k < |o.items| ==>
      r.items[k] == WithProduct(o.items[k], FirstWithId(products, o.items[k].productId))
  {
    var items := seq(|o.items|, k requires 0 <= k < |o.items| =>
                       WithProduct(o.items[k], FirstWithId(products, o.items[k].productId)));
    OrderWithProducts(o.id, items, o.totalPrice, o.status, o.createdAt, o.updatedAt)
  }

  /** Enriching against the filtered table equals enriching against the
      whole table when every item's id was asked for: each item gets the
      product currently stored under its id, or none if it was removed. */
  lemma EnrichAgainstStore(o: Order, ps: seq<Product>, ids: seq<string>)
    requires forall k :: 0 <= k < |o.items| ==> o.items[k].productId in ids
    ensures EnrichOrder(o, FilterByIds(ps, ids)) == EnrichOrder(o, ps)
  {
    forall k | 0 <= k < |o.items|
      ensures FirstWithId(FilterByIds(ps, ids), o.items[k].productId) == FirstWithId(ps, o.items[k].productId)
    {
      FirstWithIdInFilter(ps, ids, o.items[k].productId);
    }
  }

  /** `orders.flatMap(o => o.items.map(i => i.productId))`. */
  function AllProductIds(orders: seq<Order>): (r: seq<string>)
    ensures forall k, j :: 0 <= k < |orders| && 0 <= j < |orders[k].items| ==>
      orders[k].items[j].productId in r
    ensures forall x :: x in r ==>
      exists k, j :: 0 <= k < |orders| && 0 <= j < |orders[k].items| && orders[k].items[j].productId == x
  {
    if orders == [] then []
    else
      var head, rest := ProductIdsOf(orders[0].items), AllProductIds(orders[1..]);
      assert forall k :: 1 <= k < |orders| ==> orders[k] == orders[1..][k - 1];
      forall x | x in head
        ensures exists j :: 0 <= j < |orders[0].items| && orders[0].items[j].productId == x
      {
        var j :| 0 <= j < |head| && head[j] == x;
      }
      head + rest
  }

  /** When the orders carry no product id at all, none of them has an item. */
  lemma NoIdsNoItems(orders: seq<Order>)
    ensures AllProductIds(orders) == [] ==> forall k :: 0 <= k < |orders| ==> orders[k].items == []
  {
    forall k | 0 <= k < |orders| && orders[k].items != []
      ensures orders[k].items[0].productId in AllProductIds(orders)
    {
    }
  }

  ghost predicate DistinctOrderIds(os: seq<Order>) {
    forall i, j :: 0 <= i < j < |os| ==> os[i].id != os[j].id
  }

  function OrderId(o: Order): string { o.id }

  /** `findIndex(o => o.id === id)`. */
  function OrderIndexOfId(os: seq<Order>, id: string): int {
    IndexWhere(os, OrderId, id)
  }

  /** `{...order, ...dto, updatedAt: now}`: any given status is taken,
      whatever the current one; nothing else but the update time changes. */
  function ApplyStatus(o: Order, status: Option<OrderStatus>, now: string): (r: Order)
    ensures r.id == o.id && r.items == o.items && r.totalPrice == o.totalPrice
    ensures r.createdAt == o.createdAt && r.updatedAt == now
    ensures r.status == if status.Some? then status.value else o.status
  {
    o.(status := status.GetOr(o.status), updatedAt := now)
  }

  /** The order service of the system. */
  class AppService {
    var orders: seq<Order>
    var idCounter: nat
    /** Every id this store has ever handed out, including removed ones. */
    ghost var issued: set<string>

    ghost predicate Valid()
      reads this
    {
      && 1 <= idCounter
      && DistinctOrderIds(orders)
      && (forall k :: 0 <= k < |orders| ==> orders[k].id in issued)
      && (forall s :: s in issued ==> IssuedBefore(s, idCounter))
    }

    constructor ()
      ensures Valid()
      ensures orders == [] && idCounter == 1 && issued == {}
    {
      orders := [];
      idCounter := 1;
      issued := {};
    }

    /** Looks the items' products up, refuses the order when the lookup
        fails or answers a different number of products than there are
        items, and otherwise stores a pending order priced from the answer.
        Nothing changes on refusal. */
    method Create(items: seq<OrderItem>, lookup: seq<string> -> Fetch, now: string)
      returns (r: Result<Order>)
      requires Valid()
      modifies this
      ensures Valid()
      ensures var plan := PlanOrder(items, lookup(ProductIdsOf(items)));
        if plan.Err? then
          && r == Err(plan.message)
          && orders == old(orders) && idCounter == old(idCounter) && issued == old(issued)
        else
          && r == Ok(Order(Decimal(old(idCounter)), items, plan.value, Pending, now, now))
          && orders == old(orders) + [r.value]
          && idCounter == old(idCounter) + 1
          && r.value.id !in old(issued) && issued == old(issued) + {r.value.id}
    {
      var productIds := ProductIdsOf(items);
      var fetched := lookup(productIds);
      match fetched
      case FetchFailed(message) =>
        return Err(message);
      case Fetched(products) =>
        if |products| != |productIds| {
          return Err(ProductsNotFound);
        }
        var totalPrice := TotalPrice(items, products);
        FreshId(issued, idCounter);
        var order := Order(Decimal(idCounter), items, totalPrice, Pending, now, now);
        idCounter := idCounter + 1;
        orders := orders + [order];
        issued := issued + {order.id};
        r := Ok(order);
    }

    /** The stored orders, in insertion order. */
    function FindAll(): (r: seq<Order>)
      reads this
      ensures |r| == |orders| && forall k :: 0 <= k < |r| ==> r[k] == orders[k]
    {
      orders
    }

    /** The order with the given id, or none. */
    function FindOne(id: string): (r: Option<Order>)
      reads this
      ensures r.None? <==> forall k :: 0 <= k < |orders| ==> orders[k].id != id
      ensures r.Some? ==> r.value.id == id && r.value == orders[OrderIndexOfId(orders, id)]
      ensures Valid() && r.Some? ==>
        forall k :: 0 <= k < |orders| && orders[k].id == id ==> orders[k] == r.value
    {
      var i := OrderIndexOfId(orders, id);
      if i == -1 then None else Some(orders[i])
    }

    /** Every order with its items' products, from one lookup of the
        distinct product ids, and no lookup at all when there are none. */
    function FindAllWithProducts(lookup: seq<string> -> Fetch): (r: Result<seq<OrderWithProducts>>)
      reads this
      ensures AllProductIds(orders) == [] ==>
        r.Ok? && forall k :: 0 <= k < |orders| ==> orders[k].items == []
      ensures AllProductIds(orders) != [] ==>
        (r.Err? <==> lookup(Dedup(AllProductIds(orders))).FetchFailed?)
      ensures r.Err? ==> r.message == lookup(Dedup(AllProductIds(orders))).message
      ensures r.Ok? ==>
        var products := if AllProductIds(orders) == [] then [] else lookup(Dedup(AllProductIds(orders))).products;
        |r.value| == |orders| && forall k :: 0 <= k < |orders| ==> r.value[k] == EnrichOrder(orders[k], products)
    {
      NoIdsNoItems(orders);
      var allProductIds := Dedup(AllProductIds(orders));
      var fetched := if |allProductIds| > 0 then lookup(allProductIds) else Fetched([]);
      match fetched
      case FetchFailed(message) => Err(message)
      case Fetched(products) =>
        Ok(seq(|orders|, k requires 0 <= k < |orders| reads this => EnrichOrder(orders[k], products)))
    }

    /** The order with the given id and its items' products; none, without
        a lookup, when there is no such order. */
    function FindOneWithProducts(id: string, lookup: seq<string> -> Fetch): (r: Result<Option<OrderWithProducts>>)
      reads this
      ensures FindOne(id).None? ==> r == Ok(None)
      ensures FindOne(id).Some? ==>
        var o := FindOne(id).value;
        match lookup(ProductIdsOf(o.items))
        case FetchFailed(message) => r == Err(message)
        case Fetched(products) => r == Ok(Some(EnrichOrder(o, products)))
    {
      match FindOne(id)
      case None => Ok(None)
      case Some(order) =>
        match lookup(ProductIdsOf(order.items))
        case FetchFailed(message) => Err(message)
        case Fetched(products) => Ok(Some(EnrichOrder(order, products)))
    }

    /** Sets the status (when given) of the order with the given id and
        returns it, or returns none and changes nothing. */
    method Update(id: string, status: Option<OrderStatus>, now: string) returns (r: Option<Order>)
      requires Valid()
      modifies this
      ensures Valid()
      ensures idCounter == old(idCounter) && issued == old(issued)
      ensures var i := OrderIndexOfId(old(orders), id);
        if i == -1 then
          r.None? && orders == old(orders)
        else
          && r == Some(ApplyStatus(old(orders)[i], status, now))
          && orders == old(orders)[i := r.value]
    {
      var i := OrderIndexOfId(orders, id);
      if i == -1 {
        return None;
      }
      var updated := ApplyStatus(orders[i], status, now);
      orders := orders[i := updated];
      r := Some(updated);
    }

    /** Deletes the order with the given id; says whether there was one. */
    method Remove(id: string) returns (removed: bool)
      requires Valid()
      modifies this
      ensures Valid()
      ensures idCounter == old(idCounter) && issued == old(issued)
      ensures var i := OrderIndexOfId(old(orders), id);
        && removed == (i != -1)
        && orders == if i == -1 then old(orders) else old(orders)[..i] + old(orders)[i + 1..]
      ensures forall k :: 0 <= k < |orders| ==> orders[k].id != id
    {
      var i := OrderIndexOfId(orders, id);
      if i == -1 {
        return false;
      }
      orders := orders[..i] + orders[i + 1..];
      removed := true;
    }
  }

  /** Listing against the product store's lookup: one entry per order, each
      item carrying the product currently stored under its id, or none. */
  lemma ListAgainstStore(svc: AppService, ps: seq<Product>)
    ensures var r := svc.FindAllWithProducts(ids => Fetched(FilterByIds(ps, ids)));
      r.Ok? && |r.value| == |svc.orders| &&
      forall k :: 0 <= k < |svc.orders| ==> r.value[k] == EnrichOrder(svc.orders[k], ps)
  {
    var all := AllProductIds(svc.orders);
    var ids := Dedup(all);
    forall k | 0 <= k < |svc.orders|
      ensures EnrichOrder(svc.orders[k], if all == [] then [] else FilterByIds(ps, ids)) == EnrichOrder(svc.orders[k], ps)
    {
      var o := svc.orders[k];
      forall j | 0 <= j < |o.items| ensures o.items[j].productId in ids {
        assert o.items[j].productId in all;
        assert o.items[j].productId in Elements(all);
      }
      EnrichAgainstStore(o, ps, ids);
    }
  }

  /** Reading one order against the product store's lookup: each item
      carries the product currently stored under its id, or none. */
  lemma FindOneAgainstStore(svc: AppService, id: string, ps: seq<Product>)
    requires svc.FindOne(id).Some?
    ensures svc.FindOneWithProducts(id, ids => Fetched(FilterByIds(ps, ids)))
         == Ok(Some(EnrichOrder(svc.FindOne(id).value, ps)))
  {
    var o := svc.FindOne(id).value;
    EnrichAgainstStore(o, ps, ProductIdsOf(o.items));
  }
}
