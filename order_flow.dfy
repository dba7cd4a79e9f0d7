/** Order creation end to end: the order service's message handler turns a
    thrown error into an error-marker reply, which the gateway turns into a
    client error. */
module OrderFlow {
  import opened Common
  import opened ProductEntity
  import opened ProductService
  import opened OrderEntity
  import opened OrderService
  import opened Gateway

  /** The `create_order` handler: a result, or `{error: true, message}` with
      the thrown message or "Failed to create order" when it is empty. */
  function CreateReply<T>(r: Result<T>): (reply: Reply<T>)
    ensures r.Ok? <==> reply.Plain?
    ensures r.Ok? ==> reply.value == r.value
    ensures r.Err? ==> reply.message == MessageOr(r.message)
  {
    match r
    case Ok(value) => Plain(value)
    case Err(message) => ErrorMarker(MessageOr(message))
  }

  /** The gateway forwards the body it checked unchanged: the order service
      receives, item by item, the product ids and quantities of `body`. */
  ghost predicate Forwards(body: seq<Option<RawItem>>, items: seq<OrderItem>) {
    && |items| == |body|
    && forall k :: 0 <= k < |items| ==>
         body[k] == Some(RawItem(Some(items[k].productId), Some(items[k].quantity)))
  }

  /** Every refusal decided by the order service, including a failed product
      lookup, reaches the caller as a 400 carrying the service's message. */
  lemma RefusalIsBadRequest(body: Option<seq<Option<RawItem>>>, items: seq<OrderItem>, fetched: Fetch)
    requires Accepted(body) && Forwards(body.value, items)
    requires PlanOrder(items, fetched).Err?
    ensures CreateOrder<Order>(body, Replied(CreateReply(Err(PlanOrder(items, fetched).message))))
         == HttpError(BadRequest, MessageOr(PlanOrder(items, fetched).message))
  {
  }

  /** An accepted body whose items repeat a stored product is answered with
      400 "One or more products not found". */
  lemma RepeatedProductIsBadRequest(body: Option<seq<Option<RawItem>>>, items: seq<OrderItem>, ps: seq<Product>, i: nat, j: nat)
    requires Accepted(body) && Forwards(body.value, items)
    requires DistinctIds(ps)
    requires i < j < |body.value| && body.value[i].value.productId == body.value[j].value.productId
    ensures var plan := PlanOrder(items, Fetched(FilterByIds(ps, ProductIdsOf(items))));
      && plan.Err?
      && CreateOrder<Order>(body, Replied(CreateReply(Err(plan.message)))) == HttpError(BadRequest, ProductsNotFound)
  {
    assert items[i].productId == items[j].productId;
    RepeatedProductRejected(items, ps, i, j);
  }

  /** An item the gateway lets through meets the order service's quantity
      bound; the gateway does not check the item price. */
  lemma GatewayItemMeetsQuantityBound(item: RawItem, price: int)
    requires ItemWellFormed(item)
    ensures var it := OrderItem(item.productId.value, item.quantity.value, price);
      QuantityTooSmall !in ItemViolations(it)
      && (ItemViolations(it) == [] <==> price >= 0)
  {
  }
}
