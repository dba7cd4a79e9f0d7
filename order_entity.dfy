/** Orders, their line items and status, the enriched read model, and the
    constraints on order requests. */
module OrderEntity {
  import opened Common
  import opened ProductEntity

  /** The five states an order can be in; a new order is `Pending`. */
  datatype OrderStatus = Pending | Confirmed | Shipped | Delivered | Cancelled

  /** The status as it travels on the wire. */
  function StatusName(s: OrderStatus): string {
    match s
    case Pending => "pending"
    case Confirmed => "confirmed"
    case Shipped => "shipped"
    case Delivered => "delivered"
    case Cancelled => "cancelled"
  }

  /** `IsEnum(OrderStatus)`: the member a wire string names, if any. */
  function ParseStatus(s: string): (r: Option<OrderStatus>)
    ensures forall st :: r == Some(st) <==> s == StatusName(st)
  {
    if s == "pending" then Some(Pending)
    else if s == "confirmed" then Some(Confirmed)
    else if s == "shipped" then Some(Shipped)
    else if s == "delivered" then Some(Delivered)
    else if s == "cancelled" then Some(Cancelled)
    else None
  }

  /** A line item; `price` is in integer cents. */
  datatype OrderItem = OrderItem(productId: string, quantity: int, price: int)

  datatype Order = Order(
    id: string,
    items: seq<OrderItem>,
    totalPrice: int,
    status: OrderStatus,
    createdAt: string,
    updatedAt: string)

  /** A line item with the product its id resolves to, when it resolves. */
  datatype OrderItemWithProduct = OrderItemWithProduct(
    productId: string,
    quantity: int,
    price: int,
    product: Option<Product>)

  /** An order whose items carry their products; every other field as stored. */
  datatype OrderWithProducts = OrderWithProducts(
    id: string,
    items: seq<OrderItemWithProduct>,
    totalPrice: int,
    status: OrderStatus,
    createdAt: string,
    updatedAt: string)

  /** `{...item, product}`. */
  function WithProduct(item: OrderItem, product: Option<Product>): (r: OrderItemWithProduct)
    ensures r.productId == item.productId && r.quantity == item.quantity && r.price == item.price
    ensures r.product == product
  {
    OrderItemWithProduct(item.productId, item.quantity, item.price, product)
  }

  const QuantityTooSmall := "Quantity must be at least 1"
  const ItemPriceNegative := "Price must be a positive number"
  const NoItems := "Order must have at least one item"
  const InvalidStatus := "Invalid order status"

  function ItemViolations(item: OrderItem): (r: seq<string>)
    ensures QuantityTooSmall in r <==> item.quantity < 1
    ensures ItemPriceNegative in r <==> item.price < 0
    ensures r == [] <==> item.quantity >= 1 && item.price >= 0
    ensures NoItems !in r
  {
    (if item.quantity < 1 then [QuantityTooSmall] else [])
      + (if item.price < 0 then [ItemPriceNegative] else [])
  }

  /** The messages of every item, one item after another. */
  function NestedViolations(items: seq<OrderItem>): (r: seq<string>)
    ensures r == [] <==> forall k :: 0 <= k < |items| ==> ItemViolations(items[k]) == []
    ensures NoItems !in r
  {
    if items == [] then []
    else ItemViolations(items[0]) + NestedViolations(items[1..])
  }

  /** A create request needs at least one item and every item valid. */
  function CreateOrderViolations(items: seq<OrderItem>): (r: seq<string>)
    ensures NoItems in r <==> items == []
    ensures r == [] <==>
      |items| >= 1 && forall k :: 0 <= k < |items| ==> items[k].quantity >= 1 && items[k].price >= 0
  {
    (if items == [] then [NoItems] else []) + NestedViolations(items)
  }

  datatype UpdateOrderDto = UpdateOrderDto(status: Option<string>)

  /** An update may omit the status; a status it gives must name a member. */
  function UpdateOrderViolations(d: UpdateOrderDto): (r: seq<string>)
    ensures r == [] <==> d.status.None? || exists st :: d.status.value == StatusName(st)
  {
    if d.status.Some? && ParseStatus(d.status.value).None? then [InvalidStatus] else []
  }
}
