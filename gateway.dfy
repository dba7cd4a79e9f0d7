/** The API gateway's order-creation endpoint: it checks the request body,
    dispatches it to the order service, and turns the outcome into an HTTP
    response. */
module Gateway {
  import opened Common

  /** A request item as it arrives: an object whose fields may be missing.
      A `null` item is `None` in the item list. */
  datatype RawItem = RawItem(productId: Option<string>, quantity: Option<int>)

  /** What the order service answers: an object carrying an `error` marker
      and a message, or any other value. */
  datatype Reply<T> = ErrorMarker(message: string) | Plain(value: T)

  /** An error raised while dispatching: an HTTP exception, or another error
      whose `status` may be missing. */
  datatype Failure =
    | HttpException(status: int, message: string)
    | OtherError(message: string, errorStatus: Option<int>)

  /** The outcome of the dispatch, including the gateway's own timer. */
  datatype Dispatch<T> = Replied(reply: Reply<T>) | Raised(failure: Failure)

  /** The endpoint's response: a body, or an HTTP error status and message. */
  datatype Response<T> = Respond(body: T) | HttpError(status: int, message: string)

  const BadRequest := 400
  const InternalServerError := 500
  const NoItemsMessage := "Order must have at least one item"
  const BadItemMessage := "Each order item must have a valid productId and quantity > 0"
  const DefaultFailure := "Failed to create order"
  /** What the 10-second timer rejects the race with. */
  const RequestTimeout: Failure := OtherError("Request timeout", None)

  /** `m || 'Failed to create order'`. */
  function MessageOr(m: string): (r: string)
    ensures r != ""
    ensures m != "" ==> r == m
    ensures m == "" ==> r == DefaultFailure
  {
    if m == "" then DefaultFailure else m
  }

  /** An item passes when its productId is a non-empty string and its
      quantity is present and positive. */
  predicate ItemWellFormed(item: RawItem) {
    && item.productId.Some? && item.productId.value != ""
    && item.quantity.Some? && item.quantity.value > 0
  }

  /** The item stops the loop: it is `null`, so reading its `productId`
      throws, or it is malformed. */
  predicate Stops(item: Option<RawItem>) {
    item.None? || !ItemWellFormed(item.value)
  }

  /** The position of the first item that stops the loop, or the length of
      the list when none does. */
  function FirstStop(items: seq<Option<RawItem>>): (k: nat)
    ensures k <= |items|
    ensures forall j :: 0 <= j < k ==> !Stops(items[j])
    ensures k < |items| ==> Stops(items[k])
  {
    if items == [] then 0
    else if Stops(items[0]) then 0
    else 1 + FirstStop(items[1..])
  }

  /** How the item loop ends. */
  datatype ItemCheck = Pass | Malformed | NullItem

  /** The item loop: every item passes, or the first item that stops it is
      malformed (an HTTP 400 is thrown) or `null` (a TypeError is thrown). */
  function CheckItems(items: seq<Option<RawItem>>): (r: ItemCheck)
    ensures r == Pass <==> forall k :: 0 <= k < |items| ==> items[k].Some? && ItemWellFormed(items[k].value)
    ensures r == NullItem <==>
      exists k :: 0 <= k < |items| && items[k].None? && forall j :: 0 <= j < k ==> !Stops(items[j])
    ensures r == Malformed <==>
      exists k :: 0 <= k < |items| && items[k].Some? && !ItemWellFormed(items[k].value)
                  && forall j :: 0 <= j < k ==> !Stops(items[j])
  {
    var k := FirstStop(items);
    assert forall i :: 0 <= i < |items| && Stops(items[i]) ==> k <= i;
    if k == |items| then Pass
    else if items[k].None? then NullItem
    else Malformed
  }

  /** The message of the TypeError that reading `productId` on a `null` item
      raises under Node.js. */
  const NullItemMessage := "Cannot read properties of null (reading 'productId')"
  /** That TypeError, as the catch block sees it: it carries no `status`. */
  const NullItemError: Failure := OtherError(NullItemMessage, None)

  /** The body passes validation: it has a non-empty item array whose items
      are all well-formed. `None` stands for a missing body, a missing
      `items` and an `items` that is not an array. */
  predicate Accepted(items: Option<seq<Option<RawItem>>>) {
    items.Some? && items.value != [] && CheckItems(items.value) == Pass
  }

  /** The catch block together with the error-marker check. */
  function Classify<T>(outcome: Dispatch<T>): (r: Response<T>)
    ensures r.Respond? <==> outcome.Replied? && outcome.reply.Plain?
    ensures r.Respond? ==> r.body == outcome.reply.value
    ensures outcome.Replied? && outcome.reply.ErrorMarker? ==>
      r == HttpError(BadRequest, MessageOr(outcome.reply.message))
    ensures outcome.Raised? && outcome.failure.HttpException? ==>
      r == HttpError(outcome.failure.status, outcome.failure.message)
    ensures outcome.Raised? && outcome.failure.OtherError? ==>
      r.HttpError? && r.message == MessageOr(outcome.failure.message) &&
      r.status == (if outcome.failure.errorStatus.Some? && outcome.failure.errorStatus.value != 0
                   then outcome.failure.errorStatus.value else InternalServerError)
  {
    match outcome
    case Replied(ErrorMarker(message)) => HttpError(BadRequest, MessageOr(message))
    case Replied(Plain(value)) => Respond(value)
    case Raised(HttpException(status, message)) => HttpError(status, message)
    case Raised(OtherError(message, status)) =>
      HttpError(if status.Some? && status.value != 0 then status.value else InternalServerError,
                MessageOr(message))
  }

  /** `POST /orders`: validation first, then the outcome of the dispatch. */
  function CreateOrder<T>(items: Option<seq<Option<RawItem>>>, outcome: Dispatch<T>): (r: Response<T>)
    ensures items.None? || items.value == [] ==> r == HttpError(BadRequest, NoItemsMessage)
    ensures items.Some? && items.value != [] && CheckItems(items.value) == Malformed ==>
      r == HttpError(BadRequest, BadItemMessage)
    ensures items.Some? && items.value != [] && CheckItems(items.value) == NullItem ==>
      r == HttpError(InternalServerError, NullItemMessage)
    ensures Accepted(items) ==> r == Classify(outcome)
    ensures r.Respond? <==> Accepted(items) && outcome.Replied? && outcome.reply.Plain?
    ensures r.Respond? ==> r.body == outcome.reply.value
  {
    if items.None? || items.value == [] then HttpError(BadRequest, NoItemsMessage)
    else match CheckItems(items.value)
      case Malformed => HttpError(BadRequest, BadItemMessage)
      case NullItem => Classify<T>(Raised(NullItemError))
      case Pass => Classify(outcome)
  }

  /** Validation completes before the dispatch: a refused body gets the same
      response whatever the order service would have done. It is a 400,
      except when a `null` item comes before any malformed one: the
      TypeError then becomes a 500. */
  lemma RefusedBeforeDispatch<T>(items: Option<seq<Option<RawItem>>>, o1: Dispatch<T>, o2: Dispatch<T>)
    requires !Accepted(items)
    ensures CreateOrder(items, o1) == CreateOrder(items, o2)
    ensures CreateOrder(items, o1).HttpError?
    ensures CreateOrder(items, o1).status ==
      if items.Some? && items.value != [] && CheckItems(items.value) == NullItem
      then InternalServerError else BadRequest
  {
  }

  /** A dispatch that the timer wins ends in a 500 "Request timeout". */
  lemma TimeoutIsServerError<T>(items: Option<seq<Option<RawItem>>>)
    requires Accepted(items)
    ensures CreateOrder<T>(items, Raised(RequestTimeout)) == HttpError(InternalServerError, "Request timeout")
  {
  }
}
