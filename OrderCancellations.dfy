/**
 * ordercancellations.go: the order-cancellation routes, their ore_ prefix check
 * (whose error message slices the first four bytes of the ID), and the query
 * encoder of ListOrderCancellationParams.
 */
module OrderCancellations {
  import opened Wrappers
  import opened Strings
  import opened Paths
  import opened UrlValues
  import opened Requests

  const OrderCancellationIDPrefix: string := "ore_"

  /** The body of CreateOrderCancellation, marshalled as {"order_id": ...}. */
  datatype OrderCancellationRequest = OrderCancellationRequest(orderID: string)

  /**
   * The failed prefix check as written: the message quotes id[:4], which panics when
   * the ID is shorter than four bytes (IDs are modelled one character per byte).
   */
  function RejectID<P>(id: string): (r: Outcome<P>)
    requires !HasPrefix(id, OrderCancellationIDPrefix)
    ensures r.Panic? <==> |id| < 4
    ensures |id| >= 4 ==> r == Rejected("orderCancellationID should have prefix " + OrderCancellationIDPrefix
                                        + ", got " + id[..4])
  {
    if |id| < 4 then Panic
    else Rejected("orderCancellationID should have prefix " + OrderCancellationIDPrefix + ", got " + id[..4])
  }

  /** The failed prefix check as intended: an error for every ID, quoting at most its first four bytes. */
  function RejectIDIntended<P>(id: string): (r: Outcome<P>)
    ensures r.Rejected?
    ensures |id| >= 4 && !HasPrefix(id, OrderCancellationIDPrefix) ==> r == RejectID(id)
  {
    var shown := if |id| < 4 then id else id[..4];
    Rejected("orderCancellationID should have prefix " + OrderCancellationIDPrefix + ", got " + shown)
  }

  /** CreateOrderCancellation: POST /air/order_cancellations with body {"order_id": orderID}, no ID check. */
  function CreateOrderCancellation(orderID: string): (r: Outcome<OrderCancellationRequest>)
    ensures Shaped(r, POST, Some(OrderCancellationRequest(orderID)), [], Single)
    ensures Split(r.path) == ["", "air", "order_cancellations"]
  {
    SplitCollection("air", "order_cancellations");
    Request(POST, "/" + "air" + "/" + "order_cancellations", Some(OrderCancellationRequest(orderID)), [], Single)
  }

  /**
   * ConfirmOrderCancellation as written: an ID without ore_ is rejected (or panics,
   * when shorter than four bytes); otherwise POST .../{id}/actions/confirm with no body.
   */
  function ConfirmOrderCancellation(id: string): (r: Outcome<EmptyPayload>)
    ensures !HasPrefix(id, OrderCancellationIDPrefix) ==> r == RejectID(id)
    ensures HasPrefix(id, OrderCancellationIDPrefix) ==> Shaped(r, POST, None, [], Single)
    ensures r.Request? ==> Split(r.path) == ["", "air", "order_cancellations"] + Split(id) + ["actions", "confirm"]
  {
    ActionPath("air", "order_cancellations", id, "actions", "confirm");
    if !HasPrefix(id, OrderCancellationIDPrefix) then RejectID(id)
    else Request(POST, "/" + "air" + "/" + "order_cancellations" + "/" + id + "/" + "actions" + "/" + "confirm", None, [], Single)
  }

  /** ConfirmOrderCancellation with the intended rejection: never panics. */
  function ConfirmOrderCancellationIntended(id: string): (r: Outcome<EmptyPayload>)
    ensures !r.Panic?
    ensures HasPrefix(id, OrderCancellationIDPrefix) ==> r == ConfirmOrderCancellation(id)
    ensures !HasPrefix(id, OrderCancellationIDPrefix) ==> r.Rejected?
  {
    if !HasPrefix(id, OrderCancellationIDPrefix) then RejectIDIntended(id)
    else Request(POST, "/" + "air" + "/" + "order_cancellations" + "/" + id + "/" + "actions" + "/" + "confirm", None, [], Single)
  }

  /**
   * GetOrderCancellation as written: an ID without ore_ is rejected (or panics, when
   * shorter than four bytes); otherwise GET /air/order_cancellations/{id}.
   */
  function GetOrderCancellation(id: string): (r: Outcome<EmptyPayload>)
    ensures !HasPrefix(id, OrderCancellationIDPrefix) ==> r == RejectID(id)
    ensures HasPrefix(id, OrderCancellationIDPrefix) ==> Shaped(r, GET, None, [], Single)
    ensures r.Request? ==> Split(r.path) == ["", "air", "order_cancellations"] + Split(id)
  {
    SplitBase("air", "order_cancellations", id);
    if !HasPrefix(id, OrderCancellationIDPrefix) then RejectID(id)
    else Request(GET, "/" + "air" + "/" + "order_cancellations" + "/" + id, None, [], Single)
  }

  /** GetOrderCancellation with the intended rejection: never panics. */
  function GetOrderCancellationIntended(id: string): (r: Outcome<EmptyPayload>)
    ensures !r.Panic?
    ensures HasPrefix(id, OrderCancellationIDPrefix) ==> r == GetOrderCancellation(id)
    ensures !HasPrefix(id, OrderCancellationIDPrefix) ==> r.Rejected?
  {
    if !HasPrefix(id, OrderCancellationIDPrefix) then RejectIDIntended(id)
    else Request(GET, "/" + "air" + "/" + "order_cancellations" + "/" + id, None, [], Single)
  }

  /** The panic: every ID shorter than four bytes, the empty one included, crashes both methods instead of failing. */
  lemma ShortIDsPanic(id: string)
    requires |id| < 4
    ensures ConfirmOrderCancellation(id) == Panic
    ensures GetOrderCancellation(id) == Panic
  {
    ShortLacksPrefix(id, OrderCancellationIDPrefix);
  }

  /** The empty ID, which callers pass when they have none, is one such input. */
  lemma EmptyIDPanics()
    ensures ConfirmOrderCancellation("") == Panic && GetOrderCancellation("") == Panic
  {
    ShortIDsPanic("");
  }

  /**
   * ListOrderCancellations as written: GET /air/orders as an iterator, the very request
   * ListOrders makes with the same parameters, although it decodes order cancellations.
   */
  function ListOrderCancellations(params: seq<ListOrderCancellationParams>): (r: Outcome<ListOrderCancellationParams>)
    ensures Shaped(r, GET, None, Encoders(params), Iter)
    ensures Split(r.path) == ["", "air", "orders"]
  {
    SplitCollection("air", "orders");
    Request(GET, "/" + "air" + "/" + "orders", None, Encoders(params), Iter)
  }

  /** ListOrderCancellations on the cancellation collection, where Create and Get address it. */
  function ListOrderCancellationsIntended(params: seq<ListOrderCancellationParams>): (r: Outcome<ListOrderCancellationParams>)
    ensures Shaped(r, GET, None, Encoders(params), Iter)
    ensures Split(r.path) == ["", "air", "order_cancellations"]
  {
    SplitCollection("air", "order_cancellations");
    Request(GET, "/" + "air" + "/" + "order_cancellations", None, Encoders(params), Iter)
  }

  /**
   * The path quirk: the collection listed as written is not the one Create posts to,
   * while the intended listing addresses exactly that collection.
   */
  lemma ListMissesCancellations(params: seq<ListOrderCancellationParams>, orderID: string)
    ensures ListOrderCancellations(params).path != CreateOrderCancellation(orderID).path
    ensures ListOrderCancellationsIntended(params).path == CreateOrderCancellation(orderID).path
  {
    var listed := Split(ListOrderCancellations(params).path);
    var created := Split(CreateOrderCancellation(orderID).path);
    assert listed[2] != created[2];
  }

  /** The query parameters of ListOrderCancellations. */
  datatype ListOrderCancellationParams = ListOrderCancellationParams(orderID: string)
  {
    /** The query after Encode: order_id Set to the order ID when it is non-empty; otherwise the query is unchanged. */
    function Encoded(q: Query): (r: Query)
      ensures AgreeOutside(q, r, {"order_id"})
      ensures SetWhen(q, r, "order_id", orderID != "", orderID)
      ensures orderID == "" ==> r == q
    {
      SetIf(q, "order_id", orderID != "", orderID)
    }

    /** Encode writes Encoded(v) into v in place and always returns a nil error. */
    method Encode(v: Values) returns (err: Option<string>)
      modifies v
      ensures v.entries == Encoded(old(v.entries))
      ensures err == None
    {
      if orderID != "" {
        v.Set("order_id", orderID);
      }
      return None;
    }
  }
}
