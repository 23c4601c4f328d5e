/**
 * orders.go: the order and airline-initiated-change routes (none of which checks
 * its ID against the declared ord_ prefix), the query encoder of
 * ListAirlineInitiatedChangesParams, and the amount accessors, which combine a raw
 * amount and currency through the currency library's constructor.
 */
module Orders {
  import opened Wrappers
  import opened Paths
  import opened UrlValues
  import opened Requests

  /** Declared by the source for order IDs but consulted by none of its routes. */
  const OrderIDPrefix: string := "ord_"

  /** CreateOrder: POST /air/orders with the input as body. */
  function CreateOrder<I>(input: I): (r: Outcome<I>)
    ensures Shaped(r, POST, Some(input), [], Single)
    ensures Split(r.path) == ["", "air", "orders"]
  {
    SplitCollection("air", "orders");
    Request(POST, "/" + "air" + "/" + "orders", Some(input), [], Single)
  }

  /** UpdateOrder: PATCH /air/orders/{id} with the update as body; the ID is not checked. */
  function UpdateOrder<U>(id: string, params: U): (r: Outcome<U>)
    ensures Shaped(r, PATCH, Some(params), [], Single)
    ensures Split(r.path) == ["", "air", "orders"] + Split(id)
  {
    SplitBase("air", "orders", id);
    Request(PATCH, "/" + "air" + "/" + "orders" + "/" + id, Some(params), [], Single)
  }

  /** GetOrder: GET /air/orders/{id}; the ID is not checked. */
  function GetOrder(id: string): (r: Outcome<EmptyPayload>)
    ensures Shaped(r, GET, None, [], Single)
    ensures Split(r.path) == ["", "air", "orders"] + Split(id)
  {
    SplitBase("air", "orders", id);
    Request(GET, "/" + "air" + "/" + "orders" + "/" + id, None, [], Single)
  }

  /** ListOrders: GET /air/orders as an iterator, each parameter value contributing through its encoder. */
  function ListOrders<P>(params: seq<P>): (r: Outcome<P>)
    ensures Shaped(r, GET, None, Encoders(params), Iter)
    ensures Split(r.path) == ["", "air", "orders"]
  {
    SplitCollection("air", "orders");
    Request(GET, "/" + "air" + "/" + "orders", None, Encoders(params), Iter)
  }

  /** The segments of /air/orders/{id}/{action} for a separator-free action. */
  lemma OrderActionPath(id: string, action: string)
    requires NoSlash(action)
    ensures Split("/" + "air" + "/" + "orders" + "/" + id + "/" + action) == ["", "air", "orders"] + Split(id) + [action]
  {
    SplitBase("air", "orders", id);
    SplitThen("/" + "air" + "/" + "orders" + "/" + id, action);
  }

  /** ListOrderServices: GET /air/orders/{id}/available_services, read as a whole list. */
  function ListOrderServices(id: string): (r: Outcome<EmptyPayload>)
    ensures Shaped(r, GET, None, [], Slice)
    ensures Split(r.path) == ["", "air", "orders"] + Split(id) + ["available_services"]
  {
    OrderActionPath(id, "available_services");
    Request(GET, "/" + "air" + "/" + "orders" + "/" + id + "/" + "available_services", None, [], Slice)
  }

  /** AddOrderService: POST /air/orders/{id}/services with the input as body. */
  function AddOrderService<I>(id: string, input: I): (r: Outcome<I>)
    ensures Shaped(r, POST, Some(input), [], Single)
    ensures Split(r.path) == ["", "air", "orders"] + Split(id) + ["services"]
  {
    OrderActionPath(id, "services");
    Request(POST, "/" + "air" + "/" + "orders" + "/" + id + "/" + "services", Some(input), [], Single)
  }

  /** UpdateAirlineInitiatedChange: PATCH /air/airline_initiated_changes/{id} with the input as body. */
  function UpdateAirlineInitiatedChange<I>(id: string, input: I): (r: Outcome<I>)
    ensures Shaped(r, PATCH, Some(input), [], Single)
    ensures Split(r.path) == ["", "air", "airline_initiated_changes"] + Split(id)
  {
    SplitBase("air", "airline_initiated_changes", id);
    Request(PATCH, "/" + "air" + "/" + "airline_initiated_changes" + "/" + id, Some(input), [], Single)
  }

  /** AcceptAirlineInitiatedChange: POST .../{id}/actions/accept with a nil body. */
  function AcceptAirlineInitiatedChange(id: string): (r: Outcome<EmptyPayload>)
    ensures Shaped(r, POST, None, [], Single)
    ensures Split(r.path) == ["", "air", "airline_initiated_changes"] + Split(id) + ["actions", "accept"]
  {
    ActionPath("air", "airline_initiated_changes", id, "actions", "accept");
    Request(POST, "/" + "air" + "/" + "airline_initiated_changes" + "/" + id + "/" + "actions" + "/" + "accept", None, [], Single)
  }

  /** ListAirlineInitiatedChanges: GET /air/airline_initiated_changes, read as a whole list. */
  function ListAirlineInitiatedChanges(params: seq<ListAirlineInitiatedChangesParams>): (r: Outcome<ListAirlineInitiatedChangesParams>)
    ensures Shaped(r, GET, None, Encoders(params), Slice)
    ensures Split(r.path) == ["", "air", "airline_initiated_changes"]
  {
    SplitCollection("air", "airline_initiated_changes");
    Request(GET, "/" + "air" + "/" + "airline_initiated_changes", None, Encoders(params), Slice)
  }

  /**
   * Order IDs go into the path unchecked: an ID that itself ends in a service segment
   * makes GetOrder address the service list of another order.
   */
  lemma GetOrderReachesServices(id: string)
    ensures GetOrder(id + "/" + "available_services").path == ListOrderServices(id).path
  {
    assert "/" + "air" + "/" + "orders" + "/" + (id + "/" + "available_services") == "/" + "air" + "/" + "orders" + "/" + id + "/" + "available_services";
  }

  /** The query parameters of ListAirlineInitiatedChanges. */
  datatype ListAirlineInitiatedChangesParams = ListAirlineInitiatedChangesParams(orderID: string)
  {
    /** The query after Encode: the order ID appended to order_id's values when non-empty; otherwise unchanged. */
    function Encoded(q: Query): (r: Query)
      ensures AgreeOutside(q, r, {"order_id"})
      ensures orderID != "" ==> "order_id" in r && r["order_id"] == ValuesOf(q, "order_id") + [orderID]
      ensures orderID == "" ==> r == q
    {
      if orderID != "" then q["order_id" := ValuesOf(q, "order_id") + [orderID]] else q
    }

    /** Encode writes Encoded(q) into q in place and always returns a nil error. */
    method Encode(q: Values) returns (err: Option<string>)
      modifies q
      ensures q.entries == Encoded(old(q.entries))
      ensures err == None
    {
      if orderID != "" {
        q.Add("order_id", orderID);
      }
      return None;
    }
  }

  /** Unlike the Set-based encoders, encoding twice is not encoding once: the order ID is appended twice. */
  lemma {:induction false} EncodeTwiceAppendsTwice(p: ListAirlineInitiatedChangesParams, q: Query)
    requires p.orderID != ""
    ensures ValuesOf(p.Encoded(p.Encoded(q)), "order_id") == ValuesOf(q, "order_id") + [p.orderID, p.orderID]
    ensures p.Encoded(p.Encoded(q)) != p.Encoded(q)
  {
    var once := p.Encoded(q);
    assert ValuesOf(once, "order_id") == ValuesOf(q, "order_id") + [p.orderID];
    assert ValuesOf(p.Encoded(once), "order_id") == ValuesOf(once, "order_id") + [p.orderID];
    assert |ValuesOf(p.Encoded(once), "order_id")| != |ValuesOf(once, "order_id")|;
  }

  /** currency.NewAmount(number, currencyCode): an amount, or None when either string is rejected. */
  type AmountParser<A> = (string, string) -> Option<A>

  /** The raw amount fields of an Order; base and tax amounts are optional (nil when absent from the JSON). */
  datatype Order = Order(
    rawBaseAmount: Option<string>, rawBaseCurrency: Option<string>,
    rawTaxAmount: Option<string>, rawTaxCurrency: Option<string>,
    rawTotalAmount: string, rawTotalCurrency: string)
  {
    /** BaseAmount: an amount exactly when both raw fields are present and parse together; nil otherwise. */
    function BaseAmount<A>(newAmount: AmountParser<A>): (r: Option<A>)
      ensures r.Some? <==> rawBaseAmount.Some? && rawBaseCurrency.Some?
                           && newAmount(rawBaseAmount.value, rawBaseCurrency.value).Some?
      ensures r.Some? ==> r == newAmount(rawBaseAmount.value, rawBaseCurrency.value)
    {
      OptionalAmount(rawBaseAmount, rawBaseCurrency, newAmount)
    }

    /** TaxAmount: an amount exactly when both raw fields are present and parse together; nil otherwise. */
    function TaxAmount<A>(newAmount: AmountParser<A>): (r: Option<A>)
      ensures r.Some? <==> rawTaxAmount.Some? && rawTaxCurrency.Some?
                           && newAmount(rawTaxAmount.value, rawTaxCurrency.value).Some?
      ensures r.Some? ==> r == newAmount(rawTaxAmount.value, rawTaxCurrency.value)
    {
      OptionalAmount(rawTaxAmount, rawTaxCurrency, newAmount)
    }

    /** TotalAmount: the parsed total, or the zero Amount when parsing fails (no error is reported). */
    function TotalAmount<A>(newAmount: AmountParser<A>, zero: A): (r: A)
      ensures newAmount(rawTotalAmount, rawTotalCurrency).Some? ==> r == newAmount(rawTotalAmount, rawTotalCurrency).value
      ensures newAmount(rawTotalAmount, rawTotalCurrency).None? ==> r == zero
    {
      TotalOrZero(rawTotalAmount, rawTotalCurrency, newAmount, zero)
    }
  }

  /** The raw penalty fields of a ChangeCondition, both optional. */
  datatype ChangeCondition = ChangeCondition(rawPenaltyAmount: Option<string>, rawPenaltyCurrency: Option<string>)
  {
    /** PenaltyAmount: an amount exactly when both raw fields are present and parse together; nil otherwise. */
    function PenaltyAmount<A>(newAmount: AmountParser<A>): (r: Option<A>)
      ensures r.Some? <==> rawPenaltyAmount.Some? && rawPenaltyCurrency.Some?
                           && newAmount(rawPenaltyAmount.value, rawPenaltyCurrency.value).Some?
      ensures r.Some? ==> r == newAmount(rawPenaltyAmount.value, rawPenaltyCurrency.value)
    {
      OptionalAmount(rawPenaltyAmount, rawPenaltyCurrency, newAmount)
    }
  }

  /** The raw total fields of a Service. */
  datatype Service = Service(rawTotalAmount: string, rawTotalCurrency: string)
  {
    /** TotalAmount: the parsed total, or the zero Amount when parsing fails (no error is reported). */
    function TotalAmount<A>(newAmount: AmountParser<A>, zero: A): (r: A)
      ensures newAmount(rawTotalAmount, rawTotalCurrency).Some? ==> r == newAmount(rawTotalAmount, rawTotalCurrency).value
      ensures newAmount(rawTotalAmount, rawTotalCurrency).None? ==> r == zero
    {
      TotalOrZero(rawTotalAmount, rawTotalCurrency, newAmount, zero)
    }
  }

  /** The shared shape of the optional accessors: both raw fields present, then the parser's verdict. */
  function OptionalAmount<A>(amount: Option<string>, currency: Option<string>, newAmount: AmountParser<A>): Option<A> {
    if amount.Some? && currency.Some? then newAmount(amount.value, currency.value) else None
  }

  /** The shared shape of the total accessors: the parser's amount, or zero on failure. */
  function TotalOrZero<A>(amount: string, currency: string, newAmount: AmountParser<A>, zero: A): A {
    match newAmount(amount, currency)
    case Some(a) => a
    case None => zero
  }

  /**
   * A total that fails to parse is indistinguishable from a genuine zero total:
   * the accessor reports no error, only the zero Amount.
   */
  lemma TotalHidesParseFailure<A>(broken: Order, zeroTotal: Order, newAmount: AmountParser<A>, zero: A)
    requires newAmount(broken.rawTotalAmount, broken.rawTotalCurrency).None?
    requires newAmount(zeroTotal.rawTotalAmount, zeroTotal.rawTotalCurrency) == Some(zero)
    ensures broken.TotalAmount(newAmount, zero) == zeroTotal.TotalAmount(newAmount, zero)
  {
  }
}
