/**
 * orderchanges.go: the order-change routes, the shared ID validation, and the
 * query encoder of ListOrderChangeOffersParams.
 */
module OrderChanges {
  import opened Wrappers
  import opened Strconv
  import opened Strings
  import opened Paths
  import opened UrlValues
  import opened Requests

  const OrderChangeRequestIDPrefix: string := "ocr_"
  const OrderChangeOfferIDPrefix: string := "oco_"
  const OrderChangeIDPrefix: string := "oce_"

  /**
   * validateID: None (a nil error) when id is non-empty and starts with prefix,
   * otherwise the error message; the empty ID is reported before the prefix.
   */
  function ValidateID(id: string, prefix: string): (err: Option<string>)
    ensures err.None? <==> id != "" && HasPrefix(id, prefix)
    ensures id == "" ==> err == Some("id param is required")
    ensures id != "" && !HasPrefix(id, prefix) ==> err == Some("id should begin with " + prefix)
  {
    if id == "" then Some("id param is required")
    else if !HasPrefix(id, prefix) then Some("id should begin with " + prefix)
    else None
  }

  /** For a non-empty prefix the emptiness check only changes the message: acceptance is the prefix test alone. */
  lemma {:induction false} ValidateIDIsPrefixTest(id: string, prefix: string)
    requires prefix != ""
    ensures ValidateID(id, prefix).None? <==> HasPrefix(id, prefix)
  {
    if id == "" {
      ShortLacksPrefix(id, prefix);
    }
  }

  /** Every ID built from the prefix is accepted, whatever follows the prefix. */
  lemma {:induction false} ValidateIDAcceptsPrefixed(prefix: string, rest: string)
    requires prefix != ""
    ensures ValidateID(prefix + rest, prefix) == None
  {
    PrefixOfConcat(prefix, rest);
  }

  /** CreateOrderChangeRequest: POST /air/order_change_requests with the parameters as body, no ID check. */
  function CreateOrderChangeRequest<P>(params: P): (r: Outcome<P>)
    ensures Shaped(r, POST, Some(params), [], Single)
    ensures Split(r.path) == ["", "air", "order_change_requests"]
  {
    SplitCollection("air", "order_change_requests");
    Request(POST, "/" + "air" + "/" + "order_change_requests", Some(params), [], Single)
  }

  /** GetOrderChangeRequest: an ocr_ ID, then GET /air/order_change_requests/{id}. */
  function GetOrderChangeRequest(id: string): (r: Outcome<EmptyPayload>)
    ensures ValidateID(id, OrderChangeRequestIDPrefix).Some? ==> r == Rejected(ValidateID(id, OrderChangeRequestIDPrefix).value)
    ensures ValidateID(id, OrderChangeRequestIDPrefix).None? ==> Shaped(r, GET, None, [], Single)
    ensures r.Request? ==> Split(r.path) == ["", "air", "order_change_requests"] + Split(id)
  {
    SplitBase("air", "order_change_requests", id);
    Guarded(ValidateID(id, OrderChangeRequestIDPrefix),
            Request(GET, "/" + "air" + "/" + "order_change_requests" + "/" + id, None, [], Single))
  }

  /**
   * CreatePendingOrderChange: an oco_ offer ID, then POST /air/order_changes whose
   * body has exactly one key, selected_order_change_offer, holding the offer ID.
   */
  function CreatePendingOrderChange(offerID: string): (r: Outcome<map<string, string>>)
    ensures ValidateID(offerID, OrderChangeOfferIDPrefix).Some? ==> r == Rejected(ValidateID(offerID, OrderChangeOfferIDPrefix).value)
    ensures ValidateID(offerID, OrderChangeOfferIDPrefix).None? ==> r.Request? && r.verb == POST && r.params == [] && r.terminal == Single
    ensures r.Request? ==> r.body.Some? && r.body.value.Keys == {"selected_order_change_offer"}
                           && r.body.value["selected_order_change_offer"] == offerID
    ensures r.Request? ==> Split(r.path) == ["", "air", "order_changes"]
  {
    SplitCollection("air", "order_changes");
    Guarded(ValidateID(offerID, OrderChangeOfferIDPrefix),
            Request(POST, "/" + "air" + "/" + "order_changes", Some(map["selected_order_change_offer" := offerID]), [], Single))
  }

  /**
   * ConfirmOrderChange as written: it checks the order-change-REQUEST prefix ocr_,
   * then POSTs the payment to /air/order_changes/{id}/actions/confirm.
   */
  function ConfirmOrderChange<P>(id: string, payment: P): (r: Outcome<P>)
    ensures ValidateID(id, OrderChangeRequestIDPrefix).Some? ==> r == Rejected(ValidateID(id, OrderChangeRequestIDPrefix).value)
    ensures ValidateID(id, OrderChangeRequestIDPrefix).None? ==> Shaped(r, POST, Some(payment), [], Single)
    ensures r.Request? ==> Split(r.path) == ["", "air", "order_changes"] + Split(id) + ["actions", "confirm"]
  {
    ActionPath("air", "order_changes", id, "actions", "confirm");
    Guarded(ValidateID(id, OrderChangeRequestIDPrefix),
            Request(POST, "/" + "air" + "/" + "order_changes" + "/" + id + "/" + "actions" + "/" + "confirm", Some(payment), [], Single))
  }

  /**
   * ConfirmOrderChange with the prefix of the resource it confirms: the ID in
   * /air/order_changes/{id} is an order change ID, oce_, as GetOrderChange checks.
   */
  function ConfirmOrderChangeIntended<P>(id: string, payment: P): (r: Outcome<P>)
    ensures ValidateID(id, OrderChangeIDPrefix).Some? ==> r == Rejected(ValidateID(id, OrderChangeIDPrefix).value)
    ensures ValidateID(id, OrderChangeIDPrefix).None? ==> Shaped(r, POST, Some(payment), [], Single)
    ensures r.Request? ==> Split(r.path) == ["", "air", "order_changes"] + Split(id) + ["actions", "confirm"]
  {
    ActionPath("air", "order_changes", id, "actions", "confirm");
    Guarded(ValidateID(id, OrderChangeIDPrefix),
            Request(POST, "/" + "air" + "/" + "order_changes" + "/" + id + "/" + "actions" + "/" + "confirm", Some(payment), [], Single))
  }

  /** GetOrderChange: an oce_ ID, then GET /air/order_changes/{id}. */
  function GetOrderChange(id: string): (r: Outcome<EmptyPayload>)
    ensures ValidateID(id, OrderChangeIDPrefix).Some? ==> r == Rejected(ValidateID(id, OrderChangeIDPrefix).value)
    ensures ValidateID(id, OrderChangeIDPrefix).None? ==> Shaped(r, GET, None, [], Single)
    ensures r.Request? ==> Split(r.path) == ["", "air", "order_changes"] + Split(id)
  {
    SplitBase("air", "order_changes", id);
    Guarded(ValidateID(id, OrderChangeIDPrefix), Request(GET, "/" + "air" + "/" + "order_changes" + "/" + id, None, [], Single))
  }

  /** GetOrderChangeOffer: an oco_ ID, then GET /air/order_change_offers/{id}. */
  function GetOrderChangeOffer(id: string): (r: Outcome<EmptyPayload>)
    ensures ValidateID(id, OrderChangeOfferIDPrefix).Some? ==> r == Rejected(ValidateID(id, OrderChangeOfferIDPrefix).value)
    ensures ValidateID(id, OrderChangeOfferIDPrefix).None? ==> Shaped(r, GET, None, [], Single)
    ensures r.Request? ==> Split(r.path) == ["", "air", "order_change_offers"] + Split(id)
  {
    SplitBase("air", "order_change_offers", id);
    Guarded(ValidateID(id, OrderChangeOfferIDPrefix), Request(GET, "/" + "air" + "/" + "order_change_offers" + "/" + id, None, [], Single))
  }

  /** ListOrderChangeOffers: GET /air/order_change_offers as an iterator, each parameter value encoded in order. */
  function ListOrderChangeOffers(params: seq<ListOrderChangeOffersParams>): (r: Outcome<ListOrderChangeOffersParams>)
    ensures Shaped(r, GET, None, Encoders(params), Iter)
    ensures Split(r.path) == ["", "air", "order_change_offers"]
  {
    SplitCollection("air", "order_change_offers");
    Request(GET, "/" + "air" + "/" + "order_change_offers", None, Encoders(params), Iter)
  }

  /**
   * The confirm quirk: every order change ID that GetOrderChange accepts is refused by
   * ConfirmOrderChange before any request, while the intended check accepts exactly those IDs.
   */
  lemma {:induction false} ConfirmRefusesOrderChangeIDs<P>(id: string, payment: P)
    requires HasPrefix(id, OrderChangeIDPrefix)
    ensures GetOrderChange(id).Request?
    ensures ConfirmOrderChange(id, payment) == Rejected("id should begin with " + OrderChangeRequestIDPrefix)
    ensures ConfirmOrderChangeIntended(id, payment).Request?
  {
    PrefixesExclusive(id, OrderChangeIDPrefix, OrderChangeRequestIDPrefix);
  }

  /** The intended confirm accepts exactly the IDs that GetOrderChange accepts. */
  lemma ConfirmIntendedMatchesGet<P>(id: string, payment: P)
    ensures ConfirmOrderChangeIntended(id, payment).Request? <==> GetOrderChange(id).Request?
  {
  }

  /** The query parameters of ListOrderChangeOffers; empty or zero fields are omitted. */
  datatype ListOrderChangeOffersParams = ListOrderChangeOffersParams(
    orderChangeRequestID: string, sort: string, maxConnections: Int64)
  {
    /** The query after Encode: each non-empty field Set as a one-element list, every other key untouched. */
    function Encoded(q: Query): (r: Query)
      ensures AgreeOutside(q, r, {"order_change_request_id", "sort", "max_connections"})
      ensures SetWhen(q, r, "order_change_request_id", orderChangeRequestID != "", orderChangeRequestID)
      ensures SetWhen(q, r, "sort", sort != "", sort)
      ensures SetWhen(q, r, "max_connections", maxConnections != 0, Itoa(maxConnections))
      ensures maxConnections != 0 ==> Atoi(First(r, "max_connections")) == Success(maxConnections)
    {
      var q1 := SetIf(q, "order_change_request_id", orderChangeRequestID != "", orderChangeRequestID);
      var q2 := SetIf(q1, "sort", sort != "", sort);
      var r := SetIf(q2, "max_connections", maxConnections != 0, Itoa(maxConnections));
      assert "order_change_request_id" !in {"sort", "max_connections"} && "sort" != "max_connections" by {
        assert |"order_change_request_id"| == 23 && |"sort"| == 4 && |"max_connections"| == 15;
      }
      AgreeOutsideThen(q1, q2, r, {"sort"}, {"max_connections"});
      AgreeOutsideThen(q, q1, r, {"order_change_request_id"}, {"sort"} + {"max_connections"});
      assert {"order_change_request_id"} + ({"sort"} + {"max_connections"})
          == {"order_change_request_id", "sort", "max_connections"};
      SetWhenThen(q, q1, r, "order_change_request_id", orderChangeRequestID != "", orderChangeRequestID,
                  {"sort"} + {"max_connections"});
      SetWhenThen(q1, q2, r, "sort", sort != "", sort, {"max_connections"});
      r
    }

    /** Encode writes Encoded(q) into v in place and always returns a nil error. */
    method Encode(v: Values) returns (err: Option<string>)
      modifies v
      ensures v.entries == Encoded(old(v.entries))
      ensures err == None
    {
      if orderChangeRequestID != "" {
        v.Set("order_change_request_id", orderChangeRequestID);
      }
      if sort != "" {
        v.Set("sort", sort);
      }
      if maxConnections != 0 {
        v.Set("max_connections", Itoa(maxConnections));
      }
      return None;
    }
  }

  /** Encoding the same parameters twice leaves the query as encoding them once. */
  lemma EncodeIdempotent(p: ListOrderChangeOffersParams, q: Query)
    ensures p.Encoded(p.Encoded(q)) == p.Encoded(q)
  {
  }
}
