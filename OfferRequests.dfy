/**
 * offerrequests.go: the offer-request routes and the two query encoders,
 * OfferRequestInput.Encode (a Set of return_offers) and
 * PartialOfferRequestInput.Encode (a direct assignment of the selected offers).
 */
module OfferRequests {
  import opened Wrappers
  import opened Strconv
  import opened Paths
  import opened UrlValues
  import opened Requests

  /**
   * The input of CreateOfferRequest. The search criteria (passengers, slices, cabin,
   * connections, private fares) are marshalled to the JSON body and kept abstract as S;
   * ReturnOffers and SupplierTimeout are tagged `json:"-"` and never reach the body.
   */
  datatype OfferRequestInput<S> = OfferRequestInput(search: S, returnOffers: bool, supplierTimeout: Int64)
  {
    /** The query after Encode: return_offers always Set to "true" or "false", replacing any earlier value. */
    function Encoded(q: Query): (r: Query)
      ensures AgreeOutside(q, r, {"return_offers"})
      ensures SetWhen(q, r, "return_offers", true, FormatBool(returnOffers))
      ensures First(r, "return_offers") in {"true", "false"}
      ensures ParseBool(First(r, "return_offers")) == returnOffers
      ensures "supplier_timeout" in r <==> "supplier_timeout" in q
    {
      q["return_offers" := [FormatBool(returnOffers)]]
    }

    /**
     * The query as the `url:"supplier_timeout,omitempty"` tag and the field's comment
     * intend: return_offers as before, and supplier_timeout Set to the decimal timeout
     * when it is non-zero.
     */
    function EncodedIntended(q: Query): (r: Query)
      ensures AgreeOutside(q, r, {"return_offers", "supplier_timeout"})
      ensures SetWhen(q, r, "return_offers", true, FormatBool(returnOffers))
      ensures SetWhen(q, r, "supplier_timeout", supplierTimeout != 0, Itoa(supplierTimeout))
      ensures supplierTimeout != 0 ==> Atoi(First(r, "supplier_timeout")) == Success(supplierTimeout)
    {
      var q1 := q["return_offers" := [FormatBool(returnOffers)]];
      if supplierTimeout != 0 then q1["supplier_timeout" := [Itoa(supplierTimeout)]] else q1
    }

    /** Encode writes Encoded(q) into q in place and always returns a nil error. */
    method Encode(q: Values) returns (err: Option<string>)
      modifies q
      ensures q.entries == Encoded(old(q.entries))
      ensures err == None
    {
      q.Set("return_offers", FormatBool(returnOffers));
      return None;
    }
  }

  /**
   * SupplierTimeout never reaches the query: two inputs that differ only in it
   * produce the same query, from any starting query.
   */
  lemma SupplierTimeoutNeverSent<S>(a: OfferRequestInput<S>, b: OfferRequestInput<S>, q: Query)
    requires a.search == b.search && a.returnOffers == b.returnOffers
    ensures a.Encoded(q) == b.Encoded(q)
  {
  }

  /** The intended encoder differs from the one written for every non-zero timeout on a query without one. */
  lemma SupplierTimeoutDropped<S>(a: OfferRequestInput<S>, q: Query)
    requires a.supplierTimeout != 0 && "supplier_timeout" !in q
    ensures "supplier_timeout" !in a.Encoded(q)
    ensures "supplier_timeout" in a.EncodedIntended(q)
  {
  }

  /** ReturnOffers = false is sent explicitly as return_offers=false (the expectation of client_test.go). */
  lemma ReturnOffersFalseSent<S>(a: OfferRequestInput<S>, q: Query)
    requires !a.returnOffers
    ensures a.Encoded(q)["return_offers"] == ["false"]
  {
  }

  /** The input of the partial-offer-request lookups: the request ID (in the path) and the selected partial offers. */
  datatype PartialOfferRequestInput = PartialOfferRequestInput(partialOfferRequestID: string, selectedPartialOffers: seq<string>)
  {
    /** The query after Encode: selected_partial_offer[] holds exactly the selected offers, in order, even none. */
    function Encoded(q: Query): (r: Query)
      ensures AgreeOutside(q, r, {"selected_partial_offer[]"})
      ensures "selected_partial_offer[]" in r
      ensures ValuesOf(r, "selected_partial_offer[]") == selectedPartialOffers
    {
      q["selected_partial_offer[]" := selectedPartialOffers]
    }

    /** Encode writes Encoded(q) into q in place and always returns a nil error. */
    method Encode(q: Values) returns (err: Option<string>)
      modifies q
      ensures q.entries == Encoded(old(q.entries))
      ensures err == None
    {
      q.Put("selected_partial_offer[]", selectedPartialOffers);
      return None;
    }
  }

  /** Encoding replaces rather than accumulates: only the last encoded selection remains. */
  lemma PartialEncodeLastWins(a: PartialOfferRequestInput, b: PartialOfferRequestInput, q: Query)
    ensures b.Encoded(a.Encoded(q)) == b.Encoded(q)
  {
  }

  /** CreateOfferRequest: POST /air/offer_requests with the input as body and its Encode as query. */
  function CreateOfferRequest<S>(input: OfferRequestInput<S>): (r: Outcome<OfferRequestInput<S>>)
    ensures Shaped(r, POST, Some(input), [Encoder(input)], Single)
    ensures Split(r.path) == ["", "air", "offer_requests"]
  {
    SplitCollection("air", "offer_requests");
    Request(POST, "/" + "air" + "/" + "offer_requests", Some(input), [Encoder(input)], Single)
  }

  /** CreatePartialOfferRequest: POST /air/partial_offer_requests with the input as body and no query parameters. */
  function CreatePartialOfferRequest<S>(input: OfferRequestInput<S>): (r: Outcome<OfferRequestInput<S>>)
    ensures Shaped(r, POST, Some(input), [], Single)
    ensures Split(r.path) == ["", "air", "partial_offer_requests"]
  {
    SplitCollection("air", "partial_offer_requests");
    Request(POST, "/" + "air" + "/" + "partial_offer_requests", Some(input), [], Single)
  }

  /** GetPartialOfferRequests: GET /air/partial_offer_requests/{id} with the selected offers as query; no ID check. */
  function GetPartialOfferRequests(input: PartialOfferRequestInput): (r: Outcome<PartialOfferRequestInput>)
    ensures Shaped(r, GET, None, [Encoder(input)], Single)
    ensures Split(r.path) == ["", "air", "partial_offer_requests"] + Split(input.partialOfferRequestID)
  {
    var id := input.partialOfferRequestID;
    SplitBase("air", "partial_offer_requests", id);
    Request(GET, "/" + "air" + "/" + "partial_offer_requests" + "/" + id, None, [Encoder(input)], Single)
  }

  /** The segments of the fares path: the request ID sits between the collection and "fares". */
  lemma FaresPath(id: string)
    ensures Split("/" + "air" + "/" + "partial_offer_requests" + "/" + id + "/" + "fares")
            == ["", "air", "partial_offer_requests"] + Split(id) + ["fares"]
  {
    SplitBase("air", "partial_offer_requests", id);
    SplitThen("/" + "air" + "/" + "partial_offer_requests" + "/" + id, "fares");
  }

  /** GetFullPartialOfferRequest: the same lookup one segment further, at .../{id}/fares. */
  function GetFullPartialOfferRequest(input: PartialOfferRequestInput): (r: Outcome<PartialOfferRequestInput>)
    ensures Shaped(r, GET, None, [Encoder(input)], Single)
    ensures Split(r.path) == ["", "air", "partial_offer_requests"] + Split(input.partialOfferRequestID) + ["fares"]
  {
    var id := input.partialOfferRequestID;
    FaresPath(id);
    Request(GET, "/" + "air" + "/" + "partial_offer_requests" + "/" + id + "/" + "fares", None, [Encoder(input)], Single)
  }

  /** The fares lookup is the partial-offer-request lookup with one more segment, and the same query. */
  lemma FullLookupExtendsLookup(input: PartialOfferRequestInput)
    ensures GetFullPartialOfferRequest(input).path == GetPartialOfferRequests(input).path + "/" + "fares"
    ensures Split(GetFullPartialOfferRequest(input).path) == Split(GetPartialOfferRequests(input).path) + ["fares"]
    ensures GetFullPartialOfferRequest(input).params == GetPartialOfferRequests(input).params
  {
  }

  /** GetOfferRequest: GET /air/offer_requests/{id}, no ID check. */
  function GetOfferRequest(id: string): (r: Outcome<EmptyPayload>)
    ensures Shaped(r, GET, None, [], Single)
    ensures Split(r.path) == ["", "air", "offer_requests"] + Split(id)
  {
    SplitBase("air", "offer_requests", id);
    Request(GET, "/" + "air" + "/" + "offer_requests" + "/" + id, None, [], Single)
  }

  /** ListOfferRequests: GET /air/offer_requests as an iterator, without query parameters. */
  function ListOfferRequests(): (r: Outcome<EmptyPayload>)
    ensures Shaped(r, GET, None, [], Iter)
    ensures Split(r.path) == ["", "air", "offer_requests"]
  {
    SplitCollection("air", "offer_requests");
    Request(GET, "/" + "air" + "/" + "offer_requests", None, [], Iter)
  }

  /** Creating and listing address the same collection. */
  lemma CreateAndListShareCollection<S>(input: OfferRequestInput<S>)
    ensures CreateOfferRequest(input).path == ListOfferRequests().path
  {
  }

  /** Every lookup addresses one member of that collection. */
  lemma GetExtendsList(id: string)
    ensures GetOfferRequest(id).path == ListOfferRequests().path + "/" + id
  {
  }
}
