/**
 * offers.go: the offer routes with their prefix checks, the two query encoders,
 * and the in-place Swap/Len of the Offers slice used for sorting.
 */
module Offers {
  import opened Wrappers
  import opened Strconv
  import opened Strings
  import opened Paths
  import opened UrlValues
  import opened Requests

  const OfferIDPrefix: string := "off_"
  const OfferRequestIDPrefix: string := "orq_"

  /** The query parameters of ListOffers; an empty sort or a zero connection count is omitted. */
  datatype ListOffersParams = ListOffersParams(sort: string, maxConnections: Int64)
  {
    /** The query after Encode: sort and max_connections (in decimal, negatives included) Set when non-empty or non-zero. */
    function Encoded(q: Query): (r: Query)
      ensures AgreeOutside(q, r, {"sort", "max_connections"})
      ensures SetWhen(q, r, "sort", sort != "", sort)
      ensures SetWhen(q, r, "max_connections", maxConnections != 0, Itoa(maxConnections))
      ensures maxConnections != 0 ==> Atoi(First(r, "max_connections")) == Success(maxConnections)
    {
      var q1 := SetIf(q, "sort", sort != "", sort);
      var r := SetIf(q1, "max_connections", maxConnections != 0, Itoa(maxConnections));
      assert "sort" != "max_connections" by {
        assert |"sort"| == 4 && |"max_connections"| == 15;
      }
      AgreeOutsideThen(q, q1, r, {"sort"}, {"max_connections"});
      assert {"sort"} + {"max_connections"} == {"sort", "max_connections"};
      SetWhenThen(q, q1, r, "sort", sort != "", sort, {"max_connections"});
      r
    }

    /** Encode writes Encoded(q) into q in place and always returns a nil error. */
    method Encode(q: Values) returns (err: Option<string>)
      modifies q
      ensures q.entries == Encoded(old(q.entries))
      ensures err == None
    {
      if sort != "" {
        q.Set("sort", sort);
      }
      if maxConnections != 0 {
        q.Set("max_connections", Itoa(maxConnections));
      }
      return None;
    }
  }

  /** The query parameters of GetOffer. */
  datatype GetOfferParams = GetOfferParams(returnAvailableServices: bool)
  {
    /** The query after Encode: return_available_services Set to "true" when the flag is on; "false" is never written. */
    function Encoded(q: Query): (r: Query)
      ensures AgreeOutside(q, r, {"return_available_services"})
      ensures SetWhen(q, r, "return_available_services", returnAvailableServices, "true")
      ensures !returnAvailableServices ==> r == q
    {
      SetIf(q, "return_available_services", returnAvailableServices, "true")
    }

    /** Encode writes Encoded(q) into q in place and always returns a nil error. */
    method Encode(q: Values) returns (err: Option<string>)
      modifies q
      ensures q.entries == Encoded(old(q.entries))
      ensures err == None
    {
      if returnAvailableServices {
        q.Set("return_available_services", "true");
      }
      return None;
    }
  }

  /** Encoding the same list parameters twice leaves the query as encoding them once. */
  lemma ListOffersEncodeIdempotent(p: ListOffersParams, q: Query)
    ensures p.Encoded(p.Encoded(q)) == p.Encoded(q)
  {
  }

  /** UpdateOfferPassenger: PATCH /air/offers/{offerRequestID}/passengers/{passengerID}, no ID check. */
  function UpdateOfferPassenger<I>(offerRequestID: string, passengerID: string, input: I): (r: Outcome<I>)
    ensures Shaped(r, PATCH, Some(input), [], Single)
    ensures Split(r.path) == ["", "air", "offers"] + Split(offerRequestID) + ["passengers"] + Split(passengerID)
  {
    PassengerPath(offerRequestID, passengerID);
    Request(PATCH, "/" + "air" + "/" + "offers" + "/" + offerRequestID + "/" + "passengers" + "/" + passengerID, Some(input), [], Single)
  }

  /** The segments of the passenger path: both IDs are spliced in unescaped. */
  lemma PassengerPath(a: string, b: string)
    ensures Split("/" + "air" + "/" + "offers" + "/" + a + "/" + "passengers" + "/" + b)
            == ["", "air", "offers"] + Split(a) + ["passengers"] + Split(b)
  {
    SplitBase("air", "offers", a);
    SplitMiddle("/" + "air" + "/" + "offers" + "/" + a, "passengers", b);
  }

  /** IDs without a '/' determine the passenger path: two different ID pairs never share it. */
  lemma {:induction false} PassengerPathInjective<I>(a: string, b: string, c: string, d: string, x: I, y: I)
    requires NoSlash(a) && NoSlash(b) && NoSlash(c) && NoSlash(d)
    requires UpdateOfferPassenger(a, b, x).path == UpdateOfferPassenger(c, d, y).path
    ensures a == c && b == d
  {
    SplitNoSlash(a);
    SplitNoSlash(b);
    SplitNoSlash(c);
    SplitNoSlash(d);
    var s1 := ["", "air", "offers"] + Split(a) + ["passengers"] + Split(b);
    var s2 := ["", "air", "offers"] + Split(c) + ["passengers"] + Split(d);
    assert s1 == s2;
    assert s1[3] == a && s2[3] == c;
    assert s1[5] == b && s2[5] == d;
  }

  /** Since the IDs are not escaped, a '/' inside one moves segments between them: two ID pairs, one path. */
  lemma PassengerPathAmbiguous<I>(a: string, m: string, b: string, x: I)
    ensures UpdateOfferPassenger(a + "/" + "passengers" + "/" + m, b, x).path
            == UpdateOfferPassenger(a, m + "/" + "passengers" + "/" + b, x).path
  {
    assert "/" + "air" + "/" + "offers" + "/" + (a + "/" + "passengers" + "/" + m) + "/" + "passengers" + "/" + b
           == "/" + "air" + "/" + "offers" + "/" + a + "/" + "passengers" + "/" + (m + "/" + "passengers" + "/" + b);
  }

  /**
   * ListOffers: an empty ID or one without orq_ gives an error iterator and no
   * request; otherwise GET /air/offers with offer_request_id = ID, then the options.
   */
  function ListOffers(offerRequestID: string, options: seq<ListOffersParams>): (r: Outcome<ListOffersParams>)
    ensures offerRequestID == "" ==> r == Rejected("offerRequestId param is required")
    ensures offerRequestID != "" && !HasPrefix(offerRequestID, OfferRequestIDPrefix) ==>
              r == Rejected("offerRequestId should begin with " + OfferRequestIDPrefix)
    ensures HasPrefix(offerRequestID, OfferRequestIDPrefix) ==>
              Shaped(r, GET, None, [Pair("offer_request_id", offerRequestID)] + Encoders(options), Iter)
    ensures r.Request? ==> Split(r.path) == ["", "air", "offers"]
  {
    SplitCollection("air", "offers");
    if offerRequestID == "" then
      Rejected("offerRequestId param is required")
    else if !HasPrefix(offerRequestID, OfferRequestIDPrefix) then
      Rejected("offerRequestId should begin with " + OfferRequestIDPrefix)
    else
      Request(GET, "/" + "air" + "/" + "offers", None, [Pair("offer_request_id", offerRequestID)] + Encoders(options), Iter)
  }

  /** GetOffer: an ID without off_, the empty one included, is rejected; otherwise GET /air/offers/{id}. */
  function GetOffer(offerID: string, params: seq<GetOfferParams>): (r: Outcome<GetOfferParams>)
    ensures !HasPrefix(offerID, OfferIDPrefix) ==> r == Rejected("offerID should begin with " + OfferIDPrefix)
    ensures HasPrefix(offerID, OfferIDPrefix) ==> Shaped(r, GET, None, Encoders(params), Single)
    ensures r.Request? ==> Split(r.path) == ["", "air", "offers"] + Split(offerID)
  {
    SplitBase("air", "offers", offerID);
    if !HasPrefix(offerID, OfferIDPrefix) then
      Rejected("offerID should begin with " + OfferIDPrefix)
    else
      Request(GET, "/" + "air" + "/" + "offers" + "/" + offerID, None, Encoders(params), Single)
  }

  /** Swapped(s, i, j): s with the elements at i and j exchanged. */
  function Swapped<T>(s: seq<T>, i: int, j: int): (r: seq<T>)
    requires 0 <= i < |s| && 0 <= j < |s|
    ensures |r| == |s| && r[i] == s[j] && r[j] == s[i]
    ensures forall k :: 0 <= k < |s| && k != i && k != j ==> r[k] == s[k]
    ensures multiset(r) == multiset(s)
  {
    s[i := s[j]][j := s[i]]
  }

  /** Exchanging the same two positions twice restores the sequence. */
  lemma SwappedTwice<T>(s: seq<T>, i: int, j: int)
    requires 0 <= i < |s| && 0 <= j < |s|
    ensures Swapped(Swapped(s, i, j), i, j) == s
  {
  }

  /** Offers.Swap: exchanges two offers in place (sort.Interface only calls it with valid indices). */
  method Swap<T>(o: array<T>, i: int, j: int)
    requires 0 <= i < o.Length && 0 <= j < o.Length
    modifies o
    ensures o[..] == Swapped(old(o[..]), i, j)
  {
    o[i], o[j] := o[j], o[i];
  }

  /** Offers.Len: the number of offers. */
  function Len<T>(o: array<T>): (n: int)
    reads o
    ensures n == |o[..]|
  {
    o.Length
  }
}
