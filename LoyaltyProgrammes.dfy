/** loyaltyprogrammes.go: the two read-only loyalty-programme routes. */
module LoyaltyProgrammes {
  import opened Wrappers
  import opened Paths
  import opened Requests

  /** ListLoyaltyProgramme: GET /air/loyalty_programmes as an iterator, without query parameters. */
  function ListLoyaltyProgramme(): (r: Outcome<EmptyPayload>)
    ensures Shaped(r, GET, None, [], Iter)
    ensures Split(r.path) == ["", "air", "loyalty_programmes"]
  {
    SplitCollection("air", "loyalty_programmes");
    Request(GET, "/" + "air" + "/" + "loyalty_programmes", None, [], Iter)
  }

  /** GetLoyaltyProgramme: GET /air/loyalty_programmes/{id}; the ID is not checked. */
  function GetLoyaltyProgramme(id: string): (r: Outcome<EmptyPayload>)
    ensures Shaped(r, GET, None, [], Single)
    ensures Split(r.path) == ["", "air", "loyalty_programmes"] + Split(id)
  {
    SplitBase("air", "loyalty_programmes", id);
    Request(GET, "/" + "air" + "/" + "loyalty_programmes" + "/" + id, None, [], Single)
  }

  /** The lookup path is the list path followed by "/" and the ID. */
  lemma GetExtendsList(id: string)
    ensures GetLoyaltyProgramme(id).path == ListLoyaltyProgramme().path + "/" + id
  {
  }
}
