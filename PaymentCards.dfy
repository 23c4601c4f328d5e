/**
 * paymentcard.go: the card-vault routes. Both creations post to the same collection;
 * deletion addresses one stored card and reads no content back.
 */
module PaymentCards {
  import opened Wrappers
  import opened Paths
  import opened Requests

  /** The segments of the card collection. */
  lemma CardsPath()
    ensures Split("/" + "vault" + "/" + "cards") == ["", "vault", "cards"]
  {
    SplitCollection("vault", "cards");
  }

  /** CreatePaymentCardRecord: POST /vault/cards with the payload (None when the caller passes nil) as body. */
  function CreatePaymentCardRecord<R>(payload: Option<R>): (r: Outcome<R>)
    ensures Shaped(r, POST, payload, [], Single)
    ensures Split(r.path) == ["", "vault", "cards"]
  {
    CardsPath();
    Request(POST, "/" + "vault" + "/" + "cards", payload, [], Single)
  }

  /** CreateTemporaryPaymentCardRecordFromSavedPaymentCardRecord: POST to the same /vault/cards. */
  function CreateTemporaryPaymentCardRecordFromSavedPaymentCardRecord<T>(payload: Option<T>): (r: Outcome<T>)
    ensures Shaped(r, POST, payload, [], Single)
    ensures Split(r.path) == ["", "vault", "cards"]
  {
    CardsPath();
    Request(POST, "/" + "vault" + "/" + "cards", payload, [], Single)
  }

  /** DeleteSavedPaymentCardRecord: DELETE /vault/cards/{id}, executed for its error only; the ID is not checked. */
  function DeleteSavedPaymentCardRecord(id: string): (r: Outcome<EmptyPayload>)
    ensures Shaped(r, DELETE, None, [], Empty)
    ensures Split(r.path) == ["", "vault", "cards"] + Split(id)
  {
    SplitBase("vault", "cards", id);
    Request(DELETE, "/" + "vault" + "/" + "cards" + "/" + id, None, [], Empty)
  }

  /** The two creations differ only in their payload type: same verb, path, query and terminal. */
  lemma CreationsShareRoute<R, T>(card: Option<R>, temporary: Option<T>)
    ensures CreatePaymentCardRecord(card).path == CreateTemporaryPaymentCardRecordFromSavedPaymentCardRecord(temporary).path
    ensures CreatePaymentCardRecord(card).verb == CreateTemporaryPaymentCardRecordFromSavedPaymentCardRecord(temporary).verb
  {
  }

  /** Deletion addresses one member of the collection the creations post to. */
  lemma DeleteAddressesCollectionMember<R>(id: string, card: Option<R>)
    ensures DeleteSavedPaymentCardRecord(id).path == CreatePaymentCardRecord(card).path + "/" + id
  {
  }
}
