/** What the AddedThread constructor promises: which payloads it rejects and
    with which error kind, which it accepts, and that an accepted entity
    carries exactly the payload's fields. */
module AddedThreadProperties {
  import opened Values
  import opened Validation
  import opened AddedThreads

  /** Payload `p` carries every property of `q` with the same value; it may
      carry other properties as well. */
  predicate Contains(p: Payload, q: Payload)
  {
    forall k :: k in q ==> k in p && p[k] == q[k]
  }

  /** A payload that lacks a required property, and has no wrongly typed
      property among those it does supply, is rejected as incomplete. */
  lemma MissingIsNotContainNeededProperty(p: Payload)
    requires AnyMissing(p, Required) && !AnyMistyped(p, Required)
    ensures Create(p) == Err(NotContainNeededProperty)
  {
  }

  /** A payload that supplies every required property, with at least one of
      them not a string, is rejected for its data types. */
  lemma MistypedIsNotMeetDataTypeSpecification(p: Payload)
    requires !AnyMissing(p, Required) && AnyMistyped(p, Required)
    ensures Create(p) == Err(NotMeetDataTypeSpecification)
  {
  }

  /** Construction yields `t` exactly when the payload carries `t`'s id,
      title and owner as strings. */
  lemma CreateYields(p: Payload, t: AddedThread)
    ensures Create(p) == Ok(t) <==> Contains(p, PayloadOf(t))
  {
  }

  /** Building an entity from its own fields gives the entity back. */
  lemma RoundTrip(t: AddedThread)
    ensures Create(PayloadOf(t)) == Ok(t)
  {
  }

  /** A payload is rejected exactly when there is no entity whose fields it
      carries: a rejection never comes with an entity, and an acceptance
      never comes with an error. */
  lemma RejectedIffNoEntity(p: Payload)
    ensures Create(p).Err? <==> forall t :: !Contains(p, PayloadOf(t))
  {
    if Create(p).Err? {
      forall t ensures !Contains(p, PayloadOf(t)) {
        CreateYields(p, t);
      }
    } else {
      CreateYields(p, Create(p).value);
    }
  }

  /** A payload holding only an id is rejected as incomplete. */
  lemma OnlyIdIsRejected()
    ensures Create(map["id" := VString("thread-123")]) == Err(NotContainNeededProperty)
  {
  }

  /** A number id, boolean title and object owner are rejected for their
      data types. */
  lemma WrongTypesAreRejected()
    ensures Create(map["id" := VNumber(123.0), "title" := VBool(true), "owner" := VObject(map[])])
            == Err(NotMeetDataTypeSpecification)
  {
  }

  /** Three string properties are accepted, and the entity carries them. */
  lemma SamplePayloadIsAccepted()
    ensures Create(map["id" := VString("thread-123"), "title" := VString("Sample Title"), "owner" := VString("user-123")])
            == Ok(AddedThread("thread-123", "Sample Title", "user-123"))
  {
  }
}
