/** The AddedThread entity: the record a thread repository hands back after
    persisting a new thread. Its constructor is the only gate a payload passes
    through, so an AddedThread value always carries three strings. */
module AddedThreads {
  import opened Values
  import opened Validation

  /** The two ways construction can reject a payload. */
  datatype ErrorKind = NotContainNeededProperty | NotMeetDataTypeSpecification

  /** Construction either yields a value or rejects with one error kind. */
  datatype Result<T> = Ok(value: T) | Err(error: ErrorKind)

  datatype AddedThread = AddedThread(id: string, title: string, owner: string)

  /** The properties a payload must supply, each as a string. */
  const Required: seq<string> := ["id", "title", "owner"]

  /** The error code the constructor reports for each kind. */
  function Code(e: ErrorKind): (r: string)
    ensures |r| > |"ADDED_THREAD."| && r[..|"ADDED_THREAD."|] == "ADDED_THREAD."
  {
    match e
    case NotContainNeededProperty => "ADDED_THREAD.NOT_CONTAIN_NEEDED_PROPERTY"
    case NotMeetDataTypeSpecification => "ADDED_THREAD.NOT_MEET_DATA_TYPE_SPECIFICATION"
  }

  /** The two error kinds report different codes, so a caller can always
      tell why a payload was rejected. */
  lemma CodesDistinguishKinds(a: ErrorKind, b: ErrorKind)
    ensures Code(a) == Code(b) <==> a == b
  {
  }

  /** The payload an AddedThread is built from, holding exactly its fields. */
  function PayloadOf(t: AddedThread): (p: Payload)
    ensures p.Keys == {"id", "title", "owner"}
    ensures AllStrings(p, Required)
  {
    map["id" := VString(t.id), "title" := VString(t.title), "owner" := VString(t.owner)]
  }

  /** Construction of an AddedThread from a payload. Absence is checked
      before types; no contract below depends on that order. */
  function Create(p: Payload): (r: Result<AddedThread>)
    ensures r.Ok? <==> AllStrings(p, Required)
    ensures r.Ok? ==> (&& "id" in p && p["id"] == VString(r.value.id)
                       && "title" in p && p["title"] == VString(r.value.title)
                       && "owner" in p && p["owner"] == VString(r.value.owner))
    ensures r.Err? <==> AnyMissing(p, Required) || AnyMistyped(p, Required)
    ensures r == Err(NotContainNeededProperty) ==> AnyMissing(p, Required)
    ensures r == Err(NotMeetDataTypeSpecification) ==> AnyMistyped(p, Required)
  {
    if AnyMissing(p, Required) then
      Err(NotContainNeededProperty)
    else if AnyMistyped(p, Required) then
      Err(NotMeetDataTypeSpecification)
    else
      assert Required[0] == "id" && Required[1] == "title" && Required[2] == "owner";
      Ok(AddedThread(p["id"].str, p["title"].str, p["owner"].str))
  }
}
