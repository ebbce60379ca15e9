/** Shape checks over a payload for a list of required properties, each of
    which must hold a string. These are the two questions an entity
    constructor asks before it accepts a payload. */
module Validation {
  import opened Values

  /** True when some required property is absent from the payload. */
  function AnyMissing(p: Payload, fields: seq<string>): (r: bool)
    ensures r <==> exists i :: 0 <= i < |fields| && fields[i] !in p
  {
    if |fields| == 0 then false
    else if fields[0] !in p then true
    else AnyMissing(p, fields[1..])
  }

  /** True when some required property is present but its `typeof` is not
      "string". Absent properties are not type errors. */
  function AnyMistyped(p: Payload, fields: seq<string>): (r: bool)
    ensures r <==> exists i :: 0 <= i < |fields| && fields[i] in p && TypeOf(p[fields[i]]) != "string"
  {
    if |fields| == 0 then false
    else if fields[0] in p && TypeOf(p[fields[0]]) != "string" then true
    else AnyMistyped(p, fields[1..])
  }

  /** Every required property is present and holds a string. */
  predicate AllStrings(p: Payload, fields: seq<string>)
  {
    forall i :: 0 <= i < |fields| ==> fields[i] in p && p[fields[i]].VString?
  }

  /** A payload passes both checks exactly when every required property is
      present and holds a string. */
  lemma WellShaped(p: Payload, fields: seq<string>)
    ensures !AnyMissing(p, fields) && !AnyMistyped(p, fields) <==> AllStrings(p, fields)
  {
  }
}
