/** The shapes a fetched JSON list payload can take on the client. */
module Json {
  import opened Wrappers

  /** A bare JSON array, or an object whose list field may be missing. */
  datatype Payload<T> = ArrayPayload(items: seq<T>) | ObjectPayload(field: Option<seq<T>>)

  /**
   * `Array.isArray(data) ? data : data.<field> || []`: an array is used as is,
   * otherwise the named field, and an empty list when the field is absent.
   */
  function ListOf<T>(data: Payload<T>): (r: seq<T>)
    ensures data.ArrayPayload? ==> r == data.items
    ensures data.ObjectPayload? && data.field.Some? ==> r == data.field.value
    ensures data.ObjectPayload? && data.field.None? ==> r == []
  {
    match data
    case ArrayPayload(items) => items
    case ObjectPayload(field) => if field.Some? then field.value else []
  }

  /** `Array.isArray(data) ? data : []`: anything but an array counts as empty. */
  function ArrayOrEmpty<T>(data: Payload<T>): (r: seq<T>)
    ensures data.ArrayPayload? ==> r == data.items
    ensures data.ObjectPayload? ==> r == []
  {
    if data.ArrayPayload? then data.items else []
  }
}
