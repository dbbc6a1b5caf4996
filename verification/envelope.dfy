/** What the client does with `JsonUtility` results.  The parser itself is a
    foreign call and is a parameter here: `Ok(Some(v))` when it returns an
    object, `Ok(None)` when it returns null, `Err(message)` when it throws.
    On top of it sit the two `FromJson` conventions of the records and the
    envelope-then-direct selection of `GameEventLog` and `GameStudio`. */
module Envelope {
  import opened Wrappers

  type Parser<T> = string -> Result<Option<T>, string>

  /** The `{ success, data, message, error }` envelope of `UDIResponse`,
      `UDIStatsResponse` and `UDIFuseResponse`. */
  datatype Response<T> = Response(success: bool, data: Option<T>, message: Option<string>, error: Option<string>)

  /** `IsValid`: the call succeeded and carried a record. */
  predicate IsValid<T>(r: Response<T>) {
    r.success && r.data.Some?
  }

  /** `XResponse.FromJson`: a parse failure becomes an unsuccessful
      envelope carrying the failure text, never null and never valid. */
  function ResponseFromJson<T>(parse: Parser<Response<T>>, json: string): (r: Option<Response<T>>)
    ensures parse(json).Err? ==> r == Some(Response(false, None, None, Some(parse(json).error)))
    ensures parse(json).Ok? ==> r == parse(json).value
    ensures r.None? ==> parse(json) == Ok(None)
    ensures r.Some? && r.value.success ==> parse(json).Ok?
  {
    match parse(json)
    case Ok(response) => response
    case Err(message) => Some(Response(false, None, None, Some(message)))
  }

  /** `UDI.FromJson` and `UDIStats.FromJson`: a parse failure reads as null. */
  function RecordFromJson<T>(parse: Parser<T>, json: string): (r: Option<T>)
    ensures parse(json).Err? ==> r.None?
    ensures parse(json).Ok? ==> r == parse(json).value
  {
    match parse(json)
    case Ok(record) => record
    case Err(_) => None
  }

  /** The `{ success, data }` envelope of `GameEventLogResponse` and
      `GameStudioResponse`. */
  datatype Wrapped<T> = Wrapped(success: bool, data: Option<T>)

  /** `GameEventLog.FromJson` and `GameStudio.FromJson`: a successful
      envelope with data gives that data; any other envelope falls through to
      the direct parse, whose result is returned as it is; an exception from
      either parse gives null. */
  function WrappedThenDirect<T>(envelope: Parser<Wrapped<T>>, direct: Parser<T>, json: string): (r: Option<T>)
    ensures envelope(json).Err? ==> r.None?
    ensures (envelope(json).Ok? && envelope(json).value.Some? && envelope(json).value.value.success
             && envelope(json).value.value.data.Some?) ==> r == envelope(json).value.value.data
  {
    match envelope(json)
    case Err(_) => None
    case Ok(wrapped) =>
      if wrapped.Some? && wrapped.value.success && wrapped.value.data.Some? then wrapped.value.data
      else RecordFromJson(direct, json)
  }

  /** Whenever the envelope parse returns without a usable envelope, the
      answer is exactly the direct form's, null and failure included; and a
      non-null answer always comes from one of the two parses. */
  lemma FallbackIsDirect<T>(envelope: Parser<Wrapped<T>>, direct: Parser<T>, json: string)
    ensures var r := WrappedThenDirect(envelope, direct, json);
            ((envelope(json).Ok? && (envelope(json).value.None? || !envelope(json).value.value.success
                                     || envelope(json).value.value.data.None?))
             ==> r == RecordFromJson(direct, json))
            && (r.Some? ==> (envelope(json).Ok? && envelope(json).value.Some? && envelope(json).value.value.data == r)
                            || direct(json) == Ok(r))
  {
  }
}
