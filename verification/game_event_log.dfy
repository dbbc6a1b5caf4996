/** The game event log records: the input a game posts, the event data it
    carries, the stored log the service returns and its envelope. */
module GameEventLog {
  import opened Wrappers
  import Envelope
  import Udi

  /** `GameEventData`. */
  datatype EventData = EventData(mileage: int, circuit: Option<string>, rankedRace: bool, raceWon: bool,
                                 podiumFinish: bool, customField1: Option<string>, customField2: int,
                                 customField3: bool)

  /** `GameEventLogInput`. */
  datatype Input = Input(eventType: Option<string>, category: Option<string>, categoryNumber: int,
                         brand: Option<string>, model: Option<string>, tokenId: Option<string>,
                         eventData: Option<EventData>, timestamp: Option<string>)

  /** `GameEventLog`; the timestamps are instants. */
  datatype Log = Log(id: Option<string>, count: int, studioId: Option<string>, eventType: Option<string>,
                     category: Option<string>, categoryNumber: int, brand: Option<string>, model: Option<string>,
                     tokenId: Option<string>, eventData: Option<EventData>, updatedAt: Udi.Instant,
                     createdAt: Udi.Instant, platform: Option<string>, context: Option<string>,
                     walletAddress: Option<string>)

  /** The fifteen-argument constructor: each argument in its like-named field. */
  function Make(id: Option<string>, count: int, studioId: Option<string>, eventType: Option<string>,
                category: Option<string>, categoryNumber: int, brand: Option<string>, model: Option<string>,
                tokenId: Option<string>, eventData: Option<EventData>, updatedAt: Udi.Instant,
                createdAt: Udi.Instant, platform: Option<string>, context: Option<string>,
                walletAddress: Option<string>): (r: Log)
    ensures r.id == id && r.count == count && r.studioId == studioId && r.eventType == eventType
    ensures r.category == category && r.categoryNumber == categoryNumber && r.brand == brand && r.model == model
    ensures r.tokenId == tokenId && r.eventData == eventData && r.updatedAt == updatedAt && r.createdAt == createdAt
    ensures r.platform == platform && r.context == context && r.walletAddress == walletAddress
  {
    Log(id, count, studioId, eventType, category, categoryNumber, brand, model, tokenId, eventData,
        updatedAt, createdAt, platform, context, walletAddress)
  }

  /** `GenerateGameEventLogInput`, before serialisation: the seven caller
      fields verbatim, and the current time (a parameter here) as the
      timestamp. */
  function GenerateInput(eventType: Option<string>, category: Option<string>, categoryNumber: int,
                         brand: Option<string>, model: Option<string>, tokenId: Option<string>,
                         eventData: Option<EventData>, now: string): (r: Input)
    ensures r.eventType == eventType && r.category == category && r.categoryNumber == categoryNumber
    ensures r.brand == brand && r.model == model && r.tokenId == tokenId && r.eventData == eventData
    ensures r.timestamp == Some(now)
  {
    Input(eventType, category, categoryNumber, brand, model, tokenId, eventData, Some(now))
  }

  /** Two inputs generated from the same fields differ at most in their
      timestamp. */
  lemma InputsDifferOnlyInTime(eventType: Option<string>, category: Option<string>, categoryNumber: int,
                               brand: Option<string>, model: Option<string>, tokenId: Option<string>,
                               eventData: Option<EventData>, now1: string, now2: string)
    ensures var a := GenerateInput(eventType, category, categoryNumber, brand, model, tokenId, eventData, now1);
            var b := GenerateInput(eventType, category, categoryNumber, brand, model, tokenId, eventData, now2);
            a.(timestamp := b.timestamp) == b && (a == b <==> now1 == now2)
  {
  }

  /** `GameEventLogResponse`. */
  type Response = Envelope.Wrapped<Log>

  /** `GameEventLog.FromJson`: a successful envelope with data, else the
      direct form, null on any exception (even one from the envelope parse,
      which then skips the direct form). */
  function FromJson(envelope: Envelope.Parser<Response>, direct: Envelope.Parser<Log>, json: string): (r: Option<Log>)
    ensures envelope(json).Err? ==> r.None?
    ensures (envelope(json).Ok? && envelope(json).value.Some? && envelope(json).value.value.success
             && envelope(json).value.value.data.Some?)
            ==> r == envelope(json).value.value.data
    ensures (envelope(json).Ok? && !(envelope(json).value.Some? && envelope(json).value.value.success
                                     && envelope(json).value.value.data.Some?))
            ==> r == (if direct(json).Ok? then direct(json).value else None)
  {
    Envelope.WrappedThenDirect(envelope, direct, json)
  }
}
