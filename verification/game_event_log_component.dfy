/** `GameEventLogComponent`: posting a game event and decoding the stored
    log the service answers with. */
module GameEventLogComponent {
  import opened Wrappers
  import Text
  import Envelope
  import Component
  import GameEventLog

  /** `LogGameEvent`: no validation; a post of the generated input to
      `{ApiUrl}/game-studios/events`. */
  function LogGameEvent(apiUrl: Option<string>, eventType: Option<string>, category: Option<string>, categoryNumber: int,
                        brand: Option<string>, model: Option<string>, tokenId: Option<string>,
                        eventData: Option<GameEventLog.EventData>, now: string): (r: Component.Call<GameEventLog.Input>)
    ensures r.action.None? && r.endpoint == Text.OrEmpty(apiUrl) + "/game-studios/events"
    ensures r.payload == Some(GameEventLog.GenerateInput(eventType, category, categoryNumber, brand, model, tokenId, eventData, now))
  {
    Component.Call(None, Text.OrEmpty(apiUrl) + "/game-studios/events",
                   Some(GameEventLog.GenerateInput(eventType, category, categoryNumber, brand, model, tokenId, eventData, now)))
  }

  /** The same event logged at two instants goes to the same endpoint with
      payloads that differ only in their timestamp, and the payload carries
      every field the caller gave. */
  lemma LoggedEventsDifferOnlyInTime(apiUrl: Option<string>, eventType: Option<string>, category: Option<string>,
                                     categoryNumber: int, brand: Option<string>, model: Option<string>,
                                     tokenId: Option<string>, eventData: Option<GameEventLog.EventData>,
                                     now1: string, now2: string)
    ensures var a := LogGameEvent(apiUrl, eventType, category, categoryNumber, brand, model, tokenId, eventData, now1);
            var b := LogGameEvent(apiUrl, eventType, category, categoryNumber, brand, model, tokenId, eventData, now2);
            a.endpoint == b.endpoint && a.action == b.action
            && a.payload.value.(timestamp := b.payload.value.timestamp) == b.payload.value
            && (a == b <==> now1 == now2)
            && a.payload.value.eventType == eventType && a.payload.value.category == category
            && a.payload.value.categoryNumber == categoryNumber && a.payload.value.brand == brand
            && a.payload.value.model == model && a.payload.value.tokenId == tokenId
            && a.payload.value.eventData == eventData
  {
    GameEventLog.InputsDifferOnlyInTime(eventType, category, categoryNumber, brand, model, tokenId, eventData, now1, now2);
  }

  /** What the receive handler raised: `OnGameEventLogReceived(log)` or
      `OnGameEventLogError(message)`. */
  datatype Notice = Received(log: GameEventLog.Log) | Failed(message: string)

  datatype Handled = Handled(current: Option<GameEventLog.Log>, notice: Notice)

  const ParseFailure := "Failed to parse GameEventLog data"

  /** `OnGameEventLogDataReceived(data)`: null data reads as ""; the parse
      result replaces the held log, null included; a log is reported once,
      null as the parse failure. */
  function OnGameEventLogDataReceived(current: Option<GameEventLog.Log>, data: Option<string>,
                                      envelope: Envelope.Parser<GameEventLog.Response>,
                                      direct: Envelope.Parser<GameEventLog.Log>): (r: Handled)
    ensures r.current == GameEventLog.FromJson(envelope, direct, Text.OrEmpty(data))
    ensures r.current.Some? <==> r.notice.Received?
    ensures r.notice.Received? ==> r.notice.log == r.current.value
    ensures r.notice.Failed? ==> r.notice.message == ParseFailure
  {
    var log := GameEventLog.FromJson(envelope, direct, Text.OrEmpty(data));
    match log
    case Some(l) => Handled(log, Received(l))
    case None => Handled(None, Failed(ParseFailure))
  }

  /** A malformed body clears a log held from an earlier answer. */
  lemma FailedParseClearsLog(held: GameEventLog.Log, data: Option<string>)
    ensures var envelope: Envelope.Parser<GameEventLog.Response> := json => Err("malformed");
            var direct: Envelope.Parser<GameEventLog.Log> := json => Ok(Some(held));
            OnGameEventLogDataReceived(Some(held), data, envelope, direct) == Handled(None, Failed(ParseFailure))
  {
  }
}
