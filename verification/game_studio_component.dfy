/** `GameStudioComponent`: looking up a game studio and decoding the
    answer. */
module GameStudioComponent {
  import opened Wrappers
  import Text
  import Envelope
  import Component
  import GameStudio

  /** `GetGameStudioById`: no validation; a fetch of
      `{ApiUrl}/game-studios/{studioId}` (a null id reads as ""). */
  function GetGameStudioById(apiUrl: Option<string>, studioId: Option<string>): (r: Component.Call<()>)
    ensures r.action.None? && r.payload.None?
    ensures r.endpoint == Text.OrEmpty(apiUrl) + "/game-studios/" + Text.OrEmpty(studioId)
  {
    Component.Call(None, Text.OrEmpty(apiUrl) + "/game-studios/" + Text.OrEmpty(studioId), None)
  }

  /** The id, read as "" when null, can be read back from the endpoint, so
      two lookups share an endpoint exactly when their ids read the same: a
      null id and "" fetch the same URL. */
  lemma GetGameStudioByIdRoundTrip(apiUrl: Option<string>, studioId: Option<string>, otherId: Option<string>)
    ensures GetGameStudioById(apiUrl, studioId).endpoint[|Text.OrEmpty(apiUrl) + "/game-studios/"|..] == Text.OrEmpty(studioId)
    ensures GetGameStudioById(apiUrl, studioId).endpoint == GetGameStudioById(apiUrl, otherId).endpoint
            <==> Text.OrEmpty(studioId) == Text.OrEmpty(otherId)
    ensures GetGameStudioById(apiUrl, None) == GetGameStudioById(apiUrl, Some(""))
  {
    var prefix := Text.OrEmpty(apiUrl) + "/game-studios/";
    assert (prefix + Text.OrEmpty(studioId))[|prefix|..] == Text.OrEmpty(studioId);
    assert (prefix + Text.OrEmpty(otherId))[|prefix|..] == Text.OrEmpty(otherId);
  }

  /** What the receive handler raised: `OnGameStudioReceived(studio)`, or
      nothing public (a parse failure is only logged). */
  datatype Notice = Received(studio: GameStudio.Studio) | Logged(message: string)

  datatype Handled = Handled(current: Option<GameStudio.Studio>, notice: Notice)

  /** `OnGameStudioDataReceived(data)`: the parse result replaces the held
      studio, null included; only a studio raises an event. */
  function OnGameStudioDataReceived(current: Option<GameStudio.Studio>, data: Option<string>,
                                    envelope: Envelope.Parser<GameStudio.Response>,
                                    direct: Envelope.Parser<GameStudio.Studio>): (r: Handled)
    ensures r.current == GameStudio.FromJson(envelope, direct, Text.OrEmpty(data))
    ensures r.current.Some? <==> r.notice.Received?
    ensures r.notice.Received? ==> r.notice.studio == r.current.value
    ensures r.notice.Logged? ==> r.notice.message == "Failed to parse GameStudio data"
  {
    var studio := GameStudio.FromJson(envelope, direct, Text.OrEmpty(data));
    match studio
    case Some(s) => Handled(studio, Received(s))
    case None => Handled(None, Logged("Failed to parse GameStudio data"))
  }

  /** An unwrapped studio body is taken as it is when the envelope parse
      finds no successful envelope. */
  lemma DirectStudioAccepted(s: GameStudio.Studio, data: Option<string>)
    ensures var envelope: Envelope.Parser<GameStudio.Response> := json => Ok(Some(Envelope.Wrapped(false, None)));
            var direct: Envelope.Parser<GameStudio.Studio> := json => Ok(Some(s));
            OnGameStudioDataReceived(None, data, envelope, direct) == Handled(Some(s), Received(s))
  {
  }
}
