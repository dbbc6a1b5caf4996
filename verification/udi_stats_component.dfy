/** `UDIStatsComponent`: requesting a UDI's statistics, decoding the answer
    and the accessors over the statistics it holds. */
module UdiStatsComponent {
  import opened Wrappers
  import Text
  import Envelope
  import UdiStats
  import Component

  const GetStatsAction := "GET:GetUDIStats"

  /** `GetUDIStats`: brand, then model, then a non-negative sequential id
      (0 is accepted); the endpoint is
      `{ApiUrl}/udis/default/{brand}/{model}/{sequentialId}/stats`. */
  function GetUdiStats(apiUrl: Option<string>, brand: Option<string>, model: Option<string>, sequentialId: int): (r: Result<Component.Call<()>, string>)
    ensures Text.IsNullOrEmpty(brand) ==> r == Err("Brand is required")
    ensures !Text.IsNullOrEmpty(brand) && Text.IsNullOrEmpty(model) ==> r == Err("Model is required")
    ensures !Text.IsNullOrEmpty(brand) && !Text.IsNullOrEmpty(model) && sequentialId < 0 ==> r == Err("Sequential ID must be non-negative")
    ensures r.Ok? <==> !Text.IsNullOrEmpty(brand) && !Text.IsNullOrEmpty(model) && sequentialId >= 0
    ensures r.Ok? ==> r.value == Component.Call(Some(GetStatsAction),
                                                  Text.OrEmpty(apiUrl) + "/udis/default/" + brand.value + "/" + model.value
                                                  + "/" + Text.IntToString(sequentialId) + "/stats", None)
  {
    if Text.IsNullOrEmpty(brand) then Err("Brand is required")
    else if Text.IsNullOrEmpty(model) then Err("Model is required")
    else if sequentialId < 0 then Err("Sequential ID must be non-negative")
    else Ok(Component.Call(Some(GetStatsAction),
                              Text.OrEmpty(apiUrl) + "/udis/default/" + brand.value + "/" + model.value
                              + "/" + Text.IntToString(sequentialId) + "/stats", None))
  }

  /** The sequential id can be read back from the endpoint: it is the text
      between the model and "/stats", which denotes the id.  So two accepted
      requests for the same vehicle share an endpoint only when their ids are
      equal. */
  lemma GetUdiStatsRoundTrip(apiUrl: Option<string>, brand: Option<string>, model: Option<string>,
                             sequentialId: int, otherId: int)
    ensures var r := GetUdiStats(apiUrl, brand, model, sequentialId);
            r.Ok? ==>
              var prefix := Text.OrEmpty(apiUrl) + "/udis/default/" + brand.value + "/" + model.value + "/";
              var e := r.value.endpoint;
              |prefix| + 6 <= |e| && e[..|prefix|] == prefix && e[|e| - 6..] == "/stats"
              && Text.ParseNat(e[|prefix|..|e| - 6]) == sequentialId
    ensures var r := GetUdiStats(apiUrl, brand, model, sequentialId);
            var o := GetUdiStats(apiUrl, brand, model, otherId);
            r.Ok? && o.Ok? && r.value.endpoint == o.value.endpoint ==> sequentialId == otherId
  {
    if GetUdiStats(apiUrl, brand, model, sequentialId).Ok? {
      var prefix := Text.OrEmpty(apiUrl) + "/udis/default/" + brand.value + "/" + model.value + "/";
      ReadBackId(prefix, sequentialId);
      if GetUdiStats(apiUrl, brand, model, otherId).Ok? {
        ReadBackId(prefix, otherId);
      }
    }
  }

  /** The endpoint shape of an accepted request, with the id read back. */
  lemma ReadBackId(prefix: string, id: nat)
    ensures var e := prefix + Text.IntToString(id) + "/stats";
            |prefix| + 6 <= |e| && e[..|prefix|] == prefix && e[|e| - 6..] == "/stats"
            && Text.ParseNat(e[|prefix|..|e| - 6]) == id
  {
    var digits := Text.IntToString(id);
    var e := prefix + digits + "/stats";
    assert e[|prefix|..|e| - 6] == digits;
    assert e[..|prefix|] == prefix;
    assert e[|e| - 6..] == "/stats";
    Text.ParseNatToString(id);
  }

  /** What the receive handler raised: `OnUDIStatsReceived(action, stats)`
      or `OnUDIStatsError(message)`. */
  datatype Notice = Received(action: string, stats: UdiStats.Stats) | Failed(message: string)

  datatype Handled = Handled(current: Option<UdiStats.Stats>, notice: Notice)

  const ParseFailure := "Failed to parse UDIStats data"

  /** `OnUDIStatsDataReceived(action, data)`: a valid envelope wins;
      otherwise any non-null direct parse is accepted, with no check of its
      fields; otherwise the held statistics become null and the parse
      failure is reported. */
  function OnUdiStatsDataReceived(current: Option<UdiStats.Stats>, action: string, data: Option<string>,
                                  parseResponse: Envelope.Parser<UdiStats.Response>,
                                  parseStats: Envelope.Parser<UdiStats.Stats>): (r: Handled)
    ensures var json := Text.OrEmpty(data);
            var envelope := UdiStats.ResponseFromJson(parseResponse, json);
            if envelope.Some? && Envelope.IsValid(envelope.value) then
              r == Handled(envelope.value.data, Received(action, envelope.value.data.value))
            else
              r.current == UdiStats.FromJson(parseStats, json)
              && (r.notice.Received? <==> r.current.Some?)
              && (r.notice.Received? ==> r.notice == Received(action, r.current.value))
              && (r.notice.Failed? ==> r.notice.message == ParseFailure)
  {
    var json := Text.OrEmpty(data);
    var envelope := UdiStats.ResponseFromJson(parseResponse, json);
    if envelope.Some? && envelope.value.success && envelope.value.data.Some? then
      Handled(envelope.value.data, Received(action, envelope.value.data.value))
    else
      var direct := UdiStats.FromJson(parseStats, json);
      match direct
      case Some(stats) => Handled(direct, Received(action, stats))
      case None => Handled(None, Failed(ParseFailure))
  }

  /** The handler reports statistics exactly when it holds some afterwards,
      and what it reports is what it holds. */
  lemma ReportedIffHeld(current: Option<UdiStats.Stats>, action: string, data: Option<string>,
                        parseResponse: Envelope.Parser<UdiStats.Response>,
                        parseStats: Envelope.Parser<UdiStats.Stats>)
    ensures var r := OnUdiStatsDataReceived(current, action, data, parseResponse, parseStats);
            (r.notice.Received? <==> r.current.Some?)
            && (r.notice.Received? ==> r.current == Some(r.notice.stats) && r.notice.action == action)
  {
  }

  /** A direct-form body is accepted whatever its fields hold: an all-default
      record is reported as received. */
  lemma DirectFormIsNotChecked(action: string)
    ensures var empty := UdiStats.Stats(None, None, 0, 0, 0, 0, 0, 0, 0);
            var parseResponse: Envelope.Parser<UdiStats.Response> := json => Err("not an envelope");
            var parseStats: Envelope.Parser<UdiStats.Stats> := json => Ok(Some(empty));
            OnUdiStatsDataReceived(None, action, None, parseResponse, parseStats)
              == Handled(Some(empty), Received(action, empty))
  {
  }

  /** `HasUDIStats`: statistics are held; without them every accessor reads
      its default. */
  function HasUdiStats(current: Option<UdiStats.Stats>): (r: bool)
    ensures r <==> current.Some?
    ensures !r ==> CurrentSequentialId(current) == -1 && CurrentTotalRaces(current) == 0
                   && CurrentTotalMileage(current) == 0 && CurrentWins(current) == 0
                   && CurrentPodiumFinishes(current) == 0 && CurrentWinPercentage(current) == 0.0
                   && CurrentPodiumPercentage(current) == 0.0 && CurrentBrand(current) == "" && CurrentModel(current) == ""
  {
    current.Some?
  }

  /** `GetCurrentUDIStatsBrand`: "" when nothing (or no brand) is held. */
  function CurrentBrand(current: Option<UdiStats.Stats>): (r: string)
    ensures current.Some? && current.value.brand.Some? ==> r == current.value.brand.value
    ensures current.None? || current.value.brand.None? ==> r == ""
  {
    match current
    case None => ""
    case Some(s) => Text.OrEmpty(s.brand)
  }

  /** `GetCurrentUDIStatsModel`: "" when nothing (or no model) is held. */
  function CurrentModel(current: Option<UdiStats.Stats>): (r: string)
    ensures current.Some? && current.value.model.Some? ==> r == current.value.model.value
    ensures current.None? || current.value.model.None? ==> r == ""
  {
    match current
    case None => ""
    case Some(s) => Text.OrEmpty(s.model)
  }

  /** `GetCurrentUDIStatsSequentialId`: -1 when nothing is held, which no
      accepted request can carry. */
  function CurrentSequentialId(current: Option<UdiStats.Stats>): (r: int)
    ensures current.Some? ==> r == current.value.sequentialId
    ensures current.None? ==> r == -1
  {
    match current
    case None => -1
    case Some(s) => s.sequentialId
  }

  /** `GetCurrentUDIStatsTotalRaces`. */
  function CurrentTotalRaces(current: Option<UdiStats.Stats>): (r: int)
    ensures current.Some? ==> r == current.value.totalRaces
    ensures current.None? ==> r == 0
  {
    match current
    case None => 0
    case Some(s) => s.totalRaces
  }

  /** `GetCurrentUDIStatsTotalMileage`. */
  function CurrentTotalMileage(current: Option<UdiStats.Stats>): (r: int)
    ensures current.Some? ==> r == current.value.totalMileage
    ensures current.None? ==> r == 0
  {
    match current
    case None => 0
    case Some(s) => s.totalMileage
  }

  /** `GetCurrentUDIStatsWins`. */
  function CurrentWins(current: Option<UdiStats.Stats>): (r: int)
    ensures current.Some? ==> r == current.value.wins
    ensures current.None? ==> r == 0
  {
    match current
    case None => 0
    case Some(s) => s.wins
  }

  /** `GetCurrentUDIStatsPodiumFinishes`. */
  function CurrentPodiumFinishes(current: Option<UdiStats.Stats>): (r: int)
    ensures current.Some? ==> r == current.value.podiumFinishes
    ensures current.None? ==> r == 0
  {
    match current
    case None => 0
    case Some(s) => s.podiumFinishes
  }

  /** `GetCurrentUDIStatsWinPercentage`. */
  function CurrentWinPercentage(current: Option<UdiStats.Stats>): (r: real)
    ensures current.Some? ==> r == UdiStats.WinPercentage(current.value)
    ensures current.None? ==> r == 0.0
  {
    match current
    case None => 0.0
    case Some(s) => UdiStats.WinPercentage(s)
  }

  /** `GetCurrentUDIStatsPodiumPercentage`. */
  function CurrentPodiumPercentage(current: Option<UdiStats.Stats>): (r: real)
    ensures current.Some? ==> r == UdiStats.PodiumPercentage(current.value)
    ensures current.None? ==> r == 0.0
  {
    match current
    case None => 0.0
    case Some(s) => UdiStats.PodiumPercentage(s)
  }

  /** `ClearUDIStats`. */
  function ClearUdiStats(current: Option<UdiStats.Stats>): (r: Option<UdiStats.Stats>)
    ensures !HasUdiStats(r)
  {
    None
  }

  /** With nothing held every accessor reads its default: -1 for the
      sequential id, 0 for counts and percentages, "" for brand and model;
      the sequential id default is one `GetUDIStats` never requests. */
  lemma ClearedReadsDefaults(current: Option<UdiStats.Stats>, apiUrl: Option<string>, brand: Option<string>, model: Option<string>)
    ensures var c := ClearUdiStats(current);
            !HasUdiStats(c) && CurrentSequentialId(c) == -1 && CurrentTotalRaces(c) == 0
            && CurrentTotalMileage(c) == 0 && CurrentWins(c) == 0 && CurrentPodiumFinishes(c) == 0
            && CurrentWinPercentage(c) == 0.0 && CurrentPodiumPercentage(c) == 0.0
            && CurrentBrand(c) == "" && CurrentModel(c) == ""
            && GetUdiStats(apiUrl, brand, model, CurrentSequentialId(c)).Err?
  {
  }
}
