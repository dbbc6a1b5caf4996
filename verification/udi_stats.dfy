/** The `UDIStats` record (a vehicle's racing statistics) and its response
    envelope.  The ratios are exact rationals here; the `float` rounding of
    the C# code is left out. */
module UdiStats {
  import opened Wrappers
  import Envelope

  datatype Stats = Stats(brand: Option<string>, model: Option<string>, sequentialId: int,
                         totalMileage: int, totalRaces: int, totalRankedRaces: int, totalCircuits: int,
                         wins: int, podiumFinishes: int)

  /** The nine-argument constructor: each argument in its like-named field. */
  function Make(brand: Option<string>, model: Option<string>, sequentialId: int, totalMileage: int,
                totalRaces: int, totalRankedRaces: int, totalCircuits: int, wins: int, podiumFinishes: int): (r: Stats)
    ensures r.brand == brand && r.model == model && r.sequentialId == sequentialId
    ensures r.totalMileage == totalMileage && r.totalRaces == totalRaces && r.totalRankedRaces == totalRankedRaces
    ensures r.totalCircuits == totalCircuits && r.wins == wins && r.podiumFinishes == podiumFinishes
  {
    Stats(brand, model, sequentialId, totalMileage, totalRaces, totalRankedRaces, totalCircuits, wins, podiumFinishes)
  }

  /** `part / whole * 100`, or 0 for no races. */
  function Percentage(part: int, whole: int): (r: real)
    ensures whole == 0 ==> r == 0.0
    ensures 0 <= part <= whole && whole != 0 ==> 0.0 <= r <= 100.0
    ensures whole != 0 ==> r * (whole as real) == (part as real) * 100.0
  {
    if whole == 0 then 0.0 else (part as real) / (whole as real) * 100.0
  }

  /** `part / whole`, or 0 for a zero denominator. */
  function Average(total: int, count: int): (r: real)
    ensures count == 0 ==> r == 0.0
    ensures count != 0 ==> r * (count as real) == total as real
    ensures 0 <= total && 0 < count ==> 0.0 <= r <= total as real
  {
    if count == 0 then 0.0 else (total as real) / (count as real)
  }

  /** `GetWinPercentage`. */
  function WinPercentage(s: Stats): (r: real)
    ensures s.totalRaces == 0 ==> r == 0.0
    ensures s.totalRaces != 0 ==> r * (s.totalRaces as real) == (s.wins as real) * 100.0
    ensures 0 <= s.wins <= s.totalRaces ==> 0.0 <= r <= 100.0
  {
    Percentage(s.wins, s.totalRaces)
  }

  /** `GetPodiumPercentage`. */
  function PodiumPercentage(s: Stats): (r: real)
    ensures s.totalRaces == 0 ==> r == 0.0
    ensures s.totalRaces != 0 ==> r * (s.totalRaces as real) == (s.podiumFinishes as real) * 100.0
    ensures 0 <= s.podiumFinishes <= s.totalRaces ==> 0.0 <= r <= 100.0
  {
    Percentage(s.podiumFinishes, s.totalRaces)
  }

  /** `GetRankedRacePercentage`. */
  function RankedRacePercentage(s: Stats): (r: real)
    ensures s.totalRaces == 0 ==> r == 0.0
    ensures s.totalRaces != 0 ==> r * (s.totalRaces as real) == (s.totalRankedRaces as real) * 100.0
    ensures 0 <= s.totalRankedRaces <= s.totalRaces ==> 0.0 <= r <= 100.0
  {
    Percentage(s.totalRankedRaces, s.totalRaces)
  }

  /** `GetAverageMileagePerRace`. */
  function AverageMileagePerRace(s: Stats): (r: real)
    ensures s.totalRaces == 0 ==> r == 0.0
    ensures s.totalRaces != 0 ==> r * (s.totalRaces as real) == s.totalMileage as real
  {
    Average(s.totalMileage, s.totalRaces)
  }

  /** `GetAverageMileagePerCircuit`: guarded by the circuit count, not the
      race count. */
  function AverageMileagePerCircuit(s: Stats): (r: real)
    ensures s.totalCircuits == 0 ==> r == 0.0
    ensures s.totalCircuits != 0 ==> r * (s.totalCircuits as real) == s.totalMileage as real
  {
    Average(s.totalMileage, s.totalCircuits)
  }

  /** `ResetStats`: the six counters become zero; brand, model and
      sequential id stay. */
  function ResetStats(s: Stats): (r: Stats)
    ensures r.totalMileage == 0 && r.totalRaces == 0 && r.totalRankedRaces == 0
    ensures r.totalCircuits == 0 && r.wins == 0 && r.podiumFinishes == 0
    ensures r.brand == s.brand && r.model == s.model && r.sequentialId == s.sequentialId
  {
    s.(totalMileage := 0, totalRaces := 0, totalRankedRaces := 0, totalCircuits := 0, wins := 0, podiumFinishes := 0)
  }

  /** After a reset every ratio reads 0, and a second reset changes nothing. */
  lemma ResetClearsRatios(s: Stats)
    ensures var r := ResetStats(s);
            WinPercentage(r) == 0.0 && PodiumPercentage(r) == 0.0 && RankedRacePercentage(r) == 0.0
            && AverageMileagePerRace(r) == 0.0 && AverageMileagePerCircuit(r) == 0.0
            && ResetStats(r) == r
  {
  }

  /** `Clone`: a record with every field equal (object identity is not
      modelled). */
  function Clone(s: Stats): (r: Stats)
    ensures r == s
  {
    Make(s.brand, s.model, s.sequentialId, s.totalMileage, s.totalRaces, s.totalRankedRaces,
         s.totalCircuits, s.wins, s.podiumFinishes)
  }

  /** `UDIStatsResponse`. */
  type Response = Envelope.Response<Stats>

  /** `UDIStatsResponse.FromJson`. */
  function ResponseFromJson(parse: Envelope.Parser<Response>, json: string): (r: Option<Response>)
    ensures parse(json).Err? ==> r == Some(Envelope.Response(false, None, None, Some(parse(json).error)))
    ensures parse(json).Ok? ==> r == parse(json).value
  {
    Envelope.ResponseFromJson(parse, json)
  }

  /** `UDIStats.FromJson`. */
  function FromJson(parse: Envelope.Parser<Stats>, json: string): (r: Option<Stats>)
    ensures parse(json).Err? ==> r.None?
    ensures parse(json).Ok? ==> r == parse(json).value
  {
    Envelope.RecordFromJson(parse, json)
  }

  /** `UDIStatsResponse.IsValid` holds exactly for a successful envelope with data, so
      the envelope a failed parse produces is never valid. */
  lemma ResponseValidity(parse: Envelope.Parser<Response>, json: string)
    ensures var r := ResponseFromJson(parse, json);
            ((r.Some? && Envelope.IsValid(r.value))
             <==> (parse(json).Ok? && parse(json).value.Some? && parse(json).value.value.success
                   && parse(json).value.value.data.Some?))
            && (parse(json).Err? ==> r.value.error.Some? && !Envelope.IsValid(r.value))
  {
  }
}
