/** `UDIComponent`: issuing and looking up UDIs, decoding the answer and the
    accessors over the UDI it holds.  A request that passes validation is
    returned as the request the component would start its coroutine with;
    the coroutine itself is `Component.PostDataCoroutine` /
    `Component.FetchDataCoroutine`. */
module UdiComponent {
  import opened Wrappers
  import Text
  import Envelope
  import Udi
  import Component

  const CreateAction := "POST:CreateUDI"
  const GetByIdAction := "GET:GetUDIById"

  /** `UDICreateRequest`. */
  datatype CreateRequest = CreateRequest(email: Option<string>, brand: Option<string>, model: Option<string>)

  /** `UDICreateRequest.IsValid`: all three fields set and the email
      containing '@' and '.'; there is no length check. */
  predicate CreateRequestIsValid(q: CreateRequest) {
    !Text.IsNullOrEmpty(q.email) && !Text.IsNullOrEmpty(q.brand) && !Text.IsNullOrEmpty(q.model)
    && Text.Contains(q.email.value, "@") && Text.Contains(q.email.value, ".")
  }

  /** `IsValidEmail`: set, containing '@' and '.', longer than five UTF-16
      code units. */
  function IsValidEmail(email: Option<string>): (r: bool)
    ensures r <==> email.Some? && Text.Utf16Length(email.value) > 5 && Text.Contains(email.value, "@") && Text.Contains(email.value, ".")
  {
    if Text.IsNullOrEmpty(email) then false
    else Text.Contains(email.value, "@") && Text.Contains(email.value, ".") && Text.Utf16Length(email.value) > 5
  }

  /** `CreateUDI`: the first failed check, in order, is reported and nothing
      is sent; otherwise a post to `{ApiUrl}/udis/default/issue/{email}/{brand}/{model}`. */
  function CreateUdi(apiUrl: Option<string>, email: Option<string>, brand: Option<string>, model: Option<string>): (r: Result<Component.Call<CreateRequest>, string>)
    ensures Text.IsNullOrEmpty(email) ==> r == Err("Email is required")
    ensures !Text.IsNullOrEmpty(email) && !IsValidEmail(email) ==> r == Err("Invalid email format")
    ensures IsValidEmail(email) && Text.IsNullOrEmpty(brand) ==> r == Err("Brand is required")
    ensures IsValidEmail(email) && !Text.IsNullOrEmpty(brand) && Text.IsNullOrEmpty(model) ==> r == Err("Model is required")
    ensures r.Ok? <==> IsValidEmail(email) && !Text.IsNullOrEmpty(brand) && !Text.IsNullOrEmpty(model)
    ensures r.Ok? ==> r.value == Component.Call(Some(CreateAction),
                                      Text.OrEmpty(apiUrl) + "/udis/default/issue/" + email.value + "/" + brand.value + "/" + model.value,
                                      Some(CreateRequest(email, brand, model)))
  {
    if Text.IsNullOrEmpty(email) then Err("Email is required")
    else if !IsValidEmail(email) then Err("Invalid email format")
    else if Text.IsNullOrEmpty(brand) then Err("Brand is required")
    else if Text.IsNullOrEmpty(model) then Err("Model is required")
    else
      Ok(Component.Call(Some(CreateAction), Text.OrEmpty(apiUrl) + "/udis/default/issue/" + email.value + "/" + brand.value + "/" + model.value,
              Some(CreateRequest(email, brand, model))))
  }

  /** Whatever `CreateUDI` sends is a valid `UDICreateRequest`. */
  lemma CreatedRequestIsValid(apiUrl: Option<string>, email: Option<string>, brand: Option<string>, model: Option<string>)
    ensures var r := CreateUdi(apiUrl, email, brand, model);
            r.Ok? ==> r.value.payload.Some? && CreateRequestIsValid(r.value.payload.value)
  {
  }

  /** `CreateUDI` sends exactly the valid requests whose email is longer
      than five UTF-16 code units: the two validations agree except for the
      length. */
  lemma SendableIffValidAndLong(apiUrl: Option<string>, q: CreateRequest)
    ensures CreateUdi(apiUrl, q.email, q.brand, q.model).Ok?
            <==> CreateRequestIsValid(q) && Text.Utf16Length(q.email.value) > 5
  {
  }

  /** The two email checks differ: "a@b.c" makes a valid `UDICreateRequest`
      but `CreateUDI` refuses it as too short. */
  lemma ShortEmailValidOnlyAsRequest()
    ensures CreateRequestIsValid(CreateRequest(Some("a@b.c"), Some("b"), Some("m")))
    ensures CreateUdi(None, Some("a@b.c"), Some("b"), Some("m")) == Err("Invalid email format")
  {
    assert Text.OccursAt("a@b.c", "@", 1);
    assert Text.OccursAt("a@b.c", ".", 3);
  }

  /** The length is counted in UTF-16 code units: five characters, the last
      outside the Basic Multilingual Plane, make a long enough email. */
  lemma EmailLengthInCodeUnits()
    ensures IsValidEmail(Some("a@b.\U{1F600}")) && !IsValidEmail(Some("a@b.c"))
  {
    assert Text.OccursAt("a@b.\U{1F600}", "@", 1);
    assert Text.OccursAt("a@b.\U{1F600}", ".", 3);
  }

  /** `GetUDIById`: an id is required; the endpoint is `{ApiUrl}/udis/{id}`. */
  function GetUdiById(apiUrl: Option<string>, udiId: Option<string>): (r: Result<Component.Call<()>, string>)
    ensures Text.IsNullOrEmpty(udiId) <==> r == Err("UDI ID is required")
    ensures r.Ok? ==> r.value == Component.Call(Some(GetByIdAction), Text.OrEmpty(apiUrl) + "/udis/" + udiId.value, None)
  {
    if Text.IsNullOrEmpty(udiId) then Err("UDI ID is required")
    else Ok(Component.Call(Some(GetByIdAction), Text.OrEmpty(apiUrl) + "/udis/" + udiId.value, None))
  }

  /** The id can be read back from the endpoint, so two different ids never
      share an endpoint. */
  lemma GetUdiByIdRoundTrip(apiUrl: Option<string>, udiId: Option<string>, otherId: Option<string>)
    ensures var r := GetUdiById(apiUrl, udiId);
            r.Ok? ==> r.value.endpoint[|Text.OrEmpty(apiUrl) + "/udis/"|..] == udiId.value
    ensures var r := GetUdiById(apiUrl, udiId);
            var o := GetUdiById(apiUrl, otherId);
            r.Ok? && o.Ok? && r.value.endpoint == o.value.endpoint ==> udiId == otherId
  {
    var prefix := Text.OrEmpty(apiUrl) + "/udis/";
    if GetUdiById(apiUrl, udiId).Ok? {
      assert (prefix + udiId.value)[|prefix|..] == udiId.value;
    }
    if GetUdiById(apiUrl, udiId).Ok? && GetUdiById(apiUrl, otherId).Ok? {
      assert (prefix + otherId.value)[|prefix|..] == otherId.value;
    }
  }

  /** What the receive handler raised: `OnUDIReceived(action, udi)` or
      `OnUDIError(message)`. */
  datatype Notice = Received(action: string, udi: Udi.Record) | Failed(message: string)

  /** The held UDI after the handler, and what it raised. */
  datatype Handled = Handled(current: Option<Udi.Record>, notice: Notice)

  const ParseFailure := "Failed to parse UDI data"

  /** `OnUDIDataReceived(action, data)`: a valid envelope wins; otherwise the
      direct parse replaces the held UDI, and it is reported only when it has
      an id; otherwise the parse failure is reported. */
  function OnUdiDataReceived(current: Option<Udi.Record>, action: string, data: Option<string>,
                             parseResponse: Envelope.Parser<Udi.Response>, parseRecord: Envelope.Parser<Udi.Record>): (r: Handled)
    ensures var json := Text.OrEmpty(data);
            var envelope := Udi.ResponseFromJson(parseResponse, json);
            if envelope.Some? && Envelope.IsValid(envelope.value) then
              r == Handled(envelope.value.data, Received(action, envelope.value.data.value))
            else
              r.current == Udi.FromJson(parseRecord, json)
              && (r.notice.Received? <==> r.current.Some? && !Text.IsNullOrEmpty(r.current.value.id))
              && (r.notice.Received? ==> r.notice == Received(action, r.current.value))
              && (r.notice.Failed? ==> r.notice.message == ParseFailure)
  {
    var json := Text.OrEmpty(data);
    var envelope := Udi.ResponseFromJson(parseResponse, json);
    if envelope.Some? && envelope.value.success && envelope.value.data.Some? then
      Handled(envelope.value.data, Received(action, envelope.value.data.value))
    else
      var direct := Udi.FromJson(parseRecord, json);
      if direct.Some? && !Text.IsNullOrEmpty(direct.value.id) then Handled(direct, Received(action, direct.value))
      else Handled(direct, Failed(ParseFailure))
  }

  /** Every UDI the handler reports is the one it now holds, under the
      action it was given, and came from a valid envelope or has an id. */
  lemma ReportedUdiIsHeld(current: Option<Udi.Record>, action: string, data: Option<string>,
                          parseResponse: Envelope.Parser<Udi.Response>, parseRecord: Envelope.Parser<Udi.Record>)
    ensures var r := OnUdiDataReceived(current, action, data, parseResponse, parseRecord);
            r.notice.Received? ==>
              r.notice.action == action && r.current == Some(r.notice.udi)
              && (!Text.IsNullOrEmpty(r.notice.udi.id)
                  || (var envelope := Udi.ResponseFromJson(parseResponse, Text.OrEmpty(data));
                      envelope.Some? && Envelope.IsValid(envelope.value) && envelope.value.data == Some(r.notice.udi)))
  {
  }

  /** A rejected direct parse still replaces the held UDI: a record without
      an id evicts the one held before. */
  lemma RejectedParseOverwrites(held: Udi.Record, action: string)
    ensures var parseResponse: Envelope.Parser<Udi.Response> := json => Ok(None);
            var parseRecord: Envelope.Parser<Udi.Record> := json => Ok(Some(Udi.Empty));
            var r := OnUdiDataReceived(Some(held), action, Some("{}"), parseResponse, parseRecord);
            r == Handled(Some(Udi.Empty), Failed(ParseFailure))
  {
  }

  /** `GetCurrentUDIId`. */
  function CurrentUdiId(current: Option<Udi.Record>): (r: Option<string>)
    ensures current.None? ==> r.None?
    ensures current.Some? ==> r == current.value.id
  {
    match current
    case None => None
    case Some(u) => u.id
  }

  /** `HasUDI`: a UDI is held; without one every accessor reads its default. */
  function HasUdi(current: Option<Udi.Record>): (r: bool)
    ensures r <==> current.Some?
    ensures !r ==> CurrentUdiId(current).None? && CurrentBrand(current) == "" && CurrentModel(current) == ""
                   && CurrentSequentialId(current) == 0 && CurrentEmail(current) == "" && !IsCurrentUdiFused(current)
  {
    current.Some?
  }

  /** `GetCurrentBrand`: "" when nothing is held. */
  function CurrentBrand(current: Option<Udi.Record>): (r: string)
    ensures current.Some? ==> r == Udi.GetBrand(current.value)
    ensures current.None? ==> r == ""
  {
    match current
    case None => ""
    case Some(u) => Udi.GetBrand(u)
  }

  /** `GetCurrentModel`: "" when nothing is held. */
  function CurrentModel(current: Option<Udi.Record>): (r: string)
    ensures current.Some? ==> r == Udi.GetModel(current.value)
    ensures current.None? ==> r == ""
  {
    match current
    case None => ""
    case Some(u) => Udi.GetModel(u)
  }

  /** `GetCurrentSequentialId`: 0 when nothing is held. */
  function CurrentSequentialId(current: Option<Udi.Record>): (r: int)
    ensures current.Some? ==> r == current.value.sequentialId
    ensures current.None? ==> r == 0
  {
    match current
    case None => 0
    case Some(u) => u.sequentialId
  }

  /** `GetCurrentEmail`: "" when nothing is held or the email is null. */
  function CurrentEmail(current: Option<Udi.Record>): (r: string)
    ensures current.Some? && current.value.email.Some? ==> r == current.value.email.value
    ensures current.None? || current.value.email.None? ==> r == ""
  {
    match current
    case None => ""
    case Some(u) => Text.OrEmpty(u.email)
  }

  /** `IsCurrentUDIFused`: false when nothing is held. */
  function IsCurrentUdiFused(current: Option<Udi.Record>): (r: bool)
    ensures r <==> current.Some? && current.value.fusedAt.Some?
  {
    match current
    case None => false
    case Some(u) => Udi.IsFused(u)
  }

  /** `ClearUDI`: nothing is held any more. */
  function ClearUdi(current: Option<Udi.Record>): (r: Option<Udi.Record>)
    ensures !HasUdi(r)
  {
    None
  }

  /** After `ClearUDI` every accessor reads its default. */
  lemma ClearedReadsDefaults(current: Option<Udi.Record>)
    ensures var c := ClearUdi(current);
            !HasUdi(c) && CurrentUdiId(c).None? && CurrentBrand(c) == "" && CurrentModel(c) == ""
            && CurrentSequentialId(c) == 0 && CurrentEmail(c) == "" && !IsCurrentUdiFused(c)
  {
  }

  /** After a reported UDI the accessors read that UDI. */
  lemma ReceivedReadsBack(current: Option<Udi.Record>, action: string, data: Option<string>,
                          parseResponse: Envelope.Parser<Udi.Response>, parseRecord: Envelope.Parser<Udi.Record>)
    ensures var r := OnUdiDataReceived(current, action, data, parseResponse, parseRecord);
            r.notice.Received? ==>
              HasUdi(r.current) && CurrentUdiId(r.current) == r.notice.udi.id
              && CurrentBrand(r.current) == Udi.GetBrand(r.notice.udi)
              && CurrentSequentialId(r.current) == r.notice.udi.sequentialId
  {
  }
}
