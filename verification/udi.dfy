/** The `UDI` record (a vehicle's unique digital identity), its provenance
    and its response envelope.  `DateTime` values are kept as an opaque
    instant: only whether one is present matters here. */
module Udi {
  import opened Wrappers
  import Text
  import Envelope

  /** A `DateTime` value, by its tick count. */
  datatype Instant = Instant(ticks: int)

  datatype IssuedTo = IssuedTo(email: Option<string>)

  /** `Provenance`; the C# field `type` is `kind` here. */
  datatype Provenance = Provenance(kind: Option<string>, brand: Option<string>, model: Option<string>,
                                   issuedTo: Option<IssuedTo>, createdAt: Option<Instant>,
                                   createdFor: Option<string>)

  /** `UDI`; the C# field `type` is `kind` here. */
  datatype Record = Record(id: Option<string>, ownerId: Option<string>, edition: Option<string>,
                           linkedDvpId: Option<string>, kind: Option<string>, tokenId: Option<string>,
                           fusedAt: Option<Instant>, studioId: Option<string>, userId: Option<string>,
                           sequentialId: int, email: Option<string>, provenance: Option<Provenance>)

  /** The parameterless constructor: every reference null, the id 0. */
  const Empty := Record(None, None, None, None, None, None, None, None, None, 0, None, None)

  /** The twelve-argument constructor, whose parameter order (provenance
      fourth) differs from the field order: every argument lands in its
      like-named field. */
  function Make(id: Option<string>, ownerId: Option<string>, edition: Option<string>,
                provenance: Option<Provenance>, linkedDvpId: Option<string>, kind: Option<string>,
                tokenId: Option<string>, fusedAt: Option<Instant>, studioId: Option<string>,
                userId: Option<string>, sequentialId: int, email: Option<string>): (r: Record)
    ensures r.id == id && r.ownerId == ownerId && r.edition == edition && r.provenance == provenance
    ensures r.linkedDvpId == linkedDvpId && r.kind == kind && r.tokenId == tokenId && r.fusedAt == fusedAt
    ensures r.studioId == studioId && r.userId == userId && r.sequentialId == sequentialId && r.email == email
  {
    Record(id, ownerId, edition, linkedDvpId, kind, tokenId, fusedAt, studioId, userId, sequentialId, email, provenance)
  }

  /** `IsFused`: a fusion date is present. */
  function IsFused(u: Record): (r: bool)
    ensures r <==> u.fusedAt.Some?
  {
    match u.fusedAt
    case Some(_) => true
    case None => false
  }

  /** `GetBrand`: the provenance's brand, "" when the provenance or the
      brand is null. */
  function GetBrand(u: Record): (r: string)
    ensures u.provenance.Some? && u.provenance.value.brand.Some? ==> r == u.provenance.value.brand.value
    ensures u.provenance.None? || u.provenance.value.brand.None? ==> r == ""
  {
    match u.provenance
    case None => ""
    case Some(p) => Text.OrEmpty(p.brand)
  }

  /** `GetModel`: the provenance's model, "" when the provenance or the
      model is null. */
  function GetModel(u: Record): (r: string)
    ensures u.provenance.Some? && u.provenance.value.model.Some? ==> r == u.provenance.value.model.value
    ensures u.provenance.None? || u.provenance.value.model.None? ==> r == ""
  {
    match u.provenance
    case None => ""
    case Some(p) => Text.OrEmpty(p.model)
  }

  /** `GetCreationDate`: none without a provenance, otherwise its creation
      date (itself possibly none). */
  function GetCreationDate(u: Record): (r: Option<Instant>)
    ensures u.provenance.None? ==> r.None?
    ensures u.provenance.Some? ==> r == u.provenance.value.createdAt
  {
    match u.provenance
    case None => None
    case Some(p) => p.createdAt
  }

  /** The constructor and the getters agree: a record built from a
      provenance reads its brand and model back, a fusion date makes it
      fused. */
  lemma MakeThenRead(id: Option<string>, p: Provenance, fusedAt: Option<Instant>, sequentialId: int, email: Option<string>)
    ensures var u := Make(id, None, None, Some(p), None, None, None, fusedAt, None, None, sequentialId, email);
            GetBrand(u) == Text.OrEmpty(p.brand) && GetModel(u) == Text.OrEmpty(p.model)
            && GetCreationDate(u) == p.createdAt && (IsFused(u) <==> fusedAt.Some?)
  {
  }

  /** `UDIResponse`. */
  type Response = Envelope.Response<Record>

  /** `UDIResponse.FromJson`. */
  function ResponseFromJson(parse: Envelope.Parser<Response>, json: string): (r: Option<Response>)
    ensures parse(json).Err? ==> r == Some(Envelope.Response(false, None, None, Some(parse(json).error)))
    ensures parse(json).Ok? ==> r == parse(json).value
  {
    Envelope.ResponseFromJson(parse, json)
  }

  /** `UDI.FromJson`. */
  function FromJson(parse: Envelope.Parser<Record>, json: string): (r: Option<Record>)
    ensures parse(json).Err? ==> r.None?
    ensures parse(json).Ok? ==> r == parse(json).value
  {
    Envelope.RecordFromJson(parse, json)
  }

  /** `UDIResponse.IsValid` holds exactly for a successful envelope with a
      record, so the envelope a failed parse produces is never valid. */
  lemma ResponseValidity(parse: Envelope.Parser<Response>, json: string)
    ensures var r := ResponseFromJson(parse, json);
            ((r.Some? && Envelope.IsValid(r.value))
             <==> (parse(json).Ok? && parse(json).value.Some? && parse(json).value.value.success
                   && parse(json).value.value.data.Some?))
            && (parse(json).Err? ==> r.value.error.Some? && !Envelope.IsValid(r.value))
  {
  }
}
