/** The game studio record and its envelope. */
module GameStudio {
  import opened Wrappers
  import Envelope
  import Udi

  /** `GameStudio`. */
  datatype Studio = Studio(id: Option<string>, studioName: Option<string>, tierLimit: int, tier: Option<string>,
                           requestsMade: int, contactEmail: Option<string>, isActive: bool,
                           createdAt: Udi.Instant, updatedAt: Udi.Instant)

  /** The constructor, whose parameters put `tier` before `tierLimit`: each
      still lands in its like-named field. */
  function Make(id: Option<string>, studioName: Option<string>, tier: Option<string>, tierLimit: int,
                requestsMade: int, contactEmail: Option<string>, isActive: bool,
                createdAt: Udi.Instant, updatedAt: Udi.Instant): (r: Studio)
    ensures r.id == id && r.studioName == studioName && r.tier == tier && r.tierLimit == tierLimit
    ensures r.requestsMade == requestsMade && r.contactEmail == contactEmail && r.isActive == isActive
    ensures r.createdAt == createdAt && r.updatedAt == updatedAt
  {
    Studio(id, studioName, tierLimit, tier, requestsMade, contactEmail, isActive, createdAt, updatedAt)
  }

  /** `GameStudioResponse`. */
  type Response = Envelope.Wrapped<Studio>

  /** `GameStudio.FromJson`: the same selection as the event log's. */
  function FromJson(envelope: Envelope.Parser<Response>, direct: Envelope.Parser<Studio>, json: string): (r: Option<Studio>)
    ensures envelope(json).Err? ==> r.None?
    ensures (envelope(json).Ok? && envelope(json).value.Some? && envelope(json).value.value.success
             && envelope(json).value.value.data.Some?)
            ==> r == envelope(json).value.value.data
    ensures (envelope(json).Ok? && !(envelope(json).value.Some? && envelope(json).value.value.success
                                     && envelope(json).value.value.data.Some?))
            ==> r == (if direct(json).Ok? then direct(json).value else None)
  {
    Envelope.WrappedThenDirect(envelope, direct, json)
  }
}
