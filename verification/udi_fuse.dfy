/** The records of a UDI fusion (binding a UDI to an NFT): the request with
    its NFT details and metadata, and the response with its fusion data. */
module UdiFuse {
  import opened Wrappers
  import Text
  import Envelope

  datatype Attribute = Attribute(traitType: Option<string>, value: Option<string>)

  /** `UDIMetadata`. */
  datatype Metadata = Metadata(rarity: Option<string>, attributes: Option<seq<Attribute>>)

  /** `UDINFTDetails`. */
  datatype NftDetails = NftDetails(contractAddress: Option<string>, ownerAddress: Option<string>, metadata: Option<Metadata>)

  /** `UDIFuseRequest`. */
  datatype FuseRequest = FuseRequest(udiId: Option<string>, tokenId: Option<string>, nftDetails: Option<NftDetails>)

  /** `UDIMetadata(rarity, attributes)`: null attributes become an empty
      array. */
  function MakeMetadata(rarity: Option<string>, attributes: Option<seq<Attribute>>): (r: Metadata)
    ensures r.rarity == rarity
    ensures r.attributes == Some(attributes.GetOr([]))
  {
    Metadata(rarity, Some(attributes.GetOr([])))
  }

  /** `UDIFuseRequest.IsValid`: the seven presence conditions and nothing
      about address format. */
  function RequestIsValid(q: FuseRequest): (r: bool)
    ensures r <==> !Text.IsNullOrEmpty(q.udiId) && !Text.IsNullOrEmpty(q.tokenId) && q.nftDetails.Some?
                   && !Text.IsNullOrEmpty(q.nftDetails.value.contractAddress)
                   && !Text.IsNullOrEmpty(q.nftDetails.value.ownerAddress)
                   && q.nftDetails.value.metadata.Some?
                   && !Text.IsNullOrEmpty(q.nftDetails.value.metadata.value.rarity)
  {
    match q.nftDetails
    case None => false
    case Some(d) =>
      !Text.IsNullOrEmpty(q.udiId) && !Text.IsNullOrEmpty(q.tokenId)
      && !Text.IsNullOrEmpty(d.contractAddress) && !Text.IsNullOrEmpty(d.ownerAddress)
      && match d.metadata
         case None => false
         case Some(m) => !Text.IsNullOrEmpty(m.rarity)
  }

  /** `UDIFuseData`; the C# field `type` is `kind` here. */
  datatype FuseData = FuseData(udiId: Option<string>, tokenId: Option<string>, kind: Option<string>,
                               fusedAt: Option<string>, fusionId: Option<string>)

  /** `UDIFuseData.IsFused`: both the fusion date and the fusion id are set. */
  predicate IsFused(d: FuseData) {
    !Text.IsNullOrEmpty(d.fusedAt) && !Text.IsNullOrEmpty(d.fusionId)
  }

  /** `UDIFuseRequest.FromJson`: null when the parse throws. */
  function RequestFromJson(parse: Envelope.Parser<FuseRequest>, json: string): (r: Option<FuseRequest>)
    ensures parse(json).Err? ==> r.None?
    ensures parse(json).Ok? ==> r == parse(json).value
  {
    Envelope.RecordFromJson(parse, json)
  }

  /** First character upper case, the rest lower case (ASCII). */
  function Capitalize(s: string): (r: string)
    requires |s| > 0
    ensures |r| == |s| && r[0] == Text.UpperChar(s[0])
    ensures forall i :: 0 < i < |s| ==> r[i] == Text.LowerChar(s[i])
  {
    [Text.UpperChar(s[0])] + Text.Lower(s[1..])
  }

  /** `UDIFuseData.GetTypeDisplayName`: "Unknown" without a type; the three
      known types by name whatever their case; any other type capitalised. */
  function TypeDisplayName(d: FuseData): (r: string)
    ensures Text.IsNullOrEmpty(d.kind) ==> r == "Unknown"
    ensures !Text.IsNullOrEmpty(d.kind) && Text.Lower(d.kind.value) == "premium" ==> r == "Premium"
    ensures !Text.IsNullOrEmpty(d.kind) && Text.Lower(d.kind.value) == "standard" ==> r == "Standard"
    ensures !Text.IsNullOrEmpty(d.kind) && Text.Lower(d.kind.value) == "basic" ==> r == "Basic"
  {
    if Text.IsNullOrEmpty(d.kind) then "Unknown"
    else
      var lowered := Text.Lower(d.kind.value);
      if lowered == "premium" then "Premium"
      else if lowered == "standard" then "Standard"
      else if lowered == "basic" then "Basic"
      else Capitalize(d.kind.value)
  }

  /** A name the capitalisation rule maps to `name`, given in lower case. */
  lemma KnownNameIsCapitalized(s: string, name: string)
    requires |s| > 0 && |name| == |s|
    requires Text.Lower(s) == Text.Lower(name) && name[0] == Text.UpperChar(name[0])
    requires forall i :: 0 < i < |name| ==> name[i] == Text.LowerChar(name[i])
    ensures Capitalize(s) == name
  {
    var c := Capitalize(s);
    forall i | 0 <= i < |s|
      ensures c[i] == name[i]
    {
      assert Text.Lower(s)[i] == Text.Lower(name)[i];
      if 'A' <= s[i] <= 'Z' || 'a' <= s[i] <= 'z' {
      }
    }
  }

  /** The three named cases are redundant: every set type is displayed
      exactly as the capitalisation rule gives. */
  lemma DisplayNameIsCapitalization(d: FuseData)
    requires !Text.IsNullOrEmpty(d.kind)
    ensures TypeDisplayName(d) == Capitalize(d.kind.value)
  {
    var s := d.kind.value;
    var lowered := Text.Lower(s);
    if lowered == "premium" {
      KnownNameIsCapitalized(s, "Premium");
    } else if lowered == "standard" {
      KnownNameIsCapitalized(s, "Standard");
    } else if lowered == "basic" {
      KnownNameIsCapitalized(s, "Basic");
    }
  }

  /** `UDIFuseResponse`. */
  type Response = Envelope.Response<FuseData>

  /** `UDIFuseResponse.FromJson`. */
  function ResponseFromJson(parse: Envelope.Parser<Response>, json: string): (r: Option<Response>)
    ensures parse(json).Err? ==> r == Some(Envelope.Response(false, None, None, Some(parse(json).error)))
    ensures parse(json).Ok? ==> r == parse(json).value
  {
    Envelope.ResponseFromJson(parse, json)
  }

  /** `UDIFuseResponse.IsValid` holds exactly for a successful envelope with data, so
      the envelope a failed parse produces is never valid. */
  lemma ResponseValidity(parse: Envelope.Parser<Response>, json: string)
    ensures var r := ResponseFromJson(parse, json);
            ((r.Some? && Envelope.IsValid(r.value))
             <==> (parse(json).Ok? && parse(json).value.Some? && parse(json).value.value.success
                   && parse(json).value.value.data.Some?))
            && (parse(json).Err? ==> r.value.error.Some? && !Envelope.IsValid(r.value))
  {
  }
}
