/** `UDIFuseComponent`: validating and sending a fusion request (two
    overloads), decoding the answer and the accessors over the fusion
    response it holds. */
module UdiFuseComponent {
  import opened Wrappers
  import Text
  import Envelope
  import UdiFuse
  import Udi
  import Component

  predicate IsHexDigit(c: char) {
    ('0' <= c <= '9') || ('a' <= c <= 'f') || ('A' <= c <= 'F')
  }

  /** `IsHexString`: the loop over the characters stops at the first
      non-hex one; the empty string is hex. */
  function IsHexString(s: string): (r: bool)
    ensures r <==> forall i :: 0 <= i < |s| ==> IsHexDigit(s[i])
    decreases |s|
  {
    if |s| == 0 then true
    else if !IsHexDigit(s[0]) then false
    else
      var rest := IsHexString(s[1..]);
      assert forall i :: 1 <= i < |s| ==> s[i] == s[1..][i - 1];
      rest
  }

  /** `IsValidEthereumAddress`: lower-case "0x", exactly 42 characters, and
      the 40 after the prefix all hex digits (either case). */
  function IsValidEthereumAddress(address: Option<string>): (r: bool)
    ensures r <==> address.Some? && |address.value| == 42 && address.value[0] == '0' && address.value[1] == 'x'
                   && forall i :: 2 <= i < 42 ==> IsHexDigit(address.value[i])
  {
    if Text.IsNullOrEmpty(address) then false
    else
      var a := address.value;
      var ok := Text.StartsWith(a, "0x") && |a| == 42 && IsHexString(a[2..]);
      assert |a| == 42 ==> forall i :: 2 <= i < 42 ==> a[i] == a[2..][i - 2];
      ok
  }

  /** An address in the expected shape passes, and one with a character
      outside the hex digits fails. */
  lemma EthereumAddressExamples()
    ensures IsValidEthereumAddress(Some("0x" + "0123456789abcdefABCDEF0123456789abcdef00"))
    ensures !IsValidEthereumAddress(Some("0X" + "0123456789abcdefABCDEF0123456789abcdef00"))
    ensures !IsValidEthereumAddress(Some("0x" + "0123456789abcdefABCDEF0123456789abcdef0g"))
  {
    var good := "0x" + "0123456789abcdefABCDEF0123456789abcdef00";
    assert forall i :: 2 <= i < 42 ==> IsHexDigit(good[i]);
    var bad := "0x" + "0123456789abcdefABCDEF0123456789abcdef0g";
    assert !IsHexDigit(bad[41]);
  }

  const FuseEndpointSuffix := "/udis/fuse"

  /** The string overload of `FuseUDI`: the four presence checks, then the
      contract and owner formats, first failure reported; a sent request
      carries the rarity ("common" for null) and the attributes (empty for
      null). */
  function FuseUdi(apiUrl: Option<string>, udiId: Option<string>, tokenId: Option<string>,
                   contractAddress: Option<string>, ownerAddress: Option<string>,
                   rarity: Option<string>, attributes: Option<seq<UdiFuse.Attribute>>): (r: Result<Component.Call<UdiFuse.FuseRequest>, string>)
    ensures Text.IsNullOrEmpty(udiId) ==> r == Err("UDI ID is required")
    ensures !Text.IsNullOrEmpty(udiId) && Text.IsNullOrEmpty(tokenId) ==> r == Err("Token ID is required")
    ensures (!Text.IsNullOrEmpty(udiId) && !Text.IsNullOrEmpty(tokenId) && Text.IsNullOrEmpty(contractAddress))
            ==> r == Err("Contract address is required")
    ensures (!Text.IsNullOrEmpty(udiId) && !Text.IsNullOrEmpty(tokenId) && !Text.IsNullOrEmpty(contractAddress)
             && Text.IsNullOrEmpty(ownerAddress))
            ==> r == Err("Owner address is required")
    ensures (!Text.IsNullOrEmpty(udiId) && !Text.IsNullOrEmpty(tokenId) && !Text.IsNullOrEmpty(contractAddress)
             && !Text.IsNullOrEmpty(ownerAddress) && !IsValidEthereumAddress(contractAddress))
            ==> r == Err("Invalid contract address format")
    ensures (!Text.IsNullOrEmpty(udiId) && !Text.IsNullOrEmpty(tokenId) && IsValidEthereumAddress(contractAddress)
             && !Text.IsNullOrEmpty(ownerAddress) && !IsValidEthereumAddress(ownerAddress))
            ==> r == Err("Invalid owner address format")
    ensures r.Ok? <==> !Text.IsNullOrEmpty(udiId) && !Text.IsNullOrEmpty(tokenId)
                       && IsValidEthereumAddress(contractAddress) && IsValidEthereumAddress(ownerAddress)
    ensures r.Ok? ==> r.value.action.None? && r.value.endpoint == Text.OrEmpty(apiUrl) + FuseEndpointSuffix
                      && r.value.payload == Some(UdiFuse.FuseRequest(udiId, tokenId,
                           Some(UdiFuse.NftDetails(contractAddress, ownerAddress,
                                Some(UdiFuse.Metadata(Some(rarity.GetOr("common")), Some(attributes.GetOr([]))))))))
  {
    if Text.IsNullOrEmpty(udiId) then Err("UDI ID is required")
    else if Text.IsNullOrEmpty(tokenId) then Err("Token ID is required")
    else if Text.IsNullOrEmpty(contractAddress) then Err("Contract address is required")
    else if Text.IsNullOrEmpty(ownerAddress) then Err("Owner address is required")
    else if !IsValidEthereumAddress(contractAddress) then Err("Invalid contract address format")
    else if !IsValidEthereumAddress(ownerAddress) then Err("Invalid owner address format")
    else
      var metadata := UdiFuse.Metadata(Some(rarity.GetOr("common")), Some(attributes.GetOr([])));
      var details := UdiFuse.NftDetails(contractAddress, ownerAddress, Some(metadata));
      Ok(Component.Call(None, Text.OrEmpty(apiUrl) + FuseEndpointSuffix, Some(UdiFuse.FuseRequest(udiId, tokenId, Some(details)))))
  }

  /** `IsUDIFuseRequestValid`: metadata present with a rarity set. */
  function IsUdiFuseRequestValid(q: UdiFuse.FuseRequest): (r: bool)
    ensures r <==> q.nftDetails.Some? && q.nftDetails.value.metadata.Some?
                   && !Text.IsNullOrEmpty(q.nftDetails.value.metadata.value.rarity)
  {
    match q.nftDetails
    case None => false
    case Some(d) =>
      match d.metadata
      case None => false
      case Some(m) => !Text.IsNullOrEmpty(m.rarity)
  }

  /** The object overload of `FuseUDI`: null request, the presence checks,
      the contract format, then the metadata check; the owner's format is
      never checked.  A sent request is the one given. */
  function FuseUdiRequest(apiUrl: Option<string>, request: Option<UdiFuse.FuseRequest>): (r: Result<Component.Call<UdiFuse.FuseRequest>, string>)
    ensures request.None? ==> r == Err("Fuse request is required")
    ensures request.Some? && Text.IsNullOrEmpty(request.value.udiId) ==> r == Err("UDI ID is required")
    ensures (request.Some? && !Text.IsNullOrEmpty(request.value.udiId) && Text.IsNullOrEmpty(request.value.tokenId))
            ==> r == Err("Token ID is required")
    ensures (request.Some? && !Text.IsNullOrEmpty(request.value.udiId) && !Text.IsNullOrEmpty(request.value.tokenId)
             && request.value.nftDetails.None?)
            ==> r == Err("NFT details are required")
    ensures (request.Some? && !Text.IsNullOrEmpty(request.value.udiId) && !Text.IsNullOrEmpty(request.value.tokenId)
             && request.value.nftDetails.Some?)
            ==> var d := request.value.nftDetails.value;
                (Text.IsNullOrEmpty(d.contractAddress) ==> r == Err("Contract address is required"))
                && ((!Text.IsNullOrEmpty(d.contractAddress) && Text.IsNullOrEmpty(d.ownerAddress))
                    ==> r == Err("Owner address is required"))
                && ((!Text.IsNullOrEmpty(d.contractAddress) && !Text.IsNullOrEmpty(d.ownerAddress)
                     && !IsValidEthereumAddress(d.contractAddress))
                    ==> r == Err("Invalid contract address format"))
                && ((!Text.IsNullOrEmpty(d.ownerAddress) && IsValidEthereumAddress(d.contractAddress)
                     && !IsUdiFuseRequestValid(request.value))
                    ==> r == Err("Invalid fuse request data"))
    ensures r.Ok? <==> request.Some? && UdiFuse.RequestIsValid(request.value)
                       && IsValidEthereumAddress(request.value.nftDetails.value.contractAddress)
    ensures r.Ok? ==> r.value == Component.Call(None, Text.OrEmpty(apiUrl) + FuseEndpointSuffix, request)
  {
    match request
    case None => Err("Fuse request is required")
    case Some(q) =>
      if Text.IsNullOrEmpty(q.udiId) then Err("UDI ID is required")
      else if Text.IsNullOrEmpty(q.tokenId) then Err("Token ID is required")
      else if q.nftDetails.None? then Err("NFT details are required")
      else if Text.IsNullOrEmpty(q.nftDetails.value.contractAddress) then Err("Contract address is required")
      else if Text.IsNullOrEmpty(q.nftDetails.value.ownerAddress) then Err("Owner address is required")
      else if !IsValidEthereumAddress(q.nftDetails.value.contractAddress) then Err("Invalid contract address format")
      else if !IsUdiFuseRequestValid(q) then Err("Invalid fuse request data")
      else Ok(Component.Call(None, Text.OrEmpty(apiUrl) + FuseEndpointSuffix, request))
  }

  /** What the string overload sends, the object overload sends as well,
      unless the caller passed an empty rarity: the string overload then
      sends a request that `UDIFuseRequest.IsValid` rejects. */
  lemma OverloadsAgree(apiUrl: Option<string>, udiId: Option<string>, tokenId: Option<string>,
                       contractAddress: Option<string>, ownerAddress: Option<string>,
                       rarity: Option<string>, attributes: Option<seq<UdiFuse.Attribute>>)
    ensures var r := FuseUdi(apiUrl, udiId, tokenId, contractAddress, ownerAddress, rarity, attributes);
            r.Ok? ==>
              (UdiFuse.RequestIsValid(r.value.payload.value) <==> rarity != Some(""))
              && (rarity != Some("") ==> FuseUdiRequest(apiUrl, r.value.payload) == r)
              && (rarity == Some("") ==> FuseUdiRequest(apiUrl, r.value.payload) == Err("Invalid fuse request data"))
  {
  }

  /** The object overload sends a request whose owner is no address at all. */
  lemma ObjectOverloadSkipsOwnerFormat()
    ensures var contract := "0x" + "0123456789abcdefABCDEF0123456789abcdef00";
            var q := UdiFuse.FuseRequest(Some("u"), Some("t"),
                       Some(UdiFuse.NftDetails(Some(contract), Some("owner"), Some(UdiFuse.Metadata(Some("common"), None)))));
            FuseUdiRequest(None, Some(q)).Ok? && !IsValidEthereumAddress(Some("owner"))
            && FuseUdi(None, Some("u"), Some("t"), Some(contract), Some("owner"), None, None) == Err("Invalid owner address format")
  {
    EthereumAddressExamples();
  }

  /** What the receive handler raised: `OnUDIFuseReceived(response)` or
      `OnUDIFuseError(message)`. */
  datatype Notice = Received(response: UdiFuse.Response) | Failed(message: string)

  datatype Handled = Handled(current: Option<UdiFuse.Response>, notice: Notice)

  const ParseFailure := "Failed to parse UDI Fuse data"

  /** `OnUDIFuseDataReceived(data)`: any envelope with `success` set is kept
      and reported, even without data; anything else is reported as a parse
      failure and the held response stays.  There is no direct form. */
  function OnUdiFuseDataReceived(current: Option<UdiFuse.Response>, data: Option<string>,
                                 parse: Envelope.Parser<UdiFuse.Response>): (r: Handled)
    ensures var envelope := UdiFuse.ResponseFromJson(parse, Text.OrEmpty(data));
            (envelope.Some? && envelope.value.success ==> r == Handled(envelope, Received(envelope.value)))
            && (!(envelope.Some? && envelope.value.success) ==> r == Handled(current, Failed(ParseFailure)))
  {
    var envelope := UdiFuse.ResponseFromJson(parse, Text.OrEmpty(data));
    if envelope.Some? && envelope.value.success then Handled(envelope, Received(envelope.value))
    else Handled(current, Failed(ParseFailure))
  }

  /** A reported response always comes from a successful parse, and a failed
      parse never disturbs the held response. */
  lemma FuseHandlerKeepsOnFailure(current: Option<UdiFuse.Response>, data: Option<string>,
                                  parse: Envelope.Parser<UdiFuse.Response>)
    ensures var r := OnUdiFuseDataReceived(current, data, parse);
            (r.notice.Received? ==> parse(Text.OrEmpty(data)) == Ok(Some(r.notice.response)) && r.current == Some(r.notice.response))
            && (parse(Text.OrEmpty(data)).Err? ==> r == Handled(current, Failed(ParseFailure)))
  {
  }

  /** A successful envelope without data is still accepted, though it is
      not `IsValid`. */
  lemma SuccessWithoutDataAccepted(current: Option<UdiFuse.Response>)
    ensures var empty := Envelope.Response(true, None, None, None);
            var parse: Envelope.Parser<UdiFuse.Response> := json => Ok(Some(empty));
            OnUdiFuseDataReceived(current, None, parse) == Handled(Some(empty), Received(empty))
            && !Envelope.IsValid(empty)
  {
  }

  /** `ClearFuseResponse`. */
  function ClearFuseResponse(current: Option<UdiFuse.Response>): (r: Option<UdiFuse.Response>)
    ensures r.None?
  {
    None
  }

  /** `HasFuseResponse`: a response is held; without one every accessor
      reads null, false or "".  A held response without data reads the same. */
  function HasFuseResponse(current: Option<UdiFuse.Response>): (r: bool)
    ensures r <==> current.Some?
    ensures !r || current.value.data.None? ==>
              CurrentFuseUdiId(current).None? && CurrentFuseTokenId(current).None? && CurrentFuseType(current).None?
              && CurrentFuseDate(current).None? && CurrentFusionId(current).None?
              && !IsCurrentUdiFused(current) && CurrentFuseTypeDisplayName(current) == ""
  {
    current.Some?
  }

  /** The held fusion data, when there is a response that carries some. */
  function HeldData(current: Option<UdiFuse.Response>): (r: Option<UdiFuse.FuseData>)
    ensures r.Some? <==> current.Some? && current.value.data.Some?
    ensures r.Some? ==> r == current.value.data
  {
    match current
    case None => None
    case Some(response) => response.data
  }

  /** `GetCurrentFuseUDIId`. */
  function CurrentFuseUdiId(current: Option<UdiFuse.Response>): (r: Option<string>)
    ensures HeldData(current).None? ==> r.None?
    ensures HeldData(current).Some? ==> r == HeldData(current).value.udiId
  {
    match HeldData(current)
    case None => None
    case Some(d) => d.udiId
  }

  /** `GetCurrentFuseTokenId`. */
  function CurrentFuseTokenId(current: Option<UdiFuse.Response>): (r: Option<string>)
    ensures HeldData(current).None? ==> r.None?
    ensures HeldData(current).Some? ==> r == HeldData(current).value.tokenId
  {
    match HeldData(current)
    case None => None
    case Some(d) => d.tokenId
  }

  /** `GetCurrentFuseType`. */
  function CurrentFuseType(current: Option<UdiFuse.Response>): (r: Option<string>)
    ensures HeldData(current).None? ==> r.None?
    ensures HeldData(current).Some? ==> r == HeldData(current).value.kind
  {
    match HeldData(current)
    case None => None
    case Some(d) => d.kind
  }

  /** `GetCurrentFuseDate`. */
  function CurrentFuseDate(current: Option<UdiFuse.Response>): (r: Option<string>)
    ensures HeldData(current).None? ==> r.None?
    ensures HeldData(current).Some? ==> r == HeldData(current).value.fusedAt
  {
    match HeldData(current)
    case None => None
    case Some(d) => d.fusedAt
  }

  /** `GetCurrentFusionId`. */
  function CurrentFusionId(current: Option<UdiFuse.Response>): (r: Option<string>)
    ensures HeldData(current).None? ==> r.None?
    ensures HeldData(current).Some? ==> r == HeldData(current).value.fusionId
  {
    match HeldData(current)
    case None => None
    case Some(d) => d.fusionId
  }

  /** `IsCurrentUDIFused`: false without fusion data. */
  function IsCurrentUdiFused(current: Option<UdiFuse.Response>): (r: bool)
    ensures r <==> HeldData(current).Some? && UdiFuse.IsFused(HeldData(current).value)
  {
    match HeldData(current)
    case None => false
    case Some(d) => UdiFuse.IsFused(d)
  }

  /** The held fusion counts as fused exactly when the fusion date and the
      fusion id the accessors return are both non-empty; a date alone, which
      is enough for `UDI.IsFused`, is not. */
  lemma FusedIffDateAndId(current: Option<UdiFuse.Response>)
    ensures IsCurrentUdiFused(current)
            <==> !Text.IsNullOrEmpty(CurrentFuseDate(current)) && !Text.IsNullOrEmpty(CurrentFusionId(current))
    ensures var d := UdiFuse.FuseData(None, None, None, Some("2024-01-01"), None);
            !UdiFuse.IsFused(d) && Udi.IsFused(Udi.Empty.(fusedAt := Some(Udi.Instant(0))))
  {
  }

  /** `GetCurrentFuseTypeDisplayName`: "" without fusion data. */
  function CurrentFuseTypeDisplayName(current: Option<UdiFuse.Response>): (r: string)
    ensures HeldData(current).None? ==> r == ""
    ensures HeldData(current).Some? ==> r == UdiFuse.TypeDisplayName(HeldData(current).value)
  {
    match HeldData(current)
    case None => ""
    case Some(d) => UdiFuse.TypeDisplayName(d)
  }

  /** After `ClearFuseResponse` every accessor reads null, false or "". */
  lemma ClearedReadsDefaults(current: Option<UdiFuse.Response>)
    ensures var c := ClearFuseResponse(current);
            !HasFuseResponse(c) && CurrentFuseUdiId(c).None? && CurrentFuseTokenId(c).None?
            && CurrentFuseType(c).None? && CurrentFuseDate(c).None? && CurrentFusionId(c).None?
            && !IsCurrentUdiFused(c) && CurrentFuseTypeDisplayName(c) == ""
  {
  }
}
