/// The generation client: decode the source image, compile the prompt,
/// send one request to the remote image model, and turn its response, or
/// whatever is thrown on the way, into a result value. The remote call is
/// a function parameter; the model, the transport and the credential
/// behind it are not part of this model.
module GeminiService {
  import opened JsValues
  import opened SketchTypes
  import opened Prompt
  import opened DataUrl

  /** The image payload of a response part. */
  datatype InlineData = InlineData(mimeType: Option<string>, data: Option<string>)

  /** A response part; text parts carry no inline data. */
  datatype Part = Part(inlineData: Option<InlineData>)

  datatype Content = Content(parts: Option<seq<Part>>)
  datatype Candidate = Candidate(content: Option<Content>)
  datatype Response = Response(candidates: Option<seq<Candidate>>)

  /** What is sent: the image part (MIME type and payload, either of which
      the naive extraction may leave undefined) and the text part. */
  datatype Request = Request(mimeType: Option<string>, data: Option<string>, prompt: string)

  /** The remote call: a response, or a transport or service failure. */
  type Remote = Request -> Result<Response>

  /** `{ imageUrl, error? }` as the client returns it. */
  datatype SketchResult = SketchResult(imageUrl: Option<string>, error: Option<string>)

  const RefusalMessage := "The model did not return an image. It might have refused the request."
  const UnknownFailureMessage := "An unknown error occurred during sketch generation."

  // Messages of the TypeError thrown when the response lacks a field on
  // the path `candidates[0].content.parts` (the V8 engine's wording).
  const NoCandidatesMessage := "Cannot read properties of undefined (reading '0')"
  const NoContentMessage := "Cannot read properties of undefined (reading 'content')"
  const NoPartsMessage := "Cannot read properties of undefined (reading 'parts')"
  const PartsNotIterableMessage := "response.candidates[0].content.parts is not iterable"

  /** `response.candidates[0].content.parts`, or the TypeError that
      reading a missing field throws. */
  function PartsOf(response: Response): Result<seq<Part>> {
    match response.candidates
    case None => Threw(ErrorObject(NoCandidatesMessage))
    case Some(cs) =>
      if |cs| == 0 then Threw(ErrorObject(NoContentMessage))
      else match cs[0].content
        case None => Threw(ErrorObject(NoPartsMessage))
        case Some(c) =>
          match c.parts
          case None => Threw(ErrorObject(PartsNotIterableMessage))
          case Some(ps) => Ok(ps)
  }

  /** The `catch` clause: an Error's message, or the generic text. */
  function CaughtResult(t: Thrown): SketchResult {
    match t
    case ErrorObject(message) => SketchResult(None, Some(message))
    case NonError => SketchResult(None, Some(UnknownFailureMessage))
  }

  /** The index of the first part that carries inline data. */
  function FirstInlineIndex(parts: seq<Part>): (r: Option<nat>)
    ensures r.Some? ==> r.value < |parts| && parts[r.value].inlineData.Some?
    ensures r.Some? ==> forall j :: 0 <= j < r.value ==> parts[j].inlineData.None?
    ensures r.None? <==> forall j :: 0 <= j < |parts| ==> parts[j].inlineData.None?
  {
    if |parts| == 0 then None
    else if parts[0].inlineData.Some? then Some(0)
    else
      match FirstInlineIndex(parts[1..])
      case None => None
      case Some(k) => Some(k + 1)
  }

  /** The data URL of a part's inline data. */
  function InlineUrl(inline: InlineData): string {
    FormatDataUrl(inline.mimeType, inline.data)
  }

  /** The outcome of scanning the parts: the first inline image, or the
      refusal message. */
  function ScanParts(parts: seq<Part>): SketchResult {
    match FirstInlineIndex(parts)
    case Some(i) => SketchResult(Some(InlineUrl(parts[i].inlineData.value)), None)
    case None => SketchResult(None, Some(RefusalMessage))
  }

  /** The request for a data URL, the MIME type extracted from it, and a
      prompt text. */
  function RequestFor(imageDataUrl: string, mimeType: Option<string>, prompt: string): Request {
    Request(mimeType, PayloadOf(imageDataUrl), prompt)
  }

  /** The `try` block once the prompt text is known: decode, send, read
      the parts, scan them; a failure at any step is caught. */
  function SendResult(imageDataUrl: string, prompt: string, atob: Decoder, remote: Remote): SketchResult {
    match DecodeDataUrl(imageDataUrl, atob)
    case Threw(e) => CaughtResult(e)
    case Ok(blob) =>
      match remote(RequestFor(imageDataUrl, blob.mimeType, prompt))
      case Threw(e) => CaughtResult(e)
      case Ok(response) =>
        match PartsOf(response)
        case Threw(e) => CaughtResult(e)
        case Ok(parts) => ScanParts(parts)
  }

  /** What `generateSketch` returns. */
  function GenerateSketchResult(imageDataUrl: string, options: SketchOptions,
                                atob: Decoder, remote: Remote): SketchResult
  {
    SendResult(imageDataUrl, ConstructPrompt(options), atob, remote)
  }

  /** The `for ... of` loop over the parts, returning at the first part
      with inline data. */
  method ScanForImage(parts: seq<Part>) returns (r: SketchResult)
    ensures r == ScanParts(parts)
  {
    for i := 0 to |parts|
      invariant forall j :: 0 <= j < i ==> parts[j].inlineData.None?
    {
      if parts[i].inlineData.Some? {
        FirstInlineIsUnique(parts, i);
        var inline := parts[i].inlineData.value;
        return SketchResult(Some(FormatDataUrl(inline.mimeType, inline.data)), None);
      }
    }
    return SketchResult(None, Some(RefusalMessage));
  }

  /** `generateSketch`: every failure inside the `try` becomes a result
      value. */
  method GenerateSketch(imageDataUrl: string, options: SketchOptions,
                        atob: Decoder, remote: Remote) returns (r: SketchResult)
    ensures r == GenerateSketchResult(imageDataUrl, options, atob, remote)
  {
    var prompt := ConstructPrompt(options);
    var blob := DataUrlToBlob(imageDataUrl, atob);
    if blob.Threw? {
      return CaughtResult(blob.thrown);
    }
    var response := remote(RequestFor(imageDataUrl, blob.value.mimeType, prompt));
    if response.Threw? {
      return CaughtResult(response.thrown);
    }
    var parts := PartsOf(response.value);
    if parts.Threw? {
      return CaughtResult(parts.thrown);
    }
    r := ScanForImage(parts.value);
  }

  // ---------------------------------------------------------------
  // Properties of the scan and of the error mapping.

  /** When some part has inline data, the result is the data URL of the
      first such part, and parts after it are ignored. */
  lemma {:induction false} FirstInlinePartWins(parts: seq<Part>, i: nat, later: seq<Part>)
    requires i < |parts| && parts[i].inlineData.Some?
    requires forall j :: 0 <= j < i ==> parts[j].inlineData.None?
    ensures ScanParts(parts) == SketchResult(Some(InlineUrl(parts[i].inlineData.value)), None)
    ensures ScanParts(parts + later) == ScanParts(parts)
  {
    FirstInlineIsUnique(parts, i);
    assert (parts + later)[i] == parts[i];
    assert forall j :: 0 <= j < i ==> (parts + later)[j] == parts[j];
    FirstInlineIsUnique(parts + later, i);
  }

  lemma FirstInlineIsUnique(parts: seq<Part>, i: nat)
    requires i < |parts| && parts[i].inlineData.Some?
    requires forall j :: 0 <= j < i ==> parts[j].inlineData.None?
    ensures FirstInlineIndex(parts) == Some(i)
  {
  }

  /** The refusal message is returned exactly when no part has inline
      data; an image is returned otherwise. */
  lemma NoInlinePartIffRefusal(parts: seq<Part>)
    ensures (forall j :: 0 <= j < |parts| ==> parts[j].inlineData.None?)
      <==> ScanParts(parts) == SketchResult(None, Some(RefusalMessage))
    ensures ScanParts(parts).imageUrl.Some? <==> ScanParts(parts).error.None?
  {
  }

  /** Exactly one of an image URL and an error text, and an image URL is
      a data URL. */
  predicate ImageXorError(r: SketchResult) {
    && (r.imageUrl.Some? <==> r.error.None?)
    && (r.imageUrl.Some? ==> |r.imageUrl.value| >= 5 && r.imageUrl.value[..5] == Scheme)
  }

  lemma ScanIsImageXorError(parts: seq<Part>)
    ensures ImageXorError(ScanParts(parts))
  {
    match FirstInlineIndex(parts)
    case None =>
    case Some(i) =>
      var inline := parts[i].inlineData.value;
      FormattedHasScheme(inline.mimeType, inline.data);
  }

  /** Whatever happens, `generateSketch` yields exactly one of an image
      URL and an error text, and an image URL is a data URL. */
  lemma {:induction false} ResultIsImageXorError(imageDataUrl: string, options: SketchOptions,
                                                 atob: Decoder, remote: Remote)
    ensures ImageXorError(GenerateSketchResult(imageDataUrl, options, atob, remote))
  {
    SendIsImageXorError(imageDataUrl, ConstructPrompt(options), atob, remote);
  }

  lemma {:induction false} SendIsImageXorError(imageDataUrl: string, prompt: string,
                                               atob: Decoder, remote: Remote)
    ensures ImageXorError(SendResult(imageDataUrl, prompt, atob, remote))
  {
    match DecodeDataUrl(imageDataUrl, atob)
    case Threw(e) =>
    case Ok(blob) =>
      match remote(RequestFor(imageDataUrl, blob.mimeType, prompt))
      case Threw(e) =>
      case Ok(response) =>
        match PartsOf(response)
        case Threw(e) =>
        case Ok(parts) => ScanIsImageXorError(parts);
  }

  lemma FormattedHasScheme(mimeType: Option<string>, data: Option<string>)
    ensures |FormatDataUrl(mimeType, data)| >= 5 && FormatDataUrl(mimeType, data)[..5] == Scheme
  {
    var url := FormatDataUrl(mimeType, data);
    assert url == Scheme + (Interpolate(mimeType) + Base64Marker + Interpolate(data));
  }

  /** A failure thrown by the remote call (a rate limit, say) surfaces
      as the failure's message, or the generic text for a non-Error. */
  lemma RemoteFailureSurfaces(imageDataUrl: string, options: SketchOptions,
                              atob: Decoder, remote: Remote, t: Thrown)
    requires DecodeDataUrl(imageDataUrl, atob).Ok?
    requires remote(RequestFor(imageDataUrl, DecodeDataUrl(imageDataUrl, atob).value.mimeType, ConstructPrompt(options)))
             == Threw(t)
    ensures GenerateSketchResult(imageDataUrl, options, atob, remote)
      == SketchResult(None, Some(if t.ErrorObject? then t.message else UnknownFailureMessage))
  {
  }

  /** A response without `candidates[0].content.parts` surfaces as the
      TypeError's message, for each of the four links that can be
      missing. */
  lemma ResponseShapeFailureSurfaces(imageDataUrl: string, options: SketchOptions,
                                     atob: Decoder, remote: Remote, response: Response, t: Thrown)
    requires DecodeDataUrl(imageDataUrl, atob).Ok?
    requires remote(RequestFor(imageDataUrl, DecodeDataUrl(imageDataUrl, atob).value.mimeType, ConstructPrompt(options)))
             == Ok(response)
    requires PartsOf(response) == Threw(t)
    ensures t.ErrorObject?
    ensures t.message in {NoCandidatesMessage, NoContentMessage, NoPartsMessage, PartsNotIterableMessage}
    ensures GenerateSketchResult(imageDataUrl, options, atob, remote) == SketchResult(None, Some(t.message))
  {
    PartsOfThrowsTypeError(response, t);
    SendResponseShapeFailure(imageDataUrl, ConstructPrompt(options), atob, remote, response, t);
  }

  /** Reading the parts of a malformed response throws one of the four
      TypeErrors. */
  lemma PartsOfThrowsTypeError(response: Response, t: Thrown)
    requires PartsOf(response) == Threw(t)
    ensures t.ErrorObject?
    ensures t.message in {NoCandidatesMessage, NoContentMessage, NoPartsMessage, PartsNotIterableMessage}
  {
  }

  lemma SendResponseShapeFailure(imageDataUrl: string, prompt: string,
                                 atob: Decoder, remote: Remote, response: Response, t: Thrown)
    requires DecodeDataUrl(imageDataUrl, atob).Ok?
    requires remote(RequestFor(imageDataUrl, DecodeDataUrl(imageDataUrl, atob).value.mimeType, prompt)) == Ok(response)
    requires PartsOf(response) == Threw(t)
    ensures SendResult(imageDataUrl, prompt, atob, remote) == CaughtResult(t)
  {
  }

  /** A malformed data URL that `atob` rejects never reaches the remote
      model: the decoder's exception becomes the error text. */
  lemma DecodeFailureSurfaces(imageDataUrl: string, options: SketchOptions,
                              atob: Decoder, remote: Remote, t: Thrown)
    requires atob(Base64FieldOf(imageDataUrl)) == Threw(t)
    ensures GenerateSketchResult(imageDataUrl, options, atob, remote) == CaughtResult(t)
  {
  }

  /** The request carries the prompt compiled from the options and, for a
      well-formed source image, its MIME type and payload. */
  lemma {:induction false} RequestCarriesImageAndPrompt(m: string, d: string, options: SketchOptions, atob: Decoder)
    requires IsMediaType(m) && IsBase64(d)
    requires atob(d).Ok?
    ensures var url := FormatDataUrl(Some(m), Some(d));
      && DecodeDataUrl(url, atob).Ok?
      && RequestFor(url, DecodeDataUrl(url, atob).value.mimeType, ConstructPrompt(options))
         == Request(Some(m), Some(d), ConstructPrompt(options))
  {
    FormatThenExtractMediaType(m, d);
  }

  /** An image returned with a media type and base64 payload comes back as
      a data URL from which the client's own extraction recovers both, so
      it can be sent again as a source image. */
  lemma {:induction false} ReturnedImageRoundTrips(parts: seq<Part>, m: string, d: string)
    requires FirstInlineIndex(parts).Some?
    requires parts[FirstInlineIndex(parts).value].inlineData.value == InlineData(Some(m), Some(d))
    requires IsMediaType(m) && IsBase64(d)
    ensures ScanParts(parts).imageUrl.Some?
    ensures MimeTypeOf(ScanParts(parts).imageUrl.value) == Some(m)
    ensures PayloadOf(ScanParts(parts).imageUrl.value) == Some(d)
  {
    FormatThenExtractMediaType(m, d);
  }
}
