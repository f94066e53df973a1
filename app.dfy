/// The application's state: the source image, the generated sketch, the
/// loading flag, the error text and the option record, with the handlers
/// that change them. Each handler is one atomic step; the awaited service
/// call is represented by its outcome, passed in as a parameter.
module App {
  import opened JsValues
  import opened SketchTypes
  import opened GeminiService

  const NoImageMessage := "Please upload an image first."
  const NoImageReturnedMessage := "Failed to generate sketch. The model might not have returned an image."
  const UnknownErrorMessage := "An unknown error occurred."

  /** A snapshot of the five state fields. */
  datatype ViewState = ViewState(
    originalImage: Option<string>,
    sketchedImage: Option<string>,
    isLoading: bool,
    error: Option<string>,
    options: SketchOptions)

  /** The state the application starts in: no images, nothing loading,
      no error, the default options. */
  function InitialState(): ViewState {
    ViewState(None, None, false, None, DefaultOptions())
  }

  /** The arguments the service is called with. */
  datatype ServiceCall = ServiceCall(imageDataUrl: string, options: SketchOptions)

  /** The error text shown for a rejected service call. */
  function RejectionText(t: Thrown): string {
    "Error: " + match t
      case ErrorObject(message) => message
      case NonError => UnknownErrorMessage
  }

  /** The error text shown for a returned result without an image. */
  function MissingImageText(result: SketchResult): string {
    if Truthy(result.error) then result.error.value else NoImageReturnedMessage
  }

  /** The state once the awaited call settles, from the state it was
      issued in: the `try`, `catch` and `finally` of the handler. */
  function Settle(issued: ViewState, outcome: Result<SketchResult>): ViewState {
    match outcome
    case Ok(result) =>
      if Truthy(result.imageUrl) then issued.(sketchedImage := result.imageUrl, isLoading := false)
      else issued.(error := Some(MissingImageText(result)), isLoading := false)
    case Threw(t) => issued.(error := Some(RejectionText(t)), isLoading := false)
  }

  /** The state while the call is in flight. */
  function Issue(s: ViewState): ViewState {
    s.(isLoading := true, error := None, sketchedImage := None)
  }

  /** After a call settles, loading is over and exactly one of the sketch
      and a non-empty error text is shown; the sketch is shown exactly
      when the service returned a truthy image URL, and it is that URL. */
  lemma SettledShowsSketchXorError(s: ViewState, outcome: Result<SketchResult>)
    ensures var t := Settle(Issue(s), outcome);
      && !t.isLoading
      && (t.sketchedImage.Some? <==> t.error.None?)
      && (t.error.Some? ==> t.error.value != "")
      && (t.sketchedImage.Some? <==> outcome.Ok? && Truthy(outcome.value.imageUrl))
      && (t.sketchedImage.Some? ==> t.sketchedImage == outcome.value.imageUrl)
      && t.originalImage == s.originalImage && t.options == s.options
  {
  }

  /** The service's own error text is shown when it is non-empty; an
      empty one is replaced by the fallback text. */
  lemma ServiceErrorShown(s: ViewState, result: SketchResult)
    requires !Truthy(result.imageUrl)
    ensures Settle(Issue(s), Ok(result)).error
      == Some(if result.error.Some? && result.error.value != "" then result.error.value
              else NoImageReturnedMessage)
  {
  }

  /** A remote failure with a message (a rate limit, say) reaches the
      user as that message: `generateSketch` never rejects, so the
      handler's own `catch` is not taken on this path. */
  lemma RemoteFailureReachesUser(s: ViewState, imageDataUrl: string, atob: DataUrl.Decoder,
                                 remote: Remote, message: string)
    requires message != ""
    requires DataUrl.DecodeDataUrl(imageDataUrl, atob).Ok?
    requires remote(RequestFor(imageDataUrl, DataUrl.DecodeDataUrl(imageDataUrl, atob).value.mimeType,
                               Prompt.ConstructPrompt(s.options)))
             == Threw(ErrorObject(message))
    ensures Settle(Issue(s), Ok(GenerateSketchResult(imageDataUrl, s.options, atob, remote))).error
            == Some(message)
  {
    RemoteFailureSurfaces(imageDataUrl, s.options, atob, remote, ErrorObject(message));
  }

  // ---------------------------------------------------------------
  // Option changes from the control panel.

  datatype OptionField = SketchStyleField | ArtistStyleField | LineThicknessField
                       | CanvasTypeField | BackgroundOptionField

  /** `{ ...prev, [key]: value }` for one field. */
  datatype OptionChange =
    | SetSketchStyle(sketchStyle: SketchStyle)
    | SetArtistStyle(artistStyle: ArtistStyle)
    | SetLineThickness(lineThickness: LineThickness)
    | SetCanvasType(canvasType: CanvasType)
    | SetBackgroundOption(backgroundOption: BackgroundOption)
  {
    function Field(): OptionField {
      match this
      case SetSketchStyle(_) => SketchStyleField
      case SetArtistStyle(_) => ArtistStyleField
      case SetLineThickness(_) => LineThicknessField
      case SetCanvasType(_) => CanvasTypeField
      case SetBackgroundOption(_) => BackgroundOptionField
    }
  }

  function ApplyChange(o: SketchOptions, c: OptionChange): SketchOptions {
    match c
    case SetSketchStyle(v) => o.(sketchStyle := v)
    case SetArtistStyle(v) => o.(artistStyle := v)
    case SetLineThickness(v) => o.(lineThickness := v)
    case SetCanvasType(v) => o.(canvasType := v)
    case SetBackgroundOption(v) => o.(backgroundOption := v)
  }

  /** Changes to different fields commute, a second change to the same
      field overrides the first, and repeating a change does nothing. */
  lemma OptionChangesCompose(o: SketchOptions, c: OptionChange, d: OptionChange)
    ensures c.Field() != d.Field() ==>
      ApplyChange(ApplyChange(o, c), d) == ApplyChange(ApplyChange(o, d), c)
    ensures c.Field() == d.Field() ==>
      ApplyChange(ApplyChange(o, c), d) == ApplyChange(o, d)
    ensures ApplyChange(ApplyChange(o, c), c) == ApplyChange(o, c)
  {
  }

  // ---------------------------------------------------------------
  // The component's state.

  class SketchApp {
    var originalImage: Option<string>
    var sketchedImage: Option<string>
    var isLoading: bool
    var error: Option<string>
    var options: SketchOptions

    function State(): ViewState
      reads this
    {
      ViewState(originalImage, sketchedImage, isLoading, error, options)
    }

    /** Between handlers nothing is loading, and no sketch is shown
        without a source image. */
    predicate Valid()
      reads this
    {
      !isLoading && (!Truthy(originalImage) ==> sketchedImage.None?)
    }

    /** The generate button's enabling condition. */
    predicate GenerateEnabled()
      reads this
    {
      !(isLoading || !Truthy(originalImage))
    }

    constructor ()
      ensures Valid() && State() == InitialState()
    {
      originalImage := None;
      sketchedImage := None;
      isLoading := false;
      error := None;
      options := DefaultOptions();
    }

    /** A new source image replaces the old one and clears the sketch and
        the error. */
    method HandleImageUpload(imageDataUrl: string)
      requires Valid()
      modifies this
      ensures Valid()
      ensures State() == old(State()).(originalImage := Some(imageDataUrl), sketchedImage := None, error := None)
    {
      originalImage := Some(imageDataUrl);
      sketchedImage := None;
      error := None;
    }

    method HandleOptionChange(c: OptionChange)
      requires Valid()
      modifies this
      ensures Valid()
      ensures State() == old(State()).(options := ApplyChange(old(options), c))
    {
      options := ApplyChange(options, c);
    }

    /** Without a source image, only the error text changes and the
        service is not called. Otherwise the call is issued with the
        current image and options (`inFlight` is the state meanwhile) and
        `outcome` is what the call settles with. */
    method HandleGenerateSketch(outcome: Result<SketchResult>)
      returns (call: Option<ServiceCall>, ghost inFlight: ViewState)
      requires Valid()
      modifies this
      ensures Valid()
      ensures old(GenerateEnabled()) <==> call.Some?
      ensures !Truthy(old(originalImage)) ==>
        call.None? && State() == old(State()).(error := Some(NoImageMessage))
      ensures Truthy(old(originalImage)) ==>
        && call == Some(ServiceCall(old(originalImage).value, old(options)))
        && inFlight == Issue(old(State()))
        && State() == Settle(inFlight, outcome)
      ensures sketchedImage.Some? <==> error.None?
    {
      inFlight := State();
      if !Truthy(originalImage) {
        error := Some(NoImageMessage);
        return None, inFlight;
      }
      isLoading := true;
      error := None;
      sketchedImage := None;
      inFlight := State();
      call := Some(ServiceCall(originalImage.value, options));
      match outcome {
        case Ok(result) =>
          if Truthy(result.imageUrl) {
            sketchedImage := result.imageUrl;
          } else {
            error := Some(MissingImageText(result));
          }
        case Threw(t) =>
          error := Some(RejectionText(t));
      }
      isLoading := false;
    }
  }
}
