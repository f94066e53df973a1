# Image-to-sketch client: a Dafny model of its core

The client lets a user upload a photo, pick five stylistic options, and ask
a hosted image model for a stylised rendering. This project models the
parts of it that have precise behaviour:

- **Option model** (`types.dfy`, module `SketchTypes`): the five closed
  enumerations (`SketchStyle`, `ArtistStyle`, `LineThickness`,
  `CanvasType`, `BackgroundOption`). Each value has its run-time string
  label. `SketchOptions` is the record that holds one value of each.
  `NoArtist` stands for the enumeration member `ArtistStyle.NONE`.
- **Prompt compiler** (`prompt.dfy`, module `Prompt`): `ConstructPrompt`
  builds the instruction text by successive appends. As the client does,
  it compares the options' run-time labels, so the background `switch`
  keeps its `default` arm. A typed reference template
  (`BackgroundClauseFor`, `ArtistClauseFor`) chooses sentences by matching
  on the values instead, and the two are proved equal.
- **Data URLs** (`data_url.dfy`, module `DataUrl`): the
  `data:<mime>;base64,<payload>` form of RFC 2397, section 3. The MIME
  type and payload are taken apart exactly as the client's `split(...)[k]`
  calls do, including what an absent field gives (`undefined`, or the
  string "undefined" once coerced). `FormatDataUrl` is the template string
  that builds a data URL. `CopyCharCodes` is the loop that fills the
  `Uint8Array`. `DataUrlToBlob` is the whole helper. `atob` is a parameter.
- **Generation client** (`gemini_service.dfy`, module `GeminiService`):
  `GenerateSketch` decodes the source image and compiles the prompt. It
  sends one request through the `remote` parameter, walks
  `candidates[0].content.parts` and returns the first part with inline
  data as a data URL. Every failure on the way becomes
  `{imageUrl: null, error}`.
- **Application state** (`app.dfy`, module `App`): class `SketchApp` with
  the five state fields and the upload, option-change and generate
  handlers. The generate handler receives the settled outcome of the
  awaited service call as a parameter. It returns the arguments the
  service was called with, and a ghost snapshot of the state while the
  call is in flight.
- `js_values.dfy` (module `JsValues`) holds the JavaScript notions these
  rely on: empty slots, thrown values, truthiness, `${x}`, `split`,
  `indexOf`, `join`, and `toLowerCase` on ASCII.

Notes on what the client does:

- A data URL without the `;base64,` marker is not rejected up front.
  `atob` is handed the string "undefined", and the MIME type is still read
  from the text before the marker.
- The request carries the payload text from the `','`-split, not the
  decoded bytes. The bytes `dataUrlToBlob` copies are discarded.
- The decode-then-encode round trip holds only under side conditions.
  The MIME type must have no `:`, `,` or `;base64,`, and the payload no
  `,`. Any parameter-free `type/subtype` made of RFC 2045 (section 5.1)
  tokens and any base64 text of RFC 4648 (section 4) satisfy them. A media
  type with a quoted parameter value holding `,` or `:` does not.
- When no artist is chosen, the background sentence ends in a space and
  the closing sentence begins with one. The prompt then holds two spaces
  there; `PromptLayout` states the text as it is.

## Model

| member | source | states |
|---|---|---|
| `SketchTypes.SketchStyle.Label` | types.ts:2-10 | the run-time string value of each sketch style |
| `SketchTypes.ArtistStyle.Label` | types.ts:12-17 | the run-time string value of each artist style, `"None"` for the sentinel |
| `SketchTypes.LineThickness.Label` | types.ts:19-23 | the run-time string value of each line thickness |
| `SketchTypes.CanvasType.Label` | types.ts:25-30 | the run-time string value of each canvas type |
| `SketchTypes.BackgroundOption.Label` | types.ts:32-37 | the run-time string value of each background option |
| `SketchTypes.SketchStyleClosed` | types.ts:2-10 | the seven sketch styles are all listed and their labels are pairwise distinct |
| `SketchTypes.ArtistStyleClosed` | types.ts:12-17 | the four artist styles are all listed and their labels are pairwise distinct |
| `SketchTypes.LineThicknessClosed` | types.ts:19-23 | the three thicknesses are all listed and their labels are pairwise distinct |
| `SketchTypes.CanvasTypeClosed` | types.ts:25-30 | the four canvas types are all listed and their labels are pairwise distinct |
| `SketchTypes.BackgroundOptionClosed` | types.ts:32-37 | exactly four background options, all listed with distinct labels, so a switch over them never needs its default arm |
| `SketchTypes.ArtistSentinelSelectsArtists` | types.ts:12-17 | the `NONE` label differs from every artist's label, so `!== NONE` holds exactly for Picasso, Van Gogh and Da Vinci |
| `SketchTypes.LoweredThicknessLabelsDistinct` | types.ts:19-23 | lower-casing keeps the thickness labels distinct (both directions) |
| `Prompt.ConstructPrompt` | services/geminiService.ts:40-68 | the prompt built by successive appends from the options' labels; its layout is `PromptLayout`, its contents `PromptNamesOptions` and its artist sentence `ArtistSentenceIffArtist` |
| `Prompt.BackgroundSentence` | services/geminiService.ts:45-59 | the `switch` on the background label, with `KEEP` sharing the `default` arm; specified by `BackgroundSentenceMatches` and `UnrecognisedBackgroundKeeps` |
| `Prompt.ArtistClause` | services/geminiService.ts:61-63 | the artist sentence guarded by `!== NONE`; specified by `ArtistClauseMatches` |
| `Prompt.PromptLayout` | services/geminiService.ts:40-68 | the prompt is the style, thickness, canvas and background sentences, then the artist sentence if any, then the closing sentence, in that order; the label comparisons select the sentence the typed value names |
| `Prompt.BackgroundSentenceMatches` | services/geminiService.ts:45-59 | the string `switch` on a background label selects the sentence for that option |
| `Prompt.UnrecognisedBackgroundKeeps` | services/geminiService.ts:45-59 | any background value gives one of the four non-empty sentences; a value outside REMOVE, WHITE and SCENIC gives the "keep" sentence |
| `Prompt.ArtistClauseMatches` | services/geminiService.ts:61-63 | the `!== NONE` test adds the artist sentence exactly for a real artist |
| `Prompt.PromptNamesOptions` | services/geminiService.ts:41-59 | the prompt contains the sketch-style and canvas labels in double quotes, the lower-cased thickness label, and the chosen background's keyword ("transparent", "plain white color", "scenic landscape", "Keep the original background") |
| `Prompt.BackgroundKeywordOccurs` | services/geminiService.ts:46-57 | each background sentence contains its keyword |
| `Prompt.ArtistSentenceIffArtist` | services/geminiService.ts:61-65 | the prompt equals the artist-free prompt iff no artist is chosen; otherwise it is that prompt with the sentence naming the artist verbatim inserted before the closing sentence |
| `Prompt.PlainPrompt` | services/geminiService.ts:40-65 | with the artist reset to `NONE`, the prompt is the four fixed sentences followed directly by the closing sentence |
| `Prompt.ArtistSentenceInserted` | services/geminiService.ts:61-65 | the closing sentence directly follows the four fixed sentences exactly when no artist is chosen; otherwise the artist sentence comes between them |
| `Prompt.ArtistClauseForNames` | services/geminiService.ts:61-63 | the artist clause is empty exactly for `NONE` and otherwise names the artist's label |
| `JsValues.Split` | services/geminiService.ts:13-14 | `String.prototype.split` with a non-empty separator; it always yields at least one piece. `SplitAtFirst` and `SplitNone`, with `IndexOf`'s first-occurrence contract, fix its leftmost, non-overlapping pieces. `SplitJoin` alone does not fix them for a separator that can overlap itself: both `["", "a"]` and `["a", ""]` join `"aa"` back to `"aaa"` |
| `JsValues.IndexOf` | services/geminiService.ts:13-14 | the first index at which the separator occurs, or none when it does not occur |
| `JsValues.SplitJoin` | services/geminiService.ts:13-14 | `split` then `join` gives back the string, and no piece holds the separator |
| `JsValues.At` | services/geminiService.ts:14-15 | `a[k]` on an array of strings: the element below the length, `undefined` past the end |
| `JsValues.SecondPieceIffSeparator` | services/geminiService.ts:13-15 | `s.split(sep)[1]` is defined exactly when `sep` occurs in `s`, so `parts[1]` (line 15) and `split(',')[1]` (line 76) are `undefined` exactly when the marker or the comma is missing |
| `JsValues.SplitAtFirst` | services/geminiService.ts:13-14 | when `sep` first occurs at i, the first piece is the text before i and the rest is the split of the text after that occurrence |
| `JsValues.SplitNone` | services/geminiService.ts:13-14 | without an occurrence of `sep`, `split` yields the whole string as its only piece |
| `JsValues.Truthy` | App.tsx:42-56 | JS truthiness of a possibly absent string: false for null and for the empty string, the test behind `!originalImage`, `if (result.imageUrl)` and the fallback on `result.error` |
| `JsValues.Interpolate` | services/geminiService.ts:99 | `${x}` for a possibly absent string: the string itself, or "undefined" |
| `JsValues.ToLower` | services/geminiService.ts:42 | `.toLowerCase()` on ASCII letters, the rest unchanged |
| `DataUrl.MimeTypeOf` | services/geminiService.ts:13-14 | `parts[0].split(':')[1]`, undefined when the text before the marker has no colon; inverted by `FormatThenExtract` |
| `DataUrl.Base64FieldOf` | services/geminiService.ts:13-15 | `parts[1]` coerced to a string for `atob`, the string "undefined" when there is no marker; see `MissingMarkerDecodesUndefined` |
| `DataUrl.PayloadOf` | services/geminiService.ts:76 | `imageDataUrl.split(',')[1]`; inverted by `FormatThenExtract` |
| `DataUrl.FormatDataUrl` | services/geminiService.ts:99 | the template `data:${mimeType};base64,${data}`, with an absent field printed as "undefined"; its scheme prefix is `GeminiService.FormattedHasScheme` |
| `DataUrl.FormatThenExtract` | services/geminiService.ts:14-15 | for `data:${m};base64,${d}` with no `:`, `,` or `;base64,` in m and no `,` in d, the MIME extraction gives m, the `','`-split gives d, and `atob` receives d |
| `DataUrl.FormatThenExtractMediaType` | services/geminiService.ts:76 | the same round trip for any parameter-free `type/subtype` made of RFC 2045 tokens and any RFC 4648 base64 text |
| `DataUrl.MediaTypeIsSafe` | services/geminiService.ts:14 | a `type/subtype` made of RFC 2045 tokens has no `:`, `,` or `;base64,` |
| `DataUrl.Base64HasNoComma` | services/geminiService.ts:76 | base64 text never contains `,` |
| `DataUrl.MarkerFirstAfterMime` | services/geminiService.ts:13 | in a formatted data URL the first `;base64,` is the one after the MIME type |
| `DataUrl.MarkerSplit` | services/geminiService.ts:13 | splitting a formatted data URL at `;base64,` gives exactly the `data:`-prefixed MIME type and the payload |
| `DataUrl.ColonSplit` | services/geminiService.ts:14 | splitting `data:<m>` at `:` gives exactly `data` and m when m has no colon |
| `DataUrl.CommaSplit` | services/geminiService.ts:76 | splitting a formatted data URL at `,` gives the payload as the second and last piece |
| `DataUrl.CopyCharCodes` | services/geminiService.ts:16-20 | the byte array has the decoded string's length and byte i is character i's code modulo 256 |
| `DataUrl.CharCodeBytesExact` | services/geminiService.ts:18-20 | a binary string (every code below 256) is copied exactly, and bytes survive the trip through a binary string |
| `DataUrl.DecodeDataUrl` | services/geminiService.ts:12-23 | the MIME field and the copied bytes of `atob`'s result, or `atob`'s exception; the specification `DataUrlToBlob` is proved against |
| `DataUrl.DataUrlToBlob` | services/geminiService.ts:12-23 | the result is the copied bytes with the extracted MIME type, or what `atob` throws on the `';base64,'` field |
| `DataUrl.DecodeFormatted` | services/geminiService.ts:12-23 | decoding a formatted data URL yields its MIME type and the bytes `atob` gives for its payload |
| `DataUrl.MissingMarkerDecodesUndefined` | services/geminiService.ts:13-15 | without the marker, `atob` is handed the string "undefined" |
| `GeminiService.PartsOf` | services/geminiService.ts:96 | `response.candidates[0].content.parts`, with the TypeError thrown when a link of that chain is missing |
| `GeminiService.CaughtResult` | services/geminiService.ts:106-111 | the result for a caught exception: no image, and the Error's message or the generic text |
| `GeminiService.ScanParts` | services/geminiService.ts:96-104 | the data URL of the first inline part, or the refusal result; specified by `FirstInlinePartWins` and `NoInlinePartIffRefusal` |
| `GeminiService.RequestFor` | services/geminiService.ts:76-84 | the request's image part, holding the MIME type from `dataUrlToBlob` and the `split(',')[1]` payload, and its text part holding the prompt; `RequestCarriesImageAndPrompt` is stated through it |
| `GeminiService.SendResult` | services/geminiService.ts:74-112 | decode, one request carrying the given prompt, read the parts, scan, and catch every exception; `SendIsImageXorError` is proved for any prompt |
| `GeminiService.GenerateSketchResult` | services/geminiService.ts:70-113 | `SendResult` with the prompt compiled from the options; the specification `GenerateSketch` is proved against |
| `GeminiService.FirstInlineIndex` | services/geminiService.ts:96-97 | the index of the first part with inline data, or none exactly when no part has any |
| `GeminiService.ScanForImage` | services/geminiService.ts:96-104 | the loop with early return yields the first inline part's data URL, or the refusal result when no part has inline data |
| `GeminiService.GenerateSketch` | services/geminiService.ts:70-113 | decode, one request with the compiled prompt, scan the parts with early return, and map every failure to a result |
| `GeminiService.FirstInlinePartWins` | services/geminiService.ts:96-101 | the result is the data URL of the first part with inline data, and later parts are ignored |
| `GeminiService.NoInlinePartIffRefusal` | services/geminiService.ts:96-104 | the refusal message is returned exactly when no part has inline data |
| `GeminiService.ResultIsImageXorError` | services/geminiService.ts:74-112 | every path yields exactly one of an image URL and an error text, and an image URL starts with `data:` |
| `GeminiService.SendIsImageXorError` | services/geminiService.ts:74-112 | for any prompt, the decode-send-scan pipeline yields exactly one of an image URL and an error text |
| `GeminiService.ResponseShapeFailureSurfaces` | services/geminiService.ts:96-111 | a response without `candidates[0].content.parts` surfaces as the message of the TypeError that reading it throws, one of the four for the missing link |
| `GeminiService.PartsOfThrowsTypeError` | services/geminiService.ts:96 | reading the parts of a malformed response throws only an Error, with one of the four TypeError messages |
| `GeminiService.RemoteFailureSurfaces` | services/geminiService.ts:106-111 | a failure of the remote call becomes the Error's message, or the generic text for a non-Error |
| `GeminiService.DecodeFailureSurfaces` | services/geminiService.ts:75 | a decoder exception is caught and becomes the error result, before any request |
| `GeminiService.RequestCarriesImageAndPrompt` | services/geminiService.ts:75-84 | for a well-formed source image the request carries its MIME type, its payload and the prompt compiled from the options |
| `GeminiService.ReturnedImageRoundTrips` | services/geminiService.ts:98-99 | a returned media type and base64 payload are recovered from the produced data URL by the client's own extraction |
| `SketchTypes.DefaultOptions` | App.tsx:18-24 | the initial options PENCIL_BW, NONE, MEDIUM, WHITE_PAPER and KEEP |
| `App.InitialState` | App.tsx:13-24 | the initial state: no source image, no sketch, not loading, no error, the default options |
| `App.Issue` | App.tsx:47-49 | the state once the call is issued: loading, with error and sketch cleared |
| `App.Settle` | App.tsx:53-64 | the state once the call settles: the sketch for a truthy URL, otherwise the error text, and loading off; specified by `SettledShowsSketchXorError` |
| `App.RejectionText` | App.tsx:58-61 | `Error: ` followed by the Error's message, or by the generic text for a non-Error |
| `App.MissingImageText` | App.tsx:56 | the result's error text when truthy, otherwise the fallback text; specified by `ServiceErrorShown` |
| `App.ApplyChange` | components/ControlPanel.tsx:37-39 | the spread update `{...prev, [key]: value}` on one option field; specified by `OptionChangesCompose` |
| `App.SketchApp.GenerateEnabled` | components/ControlPanel.tsx:88 | the generate button is enabled when not loading and an image is uploaded |
| `App.SketchApp.constructor` | App.tsx:12-24 | no images, no error, not loading, options PENCIL_BW / NONE / MEDIUM / WHITE_PAPER / KEEP |
| `App.SketchApp.HandleImageUpload` | App.tsx:35-39 | sets the source image, clears sketch and error, leaves loading and options unchanged |
| `App.SketchApp.HandleOptionChange` | components/ControlPanel.tsx:37-39 | replaces one option field and nothing else |
| `App.SketchApp.HandleGenerateSketch` | App.tsx:41-65 | without an image only the error changes and no call is made; otherwise the call gets the current image and options, the in-flight state is loading with sketch and error cleared, and the final state is the settled outcome; the call is made exactly when the button is enabled (components/ControlPanel.tsx:88); afterwards exactly one of sketch and error is set |
| `App.SettledShowsSketchXorError` | App.tsx:53-64 | once a call settles, loading is off, exactly one of the sketch and a non-empty error is shown, and the sketch is shown exactly for a truthy image URL, which it is |
| `App.ServiceErrorShown` | App.tsx:55-57 | a returned result without an image shows its error text, or the fallback text when that is empty or absent |
| `App.RemoteFailureReachesUser` | App.tsx:52-57 | a remote Error with a non-empty message reaches the error field unchanged (an empty message gives the fallback text of line 56), through the result rather than the handler's own `catch` |
| `App.OptionChangesCompose` | components/ControlPanel.tsx:37-39 | changes to different fields commute, a later change to the same field wins, repeating a change does nothing |

## Left out

- The `API_KEY` check and the `GoogleGenAI` client are not modelled. The remote model call is the `remote` parameter of `GenerateSketch`.
- `atob` is the `Decoder` parameter; base64 decoding itself is not modelled.
- The `Blob` object is not modelled. `DataUrlToBlob` returns its bytes and the MIME type; `Blob`'s normalisation of `type` plays no part because only the MIME type is used.
- `blobToBase64` (FileReader, unused by the client) is not modelled.
- Camera capture, `FileReader`, canvas drawing and alerts (components/ImageUploader.tsx) are browser I/O and are not modelled. The uploaded data URL is the parameter of `HandleImageUpload`.
- JSX rendering, the download link and the dark-mode toggle with its DOM class change are not modelled; they carry no logic.
- `console.error` is not modelled.
- Asynchrony and React's batching of state updates are not modelled. Each handler is one atomic step, and the awaited call's outcome is a parameter of `HandleGenerateSketch`. `RemoteFailureReachesUser` links that outcome to `GenerateSketch`.
- `null` and `undefined` are the one value `None` of `Option`, so `Interpolate(None)` prints "undefined" where `${null}` would print "null". The response fields the template reads are left out when absent rather than set to null.
- `ToLower` covers ASCII letters only; the labels it is applied to are ASCII.
- Characters are Unicode scalar values rather than UTF-16 code units. This changes nothing for the binary strings `atob` returns, whose codes are all below 256.
- The messages of the TypeErrors thrown on a response without `candidates[0].content.parts` use the V8 engine's wording; other engines word them differently.
- The select menus' `value as T` cast is modelled as a typed `OptionChange`. A label outside an enumeration cannot reach the options this way, and the prompt's `default` arm is covered separately by `UnrecognisedBackgroundKeeps`.
