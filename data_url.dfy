/// Data URLs of the `data:<mime>;base64,<payload>` form (RFC 2397,
/// section 3), taken apart with the client's plain `split` calls and put
/// together with its template string, and the byte copy that turns a
/// decoded binary string into a byte array.
module DataUrl {
  import opened JsValues

  const Scheme := "data:"
  const Base64Marker := ";base64,"

  // ---------------------------------------------------------------
  // Taking a data URL apart.

  /** The MIME type: field 1 of the `':'`-split of field 0 of the
      `';base64,'`-split; `undefined` when there is no `':'`. */
  function MimeTypeOf(dataUrl: string): Option<string> {
    At(Split(Split(dataUrl, Base64Marker)[0], ":"), 1)
  }

  /** The argument handed to `atob`: field 1 of the `';base64,'`-split,
      which an absent field turns into the string "undefined". */
  function Base64FieldOf(dataUrl: string): string {
    Interpolate(At(Split(dataUrl, Base64Marker), 1))
  }

  /** The payload sent with the request: field 1 of the `','`-split. */
  function PayloadOf(dataUrl: string): Option<string> {
    At(Split(dataUrl, ","), 1)
  }

  // ---------------------------------------------------------------
  // Putting a data URL together.

  /** `data:${mimeType};base64,${data}` for fields that may be absent. */
  function FormatDataUrl(mimeType: Option<string>, data: Option<string>): string {
    Scheme + Interpolate(mimeType) + Base64Marker + Interpolate(data)
  }

  // ---------------------------------------------------------------
  // Side conditions of the round trip.

  /** A `token` character of RFC 2045, section 5.1: printable US-ASCII
      other than the `tspecials`. */
  predicate IsTokenChar(c: char) {
    32 < c as int < 127 && c !in "()<>@,;:\\\"/[]?="
  }

  predicate IsToken(s: string) {
    |s| > 0 && forall i :: 0 <= i < |s| ==> IsTokenChar(s[i])
  }

  /** `type/subtype` with no parameters. */
  predicate IsMediaType(m: string) {
    exists k | 0 < k < |m| :: m[k] == '/' && IsToken(m[..k]) && IsToken(m[k + 1..])
  }

  /** The base64 alphabet of RFC 4648, section 4. */
  predicate IsBase64Char(c: char) {
    'A' <= c <= 'Z' || 'a' <= c <= 'z' || '0' <= c <= '9' || c == '+' || c == '/'
  }

  /** Base64 text: groups of four characters, with at most two `=` pad
      characters at the end. */
  predicate IsBase64(d: string) {
    |d| % 4 == 0 && forall i :: 0 <= i < |d| ==> IsBase64At(d, i)
  }

  /** Position `i` holds an alphabet character, or a pad character in one
      of the last two positions followed only by pad characters. */
  predicate IsBase64At(d: string, i: nat)
    requires i < |d|
  {
    || IsBase64Char(d[i])
    || (d[i] == '=' && |d| - 2 <= i && (i + 1 < |d| ==> d[i + 1] == '='))
  }

  /** A media type contains none of `:`, `,` or the `;base64,` marker. */
  lemma MediaTypeIsSafe(m: string)
    requires IsMediaType(m)
    ensures ':' !in m && ',' !in m && !Contains(m, Base64Marker)
  {
    var k :| 0 < k < |m| && m[k] == '/' && IsToken(m[..k]) && IsToken(m[k + 1..]);
    forall i | 0 <= i < |m| ensures m[i] != ':' && m[i] != ',' && m[i] != ';' {
      if i < k {
        assert m[..k][i] == m[i];
      } else if i > k {
        assert m[k + 1..][i - k - 1] == m[i];
      }
    }
    forall j | 0 <= j <= |m| ensures !OccursAt(m, Base64Marker, j) {
      if j + 8 <= |m| {
        assert m[j..j + 8][0] == m[j];
      }
    }
  }

  /** The base64 alphabet has no comma. */
  lemma Base64HasNoComma(d: string)
    requires IsBase64(d)
    ensures ',' !in d
  {
    forall i | 0 <= i < |d| ensures d[i] != ',' {
      assert IsBase64At(d, i);
    }
  }

  // ---------------------------------------------------------------
  // The round trip.

  /** No occurrence of the single character `c` before index `n`. */
  lemma NoCharOccurrenceBefore(s: string, c: char, n: int)
    requires forall j :: 0 <= j < n && j < |s| ==> s[j] != c
    ensures forall j :: 0 <= j < n ==> !OccursAt(s, [c], j)
  {
    forall j | 0 <= j < n ensures !OccursAt(s, [c], j) {
      OccursAtChar(s, c, j);
    }
  }

  lemma NoCharOccurrence(s: string, c: char)
    requires c !in s
    ensures forall j :: !OccursAt(s, [c], j)
  {
    forall j ensures !OccursAt(s, [c], j) {
      OccursAtChar(s, c, j);
    }
  }

  /** In `data:<m>;base64,<d>` the first `;base64,` is the one after `m`. */
  lemma MarkerFirstAfterMime(m: string, d: string)
    requires !Contains(m, Base64Marker)
    ensures var url := FormatDataUrl(Some(m), Some(d));
      && OccursAt(url, Base64Marker, |Scheme + m|)
      && forall j :: 0 <= j < |Scheme + m| ==> !OccursAt(url, Base64Marker, j)
  {
    var url := FormatDataUrl(Some(m), Some(d));
    var p := Scheme + m;
    assert url == p + Base64Marker + d;
    assert url[|p|..|p| + 8] == Base64Marker;
    forall j | 0 <= j < |p| ensures !OccursAt(url, Base64Marker, j) {
      if j < 5 {
        assert url[j..j + 8][0] == Scheme[j];
      } else if j + 8 <= |p| {
        assert url[j..j + 8] == m[j - 5..j + 3];
        assert !OccursAt(m, Base64Marker, j - 5);
      } else {
        // The candidate overlaps the real marker, whose only ';' is its
        // first character.
        assert url[j..j + 8][|p| - j] == ';';
      }
    }
  }

  /** The `';base64,'`-split of a formatted data URL. */
  lemma MarkerSplit(m: string, d: string)
    requires !Contains(m, Base64Marker) && ',' !in d
    ensures Split(FormatDataUrl(Some(m), Some(d)), Base64Marker) == [Scheme + m, d]
  {
    var url := FormatDataUrl(Some(m), Some(d));
    var p := Scheme + m;
    assert url == p + Base64Marker + d;
    MarkerFirstAfterMime(m, d);
    SplitAtFirst(url, Base64Marker, |p|);
    assert url[..|p|] == p;
    assert url[|p| + 8..] == d;
    forall j | 0 <= j ensures !OccursAt(d, Base64Marker, j) {
      if j + 8 <= |d| {
        assert d[j..j + 8][7] == d[j + 7];
      }
    }
    SplitNone(d, Base64Marker);
  }

  /** The `':'`-split of `data:<m>` when `m` has no colon. */
  lemma ColonSplit(m: string)
    requires ':' !in m
    ensures Split(Scheme + m, ":") == ["data", m]
  {
    var p := Scheme + m;
    assert OccursAt(p, ":", 4) by {
      assert p[4..5] == ":";
    }
    NoCharOccurrenceBefore(p, ':', 4);
    SplitAtFirst(p, ":", 4);
    assert p[5..] == m;
    assert p[..4] == "data";
    NoCharOccurrence(m, ':');
    SplitNone(m, ":");
  }

  /** The `','`-split of a formatted data URL. */
  lemma CommaSplit(m: string, d: string)
    requires ',' !in m && ',' !in d
    ensures Split(FormatDataUrl(Some(m), Some(d)), ",")[1..] == [d]
  {
    var url := FormatDataUrl(Some(m), Some(d));
    var p := Scheme + m;
    assert url == p + Base64Marker + d;
    var c := |p| + 7;
    assert url[c] == ',';
    OccursAtChar(url, ',', c);
    forall j | 0 <= j < c && j < |url| ensures url[j] != ',' {
      if j < 5 {
        assert url[j] == Scheme[j];
      } else if j < |p| {
        assert url[j] == m[j - 5];
      } else {
        assert url[j] == Base64Marker[j - |p|];
      }
    }
    NoCharOccurrenceBefore(url, ',', c);
    SplitAtFirst(url, ",", c);
    assert url[c + 1..] == d;
    NoCharOccurrence(d, ',');
    SplitNone(d, ",");
  }

  /** The string built at the response step gives back its MIME type
      through the extraction of `dataUrlToBlob`, its payload through the
      `','`-split, and its payload again as the text handed to `atob`,
      provided the MIME type holds no `:`, `,` or `;base64,` and the
      payload no `,`. */
  lemma {:induction false} FormatThenExtract(m: string, d: string)
    requires ':' !in m && ',' !in m && !Contains(m, Base64Marker)
    requires ',' !in d
    ensures MimeTypeOf(FormatDataUrl(Some(m), Some(d))) == Some(m)
    ensures Base64FieldOf(FormatDataUrl(Some(m), Some(d))) == d
    ensures PayloadOf(FormatDataUrl(Some(m), Some(d))) == Some(d)
  {
    MarkerSplit(m, d);
    ColonSplit(m);
    CommaSplit(m, d);
  }

  /** The round trip for a media type and base64 text, the values the
      image service returns. */
  lemma FormatThenExtractMediaType(m: string, d: string)
    requires IsMediaType(m) && IsBase64(d)
    ensures MimeTypeOf(FormatDataUrl(Some(m), Some(d))) == Some(m)
    ensures Base64FieldOf(FormatDataUrl(Some(m), Some(d))) == d
    ensures PayloadOf(FormatDataUrl(Some(m), Some(d))) == Some(d)
  {
    MediaTypeIsSafe(m);
    Base64HasNoComma(d);
    FormatThenExtract(m, d);
  }

  // ---------------------------------------------------------------
  // Decoding: `atob` and the byte copy.

  newtype byte = x: int | 0 <= x < 256

  /** `atob`, left abstract: the decoded binary string, or what it throws
      on malformed input. */
  type Decoder = string -> Result<string>

  /** Storing a character code into a `Uint8Array` element keeps its low
      eight bits. */
  function CharCodeBytes(s: string): seq<byte> {
    seq(|s|, i requires 0 <= i < |s| => (s[i] as int % 256) as byte)
  }

  /** The binary string whose character codes are the given bytes. */
  function BinaryString(bytes: seq<byte>): string {
    seq(|bytes|, i requires 0 <= i < |bytes| => bytes[i] as int as char)
  }

  /** A binary string (every code below 256, as `atob` produces) is
      copied exactly, and bytes survive the trip through a binary
      string. */
  lemma {:induction false} CharCodeBytesExact(s: string, bytes: seq<byte>)
    ensures (forall i :: 0 <= i < |s| ==> s[i] as int < 256) ==>
              BinaryString(CharCodeBytes(s)) == s
    ensures CharCodeBytes(BinaryString(bytes)) == bytes
  {
    if forall i :: 0 <= i < |s| ==> s[i] as int < 256 {
      var t := BinaryString(CharCodeBytes(s));
      forall i | 0 <= i < |s| ensures t[i] == s[i] {
        assert (s[i] as int % 256) as int == s[i] as int;
      }
    }
  }

  /** The loop that fills the `Uint8Array` with the decoded string's
      character codes. */
  method CopyCharCodes(byteString: string) returns (bytes: array<byte>)
    ensures bytes[..] == CharCodeBytes(byteString)
  {
    bytes := new byte[|byteString|];
    for i := 0 to |byteString|
      invariant forall k :: 0 <= k < i ==> bytes[k] == (byteString[k] as int % 256) as byte
    {
      bytes[i] := (byteString[i] as int % 256) as byte;
    }
  }

  /** What `dataUrlToBlob` produces: the blob's bytes and the MIME type it
      extracted (absent when the URL has no `:` before the marker). */
  datatype BlobParts = BlobParts(bytes: seq<byte>, mimeType: Option<string>)

  function DecodeDataUrl(dataUrl: string, atob: Decoder): Result<BlobParts> {
    match atob(Base64FieldOf(dataUrl))
    case Threw(e) => Threw(e)
    case Ok(byteString) => Ok(BlobParts(CharCodeBytes(byteString), MimeTypeOf(dataUrl)))
  }

  /** `dataUrlToBlob`: split, extract the MIME type, decode, copy. A
      throwing `atob` propagates. */
  method DataUrlToBlob(dataUrl: string, atob: Decoder) returns (r: Result<BlobParts>)
    ensures r == DecodeDataUrl(dataUrl, atob)
  {
    var parts := Split(dataUrl, Base64Marker);
    var mimeType := At(Split(parts[0], ":"), 1);
    var decoded := atob(Interpolate(At(parts, 1)));
    if decoded.Threw? {
      return Threw(decoded.thrown);
    }
    var bytes := CopyCharCodes(decoded.value);
    r := Ok(BlobParts(bytes[..], mimeType));
  }

  /** Decoding a formatted data URL yields its MIME type, and the bytes
      `atob` gives for its payload. */
  lemma DecodeFormatted(m: string, d: string, atob: Decoder)
    requires ':' !in m && ',' !in m && !Contains(m, Base64Marker)
    requires ',' !in d
    ensures DecodeDataUrl(FormatDataUrl(Some(m), Some(d)), atob)
      == match atob(d)
         case Threw(e) => Threw(e)
         case Ok(s) => Ok(BlobParts(CharCodeBytes(s), Some(m)))
  {
    FormatThenExtract(m, d);
  }

  /** Without the `;base64,` marker there is no field 1, and `atob` is
      handed the string "undefined". */
  lemma MissingMarkerDecodesUndefined(dataUrl: string)
    requires !Contains(dataUrl, Base64Marker)
    ensures Base64FieldOf(dataUrl) == "undefined"
  {
    forall j ensures !OccursAt(dataUrl, Base64Marker, j) {
    }
    SplitNone(dataUrl, Base64Marker);
  }
}
