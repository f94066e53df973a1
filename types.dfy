/// The option model: five closed enumerations whose run-time values are
/// their string labels, and the record that holds one value of each.
module SketchTypes {
  import opened JsValues

  datatype SketchStyle =
    | PencilBw | PencilColor | Charcoal | InkOutline | Watercolor | Anime | Vintage
  {
    function Label(): string {
      match this
      case PencilBw => "Pencil Sketch (B/W)"
      case PencilColor => "Pencil Sketch (Color)"
      case Charcoal => "Charcoal Sketch"
      case InkOutline => "Ink Outline"
      case Watercolor => "Watercolor Sketch"
      case Anime => "Anime / Manga Style"
      case Vintage => "Vintage / Newspaper Effect"
    }
  }

  /** `NoArtist` is the enumeration's `NONE` sentinel. */
  datatype ArtistStyle = NoArtist | Picasso | VanGogh | DaVinci
  {
    function Label(): string {
      match this
      case NoArtist => "None"
      case Picasso => "Picasso"
      case VanGogh => "Van Gogh"
      case DaVinci => "Da Vinci"
    }
  }

  datatype LineThickness = Thin | Medium | Bold
  {
    function Label(): string {
      match this
      case Thin => "Thin"
      case Medium => "Medium"
      case Bold => "Bold"
    }
  }

  datatype CanvasType = WhitePaper | Notebook | WatercolorPaper | BrownSheet
  {
    function Label(): string {
      match this
      case WhitePaper => "White Paper"
      case Notebook => "Notebook Grid"
      case WatercolorPaper => "Watercolor Paper"
      case BrownSheet => "Brown Sheet"
    }
  }

  datatype BackgroundOption = Keep | Remove | White | Scenic
  {
    function Label(): string {
      match this
      case Keep => "Keep Original"
      case Remove => "Remove (Transparent)"
      case White => "White"
      case Scenic => "Scenic Landscape"
    }
  }

  /** All five fields are required; there is no unset state. */
  datatype SketchOptions = SketchOptions(
    sketchStyle: SketchStyle,
    artistStyle: ArtistStyle,
    lineThickness: LineThickness,
    canvasType: CanvasType,
    backgroundOption: BackgroundOption)

  // The members of each enumeration in declaration order, as
  // `Object.values` lists them for the option menus.
  const AllSketchStyles: seq<SketchStyle> :=
    [PencilBw, PencilColor, Charcoal, InkOutline, Watercolor, Anime, Vintage]
  const AllArtistStyles: seq<ArtistStyle> := [NoArtist, Picasso, VanGogh, DaVinci]
  const AllLineThicknesses: seq<LineThickness> := [Thin, Medium, Bold]
  const AllCanvasTypes: seq<CanvasType> := [WhitePaper, Notebook, WatercolorPaper, BrownSheet]
  const AllBackgroundOptions: seq<BackgroundOption> := [Keep, Remove, White, Scenic]

  /** No two entries of `labels` are equal. */
  predicate Distinct(labels: seq<string>) {
    forall i, j :: 0 <= i < j < |labels| ==> labels[i] != labels[j]
  }

  function SketchStyleLabels(): seq<string> {
    seq(|AllSketchStyles|, i requires 0 <= i < |AllSketchStyles| => AllSketchStyles[i].Label())
  }
  function ArtistStyleLabels(): seq<string> {
    seq(|AllArtistStyles|, i requires 0 <= i < |AllArtistStyles| => AllArtistStyles[i].Label())
  }
  function LineThicknessLabels(): seq<string> {
    seq(|AllLineThicknesses|, i requires 0 <= i < |AllLineThicknesses| => AllLineThicknesses[i].Label())
  }
  function CanvasTypeLabels(): seq<string> {
    seq(|AllCanvasTypes|, i requires 0 <= i < |AllCanvasTypes| => AllCanvasTypes[i].Label())
  }
  function BackgroundOptionLabels(): seq<string> {
    seq(|AllBackgroundOptions|, i requires 0 <= i < |AllBackgroundOptions| => AllBackgroundOptions[i].Label())
  }

  // Each enumeration is closed (every value is listed, so a `switch`
  // over the listed labels is exhaustive) and its labels are pairwise
  // distinct.

  lemma SketchStyleClosed()
    ensures |AllSketchStyles| == 7 && forall s: SketchStyle :: s in AllSketchStyles
    ensures Distinct(SketchStyleLabels())
  {
    forall s: SketchStyle ensures s in AllSketchStyles {
      match s
      case PencilBw => assert AllSketchStyles[0] == s;
      case PencilColor => assert AllSketchStyles[1] == s;
      case Charcoal => assert AllSketchStyles[2] == s;
      case InkOutline => assert AllSketchStyles[3] == s;
      case Watercolor => assert AllSketchStyles[4] == s;
      case Anime => assert AllSketchStyles[5] == s;
      case Vintage => assert AllSketchStyles[6] == s;
    }
  }

  lemma ArtistStyleClosed()
    ensures |AllArtistStyles| == 4 && forall a: ArtistStyle :: a in AllArtistStyles
    ensures Distinct(ArtistStyleLabels())
  {
    forall a: ArtistStyle ensures a in AllArtistStyles {
      match a
      case NoArtist => assert AllArtistStyles[0] == a;
      case Picasso => assert AllArtistStyles[1] == a;
      case VanGogh => assert AllArtistStyles[2] == a;
      case DaVinci => assert AllArtistStyles[3] == a;
    }
  }

  lemma LineThicknessClosed()
    ensures |AllLineThicknesses| == 3 && forall t: LineThickness :: t in AllLineThicknesses
    ensures Distinct(LineThicknessLabels())
  {
    forall t: LineThickness ensures t in AllLineThicknesses {
      match t
      case Thin => assert AllLineThicknesses[0] == t;
      case Medium => assert AllLineThicknesses[1] == t;
      case Bold => assert AllLineThicknesses[2] == t;
    }
  }

  lemma CanvasTypeClosed()
    ensures |AllCanvasTypes| == 4 && forall c: CanvasType :: c in AllCanvasTypes
    ensures Distinct(CanvasTypeLabels())
  {
    forall c: CanvasType ensures c in AllCanvasTypes {
      match c
      case WhitePaper => assert AllCanvasTypes[0] == c;
      case Notebook => assert AllCanvasTypes[1] == c;
      case WatercolorPaper => assert AllCanvasTypes[2] == c;
      case BrownSheet => assert AllCanvasTypes[3] == c;
    }
  }

  /** Exactly four background options: the `default` arm of a switch over
      them is unreachable for well-typed options. */
  lemma BackgroundOptionClosed()
    ensures |AllBackgroundOptions| == 4 && forall b: BackgroundOption :: b in AllBackgroundOptions
    ensures Distinct(BackgroundOptionLabels())
  {
    forall b: BackgroundOption ensures b in AllBackgroundOptions {
      match b
      case Keep => assert AllBackgroundOptions[0] == b;
      case Remove => assert AllBackgroundOptions[1] == b;
      case White => assert AllBackgroundOptions[2] == b;
      case Scenic => assert AllBackgroundOptions[3] == b;
    }
  }

  /** The `NONE` sentinel's label differs from every artist's, so
      `artistStyle !== NONE` holds exactly for the three real artists. */
  lemma ArtistSentinelSelectsArtists(a: ArtistStyle)
    ensures a.Label() != NoArtist.Label() <==> a in {Picasso, VanGogh, DaVinci}
  {
  }

  /** The line-thickness labels stay distinct after lower-casing. */
  lemma LoweredThicknessLabelsDistinct(t: LineThickness, u: LineThickness)
    ensures ToLower(t.Label()) == ToLower(u.Label()) <==> t == u
  {
    if t != u {
      assert ToLower(t.Label())[0] == LowerChar(t.Label()[0]);
      assert ToLower(u.Label())[0] == LowerChar(u.Label()[0]);
    }
  }

  /** The options the application starts with. */
  function DefaultOptions(): SketchOptions {
    SketchOptions(PencilBw, NoArtist, Medium, WhitePaper, Keep)
  }
}
