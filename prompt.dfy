/// The prompt compiler: a total, deterministic map from the option record
/// to the instruction text sent to the image model. It compares the
/// run-time string values of the options, as the client does, so the
/// background switch keeps its defensive default arm.
module Prompt {
  import opened JsValues
  import opened SketchTypes

  // The background sentences, each written around the phrase that tells
  // it apart from the others.
  const RemoveSentence := "The background of the main subject should be removed and made " + "transparent" + ". "
  const WhiteSentence := "The background of the main subject should be a " + "plain white color" + ". "
  const ScenicSentence := "Replace the original background with a beautiful, " + "scenic landscape"
    + " that complements the subject. "
  const KeepSentence := "" + "Keep the original background" + ", but render it in the same sketch style as the subject. "
  const Closing := " Focus on clean lines and accurate details to create a professional and artistic result."

  /** `"label"`: a label between double quotes. */
  function Quoted(text: string): string {
    "\"" + text + "\""
  }

  function StyleSentence(style: string): string {
    "Convert the provided image into a high-quality " + Quoted(style) + ". "
  }

  function ThicknessSentence(thickness: string): string {
    "The line thickness should be " + ToLower(thickness) + ". "
  }

  function CanvasSentence(canvas: string): string {
    "The sketch should appear as if it's on " + Quoted(canvas) + ". "
  }

  function ArtistSentence(artist: string): string {
    "The final sketch must be in the distinct artistic style of " + artist + "."
  }

  /** The `switch` over the background value: three explicit cases, and
      `KEEP` sharing its arm with `default`. */
  function BackgroundSentence(background: string): string {
    if background == Remove.Label() then RemoveSentence
    else if background == White.Label() then WhiteSentence
    else if background == Scenic.Label() then ScenicSentence
    else KeepSentence
  }

  /** The conditional artist sentence, guarded by `!== NONE`. */
  function ArtistClause(artist: string): string {
    if artist != NoArtist.Label() then ArtistSentence(artist) else ""
  }

  /** Builds the prompt by successive appends, as the client does. */
  function ConstructPrompt(options: SketchOptions): string {
    var p1 := StyleSentence(options.sketchStyle.Label());
    var p2 := p1 + ThicknessSentence(options.lineThickness.Label());
    var p3 := p2 + CanvasSentence(options.canvasType.Label());
    var p4 := p3 + BackgroundSentence(options.backgroundOption.Label());
    var p5 := p4 + ArtistClause(options.artistStyle.Label());
    p5 + Closing
  }

  // ---------------------------------------------------------------
  // Reference template over the typed options: which sentence each
  // enumerated value selects, decided by matching on the value rather
  // than by comparing labels.

  function BackgroundClauseFor(b: BackgroundOption): string {
    match b
    case Remove => RemoveSentence
    case White => WhiteSentence
    case Scenic => ScenicSentence
    case Keep => KeepSentence
  }

  function ArtistClauseFor(a: ArtistStyle): string {
    match a
    case NoArtist => ""
    case Picasso => ArtistSentence("Picasso")
    case VanGogh => ArtistSentence("Van Gogh")
    case DaVinci => ArtistSentence("Da Vinci")
  }

  /** The word or phrase that tells the background sentences apart. */
  function BackgroundKeyword(b: BackgroundOption): string {
    match b
    case Remove => "transparent"
    case White => "plain white color"
    case Scenic => "scenic landscape"
    case Keep => "Keep the original background"
  }

  /** The four sentences before the optional artist sentence. */
  function PromptCore(o: SketchOptions): string {
    StyleSentence(o.sketchStyle.Label()) + ThicknessSentence(o.lineThickness.Label())
      + CanvasSentence(o.canvasType.Label()) + BackgroundClauseFor(o.backgroundOption)
  }

  /** The label comparison selects the sentence the value names. */
  lemma BackgroundSentenceMatches(b: BackgroundOption)
    ensures BackgroundSentence(b.Label()) == BackgroundClauseFor(b)
  {
    match b
    case Keep =>
      assert Keep.Label()[0] != Remove.Label()[0];
      assert Keep.Label()[0] != White.Label()[0];
      assert Keep.Label()[0] != Scenic.Label()[0];
    case Remove =>
    case White =>
      assert White.Label()[0] != Remove.Label()[0];
    case Scenic =>
      assert Scenic.Label()[0] != Remove.Label()[0];
      assert Scenic.Label()[0] != White.Label()[0];
  }

  lemma ArtistClauseMatches(a: ArtistStyle)
    ensures ArtistClause(a.Label()) == ArtistClauseFor(a)
  {
    if a != NoArtist {
      assert a.Label()[0] != NoArtist.Label()[0];
    }
  }

  /** Every background value, recognised or not, yields one non-empty
      sentence; a value outside the three explicit cases falls through to
      the "keep" sentence. */
  lemma UnrecognisedBackgroundKeeps(background: string)
    ensures BackgroundSentence(background) in {RemoveSentence, WhiteSentence, ScenicSentence, KeepSentence}
    ensures BackgroundSentence(background) != ""
    ensures background !in {Remove.Label(), White.Label(), Scenic.Label()}
            ==> BackgroundSentence(background) == KeepSentence
  {
  }

  /** The prompt is, in this order: the style sentence, the thickness
      sentence, the canvas sentence, exactly one background sentence, the
      artist sentence when an artist is chosen, and the closing sentence. */
  lemma {:induction false} PromptLayout(o: SketchOptions)
    ensures ConstructPrompt(o)
      == StyleSentence(o.sketchStyle.Label()) + ThicknessSentence(o.lineThickness.Label())
         + CanvasSentence(o.canvasType.Label()) + BackgroundClauseFor(o.backgroundOption)
         + ArtistClauseFor(o.artistStyle) + Closing
  {
    BackgroundSentenceMatches(o.backgroundOption);
    ArtistClauseMatches(o.artistStyle);
  }

  lemma OccursInMiddle(a: string, t: string, b: string)
    ensures OccursAt(a + t + b, t, |a|)
  {
    assert (a + t + b)[|a|..|a| + |t|] == t;
  }

  lemma OccursExtended(a: string, s: string, b: string, t: string, i: int)
    requires OccursAt(s, t, i)
    ensures OccursAt(a + s + b, t, |a| + i)
  {
    assert (a + s + b)[|a| + i..|a| + i + |t|] == s[i..i + |t|];
  }

  /** Each background sentence carries its keyword. */
  lemma BackgroundKeywordOccurs(b: BackgroundOption)
    ensures Contains(BackgroundClauseFor(b), BackgroundKeyword(b))
  {
    match b
    case Remove =>
      OccursInMiddle("The background of the main subject should be removed and made ", "transparent", ". ");
    case White =>
      OccursInMiddle("The background of the main subject should be a ", "plain white color", ". ");
    case Scenic =>
      OccursInMiddle("Replace the original background with a beautiful, ", "scenic landscape",
        " that complements the subject. ");
    case Keep =>
      OccursInMiddle("", "Keep the original background",
        ", but render it in the same sketch style as the subject. ");
  }

  /** The prompt as its five parts: the four fixed-position sentences
      and what follows them. `PromptLayout` regrouped, so that the proofs
      that use it stay within the solver's resource limit. */
  lemma PromptParts(o: SketchOptions)
    ensures ConstructPrompt(o)
      == StyleSentence(o.sketchStyle.Label()) + ThicknessSentence(o.lineThickness.Label())
         + CanvasSentence(o.canvasType.Label()) + BackgroundClauseFor(o.backgroundOption)
         + (ArtistClauseFor(o.artistStyle) + Closing)
  {
    PromptLayout(o);
  }

  /** The sketch-style and canvas labels appear verbatim between double
      quotes, the line-thickness label lower-cased, and the background
      sentence's keyword. */
  lemma PromptNamesOptions(o: SketchOptions)
    ensures Contains(ConstructPrompt(o), Quoted(o.sketchStyle.Label()))
    ensures Contains(ConstructPrompt(o), ToLower(o.lineThickness.Label()))
    ensures Contains(ConstructPrompt(o), Quoted(o.canvasType.Label()))
    ensures Contains(ConstructPrompt(o), BackgroundKeyword(o.backgroundOption))
  {
    PromptParts(o);
    var s1 := StyleSentence(o.sketchStyle.Label());
    var s2 := ThicknessSentence(o.lineThickness.Label());
    var s3 := CanvasSentence(o.canvasType.Label());
    var s4 := BackgroundClauseFor(o.backgroundOption);
    var rest := ArtistClauseFor(o.artistStyle) + Closing;
    NeedleInParts(s1, s2, s3, s4, rest, ConstructPrompt(o));

    OccursInMiddle("Convert the provided image into a high-quality ", Quoted(o.sketchStyle.Label()), ". ");
    OccursInMiddle("The line thickness should be ", ToLower(o.lineThickness.Label()), ". ");
    OccursInMiddle("The sketch should appear as if it's on ", Quoted(o.canvasType.Label()), ". ");
    BackgroundKeywordOccurs(o.backgroundOption);
  }

  /** Whatever occurs in a part occurs in any text around it. */
  lemma NeedleInPart(a: string, s: string, b: string, t: string)
    requires Contains(s, t)
    ensures Contains(a + s + b, t)
  {
    var i :| 0 <= i <= |s| && OccursAt(s, t, i);
    OccursExtended(a, s, b, t, i);
  }

  /** Whatever occurs in one of five parts occurs in their concatenation. */
  lemma NeedleInParts(s1: string, s2: string, s3: string, s4: string, rest: string, p: string)
    requires p == s1 + s2 + s3 + s4 + rest
    ensures forall t ::
              (Contains(s1, t) || Contains(s2, t) || Contains(s3, t) || Contains(s4, t)) ==> Contains(p, t)
  {
    forall t | Contains(s1, t) || Contains(s2, t) || Contains(s3, t) || Contains(s4, t)
      ensures Contains(p, t)
    {
      if Contains(s1, t) {
        NeedleInPart("", s1, s2 + s3 + s4 + rest, t);
        assert "" + s1 + (s2 + s3 + s4 + rest) == p;
      } else if Contains(s2, t) {
        NeedleInPart(s1, s2, s3 + s4 + rest, t);
        assert s1 + s2 + (s3 + s4 + rest) == p;
      } else if Contains(s3, t) {
        NeedleInPart(s1 + s2, s3, s4 + rest, t);
        assert s1 + s2 + s3 + (s4 + rest) == p;
      } else {
        NeedleInPart(s1 + s2 + s3, s4, rest, t);
      }
    }
  }

  /** The artist sentence is present exactly when an artist other than the
      sentinel is chosen: the prompt equals the one for `NONE` iff no
      artist is chosen, and otherwise is that prompt with the sentence
      naming the artist verbatim inserted before the closing sentence. */
  lemma {:induction false} ArtistSentenceIffArtist(o: SketchOptions)
    ensures var plain := ConstructPrompt(o.(artistStyle := NoArtist));
      && (o.artistStyle == NoArtist <==> ConstructPrompt(o) == plain)
      && plain == PromptCore(o) + Closing
      && (o.artistStyle != NoArtist ==>
            ConstructPrompt(o) == PromptCore(o) + ArtistSentence(o.artistStyle.Label()) + Closing)
  {
    PlainPrompt(o);
    ArtistSentenceInserted(o);
  }

  /** The prompt as the four fixed sentences, the artist clause and the
      closing sentence. `PromptLayout` abbreviated through `PromptCore`, so
      that the proofs that use it stay within the solver's resource limit. */
  lemma PromptSplit(o: SketchOptions)
    ensures ConstructPrompt(o) == PromptCore(o) + ArtistClauseFor(o.artistStyle) + Closing
  {
    PromptLayout(o);
  }

  /** The four fixed sentences do not depend on the artist. */
  lemma CoreIgnoresArtist(o: SketchOptions, o': SketchOptions)
    requires o'.sketchStyle == o.sketchStyle && o'.lineThickness == o.lineThickness
    requires o'.canvasType == o.canvasType && o'.backgroundOption == o.backgroundOption
    ensures PromptCore(o') == PromptCore(o)
  {
  }

  /** Without an artist, the closing sentence follows the four fixed ones. */
  lemma PromptWithoutArtist(o: SketchOptions)
    requires o.artistStyle == NoArtist
    ensures ConstructPrompt(o) == PromptCore(o) + Closing
  {
    PromptSplit(o);
    assert ArtistClauseFor(o.artistStyle) == "";
    assert PromptCore(o) + "" == PromptCore(o);
  }

  /** The prompt for the same options with the artist reset to `NONE`. */
  lemma PlainPrompt(o: SketchOptions)
    ensures ConstructPrompt(o.(artistStyle := NoArtist)) == PromptCore(o) + Closing
  {
    var plainOptions := o.(artistStyle := NoArtist);
    PromptWithoutArtist(plainOptions);
    CoreIgnoresArtist(o, plainOptions);
  }

  /** The prompt has the artist sentence before the closing one exactly
      when an artist is chosen. */
  lemma ArtistSentenceInserted(o: SketchOptions)
    ensures o.artistStyle == NoArtist <==> ConstructPrompt(o) == PromptCore(o) + Closing
    ensures o.artistStyle != NoArtist ==>
            ConstructPrompt(o) == PromptCore(o) + ArtistSentence(o.artistStyle.Label()) + Closing
  {
    PromptSplit(o);
    ArtistClauseForNames(o.artistStyle);
    InsertedBeforeClosing(PromptCore(o), ArtistClauseFor(o.artistStyle), Closing);
  }

  lemma ArtistSentenceNonEmpty(artist: string)
    ensures ArtistSentence(artist) != ""
  {
    assert |ArtistSentence(artist)| > 0;
  }

  /** The typed artist clause is empty exactly for the sentinel, and
      otherwise names the artist's label. */
  lemma ArtistClauseForNames(a: ArtistStyle)
    ensures a == NoArtist <==> ArtistClauseFor(a) == ""
    ensures a != NoArtist ==> ArtistClauseFor(a) == ArtistSentence(a.Label())
  {
    if a != NoArtist {
      ArtistSentenceNonEmpty(a.Label());
    }
  }

  lemma InsertedBeforeClosing(core: string, clause: string, closing: string)
    ensures core + clause + closing == core + closing <==> clause == ""
  {
    if clause != "" {
      assert |core + clause + closing| > |core + closing|;
    } else {
      assert core + clause == core;
    }
  }
}
