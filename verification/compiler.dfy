/**
 * The prompt compiler (`constructPrompt`): a total function from the form
 * record to prompt text. The prompt is a fixed, per-mode sequence of
 * sentences; each optional sentence is kept only when its governing field is
 * set (and, for the advertisement's advanced options and the shared mood and
 * detail level, differs from its default), and the kept sentences are
 * concatenated in order.
 */
module Compiler {
  import opened Strings
  import opened Brief
  import opened Catalog
  import Seqs

  /** One sentence of a compiled prompt. */
  datatype Segment =
    // advertisement sentences, in emission order
    | AdOpening | AdLayout | AdTypography | AdPurpose | AdHeadline | AdDescription
    | AdCallToAction | AdPhotographicStyle | AdVisualElements | AdMood | AdLighting
    | AdPerspective | AdDetailLevel | AdFonts | AdBrandColors | AdClosing
    // logo sentences, in emission order
    | LogoOpening | LogoKind | LogoStyling | LogoTextCase | LogoTextWeight | LogoColorCount
    | LogoEssence | LogoValues | LogoMarket | LogoMood | LogoVisualElements | LogoFonts
    | LogoPalette | LogoDetailLevel | LogoCompetitors | LogoClosing

  /** The mode whose prompt a sentence belongs to. */
  function ModeOf(s: Segment): Mode {
    match s
    case AdOpening | AdLayout | AdTypography | AdPurpose | AdHeadline | AdDescription
      | AdCallToAction | AdPhotographicStyle | AdVisualElements | AdMood | AdLighting
      | AdPerspective | AdDetailLevel | AdFonts | AdBrandColors | AdClosing => Advertisement
    case LogoOpening | LogoKind | LogoStyling | LogoTextCase | LogoTextWeight | LogoColorCount
      | LogoEssence | LogoValues | LogoMarket | LogoMood | LogoVisualElements | LogoFonts
      | LogoPalette | LogoDetailLevel | LogoCompetitors | LogoClosing => Logo
  }

  /** A sentence's position in its mode's fixed order. */
  function Rank(s: Segment): nat {
    match s
    case AdOpening => 0        case LogoOpening => 0
    case AdLayout => 1         case LogoKind => 1
    case AdTypography => 2     case LogoStyling => 2
    case AdPurpose => 3        case LogoTextCase => 3
    case AdHeadline => 4       case LogoTextWeight => 4
    case AdDescription => 5    case LogoColorCount => 5
    case AdCallToAction => 6   case LogoEssence => 6
    case AdPhotographicStyle => 7 case LogoValues => 7
    case AdVisualElements => 8 case LogoMarket => 8
    case AdMood => 9           case LogoMood => 9
    case AdLighting => 10      case LogoVisualElements => 10
    case AdPerspective => 11   case LogoFonts => 11
    case AdDetailLevel => 12   case LogoPalette => 12
    case AdFonts => 13         case LogoDetailLevel => 13
    case AdBrandColors => 14   case LogoCompetitors => 14
    case AdClosing => 15       case LogoClosing => 15
  }

  /** Every sentence a prompt of the mode may contain, in emission order. */
  function Order(m: Mode): seq<Segment> {
    match m
    case Advertisement =>
      [AdOpening, AdLayout, AdTypography, AdPurpose, AdHeadline, AdDescription,
       AdCallToAction, AdPhotographicStyle, AdVisualElements, AdMood, AdLighting,
       AdPerspective, AdDetailLevel, AdFonts, AdBrandColors, AdClosing]
    case Logo =>
      [LogoOpening, LogoKind, LogoStyling, LogoTextCase, LogoTextWeight, LogoColorCount,
       LogoEssence, LogoValues, LogoMarket, LogoMood, LogoVisualElements, LogoFonts,
       LogoPalette, LogoDetailLevel, LogoCompetitors, LogoClosing]
  }

  function Opening(m: Mode): Segment {
    if m == Advertisement then AdOpening else LogoOpening
  }

  function Closing(m: Mode): Segment {
    if m == Advertisement then AdClosing else LogoClosing
  }

  /** A field is set and differs from its default (`x && x !== baseline` in `constructPrompt`). */
  predicate Deviates(v: string, default: string) {
    v != "" && v != default
  }

  /** The condition under which the compiler emits a sentence; the fixed sentences are always emitted. */
  predicate Included(s: Segment, f: FormData) {
    match s
    case AdCallToAction => f.callToAction != ""
    case AdPhotographicStyle => Deviates(f.photographicStyle, "realistic")
    case AdVisualElements => |f.visualElements| > 0
    case AdMood => Deviates(f.mood, "neutral")
    case AdLighting => Deviates(f.lighting, "natural")
    case AdPerspective => Deviates(f.perspective, "front")
    case AdDetailLevel => Deviates(f.detailLevel, "medium")
    case AdFonts => |f.specificFonts| > 0
    case AdBrandColors => f.brandColors != ""
    case LogoTextCase => f.textCase != ""
    case LogoTextWeight => f.textWeight != ""
    case LogoColorCount => f.colorSchemeCount != ""
    case LogoEssence => f.description != ""
    case LogoValues => f.brandValues != ""
    case LogoMarket => f.targetMarket != ""
    case LogoMood => Deviates(f.mood, "neutral")
    case LogoVisualElements => |f.visualElements| > 0
    case LogoFonts => |f.specificFonts| > 0
    case LogoPalette => f.brandColors != ""
    case LogoDetailLevel => Deviates(f.detailLevel, "medium")
    case LogoCompetitors => f.competitors != ""
    case _ => true
  }

  /** User text between double quotes, as the template literals write it. */
  function Quoted(s: string): string {
    "\"" + s + "\""
  }

  /** Each visual element's phrase, or the element itself when the table lacks it. */
  function DescribeElements(vs: seq<string>): seq<string> {
    Seqs.Map(vs, v => Describe(VisualElementAxis, v, ""))
  }

  /** The logo type phrase; an unknown type falls back to a fixed phrase rather than the value. */
  function KindPhrase(v: string): string {
    match Entry(LogoTypeAxis, v)
    case Some(phrase) => phrase
    case None => "professional logo"
  }

  /** The logo's style phrase: from `logoStyle` when set, otherwise from the advertisement style. */
  function StylingPhrase(f: FormData): string {
    if f.logoStyle != "" then Describe(LogoStyleAxis, f.logoStyle, " style")
    else Describe(AdStyleAxis, f.adStyle, " style")
  }

  function AdOpeningSentence(f: FormData): string {
    "Create a visually striking " + f.adType + " advertisement with a professional "
        + f.adStyle + " aesthetic. "
  }

  function AdLayoutSentence(f: FormData): string {
    "Structure the advertisement with a " + Describe(LayoutAxis, f.layout, " layout") + ". "
  }

  function AdTypographySentence(f: FormData): string {
    "Implement " + Describe(FontStyleAxis, f.fontStyle, " typography") + " paired with a "
        + Describe(ColorSchemeAxis, f.colorScheme, " color scheme") + ". "
  }

  function AdPurposeSentence(f: FormData): string {
    "Design this advertisement for a " + Describe(PurposeAxis, f.purpose, " campaign")
        + " specifically targeting " + f.targetAudience + ". "
  }

  function AdHeadlineSentence(f: FormData): string {
    "Feature this headline prominently: " + Quoted(f.headline) + ". "
  }

  function AdDescriptionSentence(f: FormData): string {
    "Support with this descriptive copy: " + Quoted(f.description) + ". "
  }

  function AdCallToActionSentence(f: FormData): string {
    "Include a compelling call to action that stands out: " + Quoted(f.callToAction) + ". "
  }

  function AdPhotographicStyleSentence(f: FormData): string {
    "Utilize " + Describe(PhotographicStyleAxis, f.photographicStyle, " photography") + ". "
  }

  function AdVisualElementsSentence(f: FormData): string {
    "Incorporate these visual elements: " + Join(DescribeElements(f.visualElements), "; ") + ". "
  }

  function MoodSentence(f: FormData): string {
    "Establish a " + Describe(MoodAxis, f.mood, " mood") + ". "
  }

  function AdLightingSentence(f: FormData): string {
    "Illuminate with " + Describe(LightingAxis, f.lighting, " lighting") + ". "
  }

  function AdPerspectiveSentence(f: FormData): string {
    "Frame the composition from a " + Describe(PerspectiveAxis, f.perspective, " perspective") + ". "
  }

  function DetailSentence(f: FormData): string {
    "Render with " + Describe(DetailLevelAxis, f.detailLevel, " level of detail") + ". "
  }

  function AdFontsSentence(f: FormData): string {
    "Incorporate these specific typefaces for maximum brand alignment: "
        + Join(f.specificFonts, ", ") + ". "
  }

  function AdBrandColorsSentence(f: FormData): string {
    "Use this exact brand color palette for visual consistency: " + f.brandColors + ". "
  }

  /**
   * The closing sentence of an advertisement. Its text does not depend on the
   * form; the form parameter only keeps the solver from expanding it everywhere.
   */
  function AdClosingSentence(f: FormData): string {
    "Create a high-quality, professional "
        + "advertisement that effectively "
        + "communicates the message while "
        + "maintaining visual appeal and "
        + "brand coherence."
  }

  lemma AdClosingIsLong(f: FormData)
    ensures |AdClosingSentence(f)| >= 100
  {
  }

  lemma LogoClosingIsLong(f: FormData)
    ensures |LogoClosingSentence(f)| >= 100
  {
  }

  function LogoOpeningSentence(f: FormData): string {
    "Design a distinctive professional logo for " + Quoted(f.companyName) + " in the "
        + f.industry + " industry. "
  }

  function LogoKindSentence(f: FormData): string {
    "Create a " + KindPhrase(f.logoType) + ". "
  }

  function LogoStylingSentence(f: FormData): string {
    "Design the logo with a " + StylingPhrase(f) + " incorporating "
        + Describe(FontStyleAxis, f.fontStyle, " typography") + " and a "
        + Describe(ColorSchemeAxis, f.colorScheme, " color palette") + ". "
  }

  function LogoTextCaseSentence(f: FormData): string {
    "Use " + Describe(TextCaseAxis, f.textCase, " text") + ". "
  }

  function LogoTextWeightSentence(f: FormData): string {
    "Apply " + Describe(TextWeightAxis, f.textWeight, " weight") + ". "
  }

  function LogoColorCountSentence(f: FormData): string {
    "Implement a " + Describe(ColorCountAxis, f.colorSchemeCount, "-color scheme") + ". "
  }

  function LogoEssenceSentence(f: FormData): string {
    "The brand essence is described as: " + Quoted(f.description)
        + " - ensure the design reflects these qualities. "
  }

  function LogoValuesSentence(f: FormData): string {
    "Embody these core brand values: " + f.brandValues + ". "
  }

  function LogoMarketSentence(f: FormData): string {
    "Appeal to this target market: " + f.targetMarket + ". "
  }

  function LogoVisualElementsSentence(f: FormData): string {
    "Integrate these key visual elements into the logo design: " + Join(f.visualElements, ", ") + ". "
  }

  function LogoFontsSentence(f: FormData): string {
    "Use these specific typefaces for the logotype: " + Join(f.specificFonts, ", ") + ". "
  }

  function LogoPaletteSentence(f: FormData): string {
    "Apply this exact color palette: " + f.brandColors + ". "
  }

  function LogoCompetitorsSentence(f: FormData): string {
    "Ensure the design is distinct from competitors like " + f.competitors + ". "
  }

  function LogoClosingSentence(f: FormData): string {
    "Create a versatile, memorable "
        + "logo that works effectively at "
        + "different scales and in various "
        + "applications while perfectly "
        + "representing the brand's identity. "
        + "The logo should be simple "
        + "enough to be recognizable at "
        + "small sizes but distinctive "
        + "enough to stand out in the marketplace."
  }

  /** The text of one sentence for the form `f`. */
  function Text(s: Segment, f: FormData): string {
    match s
    case AdOpening => AdOpeningSentence(f)
    case AdLayout => AdLayoutSentence(f)
    case AdTypography => AdTypographySentence(f)
    case AdPurpose => AdPurposeSentence(f)
    case AdHeadline => AdHeadlineSentence(f)
    case AdDescription => AdDescriptionSentence(f)
    case AdCallToAction => AdCallToActionSentence(f)
    case AdPhotographicStyle => AdPhotographicStyleSentence(f)
    case AdVisualElements => AdVisualElementsSentence(f)
    case AdMood => MoodSentence(f)
    case LogoMood => MoodSentence(f)
    case AdLighting => AdLightingSentence(f)
    case AdPerspective => AdPerspectiveSentence(f)
    case AdDetailLevel => DetailSentence(f)
    case LogoDetailLevel => DetailSentence(f)
    case AdFonts => AdFontsSentence(f)
    case AdBrandColors => AdBrandColorsSentence(f)
    case AdClosing => AdClosingSentence(f)
    case LogoOpening => LogoOpeningSentence(f)
    case LogoKind => LogoKindSentence(f)
    case LogoStyling => LogoStylingSentence(f)
    case LogoTextCase => LogoTextCaseSentence(f)
    case LogoTextWeight => LogoTextWeightSentence(f)
    case LogoColorCount => LogoColorCountSentence(f)
    case LogoEssence => LogoEssenceSentence(f)
    case LogoValues => LogoValuesSentence(f)
    case LogoMarket => LogoMarketSentence(f)
    case LogoVisualElements => LogoVisualElementsSentence(f)
    case LogoFonts => LogoFontsSentence(f)
    case LogoPalette => LogoPaletteSentence(f)
    case LogoCompetitors => LogoCompetitorsSentence(f)
    case LogoClosing => LogoClosingSentence(f)
  }

  /** The sentences the form's prompt consists of: its mode's order, restricted to the included ones. */
  function Plan(f: FormData): seq<Segment> {
    Seqs.Filter(Order(f.generatorMode), s => Included(s, f))
  }

  /** The concatenated text of a list of items, each rendered by `text`. */
  function Render(ss: seq<Segment>, text: Segment -> string): string {
    if |ss| == 0 then "" else text(ss[0]) + Render(ss[1..], text)
  }

  /** The sentences of the form `f`, as a rendering function. */
  function Sentences(f: FormData): Segment -> string {
    s => Text(s, f)
  }

  /** `constructPrompt()`. */
  function Compile(f: FormData): string {
    Render(Plan(f), Sentences(f))
  }

  // ---------------------------------------------------------------------------
  // Properties of the fixed order

  lemma OrderIsRanked(m: Mode)
    ensures |Order(m)| == 16
    ensures forall i :: 0 <= i < 16 ==> Rank(Order(m)[i]) == i && ModeOf(Order(m)[i]) == m
  {
    if m == Advertisement { AdOrderIsRanked(); } else { LogoOrderIsRanked(); }
  }

  lemma AdOrderIsRanked()
    ensures |Order(Advertisement)| == 16
    ensures forall i :: 0 <= i < 16 ==> Rank(Order(Advertisement)[i]) == i && ModeOf(Order(Advertisement)[i]) == Advertisement
  {
    var o := Order(Advertisement);
    forall i | 0 <= i < 16
      ensures Rank(o[i]) == i && ModeOf(o[i]) == Advertisement
    {
    }
  }

  lemma LogoOrderIsRanked()
    ensures |Order(Logo)| == 16
    ensures forall i :: 0 <= i < 16 ==> Rank(Order(Logo)[i]) == i && ModeOf(Order(Logo)[i]) == Logo
  {
    var o := Order(Logo);
    forall i | 0 <= i < 16
      ensures Rank(o[i]) == i && ModeOf(o[i]) == Logo
    {
    }
  }

  /** Each sentence of a mode sits in that mode's order at its rank. */
  lemma OrderHoldsEverySegment(s: Segment)
    ensures Rank(s) < 16 && Order(ModeOf(s))[Rank(s)] == s
  {
  }

  lemma OrderMembership(m: Mode, s: Segment)
    ensures s in Order(m) <==> ModeOf(s) == m
  {
    OrderIsRanked(m);
    OrderHoldsEverySegment(s);
  }

  // ---------------------------------------------------------------------------
  // Properties of rendering

  /** Rendering distributes over concatenation of sentence lists. */
  lemma {:induction false} RenderAppend(a: seq<Segment>, b: seq<Segment>, text: Segment -> string)
    ensures Render(a + b, text) == Render(a, text) + Render(b, text)
  {
    if |a| == 0 {
      assert a + b == b;
    } else {
      assert (a + b)[1..] == a[1..] + b;
      RenderAppend(a[1..], b, text);
    }
  }

  /** Rendering a list with one item between two others puts that item's text between theirs. */
  lemma RenderAround(b: seq<Segment>, x: Segment, a: seq<Segment>, text: Segment -> string)
    ensures Render(b + [x] + a, text) == Render(b, text) + text(x) + Render(a, text)
  {
    RenderAppend(b + [x], a, text);
    RenderAppend(b, [x], text);
    assert Render([x], text) == text(x) + "";
  }

  /** Rendering a list yields text containing each listed item's text. */
  lemma {:induction false} RenderContainsEach(ss: seq<Segment>, text: Segment -> string, i: nat)
    requires i < |ss|
    ensures Contains(Render(ss, text), text(ss[i]))
  {
    RenderAppend(ss[..i], ss[i..], text);
    assert ss == ss[..i] + ss[i..];
    assert Render(ss[i..], text) == text(ss[i]) + Render(ss[i + 1..], text) by {
      assert ss[i..][1..] == ss[i + 1..];
    }
    ContainsInfix(Render(ss[..i], text), text(ss[i]), Render(ss[i + 1..], text));
    assert Render(ss, text) == Render(ss[..i], text) + text(ss[i]) + Render(ss[i + 1..], text);
  }

  /** Renderings that agree on the listed items render the list identically. */
  lemma {:induction false} RenderCongruent(ss: seq<Segment>, t: Segment -> string, u: Segment -> string)
    requires forall i :: 0 <= i < |ss| ==> t(ss[i]) == u(ss[i])
    ensures Render(ss, t) == Render(ss, u)
  {
    if |ss| > 0 {
      assert forall i :: 0 <= i < |ss[1..]| ==> ss[1..][i] == ss[i + 1];
      RenderCongruent(ss[1..], t, u);
    }
  }

  // ---------------------------------------------------------------------------
  // Properties of the compiled prompt

  /**
   * A sentence is part of the prompt if and only if it belongs to the form's
   * mode and its condition holds: optional sentences are suppressed exactly
   * when their field is empty or, where `constructPrompt` compares, at its default.
   */
  lemma PlanMembership(f: FormData, s: Segment)
    ensures s in Plan(f) <==> ModeOf(s) == f.generatorMode && Included(s, f)
  {
    OrderMembership(f.generatorMode, s);
    Seqs.FilterMembership(Order(f.generatorMode), s' => Included(s', f), s);
  }

  /** The prompt's sentences appear in the mode's fixed order, never reordered by field values. */
  lemma {:induction false} PlanFollowsFixedOrder(f: FormData)
    ensures Seqs.StrictlyIncreasing(Plan(f), s => Rank(s) as int)
  {
    OrderIsRanked(f.generatorMode);
    Seqs.FilterKeepsOrder(Order(f.generatorMode), s => Included(s, f), s => Rank(s) as int);
  }

  /** The prompt opens with the mode's opening sentence and ends with its closing sentence. */
  lemma {:induction false} PlanOpensAndCloses(f: FormData)
    ensures |Plan(f)| >= 2
    ensures Plan(f)[0] == Opening(f.generatorMode)
    ensures Plan(f)[|Plan(f)| - 1] == Closing(f.generatorMode)
  {
    var m := f.generatorMode;
    var o := Order(m);
    var p := s => Included(s, f);
    OrderIsRanked(m);
    assert o == [o[0]] + o[1..15] + [o[15]];
    Seqs.FilterAppend([o[0]] + o[1..15], [o[15]], p);
    Seqs.FilterAppend([o[0]], o[1..15], p);
    assert Seqs.Filter([o[0]], p) == [o[0]];
    assert Seqs.Filter([o[15]], p) == [o[15]];
  }

  /** A rendering begins with its first item's text and ends with its last item's text. */
  lemma {:induction false} RenderFirstLast(ss: seq<Segment>, text: Segment -> string)
    requires |ss| >= 1
    ensures IsPrefix(text(ss[0]), Render(ss, text))
    ensures IsSuffix(text(ss[|ss| - 1]), Render(ss, text))
  {
    var r := Render(ss, text);
    assert r == text(ss[0]) + Render(ss[1..], text);
    assert r[..|text(ss[0])|] == text(ss[0]);
    var q := ss[..|ss| - 1];
    assert ss == q + [ss[|ss| - 1]];
    RenderAppend(q, [ss[|ss| - 1]], text);
    assert Render([ss[|ss| - 1]], text) == text(ss[|ss| - 1]) + "";
    assert r == Render(q, text) + text(ss[|ss| - 1]);
  }

  /** A rendering begins with the text of the item it starts with. */
  lemma RenderOpensWith(ss: seq<Segment>, first: Segment, text: Segment -> string)
    requires |ss| >= 1 && ss[0] == first
    ensures IsPrefix(text(first), Render(ss, text))
  {
    RenderFirstLast(ss, text);
  }

  /** A rendering ends with the text of the item it ends with. */
  lemma RenderClosesWith(ss: seq<Segment>, last: Segment, text: Segment -> string)
    requires |ss| >= 1 && ss[|ss| - 1] == last
    ensures IsSuffix(text(last), Render(ss, text))
  {
    RenderFirstLast(ss, text);
  }

  /** The compiled text begins with the opening sentence of the form's mode. */
  lemma CompileOpens(f: FormData)
    ensures IsPrefix(Text(Opening(f.generatorMode), f), Compile(f))
  {
    PlanOpensAndCloses(f);
    RenderOpensWith(Plan(f), Opening(f.generatorMode), Sentences(f));
  }

  /** The compiled text ends with the closing sentence of the form's mode. */
  lemma CompileCloses(f: FormData)
    ensures IsSuffix(Text(Closing(f.generatorMode), f), Compile(f))
  {
    PlanOpensAndCloses(f);
    RenderClosesWith(Plan(f), Closing(f.generatorMode), Sentences(f));
  }

  /** A rendering is at least as long as the text of the item it ends with. */
  lemma RenderLastLength(ss: seq<Segment>, last: Segment, text: Segment -> string)
    requires |ss| >= 1 && ss[|ss| - 1] == last
    ensures |Render(ss, text)| >= |text(last)|
  {
    RenderFirstLast(ss, text);
  }

  /** The advertisement closing sentence runs to at least 100 characters. */
  lemma AdClosingTextIsLong(f: FormData)
    ensures |Sentences(f)(AdClosing)| >= 100
  {
    AdClosingIsLong(f);
  }

  /** The logo closing sentence runs to at least 100 characters. */
  lemma LogoClosingTextIsLong(f: FormData)
    ensures |Sentences(f)(LogoClosing)| >= 100
  {
    LogoClosingIsLong(f);
  }

  /** Every compiled prompt is at least 100 characters long, as it ends with a closing sentence. */
  lemma CompiledPromptsAreLong(f: FormData)
    ensures |Compile(f)| >= 100
  {
    match f.generatorMode
    case Advertisement => AdPromptsAreLong(f);
    case Logo => LogoPromptsAreLong(f);
  }

  lemma AdPromptsAreLong(f: FormData)
    requires f.generatorMode == Advertisement
    ensures |Compile(f)| >= 100
  {
    PlanOpensAndCloses(f);
    RenderLastLength(Plan(f), AdClosing, Sentences(f));
    AdClosingTextIsLong(f);
  }

  lemma LogoPromptsAreLong(f: FormData)
    requires f.generatorMode == Logo
    ensures |Compile(f)| >= 100
  {
    PlanOpensAndCloses(f);
    RenderLastLength(Plan(f), LogoClosing, Sentences(f));
    LogoClosingTextIsLong(f);
  }

  /** Every emitted sentence occurs verbatim in the compiled text. */
  lemma CompileContainsSentence(f: FormData, s: Segment)
    requires s in Plan(f)
    ensures Contains(Compile(f), Text(s, f))
  {
    var i :| 0 <= i < |Plan(f)| && Plan(f)[i] == s;
    RenderContainsEach(Plan(f), Sentences(f), i);
  }

  /** An advertisement prompt quotes the headline verbatim. */
  lemma CompileQuotesHeadline(f: FormData)
    requires f.generatorMode == Advertisement
    ensures Contains(Compile(f), Quoted(f.headline))
  {
    PlanMembership(f, AdHeadline);
    CompileContainsSentence(f, AdHeadline);
    ContainsWithin(Compile(f), "Feature this headline prominently: ", Quoted(f.headline), ". ");
  }

  /** An advertisement prompt quotes the description verbatim. */
  lemma CompileQuotesDescription(f: FormData)
    requires f.generatorMode == Advertisement
    ensures Contains(Compile(f), Quoted(f.description))
  {
    PlanMembership(f, AdDescription);
    CompileContainsSentence(f, AdDescription);
    ContainsWithin(Compile(f), "Support with this descriptive copy: ", Quoted(f.description), ". ");
  }

  /** An advertisement prompt names the target audience verbatim. */
  lemma CompileNamesAudience(f: FormData)
    requires f.generatorMode == Advertisement
    ensures Contains(Compile(f), f.targetAudience)
  {
    PlanMembership(f, AdPurpose);
    CompileContainsSentence(f, AdPurpose);
    ContainsWithin(Compile(f),
      "Design this advertisement for a " + Describe(PurposeAxis, f.purpose, " campaign")
      + " specifically targeting ", f.targetAudience, ". ");
  }

  /** A logo prompt quotes the company name verbatim. */
  lemma CompileQuotesCompany(f: FormData)
    requires f.generatorMode == Logo
    ensures Contains(Compile(f), Quoted(f.companyName))
  {
    var lead := "Design a distinctive professional logo for ";
    var tail := " in the " + f.industry + " industry. ";
    assert LogoOpeningSentence(f) == lead + Quoted(f.companyName) + tail;
    PlanMembership(f, LogoOpening);
    CompileContainsSentence(f, LogoOpening);
    ContainsWithin(Compile(f), lead, Quoted(f.companyName), tail);
  }

  /** A logo prompt names the industry verbatim. */
  lemma CompileNamesIndustry(f: FormData)
    requires f.generatorMode == Logo
    ensures Contains(Compile(f), f.industry)
  {
    PlanMembership(f, LogoOpening);
    CompileContainsSentence(f, LogoOpening);
    ContainsWithin(Compile(f), "Design a distinctive professional logo for " + Quoted(f.companyName)
      + " in the ", f.industry, " industry. ");
  }

  /**
   * A layout the table does not list still reaches an advertisement prompt,
   * as the raw value followed by the word "layout".
   */
  lemma UnknownLayoutReachesPrompt(f: FormData)
    requires f.generatorMode == Advertisement
    requires Entry(LayoutAxis, f.layout).None?
    ensures Contains(Compile(f), f.layout + " layout")
  {
    PlanMembership(f, AdLayout);
    CompileContainsSentence(f, AdLayout);
    ContainsWithin(Compile(f), "Structure the advertisement with a ", f.layout + " layout", ". ");
  }

  /** A listed layout reaches an advertisement prompt as its table phrase. */
  lemma KnownLayoutReachesPrompt(f: FormData)
    requires f.generatorMode == Advertisement
    requires Entry(LayoutAxis, f.layout).Some?
    ensures Contains(Compile(f), Entry(LayoutAxis, f.layout).value)
  {
    PlanMembership(f, AdLayout);
    CompileContainsSentence(f, AdLayout);
    ContainsWithin(Compile(f), "Structure the advertisement with a ", Entry(LayoutAxis, f.layout).value, ". ");
  }

  /** An item of a list joined into an emitted sentence occurs verbatim in the prompt. */
  lemma CompileContainsJoined(f: FormData, s: Segment, a: string, xs: seq<string>, sep: string, b: string, i: nat)
    requires s in Plan(f) && Text(s, f) == a + Join(xs, sep) + b
    requires i < |xs|
    ensures Contains(Compile(f), xs[i])
  {
    CompileContainsSentence(f, s);
    ContainsWithin(Compile(f), a, Join(xs, sep), b);
    JoinContainsEach(xs, sep, i);
    ContainsTransitive(Compile(f), Join(xs, sep), xs[i]);
  }

  /** A logo prompt names every ticked visual element verbatim. */
  lemma CompileListsLogoElements(f: FormData, i: nat)
    requires f.generatorMode == Logo && i < |f.visualElements|
    ensures Contains(Compile(f), f.visualElements[i])
  {
    PlanMembership(f, LogoVisualElements);
    CompileContainsJoined(f, LogoVisualElements,
      "Integrate these key visual elements into the logo design: ", f.visualElements, ", ", ". ", i);
  }

  /** An advertisement prompt holds the phrase of every ticked visual element. */
  lemma CompileDescribesAdElements(f: FormData, i: nat)
    requires f.generatorMode == Advertisement && i < |f.visualElements|
    ensures Contains(Compile(f), Describe(VisualElementAxis, f.visualElements[i], ""))
  {
    PlanMembership(f, AdVisualElements);
    CompileContainsJoined(f, AdVisualElements,
      "Incorporate these visual elements: ", DescribeElements(f.visualElements), "; ", ". ", i);
  }

  /** A prompt of either mode names every ticked font verbatim. */
  lemma CompileListsFonts(f: FormData, i: nat)
    requires i < |f.specificFonts|
    ensures Contains(Compile(f), f.specificFonts[i])
  {
    match f.generatorMode
    case Advertisement => AdPromptListsFonts(f, i);
    case Logo => LogoPromptListsFonts(f, i);
  }

  lemma AdPromptListsFonts(f: FormData, i: nat)
    requires f.generatorMode == Advertisement && i < |f.specificFonts|
    ensures Contains(Compile(f), f.specificFonts[i])
  {
    PlanMembership(f, AdFonts);
    CompileContainsJoined(f, AdFonts,
      "Incorporate these specific typefaces for maximum brand alignment: ", f.specificFonts, ", ", ". ", i);
  }

  lemma LogoPromptListsFonts(f: FormData, i: nat)
    requires f.generatorMode == Logo && i < |f.specificFonts|
    ensures Contains(Compile(f), f.specificFonts[i])
  {
    PlanMembership(f, LogoFonts);
    CompileContainsJoined(f, LogoFonts,
      "Use these specific typefaces for the logotype: ", f.specificFonts, ", ", ". ", i);
  }

  // ---------------------------------------------------------------------------
  // How a mood choice moves the prompt

  /** The mood sentence of a mode; it holds rank 9 in both orders. */
  function MoodSegment(m: Mode): (s: Segment)
    ensures ModeOf(s) == m && Rank(s) == 9
  {
    match m
    case Advertisement => AdMood
    case Logo => LogoMood
  }

  /** The included sentences ranked before the mood sentence. */
  function BeforeMood(f: FormData): seq<Segment> {
    Seqs.Filter(Order(f.generatorMode)[..9], s => Included(s, f))
  }

  /** The included sentences ranked after the mood sentence. */
  function AfterMood(f: FormData): seq<Segment> {
    Seqs.Filter(Order(f.generatorMode)[10..], s => Included(s, f))
  }

  /** Whether a sentence is included does not depend on the mood, unless it is the mood sentence. */
  lemma IncludedIgnoresMood(s: Segment, f: FormData, mood: string)
    requires s != AdMood && s != LogoMood
    ensures Included(s, f.(mood := mood)) == Included(s, f)
  {
  }

  /** The text of a sentence does not depend on the mood, unless it is the mood sentence. */
  lemma TextIgnoresMood(s: Segment, f: FormData, mood: string)
    requires s != AdMood && s != LogoMood
    ensures Text(s, f.(mood := mood)) == Text(s, f)
  {
  }

  /** Sentences listed in a mode's order away from rank 9 are not mood sentences. */
  lemma AwayFromRankNineIsNotMood(m: Mode, s: Segment)
    requires s in Order(m)[..9] || s in Order(m)[10..]
    ensures s != AdMood && s != LogoMood
  {
    OrderIsRanked(m);
    var o := Order(m);
    if s in o[..9] {
      var i :| 0 <= i < 9 && o[..9][i] == s;
      assert Rank(s) == i;
    } else {
      var i :| 0 <= i < |o[10..]| && o[10..][i] == s;
      assert o[10..][i] == o[i + 10];
      assert Rank(s) == i + 10;
    }
  }

  /** The form's own sentences, split around the mood's rank. */
  lemma PlanAroundMood(f: FormData)
    ensures Plan(f) == BeforeMood(f)
      + (if Included(MoodSegment(f.generatorMode), f) then [MoodSegment(f.generatorMode)] else [])
      + AfterMood(f)
  {
    OrderIsRanked(f.generatorMode);
    OrderHoldsEverySegment(MoodSegment(f.generatorMode));
    Seqs.FilterSplitAt(Order(f.generatorMode), 9, s => Included(s, f));
    Seqs.FilterSingleton(MoodSegment(f.generatorMode), s => Included(s, f));
  }

  /** Changing the mood changes neither the sentences before nor those after the mood sentence. */
  lemma MoodKeepsNeighbours(f: FormData, mood: string)
    ensures BeforeMood(f.(mood := mood)) == BeforeMood(f)
    ensures AfterMood(f.(mood := mood)) == AfterMood(f)
  {
    var g := f.(mood := mood);
    var o := Order(f.generatorMode);
    forall i | 0 <= i < |o[..9]|
      ensures Included(o[..9][i], g) == Included(o[..9][i], f)
    {
      AwayFromRankNineIsNotMood(f.generatorMode, o[..9][i]);
      IncludedIgnoresMood(o[..9][i], f, mood);
    }
    forall i | 0 <= i < |o[10..]|
      ensures Included(o[10..][i], g) == Included(o[10..][i], f)
    {
      AwayFromRankNineIsNotMood(f.generatorMode, o[10..][i]);
      IncludedIgnoresMood(o[10..][i], f, mood);
    }
    Seqs.FilterCongruent(o[..9], s => Included(s, g), s => Included(s, f));
    Seqs.FilterCongruent(o[10..], s => Included(s, g), s => Included(s, f));
  }

  /**
   * Choosing a non-default mood on a form whose mood is at its default
   * inserts exactly the mood sentence, between the sentences ranked before
   * and after it.
   */
  lemma MoodInsertsOneSentence(f: FormData, mood: string)
    requires !Deviates(f.mood, "neutral") && Deviates(mood, "neutral")
    ensures Plan(f) == BeforeMood(f) + AfterMood(f)
    ensures Plan(f.(mood := mood)) == BeforeMood(f) + [MoodSegment(f.generatorMode)] + AfterMood(f)
  {
    var g := f.(mood := mood);
    PlanAroundMood(f);
    PlanAroundMood(g);
    MoodKeepsNeighbours(f, mood);
    assert Included(MoodSegment(f.generatorMode), g);
    assert !Included(MoodSegment(f.generatorMode), f);
  }

  /** Every sentence but the mood sentence reads the same whatever the mood. */
  lemma MoodKeepsNeighbourText(f: FormData, mood: string)
    ensures Render(BeforeMood(f), Sentences(f.(mood := mood))) == Render(BeforeMood(f), Sentences(f))
    ensures Render(AfterMood(f), Sentences(f.(mood := mood))) == Render(AfterMood(f), Sentences(f))
  {
    var g := f.(mood := mood);
    var m := f.generatorMode;
    var b, a := BeforeMood(f), AfterMood(f);
    forall i | 0 <= i < |b|
      ensures Sentences(g)(b[i]) == Sentences(f)(b[i])
    {
      Seqs.FilterMembership(Order(m)[..9], s => Included(s, f), b[i]);
      AwayFromRankNineIsNotMood(m, b[i]);
      TextIgnoresMood(b[i], f, mood);
    }
    forall i | 0 <= i < |a|
      ensures Sentences(g)(a[i]) == Sentences(f)(a[i])
    {
      Seqs.FilterMembership(Order(m)[10..], s => Included(s, f), a[i]);
      AwayFromRankNineIsNotMood(m, a[i]);
      TextIgnoresMood(a[i], f, mood);
    }
    RenderCongruent(b, Sentences(g), Sentences(f));
    RenderCongruent(a, Sentences(g), Sentences(f));
  }

  /** Without a non-default mood, the prompt is the text before the mood's rank followed by the text after it. */
  lemma NeutralMoodText(f: FormData)
    requires !Deviates(f.mood, "neutral")
    ensures Compile(f) == Render(BeforeMood(f), Sentences(f)) + Render(AfterMood(f), Sentences(f))
  {
    PlanAroundMood(f);
    assert !Included(MoodSegment(f.generatorMode), f);
    assert Plan(f) == BeforeMood(f) + AfterMood(f);
    RenderAppend(BeforeMood(f), AfterMood(f), Sentences(f));
  }

  /**
   * Choosing a non-default mood on a form whose mood is at its default
   * inserts the mood sentence into the prompt and leaves all other text as it was.
   */
  lemma MoodInsertsOneSentenceText(f: FormData, mood: string)
    requires !Deviates(f.mood, "neutral") && Deviates(mood, "neutral")
    ensures Compile(f.(mood := mood))
      == Render(BeforeMood(f), Sentences(f)) + MoodSentence(f.(mood := mood)) + Render(AfterMood(f), Sentences(f))
  {
    var g := f.(mood := mood);
    var m := f.generatorMode;
    var b, a := BeforeMood(f), AfterMood(f);
    MoodInsertsOneSentence(f, mood);
    MoodKeepsNeighbourText(f, mood);
    RenderAround(b, MoodSegment(m), a, Sentences(g));
  }

  // ---------------------------------------------------------------------------
  // Sentences that are always, or by default, present

  /** The advertisement order: six fixed sentences, nine optional ones, and the closing one. */
  lemma AdOrderSplits()
    ensures Order(Advertisement)
      == [AdOpening, AdLayout, AdTypography, AdPurpose, AdHeadline, AdDescription]
        + [AdCallToAction, AdPhotographicStyle, AdVisualElements, AdMood, AdLighting,
           AdPerspective, AdDetailLevel, AdFonts, AdBrandColors]
        + [AdClosing]
  {
  }

  /**
   * An advertisement whose optional fields are all at their defaults
   * compiles to the seven fixed sentences only.
   */
  lemma AdMinimalPlan(f: FormData)
    requires f.generatorMode == Advertisement
    requires f.callToAction == "" && f.brandColors == ""
    requires |f.visualElements| == 0 && |f.specificFonts| == 0
    requires !Deviates(f.photographicStyle, "realistic") && !Deviates(f.mood, "neutral")
    requires !Deviates(f.lighting, "natural") && !Deviates(f.perspective, "front")
    requires !Deviates(f.detailLevel, "medium")
    ensures Plan(f) == [AdOpening, AdLayout, AdTypography, AdPurpose, AdHeadline, AdDescription, AdClosing]
  {
    var fixed := [AdOpening, AdLayout, AdTypography, AdPurpose, AdHeadline, AdDescription];
    var optional := [AdCallToAction, AdPhotographicStyle, AdVisualElements, AdMood, AdLighting,
      AdPerspective, AdDetailLevel, AdFonts, AdBrandColors];
    AdOrderSplits();
    Seqs.FilterDropsMiddle(fixed, optional, [AdClosing], s => Included(s, f));
  }

  /**
   * A logo form at the initial text case, text weight and colour count still
   * carries the three sentences for them: the logo branch emits them whenever
   * the fields are non-empty, the initial values included.
   */
  lemma LogoDefaultsAreEmitted(f: FormData)
    requires f.generatorMode == Logo
    requires f.textCase == Defaults.textCase && f.textWeight == Defaults.textWeight
    requires f.colorSchemeCount == Defaults.colorSchemeCount
    ensures LogoTextCase in Plan(f) && LogoTextWeight in Plan(f) && LogoColorCount in Plan(f)
  {
    PlanMembership(f, LogoTextCase);
    PlanMembership(f, LogoTextWeight);
    PlanMembership(f, LogoColorCount);
  }

  /** A logo type the table does not know is rendered as a plain professional logo. */
  lemma UnknownLogoTypeFallsBack(f: FormData)
    requires Entry(LogoTypeAxis, f.logoType).None?
    ensures LogoKindSentence(f) == "Create a professional logo. "
  {
  }

  /** An empty logo style borrows the advertisement style's phrase. */
  lemma EmptyLogoStyleBorrowsAdStyle(f: FormData)
    requires f.logoStyle == ""
    ensures StylingPhrase(f) == Describe(AdStyleAxis, f.adStyle, " style")
  {
  }

  /** What a contained sentence contains, the whole contains. */
  lemma ContainsWithin(whole: string, a: string, sub: string, b: string)
    requires Contains(whole, a + sub + b)
    ensures Contains(whole, sub)
  {
    ContainsInfix(a, sub, b);
    ContainsTransitive(whole, a + sub + b, sub);
  }

  lemma {:induction false} ContainsTransitive(s: string, mid: string, sub: string)
    requires Contains(s, mid) && Contains(mid, sub)
    ensures Contains(s, sub)
    decreases |s|
  {
    if IsPrefix(mid, s) {
      assert s == mid + s[|mid|..];
      ContainsInConcat("", mid, s[|mid|..], sub);
      assert "" + mid + s[|mid|..] == s;
    } else {
      ContainsTransitive(s[1..], mid, sub);
      assert Contains(s[1..], sub);
    }
  }
}
