/**
 * The design wizard's form record (`formData` in WizardForm.jsx): the
 * generator mode, the free-text and single-choice fields, the two
 * multi-select tag lists and the image size, with their opening defaults.
 */
module Brief {
  import Seqs

  /** `generatorMode`: which kind of design the brief describes. */
  datatype Mode = Advertisement | Logo

  datatype FormData = FormData(
    generatorMode: Mode,
    // basic info
    adType: string, purpose: string, targetAudience: string,
    companyName: string, industry: string,
    // design elements
    colorScheme: string, fontStyle: string, adStyle: string, layout: string,
    // content
    headline: string, description: string, callToAction: string,
    // advanced options shared by both modes
    visualElements: seq<string>, mood: string, detailLevel: string,
    specificFonts: seq<string>, brandColors: string,
    // advanced options for advertisements
    photographicStyle: string, lighting: string, perspective: string,
    // advanced options for logos
    logoType: string, logoStyle: string, textCase: string, textWeight: string,
    colorSchemeCount: string, brandValues: string, targetMarket: string, competitors: string,
    // technical
    size: string)

  /** The record the wizard opens with. */
  const Defaults: FormData := FormData(
    Advertisement,
    "product", "awareness", "", "", "",
    "professional", "modern", "corporate", "balanced",
    "", "", "",
    [], "neutral", "medium", [], "",
    "realistic", "natural", "front",
    "combination", "modern", "mixed", "regular", "2", "", "", "",
    "1024x1024")

  /** The text fields an input can name (its `name` attribute) in a change event. */
  datatype Field =
    | AdType | Purpose | TargetAudience | CompanyName | Industry
    | ColorScheme | FontStyle | AdStyle | Layout
    | Headline | Description | CallToAction
    | Mood | DetailLevel | BrandColors
    | PhotographicStyle | Lighting | Perspective
    | LogoType | LogoStyle | TextCase | TextWeight | ColorSchemeCount
    | BrandValues | TargetMarket | Competitors
    | Size

  /** `formData[name]` for a text field. */
  function Get(f: FormData, k: Field): string {
    match k
    case AdType => f.adType
    case Purpose => f.purpose
    case TargetAudience => f.targetAudience
    case CompanyName => f.companyName
    case Industry => f.industry
    case ColorScheme => f.colorScheme
    case FontStyle => f.fontStyle
    case AdStyle => f.adStyle
    case Layout => f.layout
    case Headline => f.headline
    case Description => f.description
    case CallToAction => f.callToAction
    case Mood => f.mood
    case DetailLevel => f.detailLevel
    case BrandColors => f.brandColors
    case PhotographicStyle => f.photographicStyle
    case Lighting => f.lighting
    case Perspective => f.perspective
    case LogoType => f.logoType
    case LogoStyle => f.logoStyle
    case TextCase => f.textCase
    case TextWeight => f.textWeight
    case ColorSchemeCount => f.colorSchemeCount
    case BrandValues => f.brandValues
    case TargetMarket => f.targetMarket
    case Competitors => f.competitors
    case Size => f.size
  }

  /** `{...formData, [name]: value}`: replaces one text field and nothing else. */
  function Set(f: FormData, k: Field, v: string): (g: FormData)
    ensures Get(g, k) == v
    ensures forall k' :: k' != k ==> Get(g, k') == Get(f, k')
    ensures g.generatorMode == f.generatorMode
    ensures g.visualElements == f.visualElements && g.specificFonts == f.specificFonts
  {
    match k
    case AdType => f.(adType := v)
    case Purpose => f.(purpose := v)
    case TargetAudience => f.(targetAudience := v)
    case CompanyName => f.(companyName := v)
    case Industry => f.(industry := v)
    case ColorScheme => f.(colorScheme := v)
    case FontStyle => f.(fontStyle := v)
    case AdStyle => f.(adStyle := v)
    case Layout => f.(layout := v)
    case Headline => f.(headline := v)
    case Description => f.(description := v)
    case CallToAction => f.(callToAction := v)
    case Mood => f.(mood := v)
    case DetailLevel => f.(detailLevel := v)
    case BrandColors => f.(brandColors := v)
    case PhotographicStyle => f.(photographicStyle := v)
    case Lighting => f.(lighting := v)
    case Perspective => f.(perspective := v)
    case LogoType => f.(logoType := v)
    case LogoStyle => f.(logoStyle := v)
    case TextCase => f.(textCase := v)
    case TextWeight => f.(textWeight := v)
    case ColorSchemeCount => f.(colorSchemeCount := v)
    case BrandValues => f.(brandValues := v)
    case TargetMarket => f.(targetMarket := v)
    case Competitors => f.(competitors := v)
    case Size => f.(size := v)
  }

  /** Writing back what is already there changes nothing. */
  lemma SetSameIsIdentity(f: FormData, k: Field)
    ensures Set(f, k, Get(f, k)) == f
  {
    match k
    case AdType =>
    case Purpose =>
    case TargetAudience =>
    case CompanyName =>
    case Industry =>
    case ColorScheme =>
    case FontStyle =>
    case AdStyle =>
    case Layout =>
    case Headline =>
    case Description =>
    case CallToAction =>
    case Mood =>
    case DetailLevel =>
    case BrandColors =>
    case PhotographicStyle =>
    case Lighting =>
    case Perspective =>
    case LogoType =>
    case LogoStyle =>
    case TextCase =>
    case TextWeight =>
    case ColorSchemeCount =>
    case BrandValues =>
    case TargetMarket =>
    case Competitors =>
    case Size =>
  }

  /** Of two writes to the same field, the last one wins. */
  lemma SetTwiceKeepsLast(f: FormData, k: Field, v: string, w: string)
    ensures Set(Set(f, k, v), k, w) == Set(f, k, w)
  {
    match k
    case AdType =>
    case Purpose =>
    case TargetAudience =>
    case CompanyName =>
    case Industry =>
    case ColorScheme =>
    case FontStyle =>
    case AdStyle =>
    case Layout =>
    case Headline =>
    case Description =>
    case CallToAction =>
    case Mood =>
    case DetailLevel =>
    case BrandColors =>
    case PhotographicStyle =>
    case Lighting =>
    case Perspective =>
    case LogoType =>
    case LogoStyle =>
    case TextCase =>
    case TextWeight =>
    case ColorSchemeCount =>
    case BrandValues =>
    case TargetMarket =>
    case Competitors =>
    case Size =>
  }

  /** The two multi-select option groups. */
  datatype TagGroup = VisualElements | SpecificFonts

  function Tags(f: FormData, g: TagGroup): seq<string> {
    match g
    case VisualElements => f.visualElements
    case SpecificFonts => f.specificFonts
  }

  /**
   * `handleCheckboxChange`: a ticked box appends its value at the end of the
   * group's list (without looking for an existing copy); an unticked box
   * removes every copy, the other tags keeping their relative order.
   */
  function ToggleTag(f: FormData, g: TagGroup, value: string, checked: bool): (r: FormData)
    ensures checked ==> Tags(r, g) == Tags(f, g) + [value]
    ensures !checked ==> value !in Tags(r, g)
    ensures !checked ==> Seqs.IsSubsequence(Tags(r, g), Tags(f, g))
    ensures !checked ==> forall u :: u != value ==> multiset(Tags(r, g))[u] == multiset(Tags(f, g))[u]
    ensures forall g' :: g' != g ==> Tags(r, g') == Tags(f, g')
    ensures r.(visualElements := f.visualElements, specificFonts := f.specificFonts) == f
  {
    var tags := if checked then Tags(f, g) + [value] else Seqs.RemoveAll(Tags(f, g), value);
    match g
    case VisualElements => f.(visualElements := tags)
    case SpecificFonts => f.(specificFonts := tags)
  }

  /** Ticking an absent tag keeps a duplicate-free list duplicate-free; unticking always does. */
  lemma ToggleKeepsTagsDistinct(f: FormData, g: TagGroup, value: string, checked: bool)
    requires Seqs.NoDuplicates(Tags(f, g))
    requires checked ==> value !in Tags(f, g)
    ensures Seqs.NoDuplicates(Tags(ToggleTag(f, g, value, checked), g))
  {
    var before := Tags(f, g);
    var after := Tags(ToggleTag(f, g, value, checked), g);
    if !checked {
      forall i, j | 0 <= i < j < |after|
        ensures after[i] != after[j]
      {
        if after[i] == after[j] {
          var u := after[i];
          assert u != value;
          MultisetAtLeastTwo(after, i, j);
          assert multiset(before)[u] == multiset(after)[u];
          NoDuplicatesCountsAtMostOne(before, u);
        }
      }
    }
  }

  lemma MultisetAtLeastTwo(xs: seq<string>, i: nat, j: nat)
    requires i < j < |xs| && xs[i] == xs[j]
    ensures multiset(xs)[xs[i]] >= 2
  {
    assert xs == xs[..i] + [xs[i]] + xs[i + 1..j] + [xs[j]] + xs[j + 1..];
  }

  lemma {:induction false} NoDuplicatesCountsAtMostOne(xs: seq<string>, u: string)
    requires Seqs.NoDuplicates(xs)
    ensures multiset(xs)[u] <= 1
  {
    if |xs| > 0 {
      assert xs == [xs[0]] + xs[1..];
      assert Seqs.NoDuplicates(xs[1..]) by {
        forall i, j | 0 <= i < j < |xs[1..]| ensures xs[1..][i] != xs[1..][j] {
          assert xs[1..][i] == xs[i + 1] && xs[1..][j] == xs[j + 1];
        }
      }
      NoDuplicatesCountsAtMostOne(xs[1..], u);
      if xs[0] == u {
        assert u !in xs[1..] by {
          forall k | 0 <= k < |xs[1..]| ensures xs[1..][k] != u {
            assert xs[1..][k] == xs[k + 1];
          }
        }
      }
    }
  }
}
