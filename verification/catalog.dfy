/**
 * The phrase catalog of the prompt compiler: for each option axis, the table
 * (`...Desc` object in `constructPrompt`) from an option value to the
 * descriptive phrase substituted for it, and the fallback used when the table
 * has no entry for a value.
 */
module Catalog {
  import opened Options

  datatype Axis =
    | FontStyleAxis | ColorSchemeAxis | LayoutAxis | PurposeAxis
    | PhotographicStyleAxis | VisualElementAxis | MoodAxis | LightingAxis
    | PerspectiveAxis | DetailLevelAxis
    | LogoTypeAxis | LogoStyleAxis | AdStyleAxis
    | TextCaseAxis | TextWeightAxis | ColorCountAxis

  /** Property access `table[v]` on the axis's table: the phrase, if the table has one. */
  function Entry(axis: Axis, v: string): Option<string> {
    match axis
    case FontStyleAxis => FontPhrase(v)
    case ColorSchemeAxis => ColorPhrase(v)
    case LayoutAxis => LayoutPhrase(v)
    case PurposeAxis => PurposePhrase(v)
    case PhotographicStyleAxis => PhotoPhrase(v)
    case VisualElementAxis => ElementPhrase(v)
    case MoodAxis => MoodPhrase(v)
    case LightingAxis => LightingPhrase(v)
    case PerspectiveAxis => PerspectivePhrase(v)
    case DetailLevelAxis => DetailPhrase(v)
    case LogoTypeAxis => LogoTypePhrase(v)
    case LogoStyleAxis => LogoStylePhrase(v)
    case AdStyleAxis => AdStylePhrase(v)
    case TextCaseAxis => TextCasePhrase(v)
    case TextWeightAxis => TextWeightPhrase(v)
    case ColorCountAxis => ColorCountPhrase(v)
  }

  /**
   * `table[v] || v + suffix`: the table's phrase, or the raw value followed by
   * the axis word the call site supplies. Description never fails on an
   * unknown value.
   */
  function Describe(axis: Axis, v: string, suffix: string): (r: string)
    ensures Entry(axis, v).Some? ==> r == Entry(axis, v).value
    ensures Entry(axis, v).None? ==> r == v + suffix
  {
    match Entry(axis, v)
    case Some(phrase) => phrase
    case None => v + suffix
  }

  /** `fontDesc` */
  function FontPhrase(v: string): Option<string> {
    if v == "modern" then Some("clean, contemporary sans-serif typography with precise spacing and alignment")
    else if v == "classic" then Some("elegant serif typography with traditional proportions and refined character")
    else if v == "playful" then Some("expressive display typography with personality and creative flair")
    else if v == "elegant" then Some("sophisticated script typography with flowing curves and graceful connections")
    else if v == "bold" then Some("strong, impactful typography with heavy weight and commanding presence")
    else if v == "minimalist" then Some("restrained, minimal typography with ample whitespace and careful proportions")
    else if v == "retro" then Some("vintage-inspired typography with nostalgic characteristics from historical periods")
    else if v == "handwritten" then Some("authentic handwritten-style typography with organic, personal qualities")
    else None
  }

  /** `colorDesc` */
  function ColorPhrase(v: string): Option<string> {
    if v == "professional" then Some("sophisticated professional color palette dominated by confident blues and neutral grays")
    else if v == "vibrant" then Some("energetic, attention-grabbing color scheme with bright, saturated hues that create visual excitement")
    else if v == "minimal" then Some("refined minimalist palette focusing on black, white, and subtle grayscale tones")
    else if v == "warm" then Some("inviting warm color spectrum featuring reds, oranges, and yellows that evoke comfort and energy")
    else if v == "cool" then Some("calming cool color harmony with blues, greens, and purples creating a sense of trust and tranquility")
    else if v == "pastel" then Some("soft, approachable pastel palette with gentle, light-toned colors creating a friendly atmosphere")
    else if v == "monochrome" then Some("sophisticated single-color scheme with various tints and shades creating depth while maintaining harmony")
    else if v == "earthy" then Some("grounded natural palette with organic earth tones evoking authenticity and connection to nature")
    else None
  }

  /** `layoutDesc` */
  function LayoutPhrase(v: string): Option<string> {
    if v == "balanced" then Some("balanced composition with harmonious distribution of text and imagery")
    else if v == "image-dominant" then Some("visually impactful design where imagery takes center stage, with minimal but strategic text placement")
    else if v == "text-dominant" then Some("typography-focused layout with powerful messaging as the focal point, supported by complementary visuals")
    else if v == "grid" then Some("organized grid-based structure with multiple content sections arranged in a clean, systematic layout")
    else if v == "asymmetric" then Some("dynamic asymmetrical balance that creates visual interest through intentional imbalance")
    else if v == "centered" then Some("centered composition with the main elements radiating from the middle for a focused, attention-grabbing design")
    else if v == "split" then Some("split-screen design with a clear division between two complementary content areas")
    else if v == "layered" then Some("sophisticated layered composition with overlapping elements creating depth and visual hierarchy")
    else None
  }

  /** `purposeDesc` */
  function PurposePhrase(v: string): Option<string> {
    if v == "awareness" then Some("brand awareness campaign that establishes recognition and visibility")
    else if v == "conversion" then Some("sales-focused conversion campaign designed to drive immediate action")
    else if v == "engagement" then Some("engagement-oriented campaign that fosters interaction and connection")
    else if v == "information" then Some("informational campaign that educates and communicates key details")
    else None
  }

  /** `photoDesc` (no entry for the default `realistic`) */
  function PhotoPhrase(v: string): Option<string> {
    if v == "studio" then Some("professional studio photography with controlled lighting and pristine backgrounds")
    else if v == "lifestyle" then Some("authentic lifestyle photography capturing natural moments and relatable scenarios")
    else if v == "documentary" then Some("documentary-style photography with journalistic authenticity and storytelling")
    else if v == "product" then Some("detailed product photography highlighting features with precision and clarity")
    else if v == "aerial" then Some("dramatic aerial/drone photography offering unique overhead perspectives")
    else if v == "abstract" then Some("creative abstract photography using form, color, and texture as artistic elements")
    else if v == "architectural" then Some("structured architectural photography emphasizing lines, spaces, and built environments")
    else None
  }

  /** `elementDescriptions` */
  function ElementPhrase(v: string): Option<string> {
    if v == "people" then Some("authentic-looking people/models that resonate with the target audience")
    else if v == "product" then Some("detailed product close-ups that showcase key features and benefits")
    else if v == "nature" then Some("organic natural elements that add warmth and environmental context")
    else if v == "technology" then Some("modern technology components suggesting innovation and advancement")
    else if v == "geometric" then Some("clean geometric shapes providing structure and contemporary design elements")
    else if v == "icons" then Some("intuitive icons/symbols that communicate concepts efficiently")
    else if v == "illustrations" then Some("custom illustrations adding unique artistic character")
    else if v == "textures" then Some("rich textures/patterns creating depth and tactile interest")
    else None
  }

  /** `moodDesc` (no entry for the default `neutral`) */
  function MoodPhrase(v: string): Option<string> {
    if v == "happy" then Some("happy/uplifting emotional tone that inspires positivity and optimism")
    else if v == "serious" then Some("serious/professional atmosphere conveying expertise and trustworthiness")
    else if v == "relaxed" then Some("calm/relaxed ambiance promoting peace of mind and comfort")
    else if v == "energetic" then Some("energetic/dynamic feeling full of vitality and momentum")
    else if v == "luxurious" then Some("luxurious/elegant mood suggesting premium quality and sophistication")
    else if v == "nostalgic" then Some("nostalgic/retro sentiment evoking fond memories and emotional connection")
    else if v == "futuristic" then Some("futuristic/innovative spirit communicating cutting-edge advancement")
    else None
  }

  /** `lightingDesc` (no entry for the default `natural`) */
  function LightingPhrase(v: string): Option<string> {
    if v == "studio" then Some("controlled studio lighting with perfect exposure and professional polish")
    else if v == "dramatic" then Some("dramatic lighting with strong contrast between light and shadow for emotional impact")
    else if v == "soft" then Some("soft diffused lighting creating gentle transitions and flattering illumination")
    else if v == "bright" then Some("bright high-key lighting with minimal shadows for an open, airy feeling")
    else if v == "dark" then Some("moody low-key lighting emphasizing shadows and creating intimate atmosphere")
    else if v == "backlit" then Some("artistic backlighting/silhouette effect creating dramatic outlines and depth")
    else if v == "colorful" then Some("creative colored lighting adding vibrant atmosphere and contemporary edge")
    else None
  }

  /** `perspectiveDesc` (no entry for the default `front`) */
  function PerspectivePhrase(v: string): Option<string> {
    if v == "angle" then Some("dynamic angled viewpoint creating depth and interest")
    else if v == "side" then Some("revealing side view showing profile and lateral details")
    else if v == "aerial" then Some("impressive aerial/top-down perspective offering a comprehensive overview")
    else if v == "closeup" then Some("intimate close-up framing highlighting fine details and textures")
    else if v == "wideangle" then Some("expansive wide-angle view capturing broader context and environment")
    else if v == "fisheye" then Some("creative fisheye/distorted perspective for artistic impact")
    else if v == "isometric" then Some("technical isometric view with consistent 30-degree angles")
    else None
  }

  /** `detailDesc` (no entry for the default `medium`) */
  function DetailPhrase(v: string): Option<string> {
    if v == "minimal" then Some("minimal, essential details focusing only on core elements for a clean, uncluttered aesthetic")
    else if v == "low" then Some("low level of detail with simplified forms and reduced complexity")
    else if v == "high" then Some("high level of detail with careful attention to textures, shadows, and fine elements")
    else if v == "ultra" then Some("ultra-detailed execution with exceptional clarity and precision in every element")
    else None
  }

  /** `logoTypeDesc` */
  function LogoTypePhrase(v: string): Option<string> {
    if v == "wordmark" then Some("wordmark/text-only logo that focuses on distinctive typography of the full company name")
    else if v == "lettermark" then Some("lettermark/monogram logo using the initials or first letter of the company name")
    else if v == "symbol" then Some("symbolic/iconic logo that represents the brand through a distinctive mark without text")
    else if v == "combination" then Some("combination mark that pairs a symbol with text for a complete brand representation")
    else if v == "emblem" then Some("emblem/badge-style logo where text is contained within a symbol or distinctive shape")
    else if v == "mascot" then Some("character/mascot logo featuring an illustrated character that represents the brand")
    else if v == "abstract" then Some("abstract/geometric logo using non-representational shapes to create a unique visual identity")
    else None
  }

  /** `logoStyleDesc` */
  function LogoStylePhrase(v: string): Option<string> {
    if v == "modern" then Some("modern/minimal style with clean lines and contemporary aesthetics")
    else if v == "classic" then Some("classic/traditional style with timeless appeal and established presence")
    else if v == "vintage" then Some("vintage/retro style evoking nostalgia and heritage")
    else if v == "playful" then Some("playful/fun style with approachable character and personality")
    else if v == "luxury" then Some("luxury/premium style suggesting exclusivity and superior quality")
    else if v == "tech" then Some("tech/digital style communicating innovation and cutting-edge solutions")
    else if v == "handcrafted" then Some("handcrafted/organic style with authentic, artisanal qualities")
    else if v == "geometric" then Some("geometric/abstract style using precise shapes and mathematical forms")
    else None
  }

  /** `adStyleDesc` */
  function AdStylePhrase(v: string): Option<string> {
    if v == "corporate" then Some("corporate professional style conveying reliability and expertise")
    else if v == "casual" then Some("approachable casual style creating friendly, accessible brand perception")
    else if v == "luxury" then Some("premium luxury style suggesting exclusivity and superior quality")
    else if v == "minimalist" then Some("refined minimalist style with clean lines and essential elements only")
    else if v == "retro" then Some("characterful vintage/retro style evoking nostalgia and established heritage")
    else if v == "futuristic" then Some("innovative futuristic style communicating cutting-edge advancement")
    else if v == "artistic" then Some("unique artistic style with creative expression and memorable visual identity")
    else if v == "playful" then Some("engaging playful style adding personality and approachable character")
    else None
  }

  /** `textCaseDesc` */
  function TextCasePhrase(v: string): Option<string> {
    if v == "uppercase" then Some("UPPERCASE lettering for bold impact")
    else if v == "lowercase" then Some("lowercase lettering for a modern, approachable feel")
    else if v == "mixed" then Some("mixed case lettering for balanced readability")
    else if v == "titlecase" then Some("Title Case lettering for professional presentation")
    else None
  }

  /** `textWeightDesc` */
  function TextWeightPhrase(v: string): Option<string> {
    if v == "light" then Some("light weight typography for elegance and sophistication")
    else if v == "regular" then Some("regular weight typography for balanced readability")
    else if v == "medium" then Some("medium weight typography for clear visibility")
    else if v == "bold" then Some("bold weight typography for strong impact and presence")
    else if v == "black" then Some("black/heavy weight typography for maximum visual impact")
    else None
  }

  /** `colorCountDesc` */
  function ColorCountPhrase(v: string): Option<string> {
    if v == "1" then Some("monochromatic color scheme using variations of a single color")
    else if v == "2" then Some("duotone color scheme with two complementary or contrasting colors")
    else if v == "3" then Some("tritone color scheme with three harmonious colors")
    else if v == "4+" then Some("multicolor scheme with four or more carefully balanced colors")
    else None
  }
}
