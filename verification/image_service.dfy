/**
 * The pure parts of `generateImage`: shaping the request (size, fixed model
 * and count, prompt enhancement), the placeholder answer when no API key is
 * configured, rewriting an inline base64 image into a data URL, and turning
 * a failed call into the message the caller shows.
 */
module ImageService {
  import opened Options
  import opened Strings

  // ---------------------------------------------------------------------------
  // Request shaping

  /** The sizes the image endpoint accepts. */
  const SupportedSizes: seq<string> := ["1024x1024", "1024x1536", "1536x1024"]

  /** The size used when none, or an unsupported one, is given. */
  const DefaultSize: string := "1024x1024"

  /**
   * `params.size || '1024x1024'`, then any size outside the supported list
   * becomes the default: the result is always supported, and a supported
   * size passes through.
   */
  function NormalizeSize(size: Option<string>): (r: string)
    ensures r in SupportedSizes
    ensures Truthy(size) && size.value in SupportedSizes ==> r == size.value
    ensures !(Truthy(size) && size.value in SupportedSizes) ==> r == DefaultSize
  {
    var s := OrElse(size, DefaultSize);
    if s in SupportedSizes then s else DefaultSize
  }

  /** Normalising a normalised size changes nothing. */
  lemma NormalizeSizeIdempotent(size: Option<string>)
    ensures NormalizeSize(Some(NormalizeSize(size))) == NormalizeSize(size)
  {
  }

  /** The sentence appended to short, unstyled prompts. */
  const EnhancementSuffix: string := " Create a high-quality, professional image with attention to detail."

  /**
   * The enhancement condition: a non-empty prompt shorter than 100 UTF-16
   * code units that mentions neither "style" nor "color scheme".
   */
  predicate ShouldEnhance(p: string) {
    p != "" && Utf16Length(p) < 100 && !Contains(p, "style") && !Contains(p, "color scheme")
  }

  /** The prompt sent: the caller's prompt, with the suffix appended exactly when the condition holds. */
  function Enhance(p: string): (r: string)
    ensures ShouldEnhance(p) ==> r == p + EnhancementSuffix
    ensures !ShouldEnhance(p) ==> r == p
  {
    if ShouldEnhance(p) then p + EnhancementSuffix else p
  }

  /** Enhancement only ever appends: the caller's prompt is a prefix of what is sent. */
  lemma EnhanceExtends(p: string)
    ensures IsPrefix(p, Enhance(p))
    ensures Enhance(p) != p <==> ShouldEnhance(p)
  {
    assert (p + EnhancementSuffix)[..|p|] == p;
    assert |EnhancementSuffix| > 0;
  }

  /** A prompt of 100 or more characters is sent as it is. */
  lemma LongPromptsUnchanged(p: string)
    requires |p| >= 100
    ensures Enhance(p) == p
  {
  }

  /** What is posted to the image endpoint. */
  datatype Request = Request(model: string, n: nat, size: string, prompt: string)

  /** The caller's parameters; `n` is accepted but never forwarded. */
  datatype Params = Params(prompt: string, size: Option<string>, n: Option<int>)

  /** One generated image as the endpoint (or the placeholder) describes it. */
  datatype ImageItem = ImageItem(url: Option<string>, b64Json: Option<string>, revisedPrompt: Option<string>)

  /** The response body: `data` is the list of images, when present. */
  datatype ResponseBody = ResponseBody(data: Option<seq<ImageItem>>)

  /** Either the placeholder body returned without calling out, or the request to post. */
  datatype Prepared = Placeholder(body: ResponseBody) | Send(request: Request)

  const PlaceholderUrl: string := "https://placehold.co/1024x1024/3a86ff/ffffff?text=API+Key+Required"
  const PlaceholderNote: string :=
    "This is a placeholder image. Please add your OpenAI API key to .env.local file."

  /**
   * The synchronous front half of `generateImage`: without an API key the
   * placeholder image; otherwise a request for one `gpt-image-1` image at a
   * supported size, with the enhanced prompt. The caller's `n` is ignored.
   */
  function Prepare(params: Params, hasApiKey: bool): (r: Prepared)
    ensures !hasApiKey ==> (
      && r.Placeholder?
      && r.body.data == Some([ImageItem(Some(PlaceholderUrl), None, Some(PlaceholderNote))]))
    ensures hasApiKey ==> (
      && r.Send?
      && r.request.model == "gpt-image-1" && r.request.n == 1
      && r.request.size in SupportedSizes
      && r.request.size == NormalizeSize(params.size)
      && r.request.prompt == Enhance(params.prompt))
  {
    if !hasApiKey then
      Placeholder(ResponseBody(Some([ImageItem(Some(PlaceholderUrl), None, Some(PlaceholderNote))])))
    else
      Send(Request("gpt-image-1", 1, NormalizeSize(params.size), Enhance(params.prompt)))
  }

  /** The request does not depend on the caller's `n`. */
  lemma RequestIgnoresCount(params: Params, n: Option<int>)
    ensures Prepare(params.(n := n), true) == Prepare(params, true)
  {
  }

  // ---------------------------------------------------------------------------
  // Response rewriting

  const DataUrlPrefix: string := "data:image/png;base64,"

  /**
   * When the first image carries base64 data, its `url` becomes a PNG data
   * URL holding that data; otherwise the body is returned as it came.
   */
  function AttachDataUrl(body: ResponseBody): (r: ResponseBody)
    ensures body.data.None? || |body.data.value| == 0 || !Truthy(body.data.value[0].b64Json) ==> r == body
    ensures body.data.Some? && |body.data.value| > 0 && Truthy(body.data.value[0].b64Json) ==>
      && r.data.Some? && |r.data.value| == |body.data.value|
      && r.data.value[0] == body.data.value[0].(url := Some(DataUrlPrefix + body.data.value[0].b64Json.value))
      && r.data.value[1..] == body.data.value[1..]
  {
    match body.data
    case Some(items) =>
      if |items| > 0 && Truthy(items[0].b64Json) then
        ResponseBody(Some([items[0].(url := Some(DataUrlPrefix + items[0].b64Json.value))] + items[1..]))
      else body
    case None => body
  }

  /** The base64 payload of a data URL: what follows the prefix, if the prefix is there. */
  function Payload(url: string): (r: Option<string>)
    ensures r.Some? <==> IsPrefix(DataUrlPrefix, url)
    ensures r.Some? ==> DataUrlPrefix + r.value == url
  {
    if IsPrefix(DataUrlPrefix, url) then Some(url[|DataUrlPrefix|..]) else None
  }

  /** The rewritten URL gives back exactly the base64 data it was built from. */
  lemma DataUrlRoundTrip(body: ResponseBody)
    requires body.data.Some? && |body.data.value| > 0 && Truthy(body.data.value[0].b64Json)
    ensures Payload(AttachDataUrl(body).data.value[0].url.value) == body.data.value[0].b64Json
  {
    var b := body.data.value[0].b64Json.value;
    assert (DataUrlPrefix + b)[..|DataUrlPrefix|] == DataUrlPrefix;
    assert (DataUrlPrefix + b)[|DataUrlPrefix|..] == b;
  }

  /** Rewriting twice is rewriting once. */
  lemma AttachDataUrlIdempotent(body: ResponseBody)
    ensures AttachDataUrl(AttachDataUrl(body)) == AttachDataUrl(body)
  {
  }

  // ---------------------------------------------------------------------------
  // Error classification

  /**
   * How the call failed: the server answered with a status (and perhaps an
   * `error.message` in its body), no answer came, or the request could not be set up.
   */
  datatype Failure =
    | ErrorResponse(status: int, serverMessage: Option<string>)
    | NoResponse
    | SetupFailure(message: string)

  const InvalidKeyMessage: string := "Invalid API key. Please check your OpenAI API key."
  const RateLimitMessage: string := "Rate limit exceeded. Please try again later."
  const BadRequestFallback: string := "Invalid request parameters"
  const GenericFallback: string := "Error generating image. Please try again."
  const NoResponseMessage: string := "No response from OpenAI API. Please check your internet connection."

  /** The message of the error `generateImage` throws for a failure. */
  function ErrorMessage(e: Failure): (msg: string)
    ensures e.ErrorResponse? && e.status == 401 ==> msg == InvalidKeyMessage
    ensures e.ErrorResponse? && e.status == 429 ==> msg == RateLimitMessage
    ensures e.ErrorResponse? && e.status == 400 ==> msg == "API Error: " + OrElse(e.serverMessage, BadRequestFallback)
    ensures e.ErrorResponse? && e.status !in {400, 401, 429} ==> msg == OrElse(e.serverMessage, GenericFallback)
    ensures e.NoResponse? ==> msg == NoResponseMessage
    ensures e.SetupFailure? ==> msg == e.message
  {
    match e
    case ErrorResponse(status, serverMessage) =>
      if status == 401 then InvalidKeyMessage
      else if status == 429 then RateLimitMessage
      else if status == 400 then "API Error: " + OrElse(serverMessage, BadRequestFallback)
      else OrElse(serverMessage, GenericFallback)
    case NoResponse => NoResponseMessage
    case SetupFailure(message) => message
  }

  /** Authentication and rate-limit failures hide the server's own message. */
  lemma FixedMessagesIgnoreServer(status: int, m1: Option<string>, m2: Option<string>)
    requires status == 401 || status == 429
    ensures ErrorMessage(ErrorResponse(status, m1)) == ErrorMessage(ErrorResponse(status, m2))
  {
  }

  /** A 400 message always starts with the "API Error: " marker; other statuses show the server's text as it is. */
  lemma BadRequestMessagesAreMarked(m: Option<string>)
    ensures IsPrefix("API Error: ", ErrorMessage(ErrorResponse(400, m)))
  {
    var rest := OrElse(m, BadRequestFallback);
    assert ("API Error: " + rest)[..|"API Error: "|] == "API Error: ";
  }
}
