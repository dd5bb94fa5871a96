/**
 * The image-synthesis client (backend/app/services/silicon_flow.py): the
 * content filter `validate_prompt`, the request payload, and the reading of
 * the service's reply. The HTTP exchange itself is a collaborator passed in
 * as a function: it maps the payload to what the transport delivered.
 */
module SiliconFlow {
  import opened Wrappers
  import opened Text

  const BlockedWords: seq<string> := ["nsfw", "explicit", "violent"]
  const Model := "black-forest-labs/FLUX.1-schnell"
  const DefaultNegativePrompt := "blurry, low quality, distorted"
  const NoImageData := "No image data in API response"

  /** Each blocked word is a nonempty run of non-whitespace. */
  lemma BlockedWordsHaveNoSpace(k: nat)
    requires k < |BlockedWords|
    ensures BlockedWords[k] != [] && forall j :: 0 <= j < |BlockedWords[k]| ==> !IsSpace(BlockedWords[k][j])
  {
  }

  /** The reference reading of the content filter. */
  predicate PromptAccepted(prompt: string) {
    && prompt != []
    && |Strip(prompt)| >= 3
    && !ContainsAny(Lower(prompt), BlockedWords)
  }

  /** The blocked-word scan of `validate_prompt`: one substring test per word, stopping at the first hit. */
  method HasAnyWord(text: string, words: seq<string>) returns (found: bool)
    ensures found == ContainsAny(text, words)
  {
    var i := 0;
    while i < |words|
      invariant 0 <= i <= |words|
      invariant ContainsAny(text, words) == ContainsAny(text, words[i..])
    {
      assert words[i..][1..] == words[i + 1..];
      if Contains(text, words[i]) {
        return true;
      }
      i := i + 1;
    }
    return false;
  }

  /** `validate_prompt`: the length guard, then the blocked-word scan of the lowercased prompt. */
  method ValidatePrompt(prompt: string) returns (ok: bool)
    ensures ok == PromptAccepted(prompt)
  {
    if prompt == [] || |Strip(prompt)| < 3 {
      return false;
    }
    var blocked := HasAnyWord(Lower(prompt), BlockedWords);
    return !blocked;
  }

  /** The filter refuses an empty prompt and one whose stripped length is under 3. */
  lemma RejectsShortPrompt(prompt: string)
    requires |Strip(prompt)| < 3
    ensures !PromptAccepted(prompt)
  {
  }

  /** The filter refuses a prompt whose lowercase form holds a blocked word. */
  lemma RejectsBlockedWord(prompt: string, k: nat)
    requires k < |BlockedWords| && Contains(Lower(prompt), BlockedWords[k])
    ensures !PromptAccepted(prompt)
  {
    ContainsAnyMember(Lower(prompt), BlockedWords, k);
  }

  /** Text appended to a prompt holding a blocked word does not get it past the filter. */
  lemma ExtensionStaysBlocked(p: string, r: string, k: nat)
    requires k < |BlockedWords| && Contains(Lower(p), BlockedWords[k]) && p <= r
    ensures !PromptAccepted(r)
  {
    var rest := r[|p|..];
    assert r == p + rest;
    LowerConcat(p, rest);
    ContainsInPrefix(Lower(p), Lower(rest), BlockedWords[k]);
    RejectsBlockedWord(r, k);
  }

  /** Every other prompt passes. */
  lemma AcceptsOtherwise(prompt: string)
    requires |Strip(prompt)| >= 3
    requires forall k :: 0 <= k < |BlockedWords| ==> !Contains(Lower(prompt), BlockedWords[k])
    ensures PromptAccepted(prompt)
  {
    ContainsAnyNone(Lower(prompt), BlockedWords);
  }

  /** The JSON body posted to the service; `seed` is `None` when the key is absent. */
  datatype Payload = Payload(
    model: string,
    prompt: string,
    negativePrompt: string,
    width: int,
    height: int,
    numInferenceSteps: int,
    guidanceTenths: int,
    seed: Option<int>)

  /** The payload `generate_image` builds from its arguments. */
  function BuildPayload(prompt: string, negativePrompt: Option<string>, width: int, height: int,
                        steps: int, guidanceTenths: int, seed: Option<int>): (p: Payload)
    ensures p.model == Model && p.prompt == prompt
    ensures p.width == width && p.height == height
    ensures p.numInferenceSteps == steps && p.guidanceTenths == guidanceTenths
    ensures p.negativePrompt != []
    ensures negativePrompt.Some? && negativePrompt.value != [] ==> p.negativePrompt == negativePrompt.value
    ensures negativePrompt.None? || negativePrompt.value == [] ==> p.negativePrompt == DefaultNegativePrompt
    ensures p.seed.Some? <==> seed.Some?
    ensures seed.Some? ==> p.seed.value == seed.value
  {
    var negative := if negativePrompt.Some? && negativePrompt.value != [] then negativePrompt.value
                    else DefaultNegativePrompt;
    Payload(Model, prompt, negative, width, height, steps, guidanceTenths, seed)
  }

  /** One element of the reply's `data` list: its `b64_json` and `url` keys, when present. */
  datatype ImageEntry = ImageEntry(b64Json: Option<string>, url: Option<string>)

  /** The decoded JSON reply: its `data` key, when present. */
  datatype ApiReply = ApiReply(data: Option<seq<ImageEntry>>)

  /** What the POST delivered: an HTTP error status, another failure, or a 2xx reply. */
  datatype Transport =
    | HttpError(statusCode: nat, body: string)
    | TransportError(message: string)
    | Delivered(reply: ApiReply)

  /** What the GET of an image URL, re-encoded as base64 PNG, delivered. */
  datatype Download =
    | DownloadHttpError(statusCode: nat, body: string)
    | DownloadError(message: string)
    | Downloaded(pngBase64: string)

  datatype Metadata = Metadata(prompt: string, width: int, height: int, steps: int, guidanceTenths: int)

  /** The dict `generate_image` returns. */
  datatype Generation = Generation(image: string, metadata: Metadata)

  /** Where the image of a reply is to be found. */
  datatype ImageSource = Inline(b64: string) | AtUrl(url: string) | NoImage

  /** The reading of the reply's first `data` element. */
  function ImageSourceOf(reply: ApiReply): (src: ImageSource)
    ensures src.Inline? <==> reply.data.Some? && |reply.data.value| > 0 && reply.data.value[0].b64Json.Some?
    ensures src.Inline? ==> src.b64 == reply.data.value[0].b64Json.value
    ensures src.AtUrl? <==> reply.data.Some? && |reply.data.value| > 0
                            && reply.data.value[0].b64Json.None? && reply.data.value[0].url.Some?
    ensures src.AtUrl? ==> src.url == reply.data.value[0].url.value
    ensures src.NoImage? <==> reply.data.None? || |reply.data.value| == 0
                              || (reply.data.value[0].b64Json.None? && reply.data.value[0].url.None?)
  {
    if reply.data.Some? && |reply.data.value| > 0 then
      var entry := reply.data.value[0];
      if entry.b64Json.Some? then Inline(entry.b64Json.value)
      else if entry.url.Some? then AtUrl(entry.url.value)
      else NoImage
    else NoImage
  }

  /** The message of the exception raised for an HTTP error status. */
  function ApiErrorMessage(statusCode: nat, body: string): string {
    "SiliconFlow API error: " + NatToString(statusCode) + " - " + body
  }

  /** The message of the exception raised for any other failure. */
  function FailureMessage(detail: string): string {
    "Image generation failed: " + detail
  }

  /**
   * `generate_image`: build the payload, post it, and read the image from the
   * reply (downloading it when the reply gives only a URL).
   */
  function GenerateImage(prompt: string, negativePrompt: Option<string>, width: int, height: int,
                         steps: int, guidanceTenths: int, seed: Option<int>,
                         post: Payload -> Transport, download: string -> Download): (r: Result<Generation, string>)
    ensures r.Ok? ==> r.value.metadata == Metadata(prompt, width, height, steps, guidanceTenths)
  {
    var payload := BuildPayload(prompt, negativePrompt, width, height, steps, guidanceTenths, seed);
    var meta := Metadata(prompt, width, height, steps, guidanceTenths);
    match post(payload)
    case HttpError(code, body) => Err(ApiErrorMessage(code, body))
    case TransportError(message) => Err(FailureMessage(message))
    case Delivered(reply) =>
      match ImageSourceOf(reply)
      case Inline(b64) => Ok(Generation(b64, meta))
      case NoImage => Err(FailureMessage(NoImageData))
      case AtUrl(url) =>
        match download(url)
        case DownloadHttpError(code, body) => Err(ApiErrorMessage(code, body))
        case DownloadError(message) => Err(FailureMessage(message))
        case Downloaded(png) => Ok(Generation(png, meta))
  }

  /** A reply whose first element carries `b64_json` yields that string, with the call's parameters as metadata. */
  lemma InlineImageReturned(prompt: string, negativePrompt: Option<string>, width: int, height: int,
                            steps: int, guidanceTenths: int, seed: Option<int>,
                            post: Payload -> Transport, download: string -> Download)
    requires post(BuildPayload(prompt, negativePrompt, width, height, steps, guidanceTenths, seed)).Delivered?
    requires var reply := post(BuildPayload(prompt, negativePrompt, width, height, steps, guidanceTenths, seed)).reply;
             reply.data.Some? && |reply.data.value| > 0 && reply.data.value[0].b64Json.Some?
    ensures var reply := post(BuildPayload(prompt, negativePrompt, width, height, steps, guidanceTenths, seed)).reply;
            GenerateImage(prompt, negativePrompt, width, height, steps, guidanceTenths, seed, post, download)
            == Ok(Generation(reply.data.value[0].b64Json.value, Metadata(prompt, width, height, steps, guidanceTenths)))
  {
  }

  /** A reply with no `data`, or an empty list, fails with the fixed message. */
  lemma MissingDataFails(prompt: string, negativePrompt: Option<string>, width: int, height: int,
                         steps: int, guidanceTenths: int, seed: Option<int>,
                         post: Payload -> Transport, download: string -> Download)
    requires post(BuildPayload(prompt, negativePrompt, width, height, steps, guidanceTenths, seed)).Delivered?
    requires var reply := post(BuildPayload(prompt, negativePrompt, width, height, steps, guidanceTenths, seed)).reply;
             reply.data.None? || reply.data.value == []
    ensures GenerateImage(prompt, negativePrompt, width, height, steps, guidanceTenths, seed, post, download)
            == Err(FailureMessage(NoImageData))
  {
  }

  /**
   * The service seen as the generator's collaborator: the generator passes its
   * prompt and fixed parameters (1024x1024, 30 steps, guidance 7.5, no negative
   * prompt, no seed); `attempt` numbers the generator's calls, so the service
   * may answer each call differently.
   */
  function AsSynthesizer(post: (Payload, nat) -> Transport, download: (string, nat) -> Download)
    : (synth: (string, nat) -> Result<string, string>)
    ensures forall prompt: string, attempt: nat ::
              var t := post(BuildPayload(prompt, None, 1024, 1024, 30, 75, None), attempt);
              && (t.HttpError? ==> synth(prompt, attempt) == Err(ApiErrorMessage(t.statusCode, t.body)))
              && (t.TransportError? ==> synth(prompt, attempt) == Err(FailureMessage(t.message)))
              && (t.Delivered? && ImageSourceOf(t.reply).Inline? ==>
                    synth(prompt, attempt) == Ok(ImageSourceOf(t.reply).b64))
              && (t.Delivered? && ImageSourceOf(t.reply).NoImage? ==>
                    synth(prompt, attempt) == Err(FailureMessage(NoImageData)))
              && (t.Delivered? && ImageSourceOf(t.reply).AtUrl? ==>
                    var d := download(ImageSourceOf(t.reply).url, attempt);
                    && (d.DownloadHttpError? ==> synth(prompt, attempt) == Err(ApiErrorMessage(d.statusCode, d.body)))
                    && (d.DownloadError? ==> synth(prompt, attempt) == Err(FailureMessage(d.message)))
                    && (d.Downloaded? ==> synth(prompt, attempt) == Ok(d.pngBase64)))
  {
    (prompt: string, attempt: nat) =>
      match GenerateImage(prompt, None, 1024, 1024, 30, 75, None,
                          p => post(p, attempt), u => download(u, attempt))
      case Ok(g) => Ok(g.image)
      case Err(e) => Err(e)
  }

  /** A service none of whose replies carries an image makes every synthesis call fail. */
  lemma NoDataServiceAlwaysFails(post: (Payload, nat) -> Transport, download: (string, nat) -> Download,
                                 prompt: string, attempt: nat)
    requires forall p: Payload, k: nat :: post(p, k).Delivered? && ImageSourceOf(post(p, k).reply).NoImage?
    ensures AsSynthesizer(post, download)(prompt, attempt) == Err(FailureMessage(NoImageData))
  {
    var payload := BuildPayload(prompt, None, 1024, 1024, 30, 75, None);
    assert post(payload, attempt).Delivered?;
  }
}
