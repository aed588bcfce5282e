/**
 * `generateImageFromPrompt`: the request body sent to the host's
 * chat-completions backend, and how its reply is read back as an image,
 * a text-only answer or an error.
 */
module Generation {
  import opened Wrappers
  import opened Strings
  import opened Chat
  import opened Avatars
  import opened Models
  import opened Settings
  import opened Gallery
  import opened Assembly

  // ---------------------------------------------------------------------
  // The request body.
  // ---------------------------------------------------------------------

  const MaxTokens: nat := 8192
  const Temperature: int := 1
  const DefaultSource: string := "makersuite"
  const DefaultAspectRatio: string := "1:1"
  const AutoThinking: string := "auto"

  /** The host's chat-completion proxy settings, either of which may be unset. */
  datatype ProxySettings = ProxySettings(reverseProxy: Option<string>, proxyPassword: Option<string>)

  /**
   * The JSON body of the generate call. A `None` field is a key that
   * `JSON.stringify` leaves out (its value was `undefined`, or the key was
   * never set); `enableWebSearch` false means the key is absent.
   */
  datatype RequestBody = RequestBody(
    chatCompletionSource: string,
    model: string,
    messages: seq<Message>,
    maxTokens: nat,
    temperature: int,
    requestImages: bool,
    aspectRatio: string,
    resolution: Option<string>,
    stream: bool,
    reverseProxy: string,
    proxyPassword: string,
    reasoningEffort: Option<string>,
    enableWebSearch: bool)

  /** The body `generateImageFromPrompt` posts, for the messages `buildMessages` returned. */
  function Body(s: Settings, messages: seq<Message>, proxy: ProxySettings): (r: RequestBody)
    ensures r.chatCompletionSource == if s.provider != "" then s.provider else DefaultSource
    ensures r.aspectRatio == if s.aspectRatio != "" then s.aspectRatio else DefaultAspectRatio
    ensures r.reverseProxy == OrDefault(proxy.reverseProxy, "") && r.proxyPassword == OrDefault(proxy.proxyPassword, "")
    ensures r.model == s.model && r.messages == messages
    ensures r.maxTokens == MaxTokens && r.temperature == Temperature && r.requestImages && !r.stream
    ensures r.resolution.None? <==> s.imageSize == ""
    ensures r.resolution.Some? ==> r.resolution.value == s.imageSize
    ensures r.reasoningEffort.Some? <==> IsFlash2Model(s.model) && s.thinkingLevel != "" && s.thinkingLevel != AutoThinking
    ensures r.reasoningEffort.Some? ==> r.reasoningEffort.value == s.thinkingLevel
    ensures r.enableWebSearch <==> IsFlash2Model(s.model) && s.useGoogleSearch
  {
    var isFlash2 := IsFlash2Model(s.model);
    var thinkingLevel := OrDefault(Some(s.thinkingLevel), AutoThinking);
    RequestBody(
      OrDefault(Some(s.provider), DefaultSource),
      s.model,
      messages,
      MaxTokens,
      Temperature,
      true,
      OrDefault(Some(s.aspectRatio), DefaultAspectRatio),
      if s.imageSize != "" then Some(s.imageSize) else None,
      false,
      OrDefault(proxy.reverseProxy, ""),
      OrDefault(proxy.proxyPassword, ""),
      if isFlash2 && thinkingLevel != AutoThinking then Some(thinkingLevel) else None,
      isFlash2 && s.useGoogleSearch)
  }

  /** The thinking level and web search are sent only to the flash2 family. */
  lemma Flash2OptionsOnly(s: Settings, messages: seq<Message>, proxy: ProxySettings)
    requires !IsFlash2Model(s.model)
    ensures Body(s, messages, proxy).(reasoningEffort := None, enableWebSearch := false) == Body(s, messages, proxy)
  {
  }

  /**
   * After the provider handler accepted a provider, the body names one the
   * backend knows, and a model of that provider's table.
   */
  lemma BodyAfterProviderChange(s: Settings, provider: string, messages: seq<Message>, proxy: ProxySettings)
    requires !OnProviderChange(s, provider).threw
    ensures var r := Body(OnProviderChange(s, provider).settings, messages, proxy);
            && KnownProvider(r.chatCompletionSource)
            && r.model == ProviderModels(r.chatCompletionSource).value.Id(FamilyOf(s.model))
  {
  }

  /**
   * A provider without a model table stays stored after the handler threw,
   * and the next request still names it as the source.
   */
  lemma BodyAfterUnknownProvider(s: Settings, provider: string, messages: seq<Message>, proxy: ProxySettings)
    requires OnProviderChange(s, provider).threw
    ensures var r := Body(OnProviderChange(s, provider).settings, messages, proxy);
            r.chatCompletionSource == provider && !KnownProvider(provider)
  {
  }

  /**
   * After the model handler ran, a size is sent to a model that takes one
   * only when its dropdown offers it ("512" to the flash2 family alone).
   */
  lemma ResolutionOffered(s: Settings, model: string, messages: seq<Message>, proxy: ProxySettings)
    requires IsProModel(model) || IsFlash2Model(model)
    ensures var r := Body(OnModelChange(s, model), messages, proxy);
            r.resolution.Some? ==> r.resolution.value in SizeOptions(IsFlash2Model(model))
    ensures var r := Body(OnModelChange(s, model), messages, proxy);
            r.resolution == Some("512") ==> IsFlash2Model(model)
  {
    var t := OnModelChange(s, model);
    if Body(t, messages, proxy).resolution == Some("512") {
      assert "512" != "" && "512" != "1K" && "512" != "2K" && "512" != "4K";
    }
  }

  // ---------------------------------------------------------------------
  // The reply.
  // ---------------------------------------------------------------------

  /** A reply part's `inlineData`, with its `data` and `mimeType` keys, either of which may be missing. */
  datatype InlineData = InlineData(data: Option<string>, mimeType: Option<string>)

  datatype Part = Part(inlineData: Option<InlineData>)

  /**
   * A successful reply: `responseContent.parts` (None when either key is
   * missing) and `choices[0].message.content` (None when any step is missing).
   */
  datatype Reply = Reply(parts: Option<seq<Part>>, textContent: Option<string>)

  /** The `error.message` and `message` keys of an error reply's JSON. */
  datatype ErrorBody = ErrorBody(errorMessage: Option<string>, message: Option<string>)

  /**
   * What `fetch` returned. `errorBody` is the JSON an error reply's text
   * parses to, None when it does not parse to an object; `result` is what
   * `response.json()` yields for a success, None when it throws or yields
   * `null`. Any other JSON value without the keys read here is
   * `Reply(None, None)`.
   */
  datatype Response = Response(ok: bool, status: nat, errorBody: Option<ErrorBody>, result: Option<Reply>)

  datatype GeneratedImage = GeneratedImage(imageData: string, mimeType: string)

  /**
   * How the call ends: the image, or the message of the error it throws.
   * `Unreadable` stands for the error `response.json()` throws on a success
   * body that is not JSON, whose message comes from the JavaScript engine.
   */
  datatype Outcome = Generated(image: GeneratedImage) | Failed(message: string) | Unreadable

  const TextInsteadOfImage: string := "Model returned text instead of image"
  const NoImageReturned: string := "No image was returned by the API"
  const DefaultMimeType: string := "image/png"

  /** `part.inlineData?.data` is truthy. */
  predicate HasImage(p: Part) {
    p.inlineData.Some? && Given(p.inlineData.value.data)
  }

  /** The image of the first part that carries one. */
  function FirstImage(parts: seq<Part>): (r: Option<GeneratedImage>)
    ensures r.None? <==> forall i :: 0 <= i < |parts| ==> !HasImage(parts[i])
    ensures r.Some? ==> exists i :: 0 <= i < |parts| && HasImage(parts[i])
                                   && (forall j :: 0 <= j < i ==> !HasImage(parts[j]))
                                   && r.value == ImageOf(parts[i])
    decreases |parts|
  {
    if parts == [] then None
    else if HasImage(parts[0]) then Some(ImageOf(parts[0]))
    else
      var rest := FirstImage(parts[1..]);
      assert forall i :: 1 <= i < |parts| ==> parts[i] == parts[1..][i - 1];
      rest
  }

  /** The image of a part that carries one; the MIME type defaults to PNG. */
  function ImageOf(p: Part): (r: GeneratedImage)
    requires HasImage(p)
    ensures r.imageData != "" && r.mimeType != ""
    ensures r.imageData == p.inlineData.value.data.value
    ensures Given(p.inlineData.value.mimeType) ==> r.mimeType == p.inlineData.value.mimeType.value
    ensures !Given(p.inlineData.value.mimeType) ==> r.mimeType == DefaultMimeType
  {
    GeneratedImage(p.inlineData.value.data.value, OrDefault(p.inlineData.value.mimeType, DefaultMimeType))
  }

  /** The message of the error thrown for a reply that is not `ok`. */
  function ErrorMessage(status: nat, body: Option<ErrorBody>): (r: string)
    ensures r != ""
    ensures body.Some? && Given(body.value.errorMessage) ==> r == body.value.errorMessage.value
    ensures body.Some? && !Given(body.value.errorMessage) && Given(body.value.message) ==> r == body.value.message.value
    ensures (body.None? || (!Given(body.value.errorMessage) && !Given(body.value.message)))
            ==> r == "API Error: " + NatToString(status)
  {
    var fallback := "API Error: " + NatToString(status);
    match body
    case None => fallback
    case Some(e) => OrDefault(e.errorMessage, OrDefault(e.message, fallback))
  }

  /** How `generateImageFromPrompt` reads the reply. */
  function Classify(resp: Response): (r: Outcome)
    ensures !resp.ok ==> r == Failed(ErrorMessage(resp.status, resp.errorBody))
    ensures r.Failed? ==> r.message != ""
    ensures r.Unreadable? <==> resp.ok && resp.result.None?
  {
    if !resp.ok then Failed(ErrorMessage(resp.status, resp.errorBody))
    else
      match resp.result
      case None => Unreadable
      case Some(reply) =>
        var image := if reply.parts.Some? then FirstImage(reply.parts.value) else None;
        if image.Some? then Generated(image.value)
        else if Given(reply.textContent) then Failed(TextInsteadOfImage)
        else Failed(NoImageReturned)
  }

  /** An image anywhere in the parts wins over any text the reply carries. */
  lemma ImageWinsOverText(resp: Response, i: int)
    requires resp.ok && resp.result.Some? && resp.result.value.parts.Some?
    requires 0 <= i < |resp.result.value.parts.value| && HasImage(resp.result.value.parts.value[i])
    ensures FirstImage(resp.result.value.parts.value).Some?
    ensures Classify(resp) == Generated(FirstImage(resp.result.value.parts.value).value)
  {
  }

  /** A successful reply without an image part fails, naming whether text came instead. */
  lemma NoImageFails(resp: Response)
    requires resp.ok && resp.result.Some?
    requires resp.result.value.parts.Some? ==>
               forall i :: 0 <= i < |resp.result.value.parts.value| ==> !HasImage(resp.result.value.parts.value[i])
    ensures Classify(resp) == Failed(if Given(resp.result.value.textContent) then TextInsteadOfImage
                                     else NoImageReturned)
  {
  }

  /** A generated image always has data and a MIME type. */
  lemma GeneratedImageComplete(resp: Response)
    requires Classify(resp).Generated?
    ensures Classify(resp).image.imageData != "" && Classify(resp).image.mimeType != ""
    ensures resp.ok
  {
    var reply := resp.result.value;
    var i :| 0 <= i < |reply.parts.value| && HasImage(reply.parts.value[i])
             && Classify(resp).image == ImageOf(reply.parts.value[i]);
  }

  // ---------------------------------------------------------------------
  // `generateImageFromPrompt`: the body goes out, `resp` is what came back.
  // ---------------------------------------------------------------------

  /** The loop over the reply's parts: the first one with inline data is returned. */
  method FindImage(parts: seq<Part>) returns (r: Option<GeneratedImage>)
    ensures r == FirstImage(parts)
  {
    for i := 0 to |parts|
      invariant FirstImage(parts) == FirstImage(parts[i..])
    {
      assert parts[i..][1..] == parts[i + 1..];
      if HasImage(parts[i]) {
        var inline := parts[i].inlineData.value;
        var mimeType := OrDefault(inline.mimeType, DefaultMimeType);
        return Some(GeneratedImage(inline.data.value, mimeType));
      }
    }
    assert parts[|parts|..] == [];
    r := None;
  }

  method ReadResponse(resp: Response) returns (outcome: Outcome)
    ensures outcome == Classify(resp)
  {
    if !resp.ok {
      return Failed(ErrorMessage(resp.status, resp.errorBody));
    }
    if resp.result.None? {
      return Unreadable;
    }
    var reply := resp.result.value;
    if reply.parts.Some? {
      var image := FindImage(reply.parts.value);
      if image.Some? {
        return Generated(image.value);
      }
    }
    if Given(reply.textContent) {
      return Failed(TextInsteadOfImage);
    }
    return Failed(NoImageReturned);
  }

  /**
   * The whole call. `userAvatar` and `charAvatar` are what the avatar
   * getters returned and `resp` is the reply to the posted `body`.
   */
  method GenerateImageFromPrompt(s: Settings, h: Host, gallery: seq<GalleryEntry>, userAvatar: Option<Avatar>,
                                 charAvatar: Option<Avatar>, proxy: ProxySettings, prompt: string,
                                 sender: Option<string>, messageId: Option<int>, resp: Response)
    returns (body: RequestBody, outcome: Outcome)
    requires FromInRange(h.chat, messageId)
    ensures body == Body(s, [Message("user", ContentParts(s, h, gallery, userAvatar, charAvatar, prompt, sender, messageId))], proxy)
    ensures outcome == Classify(resp)
  {
    var messages := BuildMessages(s, h, gallery, userAvatar, charAvatar, prompt, sender, messageId);
    body := Body(s, messages, proxy);
    outcome := ReadResponse(resp);
  }
}
