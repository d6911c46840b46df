/**
 * The image endpoints (`generateImage`, `generateImageInfo`) and the part
 * extraction they share with the recommendation flow: pick the first part of
 * the first candidate that carries `inlineData` or `imageData`, read its data
 * and MIME type with `inlineData` taking precedence, and join the text parts.
 *
 * The provider's response is an oracle parameter; the base64 payload is kept
 * as text (decoding it to bytes is library code).
 */
module MediaImage {
  import opened Common
  import MediaModel
  import MediaErrors

  /** `inlineData` / `imageData` of a part; `""` stands for an absent or empty member. */
  datatype Blob = Blob(data: string, mimeType: string)

  /** A content part: image blobs when present, and its `text` (`""` when absent). */
  datatype Part = Part(inlineData: Option<Blob>, imageData: Option<Blob>, text: string)

  /** A candidate; `parts` is `None` when `content` or `content.parts` is missing. */
  datatype Candidate = Candidate(parts: Option<seq<Part>>)

  /** The provider's response; `candidates` is `None` when the member is missing. */
  datatype GenerateResponse = GenerateResponse(candidates: Option<seq<Candidate>>)

  const DefaultMimeType := "image/png"

  /** `response.candidates[0]?.content?.parts` (the caller has checked `candidates`). */
  function FirstCandidateParts(candidates: seq<Candidate>): Option<seq<Part>> {
    if |candidates| == 0 then None else candidates[0].parts
  }

  predicate CarriesImage(p: Part) {
    p.inlineData.Some? || p.imageData.Some?
  }

  /** `parts.find(part => part.inlineData || part.imageData)`, as an index. */
  function FindImagePart(parts: seq<Part>): (r: Option<nat>)
    ensures r.Some? ==> r.value < |parts| && CarriesImage(parts[r.value])
    ensures r.Some? ==> forall j :: 0 <= j < r.value ==> !CarriesImage(parts[j])
    ensures r.None? ==> forall j :: 0 <= j < |parts| ==> !CarriesImage(parts[j])
  {
    if |parts| == 0 then None
    else if CarriesImage(parts[0]) then Some(0)
    else match FindImagePart(parts[1..]) {
      case None => None
      case Some(k) => Some(k + 1)
    }
  }

  /** `inlineData?.data || imageData?.data`: `None` when both are falsy. */
  function ImageData(p: Part): (r: Option<string>)
    ensures r.Some? ==> r.value != ""
    ensures p.inlineData.Some? && p.inlineData.value.data != "" ==> r == Some(p.inlineData.value.data)
    ensures (p.inlineData.None? || p.inlineData.value.data == "") && p.imageData.Some? && p.imageData.value.data != "" ==>
              r == Some(p.imageData.value.data)
    ensures r.None? <==> (p.inlineData.None? || p.inlineData.value.data == "")
                         && (p.imageData.None? || p.imageData.value.data == "")
  {
    if p.inlineData.Some? && p.inlineData.value.data != "" then Some(p.inlineData.value.data)
    else if p.imageData.Some? && p.imageData.value.data != "" then Some(p.imageData.value.data)
    else None
  }

  /** `inlineData?.mimeType || imageData?.mimeType || 'image/png'`. */
  function MimeType(p: Part): (r: string)
    ensures r != ""
    ensures p.inlineData.Some? && p.inlineData.value.mimeType != "" ==> r == p.inlineData.value.mimeType
    ensures (p.inlineData.None? || p.inlineData.value.mimeType == "") && p.imageData.Some? && p.imageData.value.mimeType != "" ==>
              r == p.imageData.value.mimeType
    ensures (p.inlineData.None? || p.inlineData.value.mimeType == "") && (p.imageData.None? || p.imageData.value.mimeType == "") ==>
              r == DefaultMimeType
    ensures r == DefaultMimeType || (p.inlineData.Some? && r == p.inlineData.value.mimeType)
                                 || (p.imageData.Some? && r == p.imageData.value.mimeType)
  {
    if p.inlineData.Some? && p.inlineData.value.mimeType != "" then p.inlineData.value.mimeType
    else if p.imageData.Some? && p.imageData.value.mimeType != "" then p.imageData.value.mimeType
    else DefaultMimeType
  }

  /** The texts of the parts whose `text` is truthy, in order. */
  function Texts(parts: seq<Part>): (r: seq<string>)
    ensures |r| <= |parts|
    ensures forall k :: 0 <= k < |r| ==> r[k] != ""
    ensures |r| == 0 <==> forall j :: 0 <= j < |parts| ==> parts[j].text == ""
  {
    if |parts| == 0 then []
    else if parts[0].text != "" then [parts[0].text] + Texts(parts[1..])
    else Texts(parts[1..])
  }

  /** A part appended to the list adds its text at the end, when it has one. */
  lemma {:induction false} TextsSnoc(parts: seq<Part>, p: Part)
    ensures Texts(parts + [p]) == Texts(parts) + (if p.text != "" then [p.text] else [])
    decreases |parts|
  {
    if |parts| > 0 {
      assert (parts + [p])[1..] == parts[1..] + [p];
      TextsSnoc(parts[1..], p);
    } else {
      assert [p][1..] == [];
    }
  }

  /** `parts?.filter(p => p.text).map(p => p.text).join(' ') || null`. */
  function TextOf(parts: Option<seq<Part>>): (r: Option<string>)
    ensures r.Some? ==> r.value != ""
    ensures r.None? <==> parts.None? || forall j :: 0 <= j < |parts.value| ==> parts.value[j].text == ""
    ensures r.Some? ==> r.value == Join(Texts(parts.value), " ")
  {
    if parts.None? then None
    else
      var joined := Join(Texts(parts.value), " ");
      JoinOfNonEmpty(Texts(parts.value), " ");
      if joined == "" then None else Some(joined)
  }

  /**
   * The text is every non-empty text in part order, separated by single
   * spaces: a part appended with a text adds a space and that text, or is
   * the whole text when none came before; a part without text adds nothing.
   */
  lemma TextOfSnoc(parts: seq<Part>, p: Part)
    ensures p.text == "" ==> TextOf(Some(parts + [p])) == TextOf(Some(parts))
    ensures p.text != "" ==>
              TextOf(Some(parts + [p])) == Some(if TextOf(Some(parts)).None? then p.text
                                                else TextOf(Some(parts)).value + " " + p.text)
  {
    TextsSnoc(parts, p);
    if p.text == "" {
      assert Texts(parts + [p]) == Texts(parts);
    } else if Texts(parts) != [] {
      JoinSnoc(Texts(parts), p.text, " ");
    }
  }

  /** The request body fields the image handlers read. */
  datatype ImageRequestBody = ImageRequestBody(prompt: string, model: Option<string>, aspectRatio: string, imageSize: string)

  datatype ImageReply =
    | PromptRequired                         // 400
    | ApiKeyMissing                          // 500
    | NoImageGenerated                       // 500 "No image generated in response"
    | ImageDataNotFound                      // 500, `generateImage` only
    | ImageFile(data: string, mimeType: string)
    | ImageInfo(imageData: Option<string>, infoMimeType: string, dataUrl: string, text: Option<string>)
    | ApiError(reply: MediaErrors.ErrorReply)
  {
    function HttpStatus(): int {
      match this
      case PromptRequired => 400
      case ApiError(r) => r.HttpStatus()
      case ImageFile(_, _) => 200
      case ImageInfo(_, _, _, _) => 200
      case _ => 500
    }
  }

  /** The error a missing `candidates` member throws inside the handler's `try`. */
  const MissingCandidates := MediaErrors.ProviderError(None, None,
    "Cannot read properties of undefined (reading '0')", None, MediaErrors.NoValue)

  /** The parts of a successful response's first candidate, when there are any. */
  function ResponseParts(response: Result<GenerateResponse, MediaErrors.ProviderError>): Option<seq<Part>> {
    if response.Err? || response.value.candidates.None? then None
    else FirstCandidateParts(response.value.candidates.value)
  }

  /** The request both image handlers send for a body. */
  function RequestOf(body: ImageRequestBody): MediaModel.ImageRequest {
    MediaModel.ImageRequestOf(body.prompt, body.model, body.aspectRatio, body.imageSize)
  }

  /**
   * The image part both image handlers select, or the reply that ends the
   * request early; `request` is what was sent to the provider.
   */
  method SelectImagePart(
    body: ImageRequestBody,
    apiKeyConfigured: bool,
    generate: MediaModel.ImageRequest -> Result<GenerateResponse, MediaErrors.ProviderError>)
    returns (early: Option<ImageReply>, request: Option<MediaModel.ImageRequest>, parts: seq<Part>)
    ensures body.prompt == "" ==> early == Some(PromptRequired) && request.None?
    ensures body.prompt != "" && !apiKeyConfigured ==> early == Some(ApiKeyMissing) && request.None?
    ensures request.Some? <==> body.prompt != "" && apiKeyConfigured
    ensures request.Some? ==> request.value == RequestOf(body)
    ensures request.Some? && generate(request.value).Err? ==>
              early == Some(ApiError(MediaErrors.ErrorReplyFor(generate(request.value).error)))
    ensures request.Some? && generate(request.value).Ok? ==>
              var found := ResponseParts(generate(request.value));
              if found.Some? && FindImagePart(found.value).Some? then early.None? && parts == found.value
              else if generate(request.value).value.candidates.None? then
                early == Some(ApiError(MediaErrors.ErrorReplyFor(MissingCandidates)))
              else early == Some(NoImageGenerated)
  {
    parts, request := [], None;
    if body.prompt == "" {
      return Some(PromptRequired), request, parts;
    }
    if !apiKeyConfigured {
      return Some(ApiKeyMissing), request, parts;
    }
    var options := MediaModel.ImageRequestFor(body.prompt, body.model, body.aspectRatio, body.imageSize);
    request := Some(options);
    var response := generate(options);
    if response.Err? {
      var reply := MediaErrors.HandleApiError(response.error);
      return Some(ApiError(reply)), request, parts;
    }
    if response.value.candidates.None? {
      var reply := MediaErrors.HandleApiError(MissingCandidates);
      return Some(ApiError(reply)), request, parts;
    }
    var found := FirstCandidateParts(response.value.candidates.value);
    if found.None? || FindImagePart(found.value).None? {
      return Some(NoImageGenerated), request, parts;
    }
    parts := found.value;
    early := None;
  }

  /** `generateImage`: the selected image's data and MIME type, or an error reply. */
  method GenerateImage(
    body: ImageRequestBody,
    apiKeyConfigured: bool,
    generate: MediaModel.ImageRequest -> Result<GenerateResponse, MediaErrors.ProviderError>)
    returns (reply: ImageReply)
    ensures body.prompt == "" ==> reply == PromptRequired
    ensures body.prompt != "" && !apiKeyConfigured ==> reply == ApiKeyMissing
    ensures body.prompt != "" && apiKeyConfigured ==>
              var response := generate(RequestOf(body));
              && (response.Err? ==> reply == ApiError(MediaErrors.ErrorReplyFor(response.error)))
              && (response.Ok? && response.value.candidates.None? ==>
                    reply == ApiError(MediaErrors.ErrorReplyFor(MissingCandidates)))
              && (response.Ok? && response.value.candidates.Some? ==>
                    var found := FirstCandidateParts(response.value.candidates.value);
                    if found.None? || FindImagePart(found.value).None? then reply == NoImageGenerated
                    else
                      var part := found.value[FindImagePart(found.value).value];
                      if ImageData(part).None? then reply == ImageDataNotFound
                      else reply == ImageFile(ImageData(part).value, MimeType(part)))
    ensures reply.ImageFile? ==> reply.data != "" && reply.mimeType != ""
  {
    var early, request, parts := SelectImagePart(body, apiKeyConfigured, generate);
    if early.Some? {
      return early.value;
    }
    var part := parts[FindImagePart(parts).value];
    var data := ImageData(part);
    if data.None? {
      return ImageDataNotFound;
    }
    reply := ImageFile(data.value, MimeType(part));
  }

  /** The data URL of an image: `data:${mimeType};base64,${imageData}`, `undefined` for absent data. */
  function DataUrl(mimeType: string, data: Option<string>): string {
    "data:" + mimeType + ";base64," + (if data.Some? then data.value else "undefined")
  }

  /** `generateImageInfo`: data, MIME type and data URL of the selected image, and the joined text. */
  method GenerateImageInfo(
    body: ImageRequestBody,
    apiKeyConfigured: bool,
    generate: MediaModel.ImageRequest -> Result<GenerateResponse, MediaErrors.ProviderError>)
    returns (reply: ImageReply)
    ensures body.prompt == "" ==> reply == PromptRequired
    ensures body.prompt != "" && !apiKeyConfigured ==> reply == ApiKeyMissing
    ensures body.prompt != "" && apiKeyConfigured ==>
              var response := generate(RequestOf(body));
              && (response.Err? ==> reply == ApiError(MediaErrors.ErrorReplyFor(response.error)))
              && (response.Ok? && response.value.candidates.None? ==>
                    reply == ApiError(MediaErrors.ErrorReplyFor(MissingCandidates)))
              && (response.Ok? && response.value.candidates.Some? ==>
                    var found := FirstCandidateParts(response.value.candidates.value);
                    if found.None? || FindImagePart(found.value).None? then reply == NoImageGenerated
                    else
                      var part := found.value[FindImagePart(found.value).value];
                      reply == ImageInfo(ImageData(part), MimeType(part),
                                         DataUrl(MimeType(part), ImageData(part)), TextOf(found)))
    ensures reply.ImageInfo? ==>
              reply.dataUrl == "data:" + reply.infoMimeType + ";base64,"
                               + (if reply.imageData.Some? then reply.imageData.value else "undefined")
  {
    var early, request, parts := SelectImagePart(body, apiKeyConfigured, generate);
    if early.Some? {
      return early.value;
    }
    var part := parts[FindImagePart(parts).value];
    var data := ImageData(part);
    var mimeType := MimeType(part);
    var text := TextOf(Some(parts));
    var shown := if data.Some? then data.value else "undefined";
    reply := ImageInfo(data, mimeType, "data:" + mimeType + ";base64," + shown, text);
  }

  /**
   * The selected part is the first image-carrying part, and its fields win
   * over any other part's: a later part never changes data or MIME type.
   */
  lemma {:induction false} FirstImagePartWins(parts: seq<Part>, later: seq<Part>)
    requires FindImagePart(parts).Some?
    ensures FindImagePart(parts + later) == FindImagePart(parts)
  {
    var k := FindImagePart(parts).value;
    if k > 0 {
      assert (parts + later)[1..] == parts[1..] + later;
      assert FindImagePart(parts[1..]).Some? by {
        assert CarriesImage(parts[1..][k - 1]);
      }
      FirstImagePartWins(parts[1..], later);
    }
  }
}
