/**
 * Request shaping for the generation provider: the options object sent to
 * start a video generation and the request sent to generate an image. The
 * provider calls themselves are not part of this model; the handlers in
 * MediaVideo and MediaImage receive their results as oracle parameters.
 *
 * JavaScript objects built field by field are maps from field name to value.
 * An optional string argument is `""` when it is absent or empty (both are
 * falsy); an argument with a default value is an `Option`, `None` meaning
 * `undefined`, the only value that selects the default.
 */
module MediaModel {
  import opened Common

  const DefaultVideoModel := "veo-3.1-generate-preview"
  const DefaultImageModel := "gemini-2.5-flash-image"

  /** The options object `generateVideoOperation` sends, as a value. */
  function VideoOptions(prompt: string, model: Option<string>, aspectRatio: string): map<string, string> {
    var base := map["model" := if model.Some? then model.value else DefaultVideoModel, "prompt" := prompt];
    if aspectRatio != "" then base["aspectRatio" := aspectRatio] else base
  }

  /** `generateVideoOperation`'s `requestOptions`, built field by field. */
  method VideoRequestOptions(prompt: string, model: Option<string>, aspectRatio: string)
    returns (options: map<string, string>)
    ensures options == VideoOptions(prompt, model, aspectRatio)
    ensures "model" in options && options["model"] == (if model.Some? then model.value else DefaultVideoModel)
    ensures "prompt" in options && options["prompt"] == prompt
    ensures "aspectRatio" in options <==> aspectRatio != ""
    ensures "aspectRatio" in options ==> options["aspectRatio"] == aspectRatio
    ensures options.Keys <= {"model", "prompt", "aspectRatio"}
  {
    var m := if model.Some? then model.value else DefaultVideoModel;
    options := map["model" := m, "prompt" := prompt];
    if aspectRatio != "" {
      options := options["aspectRatio" := aspectRatio];
    }
  }

  /** `generateImage`'s `config`: response modalities and an optional `imageConfig` object. */
  datatype ImageConfig = ImageConfig(responseModalities: seq<string>, imageConfig: Option<map<string, string>>)

  /** The argument of the provider's `generateContent` call. */
  datatype ImageRequest = ImageRequest(model: string, contents: seq<string>, config: ImageConfig)

  /** The request `generateImage` sends, as a value. */
  function ImageRequestOf(prompt: string, model: Option<string>, aspectRatio: string, imageSize: string): ImageRequest {
    var sized: map<string, string> := if aspectRatio != "" then map["aspectRatio" := aspectRatio] else map[];
    var fields := if imageSize != "" then sized["imageSize" := imageSize] else sized;
    var imageConfig := if aspectRatio == "" && imageSize == "" then None else Some(fields);
    ImageRequest(if model.Some? then model.value else DefaultImageModel, [prompt],
                 ImageConfig(["Image", "Text"], imageConfig))
  }

  /** `generateImage`'s request, its `imageConfig` built field by field. */
  method ImageRequestFor(prompt: string, model: Option<string>, aspectRatio: string, imageSize: string)
    returns (request: ImageRequest)
    ensures request == ImageRequestOf(prompt, model, aspectRatio, imageSize)
    ensures request.model == (if model.Some? then model.value else DefaultImageModel)
    ensures request.contents == [prompt]
    ensures request.config.responseModalities == ["Image", "Text"]
    ensures request.config.imageConfig.Some? <==> (aspectRatio != "" || imageSize != "")
    ensures request.config.imageConfig.Some? ==>
              var ic := request.config.imageConfig.value;
              && ("aspectRatio" in ic <==> aspectRatio != "")
              && ("imageSize" in ic <==> imageSize != "")
              && ic.Keys <= {"aspectRatio", "imageSize"}
              && ("aspectRatio" in ic ==> ic["aspectRatio"] == aspectRatio)
              && ("imageSize" in ic ==> ic["imageSize"] == imageSize)
  {
    var config := ImageConfig(["Image", "Text"], None);
    if aspectRatio != "" || imageSize != "" {
      var imageConfig: map<string, string> := map[];
      if aspectRatio != "" {
        imageConfig := imageConfig["aspectRatio" := aspectRatio];
      }
      if imageSize != "" {
        imageConfig := imageConfig["imageSize" := imageSize];
      }
      config := config.(imageConfig := Some(imageConfig));
    }
    var m := if model.Some? then model.value else DefaultImageModel;
    request := ImageRequest(m, [prompt], config);
  }
}
