/**
 * The video endpoints (`generateVideo`, `generateVideoInfo`): validate the
 * request, submit a long-running generation, poll it at most 60 times,
 * then check the outcome in a fixed order.
 *
 * The provider is an oracle: `submit` maps the request options to the
 * submitted operation (or the message of the error it throws), and
 * `poll(i)` is the operation returned by the (i+1)-th status request. The
 * ten-second sleep between polls is not modelled.
 */
module MediaVideo {
  import opened Common
  import MediaModel

  /** A generated video's file reference (`video.uri`, `video.name`; `""` when absent). */
  datatype VideoFile = VideoFile(uri: string, name: string)

  /**
   * A long-running operation as the provider reports it. `generatedVideos`
   * is `None` when `response` or its `generatedVideos` member is missing.
   */
  datatype VideoOperation = VideoOperation(
    name: string,
    done: bool,
    error: Option<string>,
    generatedVideos: Option<seq<VideoFile>>)

  /** The request body fields the handlers read; `model` is `None` when undefined. */
  datatype VideoRequestBody = VideoRequestBody(prompt: string, aspectRatio: string, model: Option<string>)

  const MaxAttempts := 60

  /**
   * Where polling stops when it is at `op` after `attempts` polls: the
   * operation it ends with and the number of polls made by then.
   */
  function Polled(op: VideoOperation, poll: nat -> VideoOperation, attempts: nat): (VideoOperation, nat)
    requires attempts <= MaxAttempts
    decreases MaxAttempts - attempts
  {
    if op.done || attempts == MaxAttempts then (op, attempts)
    else Polled(poll(attempts), poll, attempts + 1)
  }

  /**
   * The poll loop: while the operation is not done and fewer than 60 polls
   * were made, poll again.
   */
  method PollUntilDone(initial: VideoOperation, poll: nat -> VideoOperation)
    returns (op: VideoOperation, attempts: nat)
    ensures (op, attempts) == Polled(initial, poll, 0)
    ensures attempts <= MaxAttempts
    ensures initial.done ==> attempts == 0
    ensures attempts == 0 ==> op == initial
    ensures attempts > 0 ==> op == poll(attempts - 1)
    ensures !initial.done ==> attempts > 0
    ensures forall j :: 0 <= j < attempts - 1 ==> !poll(j).done
    ensures op.done || attempts == MaxAttempts
  {
    op := initial;
    attempts := 0;
    while !op.done && attempts < MaxAttempts
      invariant attempts <= MaxAttempts
      invariant attempts == 0 ==> op == initial
      invariant attempts > 0 ==> op == poll(attempts - 1) && !initial.done
      invariant forall j :: 0 <= j < attempts - 1 ==> !poll(j).done
      invariant Polled(op, poll, attempts) == Polled(initial, poll, 0)
    {
      op := poll(attempts);
      attempts := attempts + 1;
    }
  }

  /** What the handlers conclude from the operation once polling has stopped. */
  datatype VideoOutcome =
    | TimedOut(operationId: string)      // 504
    | GenerationFailed(details: string)  // 500 "Video generation failed"
    | ResponseMissing                    // `operation.response.generatedVideos` throws: 500
    | NoVideoGenerated                   // 500 "No video generated in response"
    | Generated(video: VideoFile)

  function CheckOutcome(op: VideoOperation): (r: VideoOutcome)
    ensures r.TimedOut? <==> !op.done
    ensures r.TimedOut? ==> r.operationId == op.name
    ensures r.GenerationFailed? <==> op.done && op.error.Some?
    ensures r.GenerationFailed? ==> r.details == op.error.value
    ensures r.ResponseMissing? <==> op.done && op.error.None? && op.generatedVideos.None?
    ensures r.NoVideoGenerated? <==> op.done && op.error.None? && op.generatedVideos == Some([])
    ensures r.Generated? ==> op.generatedVideos.Some? && |op.generatedVideos.value| > 0
                             && r.video == op.generatedVideos.value[0]
  {
    if !op.done then TimedOut(op.name)
    else if op.error.Some? then GenerationFailed(op.error.value)
    else if op.generatedVideos.None? then ResponseMissing
    else if |op.generatedVideos.value| == 0 then NoVideoGenerated
    else Generated(op.generatedVideos.value[0])
  }

  /** The reply of either video endpoint. */
  datatype VideoReply =
    | PromptRequired                          // 400
    | ApiKeyMissing                           // 500
    | Outcome(outcome: VideoOutcome)          // 504 / 500 / success
    | SubmitFailed(message: string)           // 500 "Failed to generate video"
  {
    function HttpStatus(): int {
      match this
      case PromptRequired => 400
      case ApiKeyMissing => 500
      case SubmitFailed(_) => 500
      case Outcome(o) => if o.TimedOut? then 504 else if o.Generated? then 200 else 500
    }
  }

  /** The options both video handlers submit for a body. */
  function OptionsOf(body: VideoRequestBody): map<string, string> {
    MediaModel.VideoOptions(body.prompt, body.model, body.aspectRatio)
  }

  /** The operation polling ends with, from the submitted one. */
  function FinalOperation(initial: VideoOperation, poll: nat -> VideoOperation): VideoOperation {
    Polled(initial, poll, 0).0
  }

  /**
   * The part both video handlers share: checks, submission, polling and the
   * outcome. `request` is what was sent to the provider, `polls` how many
   * status requests were made.
   */
  method RunVideoGeneration(
    body: VideoRequestBody,
    apiKeyConfigured: bool,
    submit: map<string, string> -> Result<VideoOperation, string>,
    poll: nat -> VideoOperation)
    returns (reply: VideoReply, request: Option<map<string, string>>, polls: nat)
    ensures body.prompt == "" ==> reply == PromptRequired && request.None? && polls == 0
    ensures body.prompt != "" && !apiKeyConfigured ==> reply == ApiKeyMissing && request.None? && polls == 0
    ensures request.Some? <==> body.prompt != "" && apiKeyConfigured
    ensures request.Some? ==> request.value == OptionsOf(body)
    ensures request.Some? ==>
              && "prompt" in request.value && request.value["prompt"] == body.prompt
              && "model" in request.value && request.value["model"] == (if body.model.Some? then body.model.value else MediaModel.DefaultVideoModel)
              && ("aspectRatio" in request.value <==> body.aspectRatio != "")
    ensures request.Some? && submit(request.value).Err? ==>
              reply == SubmitFailed(submit(request.value).error) && polls == 0
    ensures request.Some? && submit(request.value).Ok? ==>
              var initial := submit(request.value).value;
              && polls <= MaxAttempts
              && (initial.done ==> polls == 0)
              && (forall j :: 0 <= j < polls - 1 ==> !poll(j).done)
              && reply == Outcome(CheckOutcome(if polls == 0 then initial else poll(polls - 1)))
              && (if polls == 0 then initial else poll(polls - 1)) == FinalOperation(initial, poll)
              && reply == Outcome(CheckOutcome(FinalOperation(initial, poll)))
              && (reply.outcome.TimedOut? ==> polls == MaxAttempts)
  {
    polls := 0;
    request := None;
    if body.prompt == "" {
      return PromptRequired, request, polls;
    }
    if !apiKeyConfigured {
      return ApiKeyMissing, request, polls;
    }
    var options := MediaModel.VideoRequestOptions(body.prompt, body.model, body.aspectRatio);
    request := Some(options);
    var submitted := submit(options);
    if submitted.Err? {
      return SubmitFailed(submitted.error), request, polls;
    }
    var op;
    op, polls := PollUntilDone(submitted.value, poll);
    reply := Outcome(CheckOutcome(op));
  }

  /**
   * `generateVideo`: the outcome checks, then the file to download and send
   * as `video/mp4` (the download itself is a provider call, not modelled).
   */
  method GenerateVideo(
    body: VideoRequestBody,
    apiKeyConfigured: bool,
    submit: map<string, string> -> Result<VideoOperation, string>,
    poll: nat -> VideoOperation)
    returns (reply: VideoReply, download: Option<VideoFile>)
    ensures body.prompt == "" ==> reply == PromptRequired
    ensures body.prompt != "" && !apiKeyConfigured ==> reply == ApiKeyMissing
    ensures body.prompt != "" && apiKeyConfigured ==>
              var submitted := submit(OptionsOf(body));
              && (submitted.Err? ==> reply == SubmitFailed(submitted.error))
              && (submitted.Ok? ==> reply == Outcome(CheckOutcome(FinalOperation(submitted.value, poll))))
    ensures download.Some? <==> reply.Outcome? && reply.outcome.Generated?
    ensures download.Some? ==> download.value == reply.outcome.video && reply.HttpStatus() == 200
  {
    var request, polls;
    reply, request, polls := RunVideoGeneration(body, apiKeyConfigured, submit, poll);
    download := if reply.Outcome? && reply.outcome.Generated? then Some(reply.outcome.video) else None;
  }

  /** The JSON `generateVideoInfo` returns on success. */
  datatype VideoInfo = VideoInfo(uri: string, name: string, expiresIn: string, operationName: string, operationDone: bool)

  /** `generateVideoInfo`: the outcome checks, then the video's metadata. */
  method GenerateVideoInfo(
    body: VideoRequestBody,
    apiKeyConfigured: bool,
    submit: map<string, string> -> Result<VideoOperation, string>,
    poll: nat -> VideoOperation)
    returns (reply: VideoReply, info: Option<VideoInfo>)
    ensures body.prompt == "" ==> reply == PromptRequired
    ensures body.prompt != "" && !apiKeyConfigured ==> reply == ApiKeyMissing
    ensures body.prompt != "" && apiKeyConfigured ==>
              var submitted := submit(OptionsOf(body));
              && (submitted.Err? ==> reply == SubmitFailed(submitted.error))
              && (submitted.Ok? ==> reply == Outcome(CheckOutcome(FinalOperation(submitted.value, poll))))
    ensures info.Some? <==> reply.Outcome? && reply.outcome.Generated?
    ensures info.Some? ==>
              var v := reply.outcome.video;
              && info.value.uri == (if v.uri != "" then v.uri else v.name)
              && info.value.name == v.name
              && info.value.expiresIn == "2 days"
              && info.value.operationName == FinalOperation(submit(OptionsOf(body)).value, poll).name
              && info.value.operationDone
  {
    var request, polls;
    reply, request, polls := RunVideoGeneration(body, apiKeyConfigured, submit, poll);
    info := None;
    if reply.Outcome? && reply.outcome.Generated? {
      var v := reply.outcome.video;
      var op := if polls == 0 then submit(request.value).value else poll(polls - 1);
      info := Some(VideoInfo(if v.uri != "" then v.uri else v.name, v.name, "2 days", op.name, op.done));
    }
  }

  /**
   * A generation that reports done after n < 60 unfinished polls is
   * answered after exactly n + 1 status requests; one that never completes
   * is answered 504 after 60.
   */
  lemma PollingScenarios(initial: VideoOperation, poll: nat -> VideoOperation, n: nat,
                         op: VideoOperation, attempts: nat)
    requires !initial.done
    requires attempts <= MaxAttempts
    requires attempts > 0 && op == poll(attempts - 1)
    requires forall j :: 0 <= j < attempts - 1 ==> !poll(j).done
    requires op.done || attempts == MaxAttempts
    requires n < MaxAttempts && poll(n).done
    requires forall j :: 0 <= j < n ==> !poll(j).done
    ensures attempts == n + 1 && CheckOutcome(op) != TimedOut(op.name)
  {
  }

  lemma NeverDoneTimesOut(initial: VideoOperation, poll: nat -> VideoOperation, op: VideoOperation, attempts: nat)
    requires !initial.done
    requires attempts > 0 && op == poll(attempts - 1)
    requires op.done || attempts == MaxAttempts
    requires forall j :: !poll(j).done
    ensures attempts == MaxAttempts && CheckOutcome(op) == TimedOut(op.name)
  {
  }
}
