/**
 * Translation of a provider (generation API) error into the HTTP reply the
 * media endpoints send: quota errors (429) become a structured "Quota
 * exceeded" reply with an optional retry delay read from the provider's
 * `RetryInfo` detail; every other error passes its status and message through.
 *
 * The provider error is an untyped JavaScript object. It is modelled by the
 * fields the translation reads; `JSON.parse` of the message text is an oracle
 * carried with the text (`messageJson`: `None` when the text is not JSON or
 * not an object).
 */
module MediaErrors {
  import opened Common

  /** `retryDelay` of a details entry: absent/empty, a string, or another truthy value. */
  datatype DelayField = NoDelay | DelayText(text: string) | DelayOther

  /** One entry of `error.details`, with its `@type` and `retryDelay` members. */
  datatype Detail = Detail(typeName: Option<string>, retryDelay: DelayField)

  /** `error.details` of the parsed body: absent, an array, or something truthy that is not an array. */
  datatype DetailsField = NoDetails | DetailList(items: seq<Detail>) | DetailsNotArray

  /** The `error` member of the provider's JSON error body. */
  datatype ApiErrorBody = ApiErrorBody(message: string, details: DetailsField)

  /** A parsed JSON object that may carry an `error` member. */
  datatype ErrorPayload = ErrorPayload(error: Option<ApiErrorBody>)

  /** `error.details` of the thrown error: absent, a string (with its parse), or an object. */
  datatype DetailsValue =
    | NoValue
    | TextValue(text: string, parsed: Option<ErrorPayload>)
    | ObjectValue(obj: ErrorPayload)

  /**
   * The thrown error: `status`, `code`, `message` (the empty string stands
   * for an absent or empty message, both falsy) and `details`.
   */
  datatype ProviderError = ProviderError(
    status: Option<int>,
    code: Option<int>,
    message: string,
    messageJson: Option<ErrorPayload>,
    details: DetailsValue)

  /** The JSON body sent back, with its HTTP status. */
  datatype ErrorReply =
    | QuotaExceeded(error: string, message: string, retryAfter: Option<string>, suggestion: string)
    | RequestFailed(status: int, error: string, message: string)
  {
    function HttpStatus(): int {
      if QuotaExceeded? then 429 else status
    }
  }

  const DefaultQuotaMessage := "Quota exceeded - Rate limit reached"
  const QuotaSuggestion := "Your free tier quota has been exceeded. Please wait before retrying, or enable billing for higher limits. See https://ai.google.dev/gemini-api/docs/rate-limits"

  predicate IsQuotaError(e: ProviderError) {
    e.status == Some(429) || e.code == Some(429)
  }

  /** JavaScript truthiness of an optional number. */
  predicate TruthyNumber(n: Option<int>) {
    n.Some? && n.value != 0
  }

  predicate IsRetryInfo(d: Detail) {
    d.typeName.Some? && IsInfix("RetryInfo", d.typeName.value)
  }

  /** `details.find(d => d['@type']?.includes('RetryInfo'))`, as an index. */
  function FindRetryInfo(ds: seq<Detail>): (r: Option<nat>)
    ensures r.Some? ==> r.value < |ds| && IsRetryInfo(ds[r.value])
    ensures r.Some? ==> forall j :: 0 <= j < r.value ==> !IsRetryInfo(ds[j])
    ensures r.None? ==> forall j :: 0 <= j < |ds| ==> !IsRetryInfo(ds[j])
  {
    if |ds| == 0 then None
    else if IsRetryInfo(ds[0]) then Some(0)
    else match FindRetryInfo(ds[1..]) {
      case None => None
      case Some(k) => Some(k + 1)
    }
  }

  /** `retryDelay.replace(/s$/, '')`: at most one trailing 's' removed. */
  function DropTrailingS(t: string): (r: string)
    ensures EndsWith(t, "s") ==> r + "s" == t
    ensures !EndsWith(t, "s") ==> r == t
  {
    if |t| > 0 && t[|t| - 1] == 's' then t[..|t| - 1] else t
  }

  /**
   * What `errorDetails?.error` finds: the message text if non-empty (parsed
   * when it is JSON), else `error.details` (parsed when it is a string).
   */
  function ParsedErrorBody(e: ProviderError): Option<ApiErrorBody> {
    if e.message != "" then
      (if e.messageJson.Some? then e.messageJson.value.error else None)
    else match e.details {
      case NoValue => None
      case TextValue(_, parsed) => if parsed.Some? then parsed.value.error else None
      case ObjectValue(p) => p.error
    }
  }

  /** The `RetryInfo` entry the handler selects, if the body has one. */
  function RetryEntry(e: ProviderError): Option<Detail> {
    match ParsedErrorBody(e) {
      case None => None
      case Some(body) =>
        match body.details {
          case DetailList(ds) =>
            var k := FindRetryInfo(ds);
            if k.Some? then Some(ds[k.value]) else None
          case _ => None
        }
    }
  }

  /**
   * The body makes the `try` block throw: `details` is not an array, or the
   * selected entry's `retryDelay` is truthy but not a string.
   */
  predicate ParsingThrows(e: ProviderError) {
    match ParsedErrorBody(e) {
      case None => false
      case Some(body) =>
        body.details.DetailsNotArray?
        || (RetryEntry(e).Some? && RetryEntry(e).value.retryDelay.DelayOther?)
    }
  }

  /** The delay text that yields `retryAfter`, when there is one. */
  function RetryDelayText(e: ProviderError): Option<string> {
    match RetryEntry(e) {
      case Some(Detail(_, DelayText(t))) => if t != "" then Some(t) else None
      case _ => None
    }
  }

  /** The message a parsed error body carries, or the default. */
  function BodyMessage(e: ProviderError): string {
    match ParsedErrorBody(e) {
      case None => DefaultQuotaMessage
      case Some(body) => if body.message != "" then body.message else DefaultQuotaMessage
    }
  }

  /** The reply `handleApiError` sends for `e`, as a value. */
  function ErrorReplyFor(e: ProviderError): ErrorReply {
    if IsQuotaError(e) then
      var message := if ParsingThrows(e) && e.message != "" then e.message else BodyMessage(e);
      var retryAfter := if !ParsingThrows(e) && RetryDelayText(e).Some?
                        then Some(DropTrailingS(RetryDelayText(e).value) + " seconds") else None;
      QuotaExceeded("Quota exceeded", FirstLine(message), retryAfter, QuotaSuggestion)
    else
      RequestFailed(if TruthyNumber(e.status) then e.status.value
                    else if TruthyNumber(e.code) then e.code.value else 500,
                    "API request failed",
                    if e.message != "" then e.message else "Unknown error occurred")
  }

  /**
   * `handleApiError`: the locals `errorMessage` and `retryAfter` are
   * reassigned step by step as in the source, the `try`/`catch` around the
   * body inspection is an explicit flag.
   */
  method HandleApiError(e: ProviderError) returns (r: ErrorReply)
    ensures r == ErrorReplyFor(e)
    ensures r.QuotaExceeded? <==> IsQuotaError(e)
    ensures r.QuotaExceeded? ==> r.HttpStatus() == 429 && r.error == "Quota exceeded"
    ensures r.QuotaExceeded? ==> r.suggestion == QuotaSuggestion && |r.suggestion| > 0
    // retryAfter: null unless the first RetryInfo entry has a delay string
    ensures r.QuotaExceeded? ==> (r.retryAfter.Some? <==> !ParsingThrows(e) && RetryDelayText(e).Some?)
    ensures r.QuotaExceeded? && r.retryAfter.Some? ==>
              r.retryAfter.value == DropTrailingS(RetryDelayText(e).value) + " seconds"
    // message: first line of the parsed body's message, or of the default
    ensures r.QuotaExceeded? ==> '\n' !in r.message
    ensures r.QuotaExceeded? && !ParsingThrows(e) ==> r.message == FirstLine(BodyMessage(e))
    ensures r.QuotaExceeded? && ParsedErrorBody(e).None? ==> r.message == DefaultQuotaMessage
    ensures r.QuotaExceeded? && ParsingThrows(e) ==>
              r.message == FirstLine(if e.message != "" then e.message else BodyMessage(e))
    // any other error: status, else code, else 500; message, else a fixed text
    ensures r.RequestFailed? ==> r.error == "API request failed"
    ensures r.RequestFailed? ==>
              r.status == (if TruthyNumber(e.status) then e.status.value
                           else if TruthyNumber(e.code) then e.code.value else 500)
    ensures r.RequestFailed? ==>
              r.message == (if e.message != "" then e.message else "Unknown error occurred")
  {
    if IsQuotaError(e) {
      var errorMessage := DefaultQuotaMessage;
      var retryAfter: Option<string> := None;
      var threw := false;
      var apiError := ParsedErrorBody(e);
      if apiError.Some? {
        if apiError.value.message != "" {
          errorMessage := apiError.value.message;
        }
        match apiError.value.details {
          case NoDetails =>
          case DetailsNotArray =>
            threw := true;
          case DetailList(ds) =>
            var k := FindRetryInfo(ds);
            if k.Some? {
              match ds[k.value].retryDelay {
                case NoDelay =>
                case DelayOther =>
                  threw := true;
                case DelayText(t) =>
                  if t != "" {
                    retryAfter := Some(DropTrailingS(t) + " seconds");
                  }
              }
            }
        }
      }
      assert threw == ParsingThrows(e);
      assert retryAfter.Some? <==> !threw && RetryDelayText(e).Some?;
      assert retryAfter.Some? ==> retryAfter.value == DropTrailingS(RetryDelayText(e).value) + " seconds";
      assert errorMessage == BodyMessage(e);
      if threw {
        if e.message != "" {
          errorMessage := e.message;
        }
      }
      DefaultQuotaMessageIsOneLine();
      r := QuotaExceeded("Quota exceeded", FirstLine(errorMessage), retryAfter, QuotaSuggestion);
    } else {
      var statusCode := if TruthyNumber(e.status) then e.status.value
                        else if TruthyNumber(e.code) then e.code.value else 500;
      var message := if e.message != "" then e.message else "Unknown error occurred";
      r := RequestFailed(statusCode, "API request failed", message);
    }
  }

  lemma DefaultQuotaMessageIsOneLine()
    ensures FirstLine(DefaultQuotaMessage) == DefaultQuotaMessage
  {
    assert forall k :: 0 <= k < |DefaultQuotaMessage| ==> DefaultQuotaMessage[k] != '\n';
    FirstLineOfSingleLine(DefaultQuotaMessage);
  }

  /** The provider's RetryInfo delay "30s" is reported as "30 seconds". */
  lemma RetryDelayRewrite()
    ensures DropTrailingS("30s") + " seconds" == "30 seconds"
    ensures DropTrailingS("30") + " seconds" == "30 seconds"
  {
    assert "30s"[..2] == "30";
    assert !EndsWith("30", "s") by { assert "30"[1..] != "s"; }
  }
}
