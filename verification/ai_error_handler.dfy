/**
 * Error handling for calls into the AI flows: classification of a failure
 * message into an error code, the retryable-code predicate, the per-code
 * configuration table and the normalisation of any caught value into a
 * `MaestroError` carrying the flow's context.
 */
module AiErrorHandler {
  import opened Wrappers
  import opened Text
  import opened Errors

  // ---------------------------------------------------------------------
  // Classification

  const RateLimitKeywords: seq<string> := ["rate limit", "quota"]
  const UnavailableKeywords: seq<string> := ["unavailable", "503", "502"]
  const TimeoutKeywords: seq<string> := ["timeout", "timed out"]
  const AuthKeywords: seq<string> := ["unauthorized", "401", "api key"]
  const FormatKeywords: seq<string> := ["parse", "json", "format"]
  const NetworkKeywords: seq<string> := ["network", "connection", "fetch"]

  /** Every keyword the classifier looks for. */
  const AllKeywords: seq<string> :=
    RateLimitKeywords + UnavailableKeywords + TimeoutKeywords
    + AuthKeywords + FormatKeywords + NetworkKeywords

  /** The codes the classifier can produce. */
  const ClassifierRange: set<ErrorCode> :=
    {AiRateLimitExceeded, AiServiceUnavailable, AiTimeout, AiInvalidResponse, NetworkError, UnknownError}

  predicate MentionsAny(s: string, keywords: seq<string>) {
    exists i | 0 <= i < |keywords| :: Contains(s, keywords[i])
  }

  /** `classifyGenkitError`: the message is lower-cased and matched against six
      keyword groups in a fixed order; the first group with a keyword in the
      message decides the code. Authentication failures have no code of their
      own and are reported as service unavailability. */
  function Classify(message: string): (code: ErrorCode)
    ensures code in ClassifierRange
    ensures var m := ToLowerCase(message);
      && (code == AiRateLimitExceeded <==> MentionsAny(m, RateLimitKeywords))
      && (code == AiServiceUnavailable <==>
            !MentionsAny(m, RateLimitKeywords)
            && (MentionsAny(m, UnavailableKeywords)
                || (!MentionsAny(m, TimeoutKeywords) && MentionsAny(m, AuthKeywords))))
      && (code == AiTimeout <==>
            !MentionsAny(m, RateLimitKeywords) && !MentionsAny(m, UnavailableKeywords)
            && MentionsAny(m, TimeoutKeywords))
      && (code == AiInvalidResponse <==>
            !MentionsAny(m, RateLimitKeywords + UnavailableKeywords + TimeoutKeywords + AuthKeywords)
            && MentionsAny(m, FormatKeywords))
      && (code == NetworkError <==>
            !MentionsAny(m, RateLimitKeywords + UnavailableKeywords + TimeoutKeywords + AuthKeywords + FormatKeywords)
            && MentionsAny(m, NetworkKeywords))
      && (code == UnknownError <==> !MentionsAny(m, AllKeywords))
  {
    var m := ToLowerCase(message);
    MentionsTwo(m, "rate limit", "quota");
    MentionsThree(m, "unavailable", "503", "502");
    MentionsTwo(m, "timeout", "timed out");
    MentionsThree(m, "unauthorized", "401", "api key");
    MentionsThree(m, "parse", "json", "format");
    MentionsThree(m, "network", "connection", "fetch");
    MentionsAnyConcat(m, RateLimitKeywords, UnavailableKeywords);
    MentionsAnyConcat(m, RateLimitKeywords + UnavailableKeywords, TimeoutKeywords);
    MentionsAnyConcat(m, RateLimitKeywords + UnavailableKeywords + TimeoutKeywords, AuthKeywords);
    MentionsAnyConcat(m, RateLimitKeywords + UnavailableKeywords + TimeoutKeywords + AuthKeywords, FormatKeywords);
    MentionsAnyConcat(m, RateLimitKeywords + UnavailableKeywords + TimeoutKeywords + AuthKeywords + FormatKeywords, NetworkKeywords);
    if Contains(m, "rate limit") || Contains(m, "quota") then AiRateLimitExceeded
    else if Contains(m, "unavailable") || Contains(m, "503") || Contains(m, "502") then AiServiceUnavailable
    else if Contains(m, "timeout") || Contains(m, "timed out") then AiTimeout
    else if Contains(m, "unauthorized") || Contains(m, "401") || Contains(m, "api key") then AiServiceUnavailable
    else if Contains(m, "parse") || Contains(m, "json") || Contains(m, "format") then AiInvalidResponse
    else if Contains(m, "network") || Contains(m, "connection") || Contains(m, "fetch") then NetworkError
    else UnknownError
  }

  lemma MentionsAnyConcat(s: string, a: seq<string>, b: seq<string>)
    ensures MentionsAny(s, a + b) <==> MentionsAny(s, a) || MentionsAny(s, b)
  {
    if MentionsAny(s, a + b) {
      var i :| 0 <= i < |a + b| && Contains(s, (a + b)[i]);
      if i >= |a| {
        assert b[i - |a|] == (a + b)[i];
      }
    }
    if MentionsAny(s, a) {
      var i :| 0 <= i < |a| && Contains(s, a[i]);
      assert (a + b)[i] == a[i];
    }
    if MentionsAny(s, b) {
      var i :| 0 <= i < |b| && Contains(s, b[i]);
      assert (a + b)[|a| + i] == b[i];
    }
  }

  lemma MentionsTwo(s: string, k0: string, k1: string)
    ensures MentionsAny(s, [k0, k1]) <==> Contains(s, k0) || Contains(s, k1)
  {
    var ks := [k0, k1];
    if Contains(s, k0) { assert Contains(s, ks[0]); }
    if Contains(s, k1) { assert Contains(s, ks[1]); }
  }

  lemma MentionsThree(s: string, k0: string, k1: string, k2: string)
    ensures MentionsAny(s, [k0, k1, k2]) <==> Contains(s, k0) || Contains(s, k1) || Contains(s, k2)
  {
    var ks := [k0, k1, k2];
    if Contains(s, k0) { assert Contains(s, ks[0]); }
    if Contains(s, k1) { assert Contains(s, ks[1]); }
    if Contains(s, k2) { assert Contains(s, ks[2]); }
  }

  /** Classification does not depend on the case of ASCII letters. */
  lemma ClassifyIgnoresCase(message: string)
    ensures Classify(ToUpperAscii(message)) == Classify(message)
    ensures Classify(ToLowerCase(message)) == Classify(message)
  {
    LowerIgnoresAsciiCase(message);
    LowerIdempotent(message);
  }

  /** A rate-limit keyword wins over every other keyword in the same message:
      "quota exceeded (503)" is a rate-limit error, not an outage. */
  lemma RateLimitWins(message: string)
    requires Contains(ToLowerCase(message), "quota") || Contains(ToLowerCase(message), "rate limit")
    ensures Classify(message) == AiRateLimitExceeded
  {
    if Contains(ToLowerCase(message), "quota") {
      assert RateLimitKeywords[1] == "quota";
    } else {
      assert RateLimitKeywords[0] == "rate limit";
    }
  }

  // ---------------------------------------------------------------------
  // Retry policy and configuration table

  /** The codes the default policy retries. */
  const RetryableCodes: set<ErrorCode> := {AiTimeout, NetworkError, AiServiceUnavailable}

  /** `shouldRetry`: only timeouts, network failures and service outages are
      transient; rate limits, invalid responses, unknown errors and every
      other code (including the generic `TimeoutError`) are not retried. */
  function ShouldRetry(e: MaestroError): (retry: bool)
    ensures retry <==> e.data.code in RetryableCodes
    ensures e.data.code in {AiRateLimitExceeded, AiInvalidResponse, UnknownError, TimeoutError} ==> !retry
  {
    var retryable := [AiTimeout, NetworkError, AiServiceUnavailable];
    e.data.code in retryable
  }

  datatype ErrorConfig = ErrorConfig(
    severity: ErrorSeverity,
    userMessage: string,
    recoveryActions: seq<RecoveryAction>)

  const RateLimitedText: string := "AI service is temporarily rate limited. Please wait a moment and try again."
  const UnavailableText: string := "AI analysis service is currently unavailable. Please try again in a few minutes."
  const TimedOutText: string := "AI analysis timed out. This may be due to a complex architecture description."
  const InvalidResponseText: string := "AI service returned an invalid response. Please try again."
  const NetworkText: string := "Network connection issue detected. Please check your internet connection."
  const UnexpectedText: string := "An unexpected error occurred during AI analysis. Please try again."

  /** `getErrorConfig`: severity, user-facing text and recovery actions per
      code. Only an outage is of high severity; every configuration offers a
      retry first. */
  function GetErrorConfig(code: ErrorCode): (c: ErrorConfig)
    ensures c.severity == High <==> code == AiServiceUnavailable
    ensures c.severity == Medium <==> code != AiServiceUnavailable
    ensures |c.recoveryActions| > 0 && c.recoveryActions[0].kind == Retry
  {
    match code
    case AiRateLimitExceeded =>
      ErrorConfig(Medium, RateLimitedText, [RecoveryAction(Retry, "Retry Analysis")])
    case AiServiceUnavailable =>
      ErrorConfig(High, UnavailableText,
        [RecoveryAction(Retry, "Try Again"), RecoveryAction(Refresh, "Refresh Page")])
    case AiTimeout =>
      ErrorConfig(Medium, TimedOutText,
        [RecoveryAction(Retry, "Retry Analysis"), RecoveryAction(Manual, "Simplify Input")])
    case AiInvalidResponse =>
      ErrorConfig(Medium, InvalidResponseText, [RecoveryAction(Retry, "Retry Analysis")])
    case NetworkError =>
      ErrorConfig(Medium, NetworkText,
        [RecoveryAction(Retry, "Retry"), RecoveryAction(Refresh, "Refresh Page")])
    case _ =>
      ErrorConfig(Medium, UnexpectedText, [RecoveryAction(Retry, "Try Again")])
  }

  /** `createAIError`: an error with the code's configured severity, user
      message and recovery actions. */
  function CreateAiError(code: ErrorCode, message: string, technicalDetails: Option<string>,
                         context: Option<Context>, now: int): (e: MaestroError)
    ensures e.data.code == code && e.message == message && e.data.message == message
    ensures e.data.severity == GetErrorConfig(code).severity
    ensures e.data.userMessage == GetErrorConfig(code).userMessage
    ensures e.data.recoveryActions == Some(GetErrorConfig(code).recoveryActions)
    ensures e.data.technicalDetails == technicalDetails && e.data.context == context
    ensures e.data.shouldLog
    ensures e.data.shouldReport <==> code == AiServiceUnavailable
  {
    var config := GetErrorConfig(code);
    NewMaestroError(ErrorInit(code, config.severity, message, config.userMessage, technicalDetails,
                              context, Some(config.recoveryActions), None, None), now)
  }

  // ---------------------------------------------------------------------
  // Normalisation

  /** `{ flowType, ...context }`: the caller's keys win over `flowType`. */
  function FlowContext(flowType: string, context: Option<Context>): (r: Context)
    ensures r.Keys == {"flowType"} + context.GetOr(map[]).Keys
    ensures forall k | k in context.GetOr(map[]) :: r[k] == context.GetOr(map[])[k]
    ensures "flowType" !in context.GetOr(map[]) ==> r["flowType"] == StringValue(flowType)
  {
    map["flowType" := StringValue(flowType)] + context.GetOr(map[])
  }

  /** `handleAIFlowError`: a `MaestroError` keeps its code, severity, messages,
      details, actions and flags, its context overlaid with the flow context;
      any other `Error` is classified by its message and keeps its message,
      with the stack as technical details; any other value becomes an unknown
      error with a fixed message and `String(value)` as technical details. */
  function HandleAiFlowError(error: Thrown, flowType: string, context: Option<Context>, now: int): (e: MaestroError)
    ensures e.name == "MaestroError" && e.message == e.data.message && e.data.timestamp == now
    ensures error.Maestro? ==>
      var prior := error.err.data;
      && e.data == prior.(timestamp := now,
                        context := Some(prior.context.GetOr(map[]) + FlowContext(flowType, context)))
    ensures error.Plain? ==>
      && e.data.code == Classify(error.message)
      && e.message == error.message
      && e.data.technicalDetails == error.stack
      && e.data.context == Some(FlowContext(flowType, context))
    ensures error.NonError? ==>
      && e.data.code == UnknownError
      && e.message == "Unknown AI service error"
      && e.data.technicalDetails == Some(error.text)
      && e.data.context == Some(FlowContext(flowType, context))
    ensures !error.Maestro? ==> (e.data.shouldReport <==> e.data.code == AiServiceUnavailable)
  {
    var flowContext := FlowContext(flowType, context);
    match error
    case Maestro(err) =>
      NewMaestroError(InitOf(err.data).(context := Some(err.data.context.GetOr(map[]) + flowContext)), now)
    case Plain(message, stack) =>
      CreateAiError(Classify(message), message, stack, Some(flowContext), now)
    case NonError(text) =>
      CreateAiError(UnknownError, "Unknown AI service error", Some(text), Some(flowContext), now)
  }

  /** Handling an already handled error again in the same flow reproduces it
      (up to the timestamp): the code is never re-derived and the flow context
      is overlaid onto itself. */
  lemma HandleTwice(error: Thrown, flowType: string, context: Option<Context>, now: int, later: int)
    ensures var first := HandleAiFlowError(error, flowType, context, now);
            HandleAiFlowError(Maestro(first), flowType, context, later)
              == HandleAiFlowError(error, flowType, context, later)
  {
    var flow := FlowContext(flowType, context);
    assert flow + flow == flow;
    match error {
      case Maestro(err) =>
        var c := err.data.context.GetOr(map[]);
        assert c + flow + flow == c + flow;
      case Plain(_, _) =>
      case NonError(_) =>
    }
  }

  /** Re-deriving the code of a handled `Error` from its preserved message by
      the same substring rules gives back the code it carries. */
  lemma ClassificationReproducible(message: string, stack: Option<string>, flowType: string,
                                   context: Option<Context>, now: int)
    ensures var e := HandleAiFlowError(Plain(message, stack), flowType, context, now);
            Classify(e.message) == e.data.code
  {
  }

  /** A handled `Error` is retried by the default policy exactly when its
      message was classified as an outage, a timeout or a network failure. */
  lemma HandledErrorRetry(message: string, stack: Option<string>, flowType: string,
                          context: Option<Context>, now: int)
    ensures var e := HandleAiFlowError(Plain(message, stack), flowType, context, now);
            ShouldRetry(e) <==> Classify(message) in {AiServiceUnavailable, AiTimeout, NetworkError}
    ensures var e := HandleAiFlowError(Plain(message, stack), flowType, context, now);
            MentionsAny(ToLowerCase(message), RateLimitKeywords) ==> !ShouldRetry(e)
  {
  }
}
