/**
 * The error records of the analyser: error codes and severities, the
 * `MaestroError` constructor with its defaulted flags, normalisation of an
 * arbitrary thrown value (`fromUnknown`) and the predefined error builders.
 */
module Errors {
  import opened Wrappers
  import opened Text

  datatype ErrorCode =
    // AI service errors
    | AiServiceUnavailable | AiRateLimitExceeded | AiInvalidResponse | AiTimeout
    // analysis errors
    | AnalysisInvalidInput | AnalysisInterrupted | LayerProcessingFailed
    // PDF generation errors
    | PdfGenerationFailed | PdfMemoryExceeded
    // network errors
    | NetworkError | TimeoutError
    // validation errors
    | ValidationError
    | UnknownError

  datatype ErrorSeverity = Low | Medium | High | Critical

  datatype RecoveryKind = Retry | Refresh | Fallback | Redirect | Manual

  /** A suggested recovery action; the optional UI callback is not modelled. */
  datatype RecoveryAction = RecoveryAction(kind: RecoveryKind, caption: string)

  /** A value stored in an error's free-form context record. */
  datatype ContextValue = StringValue(s: string) | BoolValue(b: bool) | OtherValue(repr: string)

  type Context = map<string, ContextValue>

  /** The object a caller hands to the `MaestroError` constructor: every field
      of the error data except the timestamp, the two flags being optional. */
  datatype ErrorInit = ErrorInit(
    code: ErrorCode,
    severity: ErrorSeverity,
    message: string,
    userMessage: string,
    technicalDetails: Option<string>,
    context: Option<Context>,
    recoveryActions: Option<seq<RecoveryAction>>,
    shouldLog: Option<bool>,
    shouldReport: Option<bool>)

  /** The data an error carries once constructed. */
  datatype ErrorData = ErrorData(
    code: ErrorCode,
    severity: ErrorSeverity,
    message: string,
    userMessage: string,
    technicalDetails: Option<string>,
    timestamp: int,
    context: Option<Context>,
    recoveryActions: Option<seq<RecoveryAction>>,
    shouldLog: bool,
    shouldReport: bool)

  /** A `MaestroError`: a JavaScript `Error` with `name`, `message` and `data`. */
  datatype MaestroError = MaestroError(name: string, message: string, data: ErrorData)

  /** A value caught by a `catch` clause. `NonError` is anything that is not an
      `Error` instance, represented by its `String(value)` rendering. */
  datatype Thrown =
    | Maestro(err: MaestroError)
    | Plain(message: string, stack: Option<string>)
    | NonError(text: string)

  /** The `message` property of a thrown `Error`, if it is one. */
  function ErrorMessage(t: Thrown): Option<string> {
    match t
    case Maestro(e) => Some(e.message)
    case Plain(m, _) => Some(m)
    case NonError(_) => None
  }

  /** The severities for which an error is reported by default. */
  predicate ReportedByDefault(s: ErrorSeverity) {
    s == High || s == Critical
  }

  /** `new MaestroError(init)` at time `now`: the fields supplied are copied,
      `shouldLog` defaults to true and `shouldReport` to whether the severity
      is high or critical; an explicitly supplied flag is kept. */
  function NewMaestroError(init: ErrorInit, now: int): (e: MaestroError)
    ensures e.name == "MaestroError" && e.message == init.message
    ensures e.data.message == init.message && e.data.timestamp == now
    ensures e.data.code == init.code && e.data.severity == init.severity
    ensures e.data.userMessage == init.userMessage
    ensures e.data.technicalDetails == init.technicalDetails
    ensures e.data.context == init.context
    ensures e.data.recoveryActions == init.recoveryActions
    ensures init.shouldLog == None ==> e.data.shouldLog
    ensures init.shouldLog.Some? ==> e.data.shouldLog == init.shouldLog.value
    ensures init.shouldReport == None ==> (e.data.shouldReport <==> ReportedByDefault(init.severity))
    ensures init.shouldReport.Some? ==> e.data.shouldReport == init.shouldReport.value
  {
    MaestroError("MaestroError", init.message, ErrorData(
      init.code, init.severity, init.message, init.userMessage, init.technicalDetails,
      now, init.context, init.recoveryActions,
      init.shouldLog.GetOr(true),
      init.shouldReport.GetOr(ReportedByDefault(init.severity))))
  }

  /** The constructor argument `{...data}` rebuilt from existing error data. */
  function InitOf(d: ErrorData): ErrorInit {
    ErrorInit(d.code, d.severity, d.message, d.userMessage, d.technicalDetails,
              d.context, d.recoveryActions, Some(d.shouldLog), Some(d.shouldReport))
  }

  /** Rebuilding an error from its own data reproduces it, up to the fresh
      timestamp: the flags it already has are never re-defaulted. */
  lemma RebuildKeepsData(e: MaestroError, now: int)
    requires e.name == "MaestroError" && e.message == e.data.message
    ensures NewMaestroError(InitOf(e.data), now) == e.(data := e.data.(timestamp := now))
  {
  }

  /** `MaestroError.fromUnknown(error, context)`: a `MaestroError` is returned
      as it is; any other `Error` becomes an unknown, medium-severity error
      keeping its message and stack; any other value becomes an unknown,
      medium-severity error with a fixed message and `String(value)` as
      technical details. */
  function FromUnknown(error: Thrown, context: Option<Context>, now: int): (e: MaestroError)
    ensures error.Maestro? ==> e == error.err
    ensures error.Plain? ==>
      && e.data.code == UnknownError && e.data.severity == Medium
      && e.message == error.message && e.data.message == error.message
      && e.data.technicalDetails == error.stack
      && e.data.context == context
      && e.data.userMessage == "An unexpected error occurred. Please try again."
    ensures error.NonError? ==>
      && e.data.code == UnknownError && e.data.severity == Medium
      && e.message == "Unknown error occurred" && e.data.message == "Unknown error occurred"
      && e.data.technicalDetails == Some(error.text)
      && e.data.context == context
      && e.data.userMessage == "Something went wrong. Please try again."
    ensures !error.Maestro? ==> e.data.shouldLog && !e.data.shouldReport && e.data.recoveryActions == None
    ensures !error.Maestro? ==> e.name == "MaestroError" && e.data.message == e.message
  {
    match error
    case Maestro(err) => err
    case Plain(message, stack) =>
      NewMaestroError(ErrorInit(UnknownError, Medium, message,
        "An unexpected error occurred. Please try again.", stack, context, None, None, None), now)
    case NonError(text) =>
      NewMaestroError(ErrorInit(UnknownError, Medium, "Unknown error occurred",
        "Something went wrong. Please try again.", Some(text), context, None, None, None), now)
  }

  /** Normalising a normalised error changes nothing. */
  lemma FromUnknownIdempotent(error: Thrown, context: Option<Context>, now: int, context': Option<Context>, now': int)
    ensures var e := FromUnknown(error, context, now);
            FromUnknown(Maestro(e), context', now') == e
  {
  }

  // ---------------------------------------------------------------------
  // Predefined errors

  /** `ErrorDefinitions.AI_SERVICE_UNAVAILABLE(provider)`. */
  function ServiceUnavailableError(provider: string, now: int): (e: MaestroError)
    ensures e.data.code == AiServiceUnavailable && e.data.severity == High
    ensures e.message == "AI service " + provider + " is currently unavailable"
    ensures e.data.shouldLog && e.data.shouldReport
    ensures e.data.recoveryActions == Some([RecoveryAction(Retry, "Try Again"), RecoveryAction(Refresh, "Refresh Page")])
  {
    NewMaestroError(ErrorInit(AiServiceUnavailable, High,
      "AI service " + provider + " is currently unavailable",
      "AI analysis is temporarily unavailable. Please try again in a few minutes.",
      None, None,
      Some([RecoveryAction(Retry, "Try Again"), RecoveryAction(Refresh, "Refresh Page")]),
      None, None), now)
  }

  /** JavaScript truthiness of an optional number (integers only): absent
      and zero are falsy. */
  predicate NumberTruthy(n: Option<int>) {
    n.Some? && n.value != 0
  }

  /** The wait phrase of the rate-limit message. */
  function WaitPhrase(retryAfter: Option<int>): (w: string)
    ensures NumberTruthy(retryAfter) ==> w == IntToString(retryAfter.value) + " seconds"
    ensures !NumberTruthy(retryAfter) ==> w == "a moment"
  {
    if NumberTruthy(retryAfter) then IntToString(retryAfter.value) + " seconds" else "a moment"
  }

  /** The label of the rate-limit retry action. */
  function RetryLabel(retryAfter: Option<int>): (caption: string)
    ensures StartsWith(caption, "Retry ")
    ensures NumberTruthy(retryAfter) ==> caption == "Retry in " + IntToString(retryAfter.value) + "s"
    ensures !NumberTruthy(retryAfter) ==> caption == "Retry Later"
  {
    "Retry " + (if NumberTruthy(retryAfter) then "in " + IntToString(retryAfter.value) + "s" else "Later")
  }

  /** `ErrorDefinitions.AI_RATE_LIMIT(retryAfter)`. */
  function RateLimitError(retryAfter: Option<int>, now: int): (e: MaestroError)
    ensures e.data.code == AiRateLimitExceeded && e.data.severity == Medium
    ensures e.message == "AI service rate limit exceeded"
    ensures e.data.userMessage == "Too many requests. Please wait " + WaitPhrase(retryAfter) + " before trying again."
    ensures e.data.recoveryActions == Some([RecoveryAction(Retry, RetryLabel(retryAfter))])
    ensures e.data.shouldLog && !e.data.shouldReport
  {
    NewMaestroError(ErrorInit(AiRateLimitExceeded, Medium,
      "AI service rate limit exceeded",
      "Too many requests. Please wait " + WaitPhrase(retryAfter) + " before trying again.",
      None, None,
      Some([RecoveryAction(Retry, RetryLabel(retryAfter))]),
      None, None), now)
  }

  /** The rate-limit error names the number of seconds exactly when that
      number is truthy; otherwise it asks for "a moment" and offers
      "Retry Later". */
  lemma RateLimitMentionsSeconds(retryAfter: Option<int>, now: int)
    ensures var e := RateLimitError(retryAfter, now);
      && (NumberTruthy(retryAfter) ==>
            && Contains(e.data.userMessage, IntToString(retryAfter.value) + " seconds")
            && e.data.recoveryActions.value[0].caption == "Retry in " + IntToString(retryAfter.value) + "s")
      && (!NumberTruthy(retryAfter) ==>
            && Contains(e.data.userMessage, "a moment")
            && e.data.recoveryActions.value[0].caption == "Retry Later")
  {
    var e := RateLimitError(retryAfter, now);
    var pre := "Too many requests. Please wait ";
    var post := " before trying again.";
    assert e.data.userMessage == pre + WaitPhrase(retryAfter) + post;
    ContainsInfix(pre, WaitPhrase(retryAfter), post);
  }

  /** `ErrorDefinitions.ANALYSIS_INVALID_INPUT(field)`. */
  function InvalidInputError(field: string, now: int): (e: MaestroError)
    ensures e.data.code == AnalysisInvalidInput && e.data.severity == Low
    ensures e.message == "Invalid input for " + field
    ensures e.data.userMessage == "Please check your " + field + " and try again."
    ensures e.data.shouldLog && !e.data.shouldReport
  {
    NewMaestroError(ErrorInit(AnalysisInvalidInput, Low,
      "Invalid input for " + field,
      "Please check your " + field + " and try again.",
      None, None,
      Some([RecoveryAction(Manual, "Review Input")]),
      None, None), now)
  }

  /** The reason shown in the PDF-failure message: `reason || 'unknown error'`. */
  function PdfReason(reason: Option<string>): (r: string)
    ensures reason.Some? && reason.value != "" ==> r == reason.value
    ensures reason == None || reason == Some("") ==> r == "unknown error"
  {
    if reason.Some? && reason.value != "" then reason.value else "unknown error"
  }

  /** `ErrorDefinitions.PDF_GENERATION_FAILED(reason)`: the message names the
      reason, or "unknown error" when it is absent or empty; the technical
      details keep the reason exactly as supplied. */
  function PdfGenerationError(reason: Option<string>, now: int): (e: MaestroError)
    ensures e.data.code == PdfGenerationFailed && e.data.severity == Medium
    ensures e.message == "PDF generation failed: " + PdfReason(reason)
    ensures e.data.technicalDetails == reason
    ensures e.data.shouldLog && !e.data.shouldReport
  {
    NewMaestroError(ErrorInit(PdfGenerationFailed, Medium,
      "PDF generation failed: " + PdfReason(reason),
      "Unable to generate PDF report. The analysis data is still available.",
      reason, None,
      Some([RecoveryAction(Retry, "Try PDF Again"), RecoveryAction(Manual, "Copy Results Manually")]),
      None, None), now)
  }

  /** `ErrorDefinitions.NETWORK_ERROR()`. */
  function NetworkFailureError(now: int): (e: MaestroError)
    ensures e.data.code == NetworkError && e.data.severity == Medium
    ensures e.message == "Network connection error"
    ensures e.data.shouldLog && !e.data.shouldReport
  {
    NewMaestroError(ErrorInit(NetworkError, Medium,
      "Network connection error",
      "Connection issue detected. Please check your internet connection.",
      None, None,
      Some([RecoveryAction(Retry, "Retry"), RecoveryAction(Refresh, "Refresh Page")]),
      None, None), now)
  }
}
