# MAESTRO threat analyser — a Dafny model of its core

The MAESTRO threat analyser is a Next.js page. It walks an architecture
description through the seven layers of the MAESTRO framework. For each layer
it asks an AI flow for threats and then for mitigations, and it ends with an
executive summary. The user can press Stop at any time. The results can be
exported as a PDF report.

This project models the part of the program that has behaviour of its own:

- `errors.dfy` (module `Errors`) covers the error records: error codes and
  severities, the `MaestroError` constructor with its defaulted `shouldLog` and
  `shouldReport` flags, `fromUnknown` normalisation, and the predefined error
  builders.
- `ai_error_handler.dfy` (module `AiErrorHandler`) covers the AI error handler:
  classifying a failure message by ordered keyword groups, the retryable-code
  predicate, the per-code configuration table, and `handleAIFlowError`.
- `retry.dfy` (module `Retry`) covers the bounded retry loop `withRetry`. The
  operation is a script of outcomes, one per attempt number. The jitter is an
  input, and the pauses are recorded rather than taken. The module also covers
  the configuration merge of `createRetryableOperation`.
- `analysis.dfy` (module `Analysis`) covers the page's run, `handleAnalyze`.
  - The layer records and the update by id are modelled, along with
    `INITIAL_LAYERS`, `handleStop`, the per-layer loop with its cancellation
    checks and catch block, and the summary gating.
  - The run is a pure function of an `Environment`. For every awaited call,
    the environment says what the call returned or threw, and whether Stop was
    pressed while the call was in flight.
  - Next to the run there is an independent reference description: which
    record each layer ends with, which layers are reached, and the
    `finalLayers` snapshot. The `Run*` lemmas prove that the run agrees with
    this description on every environment.
- `report.dfy` (module `Report`) covers the text-level parts of the PDF export:
  the summary fallback, the Markdown-stripping regular expression, the section
  shown for each layer, and the page-break rule of the line loop.
- `diagram.dfy` (module `Diagram`) covers the diagram flow's post-processing:
  it removes code fences, trims the result, and wraps errors in a fixed prefix.
- `input_form.dfy` (module `InputForm`) covers the sidebar form: the
  description length rule, the preset lookup, and the initial values.
- `text.dfy` (module `Text`) holds the JavaScript string operations these
  modules rely on:
  - `includes`;
  - `trim`, with JavaScript's whitespace set;
  - `toLowerCase`;
  - UTF-16 length;
  - number-to-string conversion.
- `wrappers.dfy` holds `Option` and `Result`.

Time (`new Date()`), `Math.random` and the AI services are inputs of the
functions that use them. `console` output is not modelled.

## Model

| member | source | states |
|---|---|---|
| `Text.Trim` | src/ai/flows/generate-architecture-diagram.ts:65 | `trim` removes only leading and trailing whitespace: the result is a slice of the input with no whitespace at either end and only whitespace outside it |
| `Text.TrimIdempotent` | src/ai/flows/generate-architecture-diagram.ts:65 | trimming twice is trimming once |
| `Text.LowerIgnoresAsciiCase` | src/lib/ai-error-handler.ts:35 | lower-casing an upper-cased message gives the lower-cased message |
| `Text.LowerAscii` | src/lib/ai-error-handler.ts:35 | on ASCII text each capital letter becomes its small letter and every other character is kept, position by position |
| `Text.Utf16Length` | src/components/sidebar-input-form.tsx:34-39 | the length the schema checks lies between the number of code points and twice it, and equals the code-point count exactly when no character is outside the Basic Multilingual Plane |
| `Text.NatToStringRoundTrip` | src/lib/errors.ts:117-119 | the decimal rendering of a number interpolated into a message (below 10^21) reads back as that number |
| `Text.IntToString` | src/lib/errors.ts:117-119 | an integer renders as its magnitude's digits, with a leading `-` exactly when it is negative |
| `Text.Contains` | src/lib/ai-error-handler.ts:38 | `includes`: a key occurs only in a text at least as long as it |
| `Text.ContainsAt` | src/lib/ai-error-handler.ts:38 | a key that occurs at some index is found by `includes` |
| `Text.ContainsWitness` | src/lib/ai-error-handler.ts:38 | conversely, a key found by `includes` occurs at some index, so with `Text.ContainsAt` inclusion means exactly "occurs at an index" |
| `Text.ToLowerCase` | src/lib/ai-error-handler.ts:35 | each code point lowers to one or two code points |
| `Text.LowerCaseShape` | src/lib/ai-error-handler.ts:35 | no ASCII capital is left after lower-casing, and the length is kept unless the text holds U+0130 |
| `Errors.NewMaestroError` | src/lib/errors.ts:62-71 | the name is "MaestroError", the message and every supplied field are kept, `shouldLog` defaults to true, and `shouldReport` defaults to "severity is high or critical"; a flag that was supplied is kept |
| `Errors.RebuildKeepsData` | src/lib/errors.ts:65-70 | rebuilding an error from its own data changes nothing but the timestamp, because flags that are already set are never re-defaulted |
| `Errors.FromUnknown` | src/lib/errors.ts:73-97 | a MaestroError is returned as it is; another Error becomes UNKNOWN/MEDIUM with its message and its stack as details; any other value becomes UNKNOWN/MEDIUM with the fixed message and `String(value)` as details; both new errors are named "MaestroError", carry their message in the data too, and are logged and not reported, so `Errors.RebuildKeepsData` applies to them |
| `Errors.FromUnknownIdempotent` | src/lib/errors.ts:74-76 | normalising a normalised error returns it unchanged, whatever context is passed |
| `Errors.ServiceUnavailableError` | src/lib/errors.ts:102-111 | the error names the provider, is of high severity and is therefore reported by default, and offers Try Again then Refresh Page |
| `Errors.WaitPhrase` | src/lib/errors.ts:117 | "n seconds" for a truthy wait n, "a moment" otherwise |
| `Errors.RetryLabel` | src/lib/errors.ts:119 | every label starts with "Retry "; "Retry in ns" for a truthy wait n, "Retry Later" otherwise |
| `Errors.RateLimitError` | src/lib/errors.ts:113-121 | a medium-severity rate-limit error, logged and not reported, whose text and retry label depend on the wait |
| `Errors.RateLimitMentionsSeconds` | src/lib/errors.ts:117-119 | the user message contains "n seconds" and the action reads "Retry in ns" exactly when n is truthy; otherwise the message contains "a moment" and the action reads "Retry Later" |
| `Errors.InvalidInputError` | src/lib/errors.ts:123-131 | the error names the field in both messages and is of low severity, so it is not reported |
| `Errors.PdfReason` | src/lib/errors.ts:136 | the reason is shown as given unless it is absent or empty, in which case "unknown error" is shown |
| `Errors.PdfGenerationError` | src/lib/errors.ts:133-143 | the message is "PDF generation failed: " followed by the shown reason; the technical details keep the reason exactly as supplied |
| `Errors.NetworkFailureError` | src/lib/errors.ts:145-154 | a medium-severity network error that is logged and not reported |
| `AiErrorHandler.Classify` | src/lib/ai-error-handler.ts:34-69 | for each code, the condition under which it is chosen: the first keyword group, in the fixed order, that occurs in the lower-cased message decides; auth keywords give AI_SERVICE_UNAVAILABLE; no keyword gives UNKNOWN_ERROR; the range is exactly six codes |
| `AiErrorHandler.ClassifyIgnoresCase` | src/lib/ai-error-handler.ts:35 | the code is the same for a message, its upper-cased form and its lower-cased form |
| `AiErrorHandler.RateLimitWins` | src/lib/ai-error-handler.ts:38-40 | a message mentioning "quota" or "rate limit" is a rate-limit error, whatever other keywords it contains |
| `AiErrorHandler.ShouldRetry` | src/lib/ai-error-handler.ts:71-79 | true exactly for AI_TIMEOUT, NETWORK_ERROR and AI_SERVICE_UNAVAILABLE |
| `AiErrorHandler.GetErrorConfig` | src/lib/ai-error-handler.ts:100-159 | severity is HIGH exactly for AI_SERVICE_UNAVAILABLE and MEDIUM for every other code; every configuration lists at least one action and its first action is a retry |
| `AiErrorHandler.CreateAiError` | src/lib/ai-error-handler.ts:81-98 | the error takes its severity, user message and actions from the code's configuration, and is reported by default exactly for outages |
| `AiErrorHandler.FlowContext` | src/lib/ai-error-handler.ts:9 | the flow context has `flowType` plus every caller key, and a caller key wins over `flowType` |
| `AiErrorHandler.HandleAiFlowError` | src/lib/ai-error-handler.ts:8-32 | a MaestroError keeps its data, with its context overlaid by the flow context; an Error gets the code its message classifies to, keeps its message and has its stack as details; any other value becomes UNKNOWN_ERROR with the fixed message and `String(value)` as details |
| `AiErrorHandler.HandleTwice` | src/lib/ai-error-handler.ts:12-17 | handling an already handled error again in the same flow reproduces it, up to the timestamp |
| `AiErrorHandler.ClassificationReproducible` | src/lib/ai-error-handler.ts:20-23 | reclassifying a handled Error from the message it keeps gives the code it carries |
| `AiErrorHandler.HandledErrorRetry` | src/lib/ai-error-handler.ts:71-79 | a handled Error is retryable exactly when its message classifies as an outage, a timeout or a network failure, and never when it mentions a rate limit |
| `Retry.BackoffDelay` | src/lib/retry-utils.ts:43-46 | the pause is the exponential delay capped at `maxDelay`: it is at most both, and equal to one of them |
| `Retry.BackoffNonDecreasing` | src/lib/retry-utils.ts:43-46 | with a multiplier of at least one, successive pauses never shrink |
| `Retry.DefaultBackoff` | src/lib/retry-utils.ts:12-17 | the default policy pauses 1000 ms, then 2000 ms, and never more than 10000 ms |
| `Retry.Attempts` | src/lib/retry-utils.ts:26-58 | from attempt k: with no attempt left the previous error is thrown; otherwise there are between 1 and maxAttempts - k + 1 calls; every attempt but the last failed and was accepted for retry; the outcome is the last attempt's; the predicate is consulted after every failure except the final one |
| `Retry.WithRetry` | src/lib/retry-utils.ts:19-59 | at most maxAttempts calls, and none (throwing `undefined`) when maxAttempts is at most 0; a first success returns after one call with no pause; every attempt but the last failed and was accepted for retry; a run that throws with attempts left stopped because the predicate rejected the error; the value thrown is the last executed attempt's, unmodified; there are calls - 1 pauses, each the capped backoff plus that attempt's jitter; the predicate is consulted after every failed attempt except the final one, and never after it |
| `Retry.SingleAttemptFailure` | src/lib/retry-utils.ts:33-35 | with one attempt, a failure is rethrown after one call and no predicate call |
| `Retry.RejectedFirstError` | src/lib/retry-utils.ts:38-40 | a predicate that rejects the first error stops the loop after one call and one predicate call |
| `Retry.AlwaysFailing` | src/lib/retry-utils.ts:26-58 | an operation that always fails, under a predicate that always accepts, is called exactly maxAttempts times and the final error is thrown |
| `Retry.MergeConfig` | src/lib/retry-utils.ts:66 | each supplied field is used and every absent field takes its default |
| `Retry.RunRetryableOperation` | src/lib/retry-utils.ts:61-69 | under the merged configuration: without a configured bound there are at most 3 calls; without a predicate, a run that throws used every attempt |
| `Analysis.MaestroLayersDistinct` | src/data/maestro.ts:1-37 | the catalogue has seven layers with pairwise distinct ids |
| `Analysis.CaughtMessage` | src/app/page.tsx:133 | an Error's message, or "An unknown error occurred." for any other thrown value |
| `Analysis.InitialLayers` | src/app/page.tsx:27-32 | one record per catalogue layer, in order, with the layer's fields, pending, and with no threat and no mitigation |
| `Analysis.UpdateLayerStatus` | src/app/page.tsx:64-68 | the length is kept; the entries with the id get the new status and keep every other field; every other entry is untouched |
| `Analysis.SetThreat` | src/app/page.tsx:113-115 | only the entries with the id change, and only in their threat |
| `Analysis.SetMitigation` | src/app/page.tsx:121-124 | only the entries with the id change, and only in their mitigation, which is set together with the complete status |
| `Analysis.StatusAt` | src/app/page.tsx:64-68 | with distinct ids, updating by the id of layer i changes exactly entry i |
| `Analysis.UpdateLayerStatusTwice` | src/app/page.tsx:64-68 | setting a status twice is setting the later one once |
| `Analysis.HandleStop` | src/app/page.tsx:70-73 | raises the cancellation flag and appends the stop line; layers, summary, requests and diagram are unchanged |
| `Analysis.AddLog` | src/app/page.tsx:60-62 | definition only; its meaning is stated by `Analysis.AddLogAppends` |
| `Analysis.AddLogAppends` | src/app/page.tsx:60-62 | logging keeps every earlier line in place, puts the new line last, and changes nothing else on the page |
| `Analysis.StartRun` | src/app/page.tsx:75-84 | every layer is reset to pending with no results; the log holds exactly the starting line; the flag and the summary are cleared; the diagram is kept |
| `Analysis.Catch` | src/app/page.tsx:130-137 | when cancelled, nothing changes and the status is left as it was; otherwise the error message (or the fixed text for a non-Error) is logged and the layer is marked failed |
| `Analysis.AfterMitigation` | src/app/page.tsx:118-129 | only log lines other than the closing one are added; the flag and requests are kept; the snapshot is retaken exactly when the mitigation arrived |
| `Analysis.AfterThreats` | src/app/page.tsx:105-129 | the flag ends raised exactly when it already was, or the threat call succeeded and Stop was pressed during the mitigation call; the snapshot is retaken only when both calls succeeded with the flag clear |
| `Analysis.LayerStep` | src/app/page.tsx:93-129 | each iteration adds log lines and never the closing one; the flag ends raised exactly when it was, or Stop was pressed during one of this layer's awaits |
| `Analysis.StepLayers` | src/app/page.tsx:93-129 | an iteration entered with the flag clear changes only its own layer, to the reference record for its replies; the snapshot is retaken exactly when that record is complete |
| `Analysis.StepRequests` | src/app/page.tsx:99-104 | an iteration issues its layer's threat request exactly when the flag is clear at its start, and never a summary request |
| `Analysis.Loop` | src/app/page.tsx:88-92 | the loop only adds log lines other than the closing one, and keeps the summary, diagram, architecture and number of layers |
| `Analysis.LoopLayers` | src/app/page.tsx:88-138 | from index i, the loop ends with the reference layers; the flag ends raised exactly when some layer saw Stop; the snapshot ends as the reference snapshot |
| `Analysis.LoopRequests` | src/app/page.tsx:88-104 | the loop issues no summary request, and issues the threat requests of exactly the layers reached, in catalogue order |
| `Analysis.SnapshotComplete` | src/app/page.tsx:121-127 | the snapshot holds a completed layer exactly when some earlier layer completed |
| `Analysis.AnyComplete` | src/app/page.tsx:140 | `.some(l => l.status === 'complete')`: the front-to-back scan is true exactly when some layer is complete |
| `Analysis.FinalSnapshotComplete` | src/app/page.tsx:140 | at the end of the loop, the snapshot holds a completed layer exactly when the run completed one |
| `Analysis.Finish` | src/app/page.tsx:140-155 | the summary is requested, with the snapshot, exactly when the flag is clear and the snapshot has a completed layer; a failure only logs; the closing line is logged last, and exactly when the flag is clear at the end |
| `Analysis.FinishClosingLog` | src/app/page.tsx:153-155 | after the final step, the closing line is in the log exactly when the flag is clear |
| `Analysis.Analyze` | src/app/page.tsx:75-157 | a run ends with one record per catalogue layer, records the architecture analysed, and keeps the diagram |
| `Analysis.HandleAnalyze` | src/app/page.tsx:75-88 | the page's run over the MAESTRO catalogue ends with seven records, records the architecture and keeps the diagram |
| `Analysis.RunLoopLayers` | src/app/page.tsx:86-138 | the loop of a run ends with the reference layers, with the flag raised exactly when some layer saw Stop, and with a snapshot that has a completed layer exactly when the run completed one |
| `Analysis.RunLoopRequests` | src/app/page.tsx:88-104 | the loop of a run issues the threat requests of exactly the layers up to the first that saw Stop, and no summary request |
| `Analysis.RunLoopPage` | src/app/page.tsx:76-92 | the loop of a run logs no closing line, leaves the summary cleared, and keeps the diagram and the architecture |
| `Analysis.RunLayers` | src/app/page.tsx:88-138 | each layer ends with its reference record: settled by its own replies when reached, pending otherwise; the diagram is kept |
| `Analysis.RunSummary` | src/app/page.tsx:140-150 | the summary is requested exactly when no layer saw Stop and some layer completed, and is shown exactly when that request succeeded; a failure leaves it empty |
| `Analysis.RunClosingLog` | src/app/page.tsx:153-155 | "Full analysis complete." is logged exactly when Stop was never pressed during the run |
| `Analysis.RunThreatRequests` | src/app/page.tsx:88-104 | layers are entered in catalogue order, up to and including the first that saw Stop |
| `Analysis.CompleteHasResults` | src/app/page.tsx:113-127 | a layer that ends complete has both a threat and a mitigation |
| `Analysis.FailuresAreIsolated` | src/app/page.tsx:130-137 | without Stop, each layer ends complete when both of its calls succeed and failed otherwise, whatever happened to the other layers |
| `Analysis.StopDuringThreats` | src/app/page.tsx:107-115 | Stop during a successful threat call marks that layer failed without its threat, leaves every later layer pending, and yields no summary |
| `Report.SummaryToUse` | src/app/page.tsx:277 | the run's summary when it is present and non-empty, the methodology text otherwise; never empty |
| `Report.MarkerAt` | src/app/page.tsx:278 | a match is 2, 3 or 4 characters long and starts with `#` or `*`; it is made only of `#`, `*` and whitespace |
| `Report.StripMarkdown` | src/app/page.tsx:278 | stripping never lengthens the text |
| `Report.StripKeepsContent` | src/app/page.tsx:278 | every character other than `#`, `*` and whitespace, backticks included, occurs as often after stripping as before |
| `Report.StripWithoutMarkers` | src/app/page.tsx:278 | text without `#` or `*` is left as it is |
| `Report.StripKeepsUnmarked` | src/app/page.tsx:278 | text with no whitespace and no two asterisks in a row is left as it is, so a `#` not followed by whitespace and a lone `*` are kept |
| `Report.StripPlainPrefix` | src/app/page.tsx:278 | text before the first `#` or `*` is printed unchanged, and what follows is stripped on its own |
| `Report.StripDropsMarker` | src/app/page.tsx:278 | each alternative (`#`, `##` or `###` followed by one whitespace character, and `**`) is removed where it starts the text |
| `Report.StripNotIdempotent` | src/app/page.tsx:278 | one pass is not a fixpoint: "*# *" strips to "**", which strips to "" |
| `Report.LayerSection` | src/app/page.tsx:295-316 | pending and analysing layers get the pending note; failed layers get the error note; findings are shown exactly for complete layers with a non-empty threat and a mitigation, with the threat stripped and the mitigation fields verbatim |
| `Report.RunSections` | src/app/page.tsx:295-316 | after a run, a complete layer shows findings unless its threat text came back empty, and its section is blank for no other reason |
| `Report.PlaceLines` | src/app/page.tsx:200-208 | one y position (baseline) per line; for every line no taller than the usable page height, the position plus its height stays above the bottom margin; no line is placed above the top margin |
| `Diagram.StripFences` | src/ai/flows/generate-architecture-diagram.ts:65 | removing fences never lengthens the code |
| `Diagram.ClosedByFence` | src/ai/flows/generate-architecture-diagram.ts:65 | text without a backtick followed by a closing fence loses only the fence |
| `Diagram.FencedBlock` | src/ai/flows/generate-architecture-diagram.ts:65 | a reply shaped as an opening Mermaid fence, code without a backtick and a closing fence gives back exactly the code |
| `Diagram.FencedBlockCleans` | src/ai/flows/generate-architecture-diagram.ts:65 | the flow returns the code of such a block, trimmed |
| `Diagram.CleanMermaid` | src/ai/flows/generate-architecture-diagram.ts:65 | the cleaned code has no leading or trailing whitespace |
| `Diagram.Describe` | src/ai/flows/generate-architecture-diagram.ts:72 | an Error's message, or `String(e)` for any other thrown value |
| `Diagram.GenerateDiagram` | src/ai/flows/generate-architecture-diagram.ts:57-76 | a missing or empty code fails with the prefixed "no code" message; every thrown value fails with the prefix followed by its message or its `String` form; otherwise the cleaned code is returned; every failure starts with the prefix |
| `Diagram.StripWithoutBackticks` | src/ai/flows/generate-architecture-diagram.ts:65 | code without a backtick is only trimmed |
| `Diagram.StripLeavesWhitespace` | src/ai/flows/generate-architecture-diagram.ts:65 | code made only of fences and whitespace leaves only whitespace |
| `Diagram.OnlyFencesGiveEmptyCode` | src/ai/flows/generate-architecture-diagram.ts:61-69 | non-empty code made only of fences and whitespace succeeds with empty code, because emptiness is checked only before cleaning |
| `Diagram.StripRemovesFences` | src/ai/flows/generate-architecture-diagram.ts:65 | no three backticks in a row survive the scan |
| `Diagram.CleanHasNoFence` | src/ai/flows/generate-architecture-diagram.ts:65 | the returned code contains no fence |
| `InputForm.Issues` | src/components/sidebar-input-form.tsx:31-41 | at most one issue: the too-short message exactly when the length is below 50, the too-long message exactly when it is above 5000 |
| `InputForm.Validate` | src/components/sidebar-input-form.tsx:31-41 | accepted exactly when the length is between 50 and 5000 inclusive, whether or not a preset is given; accepted values are unchanged; a rejection carries exactly one issue |
| `InputForm.Submit` | src/components/sidebar-input-form.tsx:72-74 | the analysis receives the description exactly when the values validate |
| `InputForm.FindUseCase` | src/components/sidebar-input-form.tsx:77 | the index of the first preset with the value, or none exactly when no preset has it |
| `InputForm.HandlePresetChange` | src/components/sidebar-input-form.tsx:76-82 | a known value sets the description and the preset from the first matching entry; an unknown value changes nothing |
| `InputForm.DefaultValues` | src/components/sidebar-input-form.tsx:60-63 | the initial description is the first use case's, and the initial preset is a value whose lookup finds the first use case |
| `InputForm.DefaultIsFirstPreset` | src/components/sidebar-input-form.tsx:60-63 | the initial values are what selecting the first preset gives |
| `InputForm.PresetChangeIdempotent` | src/components/sidebar-input-form.tsx:76-82 | selecting the same preset twice is selecting it once |

## Left out

- The AI flows are left out: the threat, mitigation and summary prompts, provider setup, and the development entry point. Only their results appear, as replies scripted by the `Environment`.
- The server-action wrappers in `src/app/actions.ts` are left out. The values the environment throws stand for whatever those wrappers rethrow.
- `handleGenerateDiagram` and `handleDownloadPdf` are left out as page handlers. Their text-level logic is modelled in `Diagram` and `Report`. The jsPDF calls, fonts, SVG rasterisation and the image placement are left out.
- React rendering and UI-only state are left out: `isAnalyzing`, `isDownloading`, `buttonText`, log auto-scroll, and the JSX.
- React state updates are applied at once. The `finalLayers` capture inside the `setLayers` updater is taken as the layers right after the layer completes.
- `console.log` and `console.error` output is not modelled.
- `Analysis.LayerStep`: Stop is a flag per awaited call. Several presses during one call log the stop line once in the model, but once per press in the program.
- `Analysis.Analyze`: the run always uses `StartRun`'s reset page. A second run started while one is in flight interleaves with it in the program; the model does not cover this.
- The ids, names and descriptions of the use-case catalogue are left out. The catalogue is a parameter, and `InputForm.DefaultIsFirstPreset` needs it non-empty, as the program's constant is.
- `Text.LowerIgnoresAsciiCase`: lower-casing maps ASCII letters, plus the two non-ASCII characters whose lower case contains ASCII letters. Every other non-ASCII character is left as it is. This keeps matches of the all-ASCII keywords exact, but it is not full Unicode case mapping.
- `Retry.WithRetry`: delays, base delay and multiplier are natural numbers and pauses are reals. JavaScript's floating-point numbers, negative or fractional settings, and `Math.round` in the log line are not modelled.
- `Report.PlaceLines`: line heights and positions are exact reals. Floating-point rounding in `textHeight * 1.15` is not modelled.
- `Errors.RateLimitError`: the wait is an integer. Fractional and NaN values of `retryAfter` are not modelled. A wait of magnitude 10^21 or more is rendered in exponent form by JavaScript ("1e+21"), while `Text.IntToString` always writes all the digits.
- `Retry.MergeConfig`: an absent field and a field passed explicitly as `undefined` are both `None`, and both take the default. In JavaScript an explicit `undefined` overrides the default. For `maxAttempts` that gives no call at all and a thrown `undefined`.
- `Text.Utf16Length`: a Dafny `char` is a Unicode scalar value, so strings holding lone surrogates, which JavaScript allows, are not modelled.
- Log lines are a datatype. Their texts are recorded beside the constructors, and the model does not build the strings.
- Context records of errors hold `ContextValue`s, which stand for arbitrary JavaScript values. The optional callback of a recovery action is not modelled.
- Timestamps are a `now` parameter.
