# QuantumLeap client core, modelled in Dafny

QuantumLeap is a Unity client for a remote vehicle-identity service. A game
holds components that validate their inputs and build an endpoint. A static
`QuantumLeapManager` sends the request with a retry loop. The components then
decode the JSON answer into records: UDIs (unique digital identities), UDI
statistics, UDI fusions, game event logs and game studios. A static
`QuantumLeapLogger` filters and formats every log line.

This project models that core as immutable datatypes and pure functions:

- `Manager` holds the manager's configuration and lifecycle.
- `Retry` is the retrying fetch and post as written. `RetryProperties` proves
  what it does for every sequence of network outcomes.
- `IntendedRetry` is the corrected retry engine (see "## Findings") and its
  properties.
- `Component` is the base `QuantumLeapComponent`: validation, headers,
  `Initialize`, setters, `Cleanup` and the two request coroutines. The
  coroutines await the retry engine as written, as the program does.
- `Udi`, `UdiStats`, `UdiFuse`, `GameEventLog` and `GameStudio` are the records
  and their response envelopes.
- `UdiComponent`, `UdiStatsComponent`, `UdiFuseComponent`,
  `GameEventLogComponent` and `GameStudioComponent` are the feature components.
  Each has its request builders, its receive handler and its accessors.
- `Envelope` holds the three decode conventions shared by the records.
- `Logger` is the level filter and the message formatter.
- `Wrappers` (`Option`, `Result`) and `Text` (null-or-empty, ASCII case,
  number printing) are support modules.

Conventions:

- A nullable C# reference is an `Option`. `string.IsNullOrEmpty` is
  `Text.IsNullOrEmpty`, and a null interpolated into a string reads as `""`
  (`Text.OrEmpty`).
- The network is an oracle: `oracle(j)` is the outcome of a call's j-th
  attempt, one of `Success(body)`, `NonSuccessStatus(error)` or
  `Thrown(error)`.
- A call's observable events form a trace: attempts, retry waits, `OnError`
  and `OnApiResponseReceived`. A wait is an event that carries the configured
  delay.
- `JsonUtility.FromJson<T>` is a parser parameter of type
  `string -> Result<Option<T>, string>`. `Ok(None)` is a null result and
  `Err(message)` is a thrown exception.
- The static manager and logger state is passed in and returned as values.
- A request builder returns the validation message, or the `Call` (action
  tag, endpoint and payload) that the component would hand to its coroutine.
  The action tag and its pass-through to the handler are assumed (see
  "## Left out").
- A receive handler returns the newly held record and the event it raised.
- A `DateTime` is an opaque `Instant`. The wall clock is a parameter: the
  logger's stamp and the game event's timestamp are passed in already
  rendered.

## Model

| member | source | states |
|---|---|---|
| Logger.Log | Runtime/Core/QuantumLeapLogger.cs:45-70 | a message is emitted iff its level ranks at or above the current level; when emitted, the event carries the formatted message with the given level, and the console line is that text behind the Debug or the plain QuantumLeap prefix |
| Logger.LogDebug | Runtime/Core/QuantumLeapLogger.cs:25-28 | Debug level: emitted iff the current level is Debug, on the plain console log |
| Logger.LogInfo | Runtime/Core/QuantumLeapLogger.cs:30-33 | Info level: emitted iff the current level is Debug or Info |
| Logger.LogWarning | Runtime/Core/QuantumLeapLogger.cs:35-38 | Warning level: suppressed only at level Error, on the warning console |
| Logger.LogError | Runtime/Core/QuantumLeapLogger.cs:40-43 | Error level always passes the filter, goes to the error console and carries the formatted message |
| Logger.FormatMessageLayout | Runtime/Core/QuantumLeapLogger.cs:72-98 | the formatted text is the optional "[stamp] ", the optional "[Level] ", the message and the optional " Context: ctx", with one space between parts and nowhere else |
| Logger.WarningTagPresent | Runtime/Core/QuantumLeapLogger.cs:83-86 | with the level switch on, a formatted warning contains "[Warning]" |
| Manager.Initialize | Runtime/Core/QuantumLeapManager.cs:37-65 | a first call stores timeout, retries and delay unvalidated and raises OnInitialized; on an initialised manager nothing changes and nothing is raised |
| Manager.InitializeWithTimeout | Runtime/Core/QuantumLeapManager.cs:32-35 | the one-argument overload stores the timeout with 3 retries and a 1 s delay |
| Manager.InitializeDefault | Runtime/Core/QuantumLeapManager.cs:27-30 | the default overload gives timeout 30, 3 retries, 1 s delay |
| Manager.InitializeIsIdempotent | Runtime/Core/QuantumLeapManager.cs:39-47 | a second Initialize with any arguments keeps the first settings and raises nothing |
| Manager.SetRetryConfiguration | Runtime/Core/QuantumLeapManager.cs:232-255 | each field is clamped at zero on its own and non-negative values are stored verbatim; works uninitialised; touches nothing else |
| Manager.SetRetryConfigurationIsStable | Runtime/Core/QuantumLeapManager.cs:232-255 | re-applying the stored configuration changes nothing |
| Manager.Shutdown | Runtime/Core/QuantumLeapManager.cs:257-276 | clears the initialised flag, keeps the retry settings, and is a no-op when already shut down |
| Manager.ShutdownAllowsReinitialize | Runtime/Core/QuantumLeapManager.cs:257-276 | after a shutdown, Initialize stores new settings and raises OnInitialized again |
| Retry.Render | Runtime/Core/QuantumLeapManager.cs:129 | a transport reason renders as its own text (the per-attempt wrapper text is the body's) |
| Retry.RetryFrom | Runtime/Core/QuantumLeapManager.cs:72-145 | one frame of the as-written recursion; an initialised frame consumes at least one outcome (its behaviour is stated by the RetryProperties lemmas) |
| Retry.FetchDataAsync | Runtime/Core/QuantumLeapManager.cs:67-77 | an uninitialised manager throws "QuantumLeapManager must be initialized before fetching data" with no event and no attempt |
| Retry.PostDataAsync | Runtime/Core/QuantumLeapManager.cs:147-157 | an uninitialised manager throws "QuantumLeapManager must be initialized before posting data" with no event and no attempt |
| RetryProperties.AttemptAccounting | Runtime/Core/QuantumLeapManager.cs:72-145 | the trace holds exactly one attempt per oracle outcome consumed |
| RetryProperties.WaitAccounting | Runtime/Core/QuantumLeapManager.cs:105-109 | exactly one wait per attempt after the first |
| RetryProperties.WaitBeforeEachRetry | Runtime/Core/QuantumLeapManager.cs:132-136 | every attempt but the first comes directly after a retry wait |
| RetryProperties.AttemptBound | Runtime/Core/QuantumLeapManager.cs:72-145 | a call makes at most 2^(budget+1)-1 attempts, and exactly one when no retry is left |
| RetryProperties.ResultIsLastOutcome | Runtime/Core/QuantumLeapManager.cs:119-124 | the call succeeds iff its last consumed outcome was a success, and then returns that body unchanged |
| RetryProperties.NoEarlierSuccess | Runtime/Core/QuantumLeapManager.cs:119-124 | every outcome consumed before the last was a failure: no attempt follows a success |
| RetryProperties.FirstSuccessWithinBudget | Runtime/Core/QuantumLeapManager.cs:100-124 | a first success within the budget is returned after exactly that many attempts: each failure before it starts a deeper frame that reaches it, so no frame retries twice |
| RetryProperties.EventsWithinBudget | Runtime/Core/QuantumLeapManager.cs:105-109 | every attempt counter lies between the frame's counter and the budget, and every wait lasts the configured delay |
| RetryProperties.ResponseAccounting | Runtime/Core/QuantumLeapManager.cs:119-124 | OnApiResponseReceived is raised once by a successful call and never by a failed one |
| RetryProperties.LastEvent | Runtime/Core/QuantumLeapManager.cs:113-124 | a successful call ends with the response notification for its URL and body; a failed one ends with an OnError |
| RetryProperties.PersistentStatusFailure | Runtime/Core/QuantumLeapManager.cs:100-117 | under persistent non-success statuses the call fails after 2^(budget+1)-1 attempts and raises OnError 2^(budget+1) times |
| RetryProperties.PersistentTransportFailure | Runtime/Core/QuantumLeapManager.cs:127-144 | under persistent exceptions the call makes budget+1 attempts, raises OnError once and rethrows the last exception |
| RetryProperties.StatusRetriesAmplify | Runtime/Core/QuantumLeapManager.cs:100-144 | with one retry and every attempt a 503, a fetch makes 3 attempts and raises OnError 4 times |
| RetryProperties.SuccessAfterReportedErrors | Runtime/Core/QuantumLeapManager.cs:105-117 | with one retry and outcomes 503, 503, 200 the fetch returns the body after already raising OnError twice |
| RetryProperties.CallContract | Runtime/Core/QuantumLeapManager.cs:67-145 | the outermost call: the guard, the result as the last outcome, no earlier success, attempt, wait and response counts, a wait before every retry |
| IntendedRetry.IntendedFrom | Runtime/Core/QuantumLeapManager.cs:72-145 | the corrected frame, with at most one deeper frame; an initialised frame consumes at least one outcome |
| IntendedRetry.IntendedFetch | Runtime/Core/QuantumLeapManager.cs:67-70 | the corrected fetch: the uninitialised guard throws with no event; otherwise at least one attempt |
| IntendedRetry.IntendedPost | Runtime/Core/QuantumLeapManager.cs:147-150 | the corrected post, with the same guard and progress |
| IntendedRetry.IntendedOutcome | Runtime/Core/QuantumLeapManager.cs:119-124 | the corrected call succeeds iff its last outcome did, returns that body, and consumed no earlier success |
| IntendedRetry.IntendedAttempts | Runtime/Core/QuantumLeapManager.cs:105-109 | one attempt per outcome consumed, at most budget+1 of them, one wait before each retry |
| IntendedRetry.IntendedReports | Runtime/Core/QuantumLeapManager.cs:113-114 | OnError is raised once by a failed call and never by a successful one; OnApiResponseReceived the other way round |
| IntendedRetry.PersistentFailureIsBounded | Runtime/Core/QuantumLeapManager.cs:72-145 | under persistent failure of any kind the call fails after exactly budget+1 attempts |
| IntendedRetry.FirstSuccessWins | Runtime/Core/QuantumLeapManager.cs:119-124 | a first success within the budget is returned after exactly that many attempts |
| IntendedRetry.AgreesWithoutStatusFailures | Runtime/Core/QuantumLeapManager.cs:127-144 | with no non-success status among the outcomes, the as-written and corrected engines coincide, events included |
| IntendedRetry.IntendedOnAmplifyingInput | Runtime/Core/QuantumLeapManager.cs:100-117 | on the amplifying input the corrected fetch makes 2 attempts and raises OnError once |
| Component.ValidateInput | Runtime/Components/QuantumLeapComponent.cs:55-66 | passes iff a URL is set and the timeout is positive; a missing URL is reported before a bad timeout, with the exact messages |
| Component.GetHeaders | Runtime/Components/QuantumLeapComponent.cs:68-81 | always Content-Type application/json; x-api-key present iff a key is set, and then equal to it; no other header |
| Component.Initialize | Runtime/Components/QuantumLeapComponent.cs:83-114 | validation errors reach the caller first; an initialised component is untouched; otherwise the logger takes the component level with both switches on, the manager is initialised with the component settings (kept if already initialised), and OnComponentInitialized is raised |
| Component.InitializeIsIdempotent | Runtime/Components/QuantumLeapComponent.cs:85-87 | a second Initialize after a successful one changes nothing and raises nothing |
| Component.ValidationPrecedesInitializedCheck | Runtime/Components/QuantumLeapComponent.cs:85-87 | clearing the URL of an initialised component makes Initialize throw "Default API URL is not set" |
| Component.FirstComponentConfiguresManager | Runtime/Components/QuantumLeapComponent.cs:99 | a later component leaves the manager with the first component's settings and raises no manager OnInitialized |
| Component.Cleanup | Runtime/Components/QuantumLeapComponent.cs:228-235 | the component is no longer initialised and its settings stay |
| Component.CleanupAllowsReinitialize | Runtime/Components/QuantumLeapComponent.cs:228-235 | after Cleanup a valid component initialises again and raises OnComponentInitialized again |
| Component.SetApiUrl | Runtime/Components/QuantumLeapComponent.cs:241-244 | stores the argument verbatim (null included) and nothing else changes |
| Component.SetApiKey | Runtime/Components/QuantumLeapComponent.cs:246-249 | stores the argument verbatim and nothing else changes |
| Component.SetRequestTimeout | Runtime/Components/QuantumLeapComponent.cs:251-260 | a value of 0 or less leaves the state unchanged; a positive one is stored |
| Component.TimeoutStaysPositive | Runtime/Components/QuantumLeapComponent.cs:251-260 | after any run of setter calls a positive timeout stays positive, and the timeout is the original or one of the positive values given |
| Component.FetchDataCoroutine | Runtime/Components/QuantumLeapComponent.cs:116-158 | awaits the manager's fetch as written; an uninitialised component stops before any request; an initialised one always delivers or reports; an uninitialised manager is reported as a fetch failure with the guard's text |
| Component.PostDataCoroutine | Runtime/Components/QuantumLeapComponent.cs:160-201 | the same three facts for the post coroutine, which awaits the manager's post as written |
| Component.FetchDeliversAResponseBody | Runtime/Components/QuantumLeapComponent.cs:142-145 | a delivered body is the last response the as-written fetch received, and every earlier attempt failed |
| Component.FetchDeliversFirstSuccess | Runtime/Components/QuantumLeapComponent.cs:124-145 | a first success within the budget is exactly what the fetch coroutine delivers, through the as-written engine |
| Component.FetchDeliversAfterReportedErrors | Runtime/Components/QuantumLeapComponent.cs:124-145 | with one retry and outcomes 503, 503, 200 the component receives "ok", although the manager raised OnError twice on the way |
| Component.PostReportsPersistentFailure | Runtime/Components/QuantumLeapComponent.cs:177-183 | when every attempt of the as-written post fails, the post coroutine reports "Failed to post data to URL: ..." |
| Envelope.ResponseFromJson | Runtime/Models/UDI.cs:210-221 | an exception becomes an envelope with success false, no data and the message as error; otherwise the parse result as it is |
| Envelope.RecordFromJson | Runtime/Models/UDI.cs:53-64 | an exception gives null; otherwise the parse result as it is |
| Envelope.WrappedThenDirect | Runtime/Models/GameEventLog.cs:100-120 | an exception from the envelope parse gives null; a successful envelope with data gives that data |
| Envelope.FallbackIsDirect | Runtime/Models/GameEventLog.cs:106-112 | an absent, unsuccessful or empty envelope falls through to the direct parse, whose answer is returned as it is; a non-null answer comes from one of the two parses |
| Udi.Make | Runtime/Models/UDI.cs:30-46 | each constructor argument lands in its like-named field despite the parameter order |
| Udi.IsFused | Runtime/Models/UDI.cs:87-90 | fused iff a fusion date is present |
| Udi.GetBrand | Runtime/Models/UDI.cs:96-99 | the provenance brand, or "" when the provenance or the brand is null |
| Udi.GetModel | Runtime/Models/UDI.cs:105-108 | the provenance model, or "" when the provenance or the model is null |
| Udi.GetCreationDate | Runtime/Models/UDI.cs:114-117 | none without a provenance, otherwise the provenance creation date |
| Udi.MakeThenRead | Runtime/Models/UDI.cs:87-108 | a constructed UDI reads back its provenance brand, model and creation date, and is fused iff given a fusion date |
| Udi.ResponseFromJson | Runtime/Models/UDI.cs:210-221 | a parse failure gives success false, no data and the error message; otherwise the parsed envelope |
| Udi.FromJson | Runtime/Models/UDI.cs:53-64 | a parse failure gives null |
| Udi.ResponseValidity | Runtime/Models/UDI.cs:244-247 | a decoded envelope is valid iff the parse gave a successful envelope with data; the failure envelope is never valid |
| UdiComponent.SendableIffValidAndLong | Runtime/Components/UDIComponent.cs:252-259 | CreateUDI sends exactly the requests that pass UDICreateRequest.IsValid and have an email longer than five UTF-16 code units |
| UdiComponent.IsValidEmail | Runtime/Components/UDIComponent.cs:97-103 | holds iff the email is set, longer than 5 UTF-16 code units (`Length`), and contains '@' and '.' |
| UdiComponent.CreateUdi | Runtime/Components/UDIComponent.cs:36-73 | the first failed check is reported (email required, email format, brand, model) and nothing is sent; otherwise a post to ApiUrl/udis/default/issue/email/brand/model tagged POST:CreateUDI |
| UdiComponent.CreatedRequestIsValid | Runtime/Components/UDIComponent.cs:60-70 | every request CreateUDI sends satisfies UDICreateRequest.IsValid |
| UdiComponent.ShortEmailValidOnlyAsRequest | Runtime/Components/UDIComponent.cs:97-103 | "a@b.c" makes a valid UDICreateRequest, yet CreateUDI rejects it as an invalid email |
| UdiComponent.EmailLengthInCodeUnits | Runtime/Components/UDIComponent.cs:102 | an email of five characters whose last lies outside the Basic Multilingual Plane is long enough, while "a@b.c" is not |
| UdiComponent.GetUdiById | Runtime/Components/UDIComponent.cs:80-90 | "UDI ID is required" iff the id is null or empty; otherwise a fetch of ApiUrl/udis/id tagged GET:GetUDIById |
| UdiComponent.GetUdiByIdRoundTrip | Runtime/Components/UDIComponent.cs:88 | the id is what follows ApiUrl/udis/ in the endpoint, so two accepted ids share an endpoint only when they are equal |
| UdiComponent.OnUdiDataReceived | Runtime/Components/UDIComponent.cs:105-138 | a valid envelope is held and reported with the action unchanged; otherwise the direct parse replaces the held UDI and is reported iff it has an id; otherwise "Failed to parse UDI data" |
| UdiComponent.ReportedUdiIsHeld | Runtime/Components/UDIComponent.cs:110-131 | a reported UDI is the one now held, under the given action, and came from a valid envelope or has an id |
| UdiComponent.RejectedParseOverwrites | Runtime/Components/UDIComponent.cs:121 | a direct record without an id evicts the UDI held before and is reported as a parse failure |
| UdiComponent.CurrentUdiId | Runtime/Components/UDIComponent.cs:164-167 | the held UDI's id, or null |
| UdiComponent.HasUdi | Runtime/Components/UDIComponent.cs:173-176 | true iff a UDI is held; without one every accessor reads its default |
| UdiComponent.CurrentBrand | Runtime/Components/UDIComponent.cs:184-187 | the held UDI's GetBrand, or "" |
| UdiComponent.CurrentModel | Runtime/Components/UDIComponent.cs:193-196 | the held UDI's GetModel, or "" |
| UdiComponent.CurrentSequentialId | Runtime/Components/UDIComponent.cs:202-205 | the held UDI's sequential id, or 0 |
| UdiComponent.CurrentEmail | Runtime/Components/UDIComponent.cs:211-214 | the held UDI's email, or "" when there is no UDI or no email |
| UdiComponent.IsCurrentUdiFused | Runtime/Components/UDIComponent.cs:220-223 | true iff a UDI is held and it has a fusion date |
| UdiComponent.ClearUdi | Runtime/Components/UDIComponent.cs:155-158 | afterwards no UDI is held |
| UdiComponent.ClearedReadsDefaults | Runtime/Components/UDIComponent.cs:155-223 | after ClearUDI, HasUDI is false, the id is null, brand, model and email are "", the sequential id is 0 and the UDI is not fused |
| UdiComponent.ReceivedReadsBack | Runtime/Components/UDIComponent.cs:164-205 | after a reported UDI the accessors read back that UDI's id, brand and sequential id |
| UdiStats.Make | Runtime/Models/UDIStats.cs:25-38 | each constructor argument lands in its like-named field |
| UdiStats.Percentage | Runtime/Models/UDIStats.cs:88-102 | 0 for a zero denominator; otherwise r times whole equals part times 100, and r lies in [0, 100] when 0 <= part <= whole |
| UdiStats.Average | Runtime/Models/UDIStats.cs:118-132 | 0 for a zero count; otherwise r times count equals total, and r lies in [0, total] for non-negative values |
| UdiStats.WinPercentage | Runtime/Models/UDIStats.cs:88-92 | 0 with no races; otherwise r times races equals wins times 100; within [0, 100] when wins do not exceed races |
| UdiStats.PodiumPercentage | Runtime/Models/UDIStats.cs:98-102 | 0 with no races; otherwise r times races equals podium finishes times 100; within [0, 100] when podium finishes do not exceed races |
| UdiStats.RankedRacePercentage | Runtime/Models/UDIStats.cs:108-112 | 0 with no races; otherwise r times races equals ranked races times 100; within [0, 100] when ranked races do not exceed races |
| UdiStats.AverageMileagePerRace | Runtime/Models/UDIStats.cs:118-122 | 0 with no races; otherwise the mileage divided by races |
| UdiStats.AverageMileagePerCircuit | Runtime/Models/UDIStats.cs:128-132 | guarded by the circuit count: 0 with no circuits, otherwise the mileage divided by circuits |
| UdiStats.ResetStats | Runtime/Models/UDIStats.cs:137-145 | the six counters become 0; brand, model and sequential id stay |
| UdiStats.ResetClearsRatios | Runtime/Models/UDIStats.cs:137-145 | after a reset every ratio is 0 and a second reset changes nothing |
| UdiStats.Clone | Runtime/Models/UDIStats.cs:151-155 | the copy is field-for-field equal to the original |
| UdiStats.ResponseFromJson | Runtime/Models/UDIStats.cs:185-196 | a parse failure gives success false, no data and the error message |
| UdiStats.FromJson | Runtime/Models/UDIStats.cs:45-56 | a parse failure gives null |
| UdiStats.ResponseValidity | Runtime/Models/UDIStats.cs:219-222 | a decoded envelope is valid iff the parse gave a successful envelope with data; the failure envelope is never valid |
| UdiStatsComponent.GetUdiStats | Runtime/Components/UDIStatsComponent.cs:37-59 | the first failed check is reported (brand, model, negative sequential id); id 0 is accepted; the endpoint is ApiUrl/udis/default/brand/model/id/stats tagged GET:GetUDIStats |
| UdiStatsComponent.GetUdiStatsRoundTrip | Runtime/Components/UDIStatsComponent.cs:57 | an accepted endpoint is ApiUrl/udis/default/brand/model/ followed by digits and "/stats", and the digits read back as the sequential id; two accepted requests for the same vehicle share an endpoint only when their ids are equal |
| UdiStatsComponent.OnUdiStatsDataReceived | Runtime/Components/UDIStatsComponent.cs:61-94 | a valid envelope is held and reported with the action; otherwise any non-null direct parse is; otherwise nothing is held and "Failed to parse UDIStats data" is reported |
| UdiStatsComponent.ReportedIffHeld | Runtime/Components/UDIStatsComponent.cs:66-87 | the handler reports iff it holds statistics afterwards, and reports what it holds under the given action |
| UdiStatsComponent.DirectFormIsNotChecked | Runtime/Components/UDIStatsComponent.cs:77-84 | an all-default direct record is accepted and reported |
| UdiStatsComponent.HasUdiStats | Runtime/Components/UDIStatsComponent.cs:120-123 | true iff statistics are held; without them every accessor reads its default |
| UdiStatsComponent.CurrentBrand | Runtime/Components/UDIStatsComponent.cs:129-132 | the held brand, or "" |
| UdiStatsComponent.CurrentModel | Runtime/Components/UDIStatsComponent.cs:138-141 | the held model, or "" |
| UdiStatsComponent.CurrentSequentialId | Runtime/Components/UDIStatsComponent.cs:147-150 | the held sequential id, or -1 |
| UdiStatsComponent.CurrentTotalRaces | Runtime/Components/UDIStatsComponent.cs:156-159 | the held race count, or 0 |
| UdiStatsComponent.CurrentTotalMileage | Runtime/Components/UDIStatsComponent.cs:165-168 | the held mileage, or 0 |
| UdiStatsComponent.CurrentWins | Runtime/Components/UDIStatsComponent.cs:174-177 | the held win count, or 0 |
| UdiStatsComponent.CurrentPodiumFinishes | Runtime/Components/UDIStatsComponent.cs:183-186 | the held podium count, or 0 |
| UdiStatsComponent.CurrentWinPercentage | Runtime/Components/UDIStatsComponent.cs:192-195 | the held statistics' win percentage, or 0 |
| UdiStatsComponent.CurrentPodiumPercentage | Runtime/Components/UDIStatsComponent.cs:201-204 | the held statistics' podium percentage, or 0 |
| UdiStatsComponent.ClearUdiStats | Runtime/Components/UDIStatsComponent.cs:111-114 | afterwards no statistics are held |
| UdiStatsComponent.ClearedReadsDefaults | Runtime/Components/UDIStatsComponent.cs:111-204 | after ClearUDIStats every accessor reads its default (-1 for the id, 0 for the counts and percentages, "" for brand and model), and GetUDIStats refuses that default id |
| UdiFuse.MakeMetadata | Runtime/Components/UDIFuseComponent.cs:468-472 | the rarity is stored and null attributes become an empty array |
| UdiFuse.RequestIsValid | Runtime/Components/UDIFuseComponent.cs:407-416 | valid iff all seven presence conditions hold; the address format is not checked |
| UdiFuse.RequestFromJson | Runtime/Components/UDIFuseComponent.cs:373-384 | a parse failure gives null |
| UdiFuseComponent.FusedIffDateAndId | Runtime/Components/UDIFuseComponent.cs:634-637 | the held fusion is fused iff the fusion date and the fusion id the accessors return are both non-empty; a date alone, enough for UDI.IsFused, is not |
| UdiFuse.Capitalize | Runtime/Components/UDIFuseComponent.cs:654 | the first character is upper-cased and the rest lower-cased, with the length kept |
| UdiFuse.TypeDisplayName | Runtime/Components/UDIFuseComponent.cs:643-655 | "Unknown" without a type; premium, standard and basic in any case give "Premium", "Standard" and "Basic" |
| UdiFuse.DisplayNameIsCapitalization | Runtime/Components/UDIFuseComponent.cs:643-655 | every set type is shown exactly as its capitalisation, so the three named cases are redundant |
| UdiFuse.ResponseFromJson | Runtime/Components/UDIFuseComponent.cs:527-538 | a parse failure gives success false, no data and the error message |
| UdiFuse.ResponseValidity | Runtime/Components/UDIFuseComponent.cs:561-564 | a decoded envelope is valid iff the parse gave a successful envelope with data; the failure envelope is never valid |
| UdiFuseComponent.IsHexString | Runtime/Components/UDIFuseComponent.cs:179-187 | holds iff every character is in 0-9, a-f or A-F |
| UdiFuseComponent.IsValidEthereumAddress | Runtime/Components/UDIFuseComponent.cs:165-172 | holds iff the address is set, has length 42, starts with lower-case "0x" and the other 40 characters are hex |
| UdiFuseComponent.EthereumAddressExamples | Runtime/Components/UDIFuseComponent.cs:165-187 | a sample address is accepted; an upper-case "0X" prefix and a non-hex character are refused |
| UdiFuseComponent.FuseUdi | Runtime/Components/UDIFuseComponent.cs:37-97 | the first failed check is reported (UDI id, token id, contract, owner, contract format, owner format); otherwise a post to ApiUrl/udis/fuse whose metadata has rarity "common" and no attributes when those are null |
| UdiFuseComponent.IsUdiFuseRequestValid | Runtime/Components/UDIFuseComponent.cs:194-203 | holds iff metadata with a non-empty rarity is present |
| UdiFuseComponent.FuseUdiRequest | Runtime/Components/UDIFuseComponent.cs:104-158 | the first failed check is reported (null request, UDI id, token id, NFT details, contract, owner, contract format, metadata/rarity); a request is sent iff it is valid and its contract well-formed; the owner format is never checked |
| UdiFuseComponent.OverloadsAgree | Runtime/Components/UDIFuseComponent.cs:37-158 | what the string overload sends, the object overload sends too, except with an explicit empty rarity, where the request fails IsValid |
| UdiFuseComponent.ObjectOverloadSkipsOwnerFormat | Runtime/Components/UDIFuseComponent.cs:104-158 | the object overload sends a request whose owner the string overload refuses as malformed |
| UdiFuseComponent.OnUdiFuseDataReceived | Runtime/Components/UDIFuseComponent.cs:205-229 | any envelope with success set is held and reported, with or without data; anything else reports "Failed to parse UDI Fuse data" and keeps the held response |
| UdiFuseComponent.FuseHandlerKeepsOnFailure | Runtime/Components/UDIFuseComponent.cs:210-222 | a reported response is what the parse returned and is now held; a parse exception leaves the held response untouched |
| UdiFuseComponent.SuccessWithoutDataAccepted | Runtime/Components/UDIFuseComponent.cs:210-222 | a successful envelope without data is accepted even though it is not IsValid |
| UdiFuseComponent.ClearFuseResponse | Runtime/Components/UDIFuseComponent.cs:246-249 | afterwards no response is held |
| UdiFuseComponent.HasFuseResponse | Runtime/Components/UDIFuseComponent.cs:255-258 | true iff a response is held; without one, or with one carrying no data, every accessor reads null, false or "" |
| UdiFuseComponent.HeldData | Runtime/Components/UDIFuseComponent.cs:264-267 | the held response's fusion data, present iff a response with data is held |
| UdiFuseComponent.CurrentFuseUdiId | Runtime/Components/UDIFuseComponent.cs:264-267 | the held data's UDI id, or null |
| UdiFuseComponent.CurrentFuseTokenId | Runtime/Components/UDIFuseComponent.cs:273-276 | the held data's token id, or null |
| UdiFuseComponent.CurrentFuseType | Runtime/Components/UDIFuseComponent.cs:282-285 | the held data's type, or null |
| UdiFuseComponent.CurrentFuseDate | Runtime/Components/UDIFuseComponent.cs:291-294 | the held data's fusion date, or null |
| UdiFuseComponent.CurrentFusionId | Runtime/Components/UDIFuseComponent.cs:300-303 | the held data's fusion id, or null |
| UdiFuseComponent.IsCurrentUdiFused | Runtime/Components/UDIFuseComponent.cs:318-321 | true iff fusion data is held and it is fused |
| UdiFuseComponent.CurrentFuseTypeDisplayName | Runtime/Components/UDIFuseComponent.cs:327-330 | the held data's display name, or "" |
| UdiFuseComponent.ClearedReadsDefaults | Runtime/Components/UDIFuseComponent.cs:246-330 | after ClearFuseResponse every accessor reads null, false or "" |
| GameEventLog.Make | Runtime/Models/GameEventLog.cs:60-77 | each constructor argument lands in its like-named field |
| GameEventLog.GenerateInput | Runtime/Models/GameEventLog.cs:79-93 | the seven caller fields are copied verbatim and the current time becomes the timestamp |
| GameEventLog.InputsDifferOnlyInTime | Runtime/Models/GameEventLog.cs:79-93 | two inputs generated from the same fields differ at most in their timestamp |
| GameEventLog.FromJson | Runtime/Models/GameEventLog.cs:100-120 | a successful envelope with data gives that data; otherwise the direct parse as it is; any exception gives null |
| GameEventLogComponent.LogGameEvent | Runtime/Components/GameEventLogComponent.cs:27-31 | no validation and no action tag; posts exactly GenerateGameEventLogInput of the arguments to ApiUrl/game-studios/events |
| GameEventLogComponent.LoggedEventsDifferOnlyInTime | Runtime/Components/GameEventLogComponent.cs:27-31 | the same event logged at two instants goes to the same endpoint with payloads that differ only in the timestamp, and the payload carries every field given |
| GameEventLogComponent.OnGameEventLogDataReceived | Runtime/Components/GameEventLogComponent.cs:33-46 | null data parses as ""; the parse result replaces the held log, null included; a log is reported iff one was parsed, otherwise "Failed to parse GameEventLog data" |
| GameEventLogComponent.FailedParseClearsLog | Runtime/Components/GameEventLogComponent.cs:35 | a malformed body clears the log held from an earlier answer |
| GameStudio.Make | Runtime/Models/GameStudio.cs:26-37 | each argument lands in its like-named field, although tier precedes tierLimit among the parameters |
| GameStudio.FromJson | Runtime/Models/GameStudio.cs:48-68 | a successful envelope with data gives that data; otherwise the direct parse as it is; any exception gives null |
| GameStudioComponent.GetGameStudioById | Runtime/Components/GameStudioComponent.cs:25-28 | no validation; fetches ApiUrl/game-studios/studioId, where a null id reads as "" |
| GameStudioComponent.GetGameStudioByIdRoundTrip | Runtime/Components/GameStudioComponent.cs:25-28 | the id (null read as "") follows ApiUrl/game-studios/ in the endpoint; two lookups share an endpoint iff their ids read the same, so null and "" fetch the same URL |
| GameStudioComponent.OnGameStudioDataReceived | Runtime/Components/GameStudioComponent.cs:30-43 | the parse result replaces the held studio, null included; only a parsed studio raises an event, and a failure is only logged |
| GameStudioComponent.DirectStudioAccepted | Runtime/Models/GameStudio.cs:53-60 | with no successful envelope, a bare studio body is held and reported |

## Left out

- Network transport and async plumbing (`UnityWebRequest`, handlers, `Task.Yield` polling, the real `Task.Delay`). They become the outcome oracle and `Delay` events; the request timeout only reaches the transport.
- The manager's log lines (the warnings, retry notices and give-up messages). Only `OnError` and `OnApiResponseReceived` are in the trace. The components' own log lines are also left out.
- The lock and the double-checked flag in `Initialize`/`Shutdown`: the model is single-threaded.
- The try/catch around the manager's and the component's `Initialize` bodies. Nothing in them throws in the model, so the "Initialization failed" event cannot be reached.
- Unity lifecycle and event wiring: `Awake`, `Start`, `OnDestroy`, `StartCoroutine`, the `+=`/`-=` subscriptions and the `OnUDIInitialized`-style unsubscribe hooks. The receive handlers are standalone functions of the action and the data.
- The action-tagged coroutines. `UDIComponent.cs:72` calls a three-argument `PostDataCoroutine(action, endpoint, data)`. `UDIComponent.cs:89` and `UDIStatsComponent.cs:58` call a two-argument `FetchDataCoroutine(action, endpoint)`. Their `(action, data)` handlers are subscribed to `OnDataReceived` (`UDIComponent.cs:24`, `UDIStatsComponent.cs:24`). But the base class declares only `FetchDataCoroutine(url)` and `PostDataCoroutine(url, data)` (`QuantumLeapComponent.cs:116`, `:160`), and `OnDataReceived` is an `Action<string>` (`QuantumLeapComponent.cs:26`). These overloads are not part of this model. The model assumes that they run the one-argument coroutines and hand the action from the `Call` unchanged to `OnUDIDataReceived` (`UDIComponent.cs:105`) and `OnUDIStatsDataReceived` (`UDIStatsComponent.cs:61`).
- `OnManagerInitialized` and the component's `OnApiResponseReceived`: they only log.
- `OnManagerError`, which forwards each manager `OnError` message unchanged to `OnErrorOccurred`: this is event wiring. The manager's messages are in the retry trace.
- The per-component data-error handlers: they log, and the event-log one forwards its message unchanged. The model returns that message as the receive handler's notice.
- The outer `catch` of the UDI, statistics and fuse handlers that reports "Error parsing ... data" (for the fuse handler at `UDIFuseComponent.cs:224-228`). Every `FromJson` catches its own exceptions, so that path is unreachable in the model.
- Component.FetchDataCoroutine: the reported text uses the call's own error text. The C# text is `task.Exception.Message`, the message of the `AggregateException` wrapper around it, which is not modelled.
- Component.PostDataCoroutine: likewise, the reported text uses the call's own error text rather than the message of the `AggregateException` that `task.Exception.Message` reads.
- UdiComponent.CurrentSequentialId: `GetCurrentSequentialId` calls `GetSequentialId()`, which `UDI.cs` does not define. The model reads it as the `sequentialId` field (`UDI.cs:19`).
- JSON: every `JsonUtility.FromJson` is a parser parameter. `ToJson`, `FromJsonArray` and the serialised form of the game event input are not modelled.
- Floating point: ratios, averages, timeouts and delays are exact reals. The `(int)` conversions of the timeout and of the delay in milliseconds are not modelled.
- Dates and times: `DateTime` values are opaque instants. `GetFusedDateTime`, `GetCurrentFuseDateTime`, the wall-clock stamp and the `UtcNow` timestamp format are not modelled; the stamp and timestamp are parameters.
- `ToString` overrides, and `GetCurrentFuseSummary`, which only returns the fusion data's `ToString`.
- Culture-sensitive `ToLower`/`ToUpper`: only ASCII letters change case.
- UdiStats.Clone: object identity is not modelled, so the copy is only shown equal, not distinct.
- Logger: `ClearLogs` and the console itself are not modelled. An emission is returned as the console line and the `OnLogMessage` argument.
- Retry.RetryFrom: a negative retry delay is taken as an ordinary wait. Neither `Initialize` validates the delay, and the C# waits with `Task.Delay((int)(delay * 1000))`, which throws `ArgumentOutOfRangeException` below -1 ms and never returns at exactly -1 ms. When the truncated delay is -2 ms or less, a call's first retry wait throws out of the frame without any `OnError`. When it is exactly -1 ms, the call never finishes. Neither of these paths is modelled.
- Retry.RetryFrom: the manager's configuration and initialised flag are read once per call and shared by every frame. In C# each frame re-reads `_isInitialized` (`QuantumLeapManager.cs:74`), `_maxRetries` (`:105`, `:132`) and `_retryDelay` (`:108`, `:135`) after `await Task.Yield()` and `await Task.Delay`, which return control to Unity's main loop. So a `SetRetryConfiguration` or `Shutdown` that runs between attempts changes the rest of the call. For example, after a `Shutdown` during a retry wait, the next frame throws the not-initialised error, which the status branch's `catch` retries once more before it escapes. These interleavings are not modelled.
- Retry.RetryFrom: its own contract states only progress. What it computes is stated by the lemmas of `RetryProperties`, which recurse along it.

## Findings

| source | as written | input that shows it | evidently intended | confidence | as-written member | corrected member |
|---|---|---|---|---|---|---|
| Runtime/Core/QuantumLeapManager.cs:100-144 (and 185-229 for posts) | On a non-success status below the budget, the retry call sits inside the `try`. A failure coming back from the deeper frame is caught by the same frame's `catch`, which waits and retries a second time. At the budget, the frame raises `OnError` and throws inside the `try`, and its `catch` raises `OnError` again. | maxRetries = 1 and every attempt a 503: 3 attempts and 4 `OnError` calls. In general 2^(maxRetries+1)-1 attempts. With outcomes 503, 503, 200 the call succeeds after already raising `OnError` twice. | maxRetries+1 attempts at most, with one wait before each retry and one `OnError` for a failed call, as the "attempt k/max+1" numbering says | not executed | RetryProperties.StatusRetriesAmplify | IntendedRetry.PersistentFailureIsBounded |
