# Ego Genesis AI Nexus — a Dafny model of its deterministic core

Ego Genesis is a React chat front end with stubbed AI back ends. This
project models the parts of it that are sequential, deterministic logic.
Clocks, delays and randomness are turned into parameters. The parts are:

- **Session store** (`EgoStore`). The zustand store of messages, selected
  model, input mode, customization settings and the thinking flag. It is a
  class whose setters replace one field each.
- **Turn controller and quota gate** (`EgoAssistant`, `Quota`). `handleSend`
  is split into `BeginSend`, `FinishThinking` and `CompleteSend`, and
  `HandleSend` composes them. The module also covers the weekly quota of
  seven, the reset-day offset, voice input and the response text. `Quota`
  holds the limit, remaining-count, warning and days-until-reset rules of
  the quota panel.
- **Timer registry** (`Timers`). A map of running timers, plus a history
  bounded to 100 records. It provides per-operation filtering, the
  half-up rounded mean, minimum and maximum, and the three-bucket
  distribution.
- **Search and image services** (`Search`, `Images`). Bounded histories
  (100 queries, 50 prompts) handed out most recent first. Simulated result
  lists built by a counted loop. Result and metadata defaults.
- **Input handling** (`InputHandling`). Trim and word count, the file type
  and size validators, and the precedence-ordered input classifier.
- **Model routing** (`ModelManagement`). The configuration table, model
  validation, the failure shape for an unknown model, the paragraph-by-
  paragraph composition of the simulated reply, optimal-model selection and
  the quota range.
- **UI rules** (`SmartInput`, `Customization`, `ModelCatalog`, `Auth`).
  These cover:
  - the Enter-key rule, the send-button condition, the recording guard and
    the conversation-mode buttons;
  - single-field settings updates and the option domains;
  - the model catalogue, lookup by id and auto-select;
  - signup validation order and the submit-button conditions.

Supporting modules: `Wrappers` (Option), `Text` (JavaScript's `trim`,
ASCII `toLowerCase`, `startsWith`/`endsWith`/`includes`, `split`, UTF-16
length, decimal rendering of integers) and `History` (keep-last-N
trimming and reversed copies).

Time is an `int` of milliseconds passed in by the caller. `Math.random()`
is a `real` in `[0, 1)` passed in by the caller. JavaScript numbers that
the code only compares or adds are modelled as `int`.

## Model

| member | source | states |
|---|---|---|
| EgoStore.Store.constructor | src/hooks/useEgoStore.tsx:22-35 | no messages, no selected model, text input mode, not thinking; settings professional, verbosity 50, thinking and web search off |
| EgoStore.Store.AddMessage | src/hooks/useEgoStore.tsx:37-40 | messages become the old list followed by the new message, earlier entries unchanged; every other field unchanged |
| EgoStore.Store.SetSelectedModel | src/hooks/useEgoStore.tsx:42-43 | replaces only the selected model |
| EgoStore.Store.SetInputMode | src/hooks/useEgoStore.tsx:45-46 | replaces only the input mode |
| EgoStore.Store.UpdateCustomization | src/hooks/useEgoStore.tsx:48-49 | replaces the whole settings record and nothing else |
| EgoStore.Store.SetIsThinking | src/hooks/useEgoStore.tsx:51-52 | replaces only the thinking flag |
| EgoStore.Store.ClearHistory | src/hooks/useEgoStore.tsx:54-55 | empties the messages (so a second call changes nothing) and keeps every other field |
| EgoStore.ClearThenAdd | src/hooks/useEgoStore.tsx:37-40 | clearing and then adding `m` leaves exactly `[m]`, other fields untouched |
| Quota.IsLimitReached | src/components/QuotaManager.tsx:22 | the limit view is chosen when usage is at least the quota |
| Quota.ShowsWarning | src/components/QuotaManager.tsx:23 | the badge condition `usage / quota · 100 > 80` on exact values, with JavaScript's outcome for a zero quota (shown iff usage is positive); its integer form is WarningCrossMultiplied |
| Quota.Remaining | src/components/QuotaManager.tsx:100 | below the limit at least one message is left, and never more than the quota |
| Quota.WarningCrossMultiplied | src/components/QuotaManager.tsx:23 | the usage-percentage-above-80 badge shows iff 100·usage > 80·quota |
| Quota.WarningAtSeven | src/components/QuotaManager.tsx:86-87 | with a quota of seven the warning first appears at usage 6 |
| Quota.DaysUntilReset | src/components/QuotaManager.tsx:34-39 | the result is the ceiling of the millisecond gap over a day; positive iff the reset is in the future |
| EgoAssistant.ResetOffset | src/components/EgoAssistant.tsx:42-43 | the offset `7 - weekday` lies in 1..7 and always lands on Sunday; Sunday rolls a full week |
| EgoAssistant.DaysUntilResetIsOffset | src/components/EgoAssistant.tsx:42-43 | the quota panel's day count for that reset time equals the weekday offset |
| EgoAssistant.MessageIdsDistinct | src/components/EgoAssistant.tsx:66 | a user id never equals a reply id, and each id determines its timestamp |
| EgoAssistant.ModelLabel | src/components/EgoAssistant.tsx:84 | the label is the model's name, or "default model" when there is none or it is empty |
| EgoAssistant.MarkerTailShape | src/components/EgoAssistant.tsx:84 | the tail after the model label starts with the web-search marker iff web search is on, and ends with the deep-analysis marker iff thinking mode is on |
| EgoAssistant.ResponseMarkers | src/components/EgoAssistant.tsx:84 | the reply text carries "[Web search results included]" right after its head iff web search is on, and ends with "[Deep analysis performed]" iff thinking mode is on |
| EgoAssistant.CanSend | src/components/EgoAssistant.tsx:55 | the send guard: the trimmed input is non-empty and usage is below the quota |
| EgoAssistant.ResponseText | src/components/EgoAssistant.tsx:84 | the reply text: the model label and the echoed input, then the optional web-search and deep-analysis markers; its shape is ResponseMarkers |
| EgoAssistant.Assistant.ShowsLimitScreen | src/components/EgoAssistant.tsx:123 | the page shows the quota screen instead of the chat once usage reaches 7 |
| EgoAssistant.CanSendIff | src/components/EgoAssistant.tsx:55 | a send goes ahead iff the input is not blank and usage is below 7 |
| EgoAssistant.Assistant.constructor | src/components/EgoAssistant.tsx:31-40 | empty input, not processing, no start time, usage 0 |
| EgoAssistant.Assistant.SetInputText | src/components/EgoAssistant.tsx:31 | sets only the input text |
| EgoAssistant.Assistant.BeginSend | src/components/EgoAssistant.tsx:55-77 | refused sends change nothing; otherwise usage grows by one (staying ≤ 7), the user message is appended, the input cleared, processing on with the start time set, and the thinking flag raised only in thinking mode |
| EgoAssistant.Assistant.FinishThinking | src/components/EgoAssistant.tsx:79 | lowers the thinking flag and nothing else |
| EgoAssistant.Assistant.CompleteSend | src/components/EgoAssistant.tsx:83-101 | appends the reply message, clears processing and the start time, keeps everything else |
| EgoAssistant.Assistant.HandleSend | src/components/EgoAssistant.tsx:54-102 | a send happens iff the guard passes; then usage +1 and exactly two messages, user then reply, are appended; otherwise nothing changes |
| EgoAssistant.Assistant.HandleVoiceInput | src/components/EgoAssistant.tsx:104-106 | the input becomes the old input, a space and the transcription |
| EgoAssistant.LastMessageOfWeek | src/components/EgoAssistant.tsx:41-123 | at usage 6 one send goes through and adds two messages, the next is refused, and the limit screen shows |
| Timers.FilterByOperation | src/services/timerService.ts:83-86 | keeps exactly the records of the operation |
| Timers.FilterAppend | src/services/timerService.ts:83-86 | filtering distributes over concatenation, so record order is preserved |
| Timers.SelectHistory | src/services/timerService.ts:76-87 | an absent or empty operation yields the whole history; otherwise exactly the records of that operation |
| Timers.RoundedMean | src/services/timerService.ts:93-94 | `Math.round(total / count)` as the integer with half-up rounding |
| Timers.MinOf | src/services/timerService.ts:123 | a member of the list no larger than any entry |
| Timers.MaxOf | src/services/timerService.ts:124 | a member of the list no smaller than any entry |
| Timers.SumBetween | src/services/timerService.ts:121 | a sum of entries in `[lo, hi]` lies between count·lo and count·hi |
| Timers.RoundedMeanBetween | src/services/timerService.ts:93-94 | the rounded mean of values in `[lo, hi]` stays in `[lo, hi]` |
| Timers.AverageDuration | src/services/timerService.ts:89-95 | 0 on an empty history, otherwise the mean duration rounded half up (and so between the fastest and slowest duration) |
| Timers.Distribute | src/services/timerService.ts:126-134 | fast counts the durations under 1000, medium those in 1000..2999, slow those of 3000 or more; together they count every duration |
| Timers.Stats | src/services/timerService.ts:97-143 | all zeros on an empty history; otherwise total is the history length, average is the rounded mean, fastest and slowest are actual durations bounding all the others, and the distribution is the bucket count of the durations |
| Timers.FormatDuration | src/services/timerService.ts:155-165 | below one second the text is the integer followed by "ms" |
| Timers.TimerService.constructor | src/services/timerService.ts:7-17 | no active timers and an empty history |
| Timers.TimerService.StartTimer | src/services/timerService.ts:26-31 | the timer becomes active at `now`, overwriting an earlier start; history unchanged |
| Timers.TimerService.StopTimer | src/services/timerService.ts:33-62 | without a start time (including 0) returns 0 and changes nothing; otherwise returns end − start, appends that record keeping the last 100, and removes the timer; the returned duration is always what GetElapsedTime reported just before |
| Timers.TimerService.IsTimerActive | src/services/timerService.ts:72-74 | a timer is active iff its id is in the map; StartTimer and StopTimer state how it changes |
| Timers.TimerService.GetElapsedTime | src/services/timerService.ts:64-70 | 0 without a usable start time (no entry, or a start stored as 0); otherwise now − start |
| Timers.TimerService.ClearHistory | src/services/timerService.ts:145-148 | empties the history, keeps the active timers |
| Timers.TimerService.ClearActiveTimers | src/services/timerService.ts:150-153 | empties the active timers, keeps the history |
| History.KeepLast | src/services/timerService.ts:52-55 | the last `n` entries in order, or all of them when there are fewer |
| History.AppendBounded | src/services/searchService.ts:39-42 | appending within the bound grows the list or drops exactly the oldest entry; the new entry is last |
| History.ReversedProperties | src/services/searchService.ts:95-97 | the copy lists entries most recent first and reversing twice gives the history back |
| Search.SimulatedUrlsDistinct | src/services/searchService.ts:51-64 | simulated results with different indices have different URLs |
| Search.GenerateSimulatedResults | src/services/searchService.ts:51-64 | exactly max(n, 0) results, the i-th (1-based) being the simulated result i |
| Search.ResultCount | src/services/searchService.ts:28 | 5 results when the count is absent or 0, the given count otherwise |
| Search.SummarizeResults | src/services/searchService.ts:66-78 | the empty case's fixed sentence; otherwise the summary opens with the result count |
| Search.GetRelatedQueries | src/services/searchService.ts:80-93 | exactly the three templated queries |
| Search.SearchImages | src/services/searchService.ts:103-120 | one placeholder image of 300×200 |
| Search.SearchNews | src/services/searchService.ts:122-127 | three simulated results for the query followed by " news" |
| Search.SearchService.constructor | src/services/searchService.ts:17-19 | an empty history |
| Search.SearchService.Search | src/services/searchService.ts:28-49 | the query is appended, the last 100 kept (oldest dropped first); the results are the simulated list of the resolved count |
| Search.SearchService.GetSearchHistory | src/services/searchService.ts:95-97 | the history in reverse, entry by entry: most recent first |
| Search.SearchService.ClearSearchHistory | src/services/searchService.ts:99-101 | empties the history |
| Images.RevisedPrompt | src/services/imageService.ts:64-65 | "Enhanced prompt: ", the prompt itself, then " with improved artistic detail" |
| Images.GenerationFor | src/services/imageService.ts:62-73 | echoes the prompt; defaults dall-e-3, 1024x1024 and photorealistic when options are missing, passes given options through |
| Images.EditImage | src/services/imageService.ts:135-150 | a fixed placeholder URL whatever the inputs |
| Images.UpscaleImage | src/services/imageService.ts:152-162 | a fixed placeholder URL whatever the inputs |
| Images.RemoveBackground | src/services/imageService.ts:164-171 | a fixed placeholder URL whatever the input |
| Images.ImageService.constructor | src/services/imageService.ts:14-16 | an empty generation history |
| Images.ImageService.GenerateImage | src/services/imageService.ts:25-74 | the prompt is appended and the last 50 kept, oldest dropped first; the result is the defaulted generation result |
| Images.ImageService.GetGenerationHistory | src/services/imageService.ts:173-175 | the history in reverse, entry by entry: most recent first |
| Images.ImageService.ClearGenerationHistory | src/services/imageService.ts:177-179 | empties the history |
| InputHandling.ProcessTextInput | src/services/inputHandler.ts:24-50 | processed text is a slice of the input with only whitespace cut off either end and no whitespace at its ends (empty iff blank); word count is one more than the spaces of the untrimmed text; fixed language, sentiment and category |
| InputHandling.ProcessedTextIsTrimmed | src/services/inputHandler.ts:42 | the processed text is already trimmed |
| InputHandling.ValidateFileType | src/services/inputHandler.ts:119-121 | true iff the file type is one of the allowed types |
| InputHandling.ValidateFileSize | src/services/inputHandler.ts:123-126 | true iff size ≤ maxSizeMB × 1 048 576 |
| InputHandling.FileSizeBoundary | src/services/inputHandler.ts:123-126 | the exact limit is accepted and one byte more refused |
| InputHandling.FileSizeMonotone | src/services/inputHandler.ts:123-126 | a file accepted under a limit is accepted under any larger limit |
| InputHandling.CategorizeInput | src/services/inputHandler.ts:135-144 | question iff the input has '?'; otherwise command iff it starts with create/generate in lower case; otherwise request iff it starts with please or contains help |
| InputHandling.CategorizeIgnoresCase | src/services/inputHandler.ts:137 | lower-casing the input first does not change the category |
| InputHandling.QuestionMarkWins | src/services/inputHandler.ts:139 | any input containing '?' is a question whatever else it says |
| ModelManagement.EntriesToMap | src/services/modelManager.ts:29-53 | keys are exactly the entry ids, and the final entry's value is stored |
| ModelManagement.LastEntryWins | src/services/modelManager.ts:29-53 | for every id the stored value is that of its last entry, as with repeated `Map.set` |
| ModelManagement.ConfigTable | src/services/modelManager.ts:31-52 | exactly gpt-4, claude-3-opus and gemini-pro are configured, with max tokens 4096, 4096 and 2048 |
| ModelManagement.ModelManager.constructor | src/services/modelManager.ts:18-53 | the loop fills the configuration map from the table |
| ModelManagement.ModelManager.ValidateModel | src/services/modelManager.ts:140-142 | true exactly for the three configured ids |
| ModelManagement.ComposeAppend | src/services/modelManager.ts:114-131 | each `+=` adds a blank line and the next paragraph |
| ModelManagement.ComposeEnds | src/services/modelManager.ts:103-131 | the text starts with its first paragraph and ends with its last |
| ModelManagement.VerbosityThreshold | src/services/modelManager.ts:114-117 | `verbosity / 50 > 1` holds iff verbosity > 50 |
| ModelManagement.ResponseStructure | src/services/modelManager.ts:103-131 | tone line first and footer last; the extra-context paragraph iff verbosity > 50, the web note iff web search, the image note iff image data, web note before image note |
| ModelManagement.ModelManager.AppendParagraph | src/services/modelManager.ts:118 | appending one paragraph extends the composed text by that paragraph |
| ModelManagement.ModelManager.CallModelAPI | src/services/modelManager.ts:94-132 | the built text is the composition of the tone, optional paragraphs and footer |
| ModelManagement.ResponseTextEnds | src/services/modelManager.ts:103-131 | the reply starts with the tone's modifier and ends with the footer naming the model |
| ModelManagement.UsageFor | src/services/modelManager.ts:76-83 | tokens in 100..1099; cost zero for free models |
| ModelManagement.ModelManager.GenerateResponse | src/services/modelManager.ts:55-92 | an unconfigured id gives failure with "Model configuration not found for <id>" and no data; otherwise success with the composed text and usage |
| ModelManagement.SelectOptimalModel | src/services/modelManager.ts:152-185 | technical gives claude-3-opus, creative gives gemini-pro, general and analysis give gpt-4, and every choice passes validation |
| ModelManagement.SelectionIgnoresInputType | src/services/modelManager.ts:157-184 | the input type never changes the choice |
| ModelManagement.GetModelQuota | src/services/modelManager.ts:144-150 | limit 7 and used in 0..6 |
| SmartInput.SendsOnKey | src/components/SmartInputArea.tsx:74-79 | a key press sends iff it is Enter without Shift |
| SmartInput.OnlyPlainEnterSends | src/components/SmartInputArea.tsx:74-79 | Enter sends, Shift+Enter and other keys do not |
| SmartInput.SendDisabled | src/components/SmartInputArea.tsx:211 | disabled iff the input is blank or processing |
| SmartInput.EnabledButtonPassesTextGuard | src/components/SmartInputArea.tsx:211 | with the button enabled only the quota can refuse a send |
| SmartInput.ModeChangeAsWired | src/components/SmartInputArea.tsx:81-85 | as wired, the thinking flag never changes, web search is on iff the mode is search, and tone, verbosity and temperature are kept |
| SmartInput.ThinkIsLostAsWired | src/components/SmartInputArea.tsx:81-85 | "think" from the defaults leaves thinking mode off |
| SmartInput.BothFlagsOnAsWired | src/components/SmartInputArea.tsx:81-85 | "search" with thinking on leaves both flags on |
| SmartInput.ModeChange | src/components/SmartInputArea.tsx:81-85 | thinking iff think, web search iff search, never both, normal turns both off, other settings kept |
| SmartInput.AsWiredAgreesOnlyWhenThinkingUnchanged | src/components/SmartInputArea.tsx:81-85 | the wired and intended updates agree exactly when the thinking flag already has its intended value |
| SmartInput.InputArea.constructor | src/components/SmartInputArea.tsx:36-38 | normal mode, not recording, no recorder |
| SmartInput.InputArea.HandleModeChangeAsWired | src/components/SmartInputArea.tsx:81-85 | sets the mode and stores the as-wired settings, nothing else |
| SmartInput.InputArea.HandleModeChange | src/components/SmartInputArea.tsx:81-85 | sets the mode and stores the intended settings; the flags are never both on |
| SmartInput.InputArea.StartRecording | src/components/SmartInputArea.tsx:40-65 | with a microphone a recorder exists and recording is on; otherwise nothing changes |
| SmartInput.InputArea.StopRecording | src/components/SmartInputArea.tsx:67-72 | does nothing unless a recorder exists and is recording, and then stops it |
| Customization.UpdateSetting | src/components/CustomizationPanel.tsx:20-25 | the chosen field holds the value and every other field is unchanged |
| Customization.UpdateSettingUnique | src/components/CustomizationPanel.tsx:20-25 | any settings with that field and the rest unchanged are the update's result |
| Customization.UpdateSettingIdempotent | src/components/CustomizationPanel.tsx:20-25 | applying the same update twice equals applying it once |
| Customization.UpdateSettingNoChange | src/components/CustomizationPanel.tsx:20-25 | setting a field to its current value changes nothing |
| Customization.UpdatesCommute | src/components/CustomizationPanel.tsx:20-25 | updates of different fields commute |
| Customization.ToneOptionsComplete | src/components/CustomizationPanel.tsx:46-50 | five distinct tone options covering every tone |
| Customization.VerbosityOptions | src/components/CustomizationPanel.tsx:61-66 | ten slider values from 10 to 100 in steps of 10 |
| Customization.VerbosityOptionsExact | src/components/CustomizationPanel.tsx:61-66 | a value is offered iff it is in 10..100 and a multiple of 10 |
| ModelCatalog.FindById | src/components/ModelSelector.tsx:57 | the first model with that id, or none iff no model has it |
| ModelCatalog.CatalogueFacts | src/components/ModelSelector.tsx:16-32 | 5 free models with limit 0, 5 premium models with used ≤ limit 7, pairwise distinct ids |
| ModelCatalog.FindsEachCatalogueModel | src/components/ModelSelector.tsx:56-59 | looking up a catalogue id returns that exact model |
| ModelCatalog.SelectById | src/components/ModelSelector.tsx:56-59 | a known id selects that model; an unknown id changes nothing |
| ModelCatalog.AutoSelect | src/components/ModelSelector.tsx:34-38 | always selects the first premium model, gpt-4 |
| ModelCatalog.ShowsQuotaPanel | src/components/ModelSelector.tsx:103 | the weekly-quota panel shows iff a model is selected and it is premium |
| ModelCatalog.QuotaPanelForSelection | src/components/ModelSelector.tsx:103 | the weekly-quota panel shows iff the selected model is premium |
| Auth.SignupValidationError | src/components/AuthModal.tsx:66-79 | none iff passwords match and have at least 6 UTF-16 units; a mismatch is reported before the length |
| Auth.PasswordLengthRule | src/components/AuthModal.tsx:75-79 | with matching passwords the length error means fewer than 6 characters |
| Auth.EnabledSignupCanBeRefused | src/components/AuthModal.tsx:341 | an enabled signup button can still be refused by validation |
| Auth.LoginSubmitDisabled | src/components/AuthModal.tsx:234 | the login button is disabled while loading or with an empty email or password |
| Auth.SignupSubmitDisabled | src/components/AuthModal.tsx:341 | the signup button is disabled while loading or with any of the four fields empty |
| Auth.SignupErrorMessage | src/components/AuthModal.tsx:95-107 | the back end's message, or a fixed fallback when it is empty |
| Auth.AuthModal.constructor | src/components/AuthModal.tsx:22-34 | empty forms, not loading, password hidden, no error or success |
| Auth.AuthModal.HandleSignup | src/components/AuthModal.tsx:64-93 | a request is sent iff validation passes; a refusal sets the error and leaves loading off; a request clears the error and sets loading |
| Auth.AuthModal.FinishSignup | src/components/AuthModal.tsx:95-107 | loading ends; an error reply shows its message; a user reply shows the success message |
| Auth.AuthModal.ResetForm | src/components/AuthModal.tsx:129-135 | both forms empty, error and success cleared, password hidden, so both submit buttons are disabled |
| Auth.MismatchReportedFirst | src/components/AuthModal.tsx:69-79 | a short mismatched pair reports the mismatch and sends nothing |
| Text.TrimEmptyIffBlank | src/services/inputHandler.ts:42 | `trim` yields "" iff every character is whitespace |
| Text.TrimSlice | src/services/inputHandler.ts:42 | the trimmed text is a slice of the input with only whitespace cut off either side |
| Text.TrimShape | src/services/inputHandler.ts:42 | the trimmed text is no longer than the input, starts and ends with non-whitespace, and is the slice of the input that begins after the leading whitespace |
| Text.TrimStartDropsBlank | src/services/inputHandler.ts:42 | every character dropped from the front by `trim` is whitespace |
| Text.TrimEndDropsBlank | src/services/inputHandler.ts:42 | every character dropped from the back by `trim` is whitespace |
| Text.TrimIdempotent | src/services/inputHandler.ts:42 | trimming twice equals trimming once |
| Text.SplitLength | src/services/inputHandler.ts:44 | `split(' ').length` is one more than the number of spaces |
| Text.SplitJoin | src/services/inputHandler.ts:44 | joining the pieces gives the text back and no piece holds the separator |
| Text.ParseNatToString | src/components/EgoAssistant.tsx:66 | the decimal rendering of a number parses back to it |
| Text.IntToStringInjective | src/components/EgoAssistant.tsx:66 | different integers render differently |

## Left out

- Rendering, styling, dark mode and the purely presentational components
  (ThemeToggle, InfoTooltip, InputModeSelector, AIBehaviorPanel,
  ChatHistory, ResponseTimer, ImageUpload, VoiceRecorder) are not modelled.
- Delays (`setTimeout`, simulated API latency) become step boundaries. The
  thinking delay and the reply delay of `handleSend` are the split between
  `BeginSend`, `FinishThinking` and `CompleteSend`. Interleavings of other
  events during those delays are not modelled.
- Randomness is a parameter. The token count of `generateResponse` and the
  used count of `getModelQuota` take a caller-given value in `[0, 1)`.
  Random latencies are step boundaries like the other delays. `hasText`
  belongs to `processImageInput`, which is not modelled (see below).
- Singletons (`getInstance`) and console logging are left out. Each service
  is an ordinary class instance.
- Browser and third-party APIs are left out: MediaRecorder and transcription
  (only microphone availability is an input of `StartRecording`), image,
  canvas and object-URL work (`analyzeImage`, `convertFormat`,
  `processImageInput`, `processVoiceInput`, `extractTextFromImage`) and the
  Supabase calls (`handleLogin`, `handleSocialLogin`).
- Auth.AuthModal.HandleSignup: the `signUp` call is modelled as the request
  it would send. Its reply is an input of `FinishSignup`. The success
  message's delayed close and form reset are not modelled.
- Floating point is not modelled: the temperature (its printed form is
  passed in as text to `CallModelAPI`), the costs 0.02 and 0.04 (kept as
  hundredths; the image cost is not kept) and the percentage bar widths.
  Thresholds are stated on exact values: usage·100 against 80·quota, and
  verbosity against 50.
- Timers.FormatDuration: only the below-one-second branch is modelled. The
  seconds and minutes branches use `toFixed` and return none.
- Calendar and locale: the reset date is weekday arithmetic only. Daylight
  saving, `setDate` month rollover and locale formatting are not modelled.
- Text.ToLower lower-cases ASCII letters only. JavaScript's full Unicode
  case mapping is not modelled.
- Text.IntToString does not model JavaScript's exponent notation for
  magnitudes of 10^21 and above.
- JavaScript numbers used as verbosity, file size and the megabyte limit
  are integers in the model.
- The `||` fallbacks of the tone modifier table and of `selectOptimalModel`
  cannot fire, because tones and task categories are closed datatypes.
- Images.GenerationFor: the `quality` and `negativePrompt` options are
  carried in the options value but ignored, as in the source.
- Timers.TimerService.GetTimerHistory, GetAverageResponseTime and
  GetPerformanceStats delegate to `SelectHistory`, `AverageDuration` and
  `Stats` on the history. Their contracts are stated on those functions.

## Findings

| source | as written | input that shows it | evidently intended | confidence | as-written member | corrected member |
|---|---|---|---|---|---|---|
| src/components/SmartInputArea.tsx:81-85 with src/components/EgoAssistant.tsx:234-236 | both mode callbacks spread the same captured `customization` into `updateCustomization`, and the store replaces the whole settings record, so the second (web search) update overwrites the first | mode "think" from the default settings: thinking mode stays off; mode "search" with thinking on: both flags end up on | thinking on iff "think", web search on iff "search", never both | not executed | SmartInput.ModeChangeAsWired (ThinkIsLostAsWired, BothFlagsOnAsWired) | SmartInput.ModeChange |
