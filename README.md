# Superwisper voice assistant, modelled in Dafny

Superwisper is an Electron desktop app that turns speech into text and sends the text to a
language model. A prompt type (email writing, bullet points or grammar fixing) decides what the
model is told to do. The reply is shown and spoken back through text-to-speech.

The model covers the app's core:

- **`Config`**: the prompt-type table and the model, speech and timing settings.
- **`Transcripts`**: the transcript accumulator.
  - It folds Deepgram recognition events into final segments, a tentative text and a
    "final received" flag.
  - It keeps a page element in step.
- **`UiState`**: the page-state manager. It owns the start and stop buttons, the recording and
  processing indicators, and the status line.
- **`UiControl`**: the page-side controller. It covers the socket's life cycle, the stop path
  with its wait for a final transcript, the completion request, and the display and speech of
  a reply tagged with `<start>` and `<end>`.
- **`OpenAI`**: the language-model service.
  - The current prompt type.
  - The list of available types.
  - How `processText` resolves its options into a chat-completion request.
- **`Deepgram`**: the speech service.
  - The key check.
  - The listen URL and its subprotocols.
  - The text-to-speech request: its URL, its `Authorization` header, its JSON body, and the
    error it throws for a response that is not OK.
- **`MainProcess`**: the Electron main process.
  - Start-up and its key checks.
  - The IPC handlers, which send messages to the page in order.
  - The canned transcription of `stop-recording`.
  - That handler's own tag extraction.
- **`Renderer`**: the page script.
  - The recording and processing flags.
  - The prompt-type buttons and their labels.
  - The status line.
  - The reaction to each message from the main process.
  - The `file://` URL fix before playback.
- **`JsString`**: the JavaScript string built-ins the code relies on, with their edge cases.
  - `indexOf` gives -1 when nothing is found.
  - `substring` clamps its arguments and swaps them when they are reversed.
  - `trim` removes ECMAScript white space.
  - `join`, `startsWith`, first-occurrence `replace`, and number-to-string.

Objects that the source updates in place are classes whose methods state their whole new
state. These are the transcript accumulator, the UI state manager, the controller, the
OpenAI service, the main app and the page.

Pure logic is functions, with lemmas relating the functions to one another:

- Tag extraction.
- Option resolution.
- URL, header and body building, each with a reader proved to recover what went in.

Effects the code awaits are parameters of the methods that await them: the microphone grant,
the completion reply, the synthesis response and the playback outcome. Messages sent to the
other process are appended to a trace.

Some behaviours of the code are easy to misread. Each is modelled as written:

- On a final event, `processTranscript` sets the tentative text (`currentTranscript`) to the
  final text rather than clearing it. The display hides it through the "final received" flag
  (`modules/transcript-manager.js:47-53`).
- The page-side controller's `startRecording` has no guard against a recording already in
  progress (`modules/ui-controller.js:80-97`). The renderer's does
  (`renderer.js:129-142`).
- The page-side controller's comment says it takes the text after the end tag
  (`modules/ui-controller.js:269`), but it starts at `endTagIndex + 6`. Since `<end>` is five
  characters long, the first character after the tag is never spoken
  (`modules/ui-controller.js:270`). The model keeps the code's `+ 6`, and
  `UiControl.FirstCharacterAfterEndTagIsDropped` shows the effect.
- The main process speaks the text between the tags, while the page's controller speaks the
  text after `<end>`. The main process also does not check the tags' order, so JavaScript's
  `substring` swaps its arguments when `<end>` comes first (`main.js:164-167`). Both
  behaviours are modelled as written and related by lemmas.

## Model

| member | source | states |
|---|---|---|
| JsString.IndexOf | main.js:165-166 | `indexOf` is -1 exactly when the pattern does not occur, and otherwise gives an index where it occurs |
| JsString.IndexOfIsFirst | modules/ui-controller.js:235-236 | no occurrence of the pattern starts before the index `indexOf` reports |
| JsString.IndexOfAfterPrefix | modules/ui-controller.js:235-236 | a pattern that a prefix does not contain, and that has no border, is found right after that prefix |
| JsString.StartsWithIndexOf | renderer.js:236-239 | a string that starts with a pattern has its first occurrence at 0 |
| JsString.ReplaceFirst | renderer.js:239 | without an occurrence the string is unchanged; otherwise the first occurrence, and only it, is replaced, keeping the text before and after it |
| JsString.Substring | main.js:167 | `substring(a, b)` is the slice between the bounds taken in ascending order; a negative bound counts as 0 and one past the end as the length, so out-of-range pairs give a prefix, a suffix, the whole string or the empty string |
| JsString.SubstringSymmetric | main.js:167 | `substring` gives the same result with its two arguments swapped |
| JsString.SubstringFrom | modules/ui-controller.js:270 | `substring(a)` is the suffix from `a` clamped to the length, and is empty past the end |
| JsString.Trim | modules/openai-service.js:100 | the result has no white space at either end, is no longer than the input, and is empty exactly when the input is all white space |
| JsString.TrimIsInfix | modules/openai-service.js:100 | the trimmed text sits in the input after a run of white space and before another |
| JsString.TrimIdempotent | modules/openai-service.js:100 | trimming twice is trimming once |
| JsString.TrimPadded | modules/ui-controller.js:270 | white space added at either end does not change the trimmed text |
| JsString.Join | modules/transcript-manager.js:52 | joining no parts gives the empty string and one part gives that part (JoinSnoc states the rest) |
| JsString.JoinSnoc | modules/transcript-manager.js:51-52 | joining one more segment appends the separator and that segment |
| JsString.NatToString | modules/deepgram-service.js:55 | a number prints as a non-empty run of decimal digits without a leading zero |
| JsString.ParseNatToString | modules/deepgram-service.js:55 | the printed digits read back as the number |
| Config.DefaultIsPromptType | modules/config.js:134 | the default prompt type is one of the configured types |
| Config.PromptKeysAreTheTable | modules/config.js:9-131 | the key list holds exactly the table's keys, without repeats |
| Config.OnlyGrammarHasMaxTokens | modules/config.js:128-129 | grammar is the only prompt type with its own token budget, which is 500 |
| Config.PromptTypesComplete | modules/config.js:9-131 | every configured type has a non-empty name and button label, and no two types share instructions |
| Config.SttIsMono16k | modules/config.js:155-159 | speech recognition is linear16, 16000 Hz, one channel |
| Transcripts.FinalTextsAppend | modules/transcript-manager.js:49-51 | the final texts of two event runs are those of the first followed by those of the second |
| Transcripts.RunSnoc | modules/transcript-manager.js:42-60 | feeding one more event is one more `processTranscript` step |
| Transcripts.RunSegments | modules/transcript-manager.js:49-52 | the segments grow by exactly the final texts that carry speech, in arrival order |
| Transcripts.RunFinalFlag | modules/transcript-manager.js:53 | the "final received" flag is set after a run exactly when it was set before or a final event with speech arrived |
| Transcripts.PartialNeverStored | modules/transcript-manager.js:46-54 | a tentative event, wherever it arrives, leaves the stored segments unchanged |
| Transcripts.FinalTextsHaveSpeech | modules/transcript-manager.js:46 | every stored final text has a non-white-space character |
| Transcripts.PartialsThenFinal | modules/transcript-manager.js:42-60 | after three tentative events and one final event, the complete transcript is the final text alone |
| Transcripts.NonEmpty | modules/transcript-manager.js:70 | `filter(Boolean)` keeps no empty string |
| Transcripts.NonEmptyKeeps | modules/transcript-manager.js:70 | `filter(Boolean)` keeps a list without empty strings unchanged |
| Transcripts.DisplayStringShape | modules/transcript-manager.js:65-74 | the display is the joined segments, followed by the tentative text only while no final event has arrived and that text is non-empty |
| Transcripts.TextContent | modules/transcript-manager.js:72 | assigning `textContent` leaves one text node holding the string, or none for the empty string |
| Transcripts.TranscriptElement.constructor | modules/transcript-manager.js:5-11 | a fresh transcript element has no children |
| Transcripts.TranscriptManager.constructor | modules/transcript-manager.js:5-11 | a new accumulator is empty, has no element and has seen no events |
| Transcripts.TranscriptManager.Initialize | modules/transcript-manager.js:17-20 | the element is attached, the accumulator is empty and the element is cleared |
| Transcripts.TranscriptManager.Reset | modules/transcript-manager.js:25-35 | the segments, the texts and the flag are cleared; the element, if any, is emptied and stays attached |
| Transcripts.TranscriptManager.ProcessTranscript | modules/transcript-manager.js:42-60 | the state after one event is the specification step; the result says whether a final segment was saved; an event without speech changes nothing; the element shows the display string |
| Transcripts.TranscriptManager.UpdateDisplay | modules/transcript-manager.js:65-74 | an attached element shows exactly the display string |
| Transcripts.TranscriptManager.GetCompleteTranscript | modules/transcript-manager.js:80-82 | the complete transcript is the final texts carrying speech since the last reset, in order, joined by single spaces, and equals the stored field |
| Transcripts.TranscriptManager.HasFinalTranscript | modules/transcript-manager.js:88-90 | a final event with speech arrived since the last reset exactly when a segment is stored |
| Transcripts.TranscriptManager.SegmentsHaveSpeech | modules/transcript-manager.js:46-51 | every stored segment carries speech |
| UiState.UIStateManager.constructor | modules/ui-state-manager.js:5-24 | the page's status element and container are recorded and no status is written; an indicator is created only when the page has none, and is in the page only when a status container exists |
| UiState.UIStateManager.CreateProcessingIndicator | modules/ui-state-manager.js:29-42 | an existing indicator is reused; otherwise one is created and attached only when a status container exists |
| UiState.UIStateManager.SetRecordingState | modules/ui-state-manager.js:60-68 | exactly one of start and stop is enabled, and the recording indicator follows the flag |
| UiState.UIStateManager.SetProcessingState | modules/ui-state-manager.js:74-80 | only the processing indicator changes, and it follows the flag |
| UiState.UIStateManager.UpdateStatus | modules/ui-state-manager.js:86-91 | the status line shows the message when the page has a status element, and is unchanged otherwise |
| UiControl.TagsAreBorderFree | modules/ui-controller.js:235-236 | neither tag has a proper prefix that is also its suffix, so the first occurrence after a tag-free prefix is right after it |
| UiControl.TagIndices | modules/ui-controller.js:235-236 | for a reply with tags in order, `indexOf` finds each tag just after the text before it |
| UiControl.DisplayOfTaggedReply | modules/ui-controller.js:234-243 | a reply with its tags in order is displayed as the trimmed text strictly between them |
| UiControl.DisplayOfUntaggedReply | modules/ui-controller.js:234-243 | a reply lacking either tag is displayed verbatim |
| UiControl.SpeechOfTaggedReply | modules/ui-controller.js:262-281 | for a tagged reply, the character after `<end>` is skipped and the trimmed remainder is spoken, or nothing when it is blank |
| UiControl.NoSpeechWhenReplyEndsWithTag | modules/ui-controller.js:270-280 | a reply that ends with the end tag speaks nothing |
| UiControl.SpeechOfUntaggedReply | modules/ui-controller.js:262-268 | a reply lacking either tag is spoken whole, even when blank |
| UiControl.StopWaitIsConfigured | modules/ui-controller.js:155 | the literal wait of the stop path equals the configured final-transcript wait |
| UiControl.UIController.constructor | modules/ui-controller.js:11-39 | after construction and `init`, start is enabled, stop is disabled, no indicator is active, the status reads "Ready to record", and the transcript is empty with no socket, no requests, the player hidden and no time waited |
| UiControl.UIController.SetInitialState | modules/ui-controller.js:70-75 | the idle buttons are shown, the indicator is off, the status is "Ready to record" and the transcript is reset; the controller's own fields and the processing indicator elements are untouched |
| UiControl.UIController.StartRecording | modules/ui-controller.js:80-97 | the transcript is reset and the player hidden; with the microphone granted a connecting socket exists, and otherwise the start error is shown and the socket is unchanged; the buttons, both indicators, the capture flag, the requests and the time waited are as before |
| UiControl.UIController.OnOpen | modules/ui-controller.js:103-113 | the socket is open, capture runs, the buttons show recording and the status says connected; the microphone stream, the player, the requests and the processing indicator are as before |
| UiControl.UIController.OnAudioFrame | modules/ui-controller.js:108-111 | a frame is sent exactly when capturing and the socket is open |
| UiControl.UIController.OnMessage | modules/ui-controller.js:115-119 | the accumulator takes exactly one specification step on the event |
| UiControl.UIController.OnError | modules/ui-controller.js:129-132 | the status reports the connection error |
| UiControl.UIController.ConvertToSpeech | modules/ui-controller.js:256-292 | a tagged reply with a blank remainder sends nothing; otherwise the speech text is sent and the status reports the synthesis error, the playback error, or that the audio is ready; the indicator ends off |
| UiControl.UIController.Speak | modules/ui-controller.js:272-291 | as for ConvertToSpeech, once the text to speak is chosen |
| UiControl.UIController.ProcessWithAI | modules/ui-controller.js:169-190 | the transcript is requested and shown as the user's message; on success the displayed reply is added and speech runs; on failure the error is shown and nothing is spoken |
| UiControl.UIController.StopRecording | modules/ui-controller.js:138-163 | capture stops, the idle buttons show, an open socket is closed, the wait happens exactly without a final transcript, and the snapshot taken first is processed if it carries speech or reported as no speech; the transcript, the sent frames and the processing indicator elements are untouched |
| UiControl.UIController.FinishStop | modules/ui-controller.js:152-162 | the wait happens exactly without a final transcript; a blank snapshot reports no speech and changes nothing else; otherwise it is processed |
| UiControl.UIController.OnClose | modules/ui-controller.js:121-127 | the socket is closed; while capturing, the stop path runs with the outcome StopRecording states (idle buttons, the wait, and the snapshot processed or reported as no speech); otherwise only the status changes and every other field is as before |
| UiControl.UIController.WaitNeverYieldsSpeech | modules/ui-controller.js:139-158 | the wait happens exactly when the snapshot already taken is blank, so waiting can never give it speech to send |
| UiControl.JoinNotBlank | modules/transcript-manager.js:81 | segments whose first one carries speech join into a transcript that carries speech |
| UiControl.TaggedReplyDisplay | modules/ui-controller.js:234-243 | `<start>Hi there<end> talk soon` is displayed as "Hi there" |
| UiControl.TaggedReplySpeech | modules/ui-controller.js:262-281 | the same reply speaks "talk soon", the text outside the tags |
| UiControl.FirstCharacterAfterEndTagIsDropped | modules/ui-controller.js:270 | `<start>Hi<end>Bye` speaks "ye": the character right after the end tag is lost |
| OpenAI.EffectivePromptType | modules/openai-service.js:76 | the option is used exactly when it is a non-empty string; otherwise the current type is used |
| OpenAI.ResolveRequest | modules/openai-service.js:76-98 | it fails exactly for an unconfigured prompt type, with the "Invalid prompt type" message; otherwise the request carries the transcript as the user's text |
| OpenAI.TokenBudget | modules/openai-service.js:83-88 | without a token option, grammar requests get 500 tokens and all other types get 256 |
| OpenAI.OptionsOverride | modules/openai-service.js:83-88 | a present option wins over the configured value, even when it is falsy |
| OpenAI.DefaultRequest | modules/openai-service.js:83-98 | without options, the request uses the global model and the current type's instructions and temperature |
| OpenAI.EmptyPromptTypeOptionIgnored | modules/openai-service.js:76 | an empty prompt-type option behaves as if it were absent |
| OpenAI.Describe | modules/openai-service.js:57-60 | one entry per key, in order, pairing each key with its configured name |
| OpenAI.InheritedNameAcceptedAsWritten | modules/openai-service.js:42 | the lookup as written is truthy for "toString", which is not a prompt type |
| OpenAI.OpenAIService.constructor | modules/openai-service.js:13-26 | the key is stored and the current type is the default, which is configured |
| OpenAI.OpenAIService.GetCurrentPromptConfig | modules/openai-service.js:32-34 | a valid service returns the current type's configuration, and never `undefined` |
| OpenAI.OpenAIService.SetPromptType | modules/openai-service.js:41-50 | the call succeeds exactly for a configured type, which becomes current; otherwise nothing changes; a configured current type stays configured |
| OpenAI.OpenAIService.GetAvailablePromptTypes | modules/openai-service.js:56-61 | one entry per configured type, in key order; every configured type is listed; each entry carries its configured name |
| OpenAI.OpenAIService.ProcessText | modules/openai-service.js:71-107 | nothing is sent exactly for an unconfigured type, which throws "Invalid prompt type"; otherwise the request sent is the one `ResolveRequest` builds from the current type and the options, carrying the transcript; a failed reply passes its error on; a successful reply comes back as its `trim()` |
| OpenAI.Create | modules/openai-service.js:13-26 | construction fails exactly for a missing or empty key, with the key-required message; otherwise the service is valid with the default type |
| OpenAI.ValidServiceResolves | modules/openai-service.js:71-98 | a valid service always sends a request for a call without options |
| Deepgram.NewService | modules/deepgram-service.js:12-18 | construction succeeds exactly for a present, non-empty key, and otherwise throws "Deepgram API key is required" |
| Deepgram.SplitJoin | modules/deepgram-service.js:26 | splitting text joined on a separator that no part contains gives back the parts |
| Deepgram.JoinSplit | modules/deepgram-service.js:26 | joining the pieces of a split gives back the text |
| Deepgram.ReadQueryString | modules/deepgram-service.js:26 | a query string reads back as the pairs it was written from, when no name holds `&` or `=` and no value holds `&` |
| Deepgram.ReadUrlOf | modules/deepgram-service.js:26 | an endpoint without `?` plus a query reads back as that endpoint and those pairs |
| Deepgram.ListenUrlShape | modules/deepgram-service.js:26 | the listen URL is the listen endpoint with encoding, sample rate and channels as its query |
| Deepgram.ListenUrlReads | modules/deepgram-service.js:26 | a listen URL splits back into the endpoint and the three parameters |
| Deepgram.ListenUrlRoundTrip | modules/deepgram-service.js:25-26 | every audio format whose encoding holds no `&` reads back from its listen URL |
| Deepgram.CreateWebSocket | modules/deepgram-service.js:24-32 | the socket URL carries the configured format, and the subprotocols are "token" then the key |
| Deepgram.UnescapeEscape | modules/deepgram-service.js:50 | the characters `JSON.stringify` writes for a text read back as that text |
| Deepgram.SpeakUrlShape | modules/deepgram-service.js:42 | the speak URL is the speak endpoint with the voice model as its one parameter |
| Deepgram.SpeakUrlRoundTrip | modules/deepgram-service.js:42 | a voice model without `&` reads back from the speak URL |
| Deepgram.ReadTokenOf | modules/deepgram-service.js:47 | the key reads back from the `Authorization` header |
| Deepgram.TextBodyRoundTrip | modules/deepgram-service.js:50 | every text reads back from the JSON body that carries it |
| Deepgram.SpeechRequest | modules/deepgram-service.js:42-51 | a POST of JSON whose URL names the configured voice, whose header carries the key and whose body carries the text |
| Deepgram.TtsErrorRoundTrip | modules/deepgram-service.js:53-56 | the status and the body read back from the error message, whatever the body holds |
| Deepgram.TextToSpeech | modules/deepgram-service.js:44-62 | a failed fetch passes its error on; an OK response yields its blob; any other response throws the message with its status and body |
| MainProcess.CannedFallback | main.js:135-147 | every unconfigured prompt type gets the fallback transcription |
| MainProcess.MainSpeaksDisplayedText | main.js:164-167 | for a reply with its tags in order, the main process speaks exactly what the page displays |
| MainProcess.UntaggedReplyAgrees | main.js:160-168 | a reply lacking either tag is spoken whole by both pipelines and displayed whole |
| MainProcess.TagsStartApart | main.js:165-166 | the first start tag and the first end tag never start at the same index |
| MainProcess.ReversedTagsSwap | main.js:164-167 | with the end tag first, `substring` swaps its bounds and the spoken text is the trimmed stretch from the end tag through the start tag |
| MainProcess.ReversedTagsAreSpoken | main.js:164-167 | with the end tag first, the spoken text is exactly that stretch, both tags included, and it starts with `<end>` |
| MainProcess.PipelinesSpeakDifferentParts | main.js:164-167 | for `<start>Hi<end>Bye` the main process speaks "Hi" and the page's controller speaks "ye" |
| MainProcess.SpeechMessage | main.js:170-175 | successful synthesis sends `audio-response` with the audio; a failure sends the synthesis error |
| MainProcess.Launch | main.js:48-92 | a missing OpenAI key, then a missing Deepgram key, quits; otherwise both services hold their keys with the default prompt type |
| MainProcess.MainApp.constructor | main.js:83-86 | the app holds both services and has sent, requested and spoken nothing |
| MainProcess.MainApp.SendPromptConfig | main.js:89-92 | the prompt configuration is sent |
| MainProcess.MainApp.OnStartRecording | main.js:114-119 | "recording-started" is sent |
| MainProcess.MainApp.OnSetPromptType | main.js:187-198 | a configured type becomes current and nothing is sent; any other type is reported as an error and changes nothing |
| MainProcess.MainApp.OnStopRecording | main.js:122-184 | the canned transcription is sent first and requested; a failed completion sends the error and speaks nothing; otherwise the trimmed reply is sent, the text chosen by `MainSpeechText` is synthesized, and the audio or the synthesis error follows |
| MainProcess.MainApp.Respond | main.js:153-179 | the completion step and what follows it, as for OnStopRecording |
| MainProcess.MainApp.Speak | main.js:158-175 | the chosen text is spoken and its audio or error message is sent |
| Renderer.PromptNameKnown | renderer.js:109-116 | the page knows a name for exactly the configured prompt types |
| Renderer.PromptNameIsButtonLabel | renderer.js:109-116 | the name shown for a configured type is that type's configured button label |
| Renderer.NormalizeAddsSlash | renderer.js:236-241 | on Windows, a `file://` URL with two slashes gains a third slash and keeps the rest |
| Renderer.NormalizeKeepsOthers | renderer.js:236-241 | every other URL, or any URL off Windows, is left as it is |
| Renderer.NormalizedFileUrlHasThreeSlashes | renderer.js:236-241 | on Windows, every `file://` URL comes out starting with `file:///` |
| Renderer.NormalizeIdempotent | renderer.js:236-241 | normalizing twice is normalizing once |
| Renderer.MarkActive | renderer.js:81-87 | exactly the buttons of the chosen type are active; types and texts are unchanged |
| Renderer.MarkActiveTwice | renderer.js:81-87 | the marking depends only on the last type chosen |
| Renderer.OneButtonActive | renderer.js:81-87 | with distinct button types, choosing a type some button has leaves exactly that button active |
| Renderer.Relabel | renderer.js:60-71 | each button keeps its type and state and shows the new label |
| Renderer.RelabelIdempotent | renderer.js:60-71 | relabelling with the same table twice is relabelling once |
| Renderer.ConfiguredLabels | main.js:91 | the label table the main process sends has exactly the configured types as keys |
| Renderer.ConfiguredLabelsAreNames | renderer.js:60-71 | with the sent configuration, a configured button shows the name the page gives its type; any other button keeps its text |
| Renderer.Page.constructor | renderer.js:16-18 | the page starts idle with the default prompt type, no status messages, no transcript and no requests; whether it has a status container is recorded |
| Renderer.Page.UpdateStatus | renderer.js:199-201 | the status line shows the message, which is appended to the log |
| Renderer.Page.SetPromptType | renderer.js:78-102 | exactly the buttons of the type become active; the type becomes current and is saved without a check; the mode switch is shown; the main process is told when the bridge exists |
| Renderer.Page.Initialize | renderer.js:21-35 | a truthy saved type is selected again; the configuration is requested when the bridge exists |
| Renderer.Page.UpdateButtonLabels | renderer.js:53-72 | without a configuration or its table nothing changes; otherwise every button is relabelled from the table |
| Renderer.Page.StartRecording | renderer.js:129-142 | nothing happens while recording; otherwise recording starts, the buttons swap, and the main process is told |
| Renderer.Page.StopRecording | renderer.js:147-162 | nothing happens unless recording; otherwise recording stops, processing is shown, and the main process is told unless showing processing threw |
| Renderer.Page.ShowProcessingIndicator | renderer.js:167-180 | processing is flagged and shown; a missing indicator is created when the page has a status container, and the indicator ends active; without either, the call throws and no indicator exists |
| Renderer.Page.HideProcessingIndicator | renderer.js:185-193 | an existing indicator is made inactive, none is created, and "Ready to record" is shown |
| Renderer.Page.OnTranscription | renderer.js:276-278 | the text is added as the user's entry |
| Renderer.Page.OnAiResponse | renderer.js:281-284 | the reply is added as the assistant's entry and processing ends |
| Renderer.Page.OnAudioResponse | renderer.js:287-290 | the audio element gets the normalized URL and processing ends |
| Renderer.Page.OnPromptConfigUpdate | renderer.js:293-296 | the button labels are updated from the configuration |
| Renderer.Page.OnError | renderer.js:299-303 | the error is shown and at once replaced by "Ready to record" as processing ends |

## Left out

- Electron window creation, the `activate` and `window-all-closed` life cycle, development tools and the preload bridge's own code: they are platform plumbing. The bridge is a flag saying whether it exists.
- The audio capture, recording and playback modules (`modules/audio-processor.js`, `modules/audio-recorder.js`, `modules/audio-manager.js`) are not part of this model. They are Web Audio and media-element I/O. The controller records which frames it sends and takes the playback outcome as a parameter.
- Network I/O is left out: the WebSocket transport, the chat-completion call and `fetch`. Their outcomes are parameters, and the requests are recorded as values.
- Timers and asynchronous interleaving are left out. The one-second wait in the stop path is a counter of elapsed milliseconds. Events that could arrive during an `await` are not interleaved.
- The renderer's playback callbacks, its 500 ms retry and the `catch` in `playAudioResponse` are left out, because they concern the media element alone. Only the source the audio element is given is modelled.
- The `catch` around constructing the services (`main.js:77-81`) cannot be reached once both keys were checked, so it is left out. The outer `catch` of `stop-recording` (`main.js:180-183`) is left out because nothing modelled inside it throws.
- Console logging and the `[DEBUG]` reports are left out.
- JavaScript strings are sequences of UTF-16 code units, but here they are sequences of characters. A lone surrogate cannot be represented, and the JSON escape of one is read back as no character.
- Query values in the listen and speak URLs are not URL-encoded by the code. The round-trip lemmas therefore require that values hold no `&`.
- Temperatures are exact reals, not IEEE doubles.
- Config.Instructions: the three system prompts are kept as a datatype whose `Text()` yields the configured wording. Contracts compare instructions rather than the long texts.
- MainProcess.MainApp.OnStopRecording: the speech request is recorded through the text it speaks (`spoken`). The request built from a text is `Deepgram.SpeechRequest`, whose contract is proved separately.
- Renderer.Page.OnAudioResponse: the main process sends the audio Blob that `textToSpeech` returns (`main.js:170-171`), but the page treats the value as a URL string. The model gives the page a string and does not model how a Blob would be turned into one.
- Renderer.PromptName: looks up its own keys. As written, the lookup would also find inherited names such as "toString" (see Findings), but there it would return a function rather than "Unknown Mode".
- Renderer.Page.constructor: the initial states of the buttons, the saved prompt type, the existing processing indicator and the presence of a `.status-container` are parameters describing the loaded page. The start and stop buttons, the recording indicator, the audio element, the `#status` element (renderer.js:9) and the `#transcript` element (renderer.js:11) are taken to exist, and the prompt buttons to carry a `data-prompt-type`. So `Page.UpdateStatus` and `Page.OnTranscription` never throw.
- UiState.UIStateManager.constructor: the buttons and the recording indicator are taken to exist. When they are missing, the code throws on `setRecordingState`, and that is not modelled.
- The `get-prompt-config` handler and the `did-finish-load` send are both `MainProcess.MainApp.SendPromptConfig`. The configuration object is not serialized.

## Findings

| source | as written | input that shows it | evidently intended | confidence | as-written member | corrected member |
|---|---|---|---|---|---|---|
| modules/openai-service.js:42 | `this.promptTypes[promptType]` is truthy for names every object inherits, so `setPromptType` accepts them (and `processText` at line 77 does not reject them) | `setPromptType("toString")` returns true and makes "toString" the current prompt type | only the configured prompt types are accepted | not executed | OpenAI.InheritedNameAcceptedAsWritten | OpenAI.OpenAIService.SetPromptType |
