# On-device inference session layer, modelled in Dafny

This project models the inference layer of a React Native app that runs a
language model on the phone. The chat screen talks to a TypeScript session
layer. That layer talks to one of two native engines:

- a MediaPipe "Gemma" module, with separate Android and iOS implementations;
- an MLX "FastVLM" module on iOS.

Each core source file has its own Dafny module:

| Dafny file | models |
|---|---|
| `BaseInference.dfy`, `TokenFilter.dfy` | `src/inference/BaseInference.ts`: the shared state of one backend, the special-token filter, the streaming listener, and the stop and unload paths |
| `GemmaInference.dfy` | `src/inference/GemmaInference.ts` |
| `FastVLMInference.dfy` | `src/inference/FastVLMInference.ts` |
| `VLMInference.dfy` | `src/inference/VLMInference.ts`: routing by platform, and the layer's own initialisation flag |
| `ModelUtils.dfy` | `src/utils/modelUtils.ts`: the model paths, the existence check, the download decision and the network-error text |
| `FastVLMModule.dfy` | `ios/FastVLMModule.swift`: the busy flag, task cancellation, and the chunks the token callback emits |
| `AndroidGemmaModule.dfy` | `android/.../GemmaModule.kt`: the model, the session and the generation job, followed through every path a job can take |
| `IosGemmaModule.dfy` | `ios/LAI/GemmaModule.swift`: the engine handle and the `isGenerating` flag |
| `ChatApp.dfy` | the chat-list logic of `App.tsx` |

Three helper modules are shared by the others:

- `Wrappers.dfy`: `Option`, `Outcome` and `Result`.
- `JsStrings.dfy`: the JavaScript string operations the source uses (`trim`, `startsWith`, `includes`, `slice`), plus subsequences and concatenation.
- `Bridge.dfy`: how a native promise settles, and what native code learns about an image file.

State that the source updates in place is a Dafny `class` with the same fields.

- Methods change only what their `modifies` clause names.
- Each method is specified against a pure function of its inputs and its old state.
- The properties of those functions are proved as lemmas.

What the code does not control is passed in as a parameter:

- how an engine call ends (`Outcome`, `Result`);
- the events and token snapshots an engine produces;
- file-system facts (`present`, `length`, `ImageFile`);
- clock readings used as identifiers;
- the access token used for the download.

Each native call, callback and job step is one atomic method. The caller picks the interleaving.

Some behaviour of the code, as written, is worth knowing. The last four cases below are each shown by a method in the model.

- Special-token filter (`TokenFilter`). Each list entry becomes a regular expression, so `'<|endoftext|>'` is the alternation `<` | `endoftext` | `>`. The passes run one after another, and each deletes the matches present in the text it receives. With the default list, no `<` or `>` survives (`TokenFilter.DefaultsStripAngles`), but a word can: in `im_endoftext` the `endoftext` pass runs first and leaves `im_`. Applying it twice can remove more than applying it once: for example, `endo<ftext` becomes `endoftext`, which a second run deletes.
- FastVLM stale finish (`FastVLMModule.StaleFinishAdmitsThird`). A stopped task that ends after a newer task has started still clears the busy flag. A third request is then accepted while the newer task is still running.
- Android stale `finally` (`AndroidGemmaModule.StaleEndOrphansNewerJob`). When an older Android job ends, its `finally` block clears the session and job handles of the newer job. After that, `stopGeneration` cannot reach the newer job.
- iOS stop does not stop output (`IosGemmaModule.StopDoesNotSilence`). On iOS, `stopGeneration` and `unloadModel` do not stop a request that was already accepted. That request still streams all of its output.
- Reply overwrites a new chat (`ChatApp.ChatCreatedWhileWaitingIsLost`). In `App.tsx` the reply is written into the chat list as it was when the message was sent. A chat created while the reply was pending is therefore lost. This scenario assumes a working `generate`: as written, `App.tsx` calls `GemmaInference.generate`, which does not exist, so every send ends in the catch block and the reply branch never runs.

## Model

| member | source | states |
|---|---|---|
| BaseInference.NormalizePath | src/inference/BaseInference.ts:73-75 | a `file:///` path loses exactly `file://` and keeps its leading `/`; any other path is returned unchanged |
| BaseInference.NormalizePathIdempotent | src/inference/BaseInference.ts:73-75 | normalising twice gives the same path as normalising once |
| BaseInference.Forward | src/inference/BaseInference.ts:103-110 | the listener forwards a token exactly when the token and its filtered form are both non-empty, and then it forwards the filtered form |
| BaseInference.ForwardAll | src/inference/BaseInference.ts:101-111 | the listener forwards at most one fragment per event, and never an empty one |
| BaseInference.FilterEach | src/inference/BaseInference.ts:105 | the i-th result is the i-th event's token, filtered |
| BaseInference.ForwardAllConcat | src/inference/BaseInference.ts:103-110 | skipping empty tokens loses no text: the forwarded fragments join to the same text as all filtered tokens |
| BaseInference.StreamGuards | src/inference/BaseInference.ts:82-99 | the checks "not initialised", "no native module" and "blank prompt" fail in that order; a native call is made exactly when all guards and the emitter check pass; nothing is forwarded without one |
| BaseInference.StreamCleanup | src/inference/BaseInference.ts:94-125 | once past the guards, no listener remains whatever happens; a failure carries the `Generation failed: ` prefix; success happens exactly when the emitter exists and the native call resolves |
| BaseInference.DispatchChoice | src/inference/BaseInference.ts:113-118 | a non-blank image path goes to `generateWithImage` with the path normalised; anything else goes to `generate` with the same prompt |
| BaseInference.StreamForwardsFilteredText | src/inference/BaseInference.ts:101-118 | after a native call, the text passed to `onToken` is the filtered text of every emitted event |
| BaseInference.InitializeEnablesStreaming | src/inference/BaseInference.ts:32-41 | once a backend's module is found and its load resolves, a non-blank prompt reaches the module and the call settles as the native generation does; after a failed load every request is refused as not initialised |
| BaseInference.StopAndUnloadSettle | src/inference/BaseInference.ts:128-148 | a stop that resolves leaves no listener; after an unload that resolves, `generateStreaming` is refused as not initialised |
| BaseInference.Inference.InitializeModule | src/inference/BaseInference.ts:32-41 | records the config; looks the module up by name; fails with `<name> is not available` when it is missing; creates the emitter only when it is found |
| BaseInference.Inference.FilterSpecialTokens | src/inference/BaseInference.ts:43-64 | the loop applies one removal pass per list entry, in order, and returns `TokenFilter.Filter` of the text |
| BaseInference.Inference.OnGenerateToken | src/inference/BaseInference.ts:103-110 | the listener's result is `Forward` of the token |
| BaseInference.Inference.Deliver | src/inference/BaseInference.ts:101-111 | the fragments passed to `onToken`, for a run of events, are `ForwardAll` of them |
| BaseInference.Inference.RemoveTokenListener | src/inference/BaseInference.ts:66-71 | afterwards no subscription exists; nothing else changes |
| BaseInference.Inference.GenerateStreaming | src/inference/BaseInference.ts:77-126 | the forwarded fragments, the outcome, the native call and the final subscription state are those given by `Stream` on the old state |
| BaseInference.Inference.StopGeneration | src/inference/BaseInference.ts:128-135 | fails without a module; otherwise calls native stop; removes the listener only if the stop resolves; a rejection propagates unchanged |
| BaseInference.Inference.Unload | src/inference/BaseInference.ts:137-148 | does nothing unless initialised; fails without a module; the flag is cleared exactly when the native unload resolves |
| BaseInference.Inference.IsModelLoaded | src/inference/BaseInference.ts:150-152 | returns the initialisation flag |
| TokenFilter.RemovePass | src/inference/BaseInference.ts:60 | one `replace(new RegExp(token, 'g'), '')` only deletes characters: its result is a subsequence of its input |
| TokenFilter.FilterOnlyDeletes | src/inference/BaseInference.ts:43-64 | filtering with any token list gives a subsequence of the text, no longer than the text |
| TokenFilter.FilterEmpty | src/inference/BaseInference.ts:43-64 | the empty string filters to itself |
| TokenFilter.ConfiguredTokensOnly | src/inference/BaseInference.ts:57 | a configured list (even an empty one) replaces the defaults; an empty list leaves the text unchanged |
| TokenFilter.DefaultsStripAngles | src/inference/BaseInference.ts:47-61 | with the default list, the output contains no `<` and no `>` |
| TokenFilter.DefaultsKeepPlainText | src/inference/BaseInference.ts:47-61 | with the default list, text without angle brackets and without the words `endoftext`, `im_start` and `im_end` is returned unchanged |
| TokenFilter.AlternationDropsAngles | src/inference/BaseInference.ts:51-54 | where the word `w` does not occur, the alternation of `<`, `w` and `>` deletes exactly the angle brackets |
| TokenFilter.SingleTokenFilter | src/inference/BaseInference.ts:57-61 | a one-token list runs exactly that token's single pass |
| TokenFilter.FilterRemovesEos | src/inference/BaseInference.ts:57-61 | with the list `["<eos>"]`, the text `x + "<eos>" + w` filters to `x + w` |
| TokenFilter.FilterKeepsAbsentToken | src/inference/BaseInference.ts:57-61 | a literal token that does not occur, or is longer than the text, leaves the text unchanged |
| GemmaInference.InitOutcomeCases | src/inference/GemmaInference.ts:11-41 | `initialize` succeeds exactly when the file exists, the module can load and the load resolves; a missing file is reported first, then a missing module, then the load error with its prefix |
| GemmaInference.GemmaInference.Initialize | src/inference/GemmaInference.ts:11-41 | a missing file changes nothing; otherwise the path and config are recorded, the module is looked up and its emitter created, `loadModel(path)` is called once when the module can load, and the flag becomes exactly "the load resolved"; the whole new backend state is `AfterInit` of the old |
| GemmaInference.InitServesRequests | src/inference/GemmaInference.ts:11-41 | after an `initialize` that succeeds, `generateStreaming` with a non-blank prompt reaches the native module |
| GemmaInference.GemmaInference.GetModelPath | src/inference/GemmaInference.ts:43-45 | returns the path recorded by the last `initialize` that passed the file check |
| GemmaInference.InitializeTwice | src/inference/GemmaInference.ts:11-33 | a second `initialize` calls `loadModel` again, and the flag follows the second load |
| FastVLMInference.InitOutcomeCases | src/inference/FastVLMInference.ts:8-27 | `initialize` succeeds exactly when the module can load and the load resolves; a load error keeps its message behind the FastVLM prefix |
| FastVLMInference.FastVLMInference.Initialize | src/inference/FastVLMInference.ts:8-27 | records the config; looks the module up and creates its emitter; calls `loadModel()` when possible; the flag becomes exactly "the load resolved"; the whole new backend state is `AfterInit` of the old |
| FastVLMInference.InitServesRequests | src/inference/FastVLMInference.ts:8-27 | after an `initialize` that succeeds, `generateStreaming` with a non-blank prompt reaches the native module |
| VLMInference.Wrap | src/inference/VLMInference.ts:53-57 | success passes through; every failure gains the `Failed to initialize VLM: ` prefix, followed by the original message |
| VLMInference.ModelNameByPlatform | src/inference/VLMInference.ts:136-138 | the model name is `FastVLM` exactly when the platform is ios |
| VLMInference.VLMInference.Initialize | src/inference/VLMInference.ts:26-58 | ios runs FastVLM's initialise and leaves FastVLM's state `AfterInit` of the old; android without a path fails before Gemma is touched, and with a path runs Gemma's initialise, leaving Gemma's state and path as that initialise does; any other platform is unsupported; the other backend is untouched; the flag is exactly "succeeded" |
| VLMInference.VLMInference.GenerateStreaming | src/inference/VLMInference.ts:66-89 | refuses before initialisation; otherwise the platform's backend runs the request, its fragments, outcome, call log and subscription following `Stream`, and the other backend is untouched; fails on any other platform |
| VLMInference.VLMInference.StopGeneration | src/inference/VLMInference.ts:94-100 | stops the platform's backend, with no initialisation check: its stop call is logged and its listener removed when the stop resolves; does nothing on other platforms |
| VLMInference.VLMInference.Unload | src/inference/VLMInference.ts:105-117 | does nothing unless initialised; otherwise the platform's backend unloads (its unload call is logged and its flag cleared when the unload resolves); the layer's flag is cleared only when the backend's unload returns |
| VLMInference.IosInitializeThenGenerate | src/inference/VLMInference.ts:36-39 | on ios, an `initialize` whose load resolves lets the next `generateStreaming` reach FastVLM: the native calls are `loadModel()` and then `generate(prompt)`, and the result follows the native generation |
| VLMInference.VLMInference.IsModelLoaded | src/inference/VLMInference.ts:122-124 | returns the layer's own flag |
| VLMInference.VLMInference.GetModelInfo | src/inference/VLMInference.ts:143-153 | the result agrees with the platform, the model name (`FastVLM` on ios, `Gemma` elsewhere) and the loaded flag |
| ModelUtils.BasePath | src/utils/modelUtils.ts:12-15 | the external directory on android, the documents directory elsewhere |
| ModelUtils.PathLayout | src/utils/modelUtils.ts:16-17 | the model file is directly inside `.laiModels`, which is directly inside the base path |
| ModelUtils.RequestStoragePermission | src/utils/modelUtils.ts:27-31 | always grants |
| ModelUtils.CheckModelExists | src/utils/modelUtils.ts:33-43 | ios answers true without checking; otherwise the answer is the existence check's result, and false when the check fails |
| ModelUtils.DecimalRoundTrip | src/utils/modelUtils.ts:91 | the status code written in the error message reads back as the same number |
| ModelUtils.DownloadOutcomeCases | src/utils/modelUtils.ts:85-96 | the download resolves (to true) exactly for status 200; any other status is reported, and can be read back from the message; a transfer error is rethrown unchanged |
| ModelUtils.Storage.DownloadModel | src/utils/modelUtils.ts:45-97 | the models directory exists afterwards; one request is made to the model path with the token's header; the outcome is `DownloadOutcome` |
| ModelUtils.HandleNetworkError | src/utils/modelUtils.ts:99-116 | a non-Error value gives the default text; an Error gives its own message, unless the message mentions a network failure, which gives the fixed no-internet text |
| ModelUtils.FixedTextsNotNetwork | src/utils/modelUtils.ts:100-111 | neither fixed text mentions a network failure |
| ModelUtils.HandleNetworkErrorStable | src/utils/modelUtils.ts:99-116 | handling the handled text again (as an Error) changes nothing |
| FastVLMModule.ChunksConcat | ios/FastVLMModule.swift:131-151 | when every snapshot extends the previous one, the emitted chunks join to the latest snapshot: nothing is lost and nothing is sent twice |
| FastVLMModule.ChunksStep | ios/FastVLMModule.swift:142-151 | one more snapshot adds its tokens beyond the previous count as one chunk, when there are any |
| FastVLMModule.FastVLMModule.LoadModel | ios/FastVLMModule.swift:40-65 | loads only when no container exists; a load error is rejected with `LOAD_ERROR` and the FastVLM prefix |
| FastVLMModule.FastVLMModule.GenerateWithImage | ios/FastVLMModule.swift:77-96 | `MODEL_ERROR` without a container, then `BUSY_ERROR` while generating, both leaving the state unchanged; otherwise the previous task is cancelled and a fresh task becomes current |
| FastVLMModule.FastVLMModule.Generate | ios/FastVLMModule.swift:69-75 | the same as `GenerateWithImage`, with no image |
| FastVLMModule.FastVLMModule.PrepareInput | ios/FastVLMModule.swift:100-123 | a nil or empty path means text only; otherwise the image must load, or the task fails with `Failed to load image` |
| FastVLMModule.FastVLMModule.OnTokens | ios/FastVLMModule.swift:137-157 | a cancelled task stops and sends nothing; otherwise the tokens beyond the last count are sent and the count moves on; generation stops at 240 tokens; the task keeps "sent = chunks of the snapshots seen" |
| FastVLMModule.FastVLMModule.FinishTask | ios/FastVLMModule.swift:163-175 | the busy flag drops; output resolves; an error is reported with `GENERATION_ERROR` unless the task was cancelled |
| FastVLMModule.FastVLMModule.StopGeneration | ios/FastVLMModule.swift:181-190 | cancels and forgets the current task, clears the busy flag and always resolves |
| FastVLMModule.FastVLMModule.UnloadModel | ios/FastVLMModule.swift:194-204 | does what stop does, and also drops the container |
| FastVLMModule.StaleFinishAdmitsThird | ios/FastVLMModule.swift:88-96 | when a stopped task finishes after a newer task has started, a third request is accepted |
| AndroidGemmaModule.LoadChecksInOrder | android/app/src/main/java/com/lai/GemmaModule.kt:32-66 | loading succeeds exactly when the file exists, is non-empty and the engine is created; a missing file is reported before an empty one; every failure is `LOAD_ERROR` |
| AndroidGemmaModule.BeginChecks | android/app/src/main/java/com/lai/GemmaModule.kt:140-173 | a session opens exactly when the job is not cancelled, its image exists and decodes, and a model is present; `FILE_NOT_FOUND` comes first, then `INVALID_IMAGE`, both before any session; a text job never reports an image error |
| AndroidGemmaModule.EndCases | android/app/src/main/java/com/lai/GemmaModule.kt:113-119 | a job completes exactly when it was not cancelled and met no engine error; every other ending is `GENERATE_ERROR` or `CANCELLED` |
| AndroidGemmaModule.GemmaModule.LoadModel | android/app/src/main/java/com/lai/GemmaModule.kt:32-66 | the reply is `LoadReply`; only a successful load sets the model; nothing else changes |
| AndroidGemmaModule.GemmaModule.Generate | android/app/src/main/java/com/lai/GemmaModule.kt:68-75 | `NO_MODEL` with no model, before any job exists; otherwise a new job becomes current with no busy check, and the previous job is left running |
| AndroidGemmaModule.GemmaModule.GenerateWithImage | android/app/src/main/java/com/lai/GemmaModule.kt:133-140 | the same as `Generate`, for a request that carries an image path |
| AndroidGemmaModule.GemmaModule.BeginJob | android/app/src/main/java/com/lai/GemmaModule.kt:75-91 | the job either becomes the streaming session, or settles with `BeginReply` and its `finally` clears the session and job |
| AndroidGemmaModule.GemmaModule.OnPartialResult | android/app/src/main/java/com/lai/GemmaModule.kt:99-107 | every partial result is sent as one event, whether the job was cancelled or not |
| AndroidGemmaModule.GemmaModule.EndJob | android/app/src/main/java/com/lai/GemmaModule.kt:109-123 | the job settles with `EndReply`; afterwards the session and job are both cleared |
| AndroidGemmaModule.GemmaModule.StopGeneration | android/app/src/main/java/com/lai/GemmaModule.kt:212-234 | cancels the current session if there is one, then the current job if there is one, and resolves; the handles stay; a failing session cancel rejects `STOP_ERROR` and changes nothing |
| AndroidGemmaModule.GemmaModule.UnloadModel | android/app/src/main/java/com/lai/GemmaModule.kt:236-257 | cancels and clears the session and job, then closes the model and leaves it null; a failing close rejects `UNLOAD_ERROR` |
| AndroidGemmaModule.StaleEndOrphansNewerJob | android/app/src/main/java/com/lai/GemmaModule.kt:120-123 | after an older job ends, the newer job is still streaming, and a later stop does not cancel it |
| IosGemmaModule.LoadChecksInOrder | ios/LAI/GemmaModule.swift:20-61 | loading succeeds exactly when the file exists, has a non-zero size and the engine is created; a missing file is reported first; a missing size counts as empty |
| IosGemmaModule.ImageChecksInOrder | ios/LAI/GemmaModule.swift:123-140 | the image passes exactly when it exists, decodes and converts; a missing file is `FILE_NOT_FOUND`; the other two failures are `INVALID_IMAGE` |
| IosGemmaModule.FirstSettlement | ios/LAI/GemmaModule.swift:80-101 | the first settlement (the one JavaScript sees) is the first error callback's rejection; without one, it is the thrown error or completion |
| IosGemmaModule.GemmaModule.LoadModel | ios/LAI/GemmaModule.swift:20-61 | the reply is `LoadReply`; only a successful load sets the engine |
| IosGemmaModule.GemmaModule.Generate | ios/LAI/GemmaModule.swift:63-73 | `NO_MODEL` without an engine; otherwise the request is queued, whatever `isGenerating` says |
| IosGemmaModule.GemmaModule.GenerateWithImage | ios/LAI/GemmaModule.swift:105-116 | the same as `Generate`, for a request with an image |
| IosGemmaModule.GemmaModule.RunGeneration | ios/LAI/GemmaModule.swift:73-102 | image checks come first, each rejection leaving the flag false; then every partial result is sent and the settlements are `Settlements`; the flag is false at the end |
| IosGemmaModule.GemmaModule.Deliver | ios/LAI/GemmaModule.swift:80-92 | the callback loop sends `Texts` as events and rejects once per error callback; the flag is still set only if no error callback arrived |
| IosGemmaModule.GemmaModule.StopGeneration | ios/LAI/GemmaModule.swift:171-190 | only clears the flag and resolves |
| IosGemmaModule.GemmaModule.UnloadModel | ios/LAI/GemmaModule.swift:192-212 | clears the flag, drops the engine and resolves |
| IosGemmaModule.StopDoesNotSilence | ios/LAI/GemmaModule.swift:171-190 | an accepted request still streams all of its partial results and completes after stop and unload |
| ChatApp.UpdateChatPointwise | App.tsx:97-107 | the chat-list map keeps length and order, updates every chat with the active id and leaves every other chat unchanged |
| ChatApp.UserMessageLands | App.tsx:97-107 | only the active chat changes; it gains exactly the user's message at the end; its title becomes `input.slice(0, 30)` when it had no messages and is kept otherwise |
| ChatApp.AiMessageLands | App.tsx:123-128 | the reply is appended to the active chat only, and no title changes |
| ChatApp.ExchangeAppendsBoth | App.tsx:97-128 | after a full exchange, the active chat ends with the user's message and then the reply; the other chats are unchanged |
| ChatApp.UserMessageCount | App.tsx:97-107 | sending adds one message per chat that carries the active id |
| ChatApp.CanSendCases | App.tsx:87-88 | a send goes ahead exactly when there is non-blank text or an image, an active chat, and a ready model |
| ChatApp.ChatScreen.InitModel | App.tsx:43-50 | the model becomes ready when initialising succeeds; a failure changes nothing |
| ChatApp.ChatScreen.LoadChats | App.tsx:52-59 | a stored list replaces the chats, and a non-empty one makes its first chat active; with nothing stored, nothing changes |
| ChatApp.ChatScreen.CreateNewChat | App.tsx:66-76 | an empty chat titled `New Chat` goes first and becomes active |
| ChatApp.ChatScreen.SetInput | App.tsx:213 | the input box holds the typed text |
| ChatApp.ChatScreen.SendMessage | App.tsx:86-112 | nothing changes when the guard fails; otherwise the user's message goes into the active chat and the input and image are cleared |
| ChatApp.ChatScreen.ReceiveReply | App.tsx:114-135 | a reply is appended to the list the send wrote; a failure keeps the chats as they are; the screen is no longer busy either way |
| ChatApp.ChatCreatedWhileWaitingIsLost | App.tsx:115-130 | a chat created while the reply is pending is gone once the reply lands |

## Left out

- The native engines (MediaPipe, MLX). Their results are parameters: load outcomes, events, token snapshots, callbacks, settlements.
- Concurrency. Coroutines, dispatch queues, Swift `Task`s and event-emitter threads are not modelled; each call, callback or job step is one atomic method, and the caller chooses the interleaving. The iOS Gemma module's serial queue is modelled only as first-in-first-out order among the generation requests.
- The Android `CountDownLatch` five-minute wait is folded into the end-of-job step.
- Android job cancellation is observed when a step starts, not at every suspension point.
- Floating-point download progress, the progress callback and console logging are not modelled.
- File-system calls (`RNFS.exists`, `mkdir`, `downloadFile`, `File`, `FileManager`) are reduced to the facts they report. A throwing `RNFS.exists` is modelled only for `checkModelExists`.
- The MLX random seed and the token decoder are not modelled. `FastVLMModule` models a chunk as the token ids it carries, not the decoded text.
- `TokenFilter.PatternOf`: a configured token is read as a literal string; only the three default tokens that contain `|` are modelled as alternations. Other regular-expression syntax in configured tokens is not modelled.
- AsyncStorage, JSON parsing, the image picker, the sidebar and rendering in `App.tsx` are not modelled. `LoadChats` takes the parsed list as a parameter.
- The disabled state of the send button (`loading || !modelReady`) is rendering, not part of `sendMessage`, so `SendMessage` does not check `loading`.
- `App.tsx` calls `GemmaInference.initialize()` with no model path, and calls `GemmaInference.generate(...)`, which does not exist on `GemmaInference` or `BaseInference`; as written that call throws a TypeError, which the catch block turns into the error reply. `ChatApp` takes both results as parameters (`InitModel`'s outcome and `ReceiveReply`'s result), so the failure branch covers the code as written and the success branch covers a working `generate`.
- ModelUtils.Storage.DownloadModel: the hard-coded access token is the parameter `token`. The permission-denied branch is not modelled, because `requestStoragePermission` always grants.
- ChatApp.UserMessageLands: a chat title is the first 30 characters of the input, counted as Unicode scalar values; `slice(0, 30)` counts UTF-16 code units, so text with characters outside the Basic Multilingual Plane (emoji) gets a shorter title, possibly ending in a lone surrogate, in the source. The same holds for `ChatApp.WithUserMessage` and `ChatApp.ChatScreen.SendMessage`.
- IosGemmaModule.FirstSettlement: the MediaPipe `generateResponse` call is taken as blocking, making all of its partial and error callbacks before it returns or throws; the settlement order, the first settlement JavaScript sees, and `StopDoesNotSilence`'s completion rest on that. An engine that called back after returning would resolve first and the later rejections would be dropped; that ordering is not modelled.
- AndroidGemmaModule.BeginReply: a null Kotlin exception message is modelled as the empty string.
- Error values are modelled only by their messages; stack traces and the third argument of `reject` are not modelled.
- Native registration glue (`GemmaPackage.kt`, `src/inference/index.ts`) is not part of this model.
