# AI-vector in Dafny

A model of the logic of AI-vector, a browser application that restyles an
uploaded picture with the Gemini image model. It covers:

- the application component (`App.tsx`): its state record and
  `appReducer`, the upload and generate handlers as dispatch sequences
  against that state, and the download file name;
- the generation service (`services/geminiService.ts`):
  - `withRetry`, the rate-limit retry loop with exponential backoff;
  - the prompt builder (`getShadingPrompt`, `getStylePrompt` and the
    section assembly);
  - the four calls of `generateVectorImage`, the filtering of their
    responses, and the choice of the error thrown;
- the comparison view (`components/ComparisonView.tsx`):
  - the generate button's enabled state, label and tooltip;
  - which parts of the view are shown;
  - the drag-and-drop counter of the upload panel.

The remote model is a parameter: `remote(request, slot, k)` is what the
k-th call of call slot `slot` returns or throws. The file reader's result
and the current time (as an ISO string) are parameters too.

Files:

- `types.dfy`: the style, shading and background enumerations, nullable
  values, and what a `throw` carries.
- `jstext.dfy`: the JavaScript string operations the code relies on.
  These are truthiness, `includes`, `startsWith`, `join`, `trim` and a
  global character-class `replace`.
- `retry.dfy`: `withRetry`. A method runs the loop; it is proved equal to a
  function whose properties are lemmas.
- `prompt.dfy`: the prompt builder. `ComposePrompt` pushes the sections as
  the code does; `PromptText` specifies it.
- `responses.dfy`: which response yields an image, the filtered list, and
  the error choice.
- `generation.dfy`: `generateVectorImage` as a method over the remote model.
- `comparison.dfy`: the view's gating and visibility rules, and the
  `DropZone` class holding the drag counter and the overlay flag.
- `app.dfy`: the state, the reducer, and the `AppComponent` class whose
  methods dispatch actions. It also links the reducer's state to the view.

## Model

| member | source | states |
|---|---|---|
| `JsText.Includes` | services/geminiService.ts:32-34 | `s.includes(sub)` holds exactly when `sub` occurs in `s` at some index |
| `JsText.JoinStartsWith` | services/geminiService.ts:130 | a list of two or more parts joined by a separator begins with the first part, the separator and the second part |
| `JsText.JoinEndsWith` | services/geminiService.ts:130 | a joined list ends with its last part, preceded by the separator when there are two or more parts |
| `JsText.TrimUntouched` | services/geminiService.ts:130 | `trim` leaves a string alone when its first and last characters are not whitespace |
| `JsText.JoinTrimUntouched` | services/geminiService.ts:130 | joining parts whose first part starts and last part ends without whitespace gives a string `trim` leaves alone |
| `JsText.ReplaceAll` | App.tsx:138 | the global character-class replace keeps the length and replaces exactly the characters of the class |
| `Retry.IsRateLimitError` | services/geminiService.ts:30-34 | the rate-limit test; `Retry.UpperCaseStatusAloneIsNotRetried` shows its case sensitivity |
| `Retry.RetryFrom` | services/geminiService.ts:24-47 | the retry run from a given attempt; `Retry.RetryFromContract` states its properties |
| `Retry.RunRetry` | services/geminiService.ts:19-48 | the whole retry run; `Retry.RetryContract` states its properties |
| `Retry.WithRetry` | services/geminiService.ts:19-48 | the while loop returns the result, call count and delays of the run that `RunRetry` describes |
| `Retry.RetryContract` | services/geminiService.ts:24-47 | with `maxRetries <= 0`: no call, and the "max retries" error. Otherwise 1 to `maxRetries` calls. Every call but the last threw a rate-limit error and was followed by delay `initialDelay * 2^(k-1)`. The last call's value or error is the result, and an error is rethrown either because it is not a rate-limit error or because it came on the last attempt |
| `Retry.FirstSuccessWins` | services/geminiService.ts:25-27 | the first call that returns, after rate-limited failures only, ends the run with its value after k + 1 calls |
| `Retry.OtherErrorIsRethrown` | services/geminiService.ts:36-42 | an error that is not a rate-limit error is rethrown straight after the call that raised it, with no further call |
| `Retry.TwoRateLimitsThenSuccess` | services/geminiService.ts:36-39 | with the defaults, two "429" failures then a success: three calls, delays of 2000 ms and 4000 ms, the success returned |
| `Retry.RateLimitedThroughout` | services/geminiService.ts:36-42 | a rate-limit error on every call: three calls, delays 2000 and 4000 ms, and the third error rethrown |
| `Retry.UpperCaseStatusAloneIsNotRetried` | services/geminiService.ts:30-34 | the test is case-sensitive: a message that is only "RESOURCE_EXHAUSTED" is not a rate-limit error |
| `Prompt.ShadingPrompt` | services/geminiService.ts:64-72 | every shading level has a non-empty sentence |
| `Prompt.ShadingPromptInjective` | services/geminiService.ts:64-72 | the four shading sentences are pairwise different |
| `Prompt.BackgroundInstruction` | services/geminiService.ts:75-80 | ORIGINAL gives the fixed keep-background text; COLOR puts the colour at a fixed position |
| `Prompt.StylePrompt` | services/geminiService.ts:74-96 | every style prompt ends with a space and the background instruction, and the SKETCH prompt carries the shading sentence right after the sketch text |
| `Prompt.ShadingMattersOnlyForSketch` | services/geminiService.ts:82-96 | changing the shading level changes the style prompt if and only if the style is SKETCH |
| `Prompt.ColorInstructionInjective` | services/geminiService.ts:76-77 | two different colours give two different COLOR instructions |
| `Prompt.ColorMattersOnlyForColorBackground` | services/geminiService.ts:75-96 | changing the colour changes the style prompt if and only if the background style is COLOR |
| `Prompt.StyleLead` | services/geminiService.ts:82-96 | the part of the style prompt before the background instruction; `Prompt.StylePrompt` and `Prompt.ShadingMattersOnlyForSketch` state its properties |
| `Prompt.Sections` | services/geminiService.ts:109-128 | the pushed sections for a style instruction; `Prompt.SectionLayout` states their layout |
| `Prompt.PromptText` | services/geminiService.ts:107-130 | the joined and trimmed prompt; `Prompt.ComposePrompt` computes it and `Prompt.PromptShape` states its shape |
| `Prompt.ComposePrompt` | services/geminiService.ts:107-130 | pushing the sections and joining them gives `PromptText` |
| `Prompt.SectionsDistinct` | services/geminiService.ts:109-128 | the fixed sections differ from each other, and the intro, line-thickness, exclusion and output sections each differ from every style section |
| `Prompt.SectionLayout` | services/geminiService.ts:109-128 | for any style instruction, exactly 3 sections, plus one when the style is not SKETCH and one more for GHIBLI or PIXAR: the intro, then the style section. The line-thickness section is present if and only if the style is not SKETCH, and comes third when present. The exclusion section is present if and only if the style is GHIBLI or PIXAR. The output rules always come last |
| `Prompt.PromptShape` | services/geminiService.ts:109-130 | for any style instruction, trimming changes nothing; the prompt starts with the intro, a blank line and the style section, and ends with a blank line and the output rules |
| `Responses.FindInlinePart` | services/geminiService.ts:165 | `find` returns the first part carrying inline data, or nothing when no part carries any |
| `Responses.ImageOf` | services/geminiService.ts:162-174 | the image one response yields; `Responses.ImageOfMeetsAcceptance` characterises it |
| `Responses.ImageOfMeetsAcceptance` | services/geminiService.ts:162-167 | a response yields image `x` exactly when: its first candidate exists; the candidate finished with "STOP" or no reason; and the first part carrying inline data has the non-empty data `x` |
| `Responses.OnlyFirstInlinePartCounts` | services/geminiService.ts:165-166 | an empty first inline part hides a later part's data |
| `Responses.OtherFinishReasonYieldsNothing` | services/geminiService.ts:164-173 | a candidate that stopped for another reason yields no image, whatever its parts |
| `Responses.AcceptedImages` | services/geminiService.ts:161-175 | there are no more images than responses |
| `Responses.AcceptedImagesInOrder` | services/geminiService.ts:161-175 | the images are those of the responses that yield one, in response order, each once |
| `Responses.NoImagesIffNoneYield` | services/geminiService.ts:175-177 | the image list is empty exactly when no response yields an image |
| `Responses.FailureMessage` | services/geminiService.ts:181-199 | the message thrown when no image was accepted is never empty |
| `Responses.FailureMessageCases` | services/geminiService.ts:182-199 | the message is the fixed prefix, the first candidate's finish reason and a full stop, and nothing else (its length is exactly theirs). Failing that, it is the response text. Failing that, it is the generic message |
| `Responses.FirstRejection` | services/geminiService.ts:159 | the first call in order that threw, or none when all returned |
| `Responses.Rethrown` | services/geminiService.ts:191-196 | an `Error` is rethrown unchanged and anything else becomes an `Error` |
| `Responses.Settle` | services/geminiService.ts:158-199 | the settling of the four outcomes; `Responses.SettleOutcomes` states its cases |
| `Responses.SettleOutcomes` | services/geminiService.ts:158-199 | what is thrown is always an `Error`, and any call that threw makes the generation throw the first such error. The result is a list of images exactly when every call returned and some response yields an image; the list is non-empty and no longer than the calls. Otherwise the first response's failure message is thrown |
| `Generation.SlotResults` | services/geminiService.ts:156 | there are four call slots |
| `Generation.RunSlots` | services/geminiService.ts:154-159 | the four `withRetry` runs give the slot outcomes, with 4 to 12 remote calls in all |
| `Generation.GenerateVectorImage` | services/geminiService.ts:98-199 | one request carries the model name, the image and `PromptText`. The outcome is `Generate`, and 4 to 12 remote calls are made |
| `Generation.GenerateOutcomes` | services/geminiService.ts:156-199 | one to four images, the filtered list of the slot responses. A slot that ends in an error makes the generation throw an `Error`. With every slot answered and no image, the first slot's failure message is thrown |
| `Generation.RateLimitedSlotFailsGeneration` | services/geminiService.ts:156-159 | a slot rate-limited on every call makes the whole generation throw |
| `ComparisonView.CanGenerate` | components/ComparisonView.tsx:173 | an image and a style are there; `ComparisonView.EnabledButtonMeansReady` uses it |
| `ComparisonView.IsGenerateButtonDisabled` | components/ComparisonView.tsx:174 | the button's disabled condition; `ComparisonView.EnabledButtonMeansReady` and `ComparisonView.TooltipText` state its consequences |
| `ComparisonView.GenerateButtonText` | components/ComparisonView.tsx:175 | "생성 중..." exactly while loading. Otherwise "다시 생성" exactly when images exist, and "생성하기" exactly when none do |
| `ComparisonView.TooltipText` | components/ComparisonView.tsx:177-193 | no tooltip exactly when the button is enabled or loading. Otherwise the upload message when there is no image, the style message when there is an image but no style, and the change-settings message when both are there |
| `ComparisonView.TooltipExplainsDisabledButton` | components/ComparisonView.tsx:177-193 | a disabled button with no generation running always has a non-empty tooltip, so the final `return null` is unreachable |
| `ComparisonView.EnabledButtonMeansReady` | components/ComparisonView.tsx:173-174 | an enabled button means: an image and a style are there; nothing is loading; and the settings changed or there are no images yet |
| `ComparisonView.ShowsLoader` | components/ComparisonView.tsx:243 | the loader condition; `ComparisonView.VisibilityExclusive` relates it to the others |
| `ComparisonView.ShowsErrorOverlay` | components/ComparisonView.tsx:244 | the error overlay condition; see `ComparisonView.VisibilityExclusive` |
| `ComparisonView.ShowsControls` | components/ComparisonView.tsx:256 | the controls condition; see `ComparisonView.VisibilityExclusive` |
| `ComparisonView.ShowsGallery` | components/ComparisonView.tsx:291 | the gallery condition; see `ComparisonView.VisibilityExclusive` |
| `ComparisonView.ShowsDownload` | components/ComparisonView.tsx:299 | the download button condition; see `ComparisonView.VisibilityExclusive` |
| `ComparisonView.ShowsShadingRow` | components/GenerationControls.tsx:128 | the shading row condition; `App.ShadingRowFollowsStyle` ties it to the reducer |
| `ComparisonView.VisibilityExclusive` | components/ComparisonView.tsx:243-299 | the loader and the error overlay never show together. The gallery and the download button show only when neither does. Without an image the button is disabled |
| `ComparisonView.DroppedUpload` | components/ComparisonView.tsx:165-170 | a drop uploads `files[0]` exactly when it exists and its type starts with "image/" |
| `ComparisonView.PickedUpload` | components/ComparisonView.tsx:128-132 | the file input uploads the first picked file, whatever its type |
| `ComparisonView.OnlyFirstDroppedFileCounts` | components/ComparisonView.tsx:160-171 | a non-image first file blocks a drop even when a later file is an image |
| `ComparisonView.DropZone.constructor` | components/ComparisonView.tsx:125-126 | the counter starts at 0 with no overlay |
| `ComparisonView.DropZone.DragEnter` | components/ComparisonView.tsx:137-144 | the counter goes up by one; the overlay comes on when the drag carries items. The counter invariant is kept |
| `ComparisonView.DropZone.DragLeave` | components/ComparisonView.tsx:146-153 | the counter goes down by one and the overlay goes exactly when it reaches 0. The invariant is kept when the counter was positive |
| `ComparisonView.DropZone.Drop` | components/ComparisonView.tsx:160-171 | the counter resets to 0, the overlay goes, and the upload is `DroppedUpload(files)` |
| `ComparisonView.NestedDrag` | components/ComparisonView.tsx:137-153 | entering the panel and then a child keeps the overlay up until the second leave |
| `ComparisonView.DragWithoutItems` | components/ComparisonView.tsx:137-153 | a drag without items counts but shows no overlay |
| `App.AppReducer` | App.tsx:21-68 | the reducer itself; its properties are `App.ReducerWritesOnly`, `App.SetImageEffect`, `App.SettingsActionsEffect`, `App.SelectionAndUnknownActions`, `App.GenerationStartEffect`, `App.GenerationOutcomesExclusive` and `App.ReducerIdempotent` |
| `App.FirstImage` | App.tsx:59 | the selection after a success: the first image when it exists and is not empty, else null |
| `App.ReducerWritesOnly` | App.tsx:21-68 | each action changes only the fields it is meant to write |
| `App.SetImageEffect` | App.tsx:23-34 | an upload sets the image and type, and clears the results, selection and error. It sets the style to GHIBLI, the background to ORIGINAL and marks the settings changed. It keeps the shading, colour and loading flag |
| `App.SettingsActionsEffect` | App.tsx:35-42 | each settings action records its value, touches nothing else, and marks the settings changed. A shading choice also selects SKETCH |
| `App.SelectionAndUnknownActions` | App.tsx:43-66 | selecting an image changes only the selection, and an unknown action changes nothing |
| `App.ReducerIdempotent` | App.tsx:21-68 | dispatching an action twice in a row is dispatching it once |
| `App.GenerationOutcomesExclusive` | App.tsx:45-62 | start then success gives results and no error; start then failure gives the prefixed error and no results. Either way loading stops and the settings count as unchanged |
| `App.GenerationStartEffect` | App.tsx:45-53 | a start turns loading on, clears error, results and selection, and marks the settings as used. It keeps the upload and settings. The view shows the loader and "생성 중...", with the button disabled and no tooltip |
| `App.SuccessAfterNewUploadIsKept` | App.tsx:23-60 | a success dispatched after a new upload installs its images next to the new image |
| `App.InitialViewAsksForImage` | App.tsx:7-19 | in the initial state the button is disabled, the tooltip asks for an image, and no controls are shown |
| `App.ShadingRowFollowsStyle` | App.tsx:30-38 | a shading choice brings up the shading row, and an upload hides it |
| `App.ResultKeptUnderKeepsResult` | App.tsx:43-64 | through actions that change no setting and start no generation, a non-empty result list remains (a success may replace it with another non-empty one), the settings stay marked as used, loading stays off if it was off, and style, shading, background and colour are unchanged |
| `App.ButtonDisabledUntilSettingsChange` | App.tsx:45-60 | after a successful generation the button stays disabled, loading stays off and a tooltip shows, through such actions. The next settings action marks the state changed and, when an image and a style are there, enables the button again |
| `App.DownloadFilename` | App.tsx:138 | the name is the prefix, the first 19 timestamp characters with ':' and 'T' turned into '-', and ".png" |
| `App.FilenameStampHasNoColonOrT` | App.tsx:138 | no ':' or 'T' is left between the prefix and the extension |
| `App.FilenameExample` | App.tsx:138 | "2024-05-01T12:34:56.789Z" gives "generated-image-2024-05-01-12-34-56.png" |
| `App.HandleDownload` | App.tsx:134-143 | a link exists exactly when an image is selected. It carries the image as a PNG data URL and `DownloadFilename(iso)` as its file name |
| `App.UploadActions` | App.tsx:78-87 | an upload first clears the error, then dispatches `SET_IMAGE` with the read payload and type, or the read-failure `SET_ERROR` |
| `App.ImageUploadEffect` | App.tsx:78-87 | after an upload loading is off. A failed read changes only the error, to the read-failure message. A successful one installs the image and type, clears results, selection and error, resets style and background, and keeps shading and colour |
| `App.ErrorText` | App.tsx:128 | the message of an `Error`, or the generic message for anything else; `App.AppComponent.Settled` and `App.ClickRuns` state its use |
| `App.ClickActions` | App.tsx:105-131 | the dispatches of a click; `App.ClickBlocked` and `App.ClickRuns` state what they do to the state |
| `App.GuardMessage` | App.tsx:106-113 | the click guard passes exactly when there is an image, a type and a style. A missing image or type is reported first, with the upload message; otherwise a missing style gets the select-style message |
| `App.GenerationRunEffect` | App.tsx:115-131 | a started generation ends with loading off and exactly one of results and error. The results are the images returned; the error is the prefixed message |
| `App.ClickBlocked` | App.tsx:106-113 | a stopped click dispatches only the guard's error: no start, loading off, results kept |
| `App.ClickRuns` | App.tsx:115-131 | a click that passes the guard ends with loading off and exactly one of results and error. The results are the one to four images of the generation |
| `App.EnabledButtonPassesGuard` | App.tsx:106-113 | an enabled button passes the guard whenever the image has a type |
| `App.EmptyMimeTypeBlocksEnabledButton` | App.tsx:106-109 | an image with an empty type enables the button, yet the click only reports the upload error |
| `App.AppComponent.constructor` | App.tsx:72 | the component starts from the initial state with nothing dispatched |
| `App.AppComponent.Dispatch` | App.tsx:72 | dispatch applies the reducer and records the action |
| `App.AppComponent.ImageUpload` | App.tsx:78-87 | an upload dispatches `UploadActions` and reaches their state |
| `App.AppComponent.Settled` | App.tsx:125-129 | the end of a click dispatches the success action with the images, or the failure action with the error's message (the generic message for a non-`Error`) |
| `App.AppComponent.GenerateClick` | App.tsx:105-132 | a click dispatches `ClickActions` and reaches their state. It makes no remote call exactly when the guard stops it, and at most twelve otherwise |

## Left out

- The long instruction sentences of the prompts are paraphrased in short
  constants. The intro, the section headers, the line-thickness sentence
  and the last output rule are kept word for word. The model keeps which
  pieces appear, where the user's values go, the order of the sections and
  how they are joined. The UI and error messages are kept word for word.
- The `default: return ""` branch of `getShadingPrompt` is not modelled:
  every level has its own case.
- `fileToBase64` (`FileReader`) is not modelled. Its result, the base64
  payload and the file type, or a read error, is a parameter of `ImageUpload`.
- The Gemini client, the `API_KEY` check and the network call are left
  out. The remote model is the parameter `remote`.
- The response `text` accessor is a field of the response, not derived from
  its parts.
- `Promise.all` runs the four calls at once and rejects with whichever
  rejection comes first in time. The model runs them in slot order and
  rethrows the first failing slot's error in slot order.
- The backoff delays are returned as numbers; nothing sleeps.
- `console.warn` and `console.error` output is not modelled.
- `Date`, the DOM link and its click are not modelled. The ISO timestamp is
  a parameter, and `HandleDownload` returns the link it would click.
- React's state batching, stale `useCallback` closures and overlapping
  generations are not modelled. The handlers run one at a time against the
  current state, and `GenerateClick` finishes its generation before
  anything else is dispatched.
- `handleDragOver` only cancels the browser's default and is not modelled.
- Rendering, CSS, icons, the loader component, the menu bar, and the option
  tables of the generation controls are not modelled. Only the
  shading-row condition of the controls is kept, as
  `ComparisonView.ShowsShadingRow`.
- The rate-limit test looks for the mixed-case literal "RESOURCE_EXHAUStED",
  exactly as the code spells it. An upper-case "RESOURCE_EXHAUSTED" alone is
  therefore not retried; `Retry.UpperCaseStatusAloneIsNotRetried` states this.
- The reducer does not drop a late result: a `GENERATION_SUCCESS`
  dispatched after a new upload still installs its images, as
  `App.SuccessAfterNewUploadIsKept` states.
- `ComparisonView.DropZone.DragLeave` keeps the counter invariant only when
  the counter was positive. A leave without a matching enter drives the
  counter below zero, as the code would.
