# NutritionChat conversation controller, modelled in Dafny

The page `app/page.tsx` is a chat in which a user says what they ate, by typing, speaking or
sending a photo. The page asks an analysis service for an estimate of the food and its
quantity. It shows that estimate as a confirmation message with two editable fields. Once the
user confirms, it asks a nutrition service for calories, macronutrients and a tip. This project
models the state machine behind that page. The `NutritionChat` component keeps the message log,
the loading flag, the pending confirmation with its two editable fields, the text input and the
two voice flags. It changes them in event handlers.

Files (each a module):

- `wrappers.dfy` (`Wrappers`): `Option`, standing for `undefined`/`null`.
- `js_text.dfy` (`JsText`): `String.prototype.trim` and the blank test `!s.trim()` used by every
  guard, with the whitespace set of ECMA-262 (the WhiteSpace and LineTerminator productions).
- `conversation.dfy` (`Conversation`): the message record, the texts the controller writes, and
  the filter that removes every confirmation-role message, with its lemmas.
- `voice.dfy` (`Voice`): the recognition error texts, the microphone icon and style, the
  secure-context rule, and the order of the checks made by a microphone click.
- `chat.dfy` (`Chat`): class `NutritionChat`, with one field per state variable of the
  component and one method per event. Every method states the whole new state as
  `old(State()).(field := ...)`, so any field it does not name is unchanged. `Valid()` is the
  invariant every method keeps:
  - identifiers increase along the log;
  - loading is on exactly while one service call is outstanding;
  - a pending confirmation names a confirmation message in the log and excludes loading;
  - a nutrition lookup in flight was made with the current fields;
  - the microphone is never recording and being prepared at once;
  - every message has the shape its role calls for (`WellFormed`): only confirmation messages
    carry an analysis result, only system messages nutrition data and only user messages an
    image.
- `scenarios.dfy` (`Scenarios`): client traces built from the method contracts. They cover the
  confirm round trip, an edited quantity, a failed analysis, a photo, a cancellation and the
  stale confirmation described below.

Modelling choices:

- Message identifiers are fresh naturals from the counter `nextId`. The code uses
  `Date.now()`, which can repeat. The welcome message gets 0.
- The two network calls are not modelled. Each handler is split at its `await`. The first half
  is a method that records the outstanding call, with its arguments, in the field `awaiting`.
  The outcome is the caller's choice of completion method: `AnalysisSucceeded(result)` or
  `AnalysisFailed()`, and `NutritionSucceeded(data)` or `NutritionFailed()`.
- Disabled controls become preconditions:
  - the text input (:653) becomes `InputEnabled`;
  - the camera and microphone (:658, :666) become `SubmitAllowed`;
  - the Confirm button (:520-522) becomes `ConfirmEnabled`;
  - the confirmation fields (:505, :516) and Cancel (:526) need a pending confirmation.
- `Send` stands for `handleSend`, which the Send button and the Enter key both call. The Enter
  key works whenever the input is enabled (:653), and the button needs that and more (:674), so
  `Send` requires `InputEnabled`.
- A microphone click takes the platform's answers as parameters: the page's location, the
  permission query result, whether the trial microphone stream opens, and whether the
  recognizer starts.

Behaviour of the code that a reader might not expect, which the model keeps as written:

- Confirming does not remove the confirmation message. It is removed only when the nutrition
  lookup succeeds (app/page.tsx:291-292). `ConfirmFood` leaves the log alone.
- Confirm success and cancel remove every confirmation-role message, not only the pending one.
  A failed lookup removes none.
- The number of confirmation messages in the log does not tell whether a confirmation is
  pending. A failed lookup leaves its confirmation message in the log, and the next estimate
  adds a second one. `StaleConfirmationAfterFailedLookup` reaches a state with two
  confirmation messages and one pending.
- An empty image URL counts as no image, by JavaScript truthiness (app/page.tsx:228, :234,
  :245). `HasImage` states this test, and `SendMessage` and `UploadImage` follow it.

## Model

| member | source | states |
|---|---|---|
| `JsText.Trim` | app/page.tsx:228 | The result is the slice `s[a..b]` of the input, where `s[..a]` and `s[b..]` are all whitespace, and it neither starts nor ends with whitespace: exactly the leading and trailing whitespace is removed |
| `JsText.TrimEmptyIffBlank` | app/page.tsx:228 | `!s.trim()` holds exactly when every character of `s` is whitespace |
| `Conversation.WithoutConfirmations` | app/page.tsx:292 | The filtered log holds exactly the messages of the log that are not confirmations, and is shorter by the number of confirmations |
| `Conversation.WithoutConfirmationsAppend` | app/page.tsx:292 | Filtering a concatenation is concatenating the filtered parts, so the kept messages keep their relative order |
| `Conversation.WithoutConfirmationsIdentity` | app/page.tsx:326 | A log without confirmations is left unchanged by the filter, so filtering is idempotent |
| `Conversation.WithoutConfirmationsKeepsIdsIncreasing` | app/page.tsx:326 | The filter keeps message identifiers in increasing order |
| `Conversation.WithoutConfirmationsKeepsIdsBelow` | app/page.tsx:292 | The filter introduces no identifier: a bound on the old identifiers bounds the new ones |
| `Conversation.ReplacingLeavesNoConfirmation` | app/page.tsx:325-336 | After filtering and appending one non-confirmation message, the log holds no confirmation message and is one longer than the messages kept |
| `Voice.VoiceErrorText` | app/page.tsx:128-148 | For an unknown code the sentence is "Error desconocido: ", then the code, then ". Intentá recargar la página.", so the code can be read back from a fixed place |
| `Voice.VoiceErrorTextInjective` | app/page.tsx:128-148 | Different error codes give different sentences: the five known codes each have their own, and unknown codes are told apart by the quoted code |
| `Voice.MicIconFor` | app/page.tsx:451-455 | Square exactly while recording, MicOff exactly while preparing and not recording, Mic exactly when idle |
| `Voice.MicButtonClasses` | app/page.tsx:457-461 | The button always has the base class, has the recording class exactly when the icon is Square, and has the processing class exactly when it is MicOff |
| `Voice.MicClickListensIff` | app/page.tsx:365-449 | A click starts the recognizer iff all hold: speech is supported, nothing is recording, the origin is HTTPS, localhost or 127.0.0.1 (:383), the permission query neither failed nor said denied, the microphone opens and the recognizer starts |
| `Voice.IsSecureOrigin` | app/page.tsx:383 | Voice capture is allowed over HTTPS, or on the host localhost or 127.0.0.1 whatever the protocol |
| `Voice.MicClickOutcome` | app/page.tsx:366-438 | A click is refused as unsupported exactly without speech recognition, only stops a recording exactly while recording, is refused as insecure exactly on an insecure origin, and tries the microphone exactly when the origin and the permission query let it through |
| `Voice.MicNotice` | app/page.tsx:367-447 | Every refusal notice starts with the error mark "❌ " |
| `Voice.MicNoticeDistinct` | app/page.tsx:367-447 | Different refusals give different notices |
| `Chat.NutritionChat.constructor` | app/page.tsx:68-84 | A fresh page holds only the welcome message, with every flag down, nothing pending, empty fields and no call outstanding |
| `Chat.TextToSend` | app/page.tsx:227 | JavaScript "or" of the argument and the input field: an absent or empty argument falls back to the input field, any other argument is used as given |
| `Chat.AnalysisRequest` | app/page.tsx:243-252 | The request is an image exactly when there is a non-empty image URL, and it then carries that URL; otherwise it carries the text |
| `Chat.NutritionChat.Valid` | app/page.tsx:68-84 | The controller invariant kept by every method: increasing identifiers below the counter, loading exactly while a call is outstanding, a pending confirmation names a confirmation message and excludes loading, a lookup in flight matches the fields, never recording and preparing at once, every message shaped by its role |
| `Chat.NutritionChat.SendMessage` | app/page.tsx:226-250 | Blank text without an image (absent or empty URL) changes nothing. Otherwise it appends one user message, whose content is the image placeholder if there is an image and the text if not. It also clears the input, starts loading and requests the analysis of the image, or else of the text |
| `Chat.NutritionChat.Send` | app/page.tsx:339-347 | Submits the input field's text: no change when it is blank, otherwise one user message with that text and a text analysis request |
| `Chat.NutritionChat.UploadImage` | app/page.tsx:349-363 | A photo is always submitted: one user message carrying the image, the input cleared, and an analysis request of the image; an empty URL would be sent as the text "Imagen de comida" |
| `Chat.NutritionChat.AnalysisSucceeded` | app/page.tsx:255-278 | Appends exactly one confirmation message whose data is the result verbatim, makes it pending, sets the fields to the estimated food and quantity, and clears loading |
| `Chat.NutritionChat.AnalysisFailed` | app/page.tsx:268-278 | Appends exactly one error message, leaves the rest of the log and the pending confirmation as they were, and clears loading |
| `Chat.NutritionChat.EditFood` | app/page.tsx:503 | While a confirmation is pending, only the food field changes |
| `Chat.NutritionChat.EditQuantity` | app/page.tsx:514 | While a confirmation is pending, only the quantity field changes |
| `Chat.NutritionChat.EditInput` | app/page.tsx:649 | While the input is enabled, only the input text changes |
| `Chat.NutritionChat.ConfirmFood` | app/page.tsx:281-288 | A blank field changes nothing. Otherwise it starts loading, clears the pending confirmation and requests the lookup with the current, possibly edited, fields. The log is untouched |
| `Chat.NutritionChat.ReplaceConfirmations` | app/page.tsx:291-302 | Removes every confirmation message, keeping the order of the rest, and appends one message with a fresh identifier |
| `Chat.NutritionChat.NutritionSucceeded` | app/page.tsx:288-316 | The new log is the old log without confirmation messages, plus one report carrying the lookup's data verbatim, captioned with the quantity and food that were looked up. Loading ends and both fields end empty |
| `Chat.NutritionChat.NutritionFailed` | app/page.tsx:304-316 | Appends one error message and removes no confirmation message. Loading ends and both fields end empty |
| `Chat.NutritionChat.CancelConfirmation` | app/page.tsx:319-337 | Clears the pending confirmation and both fields. Removes every confirmation message, keeping the order of the rest, and appends exactly one cancellation message |
| `Chat.NutritionChat.MicClick` | app/page.tsx:365-449 | The outcome follows the handler's order of checks, and the new state is the one that outcome calls for |
| `Chat.MicClickNext` | app/page.tsx:366-448 | A click changes only the log, the identifier supply, the input and the preparing flag. It appends one notice exactly when refused, and raises the preparing flag only when listening starts |
| `Chat.NutritionChat.ApplyMicOutcome` | app/page.tsx:366-448 | A click while recording changes nothing. A start sets the preparing flag and clears the input. A failed start clears both and appends its notice. A failed permission query clears the flag and appends its notice. Every other refusal only appends its notice |
| `Chat.NutritionChat.OnRecognitionStart` | app/page.tsx:102-105 | Recording on, preparing off, nothing else changes |
| `Chat.NutritionChat.OnRecognitionEnd` | app/page.tsx:107-110 | Both voice flags off, nothing else changes |
| `Chat.NutritionChat.OnRecognitionResult` | app/page.tsx:112-121 | The transcript goes into the input and preparing goes off. Automatic submission is scheduled exactly when the transcript is not blank |
| `Chat.NutritionChat.SubmitTranscript` | app/page.tsx:116-120 | A blank transcript changes nothing. Otherwise it appends one user message with the transcript and requests a text analysis |
| `Chat.NutritionChat.OnRecognitionError` | app/page.tsx:123-157 | Both voice flags off, and exactly one system message appended: the error mark followed by the code's sentence |
| `Scenarios.ConfirmUneditedEstimate` | app/page.tsx:281-288 | Sending "2 manzanas" and confirming the estimate unedited requests the lookup of "manzana", "2 unidades" |
| `Scenarios.ConfirmEditedQuantity` | app/page.tsx:288 | Editing the quantity to "3 unidades" before confirming requests the lookup with the edited quantity |
| `Scenarios.AnalysisServerError` | app/page.tsx:268-277 | After a failed analysis the last message is the system error notice and the input is enabled again |
| `Scenarios.ImageSubmission` | app/page.tsx:234-250 | A photo becomes a user message with the placeholder and the image, and an image analysis request |
| `Scenarios.CancelAfterEstimate` | app/page.tsx:319-337 | After cancelling an estimate no confirmation message is left and the last message is the cancellation notice |
| `Scenarios.StaleConfirmationAfterFailedLookup` | app/page.tsx:304-311 | After a failed lookup and a new estimate, the log holds two confirmation messages while one is pending |

## Left out

- The HTTP calls `analyzeFood` and `getNutritionInfo` (app/page.tsx:176-224) are network I/O. Their outcome is the choice of completion method. A body without the expected fields is not modelled; the record types assume all fields are present.
- Speech recognition, `getUserMedia`, the permission query and `recognition.start/stop/abort` are platform APIs. Their answers are parameters of `MicClick`, and the recognizer's events are the `OnRecognition*` methods. Whether the browser has speech recognition is a constructor argument. The `abort` on unmount is not modelled.
- `FileReader` and the conversion from data URL to `File` (app/page.tsx:246-249, 349-363) are browser APIs. An image is its data URL string.
- Timing: the 500 ms delay before a transcript is submitted is not modelled. `SubmitTranscript` requires the same gate as every other submission. The code's timer can fire after the state has changed, for example after a photo sent while recording. It would then start a second analysis while one is outstanding; that race is not modelled.
- Message timestamps, rendering, scrolling, the macro bar widths (floating point) and `console.error` logging are presentation.
- The `NEXT_PUBLIC_API_URL` check at load time (app/page.tsx:9-13) is configuration.
- `app/layout.tsx` holds static metadata and markup only.
- `handleKeyPress` (app/page.tsx:343-347) ignores every key but Enter. It is folded into `Send`.
