/** The conversation controller of the nutrition chat page: the message log, the loading flag,
    the pending confirmation with its two editable fields, the text input and the voice flags,
    and one method per event that changes them. */
module Chat {
  import opened Wrappers
  import opened JsText
  import opened Conversation
  import opened Voice

  /** What an analysis request carries: typed text goes out as a JSON body, an image as a
      multipart upload. */
  datatype AnalysisInput = TextInput(text: string) | ImageInput(imageUrl: string)

  /** The service call whose answer the controller is waiting for, with the arguments it was
      made with. It stands for the awaited promise of the source. */
  datatype Call = NoCall | Analysis(input: AnalysisInput) | NutritionLookup(food: string, quantity: string)

  /** All controller fields at one moment. */
  datatype ChatState = ChatState(
    messages: seq<Message>,
    inputValue: string,
    isLoading: bool,
    isRecording: bool,
    isProcessingVoice: bool,
    pendingConfirmation: Option<MessageId>,
    confirmFood: string,
    confirmQuantity: string,
    nextId: MessageId,
    awaiting: Call)

  const ImageUploadText := "Imagen de comida"

  /** What a submission asks the analysis service about: the image when there is one (an
      empty data URL counts as none, as in JavaScript), the text otherwise. */
  function AnalysisRequest(text: string, imageUrl: Option<string>): (input: AnalysisInput)
    ensures input.ImageInput? <==> HasImage(imageUrl)
    ensures input.ImageInput? ==> input.imageUrl == imageUrl.value
    ensures input.TextInput? ==> input.text == text
  {
    if HasImage(imageUrl) then ImageInput(imageUrl.value) else TextInput(text)
  }

  /** `messageText || inputValue`: an absent or empty argument falls back to the input field. */
  function TextToSend(messageText: Option<string>, inputValue: string): (text: string)
    ensures messageText == None || messageText == Some("") ==> text == inputValue
    ensures messageText.Some? && messageText.value != "" ==> text == messageText.value
  {
    if messageText.Some? && messageText.value != "" then messageText.value else inputValue
  }

  /** The state after a microphone click with the given outcome: a refusal appends its notice,
      a failed permission query or a failed start also clears the preparing flag, and once the
      microphone has opened the input is cleared and the microphone is being prepared. */
  ghost function MicClickNext(s: ChatState, outcome: MicOutcome): (r: ChatState)
    // only the log, the identifier supply, the input and the preparing flag can change
    ensures r.(messages := s.messages, nextId := s.nextId, inputValue := s.inputValue,
               isProcessingVoice := s.isProcessingVoice) == s
    // a notice is appended exactly when the click is refused
    ensures !(outcome.StopRequested? || outcome.Listening?) ==>
      r.messages == s.messages + [SystemMessage(s.nextId, MicNotice(outcome))] && r.nextId == s.nextId + 1
    ensures outcome.StopRequested? || outcome.Listening? ==> r.messages == s.messages && r.nextId == s.nextId
    // the preparing flag is up afterwards only when listening starts, or was up and stays so
    ensures r.isProcessingVoice ==> outcome.Listening? || s.isProcessingVoice
    ensures outcome.Listening? ==> r.isProcessingVoice && r.inputValue == ""
  {
    if outcome.StopRequested? then s
    else if outcome.Listening? then s.(isProcessingVoice := true, inputValue := "")
    else
      var s' := s.(messages := s.messages + [SystemMessage(s.nextId, MicNotice(outcome))], nextId := s.nextId + 1);
      if outcome.StartFailed? then s'.(isProcessingVoice := false, inputValue := "")
      else if outcome.Unexpected? then s'.(isProcessingVoice := false)
      else s'
  }

  class NutritionChat {
    var messages: seq<Message>
    var inputValue: string
    var isLoading: bool
    var isRecording: bool
    var isProcessingVoice: bool
    /** Whether the browser offers speech recognition; fixed when the page mounts. */
    const speechSupported: bool
    var pendingConfirmation: Option<MessageId>
    var confirmFood: string
    var confirmQuantity: string
    /** The next fresh message identifier. */
    var nextId: MessageId
    var awaiting: Call

    ghost function State(): ChatState
      reads this
    {
      ChatState(messages, inputValue, isLoading, isRecording, isProcessingVoice,
                pendingConfirmation, confirmFood, confirmQuantity, nextId, awaiting)
    }

    /** The controller invariant:
        - identifiers increase along the log and are all below `nextId`;
        - the loading flag is up exactly while a service call is outstanding, so at most one is;
        - a pending confirmation names a confirmation message of the log, and nothing is loading
          while one is pending;
        - a nutrition lookup in flight was made with the current editable fields;
        - the microphone is never both recording and being prepared;
        - every message has the shape its role calls for (`WellFormed`). */
    ghost predicate Valid()
      reads this
    {
      && IdsIncreasing(messages)
      && (forall i :: 0 <= i < |messages| ==> messages[i].id < nextId)
      && (isLoading <==> !awaiting.NoCall?)
      && (pendingConfirmation.Some? ==> !isLoading && HasConfirmation(messages, pendingConfirmation.value))
      && (awaiting.NutritionLookup? ==> awaiting.food == confirmFood && awaiting.quantity == confirmQuantity)
      && !(isRecording && isProcessingVoice)
      && (forall m :: m in messages ==> WellFormed(m))
    }

    /** The camera and microphone buttons are enabled, and so is every way of submitting. */
    predicate SubmitAllowed()
      reads this
    {
      !isLoading && pendingConfirmation.None?
    }

    /** The text input is enabled (and with it the Enter key). */
    predicate InputEnabled()
      reads this
    {
      !isLoading && !isRecording && pendingConfirmation.None?
    }

    /** The Confirm button is shown and enabled. */
    predicate ConfirmEnabled()
      reads this
    {
      pendingConfirmation.Some? && !isLoading
    }

    /** A fresh page: the log holds only the welcome message. */
    constructor (speechSupported: bool)
      ensures Valid() && this.speechSupported == speechSupported
      ensures State() == ChatState([SystemMessage(0, WelcomeText)], "", false, false, false, None, "", "", 1, NoCall)
    {
      this.speechSupported := speechSupported;
      messages := [SystemMessage(0, WelcomeText)];
      inputValue := "";
      isLoading, isRecording, isProcessingVoice := false, false, false;
      pendingConfirmation := None;
      confirmFood, confirmQuantity := "", "";
      nextId := 1;
      awaiting := NoCall;
    }

    /** Appends `m`, whose identifier is the fresh one, and advances the identifier supply. */
    method Append(m: Message)
      requires Valid() && m.id == nextId && WellFormed(m)
      modifies this
      ensures State() == old(State()).(messages := old(messages) + [m], nextId := old(nextId) + 1)
      ensures Valid()
    {
      ghost var before := messages;
      messages := messages + [m];
      nextId := nextId + 1;
      if pendingConfirmation.Some? {
        ghost var i :| 0 <= i < |before| && before[i].id == pendingConfirmation.value && before[i].role == Confirmation;
        assert messages[i] == before[i];
      }
    }

    /** Removes every confirmation message, keeping the order of the others, then appends `m`,
        whose identifier is the fresh one. Only done while nothing is pending. */
    method ReplaceConfirmations(m: Message)
      requires Valid() && pendingConfirmation.None? && m.id == nextId && WellFormed(m)
      modifies this
      ensures State() == old(State()).(messages := WithoutConfirmations(old(messages)) + [m], nextId := old(nextId) + 1)
      ensures Valid()
    {
      WithoutConfirmationsKeepsIdsIncreasing(messages);
      WithoutConfirmationsKeepsIdsBelow(messages, nextId);
      messages := WithoutConfirmations(messages);
      Append(m);
    }

    /** The first half of a submission, up to the analysis request. Blank text without an
        image does nothing; otherwise one user message is appended, the input is cleared,
        loading starts and the analysis is requested with the image, or else with the text. */
    method SendMessage(messageText: Option<string>, imageUrl: Option<string>) returns (submitted: bool)
      requires Valid() && SubmitAllowed()
      modifies this
      ensures Valid()
      ensures submitted == (Trim(TextToSend(messageText, old(inputValue))) != "" || HasImage(imageUrl))
      ensures !submitted ==> State() == old(State())
      ensures submitted ==>
        var text := TextToSend(messageText, old(inputValue));
        State() == old(State()).(
          messages := old(messages) + [UserMessage(old(nextId), text, imageUrl)],
          inputValue := "",
          isLoading := true,
          nextId := old(nextId) + 1,
          awaiting := Analysis(AnalysisRequest(text, imageUrl)))
    {
      var text := TextToSend(messageText, inputValue);
      if Trim(text) == "" && !HasImage(imageUrl) {
        return false;
      }
      inputValue, isLoading, awaiting := "", true, Analysis(AnalysisRequest(text, imageUrl));
      Append(UserMessage(nextId, text, imageUrl));
      submitted := true;
    }

    /** The Send button and the Enter key: submit what the input field holds. */
    method Send() returns (submitted: bool)
      requires Valid() && InputEnabled()
      modifies this
      ensures Valid()
      ensures submitted == (Trim(old(inputValue)) != "")
      ensures !submitted ==> State() == old(State())
      ensures submitted ==> State() == old(State()).(
          messages := old(messages) + [UserMessage(old(nextId), old(inputValue), None)],
          inputValue := "",
          isLoading := true,
          nextId := old(nextId) + 1,
          awaiting := Analysis(TextInput(old(inputValue))))
    {
      submitted := SendMessage(None, None);
    }

    /** A picked photo is submitted at once, whatever the input field holds, and the field is
        cleared. */
    method UploadImage(imageUrl: string)
      requires Valid() && SubmitAllowed()
      modifies this
      ensures Valid()
      ensures State() == old(State()).(
          messages := old(messages) + [UserMessage(old(nextId), ImageUploadText, Some(imageUrl))],
          inputValue := "",
          isLoading := true,
          nextId := old(nextId) + 1,
          awaiting := Analysis(if imageUrl != "" then ImageInput(imageUrl) else TextInput(ImageUploadText)))
    {
      TrimEmptyIffBlank(ImageUploadText);
      assert !IsJsWhitespace(ImageUploadText[0]);
      var _ := SendMessage(Some(ImageUploadText), Some(imageUrl));
    }

    /** The analysis answered: its result becomes the data of one new confirmation message,
        which becomes the pending one, and the editable fields start from its estimates. */
    method AnalysisSucceeded(result: AnalysisResult)
      requires Valid() && awaiting.Analysis?
      modifies this
      ensures Valid()
      ensures State() == old(State()).(
          messages := old(messages) + [ConfirmationMessage(old(nextId), result)],
          isLoading := false,
          pendingConfirmation := Some(old(nextId)),
          confirmFood := result.estimatedFood,
          confirmQuantity := result.estimatedQuantity,
          nextId := old(nextId) + 1,
          awaiting := NoCall)
    {
      var id := nextId;
      Append(ConfirmationMessage(id, result));
      assert messages[|messages| - 1].id == id;
      pendingConfirmation := Some(id);
      confirmFood := result.estimatedFood;
      confirmQuantity := result.estimatedQuantity;
      isLoading := false;
      awaiting := NoCall;
    }

    /** The analysis failed: one error notice is appended and loading stops. */
    method AnalysisFailed()
      requires Valid() && awaiting.Analysis?
      modifies this
      ensures Valid()
      ensures State() == old(State()).(
          messages := old(messages) + [SystemMessage(old(nextId), AnalysisErrorText)],
          isLoading := false,
          nextId := old(nextId) + 1,
          awaiting := NoCall)
    {
      Append(SystemMessage(nextId, AnalysisErrorText));
      isLoading := false;
      awaiting := NoCall;
    }

    /** Typing into the editable food field of the pending confirmation. */
    method EditFood(value: string)
      requires Valid() && pendingConfirmation.Some?
      modifies this
      ensures Valid()
      ensures State() == old(State()).(confirmFood := value)
    {
      confirmFood := value;
    }

    /** Typing into the editable quantity field of the pending confirmation. */
    method EditQuantity(value: string)
      requires Valid() && pendingConfirmation.Some?
      modifies this
      ensures Valid()
      ensures State() == old(State()).(confirmQuantity := value)
    {
      confirmQuantity := value;
    }

    /** Typing into the chat input. */
    method EditInput(value: string)
      requires Valid() && InputEnabled()
      modifies this
      ensures Valid()
      ensures State() == old(State()).(inputValue := value)
    {
      inputValue := value;
    }

    /** The first half of a confirmation, up to the nutrition request. A blank field makes it
        do nothing; otherwise loading starts, nothing is pending any more, and the lookup is
        made with the fields as they are now, edits included. The log is not touched yet. */
    method ConfirmFood() returns (requested: bool)
      requires Valid() && ConfirmEnabled()
      modifies this
      ensures Valid()
      ensures requested == (Trim(old(confirmFood)) != "" && Trim(old(confirmQuantity)) != "")
      ensures !requested ==> State() == old(State())
      ensures requested ==> State() == old(State()).(
          isLoading := true,
          pendingConfirmation := None,
          awaiting := NutritionLookup(old(confirmFood), old(confirmQuantity)))
    {
      if Trim(confirmFood) == "" || Trim(confirmQuantity) == "" {
        return false;
      }
      isLoading := true;
      pendingConfirmation := None;
      awaiting := NutritionLookup(confirmFood, confirmQuantity);
      requested := true;
    }

    /** The lookup answered: every confirmation message leaves the log, the others keep their
        order, one report carrying the answer verbatim is appended, loading stops and the
        editable fields are emptied. */
    method NutritionSucceeded(data: NutritionData)
      requires Valid() && awaiting.NutritionLookup?
      modifies this
      ensures Valid()
      ensures State() == old(State()).(
          messages := WithoutConfirmations(old(messages))
                      + [NutritionMessage(old(nextId), old(awaiting.food), old(awaiting.quantity), data)],
          isLoading := false,
          confirmFood := "",
          confirmQuantity := "",
          nextId := old(nextId) + 1,
          awaiting := NoCall)
    {
      ReplaceConfirmations(NutritionMessage(nextId, awaiting.food, awaiting.quantity, data));
      isLoading := false;
      confirmFood, confirmQuantity := "", "";
      awaiting := NoCall;
    }

    /** The lookup failed: one error notice is appended and no confirmation message is
        removed; loading stops and the editable fields are emptied. */
    method NutritionFailed()
      requires Valid() && awaiting.NutritionLookup?
      modifies this
      ensures Valid()
      ensures State() == old(State()).(
          messages := old(messages) + [SystemMessage(old(nextId), NutritionErrorText)],
          isLoading := false,
          confirmFood := "",
          confirmQuantity := "",
          nextId := old(nextId) + 1,
          awaiting := NoCall)
    {
      Append(SystemMessage(nextId, NutritionErrorText));
      isLoading := false;
      confirmFood, confirmQuantity := "", "";
      awaiting := NoCall;
    }

    /** Cancelling the pending confirmation: nothing is pending, the fields are emptied, every
        confirmation message leaves the log and one cancellation notice is appended. */
    method CancelConfirmation()
      requires Valid() && pendingConfirmation.Some?
      modifies this
      ensures Valid()
      ensures State() == old(State()).(
          messages := WithoutConfirmations(old(messages)) + [SystemMessage(old(nextId), CancelledText)],
          pendingConfirmation := None,
          confirmFood := "",
          confirmQuantity := "",
          nextId := old(nextId) + 1)
    {
      pendingConfirmation := None;
      confirmFood, confirmQuantity := "", "";
      ReplaceConfirmations(SystemMessage(nextId, CancelledText));
    }

    /** A click on the microphone button. The checks are made in the order of
        `MicClickOutcome`; a click while recording only asks the recognizer to stop. */
    method MicClick(loc: Location, permission: PermissionQuery, microphoneOpens: bool, startSucceeds: bool)
      returns (outcome: MicOutcome)
      requires Valid() && SubmitAllowed()
      modifies this
      ensures Valid()
      ensures outcome == MicClickOutcome(speechSupported, old(isRecording), loc, permission, microphoneOpens, startSucceeds)
      ensures State() == MicClickNext(old(State()), outcome)
    {
      outcome := MicClickOutcome(speechSupported, isRecording, loc, permission, microphoneOpens, startSucceeds);
      ApplyMicOutcome(outcome);
    }

    /** Carries out the state change of a microphone click with the given outcome. */
    method ApplyMicOutcome(outcome: MicOutcome)
      requires Valid() && SubmitAllowed()
      requires outcome.Listening? ==> !isRecording
      modifies this
      ensures Valid()
      ensures State() == MicClickNext(old(State()), outcome)
    {
      if outcome.StopRequested? {
        return;
      }
      if outcome.Listening? {
        isProcessingVoice := true;
        inputValue := "";
        return;
      }
      if outcome.StartFailed? {
        inputValue := "";
      }
      if outcome.StartFailed? || outcome.Unexpected? {
        isProcessingVoice := false;
      }
      Append(SystemMessage(nextId, MicNotice(outcome)));
    }

    /** The recognizer started listening. */
    method OnRecognitionStart()
      requires Valid() && speechSupported
      modifies this
      ensures Valid()
      ensures State() == old(State()).(isRecording := true, isProcessingVoice := false)
    {
      isRecording := true;
      isProcessingVoice := false;
    }

    /** The recognition session closed, however it ended. */
    method OnRecognitionEnd()
      requires Valid() && speechSupported
      modifies this
      ensures Valid()
      ensures State() == old(State()).(isRecording := false, isProcessingVoice := false)
    {
      isRecording := false;
      isProcessingVoice := false;
    }

    /** A final transcript arrived: it goes into the input field. The result says whether the
        delayed automatic submission will send it, which it does unless it is blank. */
    method OnRecognitionResult(transcript: string) returns (autoSubmit: bool)
      requires Valid() && speechSupported
      modifies this
      ensures Valid()
      ensures autoSubmit == (Trim(transcript) != "")
      ensures State() == old(State()).(inputValue := transcript, isProcessingVoice := false)
    {
      inputValue := transcript;
      isProcessingVoice := false;
      autoSubmit := Trim(transcript) != "";
    }

    /** The delayed automatic submission of a transcript. */
    method SubmitTranscript(transcript: string) returns (submitted: bool)
      requires Valid() && SubmitAllowed()
      modifies this
      ensures Valid()
      ensures submitted == (Trim(transcript) != "")
      ensures !submitted ==> State() == old(State())
      ensures submitted ==> State() == old(State()).(
          messages := old(messages) + [UserMessage(old(nextId), transcript, None)],
          inputValue := "",
          isLoading := true,
          nextId := old(nextId) + 1,
          awaiting := Analysis(TextInput(transcript)))
    {
      submitted := false;
      if Trim(transcript) != "" {
        submitted := SendMessage(Some(transcript), None);
      }
    }

    /** The recognizer reported an error: both voice flags drop and one notice, the error
        code's sentence, is appended. */
    method OnRecognitionError(code: string)
      requires Valid() && speechSupported
      modifies this
      ensures Valid()
      ensures State() == old(State()).(
          messages := old(messages) + [SystemMessage(old(nextId), ErrorMark + VoiceErrorText(code))],
          nextId := old(nextId) + 1,
          isRecording := false,
          isProcessingVoice := false)
    {
      isRecording := false;
      isProcessingVoice := false;
      Append(SystemMessage(nextId, ErrorMark + VoiceErrorText(code)));
    }
  }
}
