/** Client traces of the controller: each one drives a fresh page through a sequence of events
    and states what the user ends up with. They exercise only the contracts of the controller's
    methods. */
module Scenarios {
  import opened Wrappers
  import opened JsText
  import opened Conversation
  import opened Chat

  /** A text that starts with a digit or a letter is not blank. */
  lemma NotBlank(s: string)
    requires s != [] && '0' <= s[0] <= 'z'
    ensures Trim(s) != ""
  {
    TrimEmptyIffBlank(s);
    assert !IsJsWhitespace(s[0]);
  }

  /** Typing "2 manzanas", receiving the estimate and confirming it unedited asks the
      nutrition service about exactly the estimated food and quantity. */
  method ConfirmUneditedEstimate() returns (lookup: Call)
    ensures lookup == NutritionLookup("manzana", "2 unidades")
  {
    var chat := new NutritionChat(true);
    chat.EditInput("2 manzanas");
    NotBlank("2 manzanas");
    var sent := chat.Send();
    chat.AnalysisSucceeded(AnalysisResult("manzana", "2 unidades", "¿Confirmás 2 manzanas?"));
    NotBlank("manzana");
    NotBlank("2 unidades");
    var requested := chat.ConfirmFood();
    lookup := chat.awaiting;
  }

  /** Editing the quantity from "2 unidades" to "3 unidades" before confirming asks about the
      edited quantity, not the estimate. */
  method ConfirmEditedQuantity() returns (lookup: Call)
    ensures lookup == NutritionLookup("manzana", "3 unidades")
  {
    var chat := new NutritionChat(true);
    chat.EditInput("2 manzanas");
    NotBlank("2 manzanas");
    var sent := chat.Send();
    chat.AnalysisSucceeded(AnalysisResult("manzana", "2 unidades", "¿Confirmás 2 manzanas?"));
    chat.EditQuantity("3 unidades");
    NotBlank("manzana");
    NotBlank("3 unidades");
    var requested := chat.ConfirmFood();
    lookup := chat.awaiting;
  }

  /** A failed analysis ends with its error notice as the last message and the input usable
      again. */
  method AnalysisServerError() returns (last: Message, inputEnabled: bool)
    ensures last.role == System && last.content == AnalysisErrorText
    ensures inputEnabled
  {
    var chat := new NutritionChat(true);
    chat.EditInput("2 manzanas");
    NotBlank("2 manzanas");
    var sent := chat.Send();
    chat.AnalysisFailed();
    last := chat.messages[|chat.messages| - 1];
    inputEnabled := !chat.isLoading && !chat.isRecording && chat.pendingConfirmation.None?;
  }

  /** A photo shows up as a user message with the placeholder text and the image, and goes to
      the analysis service as an image, not as text. */
  method ImageSubmission(imageUrl: string) returns (shown: Message, request: Call)
    requires imageUrl != ""  // a data URL always starts with "data:"
    ensures shown.role == User && shown.content == ImagePlaceholderText && shown.imageUrl == Some(imageUrl)
    ensures request == Analysis(ImageInput(imageUrl))
  {
    var chat := new NutritionChat(true);
    chat.UploadImage(imageUrl);
    shown := chat.messages[|chat.messages| - 1];
    request := chat.awaiting;
  }

  /** A cancelled confirmation leaves no confirmation message and ends with the cancellation
      notice. */
  method CancelAfterEstimate() returns (confirmations: nat, last: Message)
    ensures confirmations == 0
    ensures last.role == System && last.content == CancelledText
  {
    var chat := new NutritionChat(true);
    chat.EditInput("2 manzanas");
    NotBlank("2 manzanas");
    var sent := chat.Send();
    chat.AnalysisSucceeded(AnalysisResult("manzana", "2 unidades", "¿Confirmás 2 manzanas?"));
    ghost var before := chat.messages;
    chat.CancelConfirmation();
    ReplacingLeavesNoConfirmation(before, SystemMessage(chat.nextId - 1, CancelledText));
    confirmations := ConfirmationCount(chat.messages);
    last := chat.messages[|chat.messages| - 1];
  }

  /** Types `text`, sends it and receives `result` from the analysis service. */
  method Estimate(chat: NutritionChat, text: string, result: AnalysisResult)
    requires chat.Valid() && chat.InputEnabled() && Trim(text) != ""
    modifies chat
    ensures chat.Valid() && chat.ConfirmEnabled() && !chat.isRecording
    ensures chat.messages == old(chat.messages) + [UserMessage(old(chat.nextId), text, None)]
                                                + [ConfirmationMessage(old(chat.nextId) + 1, result)]
    ensures chat.confirmFood == result.estimatedFood && chat.confirmQuantity == result.estimatedQuantity
  {
    TypeAndSend(chat, text);
    chat.AnalysisSucceeded(result);
  }

  /** Types `text` and sends it: one user message and an analysis request of the text. */
  method TypeAndSend(chat: NutritionChat, text: string)
    requires chat.Valid() && chat.InputEnabled() && Trim(text) != ""
    modifies chat
    ensures chat.Valid() && chat.awaiting == Analysis(TextInput(text)) && !chat.isRecording
    ensures chat.messages == old(chat.messages) + [UserMessage(old(chat.nextId), text, None)]
    ensures chat.nextId == old(chat.nextId) + 1
  {
    chat.EditInput(text);
    var sent := chat.Send();
  }

  /** Sends "2 manzanas", receives an estimate, confirms it and sees the lookup fail: the
      confirmation message stays in the log although nothing is pending any more. */
  method EstimateThenFailedLookup(chat: NutritionChat)
    requires chat.Valid() && chat.InputEnabled()
    modifies chat
    ensures chat.Valid() && chat.InputEnabled()
    ensures ConfirmationCount(chat.messages) == ConfirmationCount(old(chat.messages)) + 1
  {
    NotBlank("2 manzanas");
    ghost var log := chat.messages;
    Estimate(chat, "2 manzanas", AnalysisResult("manzana", "2 unidades", "¿Confirmás 2 manzanas?"));
    CountAppendTwo(log, chat.messages[|log|], chat.messages[|log| + 1]);
    NotBlank("manzana");
    NotBlank("2 unidades");
    var requested := chat.ConfirmFood();
    log := chat.messages;
    chat.NutritionFailed();
    CountAppendOne(log, chat.messages[|log|]);
  }

  /** A failed lookup leaves its confirmation message in the log. After the next estimate the
      log holds two confirmation messages while only one of them is pending, so the number of
      confirmation messages in the log does not tell whether a confirmation is pending. */
  method StaleConfirmationAfterFailedLookup() returns (confirmations: nat, pending: Option<MessageId>)
    ensures confirmations == 2 && pending.Some?
  {
    var chat := new NutritionChat(true);
    CountOne(SystemMessage(0, WelcomeText));
    EstimateThenFailedLookup(chat);
    NotBlank("1 pera");
    ghost var log := chat.messages;
    Estimate(chat, "1 pera", AnalysisResult("pera", "1 unidad", "¿Confirmás 1 pera?"));
    CountAppendTwo(log, chat.messages[|log|], chat.messages[|log| + 1]);
    confirmations := ConfirmationCount(chat.messages);
    pending := chat.pendingConfirmation;
  }

  lemma CountAppendTwo(log: seq<Message>, user: Message, confirmation: Message)
    requires user.role == User && confirmation.role == Confirmation
    ensures ConfirmationCount(log + [user] + [confirmation]) == ConfirmationCount(log) + 1
  {
    CountAppendOne(log, user);
    CountAppendOne(log + [user], confirmation);
  }

  lemma CountOne(m: Message)
    ensures ConfirmationCount([m]) == if m.role == Confirmation then 1 else 0
  {
    assert [m][1..] == [];
  }

  lemma CountAppendOne(log: seq<Message>, m: Message)
    ensures ConfirmationCount(log + [m]) == ConfirmationCount(log) + if m.role == Confirmation then 1 else 0
  {
    ConfirmationCountAppend(log, [m]);
    CountOne(m);
  }
}
