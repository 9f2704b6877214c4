/** The message log of the chat: the message record, the texts the controller writes into
    it, and the one structural operation it performs besides appending, removing every
    confirmation-role message. */
module Conversation {
  import opened Wrappers

  /** Message identifiers. The source derives them from the wall clock; the model draws
      them from a counter, so they are fresh and increase in log order. */
  type MessageId = nat

  datatype Role = User | System | Confirmation

  /** The analysis service's answer, kept verbatim as a confirmation message's data. */
  datatype AnalysisResult = AnalysisResult(estimatedFood: string, estimatedQuantity: string, confirmationMessage: string)

  datatype Macros = Macros(calories: real, protein: real, carbs: real, fat: real)

  /** The nutrition service's answer, kept verbatim as a report message's data. */
  datatype NutritionData = NutritionData(macros: Macros, tip: string)

  /** One chat message. The creation time is not modelled. */
  datatype Message = Message(
    id: MessageId,
    role: Role,
    content: string,
    imageUrl: Option<string>,
    confirmationData: Option<AnalysisResult>,
    nutritionData: Option<NutritionData>)

  const WelcomeText := "¡Hola! Soy tu asistente nutricional. Podés contarme qué comiste escribiendo, hablando 🎤 o subiendo una foto 📷 de tu comida."
  const ImagePlaceholderText := "📷 Imagen enviada"
  const AnalysisCompletedText := "Análisis completado. Por favor confirmá los datos:"
  const AnalysisErrorText := "❌ Error al analizar la comida. Intentá nuevamente."
  const NutritionErrorText := "❌ Error al obtener información nutricional. Intentá nuevamente."
  const CancelledText := "Análisis cancelado. Podés enviar otra comida cuando quieras."

  /** The caption of a nutrition report for the confirmed quantity and food. */
  function NutritionSummary(quantity: string, food: string): string {
    "Información nutricional para " + quantity + " de " + food
  }

  function SystemMessage(id: MessageId, content: string): Message {
    Message(id, System, content, None, None, None)
  }

  /** JavaScript truthiness of an optional string: absent and empty both count as no image. */
  predicate HasImage(imageUrl: Option<string>) {
    imageUrl.Some? && imageUrl.value != ""
  }

  /** The message a submission appends: an image submission shows a fixed placeholder
      instead of its text and carries the image. */
  function UserMessage(id: MessageId, text: string, imageUrl: Option<string>): Message {
    Message(id, User, if HasImage(imageUrl) then ImagePlaceholderText else text, imageUrl, None, None)
  }

  function ConfirmationMessage(id: MessageId, result: AnalysisResult): Message {
    Message(id, Confirmation, AnalysisCompletedText, None, Some(result), None)
  }

  function NutritionMessage(id: MessageId, food: string, quantity: string, data: NutritionData): Message {
    Message(id, System, NutritionSummary(quantity, food), None, None, Some(data))
  }

  /** The shape every message of the log has: exactly the confirmation messages carry an
      analysis result, only system messages carry nutrition data and only user messages an
      image, so no message carries both an analysis result and nutrition data. */
  predicate WellFormed(m: Message) {
    && (m.role == Confirmation <==> m.confirmationData.Some?)
    && (m.nutritionData.Some? ==> m.role == System)
    && (m.imageUrl.Some? ==> m.role == User)
  }

  /** Number of confirmation-role messages in `log`. */
  function ConfirmationCount(log: seq<Message>): (n: nat)
    ensures n <= |log|
    ensures n == 0 <==> forall i :: 0 <= i < |log| ==> log[i].role != Confirmation
  {
    if log == [] then 0
    else (if log[0].role == Confirmation then 1 else 0) + ConfirmationCount(log[1..])
  }

  /** What the filter keeps of one message. */
  function Kept(m: Message): seq<Message> {
    if m.role == Confirmation then [] else [m]
  }

  /** `log.filter(msg => msg.type !== "confirmation")`: exactly the messages of `log` that are
      not confirmations, in their original order. */
  function WithoutConfirmations(log: seq<Message>): (r: seq<Message>)
    ensures forall m :: m in r <==> m in log && m.role != Confirmation
    ensures |r| + ConfirmationCount(log) == |log|
  {
    if log == [] then []
    else Kept(log[0]) + WithoutConfirmations(log[1..])
  }

  /** Identifiers strictly increase along the log, so in particular they are unique. */
  predicate IdsIncreasing(log: seq<Message>) {
    forall i, j :: 0 <= i < j < |log| ==> log[i].id < log[j].id
  }

  /** `log` holds a confirmation-role message with identifier `id`. */
  predicate HasConfirmation(log: seq<Message>, id: MessageId) {
    exists i :: 0 <= i < |log| && log[i].id == id && log[i].role == Confirmation
  }

  lemma {:induction false} ConfirmationCountAppend(a: seq<Message>, b: seq<Message>)
    ensures ConfirmationCount(a + b) == ConfirmationCount(a) + ConfirmationCount(b)
  {
    if a != [] {
      assert (a + b)[1..] == a[1..] + b;
      ConfirmationCountAppend(a[1..], b);
    } else {
      assert a + b == b;
    }
  }

  /** Filtering works piecewise: the filter of a concatenation is the concatenation of the
      filters, which is what "the other messages keep their relative order" means. */
  lemma {:induction false} WithoutConfirmationsAppend(a: seq<Message>, b: seq<Message>)
    ensures WithoutConfirmations(a + b) == WithoutConfirmations(a) + WithoutConfirmations(b)
  {
    if a == [] {
      assert a + b == b;
    } else {
      assert (a + b)[0] == a[0];
      assert (a + b)[1..] == a[1..] + b;
      WithoutConfirmationsAppend(a[1..], b);
      assert Kept(a[0]) + (WithoutConfirmations(a[1..]) + WithoutConfirmations(b))
          == (Kept(a[0]) + WithoutConfirmations(a[1..])) + WithoutConfirmations(b);
    }
  }

  /** Replacing the confirmations by one non-confirmation message leaves no confirmation in
      the log, and the log is as long as the messages kept plus that one. */
  lemma {:induction false} ReplacingLeavesNoConfirmation(log: seq<Message>, m: Message)
    requires m.role != Confirmation
    ensures ConfirmationCount(WithoutConfirmations(log) + [m]) == 0
    ensures |WithoutConfirmations(log) + [m]| == |log| - ConfirmationCount(log) + 1
  {
    var r := WithoutConfirmations(log);
    ConfirmationCountAppend(r, [m]);
    assert ConfirmationCount([m]) == 0 by {
      assert [m][1..] == [];
    }
  }

  /** A log without confirmations is left as it is, so filtering twice equals filtering once. */
  lemma {:induction false} WithoutConfirmationsIdentity(log: seq<Message>)
    requires ConfirmationCount(log) == 0
    ensures WithoutConfirmations(log) == log
  {
    if log != [] {
      assert log[0].role != Confirmation;
      assert ConfirmationCount(log[1..]) == 0;
      WithoutConfirmationsIdentity(log[1..]);
    }
  }

  /** Removing confirmations keeps the identifiers in increasing order. */
  lemma {:induction false} WithoutConfirmationsKeepsIdsIncreasing(log: seq<Message>)
    requires IdsIncreasing(log)
    ensures IdsIncreasing(WithoutConfirmations(log))
  {
    if log != [] {
      TailIdsIncreasing(log);
      WithoutConfirmationsKeepsIdsIncreasing(log[1..]);
      var rest := WithoutConfirmations(log[1..]);
      if log[0].role != Confirmation {
        forall j | 0 <= j < |rest| ensures log[0].id < rest[j].id {
          RaisesIdAbove(log, rest[j]);
        }
        PrependIdsIncreasing(log[0], rest);
        assert WithoutConfirmations(log) == [log[0]] + rest;
      } else {
        assert WithoutConfirmations(log) == rest;
      }
    }
  }

  lemma TailIdsIncreasing(log: seq<Message>)
    requires IdsIncreasing(log) && log != []
    ensures IdsIncreasing(log[1..])
  {
    var tail := log[1..];
    forall i, j | 0 <= i < j < |tail| ensures tail[i].id < tail[j].id {
      assert tail[i] == log[i + 1] && tail[j] == log[j + 1];
    }
  }

  lemma PrependIdsIncreasing(m: Message, rest: seq<Message>)
    requires IdsIncreasing(rest)
    requires forall j :: 0 <= j < |rest| ==> m.id < rest[j].id
    ensures IdsIncreasing([m] + rest)
  {
    var r := [m] + rest;
    forall i, j | 0 <= i < j < |r| ensures r[i].id < r[j].id {
      assert r[j] == rest[j - 1];
      if i > 0 {
        assert r[i] == rest[i - 1];
      }
    }
  }

  /** Removing confirmations introduces no identifier: a bound on the old ones bounds the new. */
  lemma WithoutConfirmationsKeepsIdsBelow(log: seq<Message>, bound: MessageId)
    requires forall i :: 0 <= i < |log| ==> log[i].id < bound
    ensures forall i :: 0 <= i < |WithoutConfirmations(log)| ==> WithoutConfirmations(log)[i].id < bound
  {
    var r := WithoutConfirmations(log);
    forall i | 0 <= i < |r| ensures r[i].id < bound {
      assert r[i] in log;
    }
  }

  /** In an increasing log, every message after the first has a larger id than the first. */
  lemma RaisesIdAbove(log: seq<Message>, m: Message)
    requires IdsIncreasing(log) && log != [] && m in log[1..]
    ensures log[0].id < m.id
  {
    var k :| 0 <= k < |log[1..]| && log[1..][k] == m;
    assert log[k + 1] == m;
  }
}
