/** The pure pieces of the voice input: the recognition error texts, the microphone button's
    icon and style, the secure-context rule, and the order in which a microphone click is
    refused or accepted. */
module Voice {

  const NoSpeechText := "No se detectó voz. Intentá hablar más claro."
  const AudioCaptureText := "No se pudo acceder al micrófono. Verificá que esté conectado."
  const NotAllowedText := "Permisos de micrófono denegados. Hacé clic en el ícono del micrófono en la barra de direcciones y permití el acceso."
  const NetworkText := "Error de conexión. Verificá tu internet."
  const ServiceNotAllowedText := "El servicio de reconocimiento de voz no está disponible."
  const UnknownErrorPrefix := "Error desconocido: "
  const UnknownErrorSuffix := ". Intentá recargar la página."

  /** Prefix of every error notice the controller appends to the log. */
  const ErrorMark := "❌ "

  predicate IsKnownErrorCode(code: string) {
    code in ["no-speech", "audio-capture", "not-allowed", "network", "service-not-allowed"]
  }

  /** The recognizer's error code as a sentence for the user. Known codes get their own fixed
      sentence; any other code is quoted inside a generic one, from which it can be read back. */
  function VoiceErrorText(code: string): (r: string)
    ensures !IsKnownErrorCode(code) ==>
      && |r| == |UnknownErrorPrefix| + |code| + |UnknownErrorSuffix|
      && r[..|UnknownErrorPrefix|] == UnknownErrorPrefix
      && r[|UnknownErrorPrefix|..|r| - |UnknownErrorSuffix|] == code
      && r[|r| - |UnknownErrorSuffix|..] == UnknownErrorSuffix
  {
    match code
    case "no-speech" => NoSpeechText
    case "audio-capture" => AudioCaptureText
    case "not-allowed" => NotAllowedText
    case "network" => NetworkText
    case "service-not-allowed" => ServiceNotAllowedText
    case _ => UnknownErrorPrefix + code + UnknownErrorSuffix
  }

  /** No two error codes produce the same sentence. */
  lemma VoiceErrorTextInjective(c1: string, c2: string)
    requires c1 != c2
    ensures VoiceErrorText(c1) != VoiceErrorText(c2)
  {
    if IsKnownErrorCode(c1) && IsKnownErrorCode(c2) {
      FixedTextsDistinct(c1, c2);
    } else if IsKnownErrorCode(c1) {
      FixedTextIsNotGeneric(c1, c2);
    } else if IsKnownErrorCode(c2) {
      FixedTextIsNotGeneric(c2, c1);
    }
    // two unknown codes are read back from the same place of their sentences
  }

  /** The five fixed sentences have five different lengths. */
  lemma FixedTextsDistinct(c1: string, c2: string)
    requires IsKnownErrorCode(c1) && IsKnownErrorCode(c2) && c1 != c2
    ensures VoiceErrorText(c1) != VoiceErrorText(c2)
  {
    FixedTextLengthIs(c1);
    FixedTextLengthIs(c2);
  }

  lemma FixedTextLengthIs(code: string)
    requires IsKnownErrorCode(code)
    ensures |VoiceErrorText(code)| == FixedTextLength(code)
  {
  }

  function FixedTextLength(code: string): nat {
    match code
    case "no-speech" => 44
    case "audio-capture" => 61
    case "not-allowed" => 116
    case "network" => 40
    case _ => 56
  }

  /** A fixed sentence never ends like the generic one: its next-to-last character is not
      the "a" of "página". */
  lemma FixedTextIsNotGeneric(known: string, unknown: string)
    requires IsKnownErrorCode(known) && !IsKnownErrorCode(unknown)
    ensures VoiceErrorText(known) != VoiceErrorText(unknown)
  {
    var r := VoiceErrorText(unknown);
    assert r[|r| - 2] == UnknownErrorSuffix[|UnknownErrorSuffix| - 2] == 'a';
  }

  /** The icon shown on the microphone button. */
  datatype MicIcon = Square | MicOff | Mic

  /** Recording takes priority over preparing the microphone. */
  function MicIconFor(isRecording: bool, isProcessingVoice: bool): (icon: MicIcon)
    ensures icon == Square <==> isRecording
    ensures icon == MicOff <==> !isRecording && isProcessingVoice
    ensures icon == Mic <==> !isRecording && !isProcessingVoice
  {
    if isRecording then Square
    else if isProcessingVoice then MicOff
    else Mic
  }

  /** The style classes of the microphone button, with the same priority as the icon. */
  function MicButtonClasses(isRecording: bool, isProcessingVoice: bool): (classes: seq<string>)
    ensures |classes| >= 1 && classes[0] == "micButton"
    ensures "recording" in classes <==> MicIconFor(isRecording, isProcessingVoice) == Square
    ensures "processing" in classes <==> MicIconFor(isRecording, isProcessingVoice) == MicOff
  {
    if isRecording then ["micButton", "recording"]
    else if isProcessingVoice then ["micButton", "processing"]
    else ["micButton"]
  }

  /** The page's address as far as the secure-context rule looks at it. */
  datatype Location = Location(protocol: string, hostname: string)

  /** Voice capture is offered over HTTPS and on the local machine only. */
  predicate IsSecureOrigin(loc: Location) {
    loc.protocol == "https:" || loc.hostname == "localhost" || loc.hostname == "127.0.0.1"
  }

  /** What the browser's permission query reports, if the browser has the query at all. */
  datatype PermissionState = Granted | Prompt | Denied
  datatype PermissionQuery = QueryUnavailable | Queried(state: PermissionState) | QueryFailed

  /** How a click on the microphone button ends. */
  datatype MicOutcome =
    | Unsupported        // no speech recognition in this browser
    | StopRequested      // a recording was running: it is asked to stop
    | InsecureOrigin     // neither HTTPS nor the local machine
    | PermissionRefused  // the permission query answered "denied"
    | Unexpected         // the permission query itself failed
    | NoMicrophone       // the trial microphone stream could not be opened
    | StartFailed        // the recognizer refused to start
    | Listening          // the recognizer was started

  /** The checks of a microphone click, in the order the click handler makes them. */
  function MicClickOutcome(speechSupported: bool, isRecording: bool, loc: Location,
                           permission: PermissionQuery, microphoneOpens: bool, startSucceeds: bool): (o: MicOutcome)
    ensures o == Unsupported <==> !speechSupported
    ensures o == StopRequested <==> speechSupported && isRecording
    ensures o == InsecureOrigin <==> speechSupported && !isRecording && !IsSecureOrigin(loc)
    // the microphone is only tried once the origin and the permission query have let it through
    ensures (o.NoMicrophone? || o.StartFailed? || o.Listening?)
        <==> speechSupported && !isRecording && IsSecureOrigin(loc)
             && permission != QueryFailed && permission != Queried(Denied)
  {
    if !speechSupported then Unsupported
    else if isRecording then StopRequested
    else if !IsSecureOrigin(loc) then InsecureOrigin
    else if permission == Queried(Denied) then PermissionRefused
    else if permission == QueryFailed then Unexpected
    else if !microphoneOpens then NoMicrophone
    else if !startSucceeds then StartFailed
    else Listening
  }

  /** A click starts the recognizer exactly when speech is supported, nothing is being recorded,
      the origin is secure, the permission query neither failed nor refused, the microphone
      opens and the recognizer starts. */
  lemma MicClickListensIff(speechSupported: bool, isRecording: bool, loc: Location,
                           permission: PermissionQuery, microphoneOpens: bool, startSucceeds: bool)
    ensures MicClickOutcome(speechSupported, isRecording, loc, permission, microphoneOpens, startSucceeds) == Listening
        <==> speechSupported && !isRecording && IsSecureOrigin(loc)
             && permission != QueryFailed && permission != Queried(Denied)
             && microphoneOpens && startSucceeds
  {
  }

  const UnsupportedNotice := ErrorMark + "Tu navegador no soporta reconocimiento de voz. Probá con Chrome, Edge o Safari actualizado."
  const InsecureOriginNotice := ErrorMark + "El reconocimiento de voz requiere una conexión segura (HTTPS)."
  const PermissionRefusedNotice := ErrorMark + "Permisos de micrófono denegados. Ve a la configuración del navegador y permite el acceso al micrófono para este sitio."
  const UnexpectedNotice := ErrorMark + "Error inesperado. Recargá la página e intentá nuevamente."
  const NoMicrophoneNotice := ErrorMark + "No se pudo acceder al micrófono. Asegurate de que esté conectado y que hayas dado permisos al navegador."
  const StartFailedNotice := ErrorMark + "Error al iniciar el reconocimiento de voz. Intentá nuevamente en unos segundos."

  /** The notice a microphone click appends to the log, if any. */
  function MicNotice(outcome: MicOutcome): (notice: string)
    requires !outcome.StopRequested? && !outcome.Listening?
    ensures |notice| > |ErrorMark| && ErrorMark <= notice
  {
    match outcome
    case Unsupported => UnsupportedNotice
    case InsecureOrigin => InsecureOriginNotice
    case PermissionRefused => PermissionRefusedNotice
    case Unexpected => UnexpectedNotice
    case NoMicrophone => NoMicrophoneNotice
    case StartFailed => StartFailedNotice
  }

  /** Each refusal has its own notice: the six notices have six different lengths. */
  lemma MicNoticeDistinct(o1: MicOutcome, o2: MicOutcome)
    requires !o1.StopRequested? && !o1.Listening? && !o2.StopRequested? && !o2.Listening?
    requires o1 != o2
    ensures MicNotice(o1) != MicNotice(o2)
  {
    assert |MicNotice(o1)| == NoticeLength(o1);
    assert |MicNotice(o2)| == NoticeLength(o2);
  }

  function NoticeLength(outcome: MicOutcome): nat {
    match outcome
    case Unsupported => 93
    case InsecureOrigin => 64
    case PermissionRefused => 120
    case Unexpected => 59
    case NoMicrophone => 106
    case _ => 81
  }
}
