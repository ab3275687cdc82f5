/** The transcription session manager of `lib/use-speech-stt.ts`: the state
    kept by the `useSpeechToText` hook and every step that changes it.

    Each React setter is a plain field write and each handler or callback
    is one atomic method; the environment (the user, the recognizer's
    event stream, the start and stop completion callbacks) may call the
    methods in any order. The speech SDK is reduced to what the hook
    observes of it: the reason codes of its events and a recognizer handle
    that can be closed. */
module SpeechSession {
  import opened Js

  /** `sdk.ResultReason`, reduced to the two values the hook tests. */
  datatype ResultReason = RecognizedSpeech | NoMatch | Other

  /** `sdk.CancellationReason`. */
  datatype CancellationReason = Error | EndOfStream

  /** The two environment variables, `undefined` when not set. */
  datatype Config = Config(speechKey: Option<string>, speechRegion: Option<string>)

  /** How the SDK set-up after the configuration check goes: the dynamic
      import, the speech and audio configuration and the recognizer's
      constructor either succeed or one of them throws, with or without a
      `message`. */
  datatype Setup = SetupOk | SetupThrows(message: Option<string>)

  const MissingConfigMessage: string :=
    "Missing NEXT_PUBLIC_AZURE_SPEECH_KEY or NEXT_PUBLIC_AZURE_SPEECH_REGION. "
    + "Copy .env.local.example \U{2192} .env.local and fill in your values."

  const StartFailedMessage: string := "Failed to start listening."

  const RecognitionErrorMessage: string := "Speech recognition error"

  /** A JavaScript string is truthy when it is defined and not empty. */
  predicate Truthy(v: Option<string>) {
    v.Some? && v.value != []
  }

  /** The configuration check: both variables set and non-empty. */
  predicate HasConfig(c: Config) {
    Truthy(c.speechKey) && Truthy(c.speechRegion)
  }

  /** The error a start attempt leaves behind, or None when a recognizer
      was created and the start request issued. */
  function StartError(c: Config, setup: Setup): (r: Option<string>)
    ensures r.None? <==> HasConfig(c) && setup.SetupOk?
    ensures !HasConfig(c) ==> r == Some(MissingConfigMessage)
    ensures HasConfig(c) && setup.SetupThrows? && setup.message.Some? ==> r == setup.message
    ensures HasConfig(c) && setup == SetupThrows(None) ==> r == Some(StartFailedMessage)
  {
    if !HasConfig(c) then Some(MissingConfigMessage)
    else match setup
      case SetupOk => None
      case SetupThrows(m) => Some(Coalesce(m, StartFailedMessage))
  }

  /** The interim text of a `recognizing` event: `event.result?.text ?? ""`. */
  function PartialText(text: Option<string>): (r: string)
    ensures text.Some? ==> r == text.value
    ensures text.None? ==> r == ""
  {
    Coalesce(text, "")
  }

  /** What a `recognized` event hands to `onTranscript`, if anything. */
  function FinalTranscript(reason: ResultReason, text: Option<string>): (r: Option<string>)
    ensures r.Some? <==> reason == RecognizedSpeech && text.Some? && !AllWhiteSpace(text.value)
    ensures r.Some? ==> r.value == Trim(text.value) && r.value != [] && IsTrimmed(r.value)
  {
    TrimEmptyIffAllWhiteSpace(if text.Some? then text.value else "");
    if reason == RecognizedSpeech && text.Some? && Trim(text.value) != [] then
      Some(Trim(text.value))
    else
      None
  }

  /** The error after a `canceled` event, given the error before it. */
  function CancelError(reason: CancellationReason, details: Option<string>, prev: Option<string>): (r: Option<string>)
    ensures reason == EndOfStream ==> r == prev
    ensures reason == Error && details.Some? ==> r == details
    ensures reason == Error && details.None? ==> r == Some(RecognitionErrorMessage)
  {
    if reason == Error then Some(Coalesce(details, RecognitionErrorMessage)) else prev
  }

  /** The SDK's `SpeechRecognizer`, seen only as a resource to be closed. */
  class RecognizerHandle {
    var closed: bool

    constructor ()
      ensures !closed
    {
      closed := false;
    }

    /** `recognizer.close()`. */
    method Close()
      modifies this
      ensures closed
    {
      closed := true;
    }
  }

  /** The state of one `useSpeechToText` hook instance. */
  class Session {
    var isListening: bool
    var isConnecting: bool
    var error: Option<string>
    var interimText: string
    /** `recognizerRef.current` */
    var recognizerRef: RecognizerHandle?
    /** Every string passed to `onTranscript`, in order. */
    var delivered: seq<string>

    /** Every delivered transcript is non-empty and trimmed. */
    ghost predicate Valid()
      reads this
    {
      forall i :: 0 <= i < |delivered| ==> delivered[i] != [] && IsTrimmed(delivered[i])
    }

    /** The initial `useState` and `useRef` values. */
    constructor ()
      ensures Valid()
      ensures !isListening && !isConnecting && error == None && interimText == ""
      ensures recognizerRef == null && delivered == []
    {
      isListening, isConnecting, error, interimText := false, false, None, "";
      recognizerRef, delivered := null, [];
    }

    /** `startListening`. On a missing configuration or a set-up throw the
        error is recorded and no recognizer is stored. Otherwise a fresh
        recognizer replaces `recognizerRef.current` without the old one
        being closed, and the start request is left pending: its failure
        arrives later as `OnStartFailed`. */
    method StartListening(c: Config, setup: Setup)
      requires Valid()
      modifies this
      ensures Valid()
      ensures error == StartError(c, setup)
      ensures isConnecting == error.None?
      ensures interimText == ""
      ensures isListening == old(isListening) && delivered == old(delivered)
      ensures error.Some? ==> recognizerRef == old(recognizerRef)
      ensures error.None? ==> fresh(recognizerRef) && !recognizerRef.closed
      ensures old(recognizerRef) != null ==> old(recognizerRef).closed == old(recognizerRef.closed)
    {
      error := None;
      isConnecting := true;
      interimText := "";
      if !HasConfig(c) {
        error := Some(MissingConfigMessage);
        isConnecting := false;
        return;
      }
      match setup {
        case SetupThrows(m) =>
          error := Some(Coalesce(m, StartFailedMessage));
          isConnecting := false;
        case SetupOk =>
          var recognizer := new RecognizerHandle();
          recognizerRef := recognizer;
      }
    }

    /** The `recognizing` handler: show the partial text. */
    method OnRecognizing(text: Option<string>)
      requires Valid()
      modifies this
      ensures Valid()
      ensures interimText == PartialText(text)
      ensures isListening == old(isListening) && isConnecting == old(isConnecting)
      ensures error == old(error) && recognizerRef == old(recognizerRef) && delivered == old(delivered)
    {
      interimText := PartialText(text);
    }

    /** The `recognized` handler: deliver the trimmed text of recognized
        speech when it is not blank, and always clear the interim text. */
    method OnRecognized(reason: ResultReason, text: Option<string>)
      requires Valid()
      modifies this
      ensures Valid()
      ensures FinalTranscript(reason, text).Some? ==>
                delivered == old(delivered) + [FinalTranscript(reason, text).value]
      ensures FinalTranscript(reason, text).None? ==> delivered == old(delivered)
      ensures reason != RecognizedSpeech ==> delivered == old(delivered)
      ensures interimText == ""
      ensures isListening == old(isListening) && isConnecting == old(isConnecting)
      ensures error == old(error) && recognizerRef == old(recognizerRef)
    {
      if reason == RecognizedSpeech {
        if text.Some? {
          var finalText := Trim(text.value);
          if finalText != [] {
            assert FinalTranscript(reason, text) == Some(finalText);
            delivered := delivered + [finalText];
          }
        }
      }
      interimText := "";
    }

    /** The `canceled` handler: record an error cancellation and stop
        listening. The connecting flag and the interim text stay. */
    method OnCanceled(reason: CancellationReason, details: Option<string>)
      requires Valid()
      modifies this
      ensures Valid()
      ensures error == CancelError(reason, details, old(error))
      ensures !isListening
      ensures isConnecting == old(isConnecting) && interimText == old(interimText)
      ensures recognizerRef == old(recognizerRef) && delivered == old(delivered)
    {
      if reason == Error {
        error := Some(Coalesce(details, RecognitionErrorMessage));
      }
      isListening := false;
    }

    /** The `sessionStarted` handler. */
    method OnSessionStarted()
      requires Valid()
      modifies this
      ensures Valid()
      ensures isListening && !isConnecting
      ensures error == old(error) && interimText == old(interimText)
      ensures recognizerRef == old(recognizerRef) && delivered == old(delivered)
    {
      isListening := true;
      isConnecting := false;
    }

    /** The `sessionStopped` handler. */
    method OnSessionStopped()
      requires Valid()
      modifies this
      ensures Valid()
      ensures !isListening
      ensures isConnecting == old(isConnecting) && error == old(error) && interimText == old(interimText)
      ensures recognizerRef == old(recognizerRef) && delivered == old(delivered)
    {
      isListening := false;
    }

    /** The failure callback of `startContinuousRecognitionAsync`. The
        recognizer is neither closed nor dropped. */
    method OnStartFailed(err: string)
      requires Valid()
      modifies this
      ensures Valid()
      ensures error == Some(err) && !isConnecting
      ensures isListening == old(isListening) && interimText == old(interimText)
      ensures recognizerRef == old(recognizerRef) && delivered == old(delivered)
    {
      error := Some(err);
      isConnecting := false;
    }

    /** `stopListening`. Returns the recognizer it captured, whose stop
        request is now pending (null when there was none); it is closed
        only by a completion callback. Listening ends and the interim text
        is cleared at once. */
    method StopListening() returns (captured: RecognizerHandle?)
      requires Valid()
      modifies this
      ensures Valid()
      ensures captured == old(recognizerRef)
      ensures !isListening && interimText == ""
      ensures isConnecting == old(isConnecting) && error == old(error)
      ensures recognizerRef == old(recognizerRef) && delivered == old(delivered)
    {
      captured := recognizerRef;
      isListening := false;
      interimText := "";
    }

    /** The success callback of `stopContinuousRecognitionAsync` for the
        recognizer `captured` by `StopListening`: close it and clear the
        reference, whatever the reference holds by now. */
    method OnStopSucceeded(captured: RecognizerHandle)
      requires Valid()
      modifies this, captured
      ensures Valid()
      ensures captured.closed && recognizerRef == null
      ensures isListening == old(isListening) && isConnecting == old(isConnecting)
      ensures error == old(error) && interimText == old(interimText) && delivered == old(delivered)
    {
      captured.Close();
      recognizerRef := null;
    }

    /** The error callback of `stopContinuousRecognitionAsync`: the error
        is only logged, and the recognizer is closed and dropped as on
        success. */
    method OnStopFailed(captured: RecognizerHandle, err: string)
      requires Valid()
      modifies this, captured
      ensures Valid()
      ensures captured.closed && recognizerRef == null
      ensures isListening == old(isListening) && isConnecting == old(isConnecting)
      ensures error == old(error) && interimText == old(interimText) && delivered == old(delivered)
    {
      captured.Close();
      recognizerRef := null;
    }
  }

  const ValidConfig := Config(Some("key"), Some("eastus"))

  /** A start with a valid configuration, then `sessionStarted`, a partial
      result and a final one: listening without error, the partial text is
      shown, then the final phrase (here already trimmed, like "hello
      world") is delivered once and the interim text cleared. */
  method ScenarioStreaming(partial: string, phrase: string) returns (s: Session, shownInterim: string)
    requires phrase != [] && IsTrimmed(phrase)
    ensures shownInterim == partial
    ensures s.isListening && !s.isConnecting && s.error == None
    ensures s.delivered == [phrase] && s.interimText == ""
  {
    s := new Session();
    s.StartListening(ValidConfig, SetupOk);
    s.OnSessionStarted();
    s.OnRecognizing(Some(partial));
    shownInterim := s.interimText;
    TrimFixesTrimmed(phrase);
    s.OnRecognized(RecognizedSpeech, Some(phrase));
  }

  /** A start without the key: not listening, not connecting, the
      configuration error recorded, no recognizer, nothing delivered. */
  method ScenarioMissingKey() returns (s: Session)
    ensures !s.isListening && !s.isConnecting
    ensures s.error == Some(MissingConfigMessage)
    ensures s.recognizerRef == null && s.delivered == []
  {
    s := new Session();
    s.StartListening(Config(None, Some("eastus")), SetupOk);
  }

  /** A cancellation with an error in mid-session ends listening and
      surfaces the details. */
  method ScenarioCancelMidSession() returns (s: Session)
    ensures !s.isListening && s.error == Some("network lost")
  {
    s := new Session();
    s.StartListening(ValidConfig, SetupOk);
    s.OnSessionStarted();
    s.OnCanceled(Error, Some("network lost"));
  }

  /** A `no match` result delivers nothing and records no error. */
  method ScenarioNoMatch() returns (s: Session)
    ensures s.delivered == [] && s.error == None && s.interimText == ""
  {
    s := new Session();
    s.StartListening(ValidConfig, SetupOk);
    s.OnSessionStarted();
    s.OnRecognizing(Some("uh"));
    s.OnRecognized(NoMatch, Some("uh"));
  }

  /** A `sessionStarted` that arrives after stop was issued but before the
      stop completes sets listening again; the completion then closes the
      captured recognizer and clears the reference, so the hook is left
      listening with no recognizer. */
  method ScenarioLateSessionStarted() returns (s: Session, h: RecognizerHandle)
    ensures h.closed && s.recognizerRef == null
    ensures s.isListening && !s.isConnecting
  {
    s := new Session();
    s.StartListening(ValidConfig, SetupOk);
    var captured := s.StopListening();
    h := captured;
    s.OnSessionStarted();
    s.OnStopSucceeded(h);
  }

  /** Two starts in a row: the first recognizer is left open and no
      longer referenced. */
  method ScenarioDoubleStart() returns (s: Session, leaked: RecognizerHandle)
    ensures !leaked.closed && s.recognizerRef != null && s.recognizerRef != leaked
  {
    s := new Session();
    s.StartListening(ValidConfig, SetupOk);
    leaked := s.recognizerRef;
    s.StartListening(ValidConfig, SetupOk);
  }

  /** Start, stop, start again, and only then the first stop completes:
      the reference to the second, still open, recognizer is cleared. */
  method ScenarioStaleStopCompletion() returns (s: Session, second: RecognizerHandle)
    ensures !second.closed && s.recognizerRef == null
  {
    s := new Session();
    s.StartListening(ValidConfig, SetupOk);
    var first := s.StopListening();
    s.StartListening(ValidConfig, SetupOk);
    second := s.recognizerRef;
    s.OnStopSucceeded(first);
  }

  /** A start whose request fails keeps its recognizer open and
      referenced; a stop issued while nothing is referenced captures
      nothing to close. */
  method ScenarioStartFailure() returns (s: Session, kept: RecognizerHandle, captured: RecognizerHandle?)
    ensures s.error == Some("mic denied") && !s.isConnecting
    ensures s.recognizerRef == kept && !kept.closed
    ensures captured == null
  {
    s := new Session();
    captured := s.StopListening();
    s.StartListening(ValidConfig, SetupOk);
    kept := s.recognizerRef;
    s.OnStartFailed("mic denied");
  }
}
