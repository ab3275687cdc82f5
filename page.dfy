/** The page of `app/page.tsx`: the transcript buffer the editor shows, how
    finalized phrases are appended to it, what the editor and the status
    bar display, and the mic, clear and edit handlers. */
module Page {
  import opened Js
  import opened SpeechSession

  /** The `setText` updater of `handleTranscript`: a single space goes
      between the previous text and the new phrase unless the buffer was
      empty. */
  function AppendTranscript(prev: string, transcript: string): (r: string)
    ensures prev == [] ==> r == transcript
    ensures prev != [] ==> r == prev + " " + transcript
    ensures prev <= r
    ensures |r| == |prev| + |transcript| + (if prev == [] then 0 else 1)
  {
    var separator := if |prev| > 0 then " " else "";
    prev + separator + transcript
  }

  /** The phrases joined with single spaces. */
  function JoinWithSpace(ts: seq<string>): string {
    if ts == [] then ""
    else if |ts| == 1 then ts[0]
    else ts[0] + " " + JoinWithSpace(ts[1..])
  }

  /** The buffer after `handleTranscript` has run once per phrase. */
  function AppendAll(prev: string, ts: seq<string>): string
    decreases |ts|
  {
    if ts == [] then prev else AppendAll(AppendTranscript(prev, ts[0]), ts[1..])
  }

  /** Appending non-empty phrases one by one joins them with single
      spaces, after the previous text and one more space if there was any. */
  lemma {:induction false} AppendAllJoins(prev: string, ts: seq<string>)
    requires forall i :: 0 <= i < |ts| ==> ts[i] != []
    ensures AppendAll(prev, ts) ==
              if ts == [] then prev
              else if prev == [] then JoinWithSpace(ts)
              else prev + " " + JoinWithSpace(ts)
    decreases |ts|
  {
    if ts != [] {
      var first, rest := ts[0], ts[1..];
      var next := AppendTranscript(prev, first);
      assert forall i :: 0 <= i < |rest| ==> rest[i] == ts[i + 1];
      AppendAllJoins(next, rest);
      assert AppendAll(prev, ts) == AppendAll(next, rest);
      if rest != [] {
        var joined := JoinWithSpace(rest);
        assert JoinWithSpace(ts) == first + " " + joined;
        if prev != [] {
          assert next == prev + " " + first;
          assert next + " " + joined == prev + " " + (first + " " + joined);
        }
      }
    }
  }

  /** Everything a session delivered, appended from an empty buffer, is
      the delivered phrases joined with single spaces. */
  lemma DeliveredTextIsJoined(s: Session)
    requires s.Valid()
    ensures AppendAll("", s.delivered) == JoinWithSpace(s.delivered)
  {
    AppendAllJoins("", s.delivered);
  }

  /** The editor's value: the buffer followed by the interim text, with a
      space between them only when both are non-empty. */
  function DisplayValue(text: string, interimText: string): (r: string)
    ensures interimText == [] ==> r == text
    ensures interimText != [] && text == [] ==> r == interimText
    ensures interimText != [] && text != [] ==> r == text + " " + interimText
    ensures text <= r
  {
    text + (if interimText != [] then (if text != [] then " " else "") + interimText else "")
  }

  /** `text.split(/\s+/).filter(Boolean).length` */
  function WordCount(text: string): (n: nat)
    ensures n == RunCount(text)
  {
    SplitCountsRuns(text);
    CountNonEmpty(SplitWhiteSpace(text))
  }

  /** The word count next to the status, shown only for a non-empty buffer. */
  function ShownWordCount(text: string): (r: Option<nat>)
    ensures r.Some? <==> text != []
    ensures r.Some? ==> r.value == RunCount(text)
  {
    if |text| > 0 then Some(WordCount(text)) else None
  }

  /** The labels of the status bar, in order. */
  function StatusLabels(isListening: bool, isConnecting: bool): (r: seq<string>)
    ensures "READY" in r <==> !isListening && !isConnecting
    ensures "LISTENING" in r <==> isListening
    ensures "CONNECTING\U{2026}" in r <==> isConnecting
    ensures 1 <= |r| <= 2
  {
    (if isListening then ["LISTENING"] else [])
    + (if isConnecting then ["CONNECTING\U{2026}"] else [])
    + (if !isListening && !isConnecting then ["READY"] else [])
  }

  /** What the mic button shows: its caption, whether it is disabled and
      whether it uses the destructive (stop) style. */
  datatype MicButton = MicButton(caption: string, disabled: bool, destructive: bool)

  /** The mic button is disabled exactly while connecting, reads "Stop"
      while listening and otherwise "Connecting…" or "Speak". */
  function MicButtonView(isListening: bool, isConnecting: bool): (b: MicButton)
    ensures b.disabled <==> isConnecting
    ensures b.destructive <==> isListening
    ensures b.caption == "Stop" <==> isListening
    ensures b.caption == "Connecting\U{2026}" <==> !isListening && isConnecting
    ensures b.caption == "Speak" <==> !isListening && !isConnecting
  {
    MicButton(if isListening then "Stop" else if isConnecting then "Connecting\U{2026}" else "Speak",
              isConnecting, isListening)
  }

  /** `disabled={!text}` of the copy and clear buttons: they are disabled
      exactly while the buffer is empty, which is exactly when no word
      count is shown. */
  function ClearDisabled(text: string): (disabled: bool)
    ensures disabled <==> text == []
    ensures disabled <==> ShownWordCount(text).None?
  {
    !(|text| > 0)
  }

  /** The page component: its transcript buffer and its session manager. */
  class Home {
    var text: string
    const stt: Session

    constructor ()
      ensures text == "" && fresh(stt) && stt.Valid()
      ensures !stt.isListening && !stt.isConnecting && stt.error == None
      ensures stt.interimText == "" && stt.recognizerRef == null && stt.delivered == []
    {
      text := "";
      stt := new Session();
    }

    /** `handleTranscript`, the `onTranscript` callback. */
    method HandleTranscript(transcript: string)
      modifies this
      ensures text == AppendTranscript(old(text), transcript)
    {
      text := AppendTranscript(text, transcript);
    }

    /** `handleToggleMic`: stop while listening, start otherwise. Returns
        the recognizer whose stop is pending (null after a start). */
    method HandleToggleMic(c: Config, setup: Setup) returns (pending: RecognizerHandle?)
      requires stt.Valid()
      modifies stt
      ensures stt.Valid() && text == old(text)
      ensures old(stt.isListening) ==>
                pending == old(stt.recognizerRef) && !stt.isListening && stt.interimText == ""
                && stt.isConnecting == old(stt.isConnecting) && stt.error == old(stt.error)
                && stt.recognizerRef == old(stt.recognizerRef)
      ensures !old(stt.isListening) ==>
                pending == null && !stt.isListening && stt.interimText == ""
                && stt.error == StartError(c, setup) && stt.isConnecting == stt.error.None?
                && (stt.error.None? ==> fresh(stt.recognizerRef) && !stt.recognizerRef.closed)
                && (stt.error.Some? ==> stt.recognizerRef == old(stt.recognizerRef))
      ensures stt.delivered == old(stt.delivered)
    {
      if stt.isListening {
        pending := stt.StopListening();
      } else {
        stt.StartListening(c, setup);
        pending := null;
      }
    }

    /** `handleClear`. */
    method HandleClear()
      modifies this
      ensures text == ""
    {
      text := "";
    }

    /** The editor's `onChange`: the buffer becomes the edited value, which
        includes any interim text that was on display. */
    method HandleEdit(value: string)
      modifies this
      ensures text == value
    {
      text := value;
    }
  }

  /** Two finalized phrases appended to an empty buffer. */
  method ScenarioTwoPhrases() returns (page: Home)
    ensures page.text == "hello world"
  {
    page := new Home();
    page.HandleTranscript("hello");
    page.HandleTranscript("world");
  }

  /** An edit made while the hook shows an interim phrase keeps that
      phrase in the buffer, so when the same phrase is finalized and
      handed to `handleTranscript` the buffer holds it twice. */
  method ScenarioEditDuringInterim(before: string, phrase: string) returns (page: Home)
    requires before != [] && phrase != [] && IsTrimmed(phrase)
    ensures page.stt.delivered == [phrase] && page.stt.interimText == ""
    ensures page.text == before + " " + phrase + " " + phrase
  {
    page := new Home();
    page.HandleTranscript(before);
    page.stt.OnRecognizing(Some(phrase));
    page.HandleEdit(DisplayValue(page.text, page.stt.interimText));
    TrimFixesTrimmed(phrase);
    page.stt.OnRecognized(RecognizedSpeech, Some(phrase));
    page.HandleTranscript(page.stt.delivered[0]);
  }
}
