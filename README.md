# Azure speech-to-text editor: session manager and page rules

This project models the browser speech-to-text editor built on the Azure
Speech SDK. The core is the `useSpeechToText` hook (`lib/use-speech-stt.ts`).
It keeps five pieces of state:

- `isListening`
- `isConnecting`
- `error`
- `interimText`
- `recognizerRef`, the current recognizer

Its steps change that state:

- `startListening`
- the recognizer's `recognizing`, `recognized`, `canceled`,
  `sessionStarted` and `sessionStopped` events
- the failure callback of the start request
- `stopListening` and the two completion callbacks of its stop request

Around the hook, the page (`app/page.tsx`) keeps the transcript buffer. It
appends each finalized phrase to the buffer with a single-space separator.
It shows the buffer plus the interim text in the editor, counts words, and
picks the status labels and the mic button's look.

Files:

- `js.dfy` (module `Js`): the JavaScript built-ins the code relies on.
  These are nullish values with `??`, the white-space set shared by
  `trim()` and `\s`, `trim()` itself, and `split(/\s+/)` with
  `filter(Boolean)`.
- `speech_session.dfy` (module `SpeechSession`): the hook as a class
  `Session`. Each handler and callback is a method that the environment may
  call in any order. The SDK is reduced to its reason codes and a
  `RecognizerHandle` with a `closed` flag. `onTranscript` becomes the field
  `delivered`, the log of every string passed to it. The file ends with
  scenario methods whose postconditions are proved from the handlers'
  contracts.
- `page.dfy` (module `Page`): the page's pure display rules as functions,
  and the component as a class `Home`. `Home` holds the buffer `text` and
  its `Session`, and its handler methods change `text` or the session.

The hook is modelled as written. The model therefore has these behaviours,
each shown by a scenario method:

- A second start overwrites the reference without closing the first
  recognizer (`ScenarioDoubleStart`).
- A stop completion clears the reference even when a newer recognizer is
  stored there (`ScenarioStaleStopCompletion`).
- A `sessionStarted` arriving after a stop sets listening again
  (`ScenarioLateSessionStarted`).
- A failed start request leaves its recognizer open and referenced
  (`ScenarioStartFailure`).
- `canceled` clears neither the connecting flag nor the interim text
  (`Session.OnCanceled`).

A design that promises a single live recognizer, release on every exit path
and no return to listening after a stop is stricter than this code.

## Model

| member | source | states |
|---|---|---|
| `Js.Coalesce` | lib/use-speech-stt.ts:58 | `v ?? d` is the value when it is defined, the default otherwise; an empty string is kept |
| `Js.Trim` | lib/use-speech-stt.ts:67 | the result of `trim()` neither starts nor ends with white space and is no longer than the input |
| `Js.TrimRemovesOnlyOuterWhiteSpace` | lib/use-speech-stt.ts:67 | the result of `trim()` is a contiguous part of the input with nothing but white space before and after it |
| `Js.TrimFixesTrimmed` | lib/use-speech-stt.ts:67 | a string with no leading or trailing white space is unchanged by `trim()` |
| `Js.TrimIdempotent` | lib/use-speech-stt.ts:67 | trimming twice is trimming once |
| `Js.TrimEmptyIffAllWhiteSpace` | lib/use-speech-stt.ts:67-69 | the trimmed text is empty exactly when the input is all white space, which decides whether a phrase is delivered |
| `Js.SplitWhiteSpace` | app/page.tsx:105 | `split(/\s+/)` gives at least one piece and no piece contains white space |
| `Js.CountNonEmpty` | app/page.tsx:105 | `filter(Boolean).length` is at most the number of pieces; its meaning on split output is stated by `Js.SplitCountsRuns` |
| `Js.SplitCountsRuns` | app/page.tsx:105 | the number of non-empty pieces of `split(/\s+/)` equals the number of maximal non-white-space runs |
| `SpeechSession.StartError` | lib/use-speech-stt.ts:24-37 | a missing or empty key or region gives the "Missing NEXT_PUBLIC_AZURE_SPEECH_KEY…" message; a set-up throw gives its message or "Failed to start listening."; there is no error exactly when the configuration is present and set-up succeeds |
| `SpeechSession.PartialText` | lib/use-speech-stt.ts:58 | the interim text is the event's text, or "" when there is none |
| `SpeechSession.FinalTranscript` | lib/use-speech-stt.ts:64-71 | a phrase is handed on exactly when the reason is RecognizedSpeech and the text is present and not all white space; the phrase is the trimmed text, non-empty and trimmed |
| `SpeechSession.CancelError` | lib/use-speech-stt.ts:82-84 | an Error cancellation sets the details, or "Speech recognition error" when there are none; any other reason keeps the previous error |
| `SpeechSession.RecognizerHandle.constructor` | lib/use-speech-stt.ts:53 | a new recognizer is open |
| `SpeechSession.RecognizerHandle.Close` | lib/use-speech-stt.ts:125 | closing leaves the recognizer closed |
| `SpeechSession.Session.constructor` | lib/use-speech-stt.ts:14-19 | the hook starts not listening, not connecting, with no error, empty interim text and no recognizer |
| `SpeechSession.Session.StartListening` | lib/use-speech-stt.ts:22-116 | on a missing configuration or set-up throw: the error is set, connecting and interim text are cleared, the reference and listening are unchanged. Otherwise: no error, connecting, empty interim text, a fresh open recognizer in the reference, and the old one is not closed |
| `SpeechSession.Session.OnRecognizing` | lib/use-speech-stt.ts:57-61 | only the interim text changes, to the partial text or "" |
| `SpeechSession.Session.OnRecognized` | lib/use-speech-stt.ts:64-76 | exactly one trimmed non-blank phrase is appended to the delivered log for recognized speech, none otherwise; the interim text is "" afterwards whatever the reason; no error is set |
| `SpeechSession.Session.OnCanceled` | lib/use-speech-stt.ts:79-86 | listening ends; the error follows the cancellation reason; connecting, interim text and the reference are untouched |
| `SpeechSession.Session.OnSessionStarted` | lib/use-speech-stt.ts:89-93 | listening starts and connecting ends, whatever the state was |
| `SpeechSession.Session.OnSessionStopped` | lib/use-speech-stt.ts:95-98 | only listening changes, to false, so a repeat changes nothing |
| `SpeechSession.Session.OnStartFailed` | lib/use-speech-stt.ts:101-110 | the error becomes the failure string and connecting ends; the recognizer stays referenced and open, and listening is unchanged |
| `SpeechSession.Session.StopListening` | lib/use-speech-stt.ts:119-137 | returns the recognizer it captured (null when there is none) and closes nothing yet; listening is false and interim text "" afterwards; error and connecting are untouched |
| `SpeechSession.Session.OnStopSucceeded` | lib/use-speech-stt.ts:122-127 | the captured recognizer is closed and the reference cleared, whatever it holds by then |
| `SpeechSession.Session.OnStopFailed` | lib/use-speech-stt.ts:128-132 | the error path of the stop request does the same as the success path: close the captured recognizer and clear the reference |
| `SpeechSession.ScenarioStreaming` | lib/use-speech-stt.ts:54-98 | after a valid start and sessionStarted, the session is listening without error; a partial result (such as "hello wor") is shown as the interim text; a final trimmed phrase (such as "hello world") is delivered exactly once and the interim text is cleared |
| `SpeechSession.ScenarioMissingKey` | lib/use-speech-stt.ts:29-37 | without a key, a start records the configuration error, creates no recognizer and delivers nothing |
| `SpeechSession.ScenarioCancelMidSession` | lib/use-speech-stt.ts:79-86 | a mid-session error cancellation with "network lost" ends listening with that error |
| `SpeechSession.ScenarioNoMatch` | lib/use-speech-stt.ts:72-75 | a no-match result delivers nothing, sets no error and clears the interim text |
| `SpeechSession.ScenarioLateSessionStarted` | lib/use-speech-stt.ts:89-93 | a sessionStarted that arrives after stop was issued (before the stop completes) sets listening again; the completion then closes the recognizer and clears the reference, leaving the hook listening with no recognizer |
| `SpeechSession.ScenarioDoubleStart` | lib/use-speech-stt.ts:53-54 | a second start leaves the first recognizer open and unreferenced |
| `SpeechSession.ScenarioStaleStopCompletion` | lib/use-speech-stt.ts:122-127 | a stop completing after a newer start clears the reference to the newer, still open, recognizer |
| `SpeechSession.ScenarioStartFailure` | lib/use-speech-stt.ts:105-110 | a failed start request keeps its recognizer open and referenced; a stop with nothing referenced captures nothing to close |
| `Page.AppendTranscript` | app/page.tsx:13-18 | an empty buffer becomes the phrase; otherwise the result is buffer, one space, phrase; the old buffer is a prefix and the length grows by the phrase's length plus one if the buffer was non-empty |
| `Page.AppendAllJoins` | app/page.tsx:13-18 | appending non-empty phrases one at a time joins them with single spaces, after the old buffer and one space when it was non-empty |
| `Page.DeliveredTextIsJoined` | app/page.tsx:13-18 | everything a session delivered, appended from an empty buffer, is the delivered phrases joined with single spaces |
| `Page.DisplayValue` | app/page.tsx:119 | the editor shows the buffer when there is no interim text; otherwise buffer and interim text, with one space between them only when the buffer is non-empty |
| `Page.WordCount` | app/page.tsx:105 | the word count is the number of maximal non-white-space runs in the buffer |
| `Page.ShownWordCount` | app/page.tsx:105 | a word count is shown exactly when the buffer is non-empty |
| `Page.StatusLabels` | app/page.tsx:73-101 | READY is shown exactly when neither listening nor connecting; LISTENING exactly while listening; CONNECTING… exactly while connecting |
| `Page.MicButtonView` | app/page.tsx:146-164 | the mic button is disabled exactly while connecting; it reads "Stop" and is destructive exactly while listening, otherwise "Connecting…" while connecting and "Speak" when idle |
| `Page.Home.constructor` | app/page.tsx:10-21 | the buffer starts empty next to a fresh idle session: not listening, not connecting, no error, empty interim text, no recognizer, nothing delivered |
| `Page.Home.HandleTranscript` | app/page.tsx:13-18 | the buffer becomes the append of the phrase to the old buffer |
| `Page.Home.HandleToggleMic` | app/page.tsx:23-29 | while listening the toggle acts as stop; otherwise it acts as start, leaving a fresh open recognizer when the start succeeds; the buffer is unchanged |
| `Page.Home.HandleClear` | app/page.tsx:31-33 | the buffer becomes empty |
| `Page.Home.HandleEdit` | app/page.tsx:120 | the buffer becomes the edited value |
| `Page.ScenarioTwoPhrases` | app/page.tsx:13-18 | "hello" then "world" from an empty buffer gives "hello world" |
| `Page.ScenarioEditDuringInterim` | app/page.tsx:119-120 | an edit while the hook's interim phrase is shown keeps that phrase in the buffer, so when the hook then delivers the same phrase the buffer holds it twice |
| `Page.ClearDisabled` | app/page.tsx:172-186 | the copy and clear buttons are disabled exactly while the buffer is empty, which is exactly when no word count is shown |

## Left out

- `Session.StartListening`: the `await import(...)` at lib/use-speech-stt.ts:40 is a suspension point. Other events could run between the configuration check and the creation of the recognizer. The model runs the whole start as one step.
- `Session.StartListening`: every set-up throw is placed before the recognizer is stored (line 54). A synchronous throw from `startContinuousRecognitionAsync` after line 54 is not modelled. Such a throw would set the error with the recognizer already stored.
- The success callback of the start request (lines 102-104) only logs, so it has no member.
- Recognizer events carry no recognizer identity. The handlers do not look at which recognizer fired, so events from an older recognizer act on the state just like events from the current one.
- `RecognizerHandle.Close`: closing is idempotent in the model. What the SDK does when a recognizer is closed twice is not modelled.
- The SDK internals are not modelled: the speech and audio configuration, the microphone, the network connection, and the recognition language "en-US".
- The `recognized` handler dereferences `event.result` without a null check. The model assumes a result is always present.
- `ResultReason` has only three values here. The SDK's other result reasons behave like `NoMatch`, apart from a log line.
- All `console.log` and `console.error` calls are left out.
- React mechanics are left out. Each setter is an immediate field write, and `useCallback` memoisation and batched re-renders are ignored.
- `handleCopy` (app/page.tsx:35-39) is left out: it does clipboard I/O and uses a timer.
- JSX, CSS classes, animations, `app/layout.tsx` and `tailwind.config.ts` hold no logic to verify.
- The white-space set follows the ECMAScript WhiteSpace and LineTerminator definitions, with the Zs space separators enumerated as of Unicode 15.
