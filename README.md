# Voice chat client: turn-state machine, chat and speech routes

A Dafny model of the logic in a browser voice assistant built on Next.js.
The page listens through the browser's speech recogniser. It sends the final
transcript to a chat route that drives an assistant thread. It then speaks the
reply through a text-to-speech route. A robot state (`idle`, `listening`,
`thinking`, `speaking`) shows where the turn is. A microphone button starts
listening; the button also has a stop branch, but the page disables the button
outside `idle`, so that branch is never reached. A wake-word mode listens
continuously for a greeting.

Modules:

- `Js` (`js.dfy`): JavaScript values the code branches on. It has `Option`, a
  `Result` for calls that may throw, the value a `catch` receives, and
  truthiness of a string field.
- `Robot` (`robot.dfy`): the four robot states.
- `VoiceButton` (`voice_button.dfy`): pure. Decides which of `onPress` and
  `onRelease` a click or a touch-start invokes.
- `TtsRoute` (`tts_route.dfy`): pure. `POST /api/tts` checks the text,
  defaults the voice, cuts the text to 4000 characters and calls speech
  synthesis. The synthesis service is a function parameter.
- `ChatRoute` (`chat_route.dfy`): imperative.
  - `POST /api/chat` checks the message and reuses or creates a thread.
  - It polls the run in a bounded loop (`PollRun`).
  - It picks the first assistant message and concatenates its text parts in a
    loop (`ResponseText`).
  - The Assistants API is a value `Sdk`. It gives what each call returns or
    throws. The k-th `retrieve` is `sdk.retrieve(k)`.
  - `Post` also returns the list of API calls it made. So "no thread or run
    work on a 400" and "every call uses the same thread" can be stated.
- `SpeechResults` (`speech_results.dfy`): the pure parts of the page.
  - The `onresult` split of results into final and interim text. It is a
    loop, proved against `Joined`.
  - The text shown while listening.
  - The wake-word test, with `includes` and `toLowerCase`.
  - The `trim()` test.
- `VoicePage` (`voice_page.dfy`): the page as a class `Page`.
  - Its fields are `robotState`, `messages`, `currentTranscript`,
    `isWakeWordMode` and `threadId`.
  - It also has the recogniser, the installed recogniser callbacks, the audio
    element and the pending timers.
  - `stateLog` records every `setRobotState` call, so a whole turn's sequence
    of states can be stated.
  - Each handler of the page is one method.
  - The wake-word `onresult` loop forwards results until one holds a wake
    word, then greets and returns. The model writes it as a scan that forwards
    up to the first wake word (`ForwardUntilWakeWord`, one `ForwardResult`
    per result), followed by the greeting (`Greet`) for that result.
    `ScannedTo` states the page after the scan: the messages, thread id,
    state log and audio that the forwarded results produce in order
    (`Exchanges`, `ThreadAfter`, `StatesAfter`, `AudioAfterAll`).

**Captured state.** A React callback reads `robotState`, `isWakeWordMode` and
`threadId` as they were in the render that created it. Every installed
callback in the model carries such a `Snapshot`. This covers the recogniser's
`onresult`/`onerror`/`onend`, the audio element's `onended` and each pending
timer. The handlers read the snapshot, never the live fields.

`startListening` and `startWakeWordListening` are memoised with `useCallback`
(app/page.tsx:166 and 229). The page therefore holds the versions created in
the last render in which their dependencies changed. `startListening` depends
on `robotState` alone, and `startWakeWordListening` on `robotState` and
`isWakeWordMode`. The model keeps these renders as two fields:

- `listenSnap` is the render in which the robot state last changed.
- `wakeThread` is the thread id seen by the memoised wake-word starter.

`SetState` and `SetWakeMode` update them exactly when the value changes.
Three consequences are proved:

- The push-to-talk `onend` is created in an idle render, because of the guard
  at app/page.tsx:125. So its reset to idle never runs. The dead branch holds
  `assert false`.
- Turning wake-word mode on starts listening with callbacks from a render in
  which the mode was still off. Their `onend` and `onerror` therefore never
  restart listening. Their `onresult` forwards any non-blank final utterance
  that holds no wake word to the assistant.
- Push-to-talk callbacks read the wake mode of the render in which the robot
  state last changed, not the current one. Suppose wake mode is switched on
  while idle and a push-to-talk turn follows. The end of that reply does not
  restart wake-word listening (`StaleWakeModeTurn`).

Chat replies and speech outcomes are function parameters: the assistant's
reply to a message and thread id, and how the speech for a text went: it
started playing, the `/api/tts` request failed, or `play()` was rejected. Each
handler runs as one atomic step.

## Model

| member | source | states |
|---|---|---|
| `VoiceButton.ExactlyOneFlag` | components/VoiceButton.tsx:18-21 | for every state exactly one of isListening, isThinking, isSpeaking, isIdle holds |
| `VoiceButton.HandleClick` | components/VoiceButton.tsx:24-40 | a click calls onPress iff enabled and idle, calls onRelease iff enabled and listening, and never calls both |
| `VoiceButton.HandleTouchStart` | components/VoiceButton.tsx:43-47 | touch-start calls onPress iff not disabled and idle, and never calls onRelease |
| `VoiceButton.ClickWhenBlockedCallsNothing` | components/VoiceButton.tsx:28-40 | a click while disabled, thinking or speaking invokes neither callback |
| `VoiceButton.EnabledClickCallsOne` | components/VoiceButton.tsx:65 | when the button element is enabled, a click invokes exactly one callback |
| `VoiceButton.PageWiringNeverReleases` | components/VoiceButton.tsx:28-34 | with disabled = (state != idle), as app/page.tsx:321 wires it, a click never reaches onRelease and presses exactly when idle |
| `TtsRoute.Truncate` | app/api/tts/route.ts:20 | the spoken text has length min(\|text\|, 4000), is a prefix of the text, and is the text itself when it has at most 4000 characters |
| `TtsRoute.VoiceOf` | app/api/tts/route.ts:10 | an absent voice becomes "nova"; a given voice is passed unchanged |
| `TtsRoute.Post` | app/api/tts/route.ts:8-49 | status 400 "Text is required" exactly when the text is missing or empty; audio exactly when synthesis of the truncated text in the chosen voice succeeds, with Content-Length the audio's size; an unparsable body or a synthesis failure gives 500 with the error's message, or "TTS failed" |
| `ChatRoute.ThreadFor` | app/api/chat/route.ts:22-26 | a truthy threadId is used as given, with no thread created; only creating a new thread can fail, and then with that call's error |
| `ChatRoute.AbortMessage` | app/api/chat/route.ts:51 | the error text starts with "Run " and the status name, and ends with the run's last error message, or "Unknown error" when it has none |
| `ChatRoute.PollRun` | app/api/chat/route.ts:39-64 | at most 60 retrieves after the first; every retrieve but the last saw a still-open run; it stops at the first completed, failed or cancelled status; completed gives the run; failed or cancelled within the loop gives "Run <status>: <message or Unknown error>"; still not completed after 60 retries gives "Response timeout"; a throwing retrieve propagates |
| `ChatRoute.FirstAssistant` | app/api/chat/route.ts:68-72 | the index of the first message with role assistant, or none exactly when no message has that role |
| `ChatRoute.TextOfAppend` | app/api/chat/route.ts:75-80 | the reply text of concatenated parts is the concatenation of their texts (in-order accumulation) |
| `ChatRoute.TextOfIgnoresOtherParts` | app/api/chat/route.ts:76-79 | a part whose type is not text contributes nothing to the reply text |
| `ChatRoute.ResponseText` | app/api/chat/route.ts:75-80 | the loop's result is the in-order concatenation of the text parts' values |
| `ChatRoute.AwaitReply` | app/api/chat/route.ts:39-85 | from the first retrieve on, each way the request can end: a throwing retrieve gives 500 with its message; failed or cancelled before the 60th retry gives 500 "Run <status>: ..."; still open after 60 retries gives 500 "Response timeout"; after a completed run, a throwing list gives 500 with its message, no assistant message gives 500 "No assistant message found", otherwise the reply is the text of the first assistant message on the thread |
| `ChatRoute.Post` | app/api/chat/route.ts:10-94 | an unparsable body gives 500 and a missing or empty message gives 400 "Message is required", both with no API call; a throwing createThread, addMessage or createRun gives 500 with its message; past createRun each outcome is as in AwaitReply, so a completed run with an assistant message always gives the reply; the first call is CreateThread exactly when no truthy threadId was supplied; every call and the returned threadId use that one thread; at most 65 calls |
| `ChatRoute.AnsweredRequest` | app/api/chat/route.ts:22-85 | a new thread whose run completes on the third retrieve answers with the text parts of the assistant message joined, and the new thread id |
| `ChatRoute.TimedOutRequest` | app/api/chat/route.ts:46-64 | a run that stays queued ends in 500 "Response timeout" |
| `SpeechResults.JoinedAppend` | app/page.tsx:136-143 | accumulating over consecutive results concatenates the accumulations in order |
| `SpeechResults.JoinedSingle` | app/page.tsx:138-142 | one result lands in the accumulator of its own finality and adds nothing to the other |
| `SpeechResults.JoinedPartition` | app/page.tsx:136-143 | the final and interim texts together hold, as a multiset, exactly the characters of the visited transcripts, so every character lands in exactly one of them |
| `SpeechResults.SplitResults` | app/page.tsx:133-143 | the loop from resultIndex to the end yields the in-order concatenation of the final transcripts and of the interim transcripts |
| `SpeechResults.Displayed` | app/page.tsx:145 | the shown transcript is the interim text if non-empty, else the final text; it is empty only when both are |
| `SpeechResults.IncludesOccurs` | app/page.tsx:187 | `includes` holds exactly when the word occurs at some position |
| `SpeechResults.LowerKeepsWord` | app/page.tsx:184-187 | lower-casing neither creates nor removes an occurrence of a word without Latin letters |
| `SpeechResults.WakeTestIgnoresCase` | app/page.tsx:184-187 | the wake test holds exactly when the transcript itself contains 你好, 哈囉 or 嗨 |
| `SpeechResults.WakeWordAnywhere` | app/page.tsx:187 | a wake word anywhere in an utterance passes the wake test |
| `SpeechResults.Trim` | app/page.tsx:201 | the trimmed text is empty or neither begins nor ends with white space |
| `SpeechResults.BlankIsEmptyTrim` | app/page.tsx:201 | the blank test used by the model holds exactly when `trim()` leaves the empty string |
| `SpeechResults.BlankIsWhiteSpace` | app/page.tsx:201 | an utterance is blank exactly when every character is white space |
| `VoicePage.NextThreadId` | app/page.tsx:104-106 | the thread id changes only to a truthy threadId of a successful reply, and always does when one is present |
| `VoicePage.SpeechStates` | app/page.tsx:49-80 | playTTS first sets speaking and ends in idle at once exactly when the /api/tts request failed or play() was rejected |
| `VoicePage.Page.constructor` | app/page.tsx:17-21 | the page starts idle, with no messages, empty transcript, wake mode off and no thread |
| `VoicePage.Page.SetState` | app/page.tsx:166 | the state is set and logged; when it changes, the memoised callbacks are re-created over the current render, and otherwise they stay as they were |
| `VoicePage.Page.SetWakeMode` | app/page.tsx:229 | the wake mode is set; when it changes, the memoised wake-word starter is re-created with the current thread id |
| `VoicePage.Page.StartListening` | app/page.tsx:124-166 | a no-op unless a recogniser exists and the state is idle; otherwise the state becomes listening, the transcript is cleared, the push-to-talk callbacks are installed over the render in which the state last changed, and the recogniser started |
| `VoicePage.Page.StopRecognition` | app/page.tsx:148 | `recognition.stop()` (also lines 171, 188 and 202): a running recogniser starts stopping; an idle or already stopping one is left as it is |
| `VoicePage.Page.StartRecognition` | app/page.tsx:165 | `recognition.start()` (also line 225): a recogniser that has ended runs again; a live one is left as it is |
| `VoicePage.Page.StopListening` | app/page.tsx:169-173 | a running recogniser is asked to stop; nothing else changes |
| `VoicePage.Page.PlayTTS` | app/page.tsx:49-80 | sets speaking; a failed /api/tts request returns to idle and leaves the audio element as it was; a rejected play() returns to idle with the audio silent, the earlier playback cut off because the new source and onended were already set; otherwise the audio plays with an onended closed over the caller's snapshot |
| `VoicePage.Page.SendToAssistant` | app/page.tsx:83-121 | sets thinking, then appends exactly the user message and one assistant message (the reply, or the fixed apology on failure); the thread id follows NextThreadId; then speaks that message |
| `VoicePage.Page.StartWakeWordListening` | app/page.tsx:176-229 | a no-op without a recogniser or while the captured state is thinking or speaking; otherwise installs the wake-word callbacks over the captured snapshot and starts the recogniser |
| `VoicePage.Page.ToggleWakeWordMode` | app/page.tsx:232-240 | flips wake mode; switching off stops the recogniser; switching on, with a recogniser and outside thinking and speaking, installs the wake-word callbacks over the current render, in which the mode is still off, and starts the recogniser |
| `VoicePage.Page.PushToTalkResult` | app/page.tsx:132-151 | shows Displayed(final, interim); with no final text nothing else changes; with final text the recogniser is stopped and exactly one user and one assistant message are appended, the states going thinking then speaking |
| `VoicePage.Page.WakeWordStep` | app/page.tsx:184-205 | one result of the wake-word loop: it greets exactly when the lower-cased transcript holds a wake word (stopping the recogniser, leaving wake mode, appending the greeting and speaking it); otherwise a non-blank final result heard outside wake mode stops the recogniser and is sent to the assistant, with the thinking and speaking states and the audio of that exchange; anything else changes nothing |
| `VoicePage.Page.Greet` | app/page.tsx:187-195 | a wake word stops the recogniser, turns wake mode off, appends exactly the greeting and speaks it over the caller's snapshot, keeping the thread id |
| `VoicePage.Page.ForwardResult` | app/page.tsx:199-204 | one pass of the loop over a result without a wake word: a forwarded result adds its user message and reply, its thread id, its thinking and speaking states and its playback to what the earlier results did, and stops the recogniser; any other result changes nothing; wake mode is kept |
| `VoicePage.FirstWakeWordEndsScan` | app/page.tsx:183-195 | when no result before the first wake word makes the handler act, the scan ends exactly at that wake word having forwarded nothing |
| `VoicePage.Page.ForwardUntilWakeWord` | app/page.tsx:183-205 | visits the results from resultIndex on and stops at the first one holding a wake word, or after the last; every result before it holds none; the messages grow by exactly the user message and reply of each forwarded result, in order, and the thread id, state log and audio follow those replies in order; the recogniser is stopped, and the captured renders re-taken, once anything was forwarded; if nothing was forwarded nothing changes; wake mode is kept |
| `VoicePage.Page.WakeWordResult` | app/page.tsx:182-207 | messages are only appended; with no wake word and no forwarded final result nothing changes; with no wake word, wake mode is kept and the messages, recogniser, thread id, state log and audio are those the forwarded final results produce in order; a wake word stops the recogniser, turns wake mode off and leaves the greeting as the last message; a wake word after results none of which is forwarded appends only the greeting and speaks it |
| `VoicePage.Page.OnRecognitionError` | app/page.tsx:153-156 | the push-to-talk onerror returns to idle; the wake-word onerror (lines 209-215) schedules a retry timer |
| `VoicePage.Page.OnRecognitionEnd` | app/page.tsx:158-163 | the push-to-talk onend never changes the state; the wake-word onend (lines 217-222) schedules a restart only when its snapshot had wake mode on and was idle |
| `VoicePage.Page.FireTimer` | app/page.tsx:212-214 | a fired timer is removed; a restart-after-end timer, or a retry whose snapshot had wake mode on, reinstalls the wake-word callbacks and starts the recogniser; any other timer changes nothing else |
| `VoicePage.Page.PlaybackEnded` | app/page.tsx:66-73 | the end of playback returns to idle; when the onended snapshot had wake mode on and may listen, the wake-word callbacks of that render are installed and the recogniser started; otherwise the callbacks and the recogniser are unchanged |
| `VoicePage.PushToTalkTurn` | app/page.tsx:124-151 | a full turn passes through idle, listening, thinking, speaking, idle and logs the user's words and then the reply, keeping the returned thread |
| `VoicePage.FailedTurn` | app/page.tsx:115-119 | a failed chat logs the apology, keeps the thread, and a failed playback returns to idle |
| `VoicePage.StaleWakeModeTurn` | app/page.tsx:124-166 | with wake mode switched on before a push-to-talk turn, the end of the reply does not restart wake-word listening, since the push-to-talk callbacks come from a render with wake mode off |
| `VoicePage.WakeWordGreeting` | app/page.tsx:187-195 | a wake word logs and speaks the greeting and turns wake mode off; when the greeting ends, listening is not restarted |

## Left out

- Browser setup of the recogniser (app/page.tsx:28-39): its settings (continuous, interim results, zh-TW) are not modelled; `hasRecognizer` is a constructor parameter.
- Auto-scroll (app/page.tsx:42-46), all JSX and styling, `RobotAvatar`, `StatusIndicator`, `ChatBubble` and the layout: presentation only.
- `fetch`, `Blob`, object URLs and `HTMLAudioElement`: replaced by the `Assistant` and `Speech` function parameters; the audio element is assumed mounted (a missing `audioRef` would leave the page speaking).
- Async interleaving: each handler is one atomic step. When one wake-word event forwards several final results, their requests and replies are modelled one after another, not overlapped.
- Timer delays (1 s polling sleep, 5 s and 100 ms restarts): a poll is a step, and a timer fires whenever `FireTimer` is called, in any order.
- The transcription route (app/api/transcribe/route.ts): the page never calls it.
- `console.error` logging and `revokeObjectURL`: no effect on state.
- `Js.Truthy`: JSON fields are modelled as absent or a string; a non-string `message`/`text` (a number, `null`) is not modelled, nor that an explicit `null` voice is not replaced by "nova".
- `ChatRoute.Sdk`: each API call's result is fixed per request and does not depend on the arguments; what is passed is recorded in the returned call list instead.
- `SpeechResults.ToLower`: lower-cases ASCII letters only; `WakeTestIgnoresCase` shows the wake test does not depend on case for the three wake words.
- `SpeechResults.IsTrimmed`: the white-space set of `trim()` is written out by hand.
- `VoicePage.Page.StartRecognition`: `recognition.start()` on a recogniser that is still running throws in the browser; the model keeps the state changes made before it and leaves the recogniser as it was.
- `VoicePage.Page.WakeWordResult`: when a wake word follows forwarded final results in the same event, the contract states only that the greeting is the last message and that wake mode is off, not the whole list appended nor the state log, thread id and audio of that mixed case; the two halves are stated separately by `ForwardUntilWakeWord` and `Greet`.
- `TtsRoute.Truncate`: counts characters, while `slice` counts UTF-16 code units, so text with characters outside the Basic Multilingual Plane would be cut at a different place.
- `TtsRoute.Post`: the `Content-Length` header is the number of bytes, not its decimal rendering.
