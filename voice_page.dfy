/**
 * The voice chat page: its state, and the handlers that move it through
 * idle, listening, thinking and speaking. The browser's recogniser, the audio
 * element, timers and the two API routes are replaced by events and by the
 * answers they deliver.
 *
 * React callbacks read the page state of the render that created them, not
 * the live state. Every installed callback therefore carries a `Snapshot`
 * of that render, and the handlers read the snapshot, never the fields.
 */
module VoicePage {
  import opened Js
  import opened Robot
  import opened SpeechResults

  datatype Role = User | Assistant

  datatype Message = Message(role: Role, content: string)

  const Apology := "抱歉，我遇到了一些問題，請再試一次。"
  const Greeting := "你好！有什麼我可以幫助你的嗎？"

  /**
   * The page state a closure captured: the values of the render that created
   * it. `wakeThread` is the thread id held by that render's memoised
   * `startWakeWordListening`, created in the last render in which the robot
   * state or the wake mode changed.
   */
  datatype Snapshot = Snapshot(state: RobotState, wakeMode: bool, threadId: Option<string>, wakeThread: Option<string>)

  /**
   * The memoised `startWakeWordListening` of the render `snap`: it has that
   * render's state and wake mode, its dependencies, and the thread id of the
   * render that created it.
   */
  function WakeListener(snap: Snapshot): Snapshot {
    Snapshot(snap.state, snap.wakeMode, snap.wakeThread, snap.wakeThread)
  }

  /** The `onresult`/`onerror`/`onend` trio installed on the recogniser. */
  datatype Handlers = NoHandlers | PushToTalk(snap: Snapshot) | WakeWord(snap: Snapshot)

  /** The recogniser: not started, capturing, or asked to stop and not yet ended. */
  datatype Recognizer = Off | Running | Stopping

  /** The audio element: silent, or playing with an `onended` closed over `onEnded`. */
  datatype Audio = Silent | Playing(onEnded: Snapshot)

  /** A pending `setTimeout` restart of wake-word listening. */
  datatype Timer = RetryAfterError(snap: Snapshot) | RestartAfterEnd(snap: Snapshot)

  /** What `/api/chat` gave back, as the page reads it: the reply, or any failure. */
  datatype ChatReply = ChatOk(message: string, threadId: Option<string>) | ChatFailed

  /**
   * How `playTTS` went: the text is playing; `/api/tts` failed before the
   * audio element was touched; or `audio.play()` was rejected after the new
   * source and `onended` were set, which stops any earlier playback.
   */
  datatype SpeechOutcome = PlaybackStarted | TtsFailed | PlayRejected

  /** The chat route as the page sees it: the reply to a message sent with a thread id. */
  type Assistant = (string, Option<string>) -> ChatReply

  /** Speech synthesis and playback as the page sees them. */
  type Speech = string -> SpeechOutcome

  /** The assistant message a reply adds to the conversation. */
  function ReplyText(reply: ChatReply): string {
    if reply.ChatOk? then reply.message else Apology
  }

  /** `if (data.threadId) setThreadId(data.threadId)` */
  function NextThreadId(current: Option<string>, reply: ChatReply): (t: Option<string>)
    ensures t != current ==> reply.ChatOk? && Truthy(reply.threadId) && t == reply.threadId
    ensures reply.ChatOk? && Truthy(reply.threadId) ==> t == reply.threadId
    ensures !(reply.ChatOk? && Truthy(reply.threadId)) ==> t == current
  {
    if reply.ChatOk? && Truthy(reply.threadId) then reply.threadId else current
  }

  /** The states `playTTS` passes through: speaking, and back to idle at once if it failed. */
  function SpeechStates(outcome: SpeechOutcome): (states: seq<RobotState>)
    ensures 1 <= |states| <= 2 && states[0] == Speaking
    ensures states[|states| - 1] == Idle <==> !outcome.PlaybackStarted?
  {
    if outcome.PlaybackStarted? then [Speaking] else [Speaking, Idle]
  }

  /**
   * The audio element after `playTTS`: playing with an `onended` over `snap`;
   * as it was when the request failed; silent, with no `ended` event to come,
   * when `play()` was rejected.
   */
  function AudioAfter(outcome: SpeechOutcome, snap: Snapshot, before: Audio): Audio {
    match outcome
    case PlaybackStarted => Playing(snap)
    case TtsFailed => before
    case PlayRejected => Silent
  }

  /** Wake-word listening refuses to start while thinking or speaking. */
  predicate MayListenForWakeWord(s: RobotState) {
    s != Thinking && s != Speaking
  }

  /**
   * Timers come from wake-word callbacks, so their snapshots were allowed to
   * listen; a restart after `onend` is only scheduled from an idle render in
   * wake mode.
   */
  predicate TimerFromWakeWord(t: Timer) {
    MayListenForWakeWord(t.snap.state) &&
    (t.RestartAfterEnd? ==> t.snap.wakeMode && t.snap.state == Idle)
  }

  /** A result the wake-word `onresult` forwards when it holds no wake word. */
  predicate Forwards(r: RecognitionResult, wakeMode: bool) {
    r.isFinal && !wakeMode && !Blank(r.transcript)
  }

  /** A visited result that makes the wake-word `onresult` act. */
  predicate WakeTriggers(r: RecognitionResult, wakeMode: bool) {
    IsWakeUtterance(r.transcript) || Forwards(r, wakeMode)
  }

  /** The recogniser after `recognition.start()`: an ended one runs; on a live one it throws. */
  function Started(r: Recognizer): Recognizer {
    if r == Off then Running else r
  }

  /** The recogniser after `recognition.stop()`: a running one starts stopping. */
  function Stopped(r: Recognizer): Recognizer {
    if r == Running then Stopping else r
  }

  /**
   * The messages a final result adds when the wake-word `onresult` forwards
   * it: the user's words and the reply to them on the captured thread.
   * Results that are not final, are blank, or arrive while the captured
   * wake mode is on add nothing.
   */
  function Exchange(r: RecognitionResult, snap: Snapshot, assistant: Assistant): seq<Message> {
    if Forwards(r, snap.wakeMode) then
      [Message(User, r.transcript), Message(Assistant, ReplyText(assistant(r.transcript, snap.threadId)))]
    else []
  }

  /** The messages results `lo` to `hi` (exclusive) add when none is a wake word, in order. */
  function Exchanges(results: seq<RecognitionResult>, lo: nat, hi: nat, snap: Snapshot, assistant: Assistant): seq<Message>
    requires hi <= |results|
    decreases hi
  {
    if hi <= lo then []
    else Exchanges(results, lo, hi - 1, snap, assistant) + Exchange(results[hi - 1], snap, assistant)
  }

  /** The reply a forwarded result gets: the assistant's answer on the captured thread. */
  function ReplyTo(r: RecognitionResult, snap: Snapshot, assistant: Assistant): ChatReply {
    assistant(r.transcript, snap.threadId)
  }

  /** The thread id after results `lo` to `hi` (exclusive) were forwarded, starting from `t`. */
  function ThreadAfter(results: seq<RecognitionResult>, lo: nat, hi: nat, snap: Snapshot, assistant: Assistant,
                       t: Option<string>): Option<string>
    requires hi <= |results|
    decreases hi
  {
    if hi <= lo then t
    else
      var before := ThreadAfter(results, lo, hi - 1, snap, assistant, t);
      if Forwards(results[hi - 1], snap.wakeMode) then NextThreadId(before, ReplyTo(results[hi - 1], snap, assistant))
      else before
  }

  /** The robot states results `lo` to `hi` (exclusive) pass through: thinking, then speaking each reply. */
  function StatesAfter(results: seq<RecognitionResult>, lo: nat, hi: nat, snap: Snapshot, assistant: Assistant,
                       speech: Speech): seq<RobotState>
    requires hi <= |results|
    decreases hi
  {
    if hi <= lo then []
    else
      StatesAfter(results, lo, hi - 1, snap, assistant, speech) +
      (if Forwards(results[hi - 1], snap.wakeMode)
       then [Thinking] + SpeechStates(speech(ReplyText(ReplyTo(results[hi - 1], snap, assistant))))
       else [])
  }

  /** The audio element after results `lo` to `hi` (exclusive) were forwarded, starting from `a`. */
  function AudioAfterAll(results: seq<RecognitionResult>, lo: nat, hi: nat, snap: Snapshot, assistant: Assistant,
                         speech: Speech, a: Audio): Audio
    requires hi <= |results|
    decreases hi
  {
    if hi <= lo then a
    else
      var before := AudioAfterAll(results, lo, hi - 1, snap, assistant, speech, a);
      if Forwards(results[hi - 1], snap.wakeMode)
      then AudioAfter(speech(ReplyText(ReplyTo(results[hi - 1], snap, assistant))), snap, before)
      else before
  }

  /** None of results `lo` to `hi` (exclusive) holds a wake word. */
  predicate NoWakeWord(results: seq<RecognitionResult>, lo: nat, hi: nat)
    requires hi <= |results|
    decreases hi
  {
    hi <= lo || (NoWakeWord(results, lo, hi - 1) && !IsWakeUtterance(results[hi - 1].transcript))
  }

  lemma {:induction false} NoWakeWordAll(results: seq<RecognitionResult>, lo: nat, hi: nat)
    requires hi <= |results|
    ensures NoWakeWord(results, lo, hi) <==> forall j :: lo <= j < hi ==> !IsWakeUtterance(results[j].transcript)
    decreases hi
  {
    if lo < hi {
      NoWakeWordAll(results, lo, hi - 1);
    }
  }

  /** None of results `lo` to `hi` (exclusive) is forwarded. */
  predicate NoneForwarded(results: seq<RecognitionResult>, lo: nat, hi: nat, wakeMode: bool)
    requires hi <= |results|
    decreases hi
  {
    hi <= lo || (NoneForwarded(results, lo, hi - 1, wakeMode) && !Forwards(results[hi - 1], wakeMode))
  }

  lemma {:induction false} NoneForwardedAll(results: seq<RecognitionResult>, lo: nat, hi: nat, wakeMode: bool)
    requires hi <= |results|
    ensures NoneForwarded(results, lo, hi, wakeMode) <==> forall j :: lo <= j < hi ==> !Forwards(results[j], wakeMode)
    decreases hi
  {
    if lo < hi {
      NoneForwardedAll(results, lo, hi - 1, wakeMode);
    }
  }

  /**
   * The scan stops at the first wake word: when result `w` holds one and no
   * result before it acts, a scan that ends at `k` ends at `w` having
   * forwarded nothing.
   */
  lemma FirstWakeWordEndsScan(results: seq<RecognitionResult>, lo: nat, w: nat, k: nat, wakeMode: bool)
    requires lo <= w < |results| && IsWakeUtterance(results[w].transcript)
    requires forall j :: lo <= j < w ==> !WakeTriggers(results[j], wakeMode)
    requires lo <= k <= |results| && NoWakeWord(results, lo, k)
    requires k < |results| ==> IsWakeUtterance(results[k].transcript)
    ensures k == w && NoneForwarded(results, lo, k, wakeMode)
  {
    NoWakeWordAll(results, lo, k);
    NoneForwardedAll(results, lo, w, wakeMode);
  }

  class Page {
    /** Whether the browser offers a speech recogniser. */
    const hasRecognizer: bool

    var robotState: RobotState
    var messages: seq<Message>
    var currentTranscript: string
    var isWakeWordMode: bool
    var threadId: Option<string>

    var recognizer: Recognizer
    var handlers: Handlers
    var audio: Audio
    var timers: seq<Timer>

    /** Every state the page was set to, in order (each one a render). */
    var stateLog: seq<RobotState>

    /**
     * The render that created the memoised `startListening`: the last one in
     * which the robot state changed.
     */
    var listenSnap: Snapshot

    /** The thread id held by the current render's memoised `startWakeWordListening`. */
    var wakeThread: Option<string>

    ghost predicate Valid()
      reads this
    {
      (!hasRecognizer ==> recognizer == Off && handlers == NoHandlers && timers == []) &&
      // push-to-talk handlers are installed only from an idle render
      (handlers.PushToTalk? ==> handlers.snap.state == Idle) &&
      (handlers.WakeWord? ==> MayListenForWakeWord(handlers.snap.state)) &&
      (forall k :: 0 <= k < |timers| ==> TimerFromWakeWord(timers[k])) &&
      stateLog != [] && stateLog[|stateLog| - 1] == robotState &&
      listenSnap.state == robotState
    }

    /** The snapshot a callback created in the current render captures. */
    function Current(): Snapshot
      reads this
    {
      Snapshot(robotState, isWakeWordMode, threadId, wakeThread)
    }

    /**
     * The snapshot of a render in which the robot state has just changed:
     * both memoised callbacks are re-created there.
     */
    function Settled(): Snapshot
      reads this
    {
      Snapshot(robotState, isWakeWordMode, threadId, threadId)
    }

    constructor (hasRecognizer: bool)
      ensures Valid()
      ensures this.hasRecognizer == hasRecognizer
      ensures robotState == Idle && messages == [] && currentTranscript == ""
      ensures !isWakeWordMode && threadId == None
      ensures recognizer == Off && handlers == NoHandlers && audio == Silent && timers == []
      ensures stateLog == [Idle]
      ensures listenSnap == Snapshot(Idle, false, None, None) && wakeThread == None
    {
      this.hasRecognizer := hasRecognizer;
      robotState, messages, currentTranscript := Idle, [], "";
      isWakeWordMode, threadId := false, None;
      recognizer, handlers, audio, timers := Off, NoHandlers, Silent, [];
      stateLog := [Idle];
      listenSnap, wakeThread := Snapshot(Idle, false, None, None), None;
    }

    /** `setRobotState(s)`: a change re-renders and re-creates both memoised callbacks. */
    method SetState(s: RobotState)
      requires Valid()
      modifies this`robotState, this`stateLog, this`listenSnap, this`wakeThread
      ensures Valid()
      ensures robotState == s && stateLog == old(stateLog) + [s]
      ensures s == old(robotState) ==> listenSnap == old(listenSnap) && wakeThread == old(wakeThread)
      ensures s != old(robotState) ==> listenSnap == Settled() && wakeThread == threadId
    {
      if s != robotState {
        listenSnap := Snapshot(s, isWakeWordMode, threadId, threadId);
        wakeThread := threadId;
      }
      robotState := s;
      stateLog := stateLog + [s];
    }

    /** `setIsWakeWordMode(b)`: a change re-creates the memoised `startWakeWordListening`. */
    method SetWakeMode(b: bool)
      requires Valid()
      modifies this`isWakeWordMode, this`wakeThread
      ensures Valid()
      ensures isWakeWordMode == b
      ensures wakeThread == (if b != old(isWakeWordMode) then threadId else old(wakeThread))
    {
      if b != isWakeWordMode {
        wakeThread := threadId;
      }
      isWakeWordMode := b;
    }

    /** `recognition.stop()` */
    method StopRecognition()
      requires Valid()
      modifies this`recognizer
      ensures Valid()
      ensures recognizer == Stopped(old(recognizer))
    {
      if recognizer == Running {
        recognizer := Stopping;
      }
    }

    /** `recognition.start()` */
    method StartRecognition()
      requires Valid() && hasRecognizer
      modifies this`recognizer
      ensures Valid()
      ensures recognizer == Started(old(recognizer))
    {
      if recognizer == Off {
        recognizer := Running;
      }
    }

    /**
     * `startListening`, the button's `onPress`. It is the memoised callback,
     * so the handlers it installs close over `listenSnap`, not the live fields.
     */
    method StartListening()
      requires Valid()
      modifies this
      ensures Valid()
      ensures !(hasRecognizer && old(robotState) == Idle) ==> unchanged(this)
      ensures hasRecognizer && old(robotState) == Idle ==>
        robotState == Listening && stateLog == old(stateLog) + [Listening] &&
        listenSnap == Settled() && wakeThread == threadId &&
        currentTranscript == "" &&
        handlers == PushToTalk(old(listenSnap)) &&
        recognizer == Started(old(recognizer)) &&
        messages == old(messages) && threadId == old(threadId) &&
        isWakeWordMode == old(isWakeWordMode) && audio == old(audio) && timers == old(timers)
    {
      if !hasRecognizer || robotState != Idle {
        return;
      }
      var snap := listenSnap;
      SetState(Listening);
      currentTranscript := "";
      handlers := PushToTalk(snap);
      StartRecognition();
    }

    /** `stopListening`, the button's `onRelease`. */
    method StopListening()
      requires Valid()
      modifies this`recognizer
      ensures Valid()
      ensures recognizer == Stopped(old(recognizer))
    {
      if hasRecognizer {
        StopRecognition();
      }
    }

    /** `playTTS(text)`, as created in the render captured by `snap`. */
    method PlayTTS(text: string, snap: Snapshot, speech: Speech)
      requires Valid()
      modifies this
      ensures Valid()
      ensures stateLog == old(stateLog) + SpeechStates(speech(text))
      ensures audio == AudioAfter(speech(text), snap, old(audio))
      // speaking from a render that was already speaking re-renders nothing
      ensures old(robotState) == Speaking && speech(text).PlaybackStarted? ==>
        listenSnap == old(listenSnap) && wakeThread == old(wakeThread)
      ensures !(old(robotState) == Speaking && speech(text).PlaybackStarted?) ==>
        listenSnap == Settled() && wakeThread == threadId
      ensures messages == old(messages) && threadId == old(threadId)
      ensures currentTranscript == old(currentTranscript) && isWakeWordMode == old(isWakeWordMode)
      ensures recognizer == old(recognizer) && handlers == old(handlers) && timers == old(timers)
    {
      SetState(Speaking);
      var outcome := speech(text);
      if outcome == PlaybackStarted {
        audio := Playing(snap);
      } else {
        if outcome == PlayRejected {
          audio := Silent;
        }
        SetState(Idle);
      }
    }

    /** `sendToAssistant(userMessage)`, as created in the render captured by `snap`. */
    method SendToAssistant(userMessage: string, snap: Snapshot, assistant: Assistant, speech: Speech)
      requires Valid()
      modifies this
      ensures Valid()
      ensures var reply := assistant(userMessage, snap.threadId);
        messages == old(messages) + [Message(User, userMessage), Message(Assistant, ReplyText(reply))] &&
        threadId == NextThreadId(old(threadId), reply)
      ensures var text := ReplyText(assistant(userMessage, snap.threadId));
        stateLog == old(stateLog) + [Thinking] + SpeechStates(speech(text)) &&
        audio == AudioAfter(speech(text), snap, old(audio))
      ensures listenSnap == Settled() && wakeThread == threadId
      ensures currentTranscript == old(currentTranscript) && isWakeWordMode == old(isWakeWordMode)
      ensures recognizer == old(recognizer) && handlers == old(handlers) && timers == old(timers)
    {
      SetState(Thinking);
      messages := messages + [Message(User, userMessage)];
      // the reply, or the apology when the request or its answer failed
      var reply := assistant(userMessage, snap.threadId);
      threadId := NextThreadId(threadId, reply);
      var text := ReplyText(reply);
      messages := messages + [Message(Assistant, text)];
      PlayTTS(text, snap, speech);
    }

    /** `startWakeWordListening`, the memoised callback whose render is `snap`. */
    method StartWakeWordListening(snap: Snapshot)
      requires Valid()
      modifies this
      ensures Valid()
      ensures !(hasRecognizer && MayListenForWakeWord(snap.state)) ==> unchanged(this)
      ensures hasRecognizer && MayListenForWakeWord(snap.state) ==>
        handlers == WakeWord(snap) && recognizer == Started(old(recognizer)) &&
        robotState == old(robotState) && stateLog == old(stateLog) &&
        listenSnap == old(listenSnap) && wakeThread == old(wakeThread) &&
        messages == old(messages) && threadId == old(threadId) &&
        currentTranscript == old(currentTranscript) && isWakeWordMode == old(isWakeWordMode) &&
        audio == old(audio) && timers == old(timers)
    {
      if !hasRecognizer || !MayListenForWakeWord(snap.state) {
        return;
      }
      handlers := WakeWord(snap);
      StartRecognition();
    }

    /** `toggleWakeWordMode`, the header switch. */
    method ToggleWakeWordMode()
      requires Valid()
      modifies this
      ensures Valid()
      ensures isWakeWordMode == !old(isWakeWordMode) && wakeThread == threadId
      ensures old(isWakeWordMode) ==>
        recognizer == Stopped(old(recognizer)) && handlers == old(handlers)
      // switching on calls this render's `startWakeWordListening`, whose wake mode is still off
      ensures !old(isWakeWordMode) && hasRecognizer && MayListenForWakeWord(old(robotState)) ==>
        handlers == WakeWord(Snapshot(old(robotState), false, old(wakeThread), old(wakeThread))) &&
        recognizer == Started(old(recognizer))
      ensures !old(isWakeWordMode) && !(hasRecognizer && MayListenForWakeWord(old(robotState))) ==>
        handlers == old(handlers) && recognizer == old(recognizer)
      ensures robotState == old(robotState) && stateLog == old(stateLog) && listenSnap == old(listenSnap)
      ensures messages == old(messages) && threadId == old(threadId)
      ensures currentTranscript == old(currentTranscript) && audio == old(audio) && timers == old(timers)
    {
      if isWakeWordMode {
        SetWakeMode(false);
        StopListening();
      } else {
        var snap := WakeListener(Current());
        SetWakeMode(true);
        StartWakeWordListening(snap);
      }
    }

    /** The push-to-talk `onresult` receives a result list. */
    method PushToTalkResult(resultIndex: nat, results: seq<RecognitionResult>, assistant: Assistant, speech: Speech)
      requires Valid() && handlers.PushToTalk?
      modifies this
      ensures Valid()
      ensures var f := Joined(Visited(results, resultIndex), true);
        currentTranscript == Displayed(f, Joined(Visited(results, resultIndex), false)) &&
        (f == "" ==>
           robotState == old(robotState) && stateLog == old(stateLog) && messages == old(messages) &&
           threadId == old(threadId) && recognizer == old(recognizer) && audio == old(audio) &&
           listenSnap == old(listenSnap) && wakeThread == old(wakeThread))
      ensures var f := Joined(Visited(results, resultIndex), true);
        var snap := old(handlers).snap;
        var reply := assistant(f, snap.threadId);
        f != "" ==>
          recognizer == Stopped(old(recognizer)) &&
          messages == old(messages) + [Message(User, f), Message(Assistant, ReplyText(reply))] &&
          threadId == NextThreadId(old(threadId), reply) &&
          stateLog == old(stateLog) + [Thinking] + SpeechStates(speech(ReplyText(reply))) &&
          audio == AudioAfter(speech(ReplyText(reply)), snap, old(audio)) &&
          listenSnap == Settled() && wakeThread == threadId
      ensures handlers == old(handlers) && timers == old(timers) && isWakeWordMode == old(isWakeWordMode)
    {
      var snap := handlers.snap;
      var f, i := SplitResults(results, resultIndex);
      currentTranscript := Displayed(f, i);
      if f != "" {
        StopRecognition();
        SendToAssistant(f, snap, assistant, speech);
      }
    }

    /**
     * The wake-word `onresult` heard a wake word: it stops listening, leaves
     * wake mode, adds the greeting and speaks it.
     */
    method Greet(snap: Snapshot, speech: Speech)
      requires Valid()
      modifies this
      ensures Valid()
      ensures !isWakeWordMode && recognizer == Stopped(old(recognizer)) &&
        messages == old(messages) + [Message(Assistant, Greeting)] &&
        stateLog == old(stateLog) + SpeechStates(speech(Greeting)) &&
        audio == AudioAfter(speech(Greeting), snap, old(audio)) &&
        threadId == old(threadId)
      ensures !(old(robotState) == Speaking && speech(Greeting).PlaybackStarted?) ==>
        listenSnap == Settled() && wakeThread == threadId
      ensures old(robotState) == Speaking && speech(Greeting).PlaybackStarted? ==>
        listenSnap == old(listenSnap) && wakeThread == (if old(isWakeWordMode) then threadId else old(wakeThread))
      ensures handlers == old(handlers) && timers == old(timers) && currentTranscript == old(currentTranscript)
    {
      StopRecognition();
      SetWakeMode(false);
      messages := messages + [Message(Assistant, Greeting)];
      PlayTTS(Greeting, snap, speech);
    }

    /**
     * One pass of the wake-word `onresult` loop over result `r`: a wake word
     * stops listening, leaves wake mode and greets (and ends the loop); a
     * non-blank final utterance, when the captured mode was off, stops
     * listening and is sent to the assistant.
     */
    method WakeWordStep(r: RecognitionResult, snap: Snapshot, assistant: Assistant, speech: Speech)
      returns (greeted: bool)
      requires Valid()
      modifies this
      ensures Valid()
      ensures greeted == IsWakeUtterance(r.transcript)
      ensures greeted ==>
        !isWakeWordMode && recognizer == Stopped(old(recognizer)) &&
        messages == old(messages) + [Message(Assistant, Greeting)] &&
        stateLog == old(stateLog) + SpeechStates(speech(Greeting)) &&
        audio == AudioAfter(speech(Greeting), snap, old(audio)) &&
        threadId == old(threadId)
      ensures greeted && !(old(robotState) == Speaking && speech(Greeting).PlaybackStarted?) ==>
        listenSnap == Settled() && wakeThread == threadId
      ensures greeted && old(robotState) == Speaking && speech(Greeting).PlaybackStarted? ==>
        listenSnap == old(listenSnap) && wakeThread == (if old(isWakeWordMode) then threadId else old(wakeThread))
      ensures !greeted && WakeTriggers(r, snap.wakeMode) ==>
        var reply := assistant(r.transcript, snap.threadId);
        recognizer == Stopped(old(recognizer)) && isWakeWordMode == old(isWakeWordMode) &&
        messages == old(messages) + [Message(User, r.transcript), Message(Assistant, ReplyText(reply))] &&
        threadId == NextThreadId(old(threadId), reply) &&
        stateLog == old(stateLog) + [Thinking] + SpeechStates(speech(ReplyText(reply))) &&
        audio == AudioAfter(speech(ReplyText(reply)), snap, old(audio)) &&
        listenSnap == Settled() && wakeThread == threadId
      ensures !WakeTriggers(r, snap.wakeMode) ==> unchanged(this)
      ensures !greeted ==>
        messages == old(messages) + Exchange(r, snap, assistant) &&
        recognizer == (if Exchange(r, snap, assistant) == [] then old(recognizer) else Stopped(old(recognizer)))
      ensures handlers == old(handlers) && timers == old(timers) && currentTranscript == old(currentTranscript)
    {
      greeted := IsWakeUtterance(r.transcript);
      if greeted {
        Greet(snap, speech);
      } else if Forwards(r, snap.wakeMode) {
        StopRecognition();
        SendToAssistant(r.transcript, snap, assistant, speech);
      }
    }

    /**
     * The page after the result loop forwarded results `lo` to `k`
     * (exclusive), starting from messages `m0`, thread id `t0`, state log
     * `log0`, audio `a0` and recogniser `rec0`.
     */
    ghost predicate ScannedTo(results: seq<RecognitionResult>, lo: nat, k: nat, snap: Snapshot,
                              assistant: Assistant, speech: Speech, m0: seq<Message>, t0: Option<string>,
                              log0: seq<RobotState>, a0: Audio, rec0: Recognizer)
      requires k <= |results|
      reads this
    {
      messages == m0 + Exchanges(results, lo, k, snap, assistant) &&
      recognizer == (if |messages| == |m0| then rec0 else Stopped(rec0)) &&
      threadId == ThreadAfter(results, lo, k, snap, assistant, t0) &&
      stateLog == log0 + StatesAfter(results, lo, k, snap, assistant, speech) &&
      audio == AudioAfterAll(results, lo, k, snap, assistant, speech, a0) &&
      (!NoneForwarded(results, lo, k, snap.wakeMode) ==> listenSnap == Settled() && wakeThread == threadId)
    }

    /**
     * One pass of the result loop over result `k`, which holds no wake word:
     * a forwarded result adds its exchange, its thread id, its states and its
     * playback to what the results before it did; any other changes nothing.
     */
    method ForwardResult(results: seq<RecognitionResult>, lo: nat, k: nat, snap: Snapshot,
                         assistant: Assistant, speech: Speech, ghost m0: seq<Message>, ghost t0: Option<string>,
                         ghost log0: seq<RobotState>, ghost a0: Audio, ghost rec0: Recognizer)
      requires Valid() && lo <= k < |results| && !IsWakeUtterance(results[k].transcript)
      requires ScannedTo(results, lo, k, snap, assistant, speech, m0, t0, log0, a0, rec0)
      modifies this
      ensures Valid()
      ensures ScannedTo(results, lo, k + 1, snap, assistant, speech, m0, t0, log0, a0, rec0)
      ensures !Forwards(results[k], snap.wakeMode) ==> unchanged(this)
      ensures isWakeWordMode == old(isWakeWordMode)
      ensures handlers == old(handlers) && timers == old(timers) && currentTranscript == old(currentTranscript)
    {
      var greeted := WakeWordStep(results[k], snap, assistant, speech);
      if Forwards(results[k], snap.wakeMode) {
        assert !NoneForwarded(results, lo, k + 1, snap.wakeMode);
      } else {
        assert Exchanges(results, lo, k + 1, snap, assistant) == Exchanges(results, lo, k, snap, assistant);
        assert StatesAfter(results, lo, k + 1, snap, assistant, speech) == StatesAfter(results, lo, k, snap, assistant, speech);
      }
    }

    /**
     * The result loop up to its first wake word: visits the results from
     * `resultIndex` on, forwarding each final one, and stops at the first
     * result that holds a wake word, or after the last one.
     */
    method ForwardUntilWakeWord(resultIndex: nat, results: seq<RecognitionResult>, snap: Snapshot,
                                assistant: Assistant, speech: Speech)
      returns (k: nat)
      requires Valid() && resultIndex <= |results|
      modifies this
      ensures Valid()
      ensures resultIndex <= k <= |results|
      ensures k < |results| ==> IsWakeUtterance(results[k].transcript)
      ensures NoWakeWord(results, resultIndex, k)
      ensures ScannedTo(results, resultIndex, k, snap, assistant, speech,
                        old(messages), old(threadId), old(stateLog), old(audio), old(recognizer))
      ensures NoneForwarded(results, resultIndex, k, snap.wakeMode) ==> unchanged(this)
      ensures isWakeWordMode == old(isWakeWordMode)
      ensures handlers == old(handlers) && timers == old(timers) && currentTranscript == old(currentTranscript)
    {
      k := resultIndex;
      while k < |results| && !IsWakeUtterance(results[k].transcript)
        invariant Valid()
        invariant resultIndex <= k <= |results|
        invariant NoWakeWord(results, resultIndex, k)
        invariant ScannedTo(results, resultIndex, k, snap, assistant, speech,
                            old(messages), old(threadId), old(stateLog), old(audio), old(recognizer))
        invariant NoneForwarded(results, resultIndex, k, snap.wakeMode) ==> unchanged(this)
        invariant isWakeWordMode == old(isWakeWordMode)
        invariant handlers == old(handlers) && timers == old(timers) && currentTranscript == old(currentTranscript)
        decreases |results| - k
      {
        ForwardResult(results, resultIndex, k, snap, assistant, speech,
                      old(messages), old(threadId), old(stateLog), old(audio), old(recognizer));
        k := k + 1;
      }
    }

    /**
     * The wake-word `onresult` receives a result list. It forwards results
     * until one holds a wake word, greets on that one and returns.
     */
    method WakeWordResult(resultIndex: nat, results: seq<RecognitionResult>, assistant: Assistant, speech: Speech)
      requires Valid() && handlers.WakeWord?
      modifies this
      ensures Valid()
      ensures old(messages) <= messages
      ensures (forall k :: resultIndex <= k < |results| ==> !WakeTriggers(results[k], old(handlers).snap.wakeMode))
              ==> unchanged(this)
      ensures (exists k :: resultIndex <= k < |results| && IsWakeUtterance(results[k].transcript))
              ==> !isWakeWordMode && recognizer != Running &&
                  messages != [] && messages[|messages| - 1] == Message(Assistant, Greeting)
      // a wake word after results that are not forwarded: greet, and nothing else
      ensures (exists k :: resultIndex <= k < |results| && IsWakeUtterance(results[k].transcript) &&
                           forall j :: resultIndex <= j < k ==> !WakeTriggers(results[j], old(handlers).snap.wakeMode))
              ==> !isWakeWordMode && recognizer == Stopped(old(recognizer)) &&
                  messages == old(messages) + [Message(Assistant, Greeting)] &&
                  stateLog == old(stateLog) + SpeechStates(speech(Greeting)) &&
                  audio == AudioAfter(speech(Greeting), old(handlers).snap, old(audio)) &&
                  threadId == old(threadId)
      // no wake word: each forwarded final result adds its exchange, in order
      ensures (forall k :: resultIndex <= k < |results| ==> !IsWakeUtterance(results[k].transcript)) ==>
        isWakeWordMode == old(isWakeWordMode) &&
        ScannedTo(results, resultIndex, |results|, old(handlers).snap, assistant, speech,
                  old(messages), old(threadId), old(stateLog), old(audio), old(recognizer))
      ensures handlers == old(handlers) && timers == old(timers) && currentTranscript == old(currentTranscript)
    {
      var snap := handlers.snap;
      if resultIndex < |results| {
        var k := ForwardUntilWakeWord(resultIndex, results, snap, assistant, speech);
        if k < |results| {
          if w :| resultIndex <= w < |results| && IsWakeUtterance(results[w].transcript) &&
                  forall j :: resultIndex <= j < w ==> !WakeTriggers(results[j], snap.wakeMode) {
            FirstWakeWordEndsScan(results, resultIndex, w, k, snap.wakeMode);
          }
          assert WakeTriggers(results[k], snap.wakeMode) && old(messages) <= messages;
          Greet(snap, speech);
        } else {
          NoWakeWordAll(results, resultIndex, k);
          NoneForwardedAll(results, resultIndex, k, snap.wakeMode);
        }
      } else {
        assert ScannedTo(results, resultIndex, |results|, snap, assistant, speech,
                         messages, threadId, stateLog, audio, recognizer);
      }
    }

    /** The recogniser reports an error to the installed `onerror`. */
    method OnRecognitionError()
      requires Valid()
      modifies this
      ensures Valid()
      ensures old(handlers).NoHandlers? ==> unchanged(this)
      ensures old(handlers).PushToTalk? ==>
        robotState == Idle && stateLog == old(stateLog) + [Idle] && timers == old(timers) &&
        (old(robotState) == Idle ==> listenSnap == old(listenSnap) && wakeThread == old(wakeThread)) &&
        (old(robotState) != Idle ==> listenSnap == Settled() && wakeThread == threadId)
      ensures old(handlers).WakeWord? ==>
        timers == old(timers) + [RetryAfterError(old(handlers).snap)] &&
        robotState == old(robotState) && stateLog == old(stateLog) &&
        listenSnap == old(listenSnap) && wakeThread == old(wakeThread)
      ensures messages == old(messages) && threadId == old(threadId) && handlers == old(handlers)
      ensures currentTranscript == old(currentTranscript) && isWakeWordMode == old(isWakeWordMode)
      ensures recognizer == old(recognizer) && audio == old(audio)
    {
      var h := handlers;
      match h
      case NoHandlers =>
      case PushToTalk(_) =>
        SetState(Idle);
      case WakeWord(snap) =>
        timers := timers + [RetryAfterError(snap)];
    }

    /**
     * The recogniser has ended and calls the installed `onend`. The
     * push-to-talk `onend` was created in an idle render, so its reset to
     * idle never fires: the state is left as it is.
     */
    method OnRecognitionEnd()
      requires Valid()
      modifies this
      ensures Valid()
      ensures recognizer == (if old(handlers).NoHandlers? then old(recognizer) else Off)
      ensures robotState == old(robotState) && stateLog == old(stateLog)
      ensures old(handlers).WakeWord? && old(handlers).snap.wakeMode && old(handlers).snap.state == Idle ==>
        timers == old(timers) + [RestartAfterEnd(old(handlers).snap)]
      ensures !(old(handlers).WakeWord? && old(handlers).snap.wakeMode && old(handlers).snap.state == Idle) ==>
        timers == old(timers)
      ensures listenSnap == old(listenSnap) && wakeThread == old(wakeThread)
      ensures messages == old(messages) && threadId == old(threadId) && handlers == old(handlers)
      ensures currentTranscript == old(currentTranscript) && isWakeWordMode == old(isWakeWordMode)
      ensures audio == old(audio)
    {
      var h := handlers;
      match h
      case NoHandlers =>
      case PushToTalk(snap) =>
        recognizer := Off;
        if snap.state == Listening {
          // the reset to idle: `snap.state` is always idle here, so it is dead code
          assert false;
        }
      case WakeWord(snap) =>
        recognizer := Off;
        if snap.wakeMode && snap.state == Idle {
          timers := timers + [RestartAfterEnd(snap)];
        }
    }

    /**
     * One pending timer, the `k`-th, runs out and runs its callback, which
     * calls the `startWakeWordListening` that scheduled it.
     */
    method FireTimer(k: nat)
      requires Valid() && k < |timers|
      modifies this
      ensures Valid()
      ensures timers == old(timers[..k] + timers[k + 1..])
      ensures var t := old(timers[k]);
        t.RestartAfterEnd? || t.snap.wakeMode ==>
          handlers == WakeWord(t.snap) && recognizer == Started(old(recognizer))
      ensures var t := old(timers[k]);
        !(t.RestartAfterEnd? || t.snap.wakeMode) ==> handlers == old(handlers) && recognizer == old(recognizer)
      ensures robotState == old(robotState) && stateLog == old(stateLog)
      ensures listenSnap == old(listenSnap) && wakeThread == old(wakeThread)
      ensures messages == old(messages) && threadId == old(threadId)
      ensures currentTranscript == old(currentTranscript) && isWakeWordMode == old(isWakeWordMode)
      ensures audio == old(audio)
    {
      var t := timers[k];
      timers := timers[..k] + timers[k + 1..];
      if t.RestartAfterEnd? || t.snap.wakeMode {
        StartWakeWordListening(t.snap);
      }
    }

    /**
     * The audio element finishes playing and calls its `onended`, which
     * restarts the `startWakeWordListening` of the render that created it.
     */
    method PlaybackEnded()
      requires Valid()
      modifies this
      ensures Valid()
      ensures old(audio).Silent? ==> unchanged(this)
      ensures old(audio).Playing? ==>
        robotState == Idle && stateLog == old(stateLog) + [Idle] && audio == Silent &&
        (old(robotState) == Idle ==> listenSnap == old(listenSnap) && wakeThread == old(wakeThread)) &&
        (old(robotState) != Idle ==> listenSnap == Settled() && wakeThread == threadId)
      ensures old(audio).Playing? ==>
        var snap := old(audio).onEnded;
        (snap.wakeMode && hasRecognizer && MayListenForWakeWord(snap.state) ==>
           handlers == WakeWord(WakeListener(snap)) && recognizer == Started(old(recognizer))) &&
        (!(snap.wakeMode && hasRecognizer && MayListenForWakeWord(snap.state)) ==>
           handlers == old(handlers) && recognizer == old(recognizer))
      ensures messages == old(messages) && threadId == old(threadId) && timers == old(timers)
      ensures currentTranscript == old(currentTranscript) && isWakeWordMode == old(isWakeWordMode)
    {
      if audio.Playing? {
        var snap := audio.onEnded;
        audio := Silent;
        SetState(Idle);
        if snap.wakeMode {
          StartWakeWordListening(WakeListener(snap));
        }
      }
    }
  }

  /**
   * A push-to-talk turn: the user says "hello", the assistant answers
   * "hi there" on thread "conv-1", and the answer plays to its end.
   */
  method PushToTalkTurn() returns (states: seq<RobotState>, log: seq<Message>, thread: Option<string>)
    ensures states == [Idle, Listening, Thinking, Speaking, Idle]
    ensures log == [Message(User, "hello"), Message(Assistant, "hi there")]
    ensures thread == Some("conv-1")
  {
    var page := new Page(true);
    page.StartListening();
    var heard := [RecognitionResult("hello", true)];
    assert Visited(heard, 0) == heard;
    JoinedSingle(heard[0]);
    page.PushToTalkResult(0, heard, (m, t) => ChatOk("hi there", Some("conv-1")), text => PlaybackStarted);
    page.PlaybackEnded();
    states, log, thread := page.stateLog, page.messages, page.threadId;
  }

  /**
   * A turn whose chat request fails and whose apology cannot be played: the
   * apology is still logged, the thread is kept, and the page is idle again.
   */
  method FailedTurn() returns (states: seq<RobotState>, log: seq<Message>, thread: Option<string>)
    ensures states == [Idle, Listening, Thinking, Speaking, Idle]
    ensures log == [Message(User, "hello"), Message(Assistant, Apology)]
    ensures thread == None
  {
    var page := new Page(true);
    page.StartListening();
    var heard := [RecognitionResult("hello", true)];
    assert Visited(heard, 0) == heard;
    JoinedSingle(heard[0]);
    page.PushToTalkResult(0, heard, (m, t) => ChatFailed, text => TtsFailed);
    states, log, thread := page.stateLog, page.messages, page.threadId;
  }

  /**
   * Wake-word mode: the switch is turned on and the user says a wake word.
   * The greeting is logged and spoken and wake mode is switched off; when the
   * greeting ends the listening is not restarted, since every callback of
   * this session was created while wake mode was still off.
   */
  method WakeWordGreeting() returns (states: seq<RobotState>, log: seq<Message>, wakeMode: bool, restarted: bool)
    ensures states == [Idle, Speaking, Idle]
    ensures log == [Message(Assistant, Greeting)]
    ensures !wakeMode && !restarted
  {
    var page := new Page(true);
    page.ToggleWakeWordMode();
    var before := page.handlers;
    var heard := [RecognitionResult("嗨，你在嗎", false)];
    WakeWordAnywhere("", "嗨", "，你在嗎");
    assert "" + "嗨" + "，你在嗎" == heard[0].transcript;
    page.WakeWordResult(0, heard, (m, t) => ChatFailed, text => PlaybackStarted);
    page.PlaybackEnded();
    states, log, wakeMode := page.stateLog, page.messages, page.isWakeWordMode;
    restarted := page.handlers != before || page.recognizer == Running;
  }

  /**
   * Wake mode switched on while idle, a wake-word session that ends, then a
   * push-to-talk turn. The push-to-talk callbacks come from the first render,
   * when wake mode was still off, so the end of the reply does not restart
   * wake-word listening although wake mode is on.
   */
  method StaleWakeModeTurn() returns (wakeMode: bool, restarted: bool, log: seq<Message>)
    ensures wakeMode && !restarted
    ensures log == [Message(User, "hello"), Message(Assistant, "hi there")]
  {
    var page := new Page(true);
    page.ToggleWakeWordMode();
    page.OnRecognitionEnd();
    page.StartListening();
    var heard := [RecognitionResult("hello", true)];
    assert Visited(heard, 0) == heard;
    JoinedSingle(heard[0]);
    page.PushToTalkResult(0, heard, (m, t) => ChatOk("hi there", Some("conv-1")), text => PlaybackStarted);
    page.PlaybackEnded();
    wakeMode, log := page.isWakeWordMode, page.messages;
    restarted := page.handlers.WakeWord? || page.recognizer == Running;
  }
}
