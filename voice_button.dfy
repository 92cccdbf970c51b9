/**
 * The microphone button: which of its two callbacks a click or a touch-start
 * invokes, given the `state` and `disabled` props.
 */
module VoiceButton {
  import opened Robot

  predicate IsListening(s: RobotState) { s == Listening }
  predicate IsThinking(s: RobotState) { s == Thinking }
  predicate IsSpeaking(s: RobotState) { s == Speaking }
  predicate IsIdle(s: RobotState) { s == Idle }

  /** Which callbacks one event invoked. */
  datatype Calls = Calls(press: bool, release: bool)

  const Neither := Calls(false, false)

  /** The four state flags are mutually exclusive and cover every state. */
  lemma ExactlyOneFlag(s: RobotState)
    ensures IsListening(s) || IsThinking(s) || IsSpeaking(s) || IsIdle(s)
    ensures !(IsListening(s) && (IsThinking(s) || IsSpeaking(s) || IsIdle(s)))
    ensures !(IsThinking(s) && (IsSpeaking(s) || IsIdle(s)))
    ensures !(IsSpeaking(s) && IsIdle(s))
  {
  }

  /** The `disabled` attribute of the rendered button element. */
  predicate ElementDisabled(s: RobotState, disabled: bool) {
    IsThinking(s) || IsSpeaking(s) || disabled
  }

  /** The click handler: stop while listening, start while idle, otherwise nothing. */
  function HandleClick(s: RobotState, disabled: bool): (c: Calls)
    ensures !(c.press && c.release)
    ensures c.press <==> !disabled && IsIdle(s)
    ensures c.release <==> !disabled && IsListening(s)
  {
    if disabled then Neither
    else if IsListening(s) then Calls(false, true)
    else if IsIdle(s) then Calls(true, false)
    else Neither
  }

  /** The touch-start handler: start only when enabled and idle; never stops. */
  function HandleTouchStart(s: RobotState, disabled: bool): (c: Calls)
    ensures !c.release
    ensures c.press <==> !disabled && IsIdle(s)
  {
    if disabled || !IsIdle(s) then Neither else Calls(true, false)
  }

  /** A click on a disabled button, or while thinking or speaking, calls nothing. */
  lemma ClickWhenBlockedCallsNothing(s: RobotState, disabled: bool)
    requires disabled || IsThinking(s) || IsSpeaking(s)
    ensures HandleClick(s, disabled) == Neither
  {
  }

  /** When the element accepts clicks, a click calls exactly one callback. */
  lemma EnabledClickCallsOne(s: RobotState, disabled: bool)
    requires !ElementDisabled(s, disabled)
    ensures HandleClick(s, disabled).press != HandleClick(s, disabled).release
  {
  }

  /**
   * The page passes `disabled = (state != idle)`: then a click can start
   * listening but can never reach `onRelease`.
   */
  lemma PageWiringNeverReleases(s: RobotState)
    ensures !HandleClick(s, s != Idle).release
    ensures HandleClick(s, s != Idle).press <==> s == Idle
  {
  }
}
