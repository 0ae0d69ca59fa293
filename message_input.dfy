// The chat composer: a length-capped text box that signals typing, sends the
// trimmed text and shows a character counter near the limit. The 2-second
// typing timer is an explicit method that the caller runs when it fires.
module MessageInput {
  import opened Common

  const DEFAULT_MAX_LENGTH: nat := 4096

  /** `canSend`: there is non-blank text and the input is neither disabled nor loading. */
  predicate CanSend(text: string, disabled: bool, isLoading: bool)
  {
    |Trim(text)| > 0 && !disabled && !isLoading
  }

  /** The counter shows once the length passes 80% of the limit (`length > maxLength * 0.8`, exactly). */
  predicate ShowCounter(length: nat, maxLength: nat)
  {
    5 * length > 4 * maxLength
  }

  /** With the default limit the counter appears from 3277 characters on. */
  lemma DefaultCounterThreshold(length: nat)
    ensures ShowCounter(length, DEFAULT_MAX_LENGTH) <==> length >= 3277
  {
  }

  /** The counter appears before the limit is reached, and always at the limit. */
  lemma CounterBeforeLimit(maxLength: nat)
    requires maxLength > 0
    ensures ShowCounter(maxLength, maxLength)
    ensures !ShowCounter(4 * maxLength / 5, maxLength)
  {
  }

  /** Text that can be sent is non-blank once trimmed. */
  lemma SendableIsNonBlank(text: string, disabled: bool, isLoading: bool)
    ensures CanSend(text, disabled, isLoading) <==> !IsBlank(text) && !disabled && !isLoading
  {
  }

  class Composer {
    var text: string
    /** `wasTypingRef.current`. */
    var wasTyping: bool
    /** Whether `typingTimeoutRef` holds a timer that has neither fired nor been cleared. */
    var timerArmed: bool
    const maxLength: nat
    const disabled: bool
    const isLoading: bool
    /** Whether an `onTyping` callback was given. */
    const hasTypingHandler: bool

    predicate Valid()
      reads this
    {
      && |text| <= maxLength
      && (timerArmed ==> hasTypingHandler && wasTyping)
    }

    constructor (maxLength: nat, disabled: bool, isLoading: bool, hasTypingHandler: bool)
      ensures Valid() && text == "" && !wasTyping && !timerArmed
      ensures this.maxLength == maxLength && this.disabled == disabled && this.isLoading == isLoading
      ensures this.hasTypingHandler == hasTypingHandler
    {
      text := "";
      wasTyping := false;
      timerArmed := false;
      this.maxLength := maxLength;
      this.disabled := disabled;
      this.isLoading := isLoading;
      this.hasTypingHandler := hasTypingHandler;
    }

    /**
     * `handleTyping`: the first keystroke of a burst signals `onTyping(true)`;
     * every one (re)arms the timer. Nothing happens without a handler.
     */
    method HandleTyping() returns (signal: Option<bool>)
      requires Valid()
      modifies this
      ensures Valid()
      ensures text == old(text)
      ensures !hasTypingHandler ==> signal == None && wasTyping == old(wasTyping) && timerArmed == old(timerArmed)
      ensures hasTypingHandler ==> wasTyping && timerArmed && (signal == Some(true) <==> !old(wasTyping))
      ensures signal == None || signal == Some(true)
    {
      signal := None;
      if !hasTypingHandler {
        return;
      }
      if !wasTyping {
        wasTyping := true;
        signal := Some(true);
      }
      timerArmed := true;
    }

    /** The typing timer firing, which it can only do while armed: typing stops and `onTyping(false)` is signalled. */
    method TypingTimeout() returns (signal: Option<bool>)
      requires Valid() && timerArmed
      modifies this
      ensures Valid()
      ensures !wasTyping && !timerArmed && signal == Some(false) && text == old(text)
    {
      wasTyping := false;
      timerArmed := false;
      signal := Some(false);
    }

    /** The clean-up on unmount: the timer is cleared, and a running typing indicator is turned off. */
    method Unmount() returns (signal: Option<bool>)
      requires Valid()
      modifies this
      ensures Valid()
      ensures !timerArmed && text == old(text) && wasTyping == old(wasTyping)
      ensures signal == Some(false) <==> old(wasTyping) && hasTypingHandler
      ensures signal == None || signal == Some(false)
    {
      timerArmed := false;
      signal := if wasTyping && hasTypingHandler then Some(false) else None;
    }

    /** `handleChange`: a value longer than `maxLength` is ignored; otherwise it becomes the text and counts as typing. */
    method HandleChange(value: string) returns (signal: Option<bool>)
      requires Valid()
      modifies this
      ensures Valid()
      ensures |value| > maxLength ==> text == old(text) && wasTyping == old(wasTyping) && timerArmed == old(timerArmed) && signal == None
      ensures |value| <= maxLength ==> text == value
      ensures |value| <= maxLength && hasTypingHandler ==> wasTyping && timerArmed && (signal == Some(true) <==> !old(wasTyping))
    {
      signal := None;
      if |value| <= maxLength {
        text := value;
        signal := HandleTyping();
      }
    }

    /**
     * `handleSend`: when sending is possible the trimmed text goes to
     * `onSend`, the box is cleared, the typing timer is cleared and a running
     * typing indicator is turned off; otherwise nothing changes.
     */
    method HandleSend() returns (sent: Option<string>, signal: Option<bool>)
      requires Valid()
      modifies this
      ensures Valid()
      ensures sent.Some? <==> CanSend(old(text), disabled, isLoading)
      ensures sent.Some? ==> sent.value == Trim(old(text)) && sent.value != "" && text == ""
      ensures sent.Some? ==> !timerArmed && (!wasTyping || !hasTypingHandler)
      ensures sent.Some? ==> (signal == Some(false) <==> old(wasTyping) && hasTypingHandler)
      ensures sent.None? ==> text == old(text) && wasTyping == old(wasTyping) && timerArmed == old(timerArmed) && signal == None
    {
      sent, signal := None, None;
      var trimmed := Trim(text);
      if trimmed != "" && !disabled && !isLoading {
        sent := Some(trimmed);
        text := "";
        timerArmed := false;
        if wasTyping && hasTypingHandler {
          wasTyping := false;
          signal := Some(false);
        }
      }
    }
  }
}
