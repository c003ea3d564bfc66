/** The message box: a draft, a send action, and a one-second debounce
    that reports typing to the screen through the `onTyping` callback. The
    callbacks the box makes are recorded, in order, in `calls`. */
module MessageInput {
  import opened Js

  /** How long after a keystroke the box reports that typing stopped. */
  const TypingIdleMs: nat := 1000

  /** A call the box makes to the screen. */
  datatype Callback = SendMessage(text: string) | Typing(isTyping: bool)

  class Input {
    var draft: string
    /** Whether a typing timer is pending. */
    var timerArmed: bool
    var calls: seq<Callback>

    constructor ()
      ensures draft == "" && !timerArmed && calls == []
    {
      draft, timerArmed, calls := "", false, [];
    }

    /** The send button is disabled when the box is, or when the draft is
        whitespace only: exactly when Submit would do nothing. */
    predicate SendDisabled(disabled: bool)
      reads this
      ensures SendDisabled(disabled) <==> disabled || AllWhitespace(draft)
    {
      disabled || Trim(draft) == []
    }

    /** `handleSubmit`: with a non-blank draft in an enabled box, sends the
        draft as typed (untrimmed), clears it, then reports typing stopped.
        A pending timer is not cancelled. */
    method Submit(disabled: bool)
      modifies this`draft, this`calls
      ensures old(SendDisabled(disabled)) ==> draft == old(draft) && calls == old(calls)
      ensures !old(SendDisabled(disabled)) ==>
                draft == "" && calls == old(calls) + [SendMessage(old(draft)), Typing(false)]
    {
      if Trim(draft) != [] && !disabled {
        calls := calls + [SendMessage(draft)];
        draft := "";
        calls := calls + [Typing(false)];
      }
    }

    /** `handleInputChange`: the value always becomes the draft. A non-empty
        value (whitespace counts) in an enabled box reports typing and
        replaces any pending timer by a fresh one; otherwise typing stopped
        is reported at once and a pending timer is left to run. */
    method InputChange(value: string, disabled: bool)
      modifies this`draft, this`timerArmed, this`calls
      ensures draft == value
      ensures value != [] && !disabled ==> calls == old(calls) + [Typing(true)] && timerArmed
      ensures value == [] || disabled ==>
                calls == old(calls) + [Typing(false)] && timerArmed == old(timerArmed)
    {
      draft := value;
      if |value| > 0 && !disabled {
        calls := calls + [Typing(true)];
        timerArmed := true;
      } else {
        calls := calls + [Typing(false)];
      }
    }

    /** The pending timer goes off and reports typing stopped. */
    method FireTimer()
      requires timerArmed
      modifies this`timerArmed, this`calls
      ensures calls == old(calls) + [Typing(false)] && !timerArmed
    {
      calls := calls + [Typing(false)];
      timerArmed := false;
    }
  }

  /** Sending does not cancel the debounce: a send made while a timer is
      pending is followed by a second report that typing stopped. */
  method SendThenTimer(input: Input, disabled: bool)
    requires input.timerArmed && !input.SendDisabled(disabled)
    modifies input
    ensures input.calls == old(input.calls) + [SendMessage(old(input.draft)), Typing(false), Typing(false)]
    ensures input.draft == "" && !input.timerArmed
  {
    input.Submit(disabled);
    input.FireTimer();
  }
}
