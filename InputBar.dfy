/** The input bar: a mode selector, a text area and a send button. Its submit
    handler fires only for non-blank text while enabled, hands over the mode
    and the text as typed, and then clears the text. */
module InputBar {
  import opened Wrappers
  import opened Text

  datatype ModeOption = ModeOption(value: string, caption: string)

  /** The modes the selector offers, in order. */
  const Modes: seq<ModeOption> := [
    ModeOption("generate", "Generate"),
    ModeOption("explain", "Explain"),
    ModeOption("debug", "Debug")
  ]

  const DefaultMode := "generate"

  /** The values the selector can produce: exactly the three modes. */
  function ModeValues(): (values: set<string>)
    ensures values == {"generate", "explain", "debug"}
  {
    assert Modes[0].value == "generate" && Modes[1].value == "explain" && Modes[2].value == "debug";
    set i | 0 <= i < |Modes| :: Modes[i].value
  }

  /** What `onSubmit` receives. */
  datatype Submission = Submission(mode: string, text: string)

  class Bar {
    var mode: string
    var text: string
    var disabled: bool

    /** A fresh bar: the given default mode ("generate" when none is given),
        an empty text area, and the parent's `disabled` flag (false when none
        is given). */
    constructor (defaultMode: Option<string>, disabled: Option<bool>)
      ensures mode == defaultMode.GetOr(DefaultMode) && text == ""
      ensures this.disabled == disabled.GetOr(false)
    {
      mode := defaultMode.GetOr(DefaultMode);
      text := "";
      this.disabled := disabled.GetOr(false);
    }

    /** Typing in the text area. */
    method ChangeText(value: string)
      modifies this`text
      ensures text == value
    {
      text := value;
    }

    /** Choosing an option of the selector. */
    method ChangeMode(value: string)
      requires value in ModeValues()
      modifies this`mode
      ensures mode == value
    {
      mode := value;
    }

    /** The parent re-rendering with a new `disabled` flag. */
    method SetDisabled(value: bool)
      modifies this`disabled
      ensures disabled == value
    {
      disabled := value;
    }

    /** The send button is enabled exactly when the bar is not disabled and
        the text has a non-whitespace character. */
    function SendEnabled(): (enabled: bool)
      reads this
      ensures enabled <==> !disabled && !AllWhitespace(text)
    {
      TrimEmptyIffBlank(text);
      !(disabled || Trim(text) == "")
    }

    /** The button reads "Sending..." exactly while disabled. */
    function SendLabel(): (caption: string)
      reads this
      ensures caption == "Sending..." <==> disabled
      ensures caption in {"Sending...", "Send"}
    {
      if disabled then "Sending..." else "Send"
    }

    /** `handleSubmit`: does nothing for blank text or while disabled;
        otherwise hands over the current mode and the untrimmed text and
        clears the text, leaving the mode as it was. It fires exactly when the
        send button is enabled. */
    method HandleSubmit() returns (fired: Option<Submission>)
      modifies this`text
      ensures fired.Some? <==> !disabled && !AllWhitespace(old(text))
      ensures fired.Some? <==> old(SendEnabled())
      ensures fired.Some? ==> fired.value == Submission(mode, old(text)) && text == ""
      ensures fired.None? ==> text == old(text)
      ensures mode == old(mode) && disabled == old(disabled)
    {
      TrimEmptyIffBlank(text);
      if Trim(text) == "" || disabled {
        return None;
      }
      fired := Some(Submission(mode, text));
      text := "";
    }
  }
}
