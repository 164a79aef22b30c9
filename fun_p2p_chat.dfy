/**
 * FunP2PChatViewController: the one-to-one chat screen of the "fun" skin,
 * which tells the other side whether the user is typing.
 */
module FunP2PChat {
  import opened Wrappers
  import opened FunChat

  /** What `checkAndSendTypingState` sends: nothing, the typing state, or the typing-end state. */
  datatype TypingSignal = NoSignal | Typing | TypingEnd

  /** The text of an optional field, a missing one read as empty. */
  function TextOrEmpty(text: Option<string>): string
  {
    if text.Some? then text.value else ""
  }

  /**
   * Whether the input holds something: in the single-line bar, its text; in
   * any other mode, the title or the text.
   */
  predicate HasInput(mode: InputMode, text: Option<string>, title: Option<string>)
  {
    if mode == Normal then TextOrEmpty(text) != ""
    else TextOrEmpty(title) != "" || TextOrEmpty(text) != ""
  }

  /**
   * `checkAndSendTypingState`: nothing for a screen whose view model is not a
   * one-to-one one; the end state when editing ended; otherwise, in the
   * single-line bar, typing exactly when its text is non-empty, and in the
   * other modes the end state exactly when both title and text are empty.
   */
  function CheckAndSendTypingState(isP2P: bool, endEdit: bool, mode: InputMode,
                                   text: Option<string>, title: Option<string>): (r: TypingSignal)
    ensures !isP2P ==> r == NoSignal
    ensures isP2P && endEdit ==> r == TypingEnd
    ensures isP2P && !endEdit && mode == Normal ==> (r == Typing <==> text.Some? && |text.value| > 0)
    ensures isP2P && !endEdit && mode != Normal ==>
      (r == TypingEnd <==> |TextOrEmpty(title)| <= 0 && |TextOrEmpty(text)| <= 0)
  {
    if !isP2P then NoSignal
    else if endEdit then TypingEnd
    else if mode == Normal then
      if text.Some? && |text.value| > 0 then Typing else TypingEnd
    else
      var titleText := if title.Some? then title.value else "";
      var content := if text.Some? then text.value else "";
      if |titleText| <= 0 && |content| <= 0 then TypingEnd else Typing
  }

  /**
   * A one-to-one screen sends exactly one of the two states on every call:
   * typing exactly when editing goes on and the input holds something, the
   * end state otherwise.
   */
  lemma ExactlyOneSignal(endEdit: bool, mode: InputMode, text: Option<string>, title: Option<string>)
    ensures CheckAndSendTypingState(true, endEdit, mode, text, title) != NoSignal
    ensures CheckAndSendTypingState(true, endEdit, mode, text, title) == Typing
        <==> !endEdit && HasInput(mode, text, title)
  {
  }
}
