/** The question box: a text area whose Enter key asks, and an Ask button. */
module QuestionInput {
  import opened Text

  /** The parts of a keyboard event the handler looks at. */
  datatype KeyEvent = KeyEvent(key: string, shiftKey: bool)

  /** What the key handler does with an event. */
  datatype KeyResponse = KeyResponse(preventDefault: bool, ask: bool)

  /** `handleKeyDown`: Enter without Shift suppresses the newline and asks;
      every other key, Shift+Enter included, is left to the text area. */
  function HandleKeyDown(e: KeyEvent): (r: KeyResponse)
    ensures r.ask <==> e.key == "Enter" && !e.shiftKey
    ensures r.preventDefault == r.ask
  {
    if e.key == "Enter" && !e.shiftKey then KeyResponse(true, true)
    else KeyResponse(false, false)
  }

  /** The button's `disabled` attribute: busy, or a question that is
      nothing but whitespace. */
  function ButtonDisabled(loading: bool, value: string): (d: bool)
    ensures d <==> loading || AllWhere(value, IsJsWhitespace)
  {
    StripEmptyIff(value, IsJsWhitespace);
    loading || JsTrim(value) == ""
  }

  /** The two ways a user can try to ask. */
  datatype UiEvent = KeyDown(event: KeyEvent) | ButtonClick

  /** Whether `onAsk` runs: a key press asks per the handler, without any
      look at `loading` or at the text; a click reaches `onAsk` only when
      the button is enabled. */
  predicate AskFires(ev: UiEvent, loading: bool, value: string) {
    match ev
    case KeyDown(e) => HandleKeyDown(e).ask
    case ButtonClick => !ButtonDisabled(loading, value)
  }

  /** Exactly when an ask fires: Enter without Shift, always; or a click
      while idle on a question with a non-whitespace character. */
  lemma AskFiresIff(ev: UiEvent, loading: bool, value: string)
    ensures AskFires(ev, loading, value) <==>
      (ev.KeyDown? && ev.event.key == "Enter" && !ev.event.shiftKey) ||
      (ev.ButtonClick? && !loading && exists i :: 0 <= i < |value| && !IsJsWhitespace(value[i]))
  {
  }

  /** The keyboard path has no loading check: Enter asks while a request
      is in flight, and also on a blank question. */
  lemma EnterBypassesLoading(value: string)
    ensures AskFires(KeyDown(KeyEvent("Enter", false)), true, value)
  {
  }

  /** Only the keyboard can ask while loading. */
  lemma LoadingBlocksOnlyTheButton(ev: UiEvent, value: string)
    requires AskFires(ev, true, value)
    ensures ev.KeyDown? && ev.event == KeyEvent("Enter", false)
  {
  }
}
