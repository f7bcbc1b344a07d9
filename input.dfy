/**
 * The terminal events the forms see and the text-input widget they edit.
 *
 * A `Key` is one message delivered by the terminal framework. The seven
 * control keys the core recognises are distinguished; every other message
 * (a printable character, backspace, cursor movement, paste, a timer tick)
 * is `Other(edit)`, where `edit` is what the widget does to its text when
 * that message reaches it.
 */
module Input {

  datatype Key =
    | Enter
    | Up
    | Down
    | Tab
    | ShiftTab
    | Esc
    | CtrlC
    | Other(edit: string -> string)

  /**
   * The text-input widget, reduced to the two things the forms read and set:
   * its text and whether it has the keyboard focus.
   */
  datatype TextInput = TextInput(value: string, focused: bool)

  /** A fresh widget: empty and not focused. */
  const NewTextInput: TextInput := TextInput("", false)

  /** textinput's Focus: the widget takes the keyboard focus; its text is kept. */
  function Focus(t: TextInput): (r: TextInput)
    ensures r.focused && r.value == t.value
  {
    t.(focused := true)
  }

  /** textinput's Blur: the widget gives up the focus; its text is kept. */
  function Blur(t: TextInput): (r: TextInput)
    ensures !r.focused && r.value == t.value
  {
    t.(focused := false)
  }

  /** textinput's SetValue: the text is replaced; the focus flag is kept. */
  function SetValue(t: TextInput, v: string): (r: TextInput)
    ensures r.value == v && r.focused == t.focused
  {
    t.(value := v)
  }

  /** Typing `text`: a message whose edit appends it to the focused widget's text. */
  function Type(text: string): (k: Key)
    ensures k.Other? && forall v :: k.edit(v) == v + text
  {
    Other(v => v + text)
  }

  /**
   * What the widget's own Update does with a message. A blurred widget
   * ignores every message. A focused one applies an ordinary message's edit;
   * the control keys that reach it (a navigation key at the end of the field
   * list) are bound only to completion suggestions, none of which are
   * configured here, so they leave the text as it is.
   */
  function HandleKey(t: TextInput, k: Key): (r: TextInput)
    ensures r.focused == t.focused
    ensures !t.focused ==> r == t
    ensures !k.Other? ==> r == t
  {
    if !t.focused then t
    else match k
      case Other(edit) => t.(value := edit(t.value))
      case _ => t
  }
}
