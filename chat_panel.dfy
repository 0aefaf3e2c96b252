/** `components/meeting/ChatPanel.tsx`: a local message list and its input box. */
module ChatPanel {
  import opened Text

  class ChatPanelState {
    var messages: seq<string>
    var input: string

    constructor ()
      ensures messages == [] && input == ""
    {
      messages, input := [], "";
    }

    /** The input's `onChange`. */
    method SetInput(value: string)
      modifies this
      ensures input == value && messages == old(messages)
    {
      input := value;
    }

    /** `send`: a blank input changes nothing; otherwise the input, untrimmed, becomes
        the last message and the box is cleared. */
    method Send()
      modifies this
      ensures IsBlank(old(input)) ==> messages == old(messages) && input == old(input)
      ensures !IsBlank(old(input)) ==> messages == old(messages) + [old(input)] && input == ""
    {
      if IsBlank(input) {
        return;
      }
      messages := messages + [input];
      input := "";
    }
  }
}
