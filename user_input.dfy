/**
 * The UserInput component: the text field, the "Send Message" button and
 * the optional "New Conversation" button. The effect that recomputes
 * `isSendDisabled` from the text is taken to have run before the next
 * event, so `Valid` holds between events.
 */
module UserInputComponent {

  /** Enter without Shift, Ctrl, Alt or Meta. */
  predicate IsPlainEnter(key: string, shift: bool, ctrl: bool, alt: bool, meta: bool) {
    key == "Enter" && !shift && !ctrl && !alt && !meta
  }

  class UserInput {
    var messageInput: string
    var isSendDisabled: bool
    /** The `inputEnabled` prop. */
    var inputEnabled: bool
    /** Whether the `resetConversation` prop was given. */
    const hasResetConversation: bool
    /** The texts handed to `sendMessage`, in order. */
    var sent: seq<string>
    /** How many times `resetConversation` was called. */
    var resets: nat

    /** The send flag follows the text, and nothing empty was ever sent. */
    predicate Valid()
      reads this
    {
      isSendDisabled == (messageInput == "")
      && forall k :: 0 <= k < |sent| ==> sent[k] != ""
    }

    constructor(inputEnabled: bool, hasResetConversation: bool)
      ensures Valid()
      ensures messageInput == "" && isSendDisabled && sent == [] && resets == 0
      ensures this.inputEnabled == inputEnabled && this.hasResetConversation == hasResetConversation
    {
      messageInput := "";
      isSendDisabled := true;
      this.inputEnabled := inputEnabled;
      this.hasResetConversation := hasResetConversation;
      sent := [];
      resets := 0;
    }

    /** The `disabled` attribute of the Send button: disabled exactly when input is off or the text is empty. */
    predicate SendButtonDisabled()
      reads this
      ensures Valid() ==> (SendButtonDisabled() <==> !inputEnabled || messageInput == "")
    {
      !inputEnabled || isSendDisabled
    }

    /** The New Conversation button is rendered exactly when `resetConversation` is given. */
    predicate ShowsNewConversationButton()
      reads this
    {
      hasResetConversation
    }

    /** Typing: the field takes the new value and the effect updates the send flag. */
    method Change(value: string)
      requires Valid()
      modifies this
      ensures Valid()
      ensures messageInput == value && isSendDisabled == (value == "")
      ensures sent == old(sent) && resets == old(resets) && inputEnabled == old(inputEnabled)
    {
      messageInput := value;
      isSendDisabled := messageInput == "";
    }

    /** The parent turns input on or off. */
    method SetInputEnabled(enabled: bool)
      requires Valid()
      modifies this
      ensures Valid()
      ensures inputEnabled == enabled
      ensures messageInput == old(messageInput) && sent == old(sent) && resets == old(resets)
    {
      inputEnabled := enabled;
    }

    /** Sends the text and clears the field; the effect then disables Send. */
    method Send()
      requires Valid() && messageInput != ""
      modifies this
      ensures Valid()
      ensures sent == old(sent) + [old(messageInput)] && messageInput == "" && isSendDisabled
      ensures resets == old(resets) && inputEnabled == old(inputEnabled)
    {
      sent := sent + [messageInput];
      messageInput := "";
      isSendDisabled := true;
    }

    /**
     * A key press in the field. A plain Enter is always prevented from
     * inserting a line break, and sends when input is enabled and the text
     * is not empty; any other key changes nothing here.
     */
    method KeyDown(key: string, shift: bool, ctrl: bool, alt: bool, meta: bool) returns (preventDefault: bool)
      requires Valid()
      modifies this
      ensures Valid()
      ensures preventDefault == IsPlainEnter(key, shift, ctrl, alt, meta)
      ensures if preventDefault && inputEnabled && old(messageInput) != ""
              then sent == old(sent) + [old(messageInput)] && messageInput == ""
              else sent == old(sent) && messageInput == old(messageInput)
      ensures resets == old(resets) && inputEnabled == old(inputEnabled)
    {
      preventDefault := false;
      if IsPlainEnter(key, shift, ctrl, alt, meta) {
        preventDefault := true;
        if inputEnabled && !isSendDisabled {
          Send();
        }
      }
    }

    /** A click on Send; the browser delivers no click to a disabled button. */
    method ClickSend()
      requires Valid()
      modifies this
      ensures Valid()
      ensures if old(SendButtonDisabled())
              then sent == old(sent) && messageInput == old(messageInput)
              else sent == old(sent) + [old(messageInput)] && messageInput == ""
      ensures resets == old(resets) && inputEnabled == old(inputEnabled)
    {
      if !SendButtonDisabled() {
        Send();
      }
    }

    /** A click on New Conversation, which exists only when `resetConversation` is given. */
    method ClickNewConversation()
      requires Valid()
      modifies this
      ensures Valid()
      ensures resets == if hasResetConversation then old(resets) + 1 else old(resets)
      ensures messageInput == old(messageInput) && sent == old(sent) && inputEnabled == old(inputEnabled)
    {
      if ShowsNewConversationButton() {
        resets := resets + 1;
      }
    }
  }
}
