/**
 * The ChatInterface component as an object: its state (`inputEnabled`,
 * `abortController`, `error`) and the message list its parent hands it,
 * updated step by step by `handleSendMessage`, `handleNewConversation` and
 * the unmount clean-up. Each handler is proved to leave the state that the
 * functions of Reconciler describe.
 */
module ChatInterfaceComponent {
  import opened Wrappers
  import opened Reconciler
  import Ndjson

  /** The browser's AbortController: aborting it makes the pending read reject. */
  class AbortController {
    var aborted: bool

    constructor()
      ensures !aborted
    {
      aborted := false;
    }

    method Abort()
      modifies this
      ensures aborted
    {
      aborted := true;
    }
  }

  class ChatInterface {
    const conversationId: int
    /** The `messages` prop, changed through `setMessages`. */
    var messages: seq<Message>
    var inputEnabled: bool
    var abortController: AbortController?
    var error: Option<string>

    constructor(conversationId: int, messages: seq<Message>)
      ensures this.conversationId == conversationId && this.messages == messages
      ensures inputEnabled && abortController == null && error == None
    {
      this.conversationId := conversationId;
      this.messages := messages;
      inputEnabled := true;
      abortController := null;
      error := None;
    }

    /**
     * The updater given to `setMessages` for each fragment: pop the last
     * message, then push it back with the new content if it is the
     * assistant's, or push it and a new assistant message otherwise.
     */
    method UpdateLastMessage(text: string)
      requires messages != []
      modifies this
      ensures messages == Reconcile(old(messages), text)
      ensures inputEnabled == old(inputEnabled)
      ensures abortController == old(abortController) && error == old(error)
    {
      var newMessages := messages;
      var lastMessage := newMessages[|newMessages| - 1];
      newMessages := newMessages[..|newMessages| - 1];
      if lastMessage.role == "assistant" {
        newMessages := newMessages + [lastMessage.(content := text)];
      } else {
        newMessages := newMessages + [lastMessage, BotMessage(text)];
      }
      messages := newMessages;
    }

    /**
     * The inner `for (const line of lines)` loop: parse each line, grow the
     * text on content records and reconcile the list; a malformed line
     * throws, and its message is returned as the failure.
     */
    method ConsumeLines(text: string, lines: seq<string>) returns (text': string, failure: Option<string>)
      requires messages != []
      modifies this
      ensures ApplyLines(Progress(text, old(messages)), lines) == Outcome(Progress(text', messages), failure)
      ensures inputEnabled == old(inputEnabled) && abortController == old(abortController) && error == old(error)
    {
      text' := text;
      failure := None;
      var j := 0;
      while j < |lines|
        invariant 0 <= j <= |lines| && messages != []
        invariant ApplyLines(Progress(text, old(messages)), lines) == ApplyLines(Progress(text', messages), lines[j..])
        invariant inputEnabled == old(inputEnabled) && abortController == old(abortController) && error == old(error)
      {
        assert lines[j..][0] == lines[j] && lines[j..][1..] == lines[j + 1..];
        var message := ParseLine(lines[j]);
        if message.Err? {
          failure := Some(message.error);
          return;
        }
        if IsContent(message.value) {
          text' := text' + DataText(message.value.data);
          UpdateLastMessage(text');
        }
        j := j + 1;
      }
    }

    /**
     * `handleSendMessage(text)` with the backend's answer given as `response`:
     * the user message is appended, the stream is read until it ends, the
     * bound is reached, a read fails or another handler aborts, and the
     * input is enabled again whatever happened.
     */
    method HandleSendMessage(text: string, response: Response)
      modifies this
      ensures var o := Session(old(messages), conversationId, text, response);
              messages == o.progress.messages && error == (if o.error.Some? then o.error else old(error))
      ensures inputEnabled && abortController == null
    {
      inputEnabled := false;
      messages := messages + [UserMessage(text, conversationId)];
      var controller := new AbortController();
      abortController := controller;
      match response {
        case Refused(m) =>
          error := Some(m);
        case Opened(events) =>
          ghost var start := Progress("", messages);
          var botMessageText := "";
          var i := 0;
          assert events[i..] == events;
          while i < MaxReads
            invariant 0 <= i <= MaxReads && i <= |events| && messages != []
            invariant Stream(start, events, MaxReads) == Stream(Progress(botMessageText, messages), events[i..], MaxReads - i)
            invariant abortController == controller && !controller.aborted
            invariant error == old(error)
          {
            var event := if i < |events| then events[i] else Done;
            assert i < |events| ==> events[i..][0] == event && events[i..][1..] == events[i + 1..];
            if event.Interrupted? {
              if event.cause == NewConversation {
                HandleNewConversation();
              } else {
                Unmount();
              }
            }
            if controller.aborted {
              // The pending read rejects with an AbortError, which is only logged.
              break;
            }
            if event.Done? {
              break;
            }
            if event.Broken? {
              error := Some(event.message);
              break;
            }
            var failure;
            botMessageText, failure := ConsumeLines(botMessageText, Ndjson.ChunkLines(event.text));
            if failure.Some? {
              error := failure;
              break;
            }
            i := i + 1;
          }
      }
      abortController := null;
      inputEnabled := true;
    }

    /** Aborts the in-flight request, if any, and forgets its controller. */
    method HandleNewConversation()
      modifies this, abortController
      ensures abortController == null
      ensures old(abortController) != null ==> old(abortController).aborted
      ensures messages == old(messages) && inputEnabled == old(inputEnabled) && error == old(error)
    {
      if abortController != null {
        abortController.Abort();
        abortController := null;
      }
    }

    /** The effect clean-up run on unmount: abort the in-flight request, if any. */
    method Unmount()
      modifies abortController
      ensures abortController != null ==> abortController.aborted
    {
      if abortController != null {
        abortController.Abort();
      }
    }

    /** Closing the error alert. */
    method DismissError()
      modifies this
      ensures error == None
      ensures messages == old(messages) && inputEnabled == old(inputEnabled) && abortController == old(abortController)
    {
      error := None;
    }
  }
}
