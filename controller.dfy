/** The `App` component's send/receive controller: the three pieces of state
    it keeps and updates in place, and the handlers that change them. */
module AppController {
  import opened Strings
  import opened Messages
  import opened ChatSession

  class ChatController {
    var messages: seq<Message>
    var input: string
    var isTyping: bool

    /** The controller's state as a value of the session model. */
    function Snapshot(): Session
      reads this
    {
      Session(messages, input, isTyping)
    }

    ghost predicate Valid()
      reads this
    {
      WellFormed(Snapshot())
    }

    /** Mounting the widget: the two greetings, an empty buffer, idle. */
    constructor ()
      ensures Valid() && Snapshot() == Initial
    {
      messages := Seed;
      input := "";
      isTyping := false;
      InitialWellFormed();
    }

    /** The `disabled` attribute of the send button. */
    function SendDisabled(): (disabled: bool)
      reads this
      ensures disabled <==> IsBlank(input) || isTyping
      ensures disabled <==> !Accepts(Snapshot())
    {
      TrimEmptyIffBlank(input);
      Trim(input) == "" || isTyping
    }

    /** The text area's change handler: the buffer takes the new text. */
    method Edit(text: string)
      requires Valid()
      modifies this`input
      ensures Valid()
      ensures Snapshot() == ChatSession.Edit(old(Snapshot()), text)
    {
      input := text;
    }

    /** The send handler up to the chat call: returns the utterance handed to
        the call, or None when the send is ignored. */
    method BeginSend(userId: string) returns (sent: Option<string>)
      requires Valid()
      modifies this
      ensures Valid()
      ensures sent.Some? <==> !old(SendDisabled())
      ensures Snapshot() == Send(old(Snapshot()), userId)
      ensures sent.Some? ==> sent.value == old(input) && messages[|messages| - 1].text == sent.value
    {
      ghost var before := Snapshot();
      if Trim(input) == "" || isTyping {
        sent := None;
        return;
      }
      var userMessage := Message(userId, User, input);
      messages := messages + [userMessage];
      var utterance := input;
      input := "";
      isTyping := true;
      sent := Some(utterance);
      StepPreservesWellFormed(before, Submit(userId));
    }

    /** The send handler after the chat call settles: the reply (or the
        fallback) on success, the fixed error text on failure, and in every
        case the busy flag is lowered.  The buffer is not touched. */
    method Resolve(outcome: Outcome, modelId: string)
      requires Valid() && isTyping
      modifies this`messages, this`isTyping
      ensures Valid() && !isTyping
      ensures Snapshot() == Settle(old(Snapshot()), outcome, modelId)
    {
      ghost var before := Snapshot();
      match outcome {
        case Reply(text) =>
          var modelMessage := Message(modelId, Model,
            if text.Some? && text.value != "" then text.value else FallbackText);
          messages := messages + [modelMessage];
        case Error(_) =>
          var errorMessage := Message(modelId, Model, ErrorText);
          messages := messages + [errorMessage];
      }
      isTyping := false;
      StepPreservesWellFormed(before, Settled(outcome, modelId));
    }
  }

  /** Two submits before the first reply: only the first reaches the history
      and the chat call, and the second text stays in the buffer. */
  method ConcurrentSubmitClient()
  {
    var c := new ChatController();
    c.Edit("A");
    assert !IsBlank(c.input) by { assert !IsWhitespace("A"[0]); }
    SendGuard(c.Snapshot(), "a");
    var first := c.BeginSend("a");
    assert first == Some("A");
    c.Edit("B");
    var second := c.BeginSend("b");
    assert second == None && c.input == "B";
    assert |c.messages| == 3 && c.messages[2] == Message("a", User, "A");
  }

  /** A failed chat call leaves the error text as the last turn and the
      controller idle, whatever the error was. */
  method FailureClient(detail: string)
  {
    var c := new ChatController();
    c.Edit("Hi");
    assert !IsBlank(c.input) by { assert !IsWhitespace("Hi"[0]); }
    SendGuard(c.Snapshot(), "u");
    var sent := c.BeginSend("u");
    assert sent == Some("Hi");
    c.Resolve(Error(detail), "m");
    assert c.messages[|c.messages| - 1].text == ErrorText && !c.isTyping;
  }
}
