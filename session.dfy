/** The conversation controller of the chat widget as a state machine over
    values: the message history, the input buffer and the busy flag, with one
    transition per user action and one per settled chat call.  The class in
    module AppController is proved to follow these transitions. */
module ChatSession {
  import opened Strings
  import opened Messages

  datatype Option<T> = None | Some(value: T)

  /** The state the widget keeps: history, text buffer and "reply pending". */
  datatype Session = Session(messages: seq<Message>, input: string, isTyping: bool)

  /** How the chat call settled: it returned a response whose text may be
      absent, or it threw. */
  datatype Outcome = Reply(text: Option<string>) | Error(detail: string)

  const Greeting := "Hello, how can I help you?"
  const Introduction := "Thank you for chatting in today. My name is Joan S. How can I help you with Jonas Chorum's property management solutions today?"
  const FallbackText := "I'm sorry, I couldn't process that."
  const ErrorText := "I encountered an error. Please try again later."

  /** The two greetings every conversation starts with. */
  const Seed: seq<Message> := [Message("1", Model, Greeting), Message("2", Model, Introduction)]

  /** How many greetings precede the first user turn.  It is the length of
      Seed (InitialWellFormed proves |Initial.messages| == GreetingCount); the
      invariant uses this number rather than Seed itself so that proofs about
      arbitrary states need not unfold the greeting texts. */
  const GreetingCount: nat := 2

  /** The state when the widget mounts: seeded history, empty buffer, idle. */
  const Initial := Session(Seed, "", false)

  /** The guard of the send handler: the trimmed input is non-empty and no
      reply is pending.  The send button is enabled exactly when it holds. */
  predicate Accepts(s: Session) {
    !(Trim(s.input) == "" || s.isTyping)
  }

  /** Submitting the buffer: ignored when the guard fails, otherwise the
      untrimmed input becomes a user turn, the buffer is cleared and the
      busy flag is raised. */
  function Send(s: Session, userId: string): Session {
    if !Accepts(s) then s
    else Session(s.messages + [Message(userId, User, s.input)], "", true)
  }

  /** The text of the model turn appended when the chat call settles. */
  function ReplyText(o: Outcome): (t: string)
    ensures t != ""
    ensures o.Error? ==> t == ErrorText
  {
    match o
    case Reply(Some(text)) => if text == "" then FallbackText else text
    case Reply(None) => FallbackText
    case Error(_) => ErrorText
  }

  /** The chat call for the pending send settled: one model turn is appended
      and the busy flag is lowered; the buffer, which the user may have edited
      meanwhile, is left alone. */
  function Settle(s: Session, o: Outcome, modelId: string): Session
    requires s.isTyping
  {
    s.(messages := s.messages + [Message(modelId, Model, ReplyText(o))], isTyping := false)
  }

  /** Typing into the text area replaces the buffer and nothing else. */
  function Edit(s: Session, text: string): Session {
    s.(input := text)
  }

  // ---------------------------------------------------------------------
  // Properties of single transitions

  /** The guard rejects exactly blank input and sends while a reply is
      pending; a rejected send changes nothing, and an accepted one appends
      a single user turn holding the untrimmed input, keeps every earlier
      turn, clears the buffer and raises the busy flag. */
  lemma SendGuard(s: Session, userId: string)
    ensures Accepts(s) <==> !IsBlank(s.input) && !s.isTyping
    ensures !Accepts(s) ==> Send(s, userId) == s
    ensures Accepts(s) ==>
      var r := Send(s, userId);
      |r.messages| == |s.messages| + 1
      && r.messages[..|s.messages|] == s.messages
      && r.messages[|s.messages|] == Message(userId, User, s.input)
      && r.input == "" && r.isTyping
  {
    TrimEmptyIffBlank(s.input);
  }

  /** A settled call appends exactly one model turn and returns to idle:
      the reply text when it is non-empty (white space counts as text), the
      fallback when the reply is empty or absent, the error text when the
      call threw.  Afterwards a send is accepted as soon as the buffer is
      not blank. */
  lemma SettleAppendsModelTurn(s: Session, o: Outcome, modelId: string)
    requires s.isTyping
    ensures
      var r := Settle(s, o, modelId);
      |r.messages| == |s.messages| + 1
      && r.messages[..|s.messages|] == s.messages
      && r.messages[|s.messages|].role == Model
      && r.messages[|s.messages|].id == modelId
      && r.messages[|s.messages|].text ==
           (match o
            case Reply(Some(t)) => if t != "" then t else FallbackText
            case Reply(None) => FallbackText
            case Error(_) => ErrorText)
      && !r.isTyping && r.input == s.input
      && (Accepts(r) <==> !IsBlank(r.input))
  {
    TrimEmptyIffBlank(s.input);
  }

  /** The detail of a thrown error never reaches the history: two failures
      with different details leave the same state. */
  lemma ErrorDetailHidden(s: Session, d1: string, d2: string, modelId: string)
    requires s.isTyping
    ensures Settle(s, Error(d1), modelId) == Settle(s, Error(d2), modelId)
    ensures Settle(s, Error(d1), modelId).messages[|s.messages|].text == ErrorText
  {
  }

  /** A complete round trip from an accepting state adds exactly two turns,
      the user's then the model's, behind the unchanged history. */
  lemma RoundTrip(s: Session, userId: string, o: Outcome, modelId: string)
    requires !IsBlank(s.input) && !s.isTyping
    ensures Send(s, userId).isTyping
    ensures
      var r := Settle(Send(s, userId), o, modelId);
      r.messages == s.messages + [Message(userId, User, s.input), Message(modelId, Model, ReplyText(o))]
      && r.input == "" && !r.isTyping
  {
    SendGuard(s, userId);
  }

  // ---------------------------------------------------------------------
  // The invariant of every reachable state

  /** The k-th turn after the greetings: even turns are the user's, with
      non-blank text; odd turns are the model's, with non-empty text. */
  predicate ValidTurn(k: nat, m: Message) {
    if k % 2 == 0 then m.role == User && !IsBlank(m.text)
    else m.role == Model && m.text != ""
  }

  /** After the greetings the history alternates user and model turns, and
      a reply is pending exactly when the last turn is an unanswered user
      turn.  (That the greetings themselves stay in place follows from the
      history being append-only: see ReachableFromInitial.) */
  ghost predicate WellFormed(s: Session) {
    GreetingCount <= |s.messages|
    && (forall i | GreetingCount <= i < |s.messages| :: ValidTurn(i - GreetingCount, s.messages[i]))
    && (s.isTyping <==> (|s.messages| - GreetingCount) % 2 == 1)
  }

  /** The seed history has ids "1" and "2", two model turns, and the initial
      state is idle with an empty buffer and satisfies the invariant. */
  lemma InitialWellFormed()
    ensures WellFormed(Initial)
    ensures |Initial.messages| == GreetingCount && Initial.messages[0].id == "1" && Initial.messages[1].id == "2"
    ensures Initial.messages[0].role == Model && Initial.messages[1].role == Model
    ensures !Accepts(Initial)
  {
  }

  /** While a reply is pending in a reachable state the last turn is the
      user's, and every further send is dropped, not queued. */
  lemma PendingDropsSends(s: Session, userId: string)
    requires WellFormed(s) && s.isTyping
    ensures |s.messages| > GreetingCount && s.messages[|s.messages| - 1].role == User
    ensures Send(s, userId) == s
  {
    assert ValidTurn(|s.messages| - 1 - GreetingCount, s.messages[|s.messages| - 1]);
  }

  /** A user action or a settled call; a call can only settle while a reply
      is pending, because only an accepted send starts one. */
  datatype Event = Type(text: string) | Submit(userId: string) | Settled(outcome: Outcome, modelId: string)

  predicate Allowed(s: Session, e: Event) {
    e.Settled? ==> s.isTyping
  }

  function Step(s: Session, e: Event): Session
    requires Allowed(s, e)
  {
    match e
    case Type(text) => Edit(s, text)
    case Submit(userId) => Send(s, userId)
    case Settled(o, modelId) => Settle(s, o, modelId)
  }

  /** Every event of the sequence is allowed in the state it meets. */
  predicate Legal(s: Session, events: seq<Event>)
    decreases |events|
  {
    events == [] || (Allowed(s, events[0]) && Legal(Step(s, events[0]), events[1..]))
  }

  function Run(s: Session, events: seq<Event>): Session
    requires Legal(s, events)
    decreases |events|
  {
    if events == [] then s else Run(Step(s, events[0]), events[1..])
  }

  /** Appending the turn that is due, and flipping the busy flag with it,
      keeps the invariant. */
  lemma AppendTurnPreservesWellFormed(s: Session, m: Message, input: string)
    requires WellFormed(s) && ValidTurn(|s.messages| - GreetingCount, m)
    ensures WellFormed(Session(s.messages + [m], input, !s.isTyping))
  {
    var r := Session(s.messages + [m], input, !s.isTyping);
    forall i | GreetingCount <= i < |r.messages|
      ensures ValidTurn(i - GreetingCount, r.messages[i])
    {
      if i < |s.messages| {
        assert r.messages[i] == s.messages[i];
      }
    }
  }

  /** Each step keeps the invariant and only ever appends to the history. */
  lemma StepPreservesWellFormed(s: Session, e: Event)
    requires WellFormed(s) && Allowed(s, e)
    ensures WellFormed(Step(s, e))
    ensures s.messages <= Step(s, e).messages
  {
    match e
    case Type(_) =>
    case Submit(userId) =>
      SendGuard(s, userId);
      if Accepts(s) {
        AppendTurnPreservesWellFormed(s, Message(userId, User, s.input), "");
      }
    case Settled(o, modelId) =>
      var m := Message(modelId, Model, ReplyText(o));
      AppendTurnPreservesWellFormed(s, m, s.input);
      assert (s.messages + [m])[..|s.messages|] == s.messages;
  }

  /** Over any legal sequence of events the invariant holds and the history
      is append-only: nothing is lost, reordered or rewritten. */
  lemma {:induction false} RunPreservesWellFormed(s: Session, events: seq<Event>)
    requires WellFormed(s) && Legal(s, events)
    ensures WellFormed(Run(s, events))
    ensures s.messages <= Run(s, events).messages
    decreases |events|
  {
    if events != [] {
      StepPreservesWellFormed(s, events[0]);
      RunPreservesWellFormed(Step(s, events[0]), events[1..]);
    }
  }

  /** Every state reached from the mounted widget satisfies the invariant
      and still starts with the two greetings. */
  lemma ReachableFromInitial(events: seq<Event>)
    requires Legal(Initial, events)
    ensures WellFormed(Run(Initial, events))
    ensures Seed <= Run(Initial, events).messages
  {
    InitialWellFormed();
    RunPreservesWellFormed(Initial, events);
  }

  // ---------------------------------------------------------------------
  // Concrete scenarios

  /** From any idle history with an empty buffer, typing "Hi", sending it
      and receiving "Hello!" adds the user turn and then the model's "Hello!",
      pending in between and idle at the end. */
  lemma HelloScenarioFrom(h: seq<Message>)
    ensures
      var sent := Send(Edit(Session(h, "", false), "Hi"), "u");
      sent.messages == h + [Message("u", User, "Hi")] && sent.isTyping
      && var done := Settle(sent, Reply(Some("Hello!")), "m");
      done.messages == sent.messages + [Message("m", Model, "Hello!")] && !done.isTyping
  {
    var typed := Edit(Session(h, "", false), "Hi");
    assert !IsBlank(typed.input) by { assert !IsWhitespace("Hi"[0]); }
    SendGuard(typed, "u");
    assert ReplyText(Reply(Some("Hello!"))) == "Hello!";
  }

  /** Typing "Hi", sending it and receiving "Hello!" yields four turns, the
      last being the model's "Hello!", and an idle widget. */
  lemma HelloScenario()
    ensures
      var sent := Send(Edit(Initial, "Hi"), "u");
      |sent.messages| == 3 && sent.isTyping
      && var done := Settle(sent, Reply(Some("Hello!")), "m");
      |done.messages| == 4 && done.messages[3] == Message("m", Model, "Hello!") && !done.isTyping
  {
    HelloScenarioFrom(Seed);
  }

  /** From any idle history with an empty buffer, sending "Hi" and having the
      call throw ends with the error text as the last turn and an idle widget. */
  lemma FailureScenarioFrom(h: seq<Message>, detail: string)
    ensures
      var sent := Send(Edit(Session(h, "", false), "Hi"), "u");
      sent.messages == h + [Message("u", User, "Hi")] && sent.isTyping
      && var done := Settle(sent, Error(detail), "m");
      done.messages == sent.messages + [Message("m", Model, ErrorText)] && !done.isTyping
  {
    var typed := Edit(Session(h, "", false), "Hi");
    assert !IsBlank(typed.input) by { assert !IsWhitespace("Hi"[0]); }
    SendGuard(typed, "u");
    assert ReplyText(Error(detail)) == ErrorText;
  }

  /** Sending "Hi" and having the call throw ends with the error text as the
      last turn and an idle widget. */
  lemma FailureScenario(detail: string)
    ensures
      var sent := Send(Edit(Initial, "Hi"), "u");
      sent.isTyping
      && var done := Settle(sent, Error(detail), "m");
      done.messages[|done.messages| - 1].text == ErrorText && !done.isTyping
  {
    FailureScenarioFrom(Seed, detail);
  }

  /** From any idle history with an empty buffer, sending "A" and then "B"
      before the reply arrives records only "A"; "B" stays in the buffer and
      the reply is still pending. */
  lemma DroppedSecondSubmitFrom(h: seq<Message>)
    ensures
      var afterA := Send(Edit(Session(h, "", false), "A"), "a");
      var afterB := Send(Edit(afterA, "B"), "b");
      afterB.messages == afterA.messages && afterB.input == "B" && afterB.isTyping
      && afterA.messages == h + [Message("a", User, "A")]
  {
    var typed := Edit(Session(h, "", false), "A");
    assert !IsBlank(typed.input) by { assert !IsWhitespace("A"[0]); }
    SendGuard(typed, "a");
  }

  /** Sending "A" and then "B" before the reply arrives records only "A";
      "B" stays in the buffer and the reply is still pending. */
  lemma DroppedSecondSubmit()
    ensures
      var afterA := Send(Edit(Initial, "A"), "a");
      var afterB := Send(Edit(afterA, "B"), "b");
      afterB.messages == afterA.messages && afterB.input == "B" && afterB.isTyping
      && |afterA.messages| == 3 && afterA.messages[2] == Message("a", User, "A")
  {
    DroppedSecondSubmitFrom(Seed);
  }
}
