/** The chat widget: a conversation that starts with a fixed greeting, a
    draft input, an open flag and a loading flag. Sending a message is split
    at its one suspension point: Submit runs up to the remote model call and
    Complete runs when that call settles. The call itself is only its
    Outcome. */
module RetroChat {
  import opened Optional
  import opened Text
  import opened ModelCall

  datatype Role = User | Model

  datatype Message = Message(role: Role, text: string)

  datatype ChatState = ChatState(
    isOpen: bool,
    input: string,
    messages: seq<Message>,
    isLoading: bool)

  const Greeting := "SYSTEM INITIALIZED. I CAN ANSWER QUESTIONS ABOUT JIA SONG'S RESUME AND PROJECTS."

  /** The state the widget is created in: closed, empty draft, not loading,
      and a conversation holding only the greeting. */
  function Initial(): ChatState {
    ChatState(false, "", [Message(Model, Greeting)], false)
  }

  // ---------------------------------------------------------------------
  // Transitions

  /** The guard of the send handler and of the send button. */
  predicate CanSubmit(s: ChatState) {
    Trim(s.input) != [] && !s.isLoading
  }

  /** The new state after a submit, and the query sent to the model,
      if any. */
  datatype Submitted = Submitted(state: ChatState, query: Option<string>)

  /** The send handler up to the model call. A blank draft or a pending
      request makes it do nothing and call nothing; otherwise the trimmed
      draft becomes a user message, the draft is cleared, loading starts and
      that trimmed text is sent to the model. */
  function Submit(s: ChatState): (r: Submitted)
    ensures r.query.Some? <==> CanSubmit(s)
    ensures !CanSubmit(s) ==> r.state == s
    ensures CanSubmit(s) ==>
      && r.query.value == Trim(s.input)
      && |r.state.messages| == |s.messages| + 1
      && r.state.messages[..|s.messages|] == s.messages
      && r.state.messages[|s.messages|] == Message(User, r.query.value)
      && r.state.input == []
      && r.state.isLoading
      && r.state.isOpen == s.isOpen
  {
    if !CanSubmit(s) then Submitted(s, None)
    else
      var query := Trim(s.input);
      Submitted(
        s.(input := [], messages := s.messages + [Message(User, query)], isLoading := true),
        Some(query))
  }

  /** The one model call a submit makes, if any. */
  function SentRequest(s: ChatState, knowledge: string): Option<Request> {
    match Submit(s).query
    case Some(query) => Some(MakeRequest(SystemPrompt, knowledge, query))
    case None => None
  }

  /** The send handler after the model call settles: exactly one model
      message is appended and loading ends, whatever the outcome and whether
      or not the widget is open. */
  function Complete(s: ChatState, o: Outcome): (t: ChatState)
    ensures |t.messages| == |s.messages| + 1
    ensures t.messages[..|s.messages|] == s.messages
    ensures t.messages[|s.messages|].role == Model
    ensures t.messages[|s.messages|].text == ReplyText(o)
    ensures !t.isLoading
    ensures t.isOpen == s.isOpen && t.input == s.input
  {
    s.(messages := s.messages + [Message(Model, ReplyText(o))], isLoading := false)
  }

  /** The floating toggle button. */
  function Open(s: ChatState): (t: ChatState)
    ensures t.isOpen
    ensures t.input == s.input && t.messages == s.messages && t.isLoading == s.isLoading
  {
    s.(isOpen := true)
  }

  /** The minimise and the close buttons, which do the same thing. */
  function Close(s: ChatState): (t: ChatState)
    ensures !t.isOpen
    ensures t.input == s.input && t.messages == s.messages && t.isLoading == s.isLoading
  {
    s.(isOpen := false)
  }

  /** Typing in the draft field, allowed while a request is pending. */
  function EditInput(s: ChatState, text: string): (t: ChatState)
    ensures t.input == text
    ensures t.isOpen == s.isOpen && t.messages == s.messages && t.isLoading == s.isLoading
  {
    s.(input := text)
  }

  // ---------------------------------------------------------------------
  // Properties of single transitions

  /** While a request is pending, a submit is a no-op whatever the draft. */
  lemma SingleFlight(s: ChatState, knowledge: string)
    requires s.isLoading
    ensures Submit(s) == Submitted(s, None)
    ensures SentRequest(s, knowledge) == None
  {
  }

  /** A blank draft (empty or only whitespace) is rejected silently and
      calls nothing. */
  lemma BlankDraftRejected(s: ChatState, knowledge: string)
    requires AllTrimmable(s.input)
    ensures Submit(s) == Submitted(s, None)
    ensures SentRequest(s, knowledge) == None
  {
    TrimEmptyIff(s.input);
  }

  /** An accepted submit makes exactly one call, whose content is the
      trimmed draft and whose instruction holds the complete knowledge base
      and that same trimmed draft. */
  lemma AcceptedSubmitSends(s: ChatState, knowledge: string)
    requires CanSubmit(s)
    ensures SentRequest(s, knowledge).Some?
    ensures SentRequest(s, knowledge).value.contents == Trim(s.input)
    ensures QueryOf(SystemPrompt, knowledge, SentRequest(s, knowledge).value.systemInstruction)
      == Some(Trim(s.input))
    ensures SentRequest(s, knowledge).value.systemInstruction[|SystemPrompt.head|..|SystemPrompt.head| + |knowledge|]
      == knowledge
  {
  }

  /** The request depends only on the knowledge base and the trimmed draft,
      never on the conversation so far, the open flag or untrimmed spacing. */
  lemma RequestIgnoresHistory(s1: ChatState, s2: ChatState, knowledge: string)
    requires !s1.isLoading && !s2.isLoading
    requires Trim(s1.input) == Trim(s2.input)
    ensures SentRequest(s1, knowledge) == SentRequest(s2, knowledge)
  {
  }

  /** An accepted turn, submit then completion, grows the conversation by
      exactly two messages, the user's trimmed text and then the model's
      reply, and leaves the widget idle. */
  lemma FullTurn(s: ChatState, o: Outcome)
    requires CanSubmit(s)
    ensures Complete(Submit(s).state, o).messages
      == s.messages + [Message(User, Trim(s.input)), Message(Model, ReplyText(o))]
    ensures !Complete(Submit(s).state, o).isLoading
    ensures Complete(Submit(s).state, o).input == []
  {
  }

  /** Closing the widget mid-request neither cancels the request nor drops
      its reply: completing after closing is closing after completing. */
  lemma CloseDuringRequest(s: ChatState, o: Outcome)
    requires s.isLoading
    ensures Close(s).isLoading
    ensures Complete(Close(s), o) == Close(Complete(s, o))
    ensures Complete(Close(s), o).messages == s.messages + [Message(Model, ReplyText(o))]
  {
  }

  // ---------------------------------------------------------------------
  // Runs of the widget

  /** What can happen to the widget. A response only arrives while a
      request is pending, which is exactly when the loading flag is set. */
  datatype Event =
    | OpenChat
    | CloseChat
    | Type(text: string)
    | Send
    | Respond(outcome: Outcome)

  predicate Possible(s: ChatState, e: Event) {
    e.Respond? ==> s.isLoading
  }

  function Step(s: ChatState, e: Event): ChatState {
    match e
    case OpenChat => Open(s)
    case CloseChat => Close(s)
    case Type(text) => EditInput(s, text)
    case Send => Submit(s).state
    case Respond(o) => Complete(s, o)
  }

  /** Every event of `events` is possible in the state it meets. */
  predicate Feasible(s: ChatState, events: seq<Event>)
    decreases |events|
  {
    |events| == 0 || (Possible(s, events[0]) && Feasible(Step(s, events[0]), events[1..]))
  }

  function Run(s: ChatState, events: seq<Event>): ChatState
    requires Feasible(s, events)
    decreases |events|
  {
    if |events| == 0 then s else Run(Step(s, events[0]), events[1..])
  }

  /** The shape of every conversation the widget can show, given its first
      message: that model message first, then user and model messages
      alternating, no empty message, no user message with surrounding
      whitespace, and a trailing user message exactly while a request is
      pending. */
  ghost predicate WellFormedFrom(s: ChatState, first: Message) {
    var m := s.messages;
    && |m| >= 1
    && m[0] == first
    && first.role == Model
    && (forall i :: 1 <= i < |m| ==> m[i].role == (if i % 2 == 1 then User else Model))
    && (forall i :: 0 <= i < |m| ==> m[i].text != [])
    && (forall i :: 0 <= i < |m| && m[i].role == User ==> NoSurroundingSpace(m[i].text))
    && (s.isLoading <==> |m| % 2 == 0)
  }

  /** The conversation shape with the greeting as first message. */
  ghost predicate WellFormed(s: ChatState) {
    WellFormedFrom(s, Message(Model, Greeting))
  }

  /** The widget starts with exactly the greeting, and well formed. */
  lemma InitialWellFormed()
    ensures |Initial().messages| == 1
    ensures Initial().messages[0] == Message(Model, Greeting)
    ensures !Initial().isLoading && !Initial().isOpen && Initial().input == []
    ensures WellFormed(Initial())
  {
  }

  /** Appending the message whose turn it is, non-empty and (for a user
      message) without surrounding whitespace, while flipping the loading
      flag, keeps the shape. */
  lemma AppendPreserves(s: ChatState, t: ChatState, msg: Message, first: Message)
    requires WellFormedFrom(s, first)
    requires t.messages == s.messages + [msg]
    requires msg.role == (if |s.messages| % 2 == 1 then User else Model)
    requires msg.text != []
    requires msg.role == User ==> NoSurroundingSpace(msg.text)
    requires t.isLoading == !s.isLoading
    ensures WellFormedFrom(t, first)
  {
    var m, n := t.messages, |s.messages|;
    forall i | 0 <= i < |m|
      ensures i >= 1 ==> m[i].role == (if i % 2 == 1 then User else Model)
      ensures m[i].text != []
      ensures m[i].role == User ==> NoSurroundingSpace(m[i].text)
    {
      if i < n {
        assert m[i] == s.messages[i];
      }
    }
  }

  lemma SubmitPreserves(s: ChatState, first: Message)
    requires WellFormedFrom(s, first)
    ensures WellFormedFrom(Submit(s).state, first)
  {
    if CanSubmit(s) {
      TrimNoSurroundingSpace(s.input);
      AppendPreserves(s, Submit(s).state, Message(User, Trim(s.input)), first);
    }
  }

  lemma CompletePreserves(s: ChatState, o: Outcome, first: Message)
    requires WellFormedFrom(s, first) && s.isLoading
    ensures WellFormedFrom(Complete(s, o), first)
  {
    AppendPreserves(s, Complete(s, o), Message(Model, ReplyText(o)), first);
  }

  /** Every possible event keeps the conversation well formed and only ever
      appends to it. */
  lemma StepPreserves(s: ChatState, e: Event, first: Message)
    requires WellFormedFrom(s, first) && Possible(s, e)
    ensures WellFormedFrom(Step(s, e), first)
    ensures s.messages <= Step(s, e).messages
  {
    match e
    case Send => SubmitPreserves(s, first);
    case Respond(o) => CompletePreserves(s, o, first);
    case _ =>
  }

  /** A whole run keeps the conversation well formed and only appends. */
  lemma {:induction false} RunPreserves(s: ChatState, events: seq<Event>, first: Message)
    requires WellFormedFrom(s, first) && Feasible(s, events)
    ensures WellFormedFrom(Run(s, events), first)
    ensures s.messages <= Run(s, events).messages
    decreases |events|
  {
    if |events| > 0 {
      StepPreserves(s, events[0], first);
      RunPreserves(Step(s, events[0]), events[1..], first);
    }
  }

  /** From creation on, the first message is always the greeting, user and
      model messages alternate after it, no message is empty, and the widget
      is loading exactly when a user message still awaits its reply. */
  lemma ReachableConversation(events: seq<Event>)
    requires Feasible(Initial(), events)
    ensures var t := Run(Initial(), events);
      && |t.messages| >= 1
      && t.messages[0] == Message(Model, Greeting)
      && (forall i :: 1 <= i < |t.messages| ==> t.messages[i].role == (if i % 2 == 1 then User else Model))
      && (forall i :: 0 <= i < |t.messages| ==> t.messages[i].text != [])
      && (t.isLoading <==> |t.messages| % 2 == 0)
  {
    InitialWellFormed();
    RunPreserves(Initial(), events, Message(Model, Greeting));
  }

}
