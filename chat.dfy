/** The chat view's conversation state (the `App` component of
    frontend/src/App.jsx): the prompt being typed, the loading flag, the list
    of messages, whether a streaming connection is open, and the reply text
    accumulated from the stream so far. Each handler is a transition; React's
    state updaters run one after another, in the order the handler issues
    them. */
module Chat {
  import opened Common

  datatype Message = Message(role: Role, content: string)

  /** The text shown in place of a reply that failed before any token. */
  const Apology: string := "Sorry, there was an error processing your request. Please try again."

  /** The payload of one server-sent event, as the handler reads it: a field
      that is missing, or an empty string, reads as "" and is ignored. */
  datatype ServerEvent = ServerEvent(token: string, done: bool, error: string)

  /** The query of the request to /generate: the prompt as typed and the
      follow-up flag. */
  datatype Request = Request(prompt: string, isFollowUp: bool)

  /** How the follow-up flag is written into the URL (`${isFollowUp}`). */
  function FlagText(isFollowUp: bool): (text: string)
    ensures text == "true" || text == "false"
    ensures isFollowUp <==> text == "true"
  {
    if isFollowUp then "true" else "false"
  }

  datatype ChatState = ChatState(
    prompt: string,
    isLoading: bool,
    conversations: seq<Message>,
    streamOpen: bool,
    fullModelResponse: string)

  const Initial: ChatState := ChatState("", false, [], false, "")

  function Last(ms: seq<Message>): Message
    requires |ms| > 0
  {
    ms[|ms| - 1]
  }

  /** While a stream is open the view is loading, and the last message is the
      model message that shows exactly the reply received so far. When no
      stream is open the view is not loading. */
  predicate Consistent(s: ChatState) {
    s.isLoading == s.streamOpen &&
    (s.streamOpen ==> |s.conversations| > 0 && Last(s.conversations) == Message(Model, s.fullModelResponse))
  }

  // ---------------------------------------------------------------------
  // The updaters passed to setConversations
  // ---------------------------------------------------------------------

  /** Writes `text` into the last message if it is a model message; every
      other message, and a list whose last message is the user's, is left
      as it was. */
  function SetLastModelContent(ms: seq<Message>, text: string): (r: seq<Message>)
    ensures |r| == |ms| && (|ms| > 0 ==> r[..|ms| - 1] == ms[..|ms| - 1])
    ensures |ms| > 0 && Last(ms).role == Model ==> Last(r) == Message(Model, text)
    ensures |ms| > 0 && Last(ms).role != Model ==> r == ms
  {
    if |ms| > 0 && Last(ms).role == Model then ms[|ms| - 1 := Message(Model, text)] else ms
  }

  /** Writes the apology into the last message only if it is a model message
      that is still empty. */
  function ApologizeIfEmpty(ms: seq<Message>): (r: seq<Message>)
    ensures |r| == |ms| && (|ms| > 0 ==> r[..|ms| - 1] == ms[..|ms| - 1])
    ensures |ms| > 0 && Last(ms) == Message(Model, "") ==> Last(r) == Message(Model, Apology)
    ensures |ms| == 0 || Last(ms) != Message(Model, "") ==> r == ms
  {
    if |ms| > 0 && Last(ms).role == Model && Last(ms).content == "" then SetLastModelContent(ms, Apology) else ms
  }

  // ---------------------------------------------------------------------
  // The transitions
  // ---------------------------------------------------------------------

  /** The text field's onChange. */
  function TypeStep(s: ChatState, text: string): (r: ChatState)
    ensures r.prompt == text && r.(prompt := s.prompt) == s
  {
    s.(prompt := text)
  }

  /** handleSubmit. A blank prompt changes nothing. Otherwise any open stream
      is closed, the user's message and an empty model message are appended,
      the field is cleared and a request is opened, flagged as a follow-up
      when the list was not empty. If opening the connection throws, loading
      stops and the model message gets the apology. */
  function SubmitStep(s: ChatState, connectFails: bool): (r: (ChatState, Option<Request>))
    ensures IsBlank(s.prompt) ==> r == (s, None)
    ensures !IsBlank(s.prompt) ==>
      var n := |s.conversations|;
      |r.0.conversations| == n + 2 &&
      r.0.conversations[..n] == s.conversations &&
      r.0.conversations[n] == Message(User, s.prompt) &&
      r.0.conversations[n + 1].role == Model &&
      r.0.prompt == ""
    ensures !IsBlank(s.prompt) && !connectFails ==>
      Last(r.0.conversations).content == "" &&
      r.0.isLoading && r.0.streamOpen &&
      r.1 == Some(Request(s.prompt, |s.conversations| > 0))
    ensures !IsBlank(s.prompt) && connectFails ==>
      Last(r.0.conversations).content == Apology &&
      !r.0.isLoading && !r.0.streamOpen && r.1 == None
  {
    if IsBlank(s.prompt) then (s, None)
    else
      var isFollowUp := |s.conversations| > 0;
      var withUser := s.conversations + [Message(User, s.prompt)];
      var sent := s.(streamOpen := false, conversations := withUser, isLoading := true, prompt := "");
      var waiting := sent.(conversations := sent.conversations + [Message(Model, "")]);
      if connectFails then
        (waiting.(isLoading := false, conversations := SetLastModelContent(waiting.conversations, Apology)), None)
      else
        (waiting.(streamOpen := true, fullModelResponse := ""), Some(Request(s.prompt, isFollowUp)))
  }

  /** The stream's onmessage. A token is added to the reply so far, which
      then replaces the content of the last message if that is a model
      message; `done` closes the stream and stops loading; an error does the
      same and puts the apology into a model message that is still empty. */
  function MessageStep(s: ChatState, ev: ServerEvent): (r: ChatState)
    ensures r.prompt == s.prompt
    ensures r.fullModelResponse == s.fullModelResponse + ev.token
    ensures |r.conversations| == |s.conversations|
    ensures |s.conversations| > 0 ==> r.conversations[..|s.conversations| - 1] == s.conversations[..|s.conversations| - 1]
    ensures ev.done || ev.error != "" ==> !r.isLoading && !r.streamOpen
    ensures !ev.done && ev.error == "" ==> r.isLoading == s.isLoading && r.streamOpen == s.streamOpen
    ensures ev.token == "" && ev.error == "" ==> r.conversations == s.conversations
    ensures ev.token != "" && ev.error == "" ==>
      r.conversations == SetLastModelContent(s.conversations, s.fullModelResponse + ev.token)
    ensures ev.token == "" && ev.error != "" ==> r.conversations == ApologizeIfEmpty(s.conversations)
    ensures ev.token != "" && ev.error != "" ==>
      r.conversations == ApologizeIfEmpty(SetLastModelContent(s.conversations, s.fullModelResponse + ev.token))
  {
    var afterToken :=
      if ev.token != "" then
        var full := s.fullModelResponse + ev.token;
        s.(fullModelResponse := full, conversations := SetLastModelContent(s.conversations, full))
      else s;
    var afterDone := if ev.done then afterToken.(streamOpen := false, isLoading := false) else afterToken;
    if ev.error != "" then
      afterDone.(streamOpen := false, isLoading := false, conversations := ApologizeIfEmpty(afterDone.conversations))
    else afterDone
  }

  /** The stream's onerror: the connection is closed, loading stops, and the
      apology goes into a model message that is still empty. */
  function ConnectionErrorStep(s: ChatState): (r: ChatState)
    ensures !r.isLoading && !r.streamOpen
    ensures r.conversations == ApologizeIfEmpty(s.conversations)
    ensures r.prompt == s.prompt && r.fullModelResponse == s.fullModelResponse
  {
    s.(streamOpen := false, isLoading := false, conversations := ApologizeIfEmpty(s.conversations))
  }

  /** clearConversation: closes the stream, empties the list, stops loading. */
  function ClearStep(s: ChatState): (r: ChatState)
    ensures r.conversations == [] && !r.isLoading && !r.streamOpen
    ensures r.prompt == s.prompt
  {
    s.(streamOpen := false, conversations := [], isLoading := false)
  }

  /** Every transition keeps the view consistent. */
  lemma StepsKeepConsistent(s: ChatState, text: string, connectFails: bool, ev: ServerEvent)
    requires Consistent(s)
    ensures Consistent(TypeStep(s, text))
    ensures Consistent(SubmitStep(s, connectFails).0)
    ensures Consistent(MessageStep(s, ev))
    ensures Consistent(ConnectionErrorStep(s))
    ensures Consistent(ClearStep(s))
  {
  }

  // ---------------------------------------------------------------------
  // Event delivery
  // ---------------------------------------------------------------------

  /** The browser hands the events to onmessage in order, and stops once the
      handler has closed the stream: a closed EventSource delivers nothing. */
  function Deliver(s: ChatState, events: seq<ServerEvent>): ChatState
    decreases |events|
  {
    if events == [] || !s.streamOpen then s else Deliver(MessageStep(s, events[0]), events[1..])
  }

  function TokenEvent(token: string): ServerEvent {
    ServerEvent(token, false, "")
  }

  function TokenEvents(tokens: seq<string>): seq<ServerEvent> {
    if tokens == [] then [] else [TokenEvent(tokens[0])] + TokenEvents(tokens[1..])
  }

  /** One token: the stream stays open and the view stays consistent. */
  lemma TokenStep(s: ChatState, token: string)
    requires Consistent(s) && s.streamOpen
    ensures var r := MessageStep(s, TokenEvent(token));
      Consistent(r) && r.streamOpen && r.prompt == s.prompt &&
      r.fullModelResponse == s.fullModelResponse + token &&
      |r.conversations| == |s.conversations| &&
      r.conversations[..|s.conversations| - 1] == s.conversations[..|s.conversations| - 1]
  {
    StepsKeepConsistent(s, "", false, TokenEvent(token));
  }

  /** While tokens stream in, the stream stays open, no message is added,
      earlier messages do not change, and the last message shows everything
      received so far. */
  lemma {:induction false} TokensAccumulate(s: ChatState, tokens: seq<string>)
    requires Consistent(s) && s.streamOpen
    decreases |tokens|
    ensures var r := Deliver(s, TokenEvents(tokens));
      var n := |s.conversations|;
      Consistent(r) && r.streamOpen && r.prompt == s.prompt &&
      |r.conversations| == n &&
      r.conversations[..n - 1] == s.conversations[..n - 1] &&
      Last(r.conversations) == Message(Model, s.fullModelResponse + ConcatAll(tokens))
  {
    if tokens != [] {
      var next := MessageStep(s, TokenEvent(tokens[0]));
      TokenStep(s, tokens[0]);
      TokensAccumulate(next, tokens[1..]);
      var events := TokenEvents(tokens);
      assert events[0] == TokenEvent(tokens[0]) && events[1..] == TokenEvents(tokens[1..]);
      assert Deliver(s, events) == Deliver(next, TokenEvents(tokens[1..]));
      assert next.fullModelResponse + ConcatAll(tokens[1..]) == s.fullModelResponse + ConcatAll(tokens);
    }
  }

  /** From a submit to the last token: the list ends with the user's prompt
      and a model message holding every token so far, after the messages
      that were there before. */
  lemma SubmitThenTokens(s: ChatState, tokens: seq<string>)
    requires Consistent(s) && !IsBlank(s.prompt)
    ensures var r := Deliver(SubmitStep(s, false).0, TokenEvents(tokens));
      r.conversations == s.conversations + [Message(User, s.prompt), Message(Model, ConcatAll(tokens))] &&
      r.isLoading
  {
    var t := SubmitStep(s, false).0;
    StepsKeepConsistent(s, "", false, TokenEvent(""));
    TokensAccumulate(t, tokens);
    var r := Deliver(t, TokenEvents(tokens));
    var n := |s.conversations|;
    assert t.conversations == s.conversations + [Message(User, s.prompt), Message(Model, "")];
    assert t.fullModelResponse + ConcatAll(tokens) == ConcatAll(tokens);
    assert r.conversations[..n + 1] == t.conversations[..n + 1] == s.conversations + [Message(User, s.prompt)];
    assert r.conversations == r.conversations[..n + 1] + [Last(r.conversations)];
  }

  // ---------------------------------------------------------------------
  // The component, with its state updated in place
  // ---------------------------------------------------------------------

  class App {
    var prompt: string
    var isLoading: bool
    var conversations: seq<Message>
    /** eventSourceRef.current != null */
    var streamOpen: bool
    /** the handler's local `fullModelResponse` of the current stream */
    var fullModelResponse: string

    function State(): ChatState
      reads this
    {
      ChatState(prompt, isLoading, conversations, streamOpen, fullModelResponse)
    }

    ghost predicate Valid()
      reads this
    {
      Consistent(State())
    }

    constructor ()
      ensures Valid() && State() == Initial
    {
      prompt, isLoading, conversations, streamOpen, fullModelResponse := "", false, [], false, "";
    }

    method SetPrompt(text: string)
      requires Valid()
      modifies this
      ensures Valid() && State() == TypeStep(old(State()), text)
    {
      prompt := text;
    }

    /** `connectFails` says whether constructing the EventSource throws. */
    method HandleSubmit(connectFails: bool) returns (request: Option<Request>)
      requires Valid()
      modifies this
      ensures Valid() && (State(), request) == SubmitStep(old(State()), connectFails)
      ensures IsBlank(old(prompt)) ==> unchanged(this) && request == None
      ensures !IsBlank(old(prompt)) ==>
        conversations[..|old(conversations)|] == old(conversations) &&
        |conversations| == |old(conversations)| + 2
      ensures request.Some? ==> request.value.isFollowUp == (|old(conversations)| > 0)
    {
      if IsBlank(prompt) {
        return None;
      }
      streamOpen := false;
      var isFollowUp := |conversations| > 0;
      var sent := prompt;
      conversations := conversations + [Message(User, sent)];
      isLoading := true;
      prompt := "";
      conversations := conversations + [Message(Model, "")];
      if connectFails {
        isLoading := false;
        if |conversations| > 0 && conversations[|conversations| - 1].role == Model {
          conversations := conversations[|conversations| - 1 := Message(Model, Apology)];
        }
        request := None;
      } else {
        streamOpen := true;
        fullModelResponse := "";
        request := Some(Request(sent, isFollowUp));
      }
    }

    method OnMessage(ev: ServerEvent)
      requires Valid()
      modifies this
      ensures Valid() && State() == MessageStep(old(State()), ev)
      ensures |conversations| == |old(conversations)|
      ensures old(streamOpen) && !ev.done && ev.error == "" ==>
        Last(conversations) == Message(Model, old(fullModelResponse) + ev.token)
    {
      if ev.token != "" {
        fullModelResponse := fullModelResponse + ev.token;
        if |conversations| > 0 {
          var lastMessage := conversations[|conversations| - 1];
          if lastMessage.role == Model {
            conversations := conversations[|conversations| - 1 := lastMessage.(content := fullModelResponse)];
          }
        }
      }
      if ev.done {
        streamOpen := false;
        isLoading := false;
      }
      if ev.error != "" {
        streamOpen := false;
        isLoading := false;
        ApologizeInPlace();
      }
    }

    method OnConnectionError()
      requires Valid()
      modifies this
      ensures Valid() && State() == ConnectionErrorStep(old(State()))
      ensures !isLoading
    {
      streamOpen := false;
      isLoading := false;
      ApologizeInPlace();
    }

    method ClearConversation()
      requires Valid()
      modifies this
      ensures Valid() && State() == ClearStep(old(State()))
      ensures conversations == [] && !isLoading
    {
      streamOpen := false;
      conversations := [];
      isLoading := false;
    }

    /** The updater shared by the two error paths, which close the stream
        and stop loading before calling it; from such a state it keeps the
        view consistent. */
    method ApologizeInPlace()
      modifies this`conversations
      ensures conversations == ApologizeIfEmpty(old(conversations))
      ensures !streamOpen && !isLoading ==> Valid()
    {
      if |conversations| > 0 {
        var lastMessage := conversations[|conversations| - 1];
        if lastMessage.role == Model && lastMessage.content == "" {
          conversations := conversations[|conversations| - 1 := lastMessage.(content := Apology)];
        }
      }
    }
  }
}
