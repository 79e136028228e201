/** One exchange end to end: the chat view submits a prompt, the streaming
    endpoint answers with its events, and the browser delivers them to the
    view's handler until the handler closes the stream. */
module Session {
  import opened Common
  import opened Chat
  import Backend
  import Server

  /** How the handler reads each event the server sends (`{token}`,
      `{done: true}` or `{error}` once decoded). */
  function Wire(e: Server.StreamEvent): ServerEvent {
    match e
    case Token(text) => ServerEvent(text, false, "")
    case Done => ServerEvent("", true, "")
    case Error(message) => ServerEvent("", false, message)
  }

  function WireAll(events: seq<Server.StreamEvent>): (r: seq<ServerEvent>)
    ensures |r| == |events| && forall k :: 0 <= k < |events| ==> r[k] == Wire(events[k])
  {
    if events == [] then [] else [Wire(events[0])] + WireAll(events[1..])
  }

  lemma WireAllAppend(a: seq<Server.StreamEvent>, b: seq<Server.StreamEvent>)
    ensures WireAll(a + b) == WireAll(a) + WireAll(b)
  {
    var l, r := WireAll(a + b), WireAll(a) + WireAll(b);
    assert |l| == |r|;
    forall k | 0 <= k < |l|
      ensures l[k] == r[k]
    {
      if k < |a| {
        assert (a + b)[k] == a[k];
      } else {
        assert (a + b)[k] == b[k - |a|];
      }
    }
  }

  lemma {:induction false} WireTokens(texts: seq<string>)
    ensures WireAll(Server.Tokens(texts)) == TokenEvents(texts)
  {
    if texts != [] {
      WireTokens(texts[1..]);
      WireAllAppend([Server.Token(texts[0])], Server.Tokens(texts[1..]));
    }
  }

  /** The follow-up flag survives the trip through the URL: the server reads
      back exactly what the view meant. */
  lemma FollowUpFlagRoundTrip(isFollowUp: bool)
    ensures Server.IsFollowupParam(Some(FlagText(isFollowUp))) == isFollowUp
  {
  }

  /** Delivering two batches of events is delivering them one after the
      other; once the stream is closed the rest is dropped. */
  lemma {:induction false} DeliverAppend(s: ChatState, a: seq<ServerEvent>, b: seq<ServerEvent>)
    ensures Deliver(s, a + b) == Deliver(Deliver(s, a), b)
    ensures !s.streamOpen ==> Deliver(s, b) == s
    decreases |a|
  {
    if a == [] {
      assert a + b == b;
    } else if s.streamOpen {
      DeliverAppend(MessageStep(s, a[0]), a[1..], b);
      assert (a + b)[1..] == a[1..] + b;
    }
  }

  /** What the model message finally shows: the streamed text, or the
      apology when the call failed before any text and the error message is
      not empty (an empty one reads as no error at all). */
  function Shown(stream: Backend.ChunkStream): string {
    var text := Backend.ResponseText(stream.chunks);
    if stream.failure.Some? && text == "" && stream.failure.value != "" then Apology else text
  }

  /** The events that end a stream: `done`, after an `error` when the call
      raised. */
  function Ending(failure: Option<string>): seq<Server.StreamEvent> {
    if failure.Some? then [Server.Error(failure.value), Server.Done] else [Server.Done]
  }

  /** What the last message shows once the ending has been delivered. */
  function EndText(m: ChatState, failure: Option<string>): string {
    if failure.Some? && m.fullModelResponse == "" && failure.value != "" then Apology else m.fullModelResponse
  }

  /** What delivering the ending leaves: an idle, consistent view whose list
      changed at most in its last message, which shows `EndText`. */
  predicate EndedFrom(m: ChatState, r: ChatState, failure: Option<string>) {
    var n := |m.conversations|;
    n > 0 && Consistent(r) && !r.streamOpen && !r.isLoading &&
    |r.conversations| == n && r.conversations[..n - 1] == m.conversations[..n - 1] &&
    Last(r.conversations) == Message(Model, EndText(m, failure))
  }

  /** A single event that closes an open view ends it as `EndText` says. */
  lemma ClosingEvent(m: ChatState, ev: ServerEvent, failure: Option<string>)
    requires Consistent(m) && m.streamOpen && ev.token == ""
    requires ev.error == failure.GetOr("") && (ev.done || ev.error != "")
    ensures EndedFrom(m, MessageStep(m, ev), failure)
  {
    StepsKeepConsistent(m, "", false, ev);
  }

  /** Delivering the ending to an open view closes it and leaves the reply
      so far in the last message, or the apology when the reply is empty and
      the error message is not. */
  lemma EndingShown(m: ChatState, failure: Option<string>)
    requires Consistent(m) && m.streamOpen
    ensures EndedFrom(m, Deliver(m, WireAll(Ending(failure))), failure)
  {
    var events := WireAll(Ending(failure));
    var first := events[0];
    var next := MessageStep(m, first);
    assert Deliver(m, events) == Deliver(next, events[1..]);
    if failure.Some? && failure.value == "" {
      StepsKeepConsistent(m, "", false, first);
      assert next == m;
      var done := events[1];
      assert events[1..][1..] == [];
      assert Deliver(next, events[1..]) == Deliver(MessageStep(m, done), []);
      ClosingEvent(m, done, failure);
    } else {
      ClosingEvent(m, first, failure);
      assert !next.streamOpen;
    }
  }

  /** Once the stream's events have been delivered to a view waiting on an
      empty model message, the stream is closed, loading has stopped, no
      message was added or changed but the last, and the last shows the
      reply (or the apology). */
  lemma ReplyShown(s: ChatState, stream: Backend.ChunkStream)
    requires Consistent(s) && s.streamOpen && s.fullModelResponse == ""
    ensures var r := Deliver(s, WireAll(Server.StreamEvents(stream)));
      var n := |s.conversations|;
      Consistent(r) && !r.streamOpen && !r.isLoading &&
      |r.conversations| == n && r.conversations[..n - 1] == s.conversations[..n - 1] &&
      Last(r.conversations) == Message(Model, Shown(stream))
  {
    var texts := Server.TokenTexts(stream.chunks);
    var tail := Ending(stream.failure);
    assert Server.StreamEvents(stream) == Server.Tokens(texts) + tail;
    WireAllAppend(Server.Tokens(texts), tail);
    WireTokens(texts);
    DeliverAppend(s, TokenEvents(texts), WireAll(tail));
    TokensAccumulate(s, texts);
    Server.TokensCarryResponse(stream.chunks);
    var mid := Deliver(s, TokenEvents(texts));
    assert "" + ConcatAll(texts) == Backend.ResponseText(stream.chunks);
    assert mid.fullModelResponse == Backend.ResponseText(stream.chunks);
    EndingShown(mid, stream.failure);
    assert WireAll(Server.StreamEvents(stream)) == TokenEvents(texts) + WireAll(tail);
    assert Deliver(s, WireAll(Server.StreamEvents(stream))) == Deliver(mid, WireAll(tail));
    var r := Deliver(mid, WireAll(tail));
    var n := |s.conversations|;
    assert |mid.conversations| == n && mid.conversations[..n - 1] == s.conversations[..n - 1];
    assert EndedFrom(mid, r, stream.failure);
    assert Shown(stream) == EndText(mid, stream.failure);
  }

  /** The history entry `/generate` records for a request the view sent:
      the prompt, formatted by the flag the server reads back from the URL. */
  function SentEntry(req: Request): Backend.Content {
    Backend.TextEntry(User, Server.FormatStreamPrompt(req.prompt, Server.IsFollowupParam(Some(FlagText(req.isFollowUp)))))
  }

  /** A submitted prompt, streamed to the end, whatever the stream: the list
      gains the user's message and the model's, the latter holding what the
      view shows for the stream, and the view is idle again. */
  lemma SubmitThenStream(s: ChatState, stream: Backend.ChunkStream)
    requires Consistent(s) && !IsBlank(s.prompt)
    ensures var r := Deliver(SubmitStep(s, false).0, WireAll(Server.StreamEvents(stream)));
      r.conversations == s.conversations + [Message(User, s.prompt), Message(Model, Shown(stream))] &&
      !r.isLoading && !r.streamOpen
  {
    var t := SubmitStep(s, false).0;
    StepsKeepConsistent(s, "", false, TokenEvent(""));
    ReplyShown(t, stream);
    var r := Deliver(t, WireAll(Server.StreamEvents(stream)));
    var n := |s.conversations|;
    assert t.conversations == s.conversations + [Message(User, s.prompt), Message(Model, "")];
    assert r.conversations[..n + 1] == t.conversations[..n + 1] == s.conversations + [Message(User, s.prompt)];
    assert r.conversations == r.conversations[..n + 1] + [Last(r.conversations)];
  }

  /** A submitted prompt, end to end: the request the view sends is read by
      the streaming endpoint as the typed prompt with the view's follow-up
      flag; the model is called on the server's history plus that entry; once
      its events are delivered the list has gained the user's message and
      the model's and the view is idle again; and when the call succeeds the
      model's message is exactly the reply the server recorded. */
  lemma SubmitAndStream(s: ChatState, history: seq<Backend.Content>, gemini: Backend.GeminiCall)
    requires Consistent(s) && !IsBlank(s.prompt)
    ensures SubmitStep(s, false).1 == Some(Request(s.prompt, |s.conversations| > 0))
    ensures var user := SentEntry(SubmitStep(s, false).1.value);
      var stream := gemini(history + [user]);
      var r := Deliver(SubmitStep(s, false).0, WireAll(Server.StreamEvents(stream)));
      user == Backend.TextEntry(User, Server.FormatStreamPrompt(s.prompt, |s.conversations| > 0)) &&
      r.conversations == s.conversations + [Message(User, s.prompt), Message(Model, Shown(stream))] &&
      !r.isLoading && !r.streamOpen &&
      (stream.failure.None? ==>
        Last(r.conversations).content == Server.LatestResponse(Backend.AfterTurn(history, user, stream)))
  {
    var req := SubmitStep(s, false).1.value;
    FollowUpFlagRoundTrip(req.isFollowUp);
    var user := SentEntry(req);
    var stream := gemini(history + [user]);
    SubmitThenStream(s, stream);
    if stream.failure.None? {
      Server.LatestIsReply(history, user, stream);
    }
  }
}
