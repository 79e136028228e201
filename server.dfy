/** The HTTP layer of the back end (app.py), which shares one Conversation
    between requests. `/generate` reads the prompt and the follow-up flag
    from the query, formats the prompt, appends it to the shared history and
    streams the model's reply as events: one per piece of text, then `done`;
    if the model call raises, an `error` event and then `done`, and no reply
    is recorded. `/generate_complete` runs the conversation's own `generate`
    and answers with the text of the newest history entry. */
module Server {
  import opened Common
  import opened Backend

  // ---------------------------------------------------------------------
  // The query parameters of /generate
  // ---------------------------------------------------------------------

  /** Python's lower-casing, for ASCII letters. */
  function LowerChar(c: char): char {
    if 'A' <= c <= 'Z' then (c as int + 32) as char else c
  }

  function Lower(s: string): (r: string)
    ensures |r| == |s| && forall k :: 0 <= k < |s| ==> r[k] == LowerChar(s[k])
  {
    if s == [] then [] else [LowerChar(s[0])] + Lower(s[1..])
  }

  /** `request.args.get('is_followup', 'false').lower() == 'true'`: a missing
      parameter counts as "false", and any spelling of "true" in upper or
      lower case letters, and nothing else, means a follow-up. */
  function IsFollowupParam(param: Option<string>): (r: bool)
    ensures param.None? ==> !r
    ensures r <==>
      param.Some? && |param.value| == 4 &&
      param.value[0] in "tT" && param.value[1] in "rR" && param.value[2] in "uU" && param.value[3] in "eE"
  {
    var lowered := Lower(param.GetOr("false"));
    assert lowered == "true" <==> |lowered| == 4 && lowered[0] == 't' && lowered[1] == 'r' && lowered[2] == 'u' && lowered[3] == 'e';
    lowered == "true"
  }

  const StreamPromptHeader: string := "Here's my prompt:\n\n"

  /** The streaming endpoint introduces a first prompt with a header followed
      by a blank line; a follow-up is sent as typed. */
  function FormatStreamPrompt(prompt: string, isFollowup: bool): (r: string)
    ensures isFollowup ==> r == prompt
    ensures !isFollowup ==>
      |r| == |StreamPromptHeader| + |prompt| &&
      r[..|StreamPromptHeader|] == StreamPromptHeader && r[|StreamPromptHeader|..] == prompt
  {
    if isFollowup then prompt else StreamPromptHeader + prompt
  }

  /** The two endpoints format a first prompt differently: the streaming one
      adds a blank line after the header, that is, it sends what `generate`
      would send for the prompt with one more line feed in front. */
  lemma FirstPromptFormatsDiffer(prompt: string)
    ensures FormatStreamPrompt(prompt, false) != FormatPrompt(prompt, false)
    ensures FormatStreamPrompt(prompt, false) == FormatPrompt("\n" + prompt, false)
  {
  }

  // ---------------------------------------------------------------------
  // The events of /generate
  // ---------------------------------------------------------------------

  /** One server-sent event, before JSON encoding. */
  datatype StreamEvent = Token(text: string) | Done | Error(message: string)

  /** `if chunk.text:` holds for text that is present and not empty. */
  predicate HasText(chunk: Option<string>) {
    chunk.Some? && chunk.value != ""
  }

  /** The texts sent as tokens: those of the chunks that have text, in order. */
  function TokenTexts(chunks: seq<Option<string>>): seq<string> {
    if chunks == [] then []
    else TokenTexts(chunks[..|chunks| - 1]) + (if HasText(chunks[|chunks| - 1]) then [chunks[|chunks| - 1].value] else [])
  }

  function Tokens(texts: seq<string>): (events: seq<StreamEvent>)
    ensures |events| == |texts| && forall k :: 0 <= k < |texts| ==> events[k] == Token(texts[k])
  {
    if texts == [] then [] else [Token(texts[0])] + Tokens(texts[1..])
  }

  /** Everything the stream sends for one request. */
  function StreamEvents(stream: ChunkStream): seq<StreamEvent> {
    Tokens(TokenTexts(stream.chunks)) +
    (if stream.failure.Some? then [Error(stream.failure.value), Done] else [Done])
  }

  /** No token is empty, and the tokens together are exactly the reply that
      `generate` would record for the same chunks. */
  lemma {:induction false} TokensCarryResponse(chunks: seq<Option<string>>)
    ensures forall k :: 0 <= k < |TokenTexts(chunks)| ==> TokenTexts(chunks)[k] != ""
    ensures ConcatAll(TokenTexts(chunks)) == ResponseText(chunks)
  {
    if chunks != [] {
      var init, last := chunks[..|chunks| - 1], chunks[|chunks| - 1];
      TokensCarryResponse(init);
      var extra := if HasText(last) then [last.value] else [];
      ConcatAllAppend(TokenTexts(init), extra);
      assert ConcatAll(extra) == ChunkText(last) by {
        if HasText(last) { assert ConcatAll(extra) == last.value + ConcatAll([]); }
      }
    }
  }

  /** Tokens go out in stream order: the tokens for a stream split in two are
      those of the first part, then those of the second. */
  lemma {:induction false} TokenTextsAppend(a: seq<Option<string>>, b: seq<Option<string>>)
    ensures TokenTexts(a + b) == TokenTexts(a) + TokenTexts(b)
    decreases |b|
  {
    if b == [] {
      assert a + b == a;
    } else {
      TokenTextsAppend(a, b[..|b| - 1]);
      assert (a + b)[..|a + b| - 1] == a + b[..|b| - 1];
    }
  }

  /** Every chunk with text sends exactly one token, and no other chunk sends
      any. */
  lemma {:induction false} OneTokenPerTextChunk(chunks: seq<Option<string>>)
    ensures |TokenTexts(chunks)| == CountWithText(chunks)
  {
    if chunks != [] {
      OneTokenPerTextChunk(chunks[..|chunks| - 1]);
    }
  }

  function CountWithText(chunks: seq<Option<string>>): nat {
    if chunks == [] then 0
    else CountWithText(chunks[..|chunks| - 1]) + (if HasText(chunks[|chunks| - 1]) then 1 else 0)
  }

  /** The stream always ends with exactly one `done`, preceded by one `error`
      exactly when the model call raised, and `done` and `error` appear
      nowhere else. */
  lemma StreamEnding(stream: ChunkStream)
    ensures var events := StreamEvents(stream);
      var n := |TokenTexts(stream.chunks)|;
      events[|events| - 1] == Done &&
      |events| == n + (if stream.failure.Some? then 2 else 1) &&
      (stream.failure.Some? ==> events[n] == Error(stream.failure.value)) &&
      forall k :: 0 <= k < n ==> events[k].Token?
  {
  }

  // ---------------------------------------------------------------------
  // The endpoints
  // ---------------------------------------------------------------------

  /** `generate_stream` for one request to /generate. */
  method GenerateStream(conversation: Conversation, prompt: string, isFollowup: bool, gemini: GeminiCall)
    returns (events: seq<StreamEvent>)
    modifies conversation
    ensures var user := TextEntry(User, FormatStreamPrompt(prompt, isFollowup));
      var stream := gemini(old(conversation.history) + [user]);
      conversation.history == AfterTurn(old(conversation.history), user, stream) &&
      events == StreamEvents(stream)
  {
    var formattedPrompt := FormatStreamPrompt(prompt, isFollowup);
    conversation.history := conversation.history + [TextEntry(User, formattedPrompt)];
    var fullResponse := "";
    var stream := gemini(conversation.history);
    events := [];
    for i := 0 to |stream.chunks|
      invariant events == Tokens(TokenTexts(stream.chunks[..i]))
      invariant fullResponse == ConcatAll(TokenTexts(stream.chunks[..i]))
      invariant conversation.history == old(conversation.history) + [TextEntry(User, formattedPrompt)]
    {
      var chunk := stream.chunks[i];
      assert stream.chunks[..i + 1][..i] == stream.chunks[..i];
      if chunk.Some? && chunk.value != "" {
        var newText := chunk.value;
        ConcatAllAppend(TokenTexts(stream.chunks[..i]), [newText]);
        assert ConcatAll([newText]) == newText + ConcatAll([]);
        assert TokenTexts(stream.chunks[..i + 1]) == TokenTexts(stream.chunks[..i]) + [newText];
        assert Tokens(TokenTexts(stream.chunks[..i]) + [newText]) == Tokens(TokenTexts(stream.chunks[..i])) + [Token(newText)];
        fullResponse := fullResponse + newText;
        events := events + [Token(newText)];
        assert fullResponse == ConcatAll(TokenTexts(stream.chunks[..i]) + [newText]);
      } else {
        assert TokenTexts(stream.chunks[..i]) + [] == TokenTexts(stream.chunks[..i]);
        assert TokenTexts(stream.chunks[..i + 1]) == TokenTexts(stream.chunks[..i]);
      }
    }
    assert stream.chunks[..|stream.chunks|] == stream.chunks;
    if stream.failure.Some? {
      events := events + [Error(stream.failure.value), Done];
      assert conversation.history + [] == conversation.history;
      return;
    }
    TokensCarryResponse(stream.chunks);
    conversation.history := conversation.history + [TextEntry(Model, fullResponse)];
    events := events + [Done];
  }

  const NoResponse: string := "No response generated yet."

  /** The text of the newest history entry's first part, or a placeholder
      when there is no entry or it has no parts. */
  function LatestResponse(history: seq<Content>): (r: string)
    ensures |history| > 0 && |history[|history| - 1].parts| > 0 ==> r == history[|history| - 1].parts[0].text
    ensures |history| == 0 || history[|history| - 1].parts == [] ==> r == NoResponse
  {
    if |history| > 0 && history[|history| - 1].parts != [] then history[|history| - 1].parts[0].text
    else NoResponse
  }

  /** After a call that succeeds, the newest entry is the model's reply, so
      the placeholder is never what `generate_complete` answers. */
  lemma LatestIsReply(history: seq<Content>, user: Content, stream: ChunkStream)
    requires stream.failure.None?
    ensures LatestResponse(AfterTurn(history, user, stream)) == ResponseText(stream.chunks)
  {
  }

  /** The JSON body of /generate_complete, when there is one. */
  datatype CompleteBody = CompleteBody(prompt: string, isFollowup: bool)

  /** `generate_complete`. A missing body means an empty first prompt. The
      answer is None when the model call raised and the exception escapes to
      the web framework. */
  method GenerateComplete(conversation: Conversation, body: Option<CompleteBody>, gemini: GeminiCall)
    returns (response: Option<string>)
    modifies conversation
    ensures var prompt := if body.Some? then body.value.prompt else "";
      var isFollowup := body.Some? && body.value.isFollowup;
      var user := TextEntry(User, FormatPrompt(prompt, isFollowup));
      var stream := gemini(old(conversation.history) + [user]);
      conversation.history == AfterTurn(old(conversation.history), user, stream) &&
      response == (if stream.failure.None? then Some(ResponseText(stream.chunks)) else None)
  {
    var prompt := if body.Some? then body.value.prompt else "";
    var isFollowup := if body.Some? then body.value.isFollowup else false;
    var failure := conversation.Generate(prompt, isFollowup, gemini);
    if failure.Some? {
      return None;
    }
    response := Some(LatestResponse(conversation.history));
  }
}
