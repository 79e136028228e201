/** The back end's conversation (the `Conversation` class of main.py): a
    history of user and model turns that only grows, seeded with one example
    exchange, and `generate`, which formats a prompt, appends it, streams the
    model's reply and appends the reply.

    The Gemini client is not modelled. Its streaming call is a parameter: a
    function from the history it is sent to the chunks it yields (a chunk's
    text may be absent) and, possibly, the exception raised after them. */
module Backend {
  import opened Common

  datatype Part = Part(text: string)

  /** One turn of the history: a role and its parts. */
  datatype Content = Content(role: Role, parts: seq<Part>)

  function TextEntry(role: Role, text: string): Content {
    Content(role, [Part(text)])
  }

  /** What one streaming call yields: the chunks, in order (`None` when a
      chunk has no text), then the message of the exception raised after
      them, if any. */
  datatype ChunkStream = ChunkStream(chunks: seq<Option<string>>, failure: Option<string>)

  /** The streaming call to the model, given the history it is sent. */
  type GeminiCall = seq<Content> -> ChunkStream

  /** Stand-ins for the seeded example prompt and reply, whose wording the
      model does not keep. */
  const SeedPrompt: string := "Here's my prompt:\n\n<example prompt>"
  const SeedReply: string := "<example enhanced prompt>"

  /** The history a new conversation starts with. */
  function Seed(): (h: seq<Content>)
    ensures |h| == 2 && h[0].role == User && h[1].role == Model
    ensures WellPaired(h)
  {
    [TextEntry(User, SeedPrompt), TextEntry(Model, SeedReply)]
  }

  const FirstPromptHeader: string := "Here's my prompt:\n"

  /** A first prompt is introduced by a one-line header; a follow-up is sent
      as typed. */
  function FormatPrompt(prompt: string, isFollowup: bool): (r: string)
    ensures isFollowup ==> r == prompt
    ensures !isFollowup ==>
      |r| == |FirstPromptHeader| + |prompt| &&
      r[..|FirstPromptHeader|] == FirstPromptHeader && r[|FirstPromptHeader|..] == prompt
  {
    if isFollowup then prompt else FirstPromptHeader + prompt
  }

  /** `chunk.text if chunk.text is not None else ""` */
  function ChunkText(chunk: Option<string>): string {
    chunk.GetOr("")
  }

  /** The reply: the chunks' texts concatenated in order. */
  function ResponseText(chunks: seq<Option<string>>): string {
    if chunks == [] then "" else ResponseText(chunks[..|chunks| - 1]) + ChunkText(chunks[|chunks| - 1])
  }

  /** The reply to a stream split in two is the two replies, one after the
      other. */
  lemma {:induction false} ResponseTextAppend(a: seq<Option<string>>, b: seq<Option<string>>)
    ensures ResponseText(a + b) == ResponseText(a) + ResponseText(b)
    decreases |b|
  {
    if b == [] {
      assert a + b == a;
    } else {
      var b' := b[..|b| - 1];
      ResponseTextAppend(a, b');
      assert (a + b)[..|a + b| - 1] == a + b';
    }
  }

  /** A chunk without text adds nothing to the reply. */
  lemma {:induction false} ResponseTextSkipsMissing(chunks: seq<Option<string>>, k: nat)
    requires k < |chunks| && (chunks[k] == None || chunks[k] == Some(""))
    ensures ResponseText(chunks[..k] + chunks[k + 1..]) == ResponseText(chunks)
  {
    assert chunks == chunks[..k] + [chunks[k]] + chunks[k + 1..];
    ResponseTextAppend(chunks[..k], [chunks[k]]);
    ResponseTextAppend(chunks[..k] + [chunks[k]], chunks[k + 1..]);
    ResponseTextAppend(chunks[..k], chunks[k + 1..]);
    assert ResponseText([chunks[k]]) == "" by {
      assert [chunks[k]][..0] == [];
    }
  }

  /** The history after one call: the user's entry, then the model's reply
      unless the call raised. */
  function AfterTurn(history: seq<Content>, user: Content, stream: ChunkStream): (h: seq<Content>)
    ensures |h| == |history| + (if stream.failure.None? then 2 else 1)
    ensures h[..|history|] == history && h[|history|] == user
    ensures stream.failure.None? ==> h[|history| + 1] == TextEntry(Model, ResponseText(stream.chunks))
  {
    history + [user] + (if stream.failure.None? then [TextEntry(Model, ResponseText(stream.chunks))] else [])
  }

  /** A history of complete exchanges: user and model turns alternate,
      starting with the user's, and the last turn is the model's. */
  predicate WellPaired(h: seq<Content>) {
    |h| % 2 == 0 && forall k :: 0 <= k < |h| ==> h[k].role == (if k % 2 == 0 then User else Model)
  }

  /** A call that succeeds keeps the exchanges complete; one that raises
      leaves the history ending with the user's turn. */
  lemma TurnPairing(history: seq<Content>, prompt: string, isFollowup: bool, stream: ChunkStream)
    requires WellPaired(history)
    ensures var h := AfterTurn(history, TextEntry(User, FormatPrompt(prompt, isFollowup)), stream);
      (stream.failure.None? ==> WellPaired(h)) &&
      (stream.failure.Some? ==> !WellPaired(h) && h[|h| - 1].role == User)
  {
  }

  class Conversation {
    var history: seq<Content>

    constructor ()
      ensures history == Seed()
    {
      history := [TextEntry(User, SeedPrompt), TextEntry(Model, SeedReply)];
    }

    /** `generate`. Returns the message of the exception that escapes it, if
        the model call raised. */
    method Generate(prompt: string, isFollowup: bool, gemini: GeminiCall) returns (failure: Option<string>)
      modifies this
      ensures var user := TextEntry(User, FormatPrompt(prompt, isFollowup));
        var stream := gemini(old(history) + [user]);
        failure == stream.failure && history == AfterTurn(old(history), user, stream)
    {
      var formattedPrompt := FormatPrompt(prompt, isFollowup);
      history := history + [TextEntry(User, formattedPrompt)];
      var stream := gemini(history);
      var responseText := "";
      for i := 0 to |stream.chunks|
        invariant responseText == ResponseText(stream.chunks[..i])
      {
        responseText := responseText + ChunkText(stream.chunks[i]);
        assert stream.chunks[..i + 1][..i] == stream.chunks[..i];
      }
      assert stream.chunks[..|stream.chunks|] == stream.chunks;
      if stream.failure.Some? {
        return stream.failure;
      }
      history := history + [TextEntry(Model, responseText)];
      failure := None;
    }
  }
}
