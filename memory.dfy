/** What the chat and search handlers share: the `{role, content}` turns of a
    conversation memory, the persisted chat log, and the streamed answer of a
    completion request. */
module Memory {
  import opened Base

  datatype Role = System | User | Assistant

  datatype Turn = Turn(role: Role, content: string)

  /** The chat log on disk: absent, unreadable as a JSON list, or a list of turns. */
  datatype Stored = Missing | Corrupt | Saved(turns: seq<Turn>)

  /** The chat-log file.  Writing it is `file := memory`. */
  class LogFile {
    var content: Stored

    constructor (content: Stored)
      ensures this.content == content
    {
      this.content := content;
    }
  }

  /** What loading the log at start-up gives as memory: the stored turns, or
      the empty list when the file is missing or does not parse. */
  function LoadedMemory(s: Stored): (m: seq<Turn>)
    ensures s.Saved? ==> m == s.turns
    ensures !s.Saved? ==> m == []
  {
    if s.Saved? then s.turns else []
  }

  /** One streamed chunk's `delta.content`: absent (`None`) or a string. */
  type Chunk = Option<string>

  /** A streamed completion request: the chunks it delivered, or the error
      with which creating or reading the stream failed. */
  datatype Completion = Streamed(chunks: seq<Chunk>) | Failed(error: string)

  /** What a chunk adds to the answer: its content, when present and non-empty. */
  function ChunkText(c: Chunk): string {
    if c.Some? && c.value != [] then c.value else []
  }

  /** The answer a stream accumulates, chunk by chunk, in order. */
  function StreamText(chunks: seq<Chunk>): string
    decreases |chunks|
  {
    if chunks == [] then []
    else StreamText(chunks[..|chunks| - 1]) + ChunkText(chunks[|chunks| - 1])
  }

  /** The answer of a stream is the concatenation of the answers of its parts. */
  lemma {:induction false} StreamTextAppend(a: seq<Chunk>, b: seq<Chunk>)
    ensures StreamText(a + b) == StreamText(a) + StreamText(b)
    decreases |b|
  {
    if b == [] {
      assert a + b == a;
    } else {
      var b' := b[..|b| - 1];
      assert (a + b)[..|a + b| - 1] == a + b';
      StreamTextAppend(a, b');
    }
  }

  /** Chunks without content contribute nothing; every other chunk contributes
      exactly its content. */
  lemma StreamTextChunk(before: seq<Chunk>, c: Chunk, after: seq<Chunk>)
    ensures StreamText(before + [c] + after) ==
      StreamText(before) + (if c.Some? then c.value else []) + StreamText(after)
  {
    StreamTextAppend(before + [c], after);
    assert (before + [c])[..|before|] == before;
  }

  /** The loop `for chunk in completion: if delta and delta.content: answer += delta.content`. */
  method Accumulate(chunks: seq<Chunk>) returns (answer: string)
    ensures answer == StreamText(chunks)
  {
    answer := "";
    for i := 0 to |chunks|
      invariant answer == StreamText(chunks[..i])
    {
      var delta := chunks[i];
      if delta.Some? && delta.value != "" {
        answer := answer + delta.value;
      }
      assert chunks[..i + 1][..i] == chunks[..i];
    }
    assert chunks[..|chunks|] == chunks;
  }
}
