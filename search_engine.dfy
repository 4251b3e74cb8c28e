/** `back-end/RealtimeSearchEngine.py`: the web-augmented answer handler,
    with a conversation memory and chat log of its own. */
module SearchEngine {
  import opened Base
  import opened PyText
  import opened Memory

  /** How many results the search provider is asked for. */
  const NumResults: nat := 5

  function SystemPrompt(username: string, assistantName: string): string {
    "\nHello, I am " + username + ".\nYou are an advanced AI assistant named " + assistantName
    + ".\nRespond professionally with clear formatting and accuracy.\n"
  }

  /** One search result: a URL string, or an object whose `title`,
      `description` and `url` attributes may each be absent; `repr` is the
      object's `str(...)`. */
  datatype Hit =
    | Url(url: string)
    | Record(title: Option<string>, description: Option<string>, link: Option<string>, repr: string)

  /** What `list(search(query, num_results=5))` gives: the results, or the
      text of the exception it raised. */
  datatype SearchOutcome = Hits(hits: seq<Hit>) | SearchFailed(error: string)

  /** How result number `i` is rendered. */
  function Entry(i: nat, h: Hit): string {
    match h
    case Url(u) => "Result " + NatToString(i) + ": " + u + "\n"
    case Record(t, d, l, r) =>
      "Title: " + t.GetOr("Search Result") + "\nDescription: " + d.GetOr("No description available")
      + "\nURL: " + l.GetOr(r) + "\n\n"
  }

  /** The results `hs`, rendered one after the other and numbered
      consecutively from `start`. */
  function Entries(hs: seq<Hit>, start: nat): string
    decreases |hs|
  {
    if hs == [] then [] else Entry(start, hs[0]) + Entries(hs[1..], start + 1)
  }

  /** One more turn of the rendering loop appends the next result's entry. */
  lemma EntriesPrefixStep(hs: seq<Hit>, i: nat)
    requires i < |hs|
    ensures Entries(hs[..i + 1], 1) == Entries(hs[..i], 1) + Entry(i + 1, hs[i])
  {
    assert hs[..i + 1] == hs[..i] + [hs[i]];
    EntriesAppend(hs[..i], [hs[i]], 1);
    EntriesCons(hs[i], [], i + 1);
    assert [hs[i]] + [] == [hs[i]];
  }

  /** Appending the next entry to the text of the first `i` entries gives
      the text of the first `i + 1`. */
  lemma AppendEntryStep(header: string, hs: seq<Hit>, i: nat, text: string)
    requires i < |hs| && text == header + Entries(hs[..i], 1)
    ensures text + Entry(i + 1, hs[i]) == header + Entries(hs[..i + 1], 1)
  {
    EntriesPrefixStep(hs, i);
    ConcatAssoc(header, Entries(hs[..i], 1), Entry(i + 1, hs[i]));
  }

  /** Concatenation of strings is associative.  Stated once for arbitrary
      strings, so that the solver does not unfold the entries it is applied to. */
  lemma ConcatAssoc(a: string, b: string, c: string)
    ensures a + (b + c) == a + b + c
  {
  }

  /** Rendering a concatenation renders the second part numbered on from the first. */
  lemma {:induction false} EntriesAppend(a: seq<Hit>, b: seq<Hit>, start: nat)
    ensures Entries(a + b, start) == Entries(a, start) + Entries(b, start + |a|)
    decreases |a|
  {
    if a == [] {
      assert a + b == b;
    } else {
      assert (a + b)[1..] == a[1..] + b;
      EntriesAppend(a[1..], b, start + 1);
    }
  }

  /** Result `k` of the list (0-based) stands in the text, as entry number
      `start + k`, between the entries of the results before it and those
      of the results after it. */
  lemma EntriesAt(hs: seq<Hit>, start: nat, k: nat)
    requires k < |hs|
    ensures Entries(hs, start) ==
      Entries(hs[..k], start) + Entry(start + k, hs[k]) + Entries(hs[k + 1..], start + k + 1)
  {
    var tail := [hs[k]] + hs[k + 1..];
    assert hs == hs[..k] + tail;
    EntriesAppend(hs[..k], tail, start);
    EntriesCons(hs[k], hs[k + 1..], start + k);
    ConcatAssoc(Entries(hs[..k], start), Entry(start + k, hs[k]), Entries(hs[k + 1..], start + k + 1));
  }

  /** The first result is rendered first, and the rest numbered on from it. */
  lemma EntriesCons(h: Hit, t: seq<Hit>, start: nat)
    ensures Entries([h] + t, start) == Entry(start, h) + Entries(t, start + 1)
  {
    assert ([h] + t)[1..] == t;
  }

  /** `google_search_results(query)`, given what the search returned. */
  function SearchText(query: string, outcome: SearchOutcome): string {
    match outcome
    case SearchFailed(e) => "Google Search Error: " + e
    case Hits(hs) =>
      if hs == [] then "No Google search results found."
      else "Search results for: " + query + "\n\n" + Entries(hs, 1)
  }

  /** The `enumerate(results, 1)` loop: each result's entry is appended,
      numbered from 1, to the text built so far. */
  method AppendEntries(header: string, results: seq<Hit>) returns (text: string)
    ensures text == header + Entries(results, 1)
  {
    text := header;
    for i := 0 to |results|
      invariant text == header + Entries(results[..i], 1)
    {
      var entry := Entry(i + 1, results[i]);
      AppendEntryStep(header, results, i, text);
      text := text + entry;
    }
    assert results[..|results|] == results;
  }

  /** `google_search_results`: asks for five results and renders the
      error, the empty answer, or the header and every result. */
  method GoogleSearchResults(query: string, search: (string, nat) -> SearchOutcome) returns (text: string)
    ensures text == SearchText(query, search(query, NumResults))
  {
    var outcome := search(query, NumResults);
    if outcome.SearchFailed? {
      return "Google Search Error: " + outcome.error;
    }
    var results := outcome.hits;
    if results == [] {
      return "No Google search results found.";
    }
    text := AppendEntries("Search results for: " + query + "\n\n", results);
  }

  /** The request context: the system prompt, the whole memory, one system
      turn with the search results and the real-time information, and the
      user prompt last. */
  function SearchContext(systemPrompt: string, memory: seq<Turn>, results: string, info: string, prompt: string)
    : seq<Turn>
  {
    [Turn(System, systemPrompt)] + memory + [Turn(System, results + info), Turn(User, prompt)]
  }

  /** The search handler's state: its module-level `messages` list and the
      log file it is persisted to. */
  class SearchSession {
    var messages: seq<Turn>
    const log: LogFile
    const systemPrompt: string

    /** Module start-up: the memory is what the log holds, or the empty list
        when the log is missing or corrupt, and the empty list is then
        written back. */
    constructor (log: LogFile, username: string, assistantName: string)
      modifies log
      ensures this.log == log && systemPrompt == SystemPrompt(username, assistantName)
      ensures messages == LoadedMemory(old(log.content))
      ensures log.content == Saved(messages)
    {
      this.log := log;
      systemPrompt := SystemPrompt(username, assistantName);
      messages := if log.content.Saved? then log.content.turns else [];
      new;
      if !log.content.Saved? {
        log.content := Saved([]);
      }
    }

    /** `RealtimeSearchEngine(prompt)`, where `info` stands for the text of
        `realtime_info()`.  The memory is left alone until the completion has
        been read: a failing request raises out of the handler with memory and
        log unchanged.  On success the user and assistant turns are appended,
        the whole memory is persisted and the reply is the stored answer
        without blank lines. */
    method Ask(prompt: string, search: (string, nat) -> SearchOutcome, info: string,
               complete: seq<Turn> -> Completion) returns (r: Raises<string>)
      modifies this, log
      ensures var context := SearchContext(systemPrompt, old(messages),
                               SearchText(prompt, search(prompt, NumResults)), info, prompt);
        match complete(context)
        case Failed(e) =>
          && r == Raised(e)
          && messages == old(messages)
          && log.content == old(log.content)
        case Streamed(chunks) =>
          var answer := Strip(StreamText(chunks));
          && messages == old(messages) + [Turn(User, prompt), Turn(Assistant, answer)]
          && log.content == Saved(messages)
          && r == Value(DropBlankLines(answer))
    {
      var results := GoogleSearchResults(prompt, search);
      var conversation := [Turn(System, systemPrompt)] + messages
                          + [Turn(System, results + info), Turn(User, prompt)];
      var completion := complete(conversation);
      match completion
      case Failed(e) =>
        r := Raised(e);
      case Streamed(chunks) =>
        var answer := Accumulate(chunks);
        answer := Strip(answer);
        messages := messages + [Turn(User, prompt)];
        messages := messages + [Turn(Assistant, answer)];
        log.content := Saved(messages);
        r := Value(DropBlankLines(answer));
    }
  }
}
