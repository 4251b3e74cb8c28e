/** `back-end/Chatbot.py`: the chat handler with its own conversation memory
    and chat log. */
module Chatbot {
  import opened Base
  import opened PyText
  import opened Memory

  /** What the handler returns when anything inside it raises. */
  const ErrorReply := "Something went wrong. Please try again."

  /** The system prompt, built from the configured user name and assistant
      name (their defaults are "User" and "HIRA"). */
  function SystemPrompt(username: string, assistantName: string): string {
    "\nHello, I am " + username + ".\nYou are a very accurate and advanced AI chatbot named "
    + assistantName + ".\n\n- Do not tell time unless asked.\n- Answer concisely.\n"
    + "- Reply only in English.\n- Do not provide notes.\n- Never mention training data.\n"
  }

  /** The answer as it is stored: `answer.replace("</s>", "").strip()`. */
  function StoredAnswer(streamed: string): string {
    Strip(RemoveAll(streamed, "</s>"))
  }

  /** The stored answer has no surrounding whitespace, and it is the plain
      strip of the streamed text when that holds no end-of-sequence marker. */
  lemma StoredAnswerSpec(streamed: string)
    ensures Stripped(StoredAnswer(streamed))
    ensures !Contains(streamed, "</s>") ==> StoredAnswer(streamed) == Strip(streamed)
  {
    StripSpec(RemoveAll(streamed, "</s>"));
    if !Contains(streamed, "</s>") {
      RemoveAllAbsent(streamed, "</s>");
    }
  }

  /** The chat handler's state: the module-level `messages` list and the log
      file it is persisted to. */
  class ChatSession {
    var messages: seq<Turn>
    const log: LogFile
    const systemPrompt: string

    /** Module start-up: the memory is what the log holds, or the empty list
        when the log is missing or corrupt, and the empty list is then
        written back.  Either way the log holds the memory afterwards. */
    constructor (log: LogFile, username: string, assistantName: string)
      modifies log
      ensures this.log == log && systemPrompt == SystemPrompt(username, assistantName)
      ensures messages == LoadedMemory(old(log.content))
      ensures log.content == Saved(messages)
    {
      this.log := log;
      systemPrompt := SystemPrompt(username, assistantName);
      messages := if log.content.Saved? then log.content.turns else [];
      new;
      if !log.content.Saved? {
        log.content := Saved([]);
      }
    }

    /** `ChatBot(query)`.  The user turn is appended before the completion
        request, whose context is the system prompt followed by the whole
        memory.  On success the assistant turn follows it, the whole memory
        is persisted and the reply is the stored answer without blank lines.
        On failure the user turn stays unanswered, the log is not rewritten
        and the fixed error reply is returned. */
    method Ask(query: string, complete: seq<Turn> -> Completion) returns (reply: string)
      modifies this, log
      ensures var context := [Turn(System, systemPrompt)] + old(messages) + [Turn(User, query)];
        match complete(context)
        case Failed(_) =>
          && reply == ErrorReply
          && messages == old(messages) + [Turn(User, query)]
          && log.content == old(log.content)
        case Streamed(chunks) =>
          var answer := StoredAnswer(StreamText(chunks));
          && messages == old(messages) + [Turn(User, query), Turn(Assistant, answer)]
          && log.content == Saved(messages)
          && reply == DropBlankLines(answer)
    {
      messages := messages + [Turn(User, query)];
      assert [Turn(System, systemPrompt)] + messages
          == [Turn(System, systemPrompt)] + old(messages) + [Turn(User, query)];
      var completion := complete([Turn(System, systemPrompt)] + messages);
      match completion
      case Failed(_) =>
        reply := ErrorReply;
      case Streamed(chunks) =>
        var answer := Accumulate(chunks);
        answer := Strip(RemoveAll(answer, "</s>"));
        messages := messages + [Turn(Assistant, answer)];
        assert messages == old(messages) + [Turn(User, query), Turn(Assistant, answer)];
        log.content := Saved(messages);
        reply := DropBlankLines(answer);
    }
  }

  /** A restart after one call: the reloaded memory is the memory of the
      session that made the call when the call succeeded, and lacks its
      unanswered user turn when it failed (that turn was never persisted). */
  method RestartAfterAsk(log: LogFile, username: string, assistantName: string,
                         query: string, complete: seq<Turn> -> Completion)
      returns (first: ChatSession, restarted: ChatSession)
    modifies log
    ensures first.log == log && restarted.log == log && |first.messages| > 0
    ensures restarted.messages ==
      if complete([Turn(System, first.systemPrompt)] + LoadedMemory(old(log.content)) + [Turn(User, query)]).Streamed?
      then first.messages
      else first.messages[..|first.messages| - 1]
  {
    first := new ChatSession(log, username, assistantName);
    var _ := first.Ask(query, complete);
    restarted := new ChatSession(log, username, assistantName);
  }
}
