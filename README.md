# BELLE.AI conversational core, modelled in Dafny

BELLE.AI is a console assistant. Each line the user types is stripped and
checked against the exit phrases, then classified into a list of task
strings. Every task is routed through an ordered `if`/`elif` chain to a
handler: chat, real-time search, trends, image generation, image analysis or
an automation placeholder. The handlers' outputs are accumulated into one
reply. The chat handler and the search handler each keep a conversation
memory of `{role, content}` turns, persisted to a chat log. An image
service writes four variants per prompt and is triggered through a small
"prompt,status" control file.

The project models that core:

| module | file | models |
|---|---|---|
| `Base` | `base.dfy` | `Option`, and `Raises` (a value or the text of the exception raised) |
| `PyText` | `text.dfy` | the Python string operations the core relies on: `strip`, `lower`, `startswith`, `in`, `replace`, `split`/`join`, `str(n)`, and the "drop blank lines" filter |
| `Memory` | `memory.dfy` | turns, the chat-log file, loading with its fallback, and the streamed-answer loop |
| `Chatbot` | `chatbot.dfy` | `back-end/Chatbot.py`: `AnswerModifier`, `ChatBot`, the log load at start-up |
| `SearchEngine` | `search_engine.dfy` | `back-end/RealtimeSearchEngine.py`: `google_search_results`, `clean_answer`, `RealtimeSearchEngine`, the log load |
| `ImageGeneration` | `image_generation.dfy` | `back-end/ImageGenration.py`: file names, the four requests and the ordered save, `query`, the control-file monitor |
| `Dispatcher` | `dispatcher.dfy` | `Main.py`: `clean_query`, the per-turn body of the `while True` loop, the session |

How each part is modelled:

- **The dispatcher.** The services it calls are uninterpreted functions held in a `Providers` value.
  - Each service receives the calls made before it in the session, because the handlers keep memories.
  - `Turn` specifies one turn: what is shown, whether the session continues or exits, and the ordered log of service calls.
  - `Step` specifies one task. `DispatchAll` folds `Step` over the task list.
  - `RunTurn`, `RunTask` and `RunTaskTail` are the loop body as written: they update `final_response` and `already_handled` in place. Each is proved equal to its specification.
  - `RunSession` is the outer loop. It passes each turn's calls on to the next turn.
- **The rule chain.** It is also given as a table of tests, `RuleTable`, with a first-match reading, `FirstMatch`. `Route` is proved to agree with the table.
- **The two handlers.** Each is a class, `ChatSession` or `SearchSession`, with a `messages` field and a `LogFile` object.
  - Writing the log is `log.content := Saved(messages)`.
  - The two sessions are given their log files separately. They may be the same file or two files.
- **The image service.** The monitor loop's state is the `ControlFile` object. `GenerateImages` returns:
  - the payloads it built;
  - the result: the first exception, or the files written;
  - the paths it tries to open.

The code behaves as follows, and the model follows it:

- **Handler failures.** An exception from the search, trend or generation handler, or from the classifier, aborts the whole turn. It is reported by the outer `except Exception` (`Main.py:133-134`). Only image analysis is contained within its task (`Main.py:99-106`).
- **Empty replies.** A reply can be empty, for example when a handler answers with whitespace only. The model shows `Reply("")` in that case.
- **Unmatched tasks.** A task that matches no rule adds nothing by itself. The chat fallback fires only when nothing was accumulated and nothing was handled (`Main.py:126-128`). Automation intents call the chat handler at most once per turn (`Main.py:115-119`).
- **The exit test.** A task that merely contains "exit" anywhere ends the session, because the substring test comes first in the chain (`Main.py:58`). For example, "general how do I exit vim" ends it.

## Model

| member | source | states |
|---|---|---|
| Dispatcher.CleanQueryStripped | Main.py:21-26 | the cleaned query never starts or ends with whitespace |
| Dispatcher.CleanQueryDropsPrefix | Main.py:23 | for a task that starts with the prefix, `replace(prefix, "", 1)` removes exactly that leading prefix |
| Dispatcher.CleanQueryUnwraps | Main.py:23-26 | a remainder of the form "(" + inner + ")" with no newline inside gives the stripped inner part: one outer pair and the whitespace inside it are removed |
| Dispatcher.CleanQueryNoParens | Main.py:23-26 | a remainder not wrapped in parentheses is only stripped |
| Dispatcher.CleanQueryExample | Main.py:21-26 | "realtime (news)" cleaned for "realtime" is "news" |
| Dispatcher.FirstMatchSpec | Main.py:58-119 | in a table of distinct rules, the first match is an entry's rule exactly when that entry's test holds and no earlier test does |
| Dispatcher.FirstMatchNone | Main.py:58-119 | the first match is "no rule" exactly when no test holds |
| Dispatcher.RouteIsFirstMatch | Main.py:58-119 | the `if`/`elif` chain is the first match in the table: "exit" substring; prefixes general, realtime, trend, generate image; "image" substring; the eight automation prefixes |
| Dispatcher.RouteFirstMatch | Main.py:58-119 | a task takes a rule if and only if that rule's test holds and every earlier rule's test fails |
| Dispatcher.RouteNoMatch | Main.py:52-119 | a task takes no branch if and only if none of the seven tests holds |
| Dispatcher.GenerateImageNotAnalyzed | Main.py:89-98 | a "generate image ..." task without "exit" goes to generation, never to analysis |
| Dispatcher.RealtimeRoutes | Main.py:58-76 | a "realtime ..." task without "exit" goes to the search handler |
| Dispatcher.ImageBeforeAutomation | Main.py:98-111 | a task that mentions "image" and has none of the four earlier prefixes goes to analysis, even when it is also an automation intent |
| Dispatcher.DispatchAllAppend | Main.py:52-119 | the task loop over a concatenation runs it over the first list and then continues over the second |
| Dispatcher.DispatchAllHalted | Main.py:58-60 | once a task has exited or raised, the remaining tasks are not run |
| Dispatcher.StepGrows | Main.py:52-119 | one task makes at most one call; earlier output and calls are kept; the latch is never cleared and is set only together with some output |
| Dispatcher.DispatchAllGrows | Main.py:48-119 | over the whole task list: at most one call per task; earlier calls and output kept; "handled" implies a non-empty accumulator |
| Dispatcher.RunTask | Main.py:52-94 | one iteration of the task loop, as written, equals the specification `Step` |
| Dispatcher.RunTaskTail | Main.py:98-119 | the analysis and automation branches, as written, equal `Step` |
| Dispatcher.RunTurn | Main.py:30-128 | the loop body, as written, equals the specification `Turn`: gating, classification, the task loop with early exit or abort, the final output and the fallback |
| Dispatcher.GatedInputNoCalls | Main.py:30-41 | a turn makes no call at all if and only if the stripped input is empty or, lower-cased, is one of "exit", "quit", "bye" |
| Dispatcher.ExitPhraseEnds | Main.py:36-38 | an exit phrase ends the session with the farewell and no call |
| Dispatcher.NoTasksSingleChat | Main.py:41-46 | with no tasks, the only calls are the classifier and one chat call on the raw user input, whose answer is the reply |
| Dispatcher.ExitTaskEndsTurn | Main.py:58-60 | a task containing "exit" ends the session with the farewell; the tasks after it make no call; nothing accumulated is shown |
| Dispatcher.AnalysisFailureContinues | Main.py:98-106 | analysis gets the whole user input; a failure appends "Image analysis failed: ..." and leaves the latch as it was; a success appends the result and sets the latch; the loop goes on |
| Dispatcher.AutomationLatch | Main.py:111-119 | an automation intent before anything is handled appends the chat answer on the whole user input, one call, and sets the latch; after any handled task it makes no call and appends "(Detected intent: <task> - Not fully implemented yet)" |
| Dispatcher.AutomationSingleChat | Main.py:111-119 | a turn of automation intents calls the chat handler exactly once, on the user input, and shows a reply |
| Dispatcher.AllUnmatchedFallback | Main.py:121-128 | when no task matches, exactly one chat call on the user input follows the classifier, and its answer is the reply |
| Dispatcher.EveryTurnAnswers | Main.py:30-128 | a turn shows nothing if and only if the input is blank; otherwise it shows a reply, the farewell or an error report |
| Dispatcher.OneRealtimeTask | Main.py:73-125 | one realtime task calls the search handler right after the classifier; the reply is its answer stripped, or the error is reported |
| Dispatcher.GeneralThenTrend | Main.py:65-125 | a general task and then a trend task: the chat answer and the trend answer appear in task order, one per line, and the calls are made in that order |
| Dispatcher.SessionStopsAtExit | Main.py:28-38 | a session runs at most one turn per line, every turn before the last continues, and it stops early only after an exit |
| Dispatcher.RunSession | Main.py:28-134 | the `while True` loop, as written, equals the specification `Session` |
| Chatbot.StoredAnswerSpec | back-end/Chatbot.py:78 | the stored answer has no surrounding whitespace; without "</s>" it is the plain strip of the stream |
| Chatbot.ChatSession.constructor | back-end/Chatbot.py:45-51 | memory is the stored turns, or empty on a missing or corrupt log; the log then holds the memory |
| Chatbot.ChatSession.Ask | back-end/Chatbot.py:58-89 | the context is the system prompt, old memory, the user turn. On success: exactly the user and assistant turns are appended, the log equals the memory, the reply is the answer without blank lines. On failure: the fixed error reply, the user turn stays unanswered, the log is untouched |
| Chatbot.RestartAfterAsk | back-end/Chatbot.py:45-89 | after a restart the memory equals the session's memory after a successful call, and lacks the unanswered user turn after a failed one |
| Memory.StreamTextAppend | back-end/Chatbot.py:72-76 | the answer of a stream is the concatenation of the answers of its parts |
| Memory.StreamTextChunk | back-end/Chatbot.py:72-76 | a chunk without content adds nothing; any other chunk adds exactly its content, in place |
| Memory.Accumulate | back-end/RealtimeSearchEngine.py:101-105 | the accumulation loop computes the in-order concatenation of the chunk contents |
| SearchEngine.EntriesAppend | back-end/RealtimeSearchEngine.py:50-59 | rendering a concatenation renders the second part numbered on from the first |
| SearchEngine.EntriesAt | back-end/RealtimeSearchEngine.py:50-59 | result k stands in the text as entry number k+1, between the entries before and after it |
| SearchEngine.EntriesPrefixStep | back-end/RealtimeSearchEngine.py:50-59 | each loop turn appends exactly the next result's entry |
| SearchEngine.AppendEntryStep | back-end/RealtimeSearchEngine.py:50-59 | appending the next result's entry to the text of the first i entries gives the text of the first i+1 |
| SearchEngine.AppendEntries | back-end/RealtimeSearchEngine.py:49-59 | the `enumerate(results, 1)` loop appends to the header every result's entry, in order, numbered from 1 |
| SearchEngine.GoogleSearchResults | back-end/RealtimeSearchEngine.py:42-62 | the rendering loop gives the error text, "No Google search results found.", or the header followed by the results of a request for five, numbered from 1: a URL string as "Result i: url", an object as a Title/Description/URL block with each attribute defaulted |
| SearchEngine.SearchSession.constructor | back-end/RealtimeSearchEngine.py:33-39 | memory is the stored turns, or empty on a missing or corrupt log; the log then holds the memory |
| SearchEngine.SearchSession.Ask | back-end/RealtimeSearchEngine.py:79-115 | the context is the system prompt, all memory, one system turn with results and real-time info, the prompt. A failure raises with memory and log unchanged. On success: user then assistant turn appended, memory persisted, reply is the stripped answer without blank lines |
| PyText.StripSpec | Main.py:30 | `strip()` gives a stripped infix with only whitespace around it |
| PyText.StripIdempotent | Main.py:26 | stripping twice is stripping once |
| PyText.StripAround | Main.py:23 | whitespace around a stripped string is exactly what `strip()` removes |
| PyText.FindFirst | Main.py:23 | the found index is an occurrence and the leftmost one; none is found exactly when the string does not contain the pattern |
| PyText.RemoveAllAbsent | back-end/Chatbot.py:78 | removing a pattern that does not occur changes nothing |
| PyText.Split | back-end/ImageGenration.py:86 | `split` always gives at least one piece |
| PyText.SplitCount | back-end/ImageGenration.py:86-87 | the number of pieces is the number of separators plus one |
| PyText.SplitPieces | back-end/Chatbot.py:55 | no piece contains the separator |
| PyText.JoinSplit | back-end/Chatbot.py:55 | joining the pieces of a split gives back the string |
| PyText.SplitJoin | back-end/Chatbot.py:55 | splitting a join of separator-free pieces gives back the pieces |
| PyText.SplitAtOnlySep | back-end/ImageGenration.py:86-88 | a string with a single comma splits into what precedes and what follows it |
| PyText.KeepNonBlankSpec | back-end/Chatbot.py:55 | the kept lines are non-blank, separator-free if the input lines were, and all lines are kept when none is blank |
| PyText.DropBlankLinesLines | back-end/Chatbot.py:54-55 | the lines of the result are exactly the non-blank input lines in order; no blank line remains |
| PyText.DropBlankLinesIdempotent | back-end/RealtimeSearchEngine.py:64-65 | dropping blank lines twice is dropping them once |
| ImageGeneration.PromptClean | back-end/ImageGenration.py:15 | same length; every space becomes "_" and every other character is kept; no space remains |
| ImageGeneration.ImageFileNamesDistinct | back-end/ImageGenration.py:18 | the four variants of a prompt have four different file names |
| ImageGeneration.OpenImages | back-end/ImageGenration.py:13-26 | exactly four paths are tried, `{prompt_clean}_1.jpg` to `_4.jpg`, in order |
| ImageGeneration.Query | back-end/ImageGenration.py:34-40 | the body is returned if and only if the status is 200; otherwise none |
| ImageGeneration.GatherSnoc | back-end/ImageGenration.py:58-61 | gathering one more response keeps an earlier exception, or adds the new response's exception or result |
| ImageGeneration.SavedFilesSpec | back-end/ImageGenration.py:63-68 | every file written is a non-empty result saved under its own position's name, and every such result is written |
| ImageGeneration.FailedVariantLeavesNoFile | back-end/ImageGenration.py:63-68 | a result that is not saved leaves no file under its variant's name; the others are not shifted |
| ImageGeneration.GenerateImages | back-end/ImageGenration.py:42-72 | four payloads, each the prompt, the quality suffix and the drawn seed; all four posted; the first exception aborts before any file is written or opened; otherwise the saved results are written and the four paths tried |
| ImageGeneration.ControlPromptNeedsOneComma | back-end/ImageGenration.py:83-88 | content whose stripped text does not have exactly one comma never triggers |
| ImageGeneration.ControlPromptAtComma | back-end/ImageGenration.py:83-92 | with one comma, the file triggers if and only if the stripped, lower-cased text after it is "true"; the prompt is the stripped text before it |
| ImageGeneration.ResetDoesNotTrigger | back-end/ImageGenration.py:94-96 | "False,False" never triggers |
| ImageGeneration.ControlFile.Poll | back-end/ImageGenration.py:79-101 | the prompt is the stripped text before the comma; a poll's result is the generation for that prompt from the four payloads built with the drawn seeds; after a generation that did not raise, the file becomes "False,False"; otherwise it is unchanged |
| ImageGeneration.PollAfterReset | back-end/ImageGenration.py:94-96 | a poll of a reset file changes nothing |

## Left out

- Console I/O is not modelled. `input`, `print`, the labels around a reply, the `[INFO]`/`[ERROR]` lines and `sys.exit` appear only as the turn's outcome and what it shows.
- `KeyboardInterrupt` (`Main.py:130-132`) is not modelled, because it is a signal from the terminal rather than a line.
- End of input is not modelled. There `input()` raises `EOFError`, which the `except Exception` at `Main.py:133-134` catches, so the program prints the error and asks again forever. The model's session is a finite list of lines and ends where the program would spin.
- The language model, Google search, Hugging Face and the clock are uninterpreted:
  - the chat and search handlers receive the completion as a function from context to chunks or a failure;
  - the search as a function of query and count;
  - `realtime_info()` as an opaque string;
  - the HTTP post as a function of the payload.
- The dispatcher's services are uninterpreted functions of the earlier calls and their argument. The handlers' memories are modelled in `Chatbot` and `SearchEngine`, not threaded through the dispatcher.
- `back-end/trend_engine.py`, `back-end/Image_Analyzer.py` and `back-end/image_engine.py` are not part of this model. They are the trend, analysis and diffusion services, and appear only as dispatcher services. `Model.py` (the classifier) is not part of this model either.
- The `__main__` loops of `Chatbot.py` (lines 92-97) and `RealtimeSearchEngine.py` (lines 118-123) are left out. They are manual test drivers.
- Random seeds are a parameter `draw`. Their range 0..1,000,000 is not enforced.
- PIL image opening, the one-second sleeps and the viewer are not modelled. `open_images` is the list of paths it tries, with no error handling, because opening is I/O.
- The asyncio fan-out is modelled as four requests sent in order. `query` never yields, so they run one after the other.
- JSON formatting, `.env` loading and directory creation are not modelled. Persisting is `file := memory`. Loading is "the stored turns, or empty".
  - A log that parses but is not a list of turns is not modelled.
  - Failures while writing a file are not modelled.
- PyText.Lower: folds only ASCII letters. Python's `lower()` also folds non-ASCII letters.
- PyText.IsSpace: also stands for the regular expression class `\s`. Python defines that class for `str` patterns by the same notion of whitespace.
- Dispatcher.UnwrapParens: the regular expression `^\(\s*(.*?)\s*\)$` is given in closed form, for the stripped strings it is applied to. It is not given as a general regex engine.
- Dispatcher.Providers: `chat` is total, because the chat handler catches every exception and returns its fixed error reply. The other services may raise.
- The `print` of a caught generation exception in the monitor loop and the retry one second later are not modelled. `Poll` is one iteration of that loop.
