/** `Main.py`: one turn of the assistant's read-classify-dispatch loop, and
    the session of turns it runs until the user says goodbye. */
module Dispatcher {
  import opened Base
  import opened PyText

  /** A call into one of the services the turn relies on. */
  datatype Call =
    | Classify(input: string)
    | Chat(query: string)
    | Search(query: string)
    | Trend(query: string)
    | Generate(prompt: string)
    | Analyze(input: string)

  /** The services, seen only through what they answer.  Each also receives
      every call made before it in the session, since the chat and search
      handlers keep a memory and may answer differently the second time.
      `chat` never raises (the chat handler catches everything); the others
      may. */
  datatype Providers = Providers(
    classify: (seq<Call>, string) -> Raises<seq<string>>,
    chat: (seq<Call>, string) -> string,
    search: (seq<Call>, string) -> Raises<string>,
    trend: (seq<Call>, string) -> Raises<string>,
    generate: (seq<Call>, string) -> Raises<()>,
    analyze: (seq<Call>, string) -> Raises<string>)

  // ---------------------------------------------------------------------
  // clean_query
  // ---------------------------------------------------------------------

  /** `re.sub(r'^\(\s*(.*?)\s*\)$', r'\1', q)` on a stripped `q`.  The
      pattern matches exactly when `q` is "(" + inner + ")" and the stripped
      inner part has no newline (`.` does not match one); the lazy group is
      then the stripped inner part.  A stripped `q` has no trailing newline,
      so `$` can only match at the very end. */
  function UnwrapParens(q: string): string {
    if |q| >= 2 && q[0] == '(' && q[|q| - 1] == ')' && '\n' !in Strip(q[1..|q| - 1])
    then Strip(q[1..|q| - 1])
    else q
  }

  /** `clean_query(task, prefix)`. */
  function CleanQuery(task: string, prefix: string): string {
    Strip(UnwrapParens(Strip(RemoveFirst(task, prefix))))
  }

  /** The cleaned query never starts or ends with whitespace. */
  lemma CleanQueryStripped(task: string, prefix: string)
    ensures Stripped(CleanQuery(task, prefix))
  {
    StripSpec(UnwrapParens(Strip(RemoveFirst(task, prefix))));
  }

  /** For a task that starts with the prefix, the first occurrence removed
      is that prefix itself. */
  lemma CleanQueryDropsPrefix(task: string, prefix: string)
    requires StartsWith(task, prefix)
    ensures RemoveFirst(task, prefix) == task[|prefix|..]
    ensures CleanQuery(task, prefix) == Strip(UnwrapParens(Strip(task[|prefix|..])))
  {
    assert task[..0] + task[|prefix|..] == task[|prefix|..];
  }

  /** A remainder wrapped in one pair of parentheses loses that pair and the
      whitespace just inside it. */
  lemma CleanQueryUnwraps(task: string, prefix: string, inner: string)
    requires StartsWith(task, prefix)
    requires Strip(task[|prefix|..]) == "(" + inner + ")"
    requires '\n' !in Strip(inner)
    ensures CleanQuery(task, prefix) == Strip(inner)
  {
    CleanQueryDropsPrefix(task, prefix);
    var q := "(" + inner + ")";
    assert q[1..|q| - 1] == inner;
    StripIdempotent(inner);
  }

  /** A remainder that is not wrapped in parentheses is only stripped. */
  lemma CleanQueryNoParens(task: string, prefix: string)
    requires StartsWith(task, prefix)
    requires var q := Strip(task[|prefix|..]); q == [] || q[0] != '(' || q[|q| - 1] != ')'
    ensures CleanQuery(task, prefix) == Strip(task[|prefix|..])
  {
    CleanQueryDropsPrefix(task, prefix);
    StripIdempotent(task[|prefix|..]);
  }

  // ---------------------------------------------------------------------
  // The rule chain
  // ---------------------------------------------------------------------

  datatype Rule =
    | ExitRule | GeneralRule | RealtimeRule | TrendRule | GenerateRule | AnalyzeRule | AutomationRule | NoRule

  /** The intents that are answered by the chat handler for now. */
  const AutomationPrefixes: seq<string> :=
    ["open", "close", "play", "system", "content", "google search", "youtube search", "reminder"]

  /** `any(task.startswith(func) for func in prefixes)`. */
  predicate AnyPrefix(t: string, prefixes: seq<string>) {
    exists f :: f in prefixes && StartsWith(t, f)
  }

  /** The branch of the `if`/`elif` chain a lowered, stripped task takes. */
  function Route(t: string): Rule {
    if Contains(t, "exit") then ExitRule
    else if StartsWith(t, "general") then GeneralRule
    else if StartsWith(t, "realtime") then RealtimeRule
    else if StartsWith(t, "trend") then TrendRule
    else if StartsWith(t, "generate image") then GenerateRule
    else if Contains(t, "image") then AnalyzeRule
    else if AnyPrefix(t, AutomationPrefixes) then AutomationRule
    else NoRule
  }

  /** The rule chain as a table of tests, tried in order. */
  datatype Pattern = Substring(part: string) | Prefix(prefix: string) | AnyOf(prefixes: seq<string>)

  predicate Matches(pat: Pattern, t: string) {
    match pat
    case Substring(s) => Contains(t, s)
    case Prefix(s) => StartsWith(t, s)
    case AnyOf(ps) => AnyPrefix(t, ps)
  }

  datatype RuleEntry = RuleEntry(pattern: Pattern, rule: Rule)

  const RuleTable: seq<RuleEntry> := [
    RuleEntry(Substring("exit"), ExitRule),
    RuleEntry(Prefix("general"), GeneralRule),
    RuleEntry(Prefix("realtime"), RealtimeRule),
    RuleEntry(Prefix("trend"), TrendRule),
    RuleEntry(Prefix("generate image"), GenerateRule),
    RuleEntry(Substring("image"), AnalyzeRule),
    RuleEntry(AnyOf(AutomationPrefixes), AutomationRule)
  ]

  /** The rule of the first entry whose test holds. */
  function FirstMatch(table: seq<RuleEntry>, t: string): Rule
    decreases |table|
  {
    if table == [] then NoRule
    else if Matches(table[0].pattern, t) then table[0].rule
    else FirstMatch(table[1..], t)
  }

  /** No two entries share a rule, and none is `NoRule`. */
  predicate DistinctRules(table: seq<RuleEntry>) {
    && (forall a :: 0 <= a < |table| ==> table[a].rule != NoRule)
    && (forall a, b :: 0 <= a < b < |table| ==> table[a].rule != table[b].rule)
  }

  /** The first match is `NoRule` or the rule of an entry whose test holds. */
  lemma {:induction false} FirstMatchIsEntry(table: seq<RuleEntry>, t: string)
    ensures var r := FirstMatch(table, t);
      r == NoRule || exists k :: 0 <= k < |table| && table[k].rule == r && Matches(table[k].pattern, t)
    decreases |table|
  {
    if table != [] && !Matches(table[0].pattern, t) {
      FirstMatchIsEntry(table[1..], t);
      var r := FirstMatch(table, t);
      if r != NoRule {
        var k :| 0 <= k < |table[1..]| && table[1..][k].rule == r && Matches(table[1..][k].pattern, t);
        assert table[k + 1] == table[1..][k];
      }
    }
  }

  /** In a table of distinct rules, the first match is an entry's rule
      exactly when that entry's test holds and no earlier entry's does. */
  lemma {:induction false} FirstMatchSpec(table: seq<RuleEntry>, t: string, i: nat)
    requires DistinctRules(table) && i < |table|
    ensures FirstMatch(table, t) == table[i].rule <==>
      Matches(table[i].pattern, t) && forall j :: 0 <= j < i ==> !Matches(table[j].pattern, t)
    decreases |table|
  {
    var rest := table[1..];
    assert DistinctRules(rest) by {
      forall a, b | 0 <= a < b < |rest| ensures rest[a].rule != rest[b].rule {
        assert rest[a] == table[a + 1] && rest[b] == table[b + 1];
      }
    }
    if Matches(table[0].pattern, t) {
      if i > 0 {
        assert table[0].rule != table[i].rule;
      }
    } else if i == 0 {
      FirstMatchIsEntry(rest, t);
      if FirstMatch(rest, t) != NoRule {
        var k :| 0 <= k < |rest| && rest[k].rule == FirstMatch(rest, t) && Matches(rest[k].pattern, t);
        assert rest[k] == table[k + 1];
      }
    } else {
      FirstMatchSpec(rest, t, i - 1);
      assert rest[i - 1] == table[i];
      if forall j :: 0 <= j < i - 1 ==> !Matches(rest[j].pattern, t) {
        forall j | 0 <= j < i ensures !Matches(table[j].pattern, t) {
          if j > 0 {
            assert table[j] == rest[j - 1];
          }
        }
      } else {
        var j :| 0 <= j < i - 1 && Matches(rest[j].pattern, t);
        assert table[j + 1] == rest[j];
      }
    }
  }

  /** In a table without `NoRule`, the first match is `NoRule` exactly when
      no test holds. */
  lemma {:induction false} FirstMatchNone(table: seq<RuleEntry>, t: string)
    requires forall a :: 0 <= a < |table| ==> table[a].rule != NoRule
    ensures FirstMatch(table, t) == NoRule <==> forall j :: 0 <= j < |table| ==> !Matches(table[j].pattern, t)
    decreases |table|
  {
    if table != [] {
      var rest := table[1..];
      assert forall a :: 0 <= a < |rest| ==> rest[a] == table[a + 1];
      FirstMatchNone(rest, t);
      if !Matches(table[0].pattern, t) {
        forall j | 0 < j < |table| ensures table[j] == rest[j - 1] {
        }
      }
    }
  }

  /** Unfolding the first match at entry `k`. */
  lemma FirstMatchFrom(table: seq<RuleEntry>, t: string, k: nat)
    requires k < |table|
    ensures FirstMatch(table[k..], t) ==
      if Matches(table[k].pattern, t) then table[k].rule else FirstMatch(table[k + 1..], t)
  {
    assert table[k..][0] == table[k];
    assert table[k..][1..] == table[k + 1..];
  }

  /** The `if`/`elif` chain is the first match in the rule table. */
  lemma RouteIsFirstMatch(t: string)
    ensures Route(t) == FirstMatch(RuleTable, t)
  {
    assert RuleTable[0..] == RuleTable;
    FirstMatchFrom(RuleTable, t, 0);
    FirstMatchFrom(RuleTable, t, 1);
    FirstMatchFrom(RuleTable, t, 2);
    FirstMatchFrom(RuleTable, t, 3);
    FirstMatchFrom(RuleTable, t, 4);
    FirstMatchFrom(RuleTable, t, 5);
    FirstMatchFrom(RuleTable, t, 6);
    assert RuleTable[7..] == [];
  }

  /** A task takes the rule of an entry exactly when that entry's test holds
      and no earlier entry's test does. */
  lemma RouteFirstMatch(t: string, i: nat)
    requires i < |RuleTable|
    ensures Route(t) == RuleTable[i].rule <==>
      Matches(RuleTable[i].pattern, t) && forall j :: 0 <= j < i ==> !Matches(RuleTable[j].pattern, t)
  {
    RouteIsFirstMatch(t);
    FirstMatchSpec(RuleTable, t, i);
  }

  /** A task for which no test holds adds nothing, and only such a task. */
  lemma RouteNoMatch(t: string)
    ensures Route(t) == NoRule <==> forall j :: 0 <= j < |RuleTable| ==> !Matches(RuleTable[j].pattern, t)
  {
    RouteIsFirstMatch(t);
    FirstMatchNone(RuleTable, t);
  }

  /** "generate image ..." goes to generation, never to analysis, although
      it contains "image". */
  lemma GenerateImageNotAnalyzed(t: string)
    requires StartsWith(t, "generate image") && !Contains(t, "exit")
    ensures Route(t) == GenerateRule
  {
    assert t[6] == "generate image"[6] != "general"[6];
  }

  /** A "realtime ..." task that does not mention exit goes to the search
      handler. */
  lemma RealtimeRoutes(t: string)
    requires StartsWith(t, "realtime") && !Contains(t, "exit")
    ensures Route(t) == RealtimeRule
  {
    assert t[6] == "realtime"[6] != "general"[6];
  }

  /** Any mention of "image" outside the four prefix intents goes to
      analysis, even when the task is also an automation intent. */
  lemma ImageBeforeAutomation(t: string)
    requires Contains(t, "image") && !Contains(t, "exit")
    requires !StartsWith(t, "general") && !StartsWith(t, "realtime") && !StartsWith(t, "trend")
    requires !StartsWith(t, "generate image")
    ensures Route(t) == AnalyzeRule
  {
  }

  // ---------------------------------------------------------------------
  // The task loop
  // ---------------------------------------------------------------------

  /** The state of the task loop: `final_response`, `already_handled` and
      the calls made so far; or the turn has ended by `sys.exit()` or by an
      exception. */
  datatype Progress =
    | Running(acc: string, handled: bool, log: seq<Call>)
    | Exited(log: seq<Call>)
    | Aborted(error: string, log: seq<Call>)

  /** The message for a finished image generation. */
  function GeneratedMessage(q: string): string {
    "I've generated the images for '" + q + "'. \U{1F3A8}\n"
  }

  function AnalysisFailedMessage(e: string): string {
    "Image analysis failed: " + e + "\n"
  }

  function DetectedMessage(t: string): string {
    "(Detected intent: " + t + " - Not fully implemented yet)\n"
  }

  /** One iteration of `for task in tasks`, after the calls `past` of earlier
      turns, for the user input `u`. */
  function Step(p: Providers, past: seq<Call>, u: string, st: Progress, task: string): Progress {
    if !st.Running? then st
    else
      var t := Strip(Lower(task));
      var seen := past + st.log;
      match Route(t)
      case ExitRule => Exited(st.log)
      case GeneralRule =>
        var q := CleanQuery(t, "general");
        Running(st.acc + p.chat(seen, q) + "\n", true, st.log + [Chat(q)])
      case RealtimeRule =>
        var q := CleanQuery(t, "realtime");
        (match p.search(seen, q)
         case Raised(e) => Aborted(e, st.log + [Search(q)])
         case Value(a) => Running(st.acc + a + "\n", true, st.log + [Search(q)]))
      case TrendRule =>
        var q := CleanQuery(t, "trend");
        (match p.trend(seen, q)
         case Raised(e) => Aborted(e, st.log + [Trend(q)])
         case Value(a) => Running(st.acc + a + "\n", true, st.log + [Trend(q)]))
      case GenerateRule =>
        var q := CleanQuery(t, "generate image");
        (match p.generate(seen, q)
         case Raised(e) => Aborted(e, st.log + [Generate(q)])
         case Value(_) => Running(st.acc + GeneratedMessage(q), true, st.log + [Generate(q)]))
      case AnalyzeRule =>
        (match p.analyze(seen, u)
         case Raised(e) => Running(st.acc + AnalysisFailedMessage(e), st.handled, st.log + [Analyze(u)])
         case Value(a) => Running(st.acc + a + "\n", true, st.log + [Analyze(u)]))
      case AutomationRule =>
        if !st.handled then Running(st.acc + p.chat(seen, u) + "\n", true, st.log + [Chat(u)])
        else Running(st.acc + DetectedMessage(t), true, st.log)
      case NoRule => st
  }

  /** The task loop over `tasks`, from the state `init`. */
  function DispatchAll(p: Providers, past: seq<Call>, u: string, tasks: seq<string>, init: Progress): Progress
    decreases |tasks|
  {
    if tasks == [] then init
    else Step(p, past, u, DispatchAll(p, past, u, tasks[..|tasks| - 1], init), tasks[|tasks| - 1])
  }

  /** Running the loop over two lists one after the other is running it over
      their concatenation. */
  lemma {:induction false} DispatchAllAppend(p: Providers, past: seq<Call>, u: string,
                                             a: seq<string>, b: seq<string>, init: Progress)
    ensures DispatchAll(p, past, u, a + b, init) == DispatchAll(p, past, u, b, DispatchAll(p, past, u, a, init))
    decreases |b|
  {
    if b == [] {
      assert a + b == a;
    } else {
      var b' := b[..|b| - 1];
      assert (a + b)[..|a + b| - 1] == a + b';
      assert (a + b)[|a + b| - 1] == b[|b| - 1];
      DispatchAllAppend(p, past, u, a, b', init);
    }
  }

  /** Once the turn has ended, the remaining tasks are not run. */
  lemma {:induction false} DispatchAllHalted(p: Providers, past: seq<Call>, u: string,
                                             tasks: seq<string>, init: Progress, i: nat)
    requires i <= |tasks| && !DispatchAll(p, past, u, tasks[..i], init).Running?
    ensures DispatchAll(p, past, u, tasks, init) == DispatchAll(p, past, u, tasks[..i], init)
    decreases |tasks|
  {
    if i < |tasks| {
      var front := tasks[..|tasks| - 1];
      assert front[..i] == tasks[..i];
      DispatchAllHalted(p, past, u, front, init, i);
    } else {
      assert tasks[..i] == tasks;
    }
  }

  /** One task makes at most one call, keeps the earlier output and calls,
      never clears the latch, and sets it only together with some output. */
  lemma StepGrows(p: Providers, past: seq<Call>, u: string, st: Progress, task: string)
    requires st.Running? && (st.handled ==> st.acc != [])
    ensures var next := Step(p, past, u, st, task);
      && |st.log| <= |next.log| <= |st.log| + 1
      && next.log[..|st.log|] == st.log
      && (next.Running? ==> st.acc <= next.acc && (next.handled ==> next.acc != []) && (st.handled ==> next.handled))
  {
    var t := Strip(Lower(task));
    match Route(t)
    case ExitRule =>
    case GeneralRule =>
      assert (st.log + [Chat(CleanQuery(t, "general"))])[..|st.log|] == st.log;
    case RealtimeRule =>
      var q := CleanQuery(t, "realtime");
      assert (st.log + [Search(q)])[..|st.log|] == st.log;
    case TrendRule =>
      var q := CleanQuery(t, "trend");
      assert (st.log + [Trend(q)])[..|st.log|] == st.log;
    case GenerateRule =>
      var q := CleanQuery(t, "generate image");
      assert (st.log + [Generate(q)])[..|st.log|] == st.log;
    case AnalyzeRule =>
      assert (st.log + [Analyze(u)])[..|st.log|] == st.log;
    case AutomationRule =>
      assert (st.log + [Chat(u)])[..|st.log|] == st.log;
    case NoRule =>
  }

  /** Every task makes at most one call; earlier output and earlier calls
      are kept; and a handled intent always leaves some output. */
  lemma {:induction false} DispatchAllGrows(p: Providers, past: seq<Call>, u: string,
                                            tasks: seq<string>, acc: string, handled: bool, log: seq<Call>)
    requires handled ==> acc != []
    ensures var st := DispatchAll(p, past, u, tasks, Running(acc, handled, log));
      && |log| <= |st.log| <= |log| + |tasks|
      && st.log[..|log|] == log
      && (st.Running? ==> acc <= st.acc && (st.handled ==> st.acc != []) && (handled ==> st.handled))
    decreases |tasks|
  {
    if tasks != [] {
      var front := tasks[..|tasks| - 1];
      DispatchAllGrows(p, past, u, front, acc, handled, log);
      var before := DispatchAll(p, past, u, front, Running(acc, handled, log));
      if before.Running? {
        StepGrows(p, past, u, before, tasks[|tasks| - 1]);
        var after := Step(p, past, u, before, tasks[|tasks| - 1]);
        assert after.log[..|log|] == before.log[..|log|];
      }
    }
  }

  // ---------------------------------------------------------------------
  // One turn
  // ---------------------------------------------------------------------

  datatype Outcome = Continue | Exit

  /** What a turn prints: nothing, the assistant's reply, the farewell, or
      the report of an unexpected exception. */
  datatype Shown = Silent | Reply(text: string) | Farewell | ErrorReport(error: string)

  datatype TurnResult = TurnResult(outcome: Outcome, shown: Shown, log: seq<Call>)

  const ExitPhrases: seq<string> := ["exit", "quit", "bye"]

  /** The state the task loop starts in, after classifying `u`. */
  function Start(u: string): Progress {
    Running("", false, [Classify(u)])
  }

  /** Step 3, the final output: the accumulated text stripped once, or the
      chat fallback when nothing was accumulated and nothing handled. */
  function Finish(p: Providers, past: seq<Call>, u: string, st: Progress): TurnResult {
    match st
    case Exited(log) => TurnResult(Exit, Farewell, log)
    case Aborted(e, log) => TurnResult(Continue, ErrorReport(e), log)
    case Running(acc, handled, log) =>
      if acc != [] then TurnResult(Continue, Reply(Strip(acc)), log)
      else if !handled then TurnResult(Continue, Reply(p.chat(past + log, u)), log + [Chat(u)])
      else TurnResult(Continue, Silent, log)
  }

  /** The body of the `while True` loop for the input line `line`, after the
      calls `past` of earlier turns. */
  function Turn(p: Providers, past: seq<Call>, line: string): TurnResult {
    var u := Strip(line);
    if u == [] then TurnResult(Continue, Silent, [])
    else if Lower(u) in ExitPhrases then TurnResult(Exit, Farewell, [])
    else
      match p.classify(past, u)
      case Raised(e) => TurnResult(Continue, ErrorReport(e), [Classify(u)])
      case Value(tasks) =>
        if tasks == [] then TurnResult(Continue, Reply(p.chat(past + [Classify(u)], u)), [Classify(u), Chat(u)])
        else Finish(p, past, u, DispatchAll(p, past, u, tasks, Start(u)))
  }

  /** The loop body as written: `final_response` and `already_handled` are
      updated task by task, and an exit task or an exception leaves the turn
      at once. */
  method RunTurn(p: Providers, past: seq<Call>, line: string) returns (r: TurnResult)
    ensures r == Turn(p, past, line)
  {
    var userInput := Strip(line);
    if userInput == [] {
      return TurnResult(Continue, Silent, []);
    }
    if Lower(userInput) in ExitPhrases {
      return TurnResult(Exit, Farewell, []);
    }
    var log := [Classify(userInput)];
    var classified := p.classify(past, userInput);
    if classified.Raised? {
      return TurnResult(Continue, ErrorReport(classified.error), log);
    }
    var tasks := classified.value;
    if tasks == [] {
      var reply := p.chat(past + log, userInput);
      return TurnResult(Continue, Reply(reply), log + [Chat(userInput)]);
    }
    var finalResponse := "";
    var alreadyHandled := false;
    for i := 0 to |tasks|
      invariant DispatchAll(p, past, userInput, tasks[..i], Start(userInput)) == Running(finalResponse, alreadyHandled, log)
    {
      assert tasks[..i + 1][..i] == tasks[..i];
      var next := RunTask(p, past, userInput, finalResponse, alreadyHandled, log, tasks[i]);
      if !next.Running? {
        DispatchAllHalted(p, past, userInput, tasks, Start(userInput), i + 1);
        if next.Exited? {
          return TurnResult(Exit, Farewell, next.log);
        }
        return TurnResult(Continue, ErrorReport(next.error), next.log);
      }
      finalResponse, alreadyHandled, log := next.acc, next.handled, next.log;
    }
    assert tasks[..|tasks|] == tasks;
    if finalResponse != [] {
      return TurnResult(Continue, Reply(Strip(finalResponse)), log);
    } else if !alreadyHandled {
      var reply := p.chat(past + log, userInput);
      return TurnResult(Continue, Reply(reply), log + [Chat(userInput)]);
    }
    return TurnResult(Continue, Silent, log);
  }

  /** One iteration of `for task in tasks` as written: the `if`/`elif`
      chain on the lowered, stripped task, updating `final_response`,
      `already_handled` and the calls made; `sys.exit()` and an exception
      from a handler end the turn. */
  method RunTask(p: Providers, past: seq<Call>, userInput: string,
                 finalResponse: string, alreadyHandled: bool, log: seq<Call>, rawTask: string)
      returns (next: Progress)
    ensures next == Step(p, past, userInput, Running(finalResponse, alreadyHandled, log), rawTask)
  {
    var response, handled, calls := finalResponse, alreadyHandled, log;
    var task := Strip(Lower(rawTask));
    if Contains(task, "exit") {
      assert Route(task) == ExitRule;
      return Exited(calls);
    } else if StartsWith(task, "general") {
      assert Route(task) == GeneralRule;
      var query := CleanQuery(task, "general");
      response := response + p.chat(past + calls, query) + "\n";
      handled := true;
      calls := calls + [Chat(query)];
    } else if StartsWith(task, "realtime") {
      assert Route(task) == RealtimeRule;
      var query := CleanQuery(task, "realtime");
      var answer := p.search(past + calls, query);
      calls := calls + [Search(query)];
      if answer.Raised? {
        return Aborted(answer.error, calls);
      }
      response := response + answer.value + "\n";
      handled := true;
    } else if StartsWith(task, "trend") {
      assert Route(task) == TrendRule;
      var query := CleanQuery(task, "trend");
      var answer := p.trend(past + calls, query);
      calls := calls + [Trend(query)];
      if answer.Raised? {
        return Aborted(answer.error, calls);
      }
      response := response + answer.value + "\n";
      handled := true;
    } else if StartsWith(task, "generate image") {
      assert Route(task) == GenerateRule;
      var query := CleanQuery(task, "generate image");
      var generated := p.generate(past + calls, query);
      calls := calls + [Generate(query)];
      if generated.Raised? {
        return Aborted(generated.error, calls);
      }
      response := response + GeneratedMessage(query);
      handled := true;
    } else {
      next := RunTaskTail(p, past, userInput, finalResponse, alreadyHandled, log, rawTask);
      return;
    }
    next := Running(response, handled, calls);
  }

  /** The last branches of the chain: image analysis, which catches its
      own exception, and the automation intents. */
  method RunTaskTail(p: Providers, past: seq<Call>, userInput: string,
                     finalResponse: string, alreadyHandled: bool, log: seq<Call>, rawTask: string)
      returns (next: Progress)
    requires Route(Strip(Lower(rawTask))) in {AnalyzeRule, AutomationRule, NoRule}
    ensures next == Step(p, past, userInput, Running(finalResponse, alreadyHandled, log), rawTask)
  {
    var response, handled, calls := finalResponse, alreadyHandled, log;
    var task := Strip(Lower(rawTask));
    if Contains(task, "image") {
      assert Route(task) == AnalyzeRule;
      var result := p.analyze(past + calls, userInput);
      calls := calls + [Analyze(userInput)];
      match result {
        case Value(a) =>
          response := response + a + "\n";
          handled := true;
        case Raised(e) =>
          response := response + AnalysisFailedMessage(e);
      }
    } else if AnyPrefix(task, AutomationPrefixes) {
      assert Route(task) == AutomationRule;
      if !handled {
        response := response + p.chat(past + calls, userInput) + "\n";
        handled := true;
        calls := calls + [Chat(userInput)];
      } else {
        response := response + DetectedMessage(task);
      }
    } else {
      assert Route(task) == NoRule;
    }
    next := Running(response, handled, calls);
  }

  // ---------------------------------------------------------------------
  // Properties of a turn
  // ---------------------------------------------------------------------

  /** A turn makes no call at all exactly when the input is blank or one of
      the exit phrases. */
  lemma GatedInputNoCalls(p: Providers, past: seq<Call>, line: string)
    ensures Turn(p, past, line).log == [] <==> Strip(line) == [] || Lower(Strip(line)) in ExitPhrases
  {
    var u := Strip(line);
    if u != [] && Lower(u) !in ExitPhrases && p.classify(past, u).Value? && p.classify(past, u).value != [] {
      DispatchAllGrows(p, past, u, p.classify(past, u).value, "", false, [Classify(u)]);
    }
  }

  /** An exit phrase, in any letter case and with surrounding whitespace,
      ends the session before anything is classified. */
  lemma ExitPhraseEnds(p: Providers, past: seq<Call>, line: string)
    requires Lower(Strip(line)) in ExitPhrases
    ensures Turn(p, past, line) == TurnResult(Exit, Farewell, [])
  {
  }

  /** With no tasks, the chat handler answers the user input, once. */
  lemma NoTasksSingleChat(p: Providers, past: seq<Call>, line: string)
    requires Strip(line) != [] && Lower(Strip(line)) !in ExitPhrases
    requires p.classify(past, Strip(line)) == Value([])
    ensures var u := Strip(line);
      Turn(p, past, line) == TurnResult(Continue, Reply(p.chat(past + [Classify(u)], u)), [Classify(u), Chat(u)])
  {
  }

  /** A task that mentions "exit" ends the session: the tasks after it are
      not run and nothing accumulated is shown. */
  lemma ExitTaskEndsTurn(p: Providers, past: seq<Call>, line: string, i: nat)
    requires var u := Strip(line);
      && u != [] && Lower(u) !in ExitPhrases && p.classify(past, u).Value?
      && i < |p.classify(past, u).value|
      && DispatchAll(p, past, u, p.classify(past, u).value[..i], Start(u)).Running?
      && Contains(Strip(Lower(p.classify(past, u).value[i])), "exit")
    ensures var u := Strip(line);
      Turn(p, past, line) ==
        TurnResult(Exit, Farewell, DispatchAll(p, past, u, p.classify(past, u).value[..i], Start(u)).log)
  {
    var u := Strip(line);
    var tasks := p.classify(past, u).value;
    assert tasks[..i + 1][..i] == tasks[..i];
    DispatchAllHalted(p, past, u, tasks, Start(u), i + 1);
  }

  /** A failed image analysis is reported, leaves the latch as it was, and
      the later tasks still run; the analyzer is given the whole user input,
      not the task. */
  lemma AnalysisFailureContinues(p: Providers, past: seq<Call>, u: string, tasks: seq<string>, i: nat)
    requires i < |tasks| && Route(Strip(Lower(tasks[i]))) == AnalyzeRule
    requires DispatchAll(p, past, u, tasks[..i], Start(u)).Running?
    ensures var before := DispatchAll(p, past, u, tasks[..i], Start(u));
      var after := DispatchAll(p, past, u, tasks[..i + 1], Start(u));
      match p.analyze(past + before.log, u)
      case Raised(e) =>
        after == Running(before.acc + AnalysisFailedMessage(e), before.handled, before.log + [Analyze(u)])
      case Value(a) =>
        after == Running(before.acc + a + "\n", true, before.log + [Analyze(u)])
  {
    assert tasks[..i + 1][..i] == tasks[..i];
  }

  /** An automation intent answers through the chat handler, on the whole
      user input, only while nothing has been handled yet; once the latch is
      set it makes no call and only notes the detected intent. */
  lemma AutomationLatch(p: Providers, past: seq<Call>, u: string, tasks: seq<string>, i: nat)
    requires i < |tasks| && Route(Strip(Lower(tasks[i]))) == AutomationRule
    requires DispatchAll(p, past, u, tasks[..i], Start(u)).Running?
    ensures var before := DispatchAll(p, past, u, tasks[..i], Start(u));
      var after := DispatchAll(p, past, u, tasks[..i + 1], Start(u));
      after == if before.handled
        then Running(before.acc + DetectedMessage(Strip(Lower(tasks[i]))), true, before.log)
        else Running(before.acc + p.chat(past + before.log, u) + "\n", true, before.log + [Chat(u)])
  {
    assert tasks[..i + 1][..i] == tasks[..i];
  }

  /** A turn whose tasks are all automation intents calls the chat handler
      once, on the user input, for the first of them. */
  lemma AutomationSingleChat(p: Providers, past: seq<Call>, line: string)
    requires var u := Strip(line);
      && u != [] && Lower(u) !in ExitPhrases && p.classify(past, u).Value?
      && p.classify(past, u).value != []
      && forall k :: 0 <= k < |p.classify(past, u).value| ==>
           Route(Strip(Lower(p.classify(past, u).value[k]))) == AutomationRule
    ensures var u := Strip(line);
      && Turn(p, past, line).log == [Classify(u), Chat(u)]
      && Turn(p, past, line).shown.Reply?
  {
    var u := Strip(line);
    AutomationLoop(p, past, u, p.classify(past, u).value);
  }

  lemma {:induction false} AutomationLoop(p: Providers, past: seq<Call>, u: string, tasks: seq<string>)
    requires tasks != []
    requires forall k :: 0 <= k < |tasks| ==> Route(Strip(Lower(tasks[k]))) == AutomationRule
    ensures var st := DispatchAll(p, past, u, tasks, Start(u));
      st.Running? && st.handled && st.acc != [] && st.log == [Classify(u), Chat(u)]
    decreases |tasks|
  {
    if |tasks| > 1 {
      AutomationLoop(p, past, u, tasks[..|tasks| - 1]);
    } else {
      assert tasks[..0] == [];
    }
  }

  /** A turn in which no task matches any rule falls back to one chat call
      on the user input. */
  lemma AllUnmatchedFallback(p: Providers, past: seq<Call>, line: string)
    requires var u := Strip(line);
      && u != [] && Lower(u) !in ExitPhrases && p.classify(past, u).Value?
      && p.classify(past, u).value != []
      && forall k :: 0 <= k < |p.classify(past, u).value| ==>
           Route(Strip(Lower(p.classify(past, u).value[k]))) == NoRule
    ensures var u := Strip(line);
      Turn(p, past, line) == TurnResult(Continue, Reply(p.chat(past + [Classify(u)], u)), [Classify(u), Chat(u)])
  {
    var u := Strip(line);
    UnmatchedLoop(p, past, u, p.classify(past, u).value);
  }

  lemma {:induction false} UnmatchedLoop(p: Providers, past: seq<Call>, u: string, tasks: seq<string>)
    requires forall k :: 0 <= k < |tasks| ==> Route(Strip(Lower(tasks[k]))) == NoRule
    ensures DispatchAll(p, past, u, tasks, Start(u)) == Start(u)
    decreases |tasks|
  {
    if tasks != [] {
      UnmatchedLoop(p, past, u, tasks[..|tasks| - 1]);
    }
  }

  /** Every turn on a non-blank input shows something: a reply, the farewell
      or an error report; only a blank input is silent. */
  lemma EveryTurnAnswers(p: Providers, past: seq<Call>, line: string)
    ensures Turn(p, past, line).shown == Silent <==> Strip(line) == []
  {
    var u := Strip(line);
    if u != [] && Lower(u) !in ExitPhrases && p.classify(past, u).Value? && p.classify(past, u).value != [] {
      DispatchAllGrows(p, past, u, p.classify(past, u).value, "", false, [Classify(u)]);
    }
  }

  /** A turn with one "realtime" task asks the search handler for the
      cleaned query, right after the classifier, and shows its answer
      stripped; an exception from the search handler is reported instead. */
  lemma OneRealtimeTask(p: Providers, past: seq<Call>, line: string, task: string)
    requires var u := Strip(line);
      && u != [] && Lower(u) !in ExitPhrases
      && p.classify(past, u) == Value([task])
      && Route(Strip(Lower(task))) == RealtimeRule
    ensures var u := Strip(line);
      var q := CleanQuery(Strip(Lower(task)), "realtime");
      Turn(p, past, line) ==
        match p.search(past + [Classify(u)], q)
        case Raised(e) => TurnResult(Continue, ErrorReport(e), [Classify(u), Search(q)])
        case Value(a) => TurnResult(Continue, Reply(Strip(a + "\n")), [Classify(u), Search(q)])
  {
    var u := Strip(line);
    assert [task][..0] == [];
    assert DispatchAll(p, past, u, [task], Start(u)) == Step(p, past, u, Start(u), task);
    var q := CleanQuery(Strip(Lower(task)), "realtime");
    assert [Classify(u)] + [Search(q)] == [Classify(u), Search(q)];
    if p.search(past + [Classify(u)], q).Value? {
      var a := p.search(past + [Classify(u)], q).value;
      assert "" + a + "\n" == a + "\n";
    }
  }

  /** A general task followed by a trend task: the chat answer and then the
      trend answer, each on its own line, in task order, with the calls made
      in that order after the classifier. */
  lemma GeneralThenTrend(p: Providers, past: seq<Call>, line: string, first: string, second: string)
    requires var u := Strip(line);
      && u != [] && Lower(u) !in ExitPhrases
      && p.classify(past, u) == Value([first, second])
      && Route(Strip(Lower(first))) == GeneralRule
      && Route(Strip(Lower(second))) == TrendRule
    ensures var u := Strip(line);
      var q1 := CleanQuery(Strip(Lower(first)), "general");
      var q2 := CleanQuery(Strip(Lower(second)), "trend");
      var chat := p.chat(past + [Classify(u)], q1);
      Turn(p, past, line) ==
        match p.trend(past + [Classify(u), Chat(q1)], q2)
        case Raised(e) => TurnResult(Continue, ErrorReport(e), [Classify(u), Chat(q1), Trend(q2)])
        case Value(a) => TurnResult(Continue, Reply(Strip(chat + "\n" + a + "\n")), [Classify(u), Chat(q1), Trend(q2)])
  {
    var u := Strip(line);
    var q1 := CleanQuery(Strip(Lower(first)), "general");
    var chat := p.chat(past + [Classify(u)], q1);
    var tasks := [first, second];
    assert tasks[..1] == [first] && tasks[..1][..0] == [];
    var mid := Running("" + chat + "\n", true, [Classify(u)] + [Chat(q1)]);
    assert DispatchAll(p, past, u, tasks[..1], Start(u)) == mid;
    assert [Classify(u)] + [Chat(q1)] == [Classify(u), Chat(q1)];
    assert "" + chat + "\n" == chat + "\n";
    assert DispatchAll(p, past, u, tasks, Start(u)) == Step(p, past, u, mid, second);
    var q2 := CleanQuery(Strip(Lower(second)), "trend");
    assert [Classify(u), Chat(q1)] + [Trend(q2)] == [Classify(u), Chat(q1), Trend(q2)];
  }

  /** "realtime (news)" asks the search handler about "news". */
  lemma CleanQueryExample()
    ensures CleanQuery("realtime (news)", "realtime") == "news"
  {
    var t := "realtime (news)";
    assert StartsWith(t, "realtime");
    assert t[8..] == " " + "(news)" + "";
    StripAround(" ", "(news)", "");
    CleanQueryUnwraps(t, "realtime", "news");
    StripOfStripped("news");
  }

  // ---------------------------------------------------------------------
  // The session
  // ---------------------------------------------------------------------

  /** The turns of a session over the input lines, each seeing the calls of
      the turns before it, up to and including the first that exits. */
  function Session(p: Providers, past: seq<Call>, lines: seq<string>): seq<TurnResult>
    decreases |lines|
  {
    if lines == [] then []
    else
      var r := Turn(p, past, lines[0]);
      if r.outcome == Exit then [r] else [r] + Session(p, past + r.log, lines[1..])
  }

  /** A session runs one turn per line until a turn exits, and no turn runs
      after that. */
  lemma {:induction false} SessionStopsAtExit(p: Providers, past: seq<Call>, lines: seq<string>)
    ensures var rs := Session(p, past, lines);
      && |rs| <= |lines|
      && (forall k :: 0 <= k < |rs| - 1 ==> rs[k].outcome == Continue)
      && (|rs| < |lines| ==> rs != [] && rs[|rs| - 1].outcome == Exit)
    decreases |lines|
  {
    if lines != [] {
      SessionStopsAtExit(p, past + Turn(p, past, lines[0]).log, lines[1..]);
    }
  }

  /** The first turn of a session, and the session that follows it. */
  lemma SessionUnfold(p: Providers, past: seq<Call>, lines: seq<string>, r: TurnResult)
    requires lines != [] && r == Turn(p, past, lines[0])
    ensures Session(p, past, lines) == if r.outcome == Exit then [r] else [r] + Session(p, past + r.log, lines[1..])
  {
  }

  /** The `while True` loop: the calls of every turn are passed on to the
      next, and the loop ends at the first exit. */
  method RunSession(p: Providers, lines: seq<string>) returns (results: seq<TurnResult>)
    ensures results == Session(p, [], lines)
  {
    results := [];
    var history: seq<Call> := [];
    var i := 0;
    while i < |lines|
      invariant 0 <= i <= |lines|
      invariant results + Session(p, history, lines[i..]) == Session(p, [], lines)
    {
      var r := RunTurn(p, history, lines[i]);
      SessionUnfold(p, history, lines[i..], r);
      assert lines[i..][1..] == lines[i + 1..];
      results := results + [r];
      if r.outcome == Exit {
        return;
      }
      history := history + r.log;
      i := i + 1;
    }
  }
}
