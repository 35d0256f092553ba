/**
 * The interactive command interpreter (interactive/conversation.py).
 *
 * A `Conversation` reads lines, recognises the slash commands, keeps a
 * multi-line buffer, the list of enabled tools and the message history, and
 * hands every other line to a fresh `Agent`. The value `Session` is the whole
 * state of the object; the functions `After…` say what one operation makes of
 * it, and the methods of the class are proved to do exactly that.
 *
 * Terminal output is not modelled. Standard input is the field `input`, the
 * lines not read yet. `to_snake_case`, `int()`, `create_rag_from_directory`,
 * `create_get_changes` and the configured defaults are parameters
 * (`Environment`).
 */
module InteractiveConversation {
  import opened Wrappers
  import opened Strings
  import opened Dicts
  import opened JsonValues
  import opened Schema
  import opened AgentLoop

  const MultilineCommands: seq<string> := ["/multi", "/multiline"]

  const HelpCommands: seq<string> := ["/?", "/help"]

  /** The `max_iteration` default every agent of the conversation runs with. */
  const AgentMaxIteration := 10

  /** The arguments `_add_rag_tool` passes to `create_rag_from_directory`. */
  datatype RagToolRequest = RagToolRequest(
    toolName: string,
    toolDescription: string,
    documentDirPath: string,
    model: string,
    vectorDbPath: string,
    vectorDbCollection: string,
    chunkSize: int,
    overlap: int,
    maxResultCount: int)

  /** The arguments `_add_git_diff_tool` passes to `create_get_changes`. */
  datatype GitDiffToolRequest = GitDiffToolRequest(
    toolName: string,
    toolDescription: string,
    directory: string,
    initialBranch: string,
    newBranch: string)

  /** The configuration and the outside code the conversation relies on. */
  datatype Environment = Environment(
    ragEmbeddingModel: string,   // RAG_EMBEDDING_MODEL
    ragChunkSize: string,        // f"{RAG_CHUNK_SIZE}", the text shown as the default
    ragOverlap: string,          // f"{RAG_OVERLAP}"
    ragMaxResultCount: string,   // f"{RAG_MAX_RESULT_COUNT}"
    toSnakeCase: string -> string,
    parseInt: string -> Option<int>,
    createRag: RagToolRequest -> Tool,
    createGetChanges: GitDiffToolRequest -> Tool,
    agentDefaults: Defaults,
    agentOracles: Oracles)

  /** Every field of a `Conversation` that its methods update. */
  datatype Session = Session(
    model: string,
    shouldShowSystemPrompt: bool,
    initialUserInput: string,
    previousMessages: seq<Message>,
    isMultilineMode: bool,
    multilineUserInputs: seq<string>,
    enabledToolNames: seq<string>,
    availableTools: Dict<string, Tool>,
    input: seq<string>)

  // ---------------------------------------------------------------------
  // Reading input
  // ---------------------------------------------------------------------

  /** `_read_input`: the lines left after reading one, and that line stripped; "" at the end of the input. */
  function NextLine(input: seq<string>): (r: (seq<string>, string))
  {
    if input == [] then ([], "") else (input[1..], Strip(input[0]))
  }

  /** `_read_param`: the line read, or the default when that line is blank or the input has ended. */
  function ParamValue(input: seq<string>, defaultValue: string): (r: (seq<string>, string))
  {
    var next := NextLine(input);
    (next.0, if next.1 != "" then next.1 else defaultValue)
  }

  /**
   * A parameter consumes one line; it is that line, stripped, unless the line
   * is blank or the input has ended, in which case it is the default.
   */
  lemma ParamFallback(input: seq<string>, defaultValue: string)
    ensures var r := ParamValue(input, defaultValue);
      && r.0 == (if input == [] then [] else input[1..])
      && (input != [] && Strip(input[0]) != "" ==> r.1 == Strip(input[0]))
      && (input == [] || Strip(input[0]) == "" ==> r.1 == defaultValue)
  {
  }

  /** `_read_user_message`: the initial input once, then lines of standard input. */
  function UserMessage(s: Session): (r: (Session, string))
  {
    if s.initialUserInput != "" then (s.(initialUserInput := ""), s.initialUserInput)
    else (s.(input := NextLine(s.input).0), NextLine(s.input).1)
  }

  /**
   * The initial input is the first message and is used only once: the message
   * after it is the next line of standard input.
   */
  lemma InitialInputOnce(s: Session)
    requires s.initialUserInput != ""
    ensures var (s1, first) := UserMessage(s);
      var (s2, second) := UserMessage(s1);
      && first == s.initialUserInput && s1.input == s.input
      && s2 == s.(initialUserInput := "", input := NextLine(s.input).0) && second == NextLine(s.input).1
  {
  }

  // ---------------------------------------------------------------------
  // Subcommands
  // ---------------------------------------------------------------------

  /**
   * `_get_subcommand`: the rest of the line after the command, stripped, when
   * the lower-cased line is longer than the command and starts with it;
   * otherwise "".
   */
  function Subcommand(command: string, line: string): (r: string)
    ensures Strip(r) == r
    ensures |line| > |command| && StartsWith(Lower(line), Lower(command)) ==> r == Strip(line[|command|..])
    ensures !(|line| > |command| && StartsWith(Lower(line), Lower(command))) ==> r == ""
  {
    var lowerLine := Lower(Lower(line));
    var lowerCommand := Lower(command);
    LowerLower(line);
    if |lowerLine| > |lowerCommand| && StartsWith(lowerLine, lowerCommand) then
      StripStripped(line[|lowerCommand|..]);
      Strip(line[|lowerCommand|..])
    else
      ""
  }

  /** A command followed by one space and a stripped argument gives back the argument. */
  lemma SubcommandOfArgument(command: string, argument: string)
    requires argument != [] && Strip(argument) == argument
    ensures Subcommand(command, command + " " + argument) == argument
  {
    var line := command + " " + argument;
    LowerConcat(command, " " + argument);
    assert Lower(line)[..|command|] == Lower(command);
    assert line[|command|..] == " " + argument;
    StripAfterSpace(argument);
  }

  // ---------------------------------------------------------------------
  // The enabled-tool list
  // ---------------------------------------------------------------------

  /** `_add_tool`: enables an available tool that is not enabled yet; otherwise nothing changes. */
  function WithToolAdded(s: Session, name: string): (r: Session)
    ensures r == s.(enabledToolNames := r.enabledToolNames)
    ensures s.enabledToolNames <= r.enabledToolNames
    ensures forall n :: n in r.enabledToolNames <==> n in s.enabledToolNames || (n == name && HasKey(s.availableTools, name))
    ensures Distinct(s.enabledToolNames) ==> Distinct(r.enabledToolNames)
  {
    if !HasKey(s.availableTools, name) then s
    else if name in s.enabledToolNames then s
    else s.(enabledToolNames := s.enabledToolNames + [name])
  }

  /** `xs.remove(x)`: the list without the first occurrence of `x`. */
  function RemoveFirst(xs: seq<string>, x: string): (r: seq<string>)
    ensures x in xs ==> |r| == |xs| - 1 && multiset(r) == multiset(xs) - multiset{x}
    ensures x !in xs ==> r == xs
  {
    if xs == [] then []
    else if xs[0] == x then
      assert xs == [xs[0]] + xs[1..];
      xs[1..]
    else
      assert xs == [xs[0]] + xs[1..];
      [xs[0]] + RemoveFirst(xs[1..], x)
  }

  /** Removing from a list without repetitions removes the element completely and nothing else. */
  lemma RemoveFirstDistinct(xs: seq<string>, x: string)
    requires Distinct(xs)
    ensures Distinct(RemoveFirst(xs, x))
    ensures forall n :: n in RemoveFirst(xs, x) <==> n in xs && n != x
  {
    var r := RemoveFirst(xs, x);
    forall n ensures n in r <==> n in xs && n != x {
      if x in xs {
        assert n in r <==> n in multiset(r);
        assert n in xs <==> n in multiset(xs);
        if n == x {
          var i :| 0 <= i < |xs| && xs[i] == x;
          assert multiset(xs)[x] == 1 by {
            DistinctCount(xs, i);
          }
        }
      }
    }
    forall i, j | 0 <= i < j < |r| ensures r[i] != r[j] {
      if r[i] == r[j] {
        assert multiset(r)[r[i]] >= 2 by {
          TwoOccurrences(r, i, j);
        }
        DistinctAtMostOnce(xs, r[i]);
      }
    }
  }

  /** An element at position `i` of a list without repetitions occurs exactly once. */
  lemma {:induction false} DistinctCount(xs: seq<string>, i: nat)
    requires Distinct(xs) && i < |xs|
    ensures multiset(xs)[xs[i]] == 1
    decreases |xs|
  {
    assert xs == [xs[0]] + xs[1..];
    if i == 0 {
      assert xs[0] !in xs[1..];
      assert xs[0] !in multiset(xs[1..]);
    } else {
      assert Distinct(xs[1..]);
      DistinctCount(xs[1..], i - 1);
      assert xs[1..][i - 1] == xs[i];
    }
  }

  /** No element of a list without repetitions occurs twice. */
  lemma DistinctAtMostOnce(xs: seq<string>, x: string)
    requires Distinct(xs)
    ensures multiset(xs)[x] <= 1
  {
    if x in xs {
      var i :| 0 <= i < |xs| && xs[i] == x;
      DistinctCount(xs, i);
    }
  }

  /** Two positions holding the same element make it occur at least twice. */
  lemma {:induction false} TwoOccurrences(xs: seq<string>, i: nat, j: nat)
    requires i < j < |xs| && xs[i] == xs[j]
    ensures multiset(xs)[xs[i]] >= 2
  {
    assert xs == xs[..j] + [xs[j]] + xs[j + 1..];
    assert xs[..j][i] == xs[i];
    assert xs[i] in multiset(xs[..j]);
  }

  /** `_remove_tool`: disables an available, enabled tool; otherwise nothing changes. */
  function WithToolRemoved(s: Session, name: string): (r: Session)
    ensures r == s.(enabledToolNames := r.enabledToolNames)
    ensures !HasKey(s.availableTools, name) || name !in s.enabledToolNames ==> r == s
    ensures HasKey(s.availableTools, name) && Distinct(s.enabledToolNames) ==>
      Distinct(r.enabledToolNames) && forall n :: n in r.enabledToolNames <==> n in s.enabledToolNames && n != name
  {
    if !HasKey(s.availableTools, name) then s
    else if name !in s.enabledToolNames then s
    else
      RemoveFirstDistinctIf(s.enabledToolNames, name);
      s.(enabledToolNames := RemoveFirst(s.enabledToolNames, name))
  }

  lemma RemoveFirstDistinctIf(xs: seq<string>, x: string)
    ensures Distinct(xs) ==>
      Distinct(RemoveFirst(xs, x)) && forall n :: n in RemoveFirst(xs, x) <==> n in xs && n != x
  {
    if Distinct(xs) {
      RemoveFirstDistinct(xs, x);
    }
  }

  /** Removing the last element of a list that holds it once gives back the rest. */
  lemma {:induction false} RemoveLast(xs: seq<string>, x: string)
    requires x !in xs
    ensures RemoveFirst(xs + [x], x) == xs
    decreases |xs|
  {
    if xs != [] {
      assert (xs + [x])[1..] == xs[1..] + [x];
      RemoveLast(xs[1..], x);
      assert xs == [xs[0]] + xs[1..];
    }
  }

  /** Enabling a tool and disabling it again restores the session. */
  lemma AddThenRemove(s: Session, name: string)
    requires HasKey(s.availableTools, name) && name !in s.enabledToolNames
    ensures WithToolRemoved(WithToolAdded(s, name), name) == s
  {
    RemoveLast(s.enabledToolNames, name);
  }

  // ---------------------------------------------------------------------
  // New RAG and git-diff tools
  // ---------------------------------------------------------------------

  /** `int(text)`, which raises `ValueError` on text that is not an integer literal. */
  function IntOf(env: Environment, text: string): (r: Result<int, string>)
  {
    match env.parseInt(text)
    case Some(n) => Success(n)
    case None => Failure("invalid literal for int() with base 10: '" + text + "'")
  }

  /**
   * The nine parameters `_add_rag_tool` asks for, in order, each with its
   * default; reading stops at the first number that `int()` rejects.
   */
  function RagRequestOf(input: seq<string>, env: Environment): (r: (seq<string>, Result<RagToolRequest, string>))
  {
    var (s1, directory) := ParamValue(input, "./document");
    var snakeDirectory := env.toSnakeCase(directory);
    var (s2, toolName) := ParamValue(s1, "retrieve_from_" + snakeDirectory);
    var (s3, toolDescription) := ParamValue(s2, "Retrieve info from " + directory);
    var (s4, model) := ParamValue(s3, env.ragEmbeddingModel);
    var (s5, vectorDbPath) := ParamValue(s4, directory + "-vector");
    var (s6, vectorDbCollection) := ParamValue(s5, "documents");
    var (s7, chunkSizeText) := ParamValue(s6, env.ragChunkSize);
    match IntOf(env, chunkSizeText)
    case Failure(e) => (s7, Failure(e))
    case Success(chunkSize) =>
      var (s8, overlapText) := ParamValue(s7, env.ragOverlap);
      match IntOf(env, overlapText)
      case Failure(e) => (s8, Failure(e))
      case Success(overlap) =>
        var (s9, countText) := ParamValue(s8, env.ragMaxResultCount);
        match IntOf(env, countText)
        case Failure(e) => (s9, Failure(e))
        case Success(maxResultCount) =>
          (s9, Success(RagToolRequest(toolName, toolDescription, directory, model, vectorDbPath,
                                      vectorDbCollection, chunkSize, overlap, maxResultCount)))
  }

  /** All the remaining input is blank lines. */
  predicate BlankInput(input: seq<string>)
  {
    forall i :: 0 <= i < |input| ==> Strip(input[i]) == ""
  }

  lemma BlankParam(input: seq<string>, defaultValue: string)
    requires BlankInput(input)
    ensures BlankInput(ParamValue(input, defaultValue).0) && ParamValue(input, defaultValue).1 == defaultValue
  {
    if input != [] {
      assert forall i :: 0 <= i < |input[1..]| ==> input[1..][i] == input[i + 1];
    }
  }

  /**
   * With nothing but blank lines left to read (or none at all), every RAG
   * parameter takes its default: the tool reads "./document" and is named
   * after its snake-cased path.
   */
  lemma RagRequestDefaults(s: seq<string>, env: Environment, chunkSize: int, overlap: int, maxResultCount: int)
    requires BlankInput(s)
    requires env.parseInt(env.ragChunkSize) == Some(chunkSize)
    requires env.parseInt(env.ragOverlap) == Some(overlap)
    requires env.parseInt(env.ragMaxResultCount) == Some(maxResultCount)
    ensures var directory := "./document";
      RagRequestOf(s, env).1 == Success(RagToolRequest(
        "retrieve_from_" + env.toSnakeCase(directory), "Retrieve info from " + directory, directory,
        env.ragEmbeddingModel, directory + "-vector", "documents", chunkSize, overlap, maxResultCount))
  {
    var directory := "./document";
    var s1 := ParamValue(s, directory).0;
    BlankParam(s, directory);
    var s2 := ParamValue(s1, "retrieve_from_" + env.toSnakeCase(directory)).0;
    BlankParam(s1, "retrieve_from_" + env.toSnakeCase(directory));
    var s3 := ParamValue(s2, "Retrieve info from " + directory).0;
    BlankParam(s2, "Retrieve info from " + directory);
    var s4 := ParamValue(s3, env.ragEmbeddingModel).0;
    BlankParam(s3, env.ragEmbeddingModel);
    var s5 := ParamValue(s4, directory + "-vector").0;
    BlankParam(s4, directory + "-vector");
    var s6 := ParamValue(s5, "documents").0;
    BlankParam(s5, "documents");
    var s7 := ParamValue(s6, env.ragChunkSize).0;
    BlankParam(s6, env.ragChunkSize);
    var s8 := ParamValue(s7, env.ragOverlap).0;
    BlankParam(s7, env.ragOverlap);
    BlankParam(s8, env.ragMaxResultCount);
  }

  /** `_add_rag_tool` on the session: ask for the parameters, then create and enable the tool. */
  function WithRagTool(s: Session, env: Environment): (Session, Outcome<string>)
  {
    var (rest, request) := RagRequestOf(s.input, env);
    match request
    case Failure(e) => (s.(input := rest), Fail(e))
    case Success(q) =>
      (s.(input := rest, enabledToolNames := s.enabledToolNames + [q.toolName],
          availableTools := Put(s.availableTools, q.toolName, env.createRag(q))), Pass)
  }

  /**
   * When every number is accepted, `_add_rag_tool` appends the new tool's name
   * to the enabled list (even when it is already there) and stores the tool
   * under that name, replacing any other; nothing else but the input changes.
   */
  lemma RagToolAdded(s: Session, env: Environment)
    requires RagRequestOf(s.input, env).1.Success?
    ensures var (rest, request) := RagRequestOf(s.input, env);
      var (r, outcome) := WithRagTool(s, env);
      && outcome == Pass
      && r == s.(input := rest, enabledToolNames := s.enabledToolNames + [request.value.toolName],
                 availableTools := r.availableTools)
      && Get(r.availableTools, request.value.toolName) == Some(env.createRag(request.value))
      && forall n :: n != request.value.toolName ==> Get(r.availableTools, n) == Get(s.availableTools, n)
  {
    var request := RagRequestOf(s.input, env).1.value;
    assert WithRagTool(s, env).0.availableTools == Put(s.availableTools, request.toolName, env.createRag(request));
  }

  /**
   * When a number is rejected, `_add_rag_tool` fails with `int()`'s message
   * and only the input read so far has changed.
   */
  lemma RagToolRejected(s: Session, env: Environment)
    requires RagRequestOf(s.input, env).1.Failure?
    ensures WithRagTool(s, env) == (s.(input := RagRequestOf(s.input, env).0), Fail(RagRequestOf(s.input, env).1.error))
  {
  }

  /** The five parameters `_add_git_diff_tool` asks for, in order, each with its default. */
  function GitDiffRequestOf(input: seq<string>, env: Environment): (r: (seq<string>, GitDiffToolRequest))
  {
    var (s1, directory) := ParamValue(input, "./repo");
    var snakeDirectory := env.toSnakeCase(directory);
    var (s2, toolName) := ParamValue(s1, "get_changes_on_" + snakeDirectory);
    var (s3, toolDescription) := ParamValue(s2, "Retrieve changes on " + directory);
    var (s4, initialBranch) := ParamValue(s3, "main");
    var (s5, newBranch) := ParamValue(s4, "HEAD");
    (s5, GitDiffToolRequest(toolName, toolDescription, directory, initialBranch, newBranch))
  }

  /**
   * With nothing but blank lines left to read, the git-diff tool compares
   * "HEAD" with "main" in "./repo".
   */
  lemma GitDiffRequestDefaults(s: seq<string>, env: Environment)
    requires BlankInput(s)
    ensures GitDiffRequestOf(s, env).1 == GitDiffToolRequest(
      "get_changes_on_" + env.toSnakeCase("./repo"), "Retrieve changes on ./repo", "./repo", "main", "HEAD")
  {
    var directory := "./repo";
    var s1 := ParamValue(s, directory).0;
    BlankParam(s, directory);
    var s2 := ParamValue(s1, "get_changes_on_" + env.toSnakeCase(directory)).0;
    BlankParam(s1, "get_changes_on_" + env.toSnakeCase(directory));
    var s3 := ParamValue(s2, "Retrieve changes on " + directory).0;
    BlankParam(s2, "Retrieve changes on " + directory);
    var s4 := ParamValue(s3, "main").0;
    BlankParam(s3, "main");
    BlankParam(s4, "HEAD");
  }

  /** `_add_git_diff_tool` on the session: ask for the parameters, then create and enable the tool. */
  function WithGitDiffTool(s: Session, env: Environment): Session
  {
    var (rest, request) := GitDiffRequestOf(s.input, env);
    s.(input := rest, enabledToolNames := s.enabledToolNames + [request.toolName],
       availableTools := Put(s.availableTools, request.toolName, env.createGetChanges(request)))
  }

  /**
   * `_add_git_diff_tool` appends the new tool's name to the enabled list and
   * stores the tool under it; only the input, the names and the tools change.
   */
  lemma GitDiffToolAdded(s: Session, env: Environment)
    ensures var r := WithGitDiffTool(s, env);
      var (rest, request) := GitDiffRequestOf(s.input, env);
      && r == s.(input := rest, enabledToolNames := r.enabledToolNames, availableTools := r.availableTools)
      && r.enabledToolNames == s.enabledToolNames + [request.toolName]
      && Get(r.availableTools, request.toolName) == Some(env.createGetChanges(request))
      && forall n :: n != request.toolName ==> Get(r.availableTools, n) == Get(s.availableTools, n)
  {
  }

  // ---------------------------------------------------------------------
  // `/tool add` and `/tool rm`
  // ---------------------------------------------------------------------

  /** One name of `/tool add`: "rag" and "git_diff" create a new tool, any other name enables one. */
  function WithNamedTool(s: Session, env: Environment, name: string): (r: (Session, Outcome<string>))
  {
    if name == "rag" then WithRagTool(s, env)
    else if name == "git_diff" then (WithGitDiffTool(s, env), Pass)
    else (WithToolAdded(s, name), Pass)
  }

  /** The loop of `/tool add` over its names; an exception ends it. */
  function WithToolsAdded(s: Session, env: Environment, names: seq<string>): (r: (Session, Outcome<string>))
    decreases |names|
  {
    if names == [] then (s, Pass)
    else
      var (t, outcome) := WithNamedTool(s, env, names[0]);
      if outcome.Fail? then (t, outcome) else WithToolsAdded(t, env, names[1..])
  }

  /** The loop of `/tool rm` over its names. */
  function WithToolsRemoved(s: Session, names: seq<string>): (r: Session)
    decreases |names|
  {
    if names == [] then s else WithToolsRemoved(WithToolRemoved(s, names[0]), names[1..])
  }

  /**
   * `/tool add` with ordinary names enables exactly the available ones that
   * were not enabled yet, keeps the order of those that were, and never
   * enables a name twice.
   */
  lemma {:induction false} ToolsAdded(s: Session, env: Environment, names: seq<string>)
    requires forall i :: 0 <= i < |names| ==> names[i] != "rag" && names[i] != "git_diff"
    ensures var r := WithToolsAdded(s, env, names);
      && r.1 == Pass
      && r.0 == s.(enabledToolNames := r.0.enabledToolNames)
      && s.enabledToolNames <= r.0.enabledToolNames
      && (forall n :: n in r.0.enabledToolNames <==>
            n in s.enabledToolNames || (n in names && HasKey(s.availableTools, n)))
      && (Distinct(s.enabledToolNames) ==> Distinct(r.0.enabledToolNames))
    decreases |names|
  {
    if names != [] {
      var t := WithToolAdded(s, names[0]);
      assert WithToolsAdded(s, env, names) == WithToolsAdded(t, env, names[1..]);
      ToolsAdded(t, env, names[1..]);
      forall n ensures n in names <==> n == names[0] || n in names[1..] {
        assert names == [names[0]] + names[1..];
      }
    }
  }

  /**
   * On a list without repetitions, `/tool rm` disables exactly the named tools
   * that are available, and nothing else changes.
   */
  lemma {:induction false} ToolsRemoved(s: Session, names: seq<string>)
    requires Distinct(s.enabledToolNames)
    ensures var r := WithToolsRemoved(s, names);
      && r == s.(enabledToolNames := r.enabledToolNames)
      && Distinct(r.enabledToolNames)
      && forall n :: n in r.enabledToolNames <==>
           n in s.enabledToolNames && !(n in names && HasKey(s.availableTools, n))
    decreases |names|
  {
    if names != [] {
      var t := WithToolRemoved(s, names[0]);
      ToolsRemoved(t, names[1..]);
      forall n ensures n in names <==> n == names[0] || n in names[1..] {
        assert names == [names[0]] + names[1..];
      }
    }
  }

  // ---------------------------------------------------------------------
  // Commands
  // ---------------------------------------------------------------------

  predicate IsToolCommand(lower: string)
  {
    lower == "/clear" || lower == "/tool" || StartsWith(lower, "/tool add") || StartsWith(lower, "/tool rm")
  }

  /** `_process_tool_command` on a line it recognises. */
  function AfterToolCommand(s: Session, env: Environment, line: string): (r: (Session, Outcome<string>))
    requires IsToolCommand(Lower(line))
  {
    var lower := Lower(line);
    if lower == "/clear" then (s.(previousMessages := []), Pass)
    else if lower == "/tool" then (s, Pass)
    else if StartsWith(lower, "/tool add") then WithToolsAdded(s, env, Split(Subcommand("/tool add", line), " "))
    else (WithToolsRemoved(s, Split(Subcommand("/tool rm", line), " ")), Pass)
  }

  /** `_process_model_command` on a line it recognises: a non-empty argument becomes the model. */
  function AfterModelCommand(s: Session, line: string): (r: Session)
  {
    var arg := Subcommand("/model", line);
    if arg != "" then s.(model := arg) else s
  }

  /** `_process_input`: the new state, and the prompt for the agent (None when there is none). */
  function AfterInput(s: Session, env: Environment, line: string): (r: (Session, Result<Option<string>, string>))
  {
    var lower := Lower(line);
    if s.isMultilineMode then
      if lower == "/end" then (s.(isMultilineMode := false), Success(Some(Join(s.multilineUserInputs, "\n"))))
      else (s.(multilineUserInputs := s.multilineUserInputs + [line]), Success(None))
    else if lower in MultilineCommands then (s.(isMultilineMode := true, multilineUserInputs := []), Success(None))
    else if lower in HelpCommands then (s, Success(None))
    else if StartsWith(lower, "/model") then (AfterModelCommand(s, line), Success(None))
    else if IsToolCommand(lower) then
      var (t, outcome) := AfterToolCommand(s, env, line);
      (t, if outcome.Pass? then Success(None) else Failure(outcome.error))
    else if StartsWith(line, "/") then (s, Success(None))
    else (s, Success(Some(line)))
  }

  /**
   * Outside multi-line mode a line that does not start with "/" is the prompt
   * itself and changes nothing; a line that does start with "/" is never a
   * prompt.
   */
  lemma PlainLineIsPrompt(s: Session, env: Environment, line: string)
    requires !s.isMultilineMode
    ensures !StartsWith(line, "/") ==> AfterInput(s, env, line) == (s, Success(Some(line)))
    ensures StartsWith(line, "/") ==> !(AfterInput(s, env, line).1.Success? && AfterInput(s, env, line).1.value.Some?)
  {
    LowerSlash(line);
    var lower := Lower(line);
    if !StartsWith(line, "/") {
      assert !StartsWith(lower, "/");
      assert lower !in MultilineCommands && lower !in HelpCommands;
      assert !StartsWith(lower, "/model") && !IsToolCommand(lower);
    }
  }

  /** `_process_input` applied to each line in turn, with the replies. */
  function Feed(s: Session, env: Environment, lines: seq<string>): (r: (Session, seq<Result<Option<string>, string>>))
    ensures |r.1| == |lines|
    decreases |lines|
  {
    if lines == [] then (s, [])
    else
      var (t, reply) := AfterInput(s, env, lines[0]);
      var (u, replies) := Feed(t, env, lines[1..]);
      (u, [reply] + replies)
  }

  /** In multi-line mode every line other than "/end" is buffered and gives no prompt. */
  lemma {:induction false} BufferLines(s: Session, env: Environment, lines: seq<string>)
    requires s.isMultilineMode
    requires forall i :: 0 <= i < |lines| ==> Lower(lines[i]) != "/end"
    ensures Feed(s, env, lines).0 == s.(multilineUserInputs := s.multilineUserInputs + lines)
    ensures forall i :: 0 <= i < |lines| ==> Feed(s, env, lines).1[i] == Success(None)
    decreases |lines|
  {
    if lines != [] {
      var t := s.(multilineUserInputs := s.multilineUserInputs + [lines[0]]);
      assert AfterInput(s, env, lines[0]) == (t, Success(None));
      BufferLines(t, env, lines[1..]);
      assert s.multilineUserInputs + [lines[0]] + lines[1..] == s.multilineUserInputs + lines;
    }
  }

  /**
   * "/multi", some lines, then "/end" gives the lines joined by newlines as one
   * prompt, and leaves only the buffer changed.
   */
  lemma MultilineRoundTrip(s: Session, env: Environment, lines: seq<string>)
    requires !s.isMultilineMode
    requires forall i :: 0 <= i < |lines| ==> Lower(lines[i]) != "/end"
    ensures var s1 := AfterInput(s, env, "/multi");
      var s2 := Feed(s1.0, env, lines).0;
      && s1.1 == Success(None)
      && AfterInput(s2, env, "/end") == (s.(multilineUserInputs := lines), Success(Some(Join(lines, "\n"))))
  {
    assert Lower("/multi") == "/multi";
    assert Lower("/end") == "/end";
    var s1 := s.(isMultilineMode := true, multilineUserInputs := []);
    assert AfterInput(s, env, "/multi") == (s1, Success(None));
    BufferLines(s1, env, lines);
    assert [] + lines == lines;
  }

  /** "/clear", in any case, empties the history and changes nothing else. */
  lemma ClearEmptiesHistory(s: Session, env: Environment, line: string)
    requires !s.isMultilineMode && Lower(line) == "/clear"
    ensures AfterInput(s, env, line) == (s.(previousMessages := []), Success(None))
  {
    DifferAt("/model", Lower(line), 1);
  }

  /** "/model" followed by a name switches to that model and changes nothing else. */
  lemma ModelCommandSetsModel(s: Session, env: Environment, model: string)
    requires !s.isMultilineMode && model != [] && Strip(model) == model
    ensures AfterInput(s, env, "/model " + model) == (s.(model := model), Success(None))
  {
    var line := "/model " + model;
    assert "/model" + " " + model == line;
    ModelLine(model);
    SubcommandOfArgument("/model", model);
    assert AfterModelCommand(s, line) == s.(model := model);
  }

  /** The lower-cased "/model " line is recognised as a model command and as nothing before it. */
  lemma ModelLine(model: string)
    ensures var lower := Lower("/model " + model);
      && lower !in MultilineCommands && lower !in HelpCommands && StartsWith(lower, "/model")
  {
    var line := "/model " + model;
    LowerConcat("/model", " " + model);
    assert Lower("/model") == "/model";
    var lower := Lower(line);
    assert lower[..6] == "/model";
    assert lower[1] == 'm' && lower[2] == 'o';
    DifferAt("/multi", lower, 2);
    DifferAt("/multiline", lower, 2);
    DifferAt("/?", lower, 1);
    DifferAt("/help", lower, 1);
  }

  /** "/model" alone only shows the model. */
  lemma ModelCommandAlone(s: Session, env: Environment, line: string)
    requires !s.isMultilineMode && Lower(line) == "/model"
    ensures AfterInput(s, env, line) == (s, Success(None))
  {
    assert StartsWith(Lower(line), "/model");
  }

  /** A line made of a tool command and one name is recognised as that tool command only. */
  lemma ToolLine(command: string, name: string, line: string)
    requires command == "/tool add" || command == "/tool rm"
    requires line == command + " " + name
    ensures var lower := Lower(line);
      && StartsWith(lower, command) && IsToolCommand(lower) && lower != "/clear" && lower != "/tool"
      && (command == "/tool rm" ==> !StartsWith(lower, "/tool add"))
      && lower !in MultilineCommands && lower !in HelpCommands && !StartsWith(lower, "/model")
  {
    LowerConcat(command, " " + name);
    assert Lower(command) == command;
    var lower := Lower(line);
    assert lower[..|command|] == command;
    assert lower[1] == 't';
    DifferAt("/model", lower, 1);
    DifferAt("/multi", lower, 1);
    DifferAt("/multiline", lower, 1);
    DifferAt("/?", lower, 1);
    DifferAt("/help", lower, 1);
    DifferAt("/clear", lower, 1);
    assert |lower| > 5;
    if command == "/tool rm" {
      assert lower[6] == 'r';
      DifferAt("/tool add", lower, 6);
    }
  }

  /** The arguments of a tool command followed by one name without spaces are that name. */
  lemma ToolArguments(command: string, name: string, line: string)
    requires command == "/tool add" || command == "/tool rm"
    requires name != [] && Strip(name) == name && forall k :: 0 <= k < |name| ==> name[k] != ' '
    requires line == command + " " + name
    ensures Split(Subcommand(command, line), " ") == [name]
  {
    SubcommandOfArgument(command, name);
    WithoutChar(name, ' ');
    SplitWithoutSeparator(name, " ");
  }

  /** Outside multi-line mode a line recognised as a tool command is handled by `_process_tool_command`. */
  lemma ToolCommandInput(s: Session, env: Environment, line: string)
    requires !s.isMultilineMode
    requires var lower := Lower(line);
      lower !in MultilineCommands && lower !in HelpCommands && !StartsWith(lower, "/model") && IsToolCommand(lower)
    ensures AfterInput(s, env, line).0 == AfterToolCommand(s, env, line).0
    ensures AfterToolCommand(s, env, line).1.Pass? ==> AfterInput(s, env, line).1 == Success(None)
  {
  }

  /** `/tool add` with the single argument `name`. */
  lemma ToolAddCommand(s: Session, env: Environment, line: string, name: string)
    requires Lower(line) != "/clear" && Lower(line) != "/tool" && StartsWith(Lower(line), "/tool add")
    requires Split(Subcommand("/tool add", line), " ") == [name]
    ensures AfterToolCommand(s, env, line) == WithToolsAdded(s, env, [name])
  {
  }

  /** A single name other than "rag" and "git_diff" is only enabled. */
  lemma ToolsAddedOne(s: Session, env: Environment, name: string)
    requires name != "rag" && name != "git_diff"
    ensures WithToolsAdded(s, env, [name]) == (WithToolAdded(s, name), Pass)
  {
  }

  /** `/tool rm` with the single argument `name`. */
  lemma ToolRemoveCommand(s: Session, env: Environment, line: string, name: string)
    requires Lower(line) != "/clear" && Lower(line) != "/tool" && !StartsWith(Lower(line), "/tool add")
    requires StartsWith(Lower(line), "/tool rm") && Split(Subcommand("/tool rm", line), " ") == [name]
    ensures AfterToolCommand(s, env, line) == (WithToolsRemoved(s, [name]), Pass)
  {
  }

  /** A single name is only disabled. */
  lemma ToolsRemovedOne(s: Session, name: string)
    ensures WithToolsRemoved(s, [name]) == WithToolRemoved(s, name)
  {
  }

  /** "/tool add" with one available, not yet enabled name enables it. */
  lemma ToolAddEnables(s: Session, env: Environment, name: string)
    requires !s.isMultilineMode && name != "rag" && name != "git_diff"
    requires name != [] && Strip(name) == name && forall k :: 0 <= k < |name| ==> name[k] != ' '
    requires HasKey(s.availableTools, name) && name !in s.enabledToolNames
    ensures AfterInput(s, env, "/tool add " + name) == (s.(enabledToolNames := s.enabledToolNames + [name]), Success(None))
  {
    var line := "/tool add " + name;
    assert line == "/tool add" + " " + name;
    ToolLine("/tool add", name, line);
    ToolArguments("/tool add", name, line);
    ToolAddCommand(s, env, line, name);
    ToolsAddedOne(s, env, name);
    ToolCommandInput(s, env, line);
  }

  /** "/tool rm" with the same name afterwards restores the session. */
  lemma ToolAddThenRemove(s: Session, env: Environment, name: string)
    requires !s.isMultilineMode && name != "rag" && name != "git_diff"
    requires name != [] && Strip(name) == name && forall k :: 0 <= k < |name| ==> name[k] != ' '
    requires HasKey(s.availableTools, name) && name !in s.enabledToolNames
    ensures var added := AfterInput(s, env, "/tool add " + name).0;
      AfterInput(added, env, "/tool rm " + name) == (s, Success(None))
  {
    ToolAddEnables(s, env, name);
    var added := WithToolAdded(s, name);
    var line := "/tool rm " + name;
    assert line == "/tool rm" + " " + name;
    ToolLine("/tool rm", name, line);
    ToolArguments("/tool rm", name, line);
    ToolRemoveCommand(added, env, line, name);
    ToolsRemovedOne(added, name);
    AddThenRemove(s, name);
    ToolCommandInput(added, env, line);
  }

  // ---------------------------------------------------------------------
  // Handing a prompt to the agent
  // ---------------------------------------------------------------------

  /** The tools handed to the agent: the available tools whose names are enabled, in dictionary order. */
  function EnabledTools(available: Dict<string, Tool>, enabled: seq<string>): (tools: seq<Tool>)
    ensures |tools| <= |available|
    decreases |available|
  {
    if available == [] then []
    else (if available[0].0 in enabled then [available[0].1] else []) + EnabledTools(available[1..], enabled)
  }

  /** A tool reaches the agent exactly when it is stored under an enabled name. */
  lemma {:induction false} EnabledToolsExactly(available: Dict<string, Tool>, enabled: seq<string>)
    ensures forall t :: t in EnabledTools(available, enabled) <==>
      exists i :: 0 <= i < |available| && available[i].0 in enabled && available[i].1 == t
    decreases |available|
  {
    if available != [] {
      EnabledToolsExactly(available[1..], enabled);
      forall t ensures t in EnabledTools(available, enabled) <==>
        exists i :: 0 <= i < |available| && available[i].0 in enabled && available[i].1 == t
      {
        if exists i :: 0 <= i < |available| && available[i].0 in enabled && available[i].1 == t {
          var i :| 0 <= i < |available| && available[i].0 in enabled && available[i].1 == t;
          if i > 0 {
            assert available[1..][i - 1] == available[i];
          }
        }
        if t in EnabledTools(available[1..], enabled) {
          var i :| 0 <= i < |available[1..]| && available[1..][i].0 in enabled && available[1..][i].1 == t;
          assert available[i + 1] == available[1..][i];
        }
      }
    }
  }

  /** The constructor arguments of the agent `_handle_user_prompt` creates. */
  function AgentRequest(s: Session): AgentParams
  {
    AgentParams(Some(s.model), None, None, None, None, s.previousMessages,
                EnabledTools(s.availableTools, s.enabledToolNames), AgentMaxIteration)
  }

  /** The run of a fresh agent built from `request` on one user message. */
  function AgentTurn(request: AgentParams, env: Environment, prompt: string): RunOutcome
  {
    var cfg := MakeConfig(request, env.agentDefaults, env.agentOracles);
    Run(cfg, prompt, request.previousMessages + [UserText(prompt)], false, Iterations(cfg))
  }

  /**
   * `_handle_user_prompt`: nothing for a missing or empty prompt; otherwise
   * the agent's run on the prompt gives the answer and the new history.
   */
  function AfterPrompt(s: Session, env: Environment, prompt: Option<string>): (r: (Session, Option<Json>))
  {
    if prompt == None || prompt.value == "" then (s, None)
    else
      var run := AgentTurn(AgentRequest(s), env, prompt.value);
      (s.(shouldShowSystemPrompt := false, previousMessages := run.messages), Some(run.result))
  }

  /** A fresh agent's run keeps the history it was given and the prompt, then appends whole pairs. */
  lemma TurnAppendsPairs(request: AgentParams, env: Environment, prompt: string)
    ensures var messages := AgentTurn(request, env, prompt).messages;
      var history := request.previousMessages + [UserText(prompt)];
      && history <= messages
      && forall j: nat :: |history| + 2 * j < |messages| ==> IterationPair(messages, |history|, j)
  {
    var cfg := MakeConfig(request, env.agentDefaults, env.agentOracles);
    RunAppendsPairs(cfg, prompt, request.previousMessages + [UserText(prompt)], false, Iterations(cfg));
  }

  /** A missing or empty prompt changes nothing and gives no answer. */
  lemma EmptyPromptIgnored(s: Session, env: Environment, prompt: Option<string>)
    requires prompt.None? || prompt.value == ""
    ensures AfterPrompt(s, env, prompt) == (s, None)
  {
  }

  /**
   * Any other prompt gives an answer, hides the system prompt from then on,
   * and extends the history with the prompt and then nothing but whole
   * reply-and-feedback pairs, one per request the agent made; nothing else
   * changes.
   */
  lemma PromptExtendsHistory(s: Session, env: Environment, prompt: string)
    requires prompt != ""
    ensures var r := AfterPrompt(s, env, Some(prompt));
      var history := s.previousMessages + [UserText(prompt)];
      && r.1.Some? && r.0 == s.(shouldShowSystemPrompt := false, previousMessages := r.0.previousMessages)
      && history <= r.0.previousMessages
      && forall j: nat :: |history| + 2 * j < |r.0.previousMessages| ==> IterationPair(r.0.previousMessages, |history|, j)
  {
    TurnAppendsPairs(AgentRequest(s), env, prompt);
    assert AfterPrompt(s, env, Some(prompt)).0.previousMessages == AgentTurn(AgentRequest(s), env, prompt).messages;
  }

  /** The agent `_handle_user_prompt` creates, given one message: its answer and its history afterwards. */
  method AskAgent(request: AgentParams, env: Environment, prompt: string) returns (answer: Json, messages: seq<Message>)
    ensures answer == AgentTurn(request, env, prompt).result && messages == AgentTurn(request, env, prompt).messages
  {
    var agent := new Agent(request, env.agentDefaults, env.agentOracles);
    answer := agent.AddUserMessage(prompt);
    messages := agent.GetPreviousMessages();
  }

  // ---------------------------------------------------------------------
  // The object
  // ---------------------------------------------------------------------

  /** `Conversation` */
  class Conversation {
    const env: Environment
    var model: string
    var shouldShowSystemPrompt: bool
    var initialUserInput: string
    var previousMessages: seq<Message>
    var isMultilineMode: bool
    var multilineUserInputs: seq<string>
    var enabledToolNames: seq<string>
    var availableTools: Dict<string, Tool>
    var input: seq<string>

    function State(): Session
      reads this
    {
      Session(model, shouldShowSystemPrompt, initialUserInput, previousMessages, isMultilineMode,
              multilineUserInputs, enabledToolNames, availableTools, input)
    }

    /** `__init__`: the conversation-history RAG tool is added to the available tools. */
    constructor(env: Environment, model: string, shouldShowSystemPrompt: bool, enabledToolNames: seq<string>,
                availableTools: Dict<string, Tool>, initialUserInput: string, conversationRag: Tool, input: seq<string>)
      ensures this.env == env
      ensures State() == Session(model, shouldShowSystemPrompt, initialUserInput, [], false, [], enabledToolNames,
                                 Put(availableTools, ToolName(conversationRag), conversationRag), input)
    {
      this.env := env;
      this.model := model;
      this.shouldShowSystemPrompt := shouldShowSystemPrompt;
      this.initialUserInput := initialUserInput;
      this.previousMessages := [];
      this.isMultilineMode := false;
      this.multilineUserInputs := [];
      this.enabledToolNames := enabledToolNames;
      this.availableTools := Put(availableTools, ToolName(conversationRag), conversationRag);
      this.input := input;
    }

    /** `_read_input` */
    method ReadInput() returns (line: string)
      modifies this
      ensures (input, line) == NextLine(old(input)) && State() == old(State()).(input := input)
    {
      if input == [] {
        return "";
      }
      line := Strip(input[0]);
      input := input[1..];
    }

    /** `_read_user_message` */
    method ReadUserMessage() returns (line: string)
      modifies this
      ensures (State(), line) == UserMessage(old(State()))
    {
      if initialUserInput != "" {
        line := initialUserInput;
        initialUserInput := "";
        return;
      }
      line := ReadInput();
    }

    /** `_read_param` */
    method ReadParam(defaultValue: string) returns (value: string)
      modifies this
      ensures (input, value) == ParamValue(old(input), defaultValue) && State() == old(State()).(input := input)
    {
      var newValue := ReadInput();
      if newValue != "" {
        return newValue;
      }
      return defaultValue;
    }

    /** `_add_tool` */
    method AddTool(toolName: string)
      modifies this
      ensures State() == WithToolAdded(old(State()), toolName)
    {
      if !HasKey(availableTools, toolName) {
        return;
      }
      if toolName in enabledToolNames {
        return;
      }
      enabledToolNames := enabledToolNames + [toolName];
    }

    /** `_remove_tool` */
    method RemoveTool(toolName: string)
      modifies this
      ensures State() == WithToolRemoved(old(State()), toolName)
    {
      if !HasKey(availableTools, toolName) {
        return;
      }
      if toolName !in enabledToolNames {
        return;
      }
      enabledToolNames := RemoveFirst(enabledToolNames, toolName);
    }

    /** The end of `_add_rag_tool` and `_add_git_diff_tool`: store the new tool and enable its name. */
    method EnableNewTool(toolName: string, tool: Tool)
      modifies this
      ensures State() == old(State()).(enabledToolNames := old(enabledToolNames) + [toolName],
                                       availableTools := Put(old(availableTools), toolName, tool))
    {
      enabledToolNames := enabledToolNames + [toolName];
      availableTools := Put(availableTools, toolName, tool);
    }

    /** `_add_rag_tool` */
    method AddRagTool() returns (outcome: Outcome<string>)
      modifies this
      ensures (State(), outcome) == WithRagTool(old(State()), env)
    {
      var documentDirectory := ReadParam("./document");
      var snakeDocumentDirectory := env.toSnakeCase(documentDirectory);
      var toolName := ReadParam("retrieve_from_" + snakeDocumentDirectory);
      var toolDescription := ReadParam("Retrieve info from " + documentDirectory);
      var model := ReadParam(env.ragEmbeddingModel);
      var vectorDbPath := ReadParam(documentDirectory + "-vector");
      var vectorDbCollection := ReadParam("documents");
      var chunkSizeText := ReadParam(env.ragChunkSize);
      var chunkSize := IntOf(env, chunkSizeText);
      if chunkSize.Failure? {
        return Fail(chunkSize.error);
      }
      var overlapText := ReadParam(env.ragOverlap);
      var overlap := IntOf(env, overlapText);
      if overlap.Failure? {
        return Fail(overlap.error);
      }
      var countText := ReadParam(env.ragMaxResultCount);
      var maxResultCount := IntOf(env, countText);
      if maxResultCount.Failure? {
        return Fail(maxResultCount.error);
      }
      var request := RagToolRequest(toolName, toolDescription, documentDirectory, model, vectorDbPath,
                                    vectorDbCollection, chunkSize.value, overlap.value, maxResultCount.value);
      EnableNewTool(toolName, env.createRag(request));
      return Pass;
    }

    /** `_add_git_diff_tool` */
    method AddGitDiffTool()
      modifies this
      ensures State() == WithGitDiffTool(old(State()), env)
    {
      var repoDirectory := ReadParam("./repo");
      var snakeRepoDirectory := env.toSnakeCase(repoDirectory);
      var toolName := ReadParam("get_changes_on_" + snakeRepoDirectory);
      var toolDescription := ReadParam("Retrieve changes on " + repoDirectory);
      var initialBranch := ReadParam("main");
      var newBranch := ReadParam("HEAD");
      var request := GitDiffToolRequest(toolName, toolDescription, repoDirectory, initialBranch, newBranch);
      EnableNewTool(toolName, env.createGetChanges(request));
    }

    /** `_process_model_command` */
    method ProcessModelCommand(line: string) returns (handled: bool)
      modifies this
      ensures handled == StartsWith(Lower(line), "/model")
      ensures State() == if handled then AfterModelCommand(old(State()), line) else old(State())
    {
      if StartsWith(Lower(line), "/model") {
        var arg := Subcommand("/model", line);
        if arg != "" {
          model := arg;
        }
        return true;
      }
      return false;
    }

    /** The loop of `_process_tool_command` over the names after "/tool add". */
    method AddTools(toolNames: seq<string>) returns (outcome: Outcome<string>)
      modifies this
      ensures (State(), outcome) == WithToolsAdded(old(State()), env, toolNames)
    {
      for i := 0 to |toolNames|
        invariant WithToolsAdded(old(State()), env, toolNames) == WithToolsAdded(State(), env, toolNames[i..])
      {
        var toolName := toolNames[i];
        assert toolNames[i..][1..] == toolNames[i + 1..];
        if toolName == "rag" {
          var added := AddRagTool();
          if added.Fail? {
            return added;
          }
        } else if toolName == "git_diff" {
          AddGitDiffTool();
        } else {
          AddTool(toolName);
        }
      }
      return Pass;
    }

    /** The loop of `_process_tool_command` over the names after "/tool rm". */
    method RemoveTools(toolNames: seq<string>)
      modifies this
      ensures State() == WithToolsRemoved(old(State()), toolNames)
    {
      for i := 0 to |toolNames|
        invariant WithToolsRemoved(old(State()), toolNames) == WithToolsRemoved(State(), toolNames[i..])
      {
        assert toolNames[i..][1..] == toolNames[i + 1..];
        RemoveTool(toolNames[i]);
      }
    }

    /** `_process_tool_command`; an exception from `int()` is returned as the failure. */
    method ProcessToolCommand(line: string) returns (handled: Result<bool, string>)
      modifies this
      ensures !IsToolCommand(Lower(line)) ==> handled == Success(false) && State() == old(State())
      ensures IsToolCommand(Lower(line)) ==>
        var (t, outcome) := AfterToolCommand(old(State()), env, line);
        && State() == t
        && handled == (if outcome.Pass? then Success(true) else Failure(outcome.error))
    {
      var lower := Lower(line);
      if lower == "/clear" {
        previousMessages := [];
        return Success(true);
      }
      if lower == "/tool" {
        return Success(true);
      }
      if StartsWith(lower, "/tool add") {
        var outcome := AddTools(Split(Subcommand("/tool add", line), " "));
        if outcome.Fail? {
          return Failure(outcome.error);
        }
        return Success(true);
      }
      if StartsWith(lower, "/tool rm") {
        RemoveTools(Split(Subcommand("/tool rm", line), " "));
        return Success(true);
      }
      return Success(false);
    }

    /** `_process_input`; an exception from `int()` is returned as the failure. */
    method ProcessInput(line: string) returns (r: Result<Option<string>, string>)
      modifies this
      ensures (State(), r) == AfterInput(old(State()), env, line)
    {
      if isMultilineMode {
        if Lower(line) == "/end" {
          isMultilineMode := false;
          return Success(Some(Join(multilineUserInputs, "\n")));
        }
        multilineUserInputs := multilineUserInputs + [line];
        return Success(None);
      }
      if Lower(line) in MultilineCommands {
        isMultilineMode := true;
        multilineUserInputs := [];
        return Success(None);
      }
      if Lower(line) in HelpCommands {
        return Success(None);
      }
      var handled := ProcessModelCommand(line);
      if handled {
        return Success(None);
      }
      var toolHandled := ProcessToolCommand(line);
      if toolHandled.Failure? {
        return Failure(toolHandled.error);
      }
      if toolHandled.value {
        return Success(None);
      }
      if StartsWith(line, "/") {
        return Success(None);
      }
      return Success(Some(line));
    }

    /** The two fields `_handle_user_prompt` sets around the agent's run. */
    method Answered(messages: seq<Message>)
      modifies this
      ensures State() == old(State()).(shouldShowSystemPrompt := false, previousMessages := messages)
    {
      shouldShowSystemPrompt := false;
      previousMessages := messages;
    }

    /** `_handle_user_prompt`: returns the agent's answer, which the source prints. */
    method HandleUserPrompt(userPrompt: Option<string>) returns (result: Option<Json>)
      modifies this
      ensures (State(), result) == AfterPrompt(old(State()), env, userPrompt)
    {
      if userPrompt == None || userPrompt.value == "" {
        return None;
      }
      var answer, messages := AskAgent(AgentRequest(State()), env, userPrompt.value);
      Answered(messages);
      return Some(answer);
    }
  }
}
