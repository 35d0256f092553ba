# zrb-ollama: a verified model of the agent loop and the interactive conversation

zrb-ollama drives a language model as a tool-calling agent. This project
models the core of that agent and proves properties of the model:

- **The agent** (`Agent`). It keeps a message history. For each user message it
  asks the model for a reply, at most `max_iteration` times. It extracts a JSON
  decision `{thought, function, arguments}` from the reply. The extraction tries
  the whole reply, then a fenced code block, then the first balanced brace span,
  and finally asks a fixer completion. It validates the call against the
  function schemas and runs the function. It then appends a `format_error`,
  `function_call_error` or `function_call_ok` feedback message. It stops when
  `finish_conversation` sets the `_finished` flag.
- **The function schemas.** `extract_metadata` and `_parse_annotation` turn a
  Python signature into a JSON schema. `get_metadata_signature` renders
  `name(a: t, ...) -> ret`.
- **The interactive conversation** (`Conversation`). It reads lines and handles
  these slash commands: `/multi` … `/end`, `/help`, `/model`, `/clear`, `/tool`,
  `/tool add`, `/tool rm`. `/tool add rag` and `/tool add git_diff` ask for
  parameters line by line. Every other line goes to a fresh agent.
- **The interactive tool registry** (`_InteractiveTools`).
- **The Python and Bash REPL sanitisers.** They take the body of the first fenced
  code block out of a script. They then drop one pair of enclosing back-quotes:
  Python does this for multi-line scripts and Bash for one-line scripts.
- **The git diff splitter** of `create_get_changes`.
- **The RAG tool** of `create_rag`. It chunks the document with overlap, gives
  each chunk an id, embeds it, and builds the query.

## Modules

| file | module | models |
|---|---|---|
| `wrappers.dfy` | `Wrappers` | `Option`, `Result` and `Outcome` (pass or fail with an error) |
| `strings.dfy` | `Strings` | the string built-ins used by the source: `strip`, `lower`, `split`, `join`, `startswith`, `find`, decimal rendering |
| `dicts.dfy` | `Dicts` | Python's insertion-ordered `dict`, as a sequence of key/value pairs |
| `json.dfy` | `JsonValues` | JSON values (objects keep their key order) |
| `schema.dfy` | `Schema` | `agent/_helper.py` |
| `extraction.dfy` | `Extraction` | `_extract_agent_message`, `_get_json_start_and_end`, `_validate_agent_message` |
| `agent.dfy` | `AgentLoop` | the `Agent` class: construction, the history, validation, the call and the loop |
| `interactive_tools.dfy` | `InteractiveToolRegistry` | `interactive/tool.py` |
| `conversation.dfy` | `InteractiveConversation` | `interactive/conversation.py` |
| `code_fences.dfy` | `CodeFences` | the multi-line sanitiser shared by both REPL tools |
| `python_repl.dfy` | `PythonRepl` | the Python REPL sanitiser (two identical copies) |
| `bash_repl.dfy` | `BashRepl` | the Bash REPL sanitiser |
| `git_changes.dfy` | `GitChanges` | `tools/git.py` |
| `rag.dfy` | `RagIndex` | `tools/rag.py` |

### How state is modelled

- The state-changing classes become Dafny classes: `Agent`, `Conversation` and
  `InteractiveTools`.
- Each method is proved equal to a specification function. For the agent loop
  that function is `Run`; for a conversation line it is `AfterInput`.
- The properties are proved as lemmas about those functions.
- The outside world is passed in as values:
  - the language model is a completion function from (model, messages) to text;
  - `json_repair.loads` is a parse function that returns `None` where it raises;
  - `template.format` is a function of the prompt fields;
  - `git show` is a function from its argument to its output or error;
  - standard input is the sequence of lines not read yet.

## Model

| member | source | states |
|---|---|---|
| `Schema.Unwrap` | src/zrb_ollama/agent/_helper.py:76-81 | Flattening nested `Annotated` yields a base type that is not itself annotated and is strictly smaller. |
| `Schema.ParseAnnotation` | src/zrb_ollama/agent/_helper.py:74-98 | An annotated hint is exactly one that gets a description: its first metadata string, or "". A `Literal` keeps its values. A container has one element entry per type argument. A `dict` has a key and a value. A plain class gives its name. The lemmas below state what each compound entry holds. |
| `Schema.ParamSchemaOf` | src/zrb_ollama/agent/_helper.py:52-63 | A parameter is required exactly when it has no default. A missing default is recorded as null. The type information is the parsed annotation. |
| `Schema.ParamNames` | src/zrb_ollama/agent/_helper.py:52 | One name per parameter, position by position. |
| `Schema.ExtractMetadata` | src/zrb_ollama/agent/_helper.py:36-71 | The loop that fills the argument dictionary one parameter at a time computes the specified schema. |
| `Schema.ArgumentsInDeclarationOrder` | src/zrb_ollama/agent/_helper.py:51-63 | With distinct parameter names, the argument dictionary has exactly one entry per parameter, in declaration order, each holding that parameter's schema. |
| `Schema.LastNameIsNew` | src/zrb_ollama/agent/_helper.py:63 | With distinct names, the last parameter's name is not among the keys already assigned, so assigning it appends. |
| `Schema.GetMetadataDescription` | src/zrb_ollama/agent/_helper.py:13-17 | The description, or "" when there is none. |
| `Schema.Quoted` | src/zrb_ollama/agent/_helper.py:28 | Every literal value is rendered as `str(v)` and wrapped in double quotes, in order. |
| `Schema.ArgEntries` | src/zrb_ollama/agent/_helper.py:25-30 | One `name: type` entry per argument, in schema order. |
| `Schema.ArgEntriesSnoc` | src/zrb_ollama/agent/_helper.py:25-30 | Adding one argument adds exactly its entry at the end. |
| `Schema.SignatureListsEveryArgument` | src/zrb_ollama/agent/_helper.py:20-33 | When no entry contains ", ", splitting the argument text of the signature on ", " gives back exactly the per-argument entries: each argument appears once, in order. |
| `Schema.GetMetadataSignature` | src/zrb_ollama/agent/_helper.py:20-33 | The loop over the arguments produces `name(a1: t1, ..., an: tn) -> ret`. |
| `Schema.TypeInfoJson` | src/zrb_ollama/agent/_helper.py:74-98 | The parsed hint is a JSON object whose first key is "type". It has a "description" key exactly when the hint was annotated. `Literal` values keep their JSON kind (see `LiteralSchemaKeepsValues`). |
| `Schema.ParamSchemaJson` | src/zrb_ollama/agent/_helper.py:54-63 | An argument's dictionary holds its "type", its "default" and its "required" flag. |
| `Schema.FunctionSchemaJson` | src/zrb_ollama/agent/_helper.py:64-71 | The function dictionary has exactly the keys name, description, arguments, return, in that order. "arguments" maps every argument to its dictionary. |
| `Schema.LiteralJson` | src/zrb_ollama/agent/_helper.py:85 | A `Literal` value serialises to JSON of its own kind: a string, a number, a boolean or null. |
| `Schema.LiteralJsonInjective` | src/zrb_ollama/agent/_helper.py:85 | Distinct literal values serialise to distinct JSON values. |
| `Schema.SignatureTextConflatesKinds` | src/zrb_ollama/agent/_helper.py:26-29 | The signature renders `Literal[1]` like `Literal["1"]` and `Literal[True]` like `Literal["True"]`, while the JSON schema keeps them apart. |
| `Schema.AnnotatedParsesAsBase` | src/zrb_ollama/agent/_helper.py:77-83 | `Annotated[T, m, ...]` parses as `T`, with `m` as its description. Its JSON dictionary is `T`'s with "description" added last. |
| `Schema.NestedFlattens` | src/zrb_ollama/agent/_helper.py:76-83 | A nested `Annotated` parses like one `Annotated` that holds all the metadata, outer metadata last. |
| `Schema.ElementsParse` | src/zrb_ollama/agent/_helper.py:86-90 | Element i of a container's schema is the parse of type argument i. |
| `Schema.DictParses` | src/zrb_ollama/agent/_helper.py:91-97 | A `dict[K, V]` schema holds the parse of `K` as its key type and the parse of `V` as its value type. |
| `Schema.LiteralSchemaKeepsValues` | src/zrb_ollama/agent/_helper.py:84-85 | A `Literal` dictionary has exactly the keys "type" and "values". The values array holds every value in order, each as JSON of its own kind. |
| `Schema.ArgumentsOf` | src/zrb_ollama/agent/_helper.py:51-63 | Defines the argument dictionary after each parameter is assigned in turn. `ArgumentsInDeclarationOrder` states its contents. |
| `Schema.MetadataOf` | src/zrb_ollama/agent/_helper.py:36-71 | Defines the specified schema: name, docstring, argument dictionary and parsed return hint. `ExtractMetadata` is proved to compute it. |
| `Schema.SignatureOf` | src/zrb_ollama/agent/_helper.py:20-33 | Defines `name(entries joined by ", ") -> return type`. `GetMetadataSignature` is proved to compute it, and `SignatureListsEveryArgument` shows that each argument appears once, in order. |
| `Extraction.FieldComplaints` | src/zrb_ollama/agent/agent.py:454-468 | A field draws no complaint exactly when it is present with the expected type. It draws at most one. |
| `Extraction.ShapeComplaintsEmptyIff` | src/zrb_ollama/agent/agent.py:453-478 | A mapping has no complaint exactly when `thought` and `function` are strings and `arguments` is an object. |
| `Extraction.ShapeComplaintsNameEachViolation` | src/zrb_ollama/agent/agent.py:454-468 | Each missing field, and a non-object `arguments`, is reported with its own message exactly when it occurs. |
| `Extraction.MessagesDiffer` | src/zrb_ollama/agent/agent.py:454-468 | The six complaint messages are pairwise distinct, so the complaint list identifies the violations. |
| `Extraction.CheckField` | src/zrb_ollama/agent/agent.py:455-468 | The two checks on one field. On a dict they give exactly that field's complaints. On a list or str they give TypeError when the key is held, and the "missing" complaint otherwise. |
| `Extraction.ValidateAgentMessage` | src/zrb_ollama/agent/agent.py:453-478 | Passes exactly on the decision shape. A dict fails with every complaint. A list or str fails with TypeError when it holds one of the three keys, since indexing it with a key raises; otherwise it fails with the three "missing" complaints. Any other value fails with TypeError from `in`. |
| `Extraction.FenceAt` | src/zrb_ollama/agent/agent.py:397-401 | Only a json fence or a plain fence followed by `{` opens a match at a position. |
| `Extraction.FenceMatchAt` | src/zrb_ollama/agent/agent.py:397-401 | A match at a position gives a group that starts with `{` and ends with `}`, followed by a newline and a closing fence. |
| `Extraction.FenceGroup` | src/zrb_ollama/agent/agent.py:397-401 | The closing fence found after an opener delimits a brace-bounded group right after the opener. |
| `Extraction.FindFence` | src/zrb_ollama/agent/agent.py:397-401 | `re.search` reports a position at or after the start where the pattern matches. |
| `Extraction.FindFenceLeftmost` | src/zrb_ollama/agent/agent.py:397-401 | No earlier position matches: the search reports the leftmost match, or none. |
| `Extraction.GetJsonStartAndEnd` | src/zrb_ollama/agent/agent.py:434-448 | The brace-stack loop computes the specified (start, end) scan. |
| `Extraction.BalanceSnoc` | src/zrb_ollama/agent/agent.py:437-447 | The brace balance changes by +1 for `{`, by -1 for `}`, and by 0 for anything else. |
| `Extraction.BalanceStep` | src/zrb_ollama/agent/agent.py:437-447 | The same fact, for one more character of a slice. |
| `Extraction.ScanStart` | src/zrb_ollama/agent/agent.py:434-448 | The start is the first `{` of the text, and -1 exactly when there is none. |
| `Extraction.ScanEnd` | src/zrb_ollama/agent/agent.py:434-448 | A reported span starts with `{`, ends with `}`, and is balanced. Every proper prefix of it has more `{` than `}`. |
| `Extraction.ScanUnclosed` | src/zrb_ollama/agent/agent.py:434-448 | A start without an end means the depth never returns to zero. |
| `Extraction.ScanStep` | src/zrb_ollama/agent/agent.py:437-447 | One character of the scan keeps the open-brace facts, or closes a balanced span. |
| `Extraction.JsonSpanProperties` | src/zrb_ollama/agent/agent.py:434-448 | On a whole reply: the start is the first `{` (or -1 if there is none); a reported end closes a balanced span; no end means the brace never closes. |
| `Extraction.TryCandidate` | src/zrb_ollama/agent/agent.py:392-432 | A candidate counts exactly when it parses and has the decision shape. |
| `Extraction.Candidates` | src/zrb_ollama/agent/agent.py:392-432 | The strategies try the whole reply first, then at most two more texts. |
| `Extraction.FirstValid` | src/zrb_ollama/agent/agent.py:392-432 | What the strategies return always has the decision shape. |
| `Extraction.FirstValidPicksFirst` | src/zrb_ollama/agent/agent.py:392-432 | The first candidate that counts is returned, and nothing is returned when none counts. |
| `Extraction.ExtractAgentMessage` | src/zrb_ollama/agent/agent.py:390-432 | An extracted message always has the decision shape. |
| `Extraction.ExtractionTriesStrategiesInOrder` | src/zrb_ollama/agent/agent.py:390-432 | Extraction is exactly "the first of whole reply, fenced block, brace span that parses and passes validation". |
| `Extraction.WholeReplyFirst` | src/zrb_ollama/agent/agent.py:391-394 | A reply that is itself a valid decision is taken as it is. |
| `Extraction.NoBraceNoDecision` | src/zrb_ollama/agent/agent.py:390-432 | A reply without `{` that is not itself a decision is malformed. |
| `Extraction.PyIn` | src/zrb_ollama/agent/agent.py:455-466 | Python's `key in j`: a dict tests its keys, a list its items and a str its substrings. On any other value `in` raises. |
| `Extraction.NonMappingCases` | src/zrb_ollama/agent/agent.py:455-468 | An empty list and an empty str hold none of the keys, so they draw the three "missing" complaints. The str "thought" holds one, so indexing it raises. |
| `Extraction.IsAgentMessage` | src/zrb_ollama/agent/agent.py:453-468 | Defines the decision shape: `thought` and `function` are strings and `arguments` is an object. `ShapeComplaintsEmptyIff` ties it to the complaints. |
| `Extraction.ShapeComplaints` | src/zrb_ollama/agent/agent.py:454-468 | Defines the complaint list: `thought`, then `function`, then `arguments`. `ShapeComplaintsNameEachViolation` states which message appears for which violation. |
| `Extraction.FencedJson` | src/zrb_ollama/agent/agent.py:397-401 | Defines group 2 of the leftmost fence match. `FindFence`, `FindFenceLeftmost` and `FenceMatchAt` state its properties. |
| `Extraction.ScanBraces` | src/zrb_ollama/agent/agent.py:434-448 | Defines the brace scan from a position, depth and start. `ScanStart`, `ScanEnd`, `ScanUnclosed` and `ScanStep` state what it returns. |
| `Extraction.JsonSpan` | src/zrb_ollama/agent/agent.py:434-448 | Defines the pair that `_get_json_start_and_end` returns. `JsonSpanProperties` states it: the first brace, a balanced and minimal span, or an unclosed brace. |
| `AgentLoop.StringArray` | src/zrb_ollama/agent/agent.py:329-332 | A list of names becomes a JSON array of the same strings, in order. |
| `AgentLoop.ArgumentDetails` | src/zrb_ollama/agent/agent.py:327-332 | The INVALID ARGUMENTS details hold `missing_arguments` exactly when some are missing, and `invalid_arguments` exactly when some are unknown, each with the list. |
| `AgentLoop.ErrorPayload` | src/zrb_ollama/agent/agent.py:294-356 | Every error the model reads back is an object of four keys, from "error" to "required_action". |
| `AgentLoop.SchemaMap` | src/zrb_ollama/agent/agent.py:74-76 | The schema dictionary has each function name once. |
| `AgentLoop.FunctionMap` | src/zrb_ollama/agent/agent.py:92 | The function dictionary has each function name once. |
| `AgentLoop.Quote` | src/zrb_ollama/agent/agent.py:93 | One back-quoted name per function name. |
| `AgentLoop.Callables` | src/zrb_ollama/agent/agent.py:66 | `finish_conversation` comes first, then every given tool at the next position. |
| `AgentLoop.MakeConfig` | src/zrb_ollama/agent/agent.py:29-109 | The constructor's derived data: the callables, and the schema and function dictionaries built from them. |
| `AgentLoop.SameKeys` | src/zrb_ollama/agent/agent.py:74-92 | The schema dictionary and the function dictionary have the same keys, in the same order. |
| `AgentLoop.FinishFirst` | src/zrb_ollama/agent/agent.py:45-92 | Unless a tool has the same name, `finish_conversation` is what the agent calls by that name. |
| `AgentLoop.FinishNameFirst` | src/zrb_ollama/agent/agent.py:74-76 | `finish_conversation` is always the first function name listed. |
| `AgentLoop.FinishNotReplaced` | src/zrb_ollama/agent/agent.py:92 | Later entries with other names leave `finish_conversation` in place. |
| `AgentLoop.MessagesFor` | src/zrb_ollama/agent/agent.py:129-145 | The request is the system message, "Hi", the greeting reply, then the history unchanged. |
| `AgentLoop.MissingArguments` | src/zrb_ollama/agent/agent.py:318-321 | Exactly the required schema arguments that the call lacks. It is empty exactly when every required argument is given. |
| `AgentLoop.UnknownArguments` | src/zrb_ollama/agent/agent.py:322-325 | Exactly the given arguments that the schema lacks. It is empty exactly when every given argument is declared. |
| `AgentLoop.CollectMissingArguments` | src/zrb_ollama/agent/agent.py:316-321 | The first loop collects exactly the missing required arguments, in schema order (see `MissingArguments`). |
| `AgentLoop.CollectUnknownArguments` | src/zrb_ollama/agent/agent.py:317-325 | The second loop collects exactly the undeclared arguments, in call order (see `UnknownArguments`). |
| `AgentLoop.CheckCallPassesIff` | src/zrb_ollama/agent/agent.py:304-340 | A call passes validation exactly when the function is known, every required argument is present and every present argument is declared. |
| `AgentLoop.UnknownFunctionListsValidNames` | src/zrb_ollama/agent/agent.py:307-315 | An unknown function is rejected with the full list of valid names. |
| `AgentLoop.CallFunction` | src/zrb_ollama/agent/agent.py:342-356 | Only a successful `finish_conversation` call sets `_finished`. |
| `AgentLoop.FinishReturnsFinalAnswer` | src/zrb_ollama/agent/agent.py:45-52 | `finish_conversation` sets `_finished` and returns its `final_answer` unchanged. |
| `AgentLoop.Dispatch` | src/zrb_ollama/agent/agent.py:180-198 | A function result exists only for a call that passed validation. `_finished` is set only on success. |
| `AgentLoop.ExtractWithFixer` | src/zrb_ollama/agent/agent.py:358-388 | The fixer is asked exactly when the local strategies fail, with the fixer request built from the user message and the reply. Any result has the decision shape. |
| `AgentLoop.Reaction` | src/zrb_ollama/agent/agent.py:176-198 | The feedback is `function_call_ok` or `function_call_error`. An error never sets `_finished` and yields no result. |
| `AgentLoop.Step` | src/zrb_ollama/agent/agent.py:151-201 | Every iteration sends the current messages and appends an assistant reply and one feedback message. It returns only with `_finished` set, and always returns when it sets `_finished`. |
| `AgentLoop.StepMalformed` | src/zrb_ollama/agent/agent.py:161-175 | A reply that cannot be extracted appends the raw reply and a MALFORMED RESPONSE `format_error`, and continues with `_finished` unchanged. |
| `AgentLoop.StepDecided` | src/zrb_ollama/agent/agent.py:166-201 | An extracted decision appends the serialised decision and the reaction's feedback. The loop stops exactly when `_finished` is now set. |
| `AgentLoop.FirstPair` | src/zrb_ollama/agent/agent.py:151-201 | One iteration's two messages form a reply-and-feedback pair. |
| `AgentLoop.PairInPrefix` | src/zrb_ollama/agent/agent.py:151-201 | Later appends keep earlier pairs. |
| `AgentLoop.PairsShift` | src/zrb_ollama/agent/agent.py:151-201 | The pairs of later iterations line up after the first one's. |
| `AgentLoop.Loop` | src/zrb_ollama/agent/agent.py:151-202 | At most `k` requests; the history only grows, by two messages per request, in pairs. A return happens only with `_finished` set; running out resets `_finished` and returns None. |
| `AgentLoop.StepOf` | src/zrb_ollama/agent/agent.py:151-201 | The iteration body as a function of history and flag, and every iteration is pair-shaped. |
| `AgentLoop.Run` | src/zrb_ollama/agent/agent.py:147-202 | The loop of `add_user_message` over the agent's own step. The same bounds as `Loop`, and the first request is the system, greeting and history messages. |
| `AgentLoop.RunAppendsPairs` | src/zrb_ollama/agent/agent.py:151-202 | After a run, the history is the old history followed by nothing but whole reply-and-feedback pairs. |
| `AgentLoop.RunFirstStep` | src/zrb_ollama/agent/agent.py:151-201 | A run is its first iteration followed by the run on the extended history. |
| `AgentLoop.FormatErrorContinues` | src/zrb_ollama/agent/agent.py:167-175 | An unparseable reply never ends the loop. |
| `AgentLoop.FinishEndsTheLoop` | src/zrb_ollama/agent/agent.py:180-200 | A decision calling `finish_conversation` with its argument ends the loop and returns the final answer. |
| `AgentLoop.StaleFinishedStopsAtFirstCall` | src/zrb_ollama/agent/agent.py:186-201 | `_finished` is not reset on entry, so an agent that finished before returns at the first decision of the next call. |
| `AgentLoop.Agent.constructor` | src/zrb_ollama/agent/agent.py:29-109 | The configuration is `MakeConfig` of the arguments. The history is the given one, and `_finished` is false. |
| `AgentLoop.Agent.GetSystemMessage` | src/zrb_ollama/agent/agent.py:123-124 | The system message built at construction. |
| `AgentLoop.Agent.GetPreviousMessages` | src/zrb_ollama/agent/agent.py:126-127 | The history itself. |
| `AgentLoop.Agent.GetMessages` | src/zrb_ollama/agent/agent.py:129-145 | The fixed prefix followed by the history (see `MessagesFor`). |
| `AgentLoop.Agent.AppendMessage` | src/zrb_ollama/agent/agent.py:279-280 | The history gains exactly that message at the end. |
| `AgentLoop.Agent.AppendUserMessage` | src/zrb_ollama/agent/agent.py:216-218 | The history gains the user message. |
| `AgentLoop.Agent.AppendAgentMessage` | src/zrb_ollama/agent/agent.py:220-222 | The history gains the assistant message. |
| `AgentLoop.Agent.AppendFormatError` | src/zrb_ollama/agent/agent.py:224-238 | The history gains the `format_error` feedback. |
| `AgentLoop.Agent.AppendFunctionCallError` | src/zrb_ollama/agent/agent.py:240-258 | The history gains the `function_call_error` feedback. |
| `AgentLoop.Agent.AppendFunctionCallOk` | src/zrb_ollama/agent/agent.py:260-277 | The history gains the `function_call_ok` feedback. |
| `AgentLoop.Agent.ValidateFunctionCall` | src/zrb_ollama/agent/agent.py:304-340 | The two passes over the arguments compute the validation outcome specified by `CheckCall`. |
| `AgentLoop.Agent.ExecuteFunction` | src/zrb_ollama/agent/agent.py:342-356 | The call's result or EXECUTION FAILED. `_finished` is set only by a successful `finish_conversation`. The history is unchanged. |
| `AgentLoop.Agent.ExtractAgentMessageWithLlm` | src/zrb_ollama/agent/agent.py:358-388 | The decision `ExtractWithFixer` specifies. |
| `AgentLoop.Agent.Respond` | src/zrb_ollama/agent/agent.py:176-198 | Validate, call, and append exactly the reaction's feedback. |
| `AgentLoop.Agent.Iterate` | src/zrb_ollama/agent/agent.py:152-201 | One loop body: the history and the flag change as `Step` says. |
| `AgentLoop.Agent.AddUserMessage` | src/zrb_ollama/agent/agent.py:147-202 | The history, the flag and the result are those of `Run` on the history extended with the user message. |
| `AgentLoop.ResponseFormat` | src/zrb_ollama/agent/agent.py:93-101 | Defines the `_response_format` example: thought, function, which lists every function name back-quoted, and two placeholder arguments. |
| `AgentLoop.SystemMessage` | src/zrb_ollama/agent/agent.py:102-121 | Defines the system message: the template formatted with the prompt, the response format, the function names, the signature list and the schemas. |
| `AgentLoop.FormatErrorFeedback` | src/zrb_ollama/agent/agent.py:224-238 | Defines the `format_error` payload: type, details, error payload and original user message, in that order. |
| `AgentLoop.FunctionCallErrorFeedback` | src/zrb_ollama/agent/agent.py:240-258 | Defines the `function_call_error` payload: type, details, function, arguments, error payload and original user message. |
| `AgentLoop.FunctionCallOkFeedback` | src/zrb_ollama/agent/agent.py:260-277 | Defines the `function_call_ok` payload: type, function, arguments, result and original user message. |
| `AgentLoop.CheckCall` | src/zrb_ollama/agent/agent.py:304-340 | Defines what `_validate_function_call` raises. `CheckCallPassesIff` and `UnknownFunctionListsValidNames` state it, and `ValidateFunctionCall` is proved to compute it. |
| `AgentLoop.FixerRequest` | src/zrb_ollama/agent/agent.py:367-383 | Defines the fixer request: the fixer system message, then one user message that joins the four lines with newlines. |
| `AgentLoop.Iterations` | src/zrb_ollama/agent/agent.py:151 | Defines the number of passes `range(max_iteration)` allows: none when `max_iteration` is not positive. |
| `InteractiveToolRegistry.InitialTools` | src/zrb_ollama/interactive/tool.py:17-23 | The five built-in tools under their names, in order, each name once. |
| `InteractiveToolRegistry.RegisteredEnables` | src/zrb_ollama/interactive/tool.py:25-30 | After registration the enabled names are the old ones followed by the newly registered names not enabled before. No name is enabled twice. |
| `InteractiveToolRegistry.RegisteredStores` | src/zrb_ollama/interactive/tool.py:25-30 | Every registered tool is stored under its name; the last one registered under a name wins. Other names keep their tools. |
| `InteractiveToolRegistry.RegisterTwice` | src/zrb_ollama/interactive/tool.py:25-30 | Registering the same tool twice is the same as registering it once. |
| `InteractiveToolRegistry.InteractiveTools.constructor` | src/zrb_ollama/interactive/tool.py:15-23 | A copy of the enabled names and the built-in tools. |
| `InteractiveToolRegistry.InteractiveTools.Register` | src/zrb_ollama/interactive/tool.py:25-30 | The loop updates both fields as `Registered` specifies. |
| `InteractiveToolRegistry.InteractiveTools.GetAvailableTools` | src/zrb_ollama/interactive/tool.py:32-33 | The registry's tool dictionary. |
| `InteractiveToolRegistry.InteractiveTools.GetEnabledToolNames` | src/zrb_ollama/interactive/tool.py:35-36 | The registry's enabled names. |
| `InteractiveToolRegistry.Registered` | src/zrb_ollama/interactive/tool.py:25-30 | Defines the dictionary and the enabled names after each tool is registered in turn. `RegisteredEnables`, `RegisteredStores` and `RegisterTwice` state its properties. |
| `InteractiveConversation.ParamFallback` | src/zrb_ollama/interactive/conversation.py:218-236 | A parameter consumes one line. It is that line stripped, or the default when the line is blank or the input has ended. |
| `InteractiveConversation.InitialInputOnce` | src/zrb_ollama/interactive/conversation.py:87-99 | The initial input is the first message and is used once. The next message is the next line of input. |
| `InteractiveConversation.Subcommand` | src/zrb_ollama/interactive/conversation.py:238-245 | The stripped rest of the line after the command when the lower-cased line is longer than the command and starts with it, and "" otherwise. |
| `InteractiveConversation.SubcommandOfArgument` | src/zrb_ollama/interactive/conversation.py:238-245 | A command, a space and a stripped argument give back the argument. |
| `InteractiveConversation.WithToolAdded` | src/zrb_ollama/interactive/conversation.py:247-254 | `_add_tool` enables the name exactly when it is available and not yet enabled, keeps the earlier names, keeps the list free of repetitions, and changes nothing else. |
| `InteractiveConversation.RemoveFirst` | src/zrb_ollama/interactive/conversation.py:263 | `list.remove` takes out one occurrence when there is one, as a multiset difference, and changes nothing otherwise. |
| `InteractiveConversation.RemoveFirstDistinct` | src/zrb_ollama/interactive/conversation.py:263 | On a list without repetitions, the name is gone completely and nothing else is. |
| `InteractiveConversation.WithToolRemoved` | src/zrb_ollama/interactive/conversation.py:256-263 | `_remove_tool` changes nothing unless the name is available and enabled. Otherwise, on a list without repetitions, it disables exactly that name. |
| `InteractiveConversation.AddThenRemove` | src/zrb_ollama/interactive/conversation.py:247-263 | Enabling an available, disabled tool and disabling it again restores the state. |
| `InteractiveConversation.BlankParam` | src/zrb_ollama/interactive/conversation.py:218-233 | On blank input a parameter takes its default and the rest stays blank. |
| `InteractiveConversation.RagRequestDefaults` | src/zrb_ollama/interactive/conversation.py:157-187 | With only blank lines, the RAG tool reads "./document", is named `retrieve_from_<snake path>`, and uses "./document-vector", "documents" and the configured model and numbers. |
| `InteractiveConversation.RagToolAdded` | src/zrb_ollama/interactive/conversation.py:157-187 | When every number parses, the new name is appended, even if it is already enabled. The new tool replaces any tool under that name. Only the input, the names and the tools change. |
| `InteractiveConversation.RagToolRejected` | src/zrb_ollama/interactive/conversation.py:171-175 | A number `int()` rejects aborts with its error, after consuming the lines read so far. |
| `InteractiveConversation.GitDiffRequestDefaults` | src/zrb_ollama/interactive/conversation.py:189-207 | With only blank lines, the git tool compares "main" with "HEAD" in "./repo", named `get_changes_on_<snake path>`. |
| `InteractiveConversation.GitDiffToolAdded` | src/zrb_ollama/interactive/conversation.py:189-207 | The new name is appended and the new tool stored under it. Other tools are untouched and only the input, the names and the tools change. |
| `InteractiveConversation.ToolsAdded` | src/zrb_ollama/interactive/conversation.py:138-148 | `/tool add` with ordinary names enables exactly the available names not yet enabled, keeps the earlier order, and repeats no name. |
| `InteractiveConversation.ToolsRemoved` | src/zrb_ollama/interactive/conversation.py:149-154 | `/tool rm` disables exactly the named available tools and changes nothing else. |
| `InteractiveConversation.PlainLineIsPrompt` | src/zrb_ollama/interactive/conversation.py:101-122 | Outside multi-line mode a line not starting with "/" is the prompt and changes nothing. A line starting with "/" is never a prompt. |
| `InteractiveConversation.Feed` | src/zrb_ollama/interactive/conversation.py:101-122 | One reply per line fed. |
| `InteractiveConversation.BufferLines` | src/zrb_ollama/interactive/conversation.py:102-107 | In multi-line mode every line other than "/end" is buffered, gives no prompt, and changes nothing else. |
| `InteractiveConversation.MultilineRoundTrip` | src/zrb_ollama/interactive/conversation.py:102-111 | "/multi", some lines, "/end" gives the lines joined by newlines as one prompt, and leaves only the buffer changed. |
| `InteractiveConversation.ClearEmptiesHistory` | src/zrb_ollama/interactive/conversation.py:131-134 | "/clear", in any case, empties the history and nothing else. |
| `InteractiveConversation.ModelCommandSetsModel` | src/zrb_ollama/interactive/conversation.py:209-216 | "/model name" switches to that model and changes nothing else. |
| `InteractiveConversation.ModelLine` | src/zrb_ollama/interactive/conversation.py:108-116 | A "/model …" line is not a multi-line or help command, and is a model command. |
| `InteractiveConversation.ModelCommandAlone` | src/zrb_ollama/interactive/conversation.py:209-216 | "/model" alone changes nothing. |
| `InteractiveConversation.ToolLine` | src/zrb_ollama/interactive/conversation.py:108-155 | "/tool add x" and "/tool rm x" reach exactly their own branch of `_process_tool_command`. |
| `InteractiveConversation.ToolArguments` | src/zrb_ollama/interactive/conversation.py:139-150 | The argument list of a tool command with one space-free name is that name. |
| `InteractiveConversation.ToolCommandInput` | src/zrb_ollama/interactive/conversation.py:112-117 | A tool command line is handled by `_process_tool_command` and gives no prompt. |
| `InteractiveConversation.ToolAddCommand` | src/zrb_ollama/interactive/conversation.py:138-148 | `/tool add name` runs the add loop on `[name]`. |
| `InteractiveConversation.ToolsAddedOne` | src/zrb_ollama/interactive/conversation.py:140-146 | A single ordinary name is only enabled. |
| `InteractiveConversation.ToolRemoveCommand` | src/zrb_ollama/interactive/conversation.py:149-154 | `/tool rm name` runs the remove loop on `[name]`. |
| `InteractiveConversation.ToolsRemovedOne` | src/zrb_ollama/interactive/conversation.py:151-152 | A single name is only disabled. |
| `InteractiveConversation.ToolAddEnables` | src/zrb_ollama/interactive/conversation.py:101-148 | "/tool add name", with an available name that is not enabled, appends it to the enabled tools and changes nothing else. |
| `InteractiveConversation.ToolAddThenRemove` | src/zrb_ollama/interactive/conversation.py:101-155 | "/tool add name" followed by "/tool rm name" restores the conversation. |
| `InteractiveConversation.EnabledTools` | src/zrb_ollama/interactive/conversation.py:72-76 | No more tools than are available. |
| `InteractiveConversation.EnabledToolsExactly` | src/zrb_ollama/interactive/conversation.py:72-76 | A tool reaches the agent exactly when it is stored under an enabled name. |
| `InteractiveConversation.TurnAppendsPairs` | src/zrb_ollama/interactive/conversation.py:70-85 | The fresh agent's history is the conversation's history, the prompt, then only whole reply-and-feedback pairs. |
| `InteractiveConversation.EmptyPromptIgnored` | src/zrb_ollama/interactive/conversation.py:68-69 | A missing or empty prompt changes nothing. |
| `InteractiveConversation.PromptExtendsHistory` | src/zrb_ollama/interactive/conversation.py:67-85 | A prompt yields an answer and hides the system prompt from then on. The history becomes the old one, the prompt, then whole reply-and-feedback pairs; nothing else changes. |
| `InteractiveConversation.AskAgent` | src/zrb_ollama/interactive/conversation.py:70-85 | The answer and history are those of the agent's run on the prompt. |
| `InteractiveConversation.Conversation.constructor` | src/zrb_ollama/interactive/conversation.py:35-51 | Empty history and buffer, not in multi-line mode, the conversation RAG tool stored under its name. |
| `InteractiveConversation.Conversation.ReadInput` | src/zrb_ollama/interactive/conversation.py:235-236 | One line is consumed and stripped ("" at the end). Nothing else changes. |
| `InteractiveConversation.Conversation.ReadUserMessage` | src/zrb_ollama/interactive/conversation.py:87-99 | The initial input once, then lines of input. |
| `InteractiveConversation.Conversation.ReadParam` | src/zrb_ollama/interactive/conversation.py:218-233 | The line read or the default. Only the input changes. |
| `InteractiveConversation.Conversation.AddTool` | src/zrb_ollama/interactive/conversation.py:247-254 | The state becomes `WithToolAdded`. |
| `InteractiveConversation.Conversation.RemoveTool` | src/zrb_ollama/interactive/conversation.py:256-263 | The state becomes `WithToolRemoved`. |
| `InteractiveConversation.Conversation.EnableNewTool` | src/zrb_ollama/interactive/conversation.py:176-177 | The name is appended and the tool stored under it; nothing else changes. |
| `InteractiveConversation.Conversation.AddRagTool` | src/zrb_ollama/interactive/conversation.py:157-187 | The state and outcome are `WithRagTool`'s (see `RagToolAdded`, `RagToolRejected`). |
| `InteractiveConversation.Conversation.AddGitDiffTool` | src/zrb_ollama/interactive/conversation.py:189-207 | The state is `WithGitDiffTool`'s (see `GitDiffToolAdded`). |
| `InteractiveConversation.Conversation.ProcessModelCommand` | src/zrb_ollama/interactive/conversation.py:209-216 | Handled exactly when the lower-cased line starts with "/model". Otherwise nothing changes. |
| `InteractiveConversation.Conversation.AddTools` | src/zrb_ollama/interactive/conversation.py:140-146 | The loop over the names does what `WithToolsAdded` specifies (see `ToolsAdded`). |
| `InteractiveConversation.Conversation.RemoveTools` | src/zrb_ollama/interactive/conversation.py:151-152 | The loop over the names does what `WithToolsRemoved` specifies (see `ToolsRemoved`). |
| `InteractiveConversation.Conversation.ProcessToolCommand` | src/zrb_ollama/interactive/conversation.py:130-155 | Unrecognised lines change nothing. Recognised lines are handled, and an `int()` error is passed on. |
| `InteractiveConversation.Conversation.ProcessInput` | src/zrb_ollama/interactive/conversation.py:101-122 | The state and the prompt are `AfterInput`'s (see the lemmas above). |
| `InteractiveConversation.Conversation.Answered` | src/zrb_ollama/interactive/conversation.py:82-85 | Only the history and the system-prompt flag change. |
| `InteractiveConversation.Conversation.HandleUserPrompt` | src/zrb_ollama/interactive/conversation.py:67-85 | The state and answer are `AfterPrompt`'s (see `PromptExtendsHistory`). |
| `InteractiveConversation.NextLine` | src/zrb_ollama/interactive/conversation.py:235-236 | Defines `_read_input`: one line is consumed and stripped; at the end of the input the result is "". `Conversation.ReadInput` computes it. |
| `InteractiveConversation.ParamValue` | src/zrb_ollama/interactive/conversation.py:218-233 | Defines `_read_param`: the line read, or the default. `ParamFallback` and `BlankParam` state it. |
| `InteractiveConversation.UserMessage` | src/zrb_ollama/interactive/conversation.py:87-99 | Defines `_read_user_message`. `InitialInputOnce` states that the initial input is used once. |
| `InteractiveConversation.RagRequestOf` | src/zrb_ollama/interactive/conversation.py:157-175 | Defines the nine parameter reads of `_add_rag_tool` with their defaults, stopping at the first `int()` failure. `RagRequestDefaults` and `RagToolRejected` state it. |
| `InteractiveConversation.WithRagTool` | src/zrb_ollama/interactive/conversation.py:157-187 | Defines `_add_rag_tool` on the session. `RagToolAdded` and `RagToolRejected` state it. |
| `InteractiveConversation.GitDiffRequestOf` | src/zrb_ollama/interactive/conversation.py:189-199 | Defines the five parameter reads of `_add_git_diff_tool` with their defaults. `GitDiffRequestDefaults` states them. |
| `InteractiveConversation.WithGitDiffTool` | src/zrb_ollama/interactive/conversation.py:189-207 | Defines `_add_git_diff_tool` on the session. `GitDiffToolAdded` states it. |
| `InteractiveConversation.WithNamedTool` | src/zrb_ollama/interactive/conversation.py:140-146 | Defines one name of `/tool add`: "rag" and "git_diff" create a tool, and any other name is enabled. `ToolsAddedOne` states the ordinary case. |
| `InteractiveConversation.WithToolsAdded` | src/zrb_ollama/interactive/conversation.py:139-146 | Defines the `/tool add` loop, ended by an exception. `ToolsAdded` states it. |
| `InteractiveConversation.WithToolsRemoved` | src/zrb_ollama/interactive/conversation.py:150-152 | Defines the `/tool rm` loop. `ToolsRemoved` states it. |
| `InteractiveConversation.AfterToolCommand` | src/zrb_ollama/interactive/conversation.py:130-154 | Defines `_process_tool_command` on a line it recognises. `ClearEmptiesHistory`, `ToolLine`, `ToolAddCommand` and `ToolRemoveCommand` state it. |
| `InteractiveConversation.AfterModelCommand` | src/zrb_ollama/interactive/conversation.py:209-216 | Defines `_process_model_command` on a line it recognises. `ModelCommandSetsModel` and `ModelCommandAlone` state it. |
| `InteractiveConversation.AfterInput` | src/zrb_ollama/interactive/conversation.py:101-122 | Defines `_process_input`: the new state and the prompt. `PlainLineIsPrompt`, `BufferLines`, `MultilineRoundTrip`, `ModelLine` and `ToolLine` state it. |
| `InteractiveConversation.AgentRequest` | src/zrb_ollama/interactive/conversation.py:70-81 | Defines the agent's constructor arguments: the model, the history and the enabled tools. `EnabledToolsExactly` states which tools are passed. |
| `InteractiveConversation.AfterPrompt` | src/zrb_ollama/interactive/conversation.py:67-85 | Defines `_handle_user_prompt`. `EmptyPromptIgnored` and `PromptExtendsHistory` state it. |
| `CodeFences.UntilFenceShape` | src/zrb_ollama/factory/tool/python_repl.py:66-74 | The body collected after the opener is a prefix of the remaining lines. |
| `CodeFences.FencedBodyShape` | src/zrb_ollama/factory/tool/python_repl.py:60-75 | Without an opener line the body is empty. Otherwise it is the lines after the first opener, up to the next fence line. |
| `CodeFences.NoFenceLineKept` | src/zrb_ollama/factory/tool/python_repl.py:66-74 | The body never contains a fence line. |
| `CodeFences.FirstOpener` | src/zrb_ollama/factory/tool/python_repl.py:66-74 | The first opener line: no earlier line is one. |
| `CodeFences.UntilFenceClosed` | src/zrb_ollama/factory/tool/python_repl.py:66-74 | A body followed by a fence line is collected exactly. |
| `CodeFences.ExtractedFromLines` | src/zrb_ollama/factory/tool/python_repl.py:60-75 | Sanitising is joining the fenced body of the script's lines. |
| `CodeFences.LinesWithoutNewline` | src/zrb_ollama/factory/tool/python_repl.py:63 | Lines split on newlines contain none. |
| `CodeFences.FencedLines` | src/zrb_ollama/factory/tool/python_repl.py:63 | A fenced block joined by newlines splits back into its lines. |
| `CodeFences.FencedRoundTrip` | src/zrb_ollama/factory/tool/python_repl.py:60-75 | Sanitising an opener, a body without fence or newline lines, and a fence gives back the body. |
| `CodeFences.CodeLines` | src/zrb_ollama/factory/tool/python_repl.py:62-74 | The line loop with its `is_code` flag computes the fenced body. |
| `CodeFences.SanitizeMultiline` | src/zrb_ollama/factory/tool/python_repl.py:60-75 | The whole multi-line sanitiser computes `Extracted`. |
| `CodeFences.UntilFence` | src/zrb_ollama/factory/tool/python_repl.py:66-73 | Defines the lines kept after the opener, up to the next closing fence. `UntilFenceShape` and `UntilFenceClosed` state it. |
| `CodeFences.FencedBody` | src/zrb_ollama/factory/tool/python_repl.py:63-74 | Defines the lines kept by the `is_code` loop. `FencedBodyShape`, `FirstOpener` and `NoFenceLineKept` state it, and `CodeLines` is proved to compute it. |
| `CodeFences.Extracted` | src/zrb_ollama/factory/tool/python_repl.py:60-75 | Defines the sanitiser's result: the stripped script, or the joined fenced body when it holds a fence. `FencedRoundTrip` and `ExtractedFromLines` state it. |
| `PythonRepl.Unquote` | src/zrb_ollama/factory/tool/python_repl.py:53-57 | A back-quoted script containing a newline loses exactly its outer back-quotes. Any other script is unchanged. |
| `PythonRepl.SanitizeMultilinePythonScript` | src/zrb_ollama/factory/helper/python_repl.py:39-54 | The fenced body for the python openers. |
| `PythonRepl.SanitizePythonScript` | src/zrb_ollama/factory/helper/python_repl.py:32-36 | Unquoting after extraction. |
| `PythonRepl.PythonBlockRoundTrip` | src/zrb_ollama/factory/tool/python_repl.py:53-75 | A python block whose body has no fence line gives back its body. |
| `BashRepl.UnquoteAsWritten` | src/zrb_ollama/factory/tool/bash_repl.py:54-58 | As written: fails exactly on the empty script (index out of range); strips outer back-quotes. |
| `BashRepl.Unquote` | src/zrb_ollama/factory/tool/bash_repl.py:54-58 | Corrected: never fails; strips the outer back-quotes of a quoted script; never lengthens it. |
| `BashRepl.UnquoteCorrectsAsWritten` | src/zrb_ollama/factory/tool/bash_repl.py:54-58 | The corrected version agrees wherever the original succeeds, and gives "" where it fails. |
| `BashRepl.SanitizeMultilineBashScript` | src/zrb_ollama/factory/tool/bash_repl.py:61-76 | The fenced body for the bash openers. |
| `BashRepl.SanitizeBashScriptAsWritten` | src/zrb_ollama/factory/tool/bash_repl.py:54-58 | As written, extraction then the failing unquote. |
| `BashRepl.SanitizeBashScript` | src/zrb_ollama/factory/tool/bash_repl.py:54-58 | Corrected, extraction then unquote. |
| `BashRepl.BlankScriptFailsAsWritten` | src/zrb_ollama/factory/tool/bash_repl.py:54-58 | A script whose extraction is empty makes the original fail; the corrected version returns "". |
| `BashRepl.EmptyBlockFailsAsWritten` | src/zrb_ollama/factory/tool/bash_repl.py:54-76 | An empty bash block is such a script. |
| `BashRepl.BashBlockRoundTrip` | src/zrb_ollama/factory/tool/bash_repl.py:54-76 | A bash block gives back its body. |
| `GitChanges.DropTwo` | src/zrb_ollama/tools/git.py:33 | `[2:]` drops exactly two characters, or leaves "" for shorter text. |
| `GitChanges.FileSegments` | src/zrb_ollama/tools/git.py:28-30 | Kept segments are at most as many as the segments. |
| `GitChanges.FileSegmentsNonBlank` | src/zrb_ollama/tools/git.py:28-30 | The kept segments are exactly the non-blank ones. |
| `GitChanges.Entry` | src/zrb_ollama/tools/git.py:32-52 | An entry exists exactly when `git show` succeeds; it holds the header path and the remaining lines. Otherwise `git show`'s error is passed on. |
| `GitChanges.Then` | src/zrb_ollama/tools/git.py:28-52 | Prefixing entries keeps success and failure. |
| `GitChanges.ThenAppend` | src/zrb_ollama/tools/git.py:28-52 | Prefixing is associative. |
| `GitChanges.ChangesSucceed` | src/zrb_ollama/tools/git.py:28-52 | The loop succeeds exactly when `git show` succeeds for every non-blank segment. |
| `GitChanges.ChangesEntries` | src/zrb_ollama/tools/git.py:28-52 | On success, one entry per non-blank segment, in order. |
| `GitChanges.SegmentRebuilt` | src/zrb_ollama/tools/git.py:32-35 | A segment is its header line, a newline and its changes. |
| `GitChanges.SplitLast` | src/zrb_ollama/tools/git.py:33 | The last space-separated part is what follows the last space. |
| `GitChanges.SplitFirst` | src/zrb_ollama/tools/git.py:32-33 | The first line is what precedes the first newline. |
| `GitChanges.HeaderPath` | src/zrb_ollama/tools/git.py:32-33 | For a header ` a/x b/path` the path read is `path`. |
| `GitChanges.SplitDiff` | src/zrb_ollama/tools/git.py:27-52 | The loop over the segments computes `Changes`. |
| `GitChanges.GetChanges` | src/zrb_ollama/tools/git.py:12-53 | A failing `git fetch` or `git diff` is passed on. Otherwise the result is the split of the diff. |
| `GitChanges.PathOf` | src/zrb_ollama/tools/git.py:32-33 | Defines the path of a segment: the last space-separated word of its first line, without its first two characters. `HeaderPath` states it for a `diff --git` header. |
| `GitChanges.ChangesOf` | src/zrb_ollama/tools/git.py:32-35 | Defines the changes of a segment: its lines after the first, joined again. `SegmentRebuilt` states that the header, a newline and the changes give the segment back. |
| `GitChanges.Changes` | src/zrb_ollama/tools/git.py:28-52 | Defines the loop's result: the entries in order, or the first `git show` failure. `ChangesSucceed` and `ChangesEntries` state it, and `SplitDiff` is proved to compute it. |
| `RagIndex.Slice` | src/zrb_ollama/tools/rag.py:32 | Python slicing: the clamped slice, "" when the end is not past the start. |
| `RagIndex.Chunks` | src/zrb_ollama/tools/rag.py:31-34 | `range` fails exactly when the step is zero. A negative step gives no chunks. |
| `RagIndex.Piece` | src/zrb_ollama/tools/rag.py:32 | A chunk inside the document is non-empty and at most `chunk_size` long. |
| `RagIndex.ChunkFrom` | src/zrb_ollama/tools/rag.py:31-34 | Chunk `k` starts `k` steps after the start. |
| `RagIndex.ChunksReachEnd` | src/zrb_ollama/tools/rag.py:31-34 | The chunk starts reach the end of the document. |
| `RagIndex.ChunkAt` | src/zrb_ollama/tools/rag.py:31-34 | Chunk `k` is `document[k*step : k*step + chunk_size]`, non-empty and at most `chunk_size` long. The starts are exactly those below the length. |
| `RagIndex.ChunksCover` | src/zrb_ollama/tools/rag.py:31-34 | With a non-negative overlap, every character lies in some chunk. |
| `RagIndex.ChunksOverlap` | src/zrb_ollama/tools/rag.py:31-34 | A full chunk shares its last `overlap` characters with the next one. |
| `RagIndex.PiecesOverlap` | src/zrb_ollama/tools/rag.py:32 | Two full slices a step apart share `chunk_size - step` characters. |
| `RagIndex.ChunkIdsDistinct` | src/zrb_ollama/tools/rag.py:43 | Different indexes give different ids. |
| `RagIndex.DecimalInjective` | src/zrb_ollama/tools/rag.py:43 | Decimal rendering is injective. |
| `RagIndex.ChunkDocument` | src/zrb_ollama/tools/rag.py:30-34 | The chunk loop computes `Chunks`. |
| `RagIndex.IndexChunks` | src/zrb_ollama/tools/rag.py:36-45 | One id `id<k>`, one embedding and the chunk itself for every chunk, in order. |
| `RagIndex.Indexed` | src/zrb_ollama/tools/rag.py:36-46 | As many ids, documents and embeddings as chunks. |
| `RagIndex.RetrieveWith` | src/zrb_ollama/tools/rag.py:22-55 | `retrieve`, with the chunk embedding model as a parameter, computes `Retrieval`. |
| `RagIndex.RetrievalIndexes` | src/zrb_ollama/tools/rag.py:27-54 | Rebuilds exactly when the directory is missing or `reset_db` holds; fails exactly then with a zero step. A rebuild holds one entry per chunk with ids `id0…`; otherwise the stored collection is used. The query uses `model` and `max_result_count`. |
| `RagIndex.RetrieveAsWritten` | src/zrb_ollama/tools/rag.py:22-55 | As written, chunks embedded with `text-embedding-ada-002`. |
| `RagIndex.RetrieveAsWrittenMixesModels` | src/zrb_ollama/tools/rag.py:40-48 | For any `model` other than `text-embedding-ada-002`, a rebuilt collection of a non-empty document holds an embedding from a different model than the query's. |
| `RagIndex.Retrieve` | src/zrb_ollama/tools/rag.py:22-55 | Corrected, chunks embedded with `model`. |
| `RagIndex.RetrieveSameModel` | src/zrb_ollama/tools/rag.py:40-48 | Corrected: every chunk embedding comes from the query's model. |
| `RagIndex.ChunksFrom` | src/zrb_ollama/tools/rag.py:31-34 | Defines the non-empty slices from a start, a step apart. `ChunkFrom`, `ChunkAt` and `ChunksCover` state them. |
| `RagIndex.ChunkId` | src/zrb_ollama/tools/rag.py:43 | Defines `f"id{index}"`. `ChunkIdsDistinct` states that distinct indexes give distinct ids. |
| `RagIndex.Retrieval` | src/zrb_ollama/tools/rag.py:22-55 | Defines what `retrieve` stores and asks, with the chunk model as a parameter. `RetrievalIndexes` states it. |
| `RagIndex.DefaultModelDiffers` | src/zrb_ollama/tools/rag.py:41 | The default `model` is not `text-embedding-ada-002`, so the default setting mixes the two models. |
| `Strings.Strip` | src/zrb_ollama/interactive/conversation.py:236 | The stripped text is no longer than the input, and it neither starts nor ends with whitespace. `StripIsSlice` states which slice it is. |
| `Strings.StripIsSlice` | src/zrb_ollama/interactive/conversation.py:236 | The stripped text is the slice of the input that starts after its leading whitespace, with nothing but whitespace before and after it. |
| `Strings.StripEmptyIffBlank` | src/zrb_ollama/interactive/conversation.py:231-233 | A stripped line is "" exactly when it was blank. |
| `Strings.Lower` | src/zrb_ollama/interactive/conversation.py:239 | `lower` keeps the length and lowers each ASCII letter. |
| `Strings.Split` | src/zrb_ollama/tools/git.py:27 | `str.split` gives at least one part, and no part contains the separator. |
| `Strings.Join` | src/zrb_ollama/interactive/conversation.py:105 | `str.join` of a single part is that part. |
| `Strings.JoinSplit` | src/zrb_ollama/tools/git.py:32-35 | Splitting then joining on the same separator gives the text back. |
| `Strings.SplitJoin` | src/zrb_ollama/interactive/conversation.py:105 | For a separator that cannot overlap itself, joining parts that do not contain it and splitting again gives the parts back. |
| `Dicts.Put` | src/zrb_ollama/interactive/tool.py:28 | `d[k] = v` keeps the key order and appends a new key at the end. Afterwards `k` maps to `v`, every other key keeps its value, and keys stay distinct. |
| `Dicts.PutIdempotent` | src/zrb_ollama/interactive/tool.py:28 | Assigning the same value twice is assigning it once. |

## Left out

- Terminal output is not modelled: `print`, `colored`, `_print_tool_names`,
  `_print_all_instructions`, the help text of `_process_help_command` (it is
  recognised and handled), the prompts of `_read_param` and the system-prompt
  and history printing of the agent.
- `Conversation.loop` (conversation.py:53-65) is not modelled: its quit words and
  `KeyboardInterrupt`. Each of its iterations is `ReadUserMessage`,
  `ProcessInput` and `HandleUserPrompt`, which are modelled.
- `litellm`, `chromadb`, `json_repair` and `subprocess` are not modelled. They
  are parameters: completion, embedding and parse functions, the `git fetch`,
  `git diff` and `git show` outcomes, and the stored vector collection.
- `json.dumps` and `json.loads` of messages: messages carry structured content,
  so serialisation is assumed faithful.
- Conversation logging (`_write_conversation_log`) and the timing of requests
  are not modelled.
- `run_async` and threading: every function runs to completion.
- `create_rag_from_directory`, `to_snake_case`, the module-level setup at
  conversation.py:23-30 and the configuration constants are parameters of the
  conversation (`Environment`).
- Aliasing is not modelled. The default arguments of `Conversation.__init__` are
  mutable, so the constructor writes into the caller's dictionary. The agent
  shares the conversation's history list. The model copies values.
- `Strings.Lower`: only ASCII letters are lowered. Non-ASCII case mapping is not
  modelled.
- `GitChanges.Entry`: paths containing spaces are read as the source reads them
  (the last space-separated word). No attempt is made to recover the real path.
- `InteractiveConversation.RagToolRejected`: `int()`'s `ValueError` is returned
  as a failure carrying a message, not as an exception object.
- `RagIndex.RetrievalIndexes`: the database's similarity search is left out.
  The model only states what is stored and what is asked.
- `Schema.ParseAnnotation`: a bare `typing.Dict` has no type arguments, so
  unpacking them raises `ValueError`. `DictOf` always has both arguments, so
  this error is not modelled.
- `Schema.ParseAnnotation`: `Literal` values are strings, integers, booleans
  and `None`; enum members and bytes are not modelled. `Annotated` metadata is
  a string here, while Python accepts any object.
- `AgentLoop.ErrorPayload`: the exception text round trip through
  `_map_to_exception` and `_extract_exception` is assumed to give back the
  payload.

## Findings

| source | as written | input that shows it | evidently intended | confidence | as-written member | corrected member |
|---|---|---|---|---|---|---|
| src/zrb_ollama/factory/tool/bash_repl.py:54-58 | `script[0]` is read before the length is checked, so an empty script raises `IndexError` | an empty bash block, "```bash\n```" | an empty script stays empty | not executed | `BashRepl.SanitizeBashScriptAsWritten`, `BashRepl.EmptyBlockFailsAsWritten` | `BashRepl.SanitizeBashScript`, `BashRepl.UnquoteCorrectsAsWritten` |
| src/zrb_ollama/tools/rag.py:40-48 | chunks are embedded with the fixed model `text-embedding-ada-002`, the query with `model` | `create_rag` with the default `model` "ollama/nomic-embed-text" and a non-empty document | chunks and query embedded with the same model | not executed | `RagIndex.RetrieveAsWritten`, `RagIndex.RetrieveAsWrittenMixesModels` | `RagIndex.Retrieve`, `RagIndex.RetrieveSameModel` |
