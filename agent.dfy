/**
 * The structured tool-calling agent (agent/agent.py).
 *
 * Everything `Agent.__init__` computes once is the value `AgentConfig`, built by
 * `MakeConfig`; the object `Agent` keeps that value and the two fields the loop
 * updates in place, the message history and the `_finished` flag.
 *
 * Outside code is a parameter: the LLM completion (`litellm.acompletion`) is
 * `complete(model, messages)`, the tolerant JSON parser is `loads`, and
 * `str.format` of the system-message templates is `format`. A message whose
 * content Python builds with `json.dumps(v)` holds the value `v` itself
 * (`Serialized(v)`).
 */
module AgentLoop {
  import opened Wrappers
  import opened Strings
  import opened Dicts
  import opened JsonValues
  import opened Schema
  import opened Extraction

  // ---------------------------------------------------------------------
  // Messages
  // ---------------------------------------------------------------------

  datatype Role = SystemRole | UserRole | AssistantRole

  datatype Content =
    | Text(text: string)     // a plain string
    | Serialized(value: Json) // json.dumps(value)

  datatype Message = Message(role: Role, content: Content)

  // ---------------------------------------------------------------------
  // Errors raised inside the loop (`_map_to_exception` payloads)
  // ---------------------------------------------------------------------

  datatype AgentError =
    | InvalidFunction(name: string, validFunctions: seq<string>)
    | InvalidArguments(missing: seq<string>, invalid: seq<string>, schema: FunctionSchema)
    | ExecutionFailed(details: string, schema: FunctionSchema)
    | MalformedResponse(expectedFormat: Json)

  function StringArray(ss: seq<string>): (r: Json)
    ensures r.JArray? && |r.items| == |ss|
    ensures forall i :: 0 <= i < |ss| ==> r.items[i] == JString(ss[i])
  {
    JArray(seq(|ss|, i requires 0 <= i < |ss| => JString(ss[i])))
  }

  /** The "details" of INVALID ARGUMENTS: only the non-empty lists appear. */
  function ArgumentDetails(missing: seq<string>, invalid: seq<string>): (r: Json)
    ensures r.JObject?
    ensures HasField(r, "missing_arguments") <==> missing != []
    ensures HasField(r, "invalid_arguments") <==> invalid != []
    ensures missing != [] ==> Field(r, "missing_arguments") == StringArray(missing)
    ensures invalid != [] ==> Field(r, "invalid_arguments") == StringArray(invalid)
  {
    var d0: Dict<string, Json> := [];
    var d1 := if |missing| > 0 then Put(d0, "missing_arguments", StringArray(missing)) else d0;
    var d2 := if |invalid| > 0 then Put(d1, "invalid_arguments", StringArray(invalid)) else d1;
    JObject(d2)
  }

  /**
   * The error as the model reads it back: the payload `_map_to_exception`
   * serialises, which `_extract_exception` parses again.
   */
  function ErrorPayload(e: AgentError): (r: Json)
    ensures r.JObject? && |r.fields| == 4 && r.fields[0].0 == "error" && r.fields[3].0 == "required_action"
  {
    match e
    case InvalidFunction(name, valid) =>
      JObject([("error", JString("INVALID FUNCTION")),
               ("details", JString("The function `" + name + "` is not a recognized")),
               ("valid_functions", StringArray(valid)),
               ("required_action", JString("Choose a valid function"))])
    case InvalidArguments(missing, invalid, schema) =>
      JObject([("error", JString("INVALID ARGUMENTS")),
               ("details", ArgumentDetails(missing, invalid)),
               ("correct_function_schema", FunctionSchemaJson(schema)),
               ("required_action", JString("Revise your response to include all required arguments and remove any invalid ones"))])
    case ExecutionFailed(details, schema) =>
      JObject([("error", JString("EXECUTION FAILED")),
               ("details", JString(details)),
               ("correct_function_schema", FunctionSchemaJson(schema)),
               ("required_action", JString("Revise your arguments"))])
    case MalformedResponse(expected) =>
      JObject([("error", JString("MALFORMED RESPONSE")),
               ("error_message", JString("Your response is not a valid JSON")),
               ("expected_format", expected),
               ("required_action", JString("Reformat your entire response to match the expected_format"))])
  }

  // ---------------------------------------------------------------------
  // The feedback messages the loop appends (`_append_*`)
  // ---------------------------------------------------------------------

  function UserText(userMessage: string): Message
  {
    Message(UserRole, Text(userMessage))
  }

  function FormatErrorFeedback(userMessage: string, e: AgentError): Json
  {
    JObject([("type", JString("format_error")),
             ("details", JString("Assistant response is unparseable.")),
             ("error", ErrorPayload(e)),
             ("original_user_message", JString(userMessage))])
  }

  function FunctionCallErrorFeedback(userMessage: string, functionName: string, arguments: Json, e: AgentError): Json
  {
    JObject([("type", JString("function_call_error")),
             ("details", JString("Assistant function call is incorrect.")),
             ("function", JString(functionName)),
             ("arguments", arguments),
             ("error", ErrorPayload(e)),
             ("original_user_message", JString(userMessage))])
  }

  function FunctionCallOkFeedback(userMessage: string, functionName: string, arguments: Json, result: Json): Json
  {
    JObject([("type", JString("function_call_ok")),
             ("function", JString(functionName)),
             ("arguments", arguments),
             ("result", result),
             ("original_user_message", JString(userMessage))])
  }

  /** A feedback message: a user message whose serialised payload starts with "type". */
  predicate IsFeedback(m: Message)
  {
    && m.role == UserRole && m.content.Serialized? && m.content.value.JObject?
    && |m.content.value.fields| >= 1 && m.content.value.fields[0].0 == "type"
    && m.content.value.fields[0].1 in [JString("format_error"), JString("function_call_error"), JString("function_call_ok")]
  }

  // ---------------------------------------------------------------------
  // The configuration `Agent.__init__` computes
  // ---------------------------------------------------------------------

  /** The always-present tool, and every other tool. */
  datatype Callable = FinishConversation | UserTool(tool: Tool)

  const FinishName := "finish_conversation"

  /** The descriptor Python reads off the nested `finish_conversation` function. */
  const FinishDescriptor := FunctionDescriptor(
    FinishName,
    Some("Ends up conversation with user by providing the final_answer. The final_answer should contains all detailed information and citations."),
    [ParamDescriptor("final_answer",
                     Annotated(Named("str"), ["Final answer containing all necessary information and citations"]),
                     None)],
    Named("str"))

  function DescriptorOf(c: Callable): FunctionDescriptor
  {
    match c
    case FinishConversation => FinishDescriptor
    case UserTool(t) => t.descriptor
  }

  function NameOf(c: Callable): string
  {
    DescriptorOf(c).name
  }

  /** `{fn.__name__: extract_metadata(fn) for fn in self._tools}` */
  function SchemaMap(cs: seq<Callable>): (d: Dict<string, FunctionSchema>)
    ensures DistinctKeys(d)
  {
    if cs == [] then []
    else Put(SchemaMap(cs[..|cs| - 1]), NameOf(cs[|cs| - 1]), MetadataOf(DescriptorOf(cs[|cs| - 1])))
  }

  /** `{fn.__name__: fn for fn in self._tools}` */
  function FunctionMap(cs: seq<Callable>): (d: Dict<string, Callable>)
    ensures DistinctKeys(d)
  {
    if cs == [] then []
    else Put(FunctionMap(cs[..|cs| - 1]), NameOf(cs[|cs| - 1]), cs[|cs| - 1])
  }

  /** The fields `template.format` fills in; the two JSON ones are `json.dumps`ed. */
  datatype PromptFields = PromptFields(
    systemPrompt: string,
    responseFormat: Json,
    functionNames: string,
    functionSignatures: string,
    functionSchemas: Json)

  /** What the constructor receives; `None` means "use the configured default". */
  datatype AgentParams = AgentParams(
    model: Option<string>,
    systemMessageTemplate: Option<string>,
    systemPrompt: Option<string>,
    fixerSystemMessageTemplate: Option<string>,
    fixerSystemPrompt: Option<string>,
    previousMessages: seq<Message>,
    tools: seq<Tool>,
    maxIteration: int)

  /** The configured defaults (`LLM_MODEL`, `DEFAULT_SYSTEM_PROMPT`, ...). */
  datatype Defaults = Defaults(
    model: string,
    systemMessageTemplate: string,
    systemPrompt: string,
    fixerSystemMessageTemplate: string,
    fixerSystemPrompt: string)

  /** The outside code the agent calls. */
  datatype Oracles = Oracles(
    format: (string, PromptFields) -> string,
    loads: string -> Option<Json>,
    complete: (string, seq<Message>) -> string)

  datatype AgentConfig = AgentConfig(
    model: string,
    callables: seq<Callable>,
    schemas: Dict<string, FunctionSchema>,
    functionMap: Dict<string, Callable>,
    functionNames: seq<string>,
    responseFormat: Json,
    systemMessage: Message,
    fixerSystemMessage: Message,
    maxIteration: int,
    loads: string -> Option<Json>,
    complete: (string, seq<Message>) -> string)

  function Quote(names: seq<string>): (r: seq<string>)
    ensures |r| == |names|
  {
    seq(|names|, i requires 0 <= i < |names| => "`" + names[i] + "`")
  }

  /** The `_response_format` example shown to the model. */
  function ResponseFormat(functionNames: seq<string>): (r: Json)
  {
    JObject([("thought", JString("<your plan and reasoning to choose an action>")),
             ("function", JString("<function name, SHOULD STRICTLY be one of these: " + Join(Quote(functionNames), ", ") + ">")),
             ("arguments", JObject([("<argument-1>", JString("<value-1>")), ("<argument-2>", JString("<value-2>"))]))])
  }

  /** A description with every line break followed by three spaces of indentation. */
  function IndentDescription(s: FunctionSchema): string
  {
    Join(Split(GetMetadataDescription(s), "\n"), "   \n")
  }

  /** `- signature\n  description` for every tool, one per schema entry, joined by newlines. */
  function SignatureList(schemas: Dict<string, FunctionSchema>): string
  {
    Join(seq(|schemas|, i requires 0 <= i < |schemas| =>
           "- " + SignatureOf(schemas[i].1) + "\n  " + IndentDescription(schemas[i].1)), "\n")
  }

  function SystemMessage(format: (string, PromptFields) -> string, template: string, prompt: string,
                         schemas: Dict<string, FunctionSchema>): Message
  {
    var names := Keys(schemas);
    Message(SystemRole, Text(format(template, PromptFields(
      prompt, ResponseFormat(names), Join(names, ", "), SignatureList(schemas),
      JObject(MapValues(schemas, FunctionSchemaJson))))))
  }

  function OrElse(o: Option<string>, d: string): string
  {
    if o.Some? then o.value else d
  }

  /** `[finish_conversation] + tools` */
  function Callables(tools: seq<Tool>): (cs: seq<Callable>)
    ensures |cs| == |tools| + 1 && cs[0] == FinishConversation
    ensures forall i :: 0 <= i < |tools| ==> cs[i + 1] == UserTool(tools[i])
    ensures forall i :: 0 <= i < |tools| ==> NameOf(cs[i + 1]) == ToolName(tools[i])
  {
    [FinishConversation] + seq(|tools|, i requires 0 <= i < |tools| => UserTool(tools[i]))
  }

  /** `Agent.__init__`: `finish_conversation` first, then the given tools, and everything derived from them. */
  function MakeConfig(params: AgentParams, defaults: Defaults, oracles: Oracles): (cfg: AgentConfig)
    ensures cfg.callables == Callables(params.tools)
    ensures cfg.schemas == SchemaMap(cfg.callables) && cfg.functionMap == FunctionMap(cfg.callables)
    ensures WellFormed(cfg)
  {
    var callables := Callables(params.tools);
    var schemas := SchemaMap(callables);
    SameKeys(callables);
    AgentConfig(
      OrElse(params.model, defaults.model),
      callables,
      schemas,
      FunctionMap(callables),
      Keys(schemas),
      ResponseFormat(Keys(schemas)),
      SystemMessage(oracles.format, OrElse(params.systemMessageTemplate, defaults.systemMessageTemplate),
                    OrElse(params.systemPrompt, defaults.systemPrompt), schemas),
      SystemMessage(oracles.format, OrElse(params.fixerSystemMessageTemplate, defaults.fixerSystemMessageTemplate),
                    OrElse(params.fixerSystemPrompt, defaults.fixerSystemPrompt), schemas),
      params.maxIteration,
      oracles.loads,
      oracles.complete)
  }

  /** The shape every configuration built by `MakeConfig` has. */
  predicate WellFormed(cfg: AgentConfig)
  {
    && Keys(cfg.functionMap) == Keys(cfg.schemas)
    && cfg.functionNames == Keys(cfg.schemas)
    && DistinctKeys(cfg.schemas)
  }

  /** The schema dictionary and the function dictionary have the same keys, in the same order. */
  lemma {:induction false} SameKeys(cs: seq<Callable>)
    ensures Keys(SchemaMap(cs)) == Keys(FunctionMap(cs))
  {
    if cs != [] {
      SameKeys(cs[..|cs| - 1]);
    }
  }

  /**
   * Unless one of the given tools has the same name, `finish_conversation` is
   * the function the agent calls by that name.
   */
  lemma FinishFirst(tools: seq<Tool>)
    ensures (forall i :: 0 <= i < |tools| ==> ToolName(tools[i]) != FinishName)
              ==> Get(FunctionMap(Callables(tools)), FinishName) == Some(FinishConversation)
  {
    var cs := Callables(tools);
    FinishNotReplaced(cs);
    if forall i :: 0 <= i < |tools| ==> ToolName(tools[i]) != FinishName {
      forall i | 1 <= i < |cs| ensures NameOf(cs[i]) != FinishName {
        assert NameOf(cs[(i - 1) + 1]) == ToolName(tools[i - 1]);
      }
    }
  }

  /** The first name registered keeps the first place, whatever is registered after it. */
  lemma {:induction false} FinishNameFirst(cs: seq<Callable>)
    requires |cs| >= 1 && cs[0] == FinishConversation
    ensures |Keys(SchemaMap(cs))| >= 1 && Keys(SchemaMap(cs))[0] == FinishName
    decreases |cs|
  {
    var init, last := cs[..|cs| - 1], cs[|cs| - 1];
    var before := SchemaMap(init);
    assert SchemaMap(cs) == Put(before, NameOf(last), MetadataOf(DescriptorOf(last)));
    if |cs| > 1 {
      FinishNameFirst(init);
      assert Keys(before) <= Keys(SchemaMap(cs));
    } else {
      assert before == [] && Keys(SchemaMap(cs)) == [FinishName];
    }
  }

  /** A later registration under another name leaves the first callable in place. */
  lemma {:induction false} FinishNotReplaced(cs: seq<Callable>)
    requires |cs| >= 1 && cs[0] == FinishConversation
    ensures (forall i :: 1 <= i < |cs| ==> NameOf(cs[i]) != FinishName)
              ==> Get(FunctionMap(cs), FinishName) == Some(FinishConversation)
    decreases |cs|
  {
    if forall i :: 1 <= i < |cs| ==> NameOf(cs[i]) != FinishName {
      var init := cs[..|cs| - 1];
      if |cs| == 1 {
        assert init == [];
      } else {
        forall i | 1 <= i < |init| ensures NameOf(init[i]) != FinishName {
          assert init[i] == cs[i];
        }
        FinishNotReplaced(init);
        assert NameOf(cs[|cs| - 1]) != FinishName;
      }
    }
  }


  /** The three fixed messages before the history: the system message and a greeting exchange. */
  function Greeting(): Json
  {
    JObject([("thought", JString("User has greet me, I should say hi.")),
             ("function", JString(FinishName)),
             ("arguments", JObject([("final_answer", JString("Hi, I'm a useful assistant, I'm ready to help."))]))])
  }

  /** `get_messages`: what the model is sent, given the history. */
  function MessagesFor(cfg: AgentConfig, history: seq<Message>): (r: seq<Message>)
    ensures |r| == 3 + |history| && r[3..] == history && r[0] == cfg.systemMessage
    ensures r[1] == UserText("Hi") && r[2].role == AssistantRole
  {
    [cfg.systemMessage, UserText("Hi"), Message(AssistantRole, Serialized(Greeting()))] + history
  }

  // ---------------------------------------------------------------------
  // Function calls (`_validate_function_call`, `_execute_function`)
  // ---------------------------------------------------------------------

  /** The required arguments of the schema that the call does not provide, in schema order. */
  function MissingArguments(args: Dict<string, ParamSchema>, kwargs: Dict<string, Json>): (r: seq<string>)
    ensures forall x :: x in r ==> HasKey(args, x) && !HasKey(kwargs, x)
    ensures forall i :: 0 <= i < |args| && args[i].1.required && !HasKey(kwargs, args[i].0) ==> args[i].0 in r
    ensures r == [] <==> forall i :: 0 <= i < |args| && args[i].1.required ==> HasKey(kwargs, args[i].0)
  {
    if args == [] then []
    else
      var n := |args| - 1;
      var init := MissingArguments(args[..n], kwargs);
      assert forall x :: HasKey(args[..n], x) ==> HasKey(args, x) by {
        assert Keys(args[..n]) == Keys(args)[..n];
      }
      assert forall i :: 0 <= i < n ==> args[..n][i] == args[i];
      init + (if args[n].1.required && !HasKey(kwargs, args[n].0) then [args[n].0] else [])
  }

  /** The provided arguments that the schema does not declare, in call order. */
  function UnknownArguments(args: Dict<string, ParamSchema>, kwargs: Dict<string, Json>): (r: seq<string>)
    ensures forall x :: x in r ==> HasKey(kwargs, x) && !HasKey(args, x)
    ensures forall k :: k in Keys(kwargs) && !HasKey(args, k) ==> k in r
    ensures r == [] <==> forall k :: k in Keys(kwargs) ==> HasKey(args, k)
  {
    if kwargs == [] then []
    else
      var n := |kwargs| - 1;
      var init := UnknownArguments(args, kwargs[..n]);
      assert Keys(kwargs) == Keys(kwargs[..n]) + [kwargs[n].0];
      init + (if !HasKey(args, kwargs[n].0) then [kwargs[n].0] else [])
  }

  /** The first loop of `_validate_function_call`: the required arguments the call lacks. */
  method CollectMissingArguments(args: Dict<string, ParamSchema>, kwargs: Dict<string, Json>) returns (missingArguments: seq<string>)
    ensures missingArguments == MissingArguments(args, kwargs)
  {
    missingArguments := [];
    for i := 0 to |args|
      invariant missingArguments == MissingArguments(args[..i], kwargs)
    {
      var (key, value) := args[i];
      assert args[..i + 1][..i] == args[..i];
      if value.required && !HasKey(kwargs, key) {
        missingArguments := missingArguments + [key];
      }
    }
    assert args[..|args|] == args;
  }

  /** The second loop of `_validate_function_call`: the given arguments the schema lacks. */
  method CollectUnknownArguments(args: Dict<string, ParamSchema>, kwargs: Dict<string, Json>) returns (invalidArguments: seq<string>)
    ensures invalidArguments == UnknownArguments(args, kwargs)
  {
    invalidArguments := [];
    for i := 0 to |kwargs|
      invariant invalidArguments == UnknownArguments(args, kwargs[..i])
    {
      var key := kwargs[i].0;
      assert kwargs[..i + 1][..i] == kwargs[..i];
      if !HasKey(args, key) {
        invalidArguments := invalidArguments + [key];
      }
    }
    assert kwargs[..|kwargs|] == kwargs;
  }

  /** Every required argument is provided and every provided argument is declared. */
  predicate Conforms(args: Dict<string, ParamSchema>, kwargs: Dict<string, Json>)
  {
    && (forall i :: 0 <= i < |args| && args[i].1.required ==> HasKey(kwargs, args[i].0))
    && (forall k :: k in Keys(kwargs) ==> HasKey(args, k))
  }

  /** What `_validate_function_call` raises, if anything. */
  function CheckCall(cfg: AgentConfig, name: string, kwargs: Dict<string, Json>): (r: Outcome<AgentError>)
  {
    match Get(cfg.schemas, name)
    case None => Fail(InvalidFunction(name, cfg.functionNames))
    case Some(schema) =>
      var missing := MissingArguments(schema.arguments, kwargs);
      var invalid := UnknownArguments(schema.arguments, kwargs);
      if |missing| > 0 || |invalid| > 0 then Fail(InvalidArguments(missing, invalid, schema))
      else Pass
  }

  /**
   * A call passes validation exactly when the function is known, every required
   * argument is provided and every provided argument is declared.
   */
  lemma CheckCallPassesIff(cfg: AgentConfig, name: string, kwargs: Dict<string, Json>)
    ensures CheckCall(cfg, name, kwargs).Pass? <==>
      HasKey(cfg.schemas, name) && Conforms(Get(cfg.schemas, name).value.arguments, kwargs)
  {
    if HasKey(cfg.schemas, name) {
      var args := Get(cfg.schemas, name).value.arguments;
      var missing := MissingArguments(args, kwargs);
      var invalid := UnknownArguments(args, kwargs);
      assert CheckCall(cfg, name, kwargs).Pass? <==> |missing| == 0 && |invalid| == 0;
      assert missing == [] <==> forall i :: 0 <= i < |args| && args[i].1.required ==> HasKey(kwargs, args[i].0);
      assert invalid == [] <==> forall k :: k in Keys(kwargs) ==> HasKey(args, k);
    }
  }

  /** An unknown function is reported with the full list of valid names. */
  lemma UnknownFunctionListsValidNames(cfg: AgentConfig, name: string, kwargs: Dict<string, Json>)
    requires !HasKey(cfg.schemas, name)
    ensures CheckCall(cfg, name, kwargs) == Fail(InvalidFunction(name, cfg.functionNames))
  {
  }

  /** The message Python's TypeError carries when `final_answer` is not passed. */
  const MissingFinalAnswer := "finish_conversation() missing 1 required positional argument: 'final_answer'"

  /** What calling a function does: its result or error, and whether it set `_finished`. */
  function CallFunction(cfg: AgentConfig, name: string, kwargs: Dict<string, Json>): (r: (Result<Json, AgentError>, bool))
    requires WellFormed(cfg) && HasKey(cfg.schemas, name)
    ensures r.1 ==> r.0.Success? && Get(cfg.functionMap, name) == Some(FinishConversation)
  {
    var schema := Get(cfg.schemas, name).value;
    assert HasKey(cfg.functionMap, name);
    match Get(cfg.functionMap, name).value
    case FinishConversation =>
      (match Get(kwargs, "final_answer")
       case Some(answer) => (Success(answer), true)
       case None => (Failure(ExecutionFailed(MissingFinalAnswer, schema)), false))
    case UserTool(tool) =>
      (match tool.run(kwargs)
       case Returned(v) => (Success(v), false)
       case Raised(message) => (Failure(ExecutionFailed(message, schema)), false))
  }

  /** `finish_conversation` with its argument sets `_finished` and returns the final answer unchanged. */
  lemma FinishReturnsFinalAnswer(cfg: AgentConfig, kwargs: Dict<string, Json>)
    requires WellFormed(cfg) && HasKey(cfg.schemas, FinishName)
    requires Get(cfg.functionMap, FinishName) == Some(FinishConversation)
    requires HasKey(kwargs, "final_answer")
    ensures CallFunction(cfg, FinishName, kwargs) == (Success(Get(kwargs, "final_answer").value), true)
  {
  }

  /** Validation, then the call: what the second half of an iteration produces. */
  function Dispatch(cfg: AgentConfig, name: string, kwargs: Dict<string, Json>): (r: (Result<Json, AgentError>, bool))
    requires WellFormed(cfg)
    ensures r.0.Success? ==> CheckCall(cfg, name, kwargs).Pass?
    ensures r.1 ==> r.0.Success?
  {
    match CheckCall(cfg, name, kwargs)
    case Fail(e) => (Failure(e), false)
    case Pass => CallFunction(cfg, name, kwargs)
  }

  // ---------------------------------------------------------------------
  // One iteration and the bounded loop (`add_user_message`)
  // ---------------------------------------------------------------------

  /** The user content of the fixer request. */
  function FixerPrompt(userMessage: string, reply: string): string
  {
    Join(["Original query from human:", userMessage, "Fix the following LLM message:", reply], "\n")
  }

  function FixerRequest(cfg: AgentConfig, userMessage: string, reply: string): seq<Message>
  {
    [cfg.fixerSystemMessage, UserText(FixerPrompt(userMessage, reply))]
  }

  /**
   * `_extract_agent_message_with_llm`: the local strategies; if they fail, one
   * fixer completion whose reply is extracted once more. Returns the decision
   * and the fixer request, if one was made.
   */
  function ExtractWithFixer(cfg: AgentConfig, userMessage: string, reply: string): (r: (Option<Json>, Option<seq<Message>>))
    ensures r.0.Some? ==> IsAgentMessage(r.0.value)
    ensures r.1.Some? <==> ExtractAgentMessage(cfg.loads, reply).None?
    ensures r.1.None? ==> r.0 == ExtractAgentMessage(cfg.loads, reply)
    ensures r.1.Some? ==> r.1.value == FixerRequest(cfg, userMessage, reply)
                          && r.0 == ExtractAgentMessage(cfg.loads, cfg.complete(cfg.model, r.1.value))
  {
    var first := ExtractAgentMessage(cfg.loads, reply);
    if first.Some? then (first, None)
    else
      var request := FixerRequest(cfg, userMessage, reply);
      (ExtractAgentMessage(cfg.loads, cfg.complete(cfg.model, request)), Some(request))
  }

  datatype StepOutcome = StepOutcome(
    appended: seq<Message>,       // the two messages the iteration appends
    finished: bool,               // `_finished` afterwards
    stop: bool,                   // the loop returns after this iteration
    result: Json,                 // the value it returns then (JNull for None)
    request: seq<Message>,        // what the main completion was sent
    fixerRequest: Option<seq<Message>>)

  /**
   * The second half of an iteration, once a decision was extracted: validation,
   * the call, and the feedback appended for it. Returns the feedback, whether
   * the call set `_finished`, and the call's result (JNull for None).
   */
  function Reaction(cfg: AgentConfig, userMessage: string, decision: Json): (r: (Json, bool, Json))
    requires WellFormed(cfg) && IsAgentMessage(decision)
    ensures r.0.JObject? && |r.0.fields| >= 1
    ensures r.0.fields[0] == ("type", JString("function_call_ok")) || r.0.fields[0] == ("type", JString("function_call_error"))
    ensures r.0.fields[0].1 == JString("function_call_error") ==> !r.1 && r.2 == JNull
  {
    var name := Field(decision, "function").s;
    var kwargs := Field(decision, "arguments");
    var (outcome, setsFinished) := Dispatch(cfg, name, kwargs.fields);
    match outcome
    case Success(v) => (FunctionCallOkFeedback(userMessage, name, kwargs, v), setsFinished, v)
    case Failure(e) => (FunctionCallErrorFeedback(userMessage, name, kwargs, e), false, JNull)
  }

  /** One pass of the loop body, from the history and the `_finished` flag. */
  function Step(cfg: AgentConfig, userMessage: string, history: seq<Message>, finished: bool): (s: StepOutcome)
    requires WellFormed(cfg)
    ensures |s.appended| == 2 && s.appended[0].role == AssistantRole && IsFeedback(s.appended[1])
    ensures s.request == MessagesFor(cfg, history)
    ensures s.stop ==> s.finished
    ensures !finished && s.finished ==> s.stop
  {
    var request := MessagesFor(cfg, history);
    var reply := cfg.complete(cfg.model, request);
    var (decision, fixer) := ExtractWithFixer(cfg, userMessage, reply);
    match decision
    case None =>
      StepOutcome([Message(AssistantRole, Text(reply)),
                   Message(UserRole, Serialized(FormatErrorFeedback(userMessage, MalformedResponse(cfg.responseFormat))))],
                  finished, false, JNull, request, fixer)
    case Some(m) =>
      var (feedback, setsFinished, result) := Reaction(cfg, userMessage, m);
      var nowFinished := finished || setsFinished;
      StepOutcome([Message(AssistantRole, Serialized(m)), Message(UserRole, Serialized(feedback))],
                  nowFinished, nowFinished, result, request, fixer)
  }

  /** The loop body when no agent message can be extracted, even with the fixer. */
  lemma StepMalformed(cfg: AgentConfig, userMessage: string, history: seq<Message>, finished: bool)
    requires WellFormed(cfg)
    requires ExtractWithFixer(cfg, userMessage, cfg.complete(cfg.model, MessagesFor(cfg, history))).0.None?
    ensures history + Step(cfg, userMessage, history, finished).appended
      == history + [Message(AssistantRole, Text(cfg.complete(cfg.model, MessagesFor(cfg, history))))]
                 + [Message(UserRole, Serialized(FormatErrorFeedback(userMessage, MalformedResponse(cfg.responseFormat))))]
    ensures Step(cfg, userMessage, history, finished).finished == finished
    ensures !Step(cfg, userMessage, history, finished).stop && Step(cfg, userMessage, history, finished).result == JNull
  {
  }

  /** The loop body when an agent message was extracted: the reaction to it decides the rest. */
  lemma StepDecided(cfg: AgentConfig, userMessage: string, history: seq<Message>, finished: bool)
    requires WellFormed(cfg)
    requires ExtractWithFixer(cfg, userMessage, cfg.complete(cfg.model, MessagesFor(cfg, history))).0.Some?
    ensures var m := ExtractWithFixer(cfg, userMessage, cfg.complete(cfg.model, MessagesFor(cfg, history))).0.value;
      && history + Step(cfg, userMessage, history, finished).appended
           == history + [Message(AssistantRole, Serialized(m))] + [Message(UserRole, Serialized(Reaction(cfg, userMessage, m).0))]
      && Step(cfg, userMessage, history, finished).finished == (finished || Reaction(cfg, userMessage, m).1)
      && Step(cfg, userMessage, history, finished).stop == (finished || Reaction(cfg, userMessage, m).1)
      && Step(cfg, userMessage, history, finished).result == Reaction(cfg, userMessage, m).2
  {
  }

  /** Iteration `j`, counted from `base`, appended an assistant reply and then a feedback message. */
  predicate IterationPair(messages: seq<Message>, base: nat, j: nat)
  {
    && base + 2 * j + 2 <= |messages|
    && messages[base + 2 * j].role == AssistantRole
    && IsFeedback(messages[base + 2 * j + 1])
  }

  lemma FirstPair(history: seq<Message>, appended: seq<Message>)
    requires |appended| == 2 && appended[0].role == AssistantRole && IsFeedback(appended[1])
    ensures IterationPair(history + appended, |history|, 0)
  {
  }

  lemma PairInPrefix(prefix: seq<Message>, messages: seq<Message>, base: nat)
    requires prefix <= messages && IterationPair(prefix, base, 0)
    ensures IterationPair(messages, base, 0)
  {
    assert messages[base] == prefix[base] && messages[base + 1] == prefix[base + 1];
  }

  lemma PairsShift(messages: seq<Message>, base: nat, next: nat, n: nat)
    requires next == base + 2
    requires forall j :: 0 <= j < n ==> IterationPair(messages, next, j)
    ensures forall j :: 1 <= j < n + 1 ==> IterationPair(messages, base, j)
  {
    forall j | 1 <= j < n + 1 ensures IterationPair(messages, base, j) {
      assert IterationPair(messages, next, j - 1);
      assert next + 2 * (j - 1) == base + 2 * j;
    }
  }

  datatype RunOutcome = RunOutcome(
    messages: seq<Message>,        // the history afterwards
    finished: bool,                // `_finished` afterwards
    result: Json,                  // the return value (JNull for None)
    returned: bool,                // the loop returned early
    requests: seq<seq<Message>>)   // what each main completion was sent

  /** What every iteration appends, and that it only returns once `_finished` is set. */
  predicate StepShaped(s: StepOutcome)
  {
    && |s.appended| == 2 && s.appended[0].role == AssistantRole && IsFeedback(s.appended[1])
    && (s.stop ==> s.finished)
  }

  /**
   * The `for` loop of `add_user_message` around an iteration body `step` that
   * maps the history and `_finished` to what the iteration does: at most `k`
   * iterations; the loop returns as soon as an iteration leaves `_finished`
   * set, and when the iterations run out `_finished` is reset and None returned.
   */
  function Loop(step: (seq<Message>, bool) -> StepOutcome, history: seq<Message>, finished: bool, k: nat): (r: RunOutcome)
    requires forall h, f :: StepShaped(step(h, f))
    ensures |r.requests| <= k
    ensures history <= r.messages && |r.messages| == |history| + 2 * |r.requests|
    ensures r.returned ==> r.finished && |r.requests| >= 1
    ensures !r.returned ==> !r.finished && r.result == JNull && |r.requests| == k
    ensures |r.requests| >= 1 ==> r.requests[0] == step(history, finished).request
    ensures forall j :: 0 <= j < |r.requests| ==> IterationPair(r.messages, |history|, j)
    decreases k
  {
    if k == 0 then RunOutcome(history, false, JNull, false, [])
    else
      var s := step(history, finished);
      var next := history + s.appended;
      assert StepShaped(s);
      FirstPair(history, s.appended);
      if s.stop then RunOutcome(next, s.finished, s.result, true, [s.request])
      else
        var rest := Loop(step, next, s.finished, k - 1);
        PairInPrefix(next, rest.messages, |history|);
        PairsShift(rest.messages, |history|, |next|, |rest.requests|);
        RunOutcome(rest.messages, rest.finished, rest.result, rest.returned, [s.request] + rest.requests)
  }

  /** The iteration body of the agent as a function of the history and `_finished`. */
  function StepOf(cfg: AgentConfig, userMessage: string): (step: (seq<Message>, bool) -> StepOutcome)
    requires WellFormed(cfg)
    ensures forall h, f :: step(h, f) == Step(cfg, userMessage, h, f)
    ensures forall h, f :: StepShaped(step(h, f))
  {
    var step := (h, f) => Step(cfg, userMessage, h, f);
    assert forall h, f :: StepShaped(step(h, f)) by {
      forall h, f ensures StepShaped(step(h, f)) {
        var s := Step(cfg, userMessage, h, f);
      }
    }
    step
  }

  /**
   * The agent's loop: the first request carries the history, and after the
   * history the messages come in pairs, one per completion request: the
   * assistant reply, then one format_error, function_call_error or
   * function_call_ok message.
   */
  function Run(cfg: AgentConfig, userMessage: string, history: seq<Message>, finished: bool, k: nat): (r: RunOutcome)
    requires WellFormed(cfg)
    ensures history <= r.messages && |r.messages| == |history| + 2 * |r.requests|
    ensures r.returned ==> r.finished && |r.requests| >= 1
    ensures !r.returned ==> !r.finished && r.result == JNull && |r.requests| == k
    ensures |r.requests| >= 1 ==> r.requests[0] == MessagesFor(cfg, history)
    ensures forall j :: 0 <= j < |r.requests| ==> IterationPair(r.messages, |history|, j)
  {
    Loop(StepOf(cfg, userMessage), history, finished, k)
  }

  /** The number of iterations `range(max_iteration)` allows. */
  function Iterations(cfg: AgentConfig): nat
  {
    if cfg.maxIteration > 0 then cfg.maxIteration else 0
  }

  /**
   * The history after a run is the history before it, then nothing but whole
   * reply-and-feedback pairs.
   */
  lemma RunAppendsPairs(cfg: AgentConfig, userMessage: string, history: seq<Message>, finished: bool, k: nat)
    requires WellFormed(cfg)
    ensures var messages := Run(cfg, userMessage, history, finished, k).messages;
      && history <= messages
      && forall j: nat :: |history| + 2 * j < |messages| ==> IterationPair(messages, |history|, j)
  {
    var r := Run(cfg, userMessage, history, finished, k);
    assert forall j: nat :: |history| + 2 * j < |r.messages| ==> j < |r.requests|;
  }

  /** `Run` in terms of the first iteration's `Step`. */
  lemma RunFirstStep(cfg: AgentConfig, userMessage: string, history: seq<Message>, finished: bool, k: nat)
    requires WellFormed(cfg) && k > 0
    ensures var s := Step(cfg, userMessage, history, finished);
      && (s.stop ==> Run(cfg, userMessage, history, finished, k)
                     == RunOutcome(history + s.appended, s.finished, s.result, true, [s.request]))
      && (!s.stop ==> var rest := Run(cfg, userMessage, history + s.appended, s.finished, k - 1);
            Run(cfg, userMessage, history, finished, k)
            == RunOutcome(rest.messages, rest.finished, rest.result, rest.returned, [s.request] + rest.requests))
  {
  }

  /** A reply that cannot be turned into a decision, even by the fixer, never ends the loop. */
  lemma FormatErrorContinues(cfg: AgentConfig, userMessage: string, history: seq<Message>, finished: bool)
    requires WellFormed(cfg)
    requires ExtractWithFixer(cfg, userMessage, cfg.complete(cfg.model, MessagesFor(cfg, history))).0.None?
    ensures var s := Step(cfg, userMessage, history, finished);
      && !s.stop && s.finished == finished
      && s.appended[0] == Message(AssistantRole, Text(cfg.complete(cfg.model, MessagesFor(cfg, history))))
      && s.appended[1].content == Serialized(FormatErrorFeedback(userMessage, MalformedResponse(cfg.responseFormat)))
  {
  }

  /** A decision calling `finish_conversation` with its argument ends the loop with the final answer. */
  lemma FinishEndsTheLoop(cfg: AgentConfig, userMessage: string, history: seq<Message>, finished: bool, decision: Json)
    requires WellFormed(cfg)
    requires Get(cfg.functionMap, FinishName) == Some(FinishConversation)
    requires Get(cfg.schemas, FinishName) == Some(MetadataOf(FinishDescriptor))
    requires ExtractWithFixer(cfg, userMessage, cfg.complete(cfg.model, MessagesFor(cfg, history))).0 == Some(decision)
    requires Field(decision, "function") == JString(FinishName)
    requires |Field(decision, "arguments").fields| == 1 && Field(decision, "arguments").fields[0].0 == "final_answer"
    ensures var s := Step(cfg, userMessage, history, finished);
      s.stop && s.finished && s.result == Field(decision, "arguments").fields[0].1
  {
    var kwargs := Field(decision, "arguments").fields;
    var args := MetadataOf(FinishDescriptor).arguments;
    assert args == [("final_answer", ParamSchemaOf(FinishDescriptor.params[0]))];
    assert MissingArguments(args, kwargs) == [];
    assert UnknownArguments(args, kwargs) == [];
  }

  /**
   * The `_finished` flag is not reset when a call starts: on an agent whose
   * previous call ended with `finish_conversation`, the first iteration that
   * gets as far as a function call returns, whatever that call was.
   */
  lemma StaleFinishedStopsAtFirstCall(cfg: AgentConfig, userMessage: string, history: seq<Message>)
    requires WellFormed(cfg)
    requires ExtractWithFixer(cfg, userMessage, cfg.complete(cfg.model, MessagesFor(cfg, history))).0.Some?
    ensures Step(cfg, userMessage, history, true).stop
  {
  }

  // ---------------------------------------------------------------------
  // The object
  // ---------------------------------------------------------------------

  class Agent {
    const cfg: AgentConfig
    var previousMessages: seq<Message>
    var finished: bool

    predicate Valid()
      reads this
    {
      WellFormed(cfg)
    }

    /** `Agent.__init__` */
    constructor(params: AgentParams, defaults: Defaults, oracles: Oracles)
      ensures cfg == MakeConfig(params, defaults, oracles)
      ensures previousMessages == params.previousMessages && !finished
      ensures Valid()
    {
      cfg := MakeConfig(params, defaults, oracles);
      previousMessages := params.previousMessages;
      finished := false;
    }

    /** `get_system_message` */
    function GetSystemMessage(): (r: Message)
      reads this
      ensures r == cfg.systemMessage
    {
      cfg.systemMessage
    }

    /** `get_previous_messages` */
    function GetPreviousMessages(): (r: seq<Message>)
      reads this
      ensures r == previousMessages
    {
      previousMessages
    }

    /** `get_messages` */
    function GetMessages(): (r: seq<Message>)
      reads this
      ensures r == MessagesFor(cfg, previousMessages)
    {
      [cfg.systemMessage, UserText("Hi"), Message(AssistantRole, Serialized(Greeting()))] + previousMessages
    }

    /** `_append_message` */
    method AppendMessage(m: Message)
      modifies this
      ensures previousMessages == old(previousMessages) + [m] && finished == old(finished)
    {
      previousMessages := previousMessages + [m];
    }

    /** `_append_user_message` */
    method AppendUserMessage(userMessage: string)
      modifies this
      ensures previousMessages == old(previousMessages) + [UserText(userMessage)] && finished == old(finished)
    {
      AppendMessage(UserText(userMessage));
    }

    /** `_append_agent_message` */
    method AppendAgentMessage(content: Content)
      modifies this
      ensures previousMessages == old(previousMessages) + [Message(AssistantRole, content)] && finished == old(finished)
    {
      AppendMessage(Message(AssistantRole, content));
    }

    /** `_append_format_error` */
    method AppendFormatError(userMessage: string, e: AgentError)
      modifies this
      ensures previousMessages == old(previousMessages) + [Message(UserRole, Serialized(FormatErrorFeedback(userMessage, e)))]
      ensures finished == old(finished)
    {
      AppendMessage(Message(UserRole, Serialized(FormatErrorFeedback(userMessage, e))));
    }

    /** `_append_function_call_error` */
    method AppendFunctionCallError(userMessage: string, functionName: string, arguments: Json, e: AgentError)
      modifies this
      ensures previousMessages == old(previousMessages) + [Message(UserRole, Serialized(FunctionCallErrorFeedback(userMessage, functionName, arguments, e)))]
      ensures finished == old(finished)
    {
      AppendMessage(Message(UserRole, Serialized(FunctionCallErrorFeedback(userMessage, functionName, arguments, e))));
    }

    /** `_append_function_call_ok` */
    method AppendFunctionCallOk(userMessage: string, functionName: string, arguments: Json, result: Json)
      modifies this
      ensures previousMessages == old(previousMessages) + [Message(UserRole, Serialized(FunctionCallOkFeedback(userMessage, functionName, arguments, result)))]
      ensures finished == old(finished)
    {
      AppendMessage(Message(UserRole, Serialized(FunctionCallOkFeedback(userMessage, functionName, arguments, result))));
    }

    /** `_validate_function_call`: collects the missing and the unknown arguments in two passes. */
    method ValidateFunctionCall(functionName: string, kwargs: Dict<string, Json>) returns (r: Outcome<AgentError>)
      ensures r == CheckCall(cfg, functionName, kwargs)
    {
      var found := Get(cfg.schemas, functionName);
      if found.None? {
        return Fail(InvalidFunction(functionName, cfg.functionNames));
      }
      var missingArguments := CollectMissingArguments(found.value.arguments, kwargs);
      var invalidArguments := CollectUnknownArguments(found.value.arguments, kwargs);
      if |missingArguments| > 0 || |invalidArguments| > 0 {
        return Fail(InvalidArguments(missingArguments, invalidArguments, found.value));
      }
      return Pass;
    }

    /** `_execute_function`: runs the named function; `finish_conversation` sets `_finished`. */
    method ExecuteFunction(functionName: string, kwargs: Dict<string, Json>) returns (r: Result<Json, AgentError>)
      requires Valid() && HasKey(cfg.schemas, functionName)
      modifies this
      ensures r == CallFunction(cfg, functionName, kwargs).0
      ensures finished == (old(finished) || CallFunction(cfg, functionName, kwargs).1)
      ensures previousMessages == old(previousMessages)
    {
      var schema := Get(cfg.schemas, functionName).value;
      var callable := Get(cfg.functionMap, functionName).value;
      match callable
      case FinishConversation =>
        var answer := Get(kwargs, "final_answer");
        if answer.None? {
          return Failure(ExecutionFailed(MissingFinalAnswer, schema));
        }
        finished := true;
        return Success(answer.value);
      case UserTool(tool) =>
        var outcome := tool.run(kwargs);
        if outcome.Raised? {
          return Failure(ExecutionFailed(outcome.message, schema));
        }
        return Success(outcome.value);
    }

    /** `_extract_agent_message_with_llm` */
    method ExtractAgentMessageWithLlm(userMessage: string, responseContent: string) returns (r: Option<Json>)
      ensures r == ExtractWithFixer(cfg, userMessage, responseContent).0
    {
      r := ExtractAgentMessage(cfg.loads, responseContent);
      if r.None? {
        var revisedContent := cfg.complete(cfg.model, FixerRequest(cfg, userMessage, responseContent));
        r := ExtractAgentMessage(cfg.loads, revisedContent);
      }
    }

    /** The second half of the loop body: validate, call, and append the feedback. */
    method Respond(userMessage: string, decision: Json) returns (result: Json)
      requires Valid() && IsAgentMessage(decision)
      modifies this
      ensures var (feedback, setsFinished, callResult) := Reaction(cfg, userMessage, decision);
        && previousMessages == old(previousMessages) + [Message(UserRole, Serialized(feedback))]
        && finished == (old(finished) || setsFinished) && result == callResult
    {
      var functionName := Field(decision, "function").s;
      var functionKwargs := Field(decision, "arguments");
      result := JNull;
      var validation := ValidateFunctionCall(functionName, functionKwargs.fields);
      if validation.Fail? {
        AppendFunctionCallError(userMessage, functionName, functionKwargs, validation.error);
      } else {
        var executed := ExecuteFunction(functionName, functionKwargs.fields);
        if executed.Success? {
          result := executed.value;
          AppendFunctionCallOk(userMessage, functionName, functionKwargs, result);
        } else {
          AppendFunctionCallError(userMessage, functionName, functionKwargs, executed.error);
        }
      }
    }

    /** One pass of the loop body of `add_user_message`; `stop` is the `return result` inside the loop. */
    method Iterate(userMessage: string) returns (stop: bool, result: Json)
      requires Valid()
      modifies this
      ensures var s := Step(cfg, userMessage, old(previousMessages), old(finished));
        previousMessages == old(previousMessages) + s.appended && finished == s.finished
        && stop == s.stop && result == s.result
    {
      ghost var history := previousMessages;
      var responseContent := cfg.complete(cfg.model, GetMessages());
      var responseMap := ExtractAgentMessageWithLlm(userMessage, responseContent);
      if responseMap.None? {
        AppendAgentMessage(Text(responseContent));
        AppendFormatError(userMessage, MalformedResponse(cfg.responseFormat));
        StepMalformed(cfg, userMessage, history, finished);
        return false, JNull;
      }
      var decision := responseMap.value;
      AppendAgentMessage(Serialized(decision));
      result := Respond(userMessage, decision);
      StepDecided(cfg, userMessage, history, old(finished));
      stop := finished;
    }

    /**
     * `add_user_message`: appends the user message, then runs at most
     * `max_iteration` iterations of request, extraction, validation and call.
     */
    method AddUserMessage(userMessage: string) returns (result: Json)
      requires Valid()
      modifies this
      ensures var run := Run(cfg, userMessage, old(previousMessages) + [UserText(userMessage)], old(finished), Iterations(cfg));
        previousMessages == run.messages && finished == run.finished && result == run.result
    {
      AppendUserMessage(userMessage);
      ghost var run := Run(cfg, userMessage, previousMessages, finished, Iterations(cfg));
      var n := if cfg.maxIteration > 0 then cfg.maxIteration else 0;
      for iteration := 0 to n
        invariant Run(cfg, userMessage, previousMessages, finished, n - iteration).messages == run.messages
        invariant Run(cfg, userMessage, previousMessages, finished, n - iteration).finished == run.finished
        invariant Run(cfg, userMessage, previousMessages, finished, n - iteration).result == run.result
      {
        ghost var history, wasFinished := previousMessages, finished;
        RunFirstStep(cfg, userMessage, history, wasFinished, n - iteration);
        var stop, callResult := Iterate(userMessage);
        if stop {
          return callResult;
        }
      }
      finished := false;
      return JNull;
    }
  }
}
