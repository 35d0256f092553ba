/**
 * Tool schemas (agent/_helper.py): a callable's explicit descriptor is turned
 * into the metadata record the agent shows the model, and rendered as a
 * one-line signature.
 *
 * Python reads the descriptor off the callable by reflection; here the
 * descriptor is given: the parameter names in declaration order, their
 * resolved type hints and their defaults.
 */
module Schema {
  import opened Wrappers
  import opened Strings
  import opened Dicts
  import opened JsonValues

  /** The generic containers whose type arguments become `elements`. */
  datatype Container = Tuple | List | Set | FrozenSet

  function ContainerName(c: Container): string
  {
    match c
    case Tuple => "tuple"
    case List => "list"
    case Set => "set"
    case FrozenSet => "frozenset"
  }

  /** A value a `Literal[...]` hint lists, as `get_args` returns it. */
  datatype LiteralValue = LitStr(s: string) | LitInt(i: int) | LitBool(b: bool) | LitNone

  /** `str(v)`: the text the signature puts between double quotes. */
  function LiteralText(v: LiteralValue): string
  {
    match v
    case LitStr(s) => s
    case LitInt(i) => if i < 0 then "-" + Decimal(-i) else Decimal(i)
    case LitBool(b) => if b then "True" else "False"
    case LitNone => "None"
  }

  /** The value as `json.dumps` serialises it: each kind keeps its JSON kind. */
  function LiteralJson(v: LiteralValue): (j: Json)
    ensures v.LitStr? <==> j.JString?
    ensures v.LitInt? <==> j.JNumber?
    ensures v.LitBool? <==> j.JBool?
    ensures v.LitNone? <==> j.JNull?
  {
    match v
    case LitStr(s) => JString(s)
    case LitInt(i) => JNumber(i)
    case LitBool(b) => JBool(b)
    case LitNone => JNull
  }

  /** Serialising a literal value loses nothing: distinct values give distinct JSON. */
  lemma LiteralJsonInjective(v: LiteralValue, w: LiteralValue)
    requires LiteralJson(v) == LiteralJson(w)
    ensures v == w
  {
  }

  /**
   * The signature text renders `Literal[1]` and `Literal["1"]` alike, while the
   * JSON schema keeps the number apart from the string.
   */
  lemma SignatureTextConflatesKinds()
    ensures LiteralText(LitInt(1)) == LiteralText(LitStr("1"))
    ensures LiteralJson(LitInt(1)) != LiteralJson(LitStr("1"))
    ensures LiteralText(LitBool(true)) == LiteralText(LitStr("True"))
    ensures LiteralJson(LitBool(true)) != LiteralJson(LitStr("True"))
  {
    assert Decimal(1) == "1";
  }

  /** A resolved type hint. */
  datatype Annotation =
    | Named(name: string)                               // any other hint, by its name
    | LiteralOf(values: seq<LiteralValue>)              // Literal[v1, v2, ...]
    | Generic(origin: Container, args: seq<Annotation>) // tuple[...], list[...], set[...], frozenset[...]
    | DictOf(keyType: Annotation, valueType: Annotation) // dict[K, V]
    | Annotated(base: Annotation, metadata: seq<string>) // Annotated[T, m, ...]

  /** The hint of a parameter or return value that has none (`inspect.Parameter.empty`). */
  const Unannotated := Named("_empty")

  /** The parsed form of a type hint: the dictionary `_parse_annotation` builds. */
  datatype TypeInfo = TypeInfo(typeName: string, detail: Detail, description: Option<string>)

  datatype Detail =
    | Scalar                                        // only {"type": name}
    | Values(values: seq<LiteralValue>)             // "values"
    | Elements(elements: seq<TypeInfo>)             // "elements"
    | KeyValue(keyType: TypeInfo, valueType: TypeInfo) // "key_type", "value_type"

  function Size(a: Annotation): nat
  {
    match a
    case Named(_) => 1
    case LiteralOf(_) => 1
    case Generic(_, args) => 1 + SizeAll(args)
    case DictOf(k, v) => 1 + Size(k) + Size(v)
    case Annotated(b, _) => 1 + Size(b)
  }

  function SizeAll(args: seq<Annotation>): nat
  {
    if args == [] then 0 else Size(args[0]) + SizeAll(args[1..])
  }

  lemma SizeAllBound(args: seq<Annotation>, i: nat)
    requires i < |args|
    ensures Size(args[i]) <= SizeAll(args)
  {
    if i > 0 {
      SizeAllBound(args[1..], i - 1);
    }
  }

  /**
   * Python's typing flattens nested `Annotated`: `Annotated[Annotated[T, a], b]`
   * is `Annotated[T, a, b]`. Returns the innermost base and the flattened metadata.
   */
  function Unwrap(a: Annotation): (r: (Annotation, seq<string>))
    requires a.Annotated?
    ensures !r.0.Annotated? && Size(r.0) < Size(a)
  {
    if a.base.Annotated? then
      var inner := Unwrap(a.base);
      (inner.0, inner.1 + a.metadata)
    else (a.base, a.metadata)
  }

  /** `_parse_annotation` */
  function ParseAnnotation(a: Annotation): (t: TypeInfo)
    ensures t.description.Some? <==> a.Annotated?
    ensures a.Annotated? ==> t.description == Some(if |Unwrap(a).1| > 0 then Unwrap(a).1[0] else "")
    ensures a.LiteralOf? ==> t == TypeInfo("Literal", Values(a.values), None)
    ensures a.Generic? ==> t.typeName == ContainerName(a.origin) && t.detail.Elements?
                           && |t.detail.elements| == |a.args|
    ensures a.DictOf? ==> t.typeName == "dict" && t.detail.KeyValue?
    ensures a.Named? ==> t == TypeInfo(a.name, Scalar, None)
    decreases Size(a)
  {
    match a
    case Annotated(_, _) =>
      var (base, metadata) := Unwrap(a);
      ParseAnnotation(base).(description := Some(if |metadata| > 0 then metadata[0] else ""))
    case LiteralOf(values) => TypeInfo("Literal", Values(values), None)
    case Generic(origin, args) =>
      TypeInfo(ContainerName(origin),
               Elements(seq(|args|, i requires 0 <= i < |args| =>
                          SizeAllBound(args, i); ParseAnnotation(args[i]))),
               None)
    case DictOf(k, v) => TypeInfo("dict", KeyValue(ParseAnnotation(k), ParseAnnotation(v)), None)
    case Named(name) => TypeInfo(name, Scalar, None)
  }

  /** `Annotated[T, m, ...]` parses as `T` does, with `m` added as its description. */
  lemma AnnotatedParsesAsBase(b: Annotation, m: string, ms: seq<string>)
    requires !b.Annotated?
    ensures ParseAnnotation(Annotated(b, [m] + ms)) == ParseAnnotation(b).(description := Some(m))
    ensures TypeInfoJson(ParseAnnotation(Annotated(b, [m] + ms))).fields
            == TypeInfoJson(ParseAnnotation(b)).fields + [("description", JString(m))]
  {
  }

  /** Nesting `Annotated` is the same as listing all the metadata on one level. */
  lemma NestedFlattens(b: Annotation, m1: seq<string>, m2: seq<string>)
    ensures ParseAnnotation(Annotated(Annotated(b, m1), m2)) == ParseAnnotation(Annotated(b, m1 + m2))
  {
    if b.Annotated? {
      var inner := Unwrap(b);
      assert Unwrap(Annotated(Annotated(b, m1), m2)) == (inner.0, inner.1 + m1 + m2);
      assert Unwrap(Annotated(b, m1 + m2)) == (inner.0, inner.1 + (m1 + m2));
    } else {
      assert Unwrap(Annotated(Annotated(b, m1), m2)) == (b, m1 + m2);
    }
  }

  /** Each element of a container's schema is the parse of the matching type argument. */
  lemma ElementsParse(o: Container, args: seq<Annotation>, i: nat)
    requires i < |args|
    ensures ParseAnnotation(Generic(o, args)).detail.elements[i] == ParseAnnotation(args[i])
  {
  }

  /** A `dict[K, V]` schema holds the parses of `K` and `V`. */
  lemma DictParses(k: Annotation, v: Annotation)
    ensures ParseAnnotation(DictOf(k, v)).detail == KeyValue(ParseAnnotation(k), ParseAnnotation(v))
  {
  }

  /** A `Literal` schema lists every value in order, each with its own JSON kind. */
  lemma LiteralSchemaKeepsValues(vs: seq<LiteralValue>)
    ensures var fields := TypeInfoJson(ParseAnnotation(LiteralOf(vs))).fields;
      && Keys(fields) == ["type", "values"]
      && fields[1].1.JArray? && |fields[1].1.items| == |vs|
      && forall i :: 0 <= i < |vs| ==> fields[1].1.items[i] == LiteralJson(vs[i])
  {
    var fields := TypeInfoJson(ParseAnnotation(LiteralOf(vs))).fields;
    assert fields[1] == ("values", JArray(seq(|vs|, i requires 0 <= i < |vs| => LiteralJson(vs[i]))));
  }

  /** One declared parameter; `default` is None when the parameter has no default. */
  datatype ParamDescriptor = ParamDescriptor(name: string, annotation: Annotation, default: Option<Json>)

  /** A callable as the registry sees it. */
  datatype FunctionDescriptor = FunctionDescriptor(
    name: string,              // __name__
    doc: Option<string>,       // inspect.getdoc
    params: seq<ParamDescriptor>,
    returnHint: Annotation)

  /** What a tool call does: return a JSON value or raise with a message. */
  datatype ToolOutcome = Returned(value: Json) | Raised(message: string)

  /** A tool: its descriptor and its behaviour on a keyword-argument mapping. */
  datatype Tool = Tool(descriptor: FunctionDescriptor, run: Dict<string, Json> -> ToolOutcome)

  function ToolName(t: Tool): string
  {
    t.descriptor.name
  }

  /** The metadata of one argument: its parsed hint plus "default" and "required". */
  datatype ParamSchema = ParamSchema(info: TypeInfo, default: Json, required: bool)

  /** The dictionary `extract_metadata` returns. */
  datatype FunctionSchema = FunctionSchema(
    name: string,
    description: Option<string>,
    arguments: Dict<string, ParamSchema>,
    returnInfo: TypeInfo)

  /** A parameter is required exactly when it has no default; an absent default is recorded as null. */
  function ParamSchemaOf(p: ParamDescriptor): (r: ParamSchema)
    ensures r.required <==> p.default.None?
    ensures r.default == (if p.default.Some? then p.default.value else JNull)
    ensures r.info == ParseAnnotation(p.annotation)
  {
    ParamSchema(ParseAnnotation(p.annotation),
                if p.default.None? then JNull else p.default.value,
                p.default.None?)
  }

  /** The argument dictionary after assigning the parameters of `ps` in order. */
  function ArgumentsOf(ps: seq<ParamDescriptor>): Dict<string, ParamSchema>
  {
    if ps == [] then []
    else Put(ArgumentsOf(ps[..|ps| - 1]), ps[|ps| - 1].name, ParamSchemaOf(ps[|ps| - 1]))
  }

  function ParamNames(ps: seq<ParamDescriptor>): (names: seq<string>)
    ensures |names| == |ps|
    ensures forall i :: 0 <= i < |ps| ==> names[i] == ps[i].name
  {
    seq(|ps|, i requires 0 <= i < |ps| => ps[i].name)
  }

  /** The specification of `extract_metadata`. */
  function MetadataOf(f: FunctionDescriptor): FunctionSchema
  {
    FunctionSchema(f.name, f.doc, ArgumentsOf(f.params), ParseAnnotation(f.returnHint))
  }

  /** `extract_metadata`: fills the argument dictionary one parameter at a time. */
  method ExtractMetadata(f: FunctionDescriptor) returns (r: FunctionSchema)
    ensures r == MetadataOf(f)
  {
    var parameters: Dict<string, ParamSchema> := [];
    for i := 0 to |f.params|
      invariant parameters == ArgumentsOf(f.params[..i])
    {
      var param := f.params[i];
      assert f.params[..i + 1][..i] == f.params[..i];
      parameters := Put(parameters, param.name, ParamSchemaOf(param));
    }
    assert f.params[..|f.params|] == f.params;
    r := FunctionSchema(f.name, f.doc, parameters, ParseAnnotation(f.returnHint));
  }

  /**
   * With distinct parameter names (as every Python signature has), the argument
   * dictionary holds exactly one entry per parameter, in declaration order.
   */
  lemma {:induction false} ArgumentsInDeclarationOrder(ps: seq<ParamDescriptor>)
    requires Distinct(ParamNames(ps))
    ensures |ArgumentsOf(ps)| == |ps|
    ensures forall i :: 0 <= i < |ps| ==> ArgumentsOf(ps)[i] == (ps[i].name, ParamSchemaOf(ps[i]))
  {
    if ps != [] {
      var n := |ps| - 1;
      var init := ps[..n];
      var last := ps[n];
      assert ParamNames(init) == ParamNames(ps)[..n];
      ArgumentsInDeclarationOrder(init);
      var before := ArgumentsOf(init);
      LastNameIsNew(ps, before);
      PutAppends(before, last.name, ParamSchemaOf(last));
      var after := before + [(last.name, ParamSchemaOf(last))];
      assert ArgumentsOf(ps) == after;
      forall i | 0 <= i < |ps| ensures after[i] == (ps[i].name, ParamSchemaOf(ps[i])) {
        if i < n {
          assert init[i] == ps[i];
          assert before[i] == (init[i].name, ParamSchemaOf(init[i]));
          assert after[i] == before[i];
        } else {
          assert after[i] == (last.name, ParamSchemaOf(last));
        }
      }
    }
  }

  lemma LastNameIsNew(ps: seq<ParamDescriptor>, before: Dict<string, ParamSchema>)
    requires |ps| >= 1 && Distinct(ParamNames(ps))
    requires |before| == |ps| - 1
    requires forall i :: 0 <= i < |before| ==> before[i].0 == ps[i].name
    ensures !HasKey(before, ps[|ps| - 1].name)
  {
    var n := |ps| - 1;
    forall j | 0 <= j < n ensures Keys(before)[j] != ps[n].name {
      assert ParamNames(ps)[j] != ParamNames(ps)[n];
    }
  }

  /** `get_metadata_description` */
  function GetMetadataDescription(s: FunctionSchema): (r: string)
    ensures s.description.None? ==> r == ""
    ensures s.description.Some? ==> r == s.description.value
  {
    if s.description.None? then "" else s.description.value
  }

  /** `"v"` for every literal value, in order. */
  function Quoted(values: seq<LiteralValue>): (r: seq<string>)
    ensures |r| == |values|
    ensures forall i :: 0 <= i < |values| ==> r[i] == "\"" + LiteralText(values[i]) + "\""
  {
    seq(|values|, i requires 0 <= i < |values| => "\"" + LiteralText(values[i]) + "\"")
  }

  /** The type text of one argument: `Literal["v1" | "v2"]` for literals, the type name otherwise. */
  function ArgTypeText(t: TypeInfo): string
  {
    if t.typeName == "Literal" && t.detail.Values? then
      "Literal[" + Join(Quoted(t.detail.values), " | ") + "]"
    else t.typeName
  }

  /** `name: type` for one argument. */
  function ArgEntry(name: string, p: ParamSchema): string
  {
    name + ": " + ArgTypeText(p.info)
  }

  function ArgEntries(args: Dict<string, ParamSchema>): (r: seq<string>)
    ensures |r| == |args|
    ensures forall i :: 0 <= i < |args| ==> r[i] == ArgEntry(args[i].0, args[i].1)
  {
    seq(|args|, i requires 0 <= i < |args| => ArgEntry(args[i].0, args[i].1))
  }

  lemma ArgEntriesSnoc(args: Dict<string, ParamSchema>, i: nat)
    requires i < |args|
    ensures ArgEntries(args[..i + 1]) == ArgEntries(args[..i]) + [ArgEntry(args[i].0, args[i].1)]
  {
    var a, b := ArgEntries(args[..i + 1]), ArgEntries(args[..i]) + [ArgEntry(args[i].0, args[i].1)];
    assert |a| == |b|;
    forall k | 0 <= k < |a| ensures a[k] == b[k] {
      if k < i {
        assert args[..i + 1][k] == args[..i][k];
      }
    }
  }

  /** The text between the parentheses of a signature. */
  function ArgsText(s: FunctionSchema): string
  {
    Join(ArgEntries(s.arguments), ", ")
  }

  /** The specification of `get_metadata_signature`: `name(a1: t1, ..., an: tn) -> ret`. */
  function SignatureOf(s: FunctionSchema): string
  {
    s.name + "(" + ArgsText(s) + ") -> " + s.returnInfo.typeName
  }

  /**
   * The signature lists every argument exactly once and in schema order: as long
   * as no entry itself contains ", ", splitting the argument text on ", " gives
   * back one `name: type` entry per argument.
   */
  lemma SignatureListsEveryArgument(s: FunctionSchema)
    requires |s.arguments| >= 1
    requires forall i :: 0 <= i < |s.arguments| ==> !Contains(ArgEntry(s.arguments[i].0, s.arguments[i].1), ", ")
    ensures Split(ArgsText(s), ", ") == ArgEntries(s.arguments)
    ensures |Split(ArgsText(s), ", ")| == |s.arguments|
  {
    assert BorderFree(", ") by {
      forall k | 0 < k < |", "| ensures ", "[k..] != ", "[..|", "| - k] {
        assert ", "[k..][0] == ' ';
      }
    }
    SplitJoin(ArgEntries(s.arguments), ", ");
  }

  /** `get_metadata_signature`: collects one `name: type` entry per argument, then joins them. */
  method GetMetadataSignature(s: FunctionSchema) returns (signature: string)
    ensures signature == SignatureOf(s)
  {
    var argsList: seq<string> := [];
    for i := 0 to |s.arguments|
      invariant argsList == ArgEntries(s.arguments[..i])
    {
      var (argName, argData) := s.arguments[i];
      var argType := argData.info.typeName;
      if argType == "Literal" && argData.info.detail.Values? {
        var values := Join(Quoted(argData.info.detail.values), " | ");
        argType := "Literal[" + values + "]";
      }
      assert argName + ": " + argType == ArgEntry(s.arguments[i].0, s.arguments[i].1);
      ArgEntriesSnoc(s.arguments, i);
      argsList := argsList + [argName + ": " + argType];
    }
    assert s.arguments[..|s.arguments|] == s.arguments;
    var argsStr := Join(argsList, ", ");
    assert argsStr == ArgsText(s);
    signature := s.name + "(" + argsStr + ") -> " + s.returnInfo.typeName;
  }

  // ---------------------------------------------------------------------
  // The schema dictionaries as JSON (what `json.dumps` serialises)
  // ---------------------------------------------------------------------

  /** The dictionary `_parse_annotation` returns, key by key in insertion order. */
  function TypeInfoJson(t: TypeInfo): (r: Json)
    ensures r.JObject? && |r.fields| >= 1 && r.fields[0] == ("type", JString(t.typeName))
    ensures HasKey(r.fields, "description") <==> t.description.Some?
    decreases t
  {
    var detail := match t.detail
      case Scalar => []
      case Values(vs) => [("values", JArray(seq(|vs|, i requires 0 <= i < |vs| => LiteralJson(vs[i]))))]
      case Elements(es) =>
        [("elements", JArray(seq(|es|, i requires 0 <= i < |es| => assert es[i] in es; TypeInfoJson(es[i]))))]
      case KeyValue(k, v) => [("key_type", TypeInfoJson(k)), ("value_type", TypeInfoJson(v))];
    var description := if t.description.Some? then [("description", JString(t.description.value))] else [];
    var fields := [("type", JString(t.typeName))] + detail + description;
    assert Keys(fields) == ["type"] + Keys(detail) + Keys(description);
    assert "description" !in Keys(detail) by {
      assert Keys(detail) == [] || Keys(detail) == ["values"] || Keys(detail) == ["elements"]
          || Keys(detail) == ["key_type", "value_type"];
    }
    assert Keys(description) == if t.description.Some? then ["description"] else [];
    assert "description" in Keys(fields) <==> t.description.Some?;
    JObject(fields)
  }

  /** One argument's dictionary: the parsed hint updated with "default" and "required". */
  function ParamSchemaJson(p: ParamSchema): (r: Json)
    ensures r.JObject? && Get(r.fields, "required") == Some(JBool(p.required))
    ensures Get(r.fields, "default") == Some(p.default)
    ensures Get(r.fields, "type") == Some(JString(p.info.typeName))
  {
    var info := TypeInfoJson(p.info).fields;
    assert Get(info, "type") == Some(JString(p.info.typeName));
    JObject(Put(Put(info, "default", p.default), "required", JBool(p.required)))
  }

  /** The dictionary `extract_metadata` returns, as JSON. */
  function FunctionSchemaJson(s: FunctionSchema): (r: Json)
    ensures r.JObject? && Keys(r.fields) == ["name", "description", "arguments", "return"]
    ensures Get(r.fields, "arguments") == Some(JObject(MapValues(s.arguments, ParamSchemaJson)))
  {
    var fields := [("name", JString(s.name)),
                   ("description", if s.description.Some? then JString(s.description.value) else JNull),
                   ("arguments", JObject(MapValues(s.arguments, ParamSchemaJson))),
                   ("return", TypeInfoJson(s.returnInfo))];
    assert fields[1..][1..][0].0 == "arguments";
    assert Get(fields[1..], "arguments") == Get(fields[1..][1..], "arguments");
    JObject(fields)
  }
}
