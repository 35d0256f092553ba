/**
 * Recovering the agent's decision from an LLM reply (agent/agent.py): the
 * shape check of the decision object, the fenced-code-block search, the
 * brace-matching scan, and the three-strategy extractor built from them.
 *
 * The tolerant JSON parser (`json_repair.loads`) is a parameter `loads`:
 * `None` when it raises, `Some(j)` when it returns `j`.
 */
module Extraction {
  import opened Wrappers
  import opened Strings
  import opened Dicts
  import opened JsonValues

  // ---------------------------------------------------------------------
  // The shape check (`_validate_agent_message`)
  // ---------------------------------------------------------------------

  /** Why a parsed reply is not an agent decision. */
  datatype ShapeError =
    | MalformedPayload(details: seq<string>) // MALFORMED PAYLOAD with the complaints
    | TypeErrorRaised                        // `in` on a number, bool or null, or `[key]` on a list or str

  /** The type a field must have: `str` or `dict`. */
  datatype FieldKind = StringField | ObjectField

  predicate HasKind(j: Json, kind: FieldKind)
  {
    match kind
    case StringField => j.JString?
    case ObjectField => j.JObject?
  }

  /** The decision shape: `thought` and `function` are strings and `arguments` is an object. */
  predicate IsAgentMessage(j: Json)
  {
    && HasField(j, "thought") && Field(j, "thought").JString?
    && HasField(j, "function") && Field(j, "function").JString?
    && HasField(j, "arguments") && Field(j, "arguments").JObject?
  }

  function MissingMessage(key: string): string
  {
    "The `" + key + "` field is missing"
  }

  function WrongKindMessage(key: string, kind: FieldKind): string
  {
    "The `" + key + "` field is not " + (if kind == StringField then "a string" else "an object")
  }

  /** The complaints about one field: missing, of the wrong type, or none. */
  function FieldComplaints(j: Json, key: string, kind: FieldKind): (r: seq<string>)
    requires j.JObject?
    ensures r == [] <==> HasField(j, key) && HasKind(Field(j, key), kind)
    ensures |r| <= 1
  {
    if !HasField(j, key) then [MissingMessage(key)]
    else if !HasKind(Field(j, key), kind) then [WrongKindMessage(key, kind)]
    else []
  }

  /**
   * Python's `key in j`: a key of a dict, an item of a list, a substring of a
   * str; None for the values on which `in` raises TypeError.
   */
  function PyIn(key: string, j: Json): (r: Option<bool>)
    ensures r.None? <==> !(j.JObject? || j.JArray? || j.JString?)
    ensures j.JObject? ==> r == Some(HasField(j, key))
    ensures j.JArray? ==> r == Some(JString(key) in j.items)
    ensures j.JString? ==> r == Some(Contains(j.s, key))
  {
    match j
    case JObject(fields) => Some(HasKey(fields, key))
    case JArray(items) => Some(JString(key) in items)
    case JString(text) => Some(Contains(text, key))
    case _ => None
  }

  /** A list or str that holds one of the three keys: indexing it with that key raises. */
  predicate NamesAKey(j: Json)
  {
    PyIn("thought", j) == Some(true) || PyIn("function", j) == Some(true) || PyIn("arguments", j) == Some(true)
  }

  /**
   * An empty list holds none of the keys, so it draws the three "missing"
   * complaints; the str "thought" holds one, so indexing it raises.
   */
  lemma NonMappingCases()
    ensures !NamesAKey(JArray([]))
    ensures NamesAKey(JString("thought"))
    ensures !NamesAKey(JString(""))
  {
    ContainsAt("thought", "thought", 0);
  }

  /** The complaints about a list or str that holds none of the keys: all three are missing. */
  const AllMissing := [MissingMessage("thought"), MissingMessage("function"), MissingMessage("arguments")]

  /** Every violated condition of a mapping, in the order the source checks them. */
  function ShapeComplaints(j: Json): seq<string>
    requires j.JObject?
  {
    FieldComplaints(j, "thought", StringField)
    + FieldComplaints(j, "function", StringField)
    + FieldComplaints(j, "arguments", ObjectField)
  }

  /** A mapping has no complaint exactly when it has the decision shape. */
  lemma ShapeComplaintsEmptyIff(j: Json)
    requires j.JObject?
    ensures ShapeComplaints(j) == [] <==> IsAgentMessage(j)
  {
  }

  /** Each field's absence, and each field's wrong type, is reported by its own message. */
  lemma ShapeComplaintsNameEachViolation(j: Json)
    requires j.JObject?
    ensures MissingMessage("thought") in ShapeComplaints(j) <==> !HasField(j, "thought")
    ensures MissingMessage("function") in ShapeComplaints(j) <==> !HasField(j, "function")
    ensures MissingMessage("arguments") in ShapeComplaints(j) <==> !HasField(j, "arguments")
    ensures WrongKindMessage("arguments", ObjectField) in ShapeComplaints(j)
            <==> HasField(j, "arguments") && !Field(j, "arguments").JObject?
  {
    var t := FieldComplaints(j, "thought", StringField);
    var f := FieldComplaints(j, "function", StringField);
    var a := FieldComplaints(j, "arguments", ObjectField);
    assert ShapeComplaints(j) == t + f + a;
    MessagesDiffer();
  }

  /** The six messages are pairwise different (they differ in the key or in the tail). */
  lemma MessagesDiffer()
    ensures MissingMessage("thought") != MissingMessage("function")
    ensures MissingMessage("thought") != MissingMessage("arguments")
    ensures MissingMessage("function") != MissingMessage("arguments")
    ensures MissingMessage("thought") != WrongKindMessage("thought", StringField)
    ensures MissingMessage("function") != WrongKindMessage("function", StringField)
    ensures MissingMessage("arguments") != WrongKindMessage("arguments", ObjectField)
    ensures MissingMessage("thought") != WrongKindMessage("function", StringField)
    ensures MissingMessage("thought") != WrongKindMessage("arguments", ObjectField)
    ensures MissingMessage("function") != WrongKindMessage("thought", StringField)
    ensures MissingMessage("function") != WrongKindMessage("arguments", ObjectField)
    ensures MissingMessage("arguments") != WrongKindMessage("thought", StringField)
    ensures MissingMessage("arguments") != WrongKindMessage("function", StringField)
    ensures WrongKindMessage("arguments", ObjectField) != WrongKindMessage("thought", StringField)
    ensures WrongKindMessage("arguments", ObjectField) != WrongKindMessage("function", StringField)
  {
    assert MissingMessage("thought")[5] != MissingMessage("function")[5];
    assert MissingMessage("thought")[5] != MissingMessage("arguments")[5];
    assert MissingMessage("function")[5] != MissingMessage("arguments")[5];
    assert MissingMessage("thought")[23] != WrongKindMessage("thought", StringField)[23];
    assert MissingMessage("function")[24] != WrongKindMessage("function", StringField)[24];
    assert MissingMessage("arguments")[25] != WrongKindMessage("arguments", ObjectField)[25];
    assert MissingMessage("thought")[5] != WrongKindMessage("function", StringField)[5];
    assert MissingMessage("thought")[5] != WrongKindMessage("arguments", ObjectField)[5];
    assert MissingMessage("function")[5] != WrongKindMessage("thought", StringField)[5];
    assert MissingMessage("function")[5] != WrongKindMessage("arguments", ObjectField)[5];
    assert MissingMessage("arguments")[5] != WrongKindMessage("thought", StringField)[5];
    assert MissingMessage("arguments")[5] != WrongKindMessage("function", StringField)[5];
    assert WrongKindMessage("arguments", ObjectField)[5] != WrongKindMessage("thought", StringField)[5];
    assert WrongKindMessage("arguments", ObjectField)[5] != WrongKindMessage("function", StringField)[5];
  }

  /**
   * The two checks of `_validate_agent_message` on one field: `key not in j`,
   * then `key in j and not isinstance(j[key], kind)`. On a list or str that
   * holds the key, `j[key]` raises TypeError.
   */
  method CheckField(j: Json, key: string, kind: FieldKind) returns (r: Result<seq<string>, ShapeError>)
    requires PyIn(key, j).Some?
    ensures j.JObject? ==> r == Success(FieldComplaints(j, key, kind))
    ensures !j.JObject? ==>
              r == if PyIn(key, j) == Some(true) then Failure(TypeErrorRaised) else Success([MissingMessage(key)])
  {
    var present := PyIn(key, j).value;
    var complaints: seq<string> := [];
    if !present {
      complaints := complaints + [MissingMessage(key)];
    }
    if present {
      if !j.JObject? {
        return Failure(TypeErrorRaised);
      }
      if !HasKind(Field(j, key), kind) {
        complaints := complaints + [WrongKindMessage(key, kind)];
      }
    }
    if j.JObject? {
      assert present == HasField(j, key);
      assert complaints == FieldComplaints(j, key, kind);
    } else {
      assert complaints == [MissingMessage(key)];
    }
    return Success(complaints);
  }

  /**
   * `_validate_agent_message`: collects the complaints one check at a time and
   * fails if there are any. A list or str goes through the same checks: `in`
   * tests membership or a substring, and `[key]` on it raises TypeError.
   */
  method ValidateAgentMessage(j: Json) returns (r: Outcome<ShapeError>)
    ensures r.Pass? <==> IsAgentMessage(j)
    ensures r.Fail? && j.JObject? ==> r.error == MalformedPayload(ShapeComplaints(j))
    ensures j.JArray? || j.JString? ==>
              r == Fail(if NamesAKey(j) then TypeErrorRaised else MalformedPayload(AllMissing))
    ensures !(j.JObject? || j.JArray? || j.JString?) ==> r == Fail(TypeErrorRaised)
  {
    if PyIn("thought", j).None? {
      return Fail(TypeErrorRaised);
    }
    var thought := CheckField(j, "thought", StringField);
    if thought.Failure? {
      return Fail(thought.error);
    }
    var fn := CheckField(j, "function", StringField);
    if fn.Failure? {
      return Fail(fn.error);
    }
    var arguments := CheckField(j, "arguments", ObjectField);
    if arguments.Failure? {
      return Fail(arguments.error);
    }
    var errorDetails := thought.value + fn.value + arguments.value;
    if j.JObject? {
      assert errorDetails == ShapeComplaints(j);
      ShapeComplaintsEmptyIff(j);
    } else {
      assert errorDetails == AllMissing;
    }
    if |errorDetails| > 0 {
      return Fail(MalformedPayload(errorDetails));
    }
    return Pass;
  }

  // ---------------------------------------------------------------------
  // The fenced code block: re.search(r"```(json)?\n({.*?})\n```", text, DOTALL)
  // ---------------------------------------------------------------------

  const JsonFence := "```json\n"
  const PlainFence := "```\n"
  const FenceClose := "}\n```"

  /** The opening fence at `p` that is followed by `{`, or "" when there is none. */
  function FenceAt(text: string, p: nat): (fence: string)
    requires p <= |text|
    ensures fence == JsonFence || fence == PlainFence || fence == ""
    ensures fence != "" ==> OccursAt(text, fence + "{", p)
  {
    if StartsWith(text[p..], JsonFence + "{") then JsonFence
    else if StartsWith(text[p..], PlainFence + "{") then PlainFence
    else ""
  }

  /**
   * The interior (group 2) of a match starting exactly at `p`: an opening fence
   * with or without `json`, then `{`, then the shortest text up to a `}` that is
   * followed by a newline and a closing fence.
   */
  function FenceMatchAt(text: string, p: nat): (r: Option<string>)
    requires p <= |text|
    ensures r.Some? ==> FenceAt(text, p) != ""
    ensures r.Some? ==> |r.value| >= 2 && r.value[0] == '{' && r.value[|r.value| - 1] == '}'
    ensures r.Some? ==> OccursAt(text, FenceAt(text, p) + r.value + "\n```", p)
  {
    var fence := FenceAt(text, p);
    if fence == "" then None
    else
      var open := p + |fence|;
      match IndexOf(text[open + 1..], FenceClose)
      case None => None
      case Some(k) =>
        FenceGroup(text, p, fence, k);
        Some(text[open..open + 1 + k + 1])
  }

  lemma FenceGroup(text: string, p: nat, fence: string, k: nat)
    requires p + |fence| + 1 <= |text|
    requires OccursAt(text, fence + "{", p)
    requires OccursAt(text[p + |fence| + 1..], FenceClose, k)
    ensures var group := text[p + |fence|..p + |fence| + 1 + k + 1];
      && |group| >= 2 && group[0] == '{' && group[|group| - 1] == '}'
      && OccursAt(text, fence + group + "\n```", p)
  {
    var open := p + |fence|;
    var close := open + 1 + k;
    OccursConcat(text, fence, "{", p);
    assert text[open..open + 1] == "{";
    OccursInSuffix(text, open + 1, FenceClose, k);
    assert FenceClose == "}" + "\n```";
    OccursConcat(text, "}", "\n```", close);
    assert text[close..close + 1] == "}";
    var group := text[open..close + 1];
    assert OccursAt(text, group, open);
    OccursConcat(text, fence, group, p);
    OccursConcat(text, fence + group, "\n```", p);
    assert group[0] == text[open] && group[|group| - 1] == text[close];
  }

  /** The leftmost match at or after `from`: `re.search` scans start positions left to right. */
  function FindFence(text: string, from: nat): (r: Option<nat>)
    ensures r.Some? ==> from <= r.value <= |text| && FenceMatchAt(text, r.value).Some?
    decreases |text| - from
  {
    if from > |text| then None
    else if FenceMatchAt(text, from).Some? then Some(from)
    else FindFence(text, from + 1)
  }

  /** No position before the one `FindFence` reports (or none at all, when it reports none) matches. */
  lemma {:induction false} FindFenceLeftmost(text: string, from: nat, p: nat)
    requires from <= p <= |text|
    requires FindFence(text, from).None? || p < FindFence(text, from).value
    ensures FenceMatchAt(text, p).None?
    decreases p - from
  {
    if p > from {
      FindFenceLeftmost(text, from + 1, p);
    }
  }

  /** `match.group(2)` of the search, if there is a match. */
  function FencedJson(text: string): Option<string>
  {
    match FindFence(text, 0)
    case None => None
    case Some(p) => FenceMatchAt(text, p)
  }

  // ---------------------------------------------------------------------
  // The brace scan (`_get_json_start_and_end`)
  // ---------------------------------------------------------------------

  /** Opening minus closing braces in `s`. */
  function Balance(s: string): int
  {
    if s == [] then 0
    else Balance(s[..|s| - 1]) + (if s[|s| - 1] == '{' then 1 else if s[|s| - 1] == '}' then -1 else 0)
  }

  /**
   * The scan from index `i` with `depth` braces open: the first `{` seen at
   * depth 0 is the start; a `}` at depth 0 is ignored; the `}` that brings the
   * depth back to 0 ends the scan. -1 stands for "not found".
   */
  function ScanBraces(text: string, i: nat, depth: nat, start: int): (int, int)
    requires i <= |text|
    decreases |text| - i
  {
    if i == |text| then (start, -1)
    else if text[i] == '{' then ScanBraces(text, i + 1, depth + 1, if depth == 0 then i else start)
    else if text[i] == '}' && depth > 0 then
      if depth == 1 then (start, i + 1) else ScanBraces(text, i + 1, depth - 1, start)
    else ScanBraces(text, i + 1, depth, start)
  }

  /** The (start, end) pair `_get_json_start_and_end` returns. */
  function JsonSpan(text: string): (int, int)
  {
    ScanBraces(text, 0, 0, -1)
  }

  /** `_get_json_start_and_end`: a left-to-right pass with a stack of open braces. */
  method GetJsonStartAndEnd(text: string) returns (jsonStart: int, jsonEnd: int)
    ensures (jsonStart, jsonEnd) == JsonSpan(text)
  {
    var braceStack: seq<char> := [];
    jsonStart, jsonEnd := -1, -1;
    for i := 0 to |text|
      invariant jsonEnd == -1
      invariant ScanBraces(text, i, |braceStack|, jsonStart) == JsonSpan(text)
    {
      var c := text[i];
      if c == '{' {
        if |braceStack| == 0 {
          jsonStart := i;
        }
        braceStack := braceStack + ['{'];
      } else if c == '}' {
        if |braceStack| > 0 {
          braceStack := braceStack[..|braceStack| - 1];
          if |braceStack| == 0 {
            jsonEnd := i + 1;
            break;
          }
        }
      }
    }
  }

  lemma BalanceSnoc(s: string, c: char)
    ensures Balance(s + [c]) == Balance(s) + (if c == '{' then 1 else if c == '}' then -1 else 0)
  {
    assert (s + [c])[..|s|] == s;
  }

  lemma BalanceStep(text: string, a: nat, i: nat)
    requires a <= i < |text|
    ensures Balance(text[a..i + 1]) == Balance(text[a..i]) + (if text[i] == '{' then 1 else if text[i] == '}' then -1 else 0)
  {
    assert text[a..i + 1] == text[a..i] + [text[i]];
    BalanceSnoc(text[a..i], text[i]);
  }

  /** The facts the scan keeps while some brace is open. */
  predicate OpenState(text: string, i: nat, depth: nat, start: int)
    requires i <= |text|
  {
    && 0 <= start < i && text[start] == '{' && '{' !in text[..start]
    && Balance(text[start..i]) == depth
    && forall k :: start < k <= i ==> Balance(text[start..k]) > 0
  }

  /** The start the scan reports is the first `{` of the text, or -1 when there is none. */
  lemma {:induction false} ScanStart(text: string, i: nat, depth: nat, start: int)
    requires i <= |text|
    requires depth == 0 ==> start == -1 && '{' !in text[..i]
    requires depth > 0 ==> OpenState(text, i, depth, start)
    ensures var r := ScanBraces(text, i, depth, start);
      && (r.0 == -1 <==> '{' !in text)
      && (r.0 != -1 ==> 0 <= r.0 < |text| && text[r.0] == '{' && '{' !in text[..r.0])
    decreases |text| - i
  {
    if i == |text| {
      assert text[..i] == text;
    } else {
      ScanStep(text, i, depth, start);
      if text[i] == '{' {
        ScanStart(text, i + 1, depth + 1, if depth == 0 then i else start);
      } else if text[i] == '}' && depth > 0 {
        if depth > 1 {
          ScanStart(text, i + 1, depth - 1, start);
        }
      } else {
        ScanStart(text, i + 1, depth, start);
      }
    }
  }

  /**
   * `text[s..e]` starts with `{`, ends with `}`, is balanced, and every shorter
   * prefix of it has more `{` than `}`.
   */
  predicate ClosedSpan(text: string, s: int, e: int)
  {
    && 0 <= s < e <= |text| && text[s] == '{' && text[e - 1] == '}'
    && Balance(text[s..e]) == 0
    && forall k :: s < k < e ==> Balance(text[s..k]) > 0
  }

  /** When the scan reports an end, the span it reports is closed. */
  lemma {:induction false} ScanEnd(text: string, i: nat, depth: nat, start: int)
    requires i <= |text|
    requires depth == 0 ==> start == -1 && '{' !in text[..i]
    requires depth > 0 ==> OpenState(text, i, depth, start)
    ensures ScanBraces(text, i, depth, start).1 != -1 ==>
      ClosedSpan(text, ScanBraces(text, i, depth, start).0, ScanBraces(text, i, depth, start).1)
    decreases |text| - i
  {
    if i < |text| {
      ScanStep(text, i, depth, start);
      if text[i] == '{' {
        ScanEnd(text, i + 1, depth + 1, if depth == 0 then i else start);
      } else if text[i] == '}' && depth > 0 {
        if depth > 1 {
          ScanEnd(text, i + 1, depth - 1, start);
        }
      } else {
        ScanEnd(text, i + 1, depth, start);
      }
    }
  }

  /** When the scan reports a start but no end, the depth never returns to zero. */
  lemma {:induction false} ScanUnclosed(text: string, i: nat, depth: nat, start: int)
    requires i <= |text|
    requires depth == 0 ==> start == -1 && '{' !in text[..i]
    requires depth > 0 ==> OpenState(text, i, depth, start)
    ensures var r := ScanBraces(text, i, depth, start);
      r.1 == -1 && r.0 >= 0 ==> forall k :: r.0 < k <= |text| ==> Balance(text[r.0..k]) > 0
    decreases |text| - i
  {
    if i < |text| {
      ScanStep(text, i, depth, start);
      if text[i] == '{' {
        ScanUnclosed(text, i + 1, depth + 1, if depth == 0 then i else start);
      } else if text[i] == '}' && depth > 0 {
        if depth > 1 {
          ScanUnclosed(text, i + 1, depth - 1, start);
        }
      } else {
        ScanUnclosed(text, i + 1, depth, start);
      }
    }
  }

  /** One step of the scan keeps the facts of `OpenState` (or of "nothing open yet"). */
  lemma ScanStep(text: string, i: nat, depth: nat, start: int)
    requires i < |text|
    requires depth == 0 ==> start == -1 && '{' !in text[..i]
    requires depth > 0 ==> OpenState(text, i, depth, start)
    ensures text[i] == '{' ==> OpenState(text, i + 1, depth + 1, if depth == 0 then i else start)
    ensures text[i] == '}' && depth > 1 ==> OpenState(text, i + 1, depth - 1, start)
    ensures text[i] == '}' && depth == 1 ==> ClosedSpan(text, start, i + 1)
    ensures text[i] != '{' && !(text[i] == '}' && depth > 0) ==>
      (depth == 0 ==> '{' !in text[..i + 1]) && (depth > 0 ==> OpenState(text, i + 1, depth, start))
  {
    assert text[..i + 1] == text[..i] + [text[i]];
    if depth > 0 {
      BalanceStep(text, start, i);
    } else if text[i] == '{' {
      assert text[i..i + 1] == ['{'];
      assert Balance(text[i..i + 1]) == 1;
    }
  }

  /** The properties of `_get_json_start_and_end` on a whole text. */
  lemma JsonSpanProperties(text: string)
    ensures JsonSpan(text).0 == -1 <==> '{' !in text
    ensures JsonSpan(text).0 != -1 ==>
      0 <= JsonSpan(text).0 < |text| && text[JsonSpan(text).0] == '{' && '{' !in text[..JsonSpan(text).0]
    ensures JsonSpan(text).1 != -1 ==> ClosedSpan(text, JsonSpan(text).0, JsonSpan(text).1)
    ensures JsonSpan(text).1 == -1 && JsonSpan(text).0 != -1 ==>
      forall k :: JsonSpan(text).0 < k <= |text| ==> Balance(text[JsonSpan(text).0..k]) > 0
  {
    assert text[..0] == [];
    ScanStart(text, 0, 0, -1);
    ScanEnd(text, 0, 0, -1);
    ScanUnclosed(text, 0, 0, -1);
  }

  // ---------------------------------------------------------------------
  // The three strategies (`_extract_agent_message`)
  // ---------------------------------------------------------------------

  /** One strategy's candidate: it counts when it parses and passes the shape check. */
  function TryCandidate(loads: string -> Option<Json>, candidate: string): (r: Option<Json>)
    ensures r.Some? ==> IsAgentMessage(r.value) && loads(candidate) == r
    ensures r.None? <==> loads(candidate).None? || !IsAgentMessage(loads(candidate).value)
  {
    match loads(candidate)
    case Some(j) => if IsAgentMessage(j) then Some(j) else None
    case None => None
  }

  /** The brace-span candidate, when the scan found both a start and an end. */
  function BraceCandidate(text: string): Option<string>
  {
    var (s, e) := JsonSpan(text);
    if s != -1 && e != -1 then
      JsonSpanProperties(text);
      Some(text[s..e])
    else None
  }

  /** The texts the strategies try, in order: the whole reply, the fenced block, the brace span. */
  function Candidates(text: string): (cs: seq<string>)
    ensures 1 <= |cs| <= 3 && cs[0] == text
  {
    [text]
    + (if FencedJson(text).Some? then [FencedJson(text).value] else [])
    + (if BraceCandidate(text).Some? then [BraceCandidate(text).value] else [])
  }

  /** The first candidate that counts. */
  function FirstValid(loads: string -> Option<Json>, cs: seq<string>): (r: Option<Json>)
    ensures r.Some? ==> IsAgentMessage(r.value)
  {
    if cs == [] then None
    else
      var first := TryCandidate(loads, cs[0]);
      if first.Some? then first else FirstValid(loads, cs[1..])
  }

  /** The candidate `FirstValid` returns is the first one that counts; there is none when it returns None. */
  lemma {:induction false} FirstValidPicksFirst(loads: string -> Option<Json>, cs: seq<string>, i: nat)
    requires i <= |cs|
    requires forall k :: 0 <= k < i ==> TryCandidate(loads, cs[k]).None?
    ensures i < |cs| && TryCandidate(loads, cs[i]).Some? ==> FirstValid(loads, cs) == TryCandidate(loads, cs[i])
    ensures i == |cs| ==> FirstValid(loads, cs).None?
    decreases i
  {
    if i > 0 {
      assert TryCandidate(loads, cs[0]).None?;
      assert forall k :: 0 <= k < i - 1 ==> cs[1..][k] == cs[k + 1];
      FirstValidPicksFirst(loads, cs[1..], i - 1);
    }
  }

  /**
   * `_extract_agent_message`: the whole reply, else the fenced block, else the
   * brace span; `None` stands for the MALFORMED RESPONSE error.
   */
  function ExtractAgentMessage(loads: string -> Option<Json>, text: string): (r: Option<Json>)
    ensures r.Some? ==> IsAgentMessage(r.value)
  {
    var whole := TryCandidate(loads, text);
    if whole.Some? then whole
    else
      var fenced := if FencedJson(text).Some? then TryCandidate(loads, FencedJson(text).value) else None;
      if fenced.Some? then fenced
      else if BraceCandidate(text).Some? then TryCandidate(loads, BraceCandidate(text).value)
      else None
  }

  /** Extraction returns the first candidate, in strategy order, that parses and has the decision shape. */
  lemma ExtractionTriesStrategiesInOrder(loads: string -> Option<Json>, text: string)
    ensures ExtractAgentMessage(loads, text) == FirstValid(loads, Candidates(text))
  {
    var cs := Candidates(text);
    var fenced := if FencedJson(text).Some? then [FencedJson(text).value] else [];
    var brace := if BraceCandidate(text).Some? then [BraceCandidate(text).value] else [];
    assert cs == [text] + fenced + brace;
    assert cs[1..] == fenced + brace;
    if fenced != [] {
      assert cs[1..][1..] == brace;
      assert FirstValid(loads, cs[1..]) ==
        if TryCandidate(loads, fenced[0]).Some? then TryCandidate(loads, fenced[0]) else FirstValid(loads, brace);
    }
    if brace != [] {
      assert brace[1..] == [];
      assert FirstValid(loads, brace) == TryCandidate(loads, brace[0]);
    }
  }

  /** A reply that is itself a valid decision is taken as is, without looking for fences or braces. */
  lemma WholeReplyFirst(loads: string -> Option<Json>, text: string)
    requires loads(text).Some? && IsAgentMessage(loads(text).value)
    ensures ExtractAgentMessage(loads, text) == loads(text)
  {
  }

  /** A reply without any `{` that does not parse as a decision is malformed. */
  lemma NoBraceNoDecision(loads: string -> Option<Json>, text: string)
    requires '{' !in text && TryCandidate(loads, text).None?
    ensures ExtractAgentMessage(loads, text).None?
  {
    JsonSpanProperties(text);
  }
}
