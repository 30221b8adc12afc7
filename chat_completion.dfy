/** The chat-completion data model of `src/api/chat_completion.rs` and the
    JSON shape serde gives it. Serialisation is modelled as total functions
    into `JsonValue.Value`, members in the order serde writes them. */
module ChatCompletion {
  import opened Wrappers
  import opened JsonValue

  /** Rust's `usize` on a 64-bit target. */
  type Usize = x: nat | x < 0x1_0000_0000_0000_0000

  // ---------------------------------------------------------------------
  // Enumerations and their serde names
  // ---------------------------------------------------------------------

  /** `ToolChoice`; `None` is its `#[default]`. */
  datatype ToolChoice = None | Auto | Function(name: string)

  /** `ToolType`: only functions are supported. */
  datatype ToolType = Function

  /** `ChatResponseFormat`; `Json` is its `#[default]`. */
  datatype ChatResponseFormat = Text | Json

  datatype ChatResponseFormatObject = ChatResponseFormatObject(kind: ChatResponseFormat)

  /** `FinishReason`; `Stop` is its `#[default]`. */
  datatype FinishReason = Stop | Length | ContentFilter | ToolCalls

  /** `ChatCompleteModel`: seven named models and an untagged fallback. */
  datatype ChatCompleteModel =
    | Gpt3Turbo
    | Gpt3TurboInstruct
    | Gpt4Turbo
    | Gpt4TurboVision
    | DeepSeekChat
    | DeepSeekCoder
    | DeepSeekReasoner
    | Other(name: string)

  /** The `#[default]` model. */
  const DefaultModel: ChatCompleteModel := Gpt3Turbo

  function ToolTypeName(t: ToolType): string {
    "function"
  }

  /** Deserialising a `ToolType` accepts exactly its one tag. */
  function ParseToolType(s: string): (r: Option<ToolType>)
    ensures r.Some? <==> s == ToolTypeName(ToolType.Function)
  {
    if s == "function" then Some(ToolType.Function) else Option.None
  }

  function ResponseFormatName(f: ChatResponseFormat): string {
    match f
    case Text => "text"
    case Json => "json"
  }

  function FinishReasonName(f: FinishReason): string {
    match f
    case Stop => "stop"
    case Length => "length"
    case ContentFilter => "content_filter"
    case ToolCalls => "tool_calls"
  }

  /** Deserialising a `FinishReason` from its snake_case tag. */
  function ParseFinishReason(s: string): (r: Option<FinishReason>)
    ensures r.Some? ==> FinishReasonName(r.value) == s
  {
    if s == "stop" then Some(Stop)
    else if s == "length" then Some(Length)
    else if s == "content_filter" then Some(ContentFilter)
    else if s == "tool_calls" then Some(ToolCalls)
    else Option.None
  }

  lemma FinishReasonRoundTrip(s: string, f: FinishReason)
    ensures ParseFinishReason(s) == Some(f) <==> s == FinishReasonName(f)
  {
  }

  /** The `#[serde(rename = …)]` string of a model; `Other(s)` is untagged. */
  function ModelName(m: ChatCompleteModel): (s: string)
    ensures m.Other? ==> s == m.name
    ensures !m.Other? ==> IsKnownModelName(s)
  {
    match m
    case Gpt3Turbo => "gpt-3.5-turbo-1106"
    case Gpt3TurboInstruct => "gpt-3.5-turbo-instruct"
    case Gpt4Turbo => "gpt-4-1106-preview"
    case Gpt4TurboVision => "gpt-4-1106-vision-preview"
    case DeepSeekChat => "deepseek-chat"
    case DeepSeekCoder => "deepseek-coder"
    case DeepSeekReasoner => "deepseek-reasoner"
    case Other(s) => s
  }

  predicate IsNamedModel(m: ChatCompleteModel) {
    !m.Other?
  }

  /** The strings that deserialise to a named variant. */
  predicate IsKnownModelName(s: string) {
    s in {"gpt-3.5-turbo-1106", "gpt-3.5-turbo-instruct", "gpt-4-1106-preview",
          "gpt-4-1106-vision-preview", "deepseek-chat", "deepseek-coder", "deepseek-reasoner"}
  }

  /** Deserialising a model name: the renamed variants are tried first and
      every other string falls through to the untagged `Other`. */
  function ParseModel(s: string): (m: ChatCompleteModel)
    ensures m.Other? <==> !IsKnownModelName(s)
  {
    if s == "gpt-3.5-turbo-1106" then Gpt3Turbo
    else if s == "gpt-3.5-turbo-instruct" then Gpt3TurboInstruct
    else if s == "gpt-4-1106-preview" then Gpt4Turbo
    else if s == "gpt-4-1106-vision-preview" then Gpt4TurboVision
    else if s == "deepseek-chat" then DeepSeekChat
    else if s == "deepseek-coder" then DeepSeekCoder
    else if s == "deepseek-reasoner" then DeepSeekReasoner
    else Other(s)
  }

  /** Decoding then encoding a model name gives the name back, for every string. */
  lemma ParseModelThenName(s: string)
    ensures ModelName(ParseModel(s)) == s
  {
  }

  /** Encoding then decoding a model gives it back exactly when it is not an
      `Other` that spells a named model's string. */
  lemma ModelNameThenParse(m: ChatCompleteModel)
    ensures ParseModel(ModelName(m)) == m <==> !(m.Other? && IsKnownModelName(m.name))
    ensures IsNamedModel(m) ==> IsKnownModelName(ModelName(m))
  {
  }

  lemma DefaultModelName()
    ensures ModelName(DefaultModel) == "gpt-3.5-turbo-1106"
    ensures ParseModel("gpt-3.5-turbo-1106") == DefaultModel
  {
  }

  /** A unit variant is written as its snake_case string; the struct variant
      `Function` takes serde's externally tagged form. */
  function EncodeToolChoice(c: ToolChoice): (v: Value)
    ensures c.Function? <==> v.JObj?
  {
    match c
    case None => JStr("none")
    case Auto => JStr("auto")
    case Function(name) => JObj([("function", JObj([("name", JStr(name))]))])
  }

  /** Different tool choices never share a wire form. */
  lemma ToolChoiceInjective(a: ToolChoice, b: ToolChoice)
    requires EncodeToolChoice(a) == EncodeToolChoice(b)
    ensures a == b
  {
  }

  lemma ToolChoiceAutoIsAuto()
    ensures EncodeToolChoice(Auto) == JStr("auto")
    ensures EncodeToolChoice(ToolChoice.None) == JStr("none")
  {
  }

  function EncodeResponseFormat(f: ChatResponseFormatObject): (v: Value)
    ensures v.JObj? && Keys(v.members) == ["type"]
  {
    JObj([("type", JStr(ResponseFormatName(f.kind)))])
  }

  /** `{"type": "json"}` is what `Json` serialises to under the snake_case
      renaming (the OpenAI wire value is `"json_object"`). */
  lemma ResponseFormatWire()
    ensures EncodeResponseFormat(ChatResponseFormatObject(Json)) == JObj([("type", JStr("json"))])
    ensures EncodeResponseFormat(ChatResponseFormatObject(Text)) == JObj([("type", JStr("text"))])
  {
  }

  /** The two formats are told apart on the wire. */
  lemma ResponseFormatInjective(f: ChatResponseFormatObject, g: ChatResponseFormatObject)
    ensures EncodeResponseFormat(f) == EncodeResponseFormat(g) <==> f == g
  {
  }

  // ---------------------------------------------------------------------
  // Tools and tool calls
  // ---------------------------------------------------------------------

  /** `FunctionInfo`; `parameters` is a JSON Schema the caller supplies. */
  datatype FunctionInfo = FunctionInfo(description: string, name: string, parameters: Value)

  /** `Tool` (`r#type` and `function` are Dafny keywords: `kind`, `info`). */
  datatype Tool = Tool(kind: ToolType, info: FunctionInfo)

  /** `FunctionCall`: `arguments` is raw, possibly malformed, JSON text. */
  datatype FunctionCall = FunctionCall(name: string, arguments: string)

  datatype ToolCall = ToolCall(id: string, kind: ToolType, call: FunctionCall)

  /** `Tool::new_function`: the schema generated from the argument type is
      passed in as `schema`. */
  function NewFunctionTool(name: string, description: string, schema: Value): (t: Tool)
    ensures t.kind == ToolType.Function
    ensures t.info.name == name && t.info.description == description
    ensures t.info.parameters == schema
  {
    Tool.Tool(ToolType.Function, FunctionInfo(description, name, schema))
  }

  function EncodeTool(t: Tool): (v: Value)
    ensures v.JObj? && Keys(v.members) == ["type", "function"]
  {
    JObj([("type", JStr(ToolTypeName(t.kind))),
          ("function", JObj([("description", JStr(t.info.description)),
                             ("name", JStr(t.info.name)),
                             ("parameters", t.info.parameters)]))])
  }

  function EncodeTools(ts: seq<Tool>): (vs: seq<Value>)
    ensures |vs| == |ts|
    ensures forall i :: 0 <= i < |ts| ==> vs[i] == EncodeTool(ts[i])
  {
    seq(|ts|, i requires 0 <= i < |ts| => EncodeTool(ts[i]))
  }

  /** Serialising a tool loses nothing: different tools give different JSON. */
  lemma EncodeToolInjective(a: Tool, b: Tool)
    ensures EncodeTool(a) == EncodeTool(b) <==> a == b
  {
  }

  /** A tool made by `NewFunctionTool` is written as
      `{"type": "function", "function": {"description", "name", "parameters"}}`. */
  lemma NewFunctionToolShape(name: string, description: string, schema: Value)
    ensures var v := EncodeTool(NewFunctionTool(name, description, schema));
            Get(v, "type") == Some(JStr("function")) &&
            Get(v, "function") == Some(JObj([("description", JStr(description)),
                                             ("name", JStr(name)),
                                             ("parameters", schema)]))
  {
    var v := EncodeTool(NewFunctionTool(name, description, schema));
    assert "type"[0] != "function"[0];
    LookupAt(v.members, 0, "type");
    LookupAt(v.members, 1, "function");
  }

  function EncodeFunctionCall(f: FunctionCall): (v: Value)
    ensures v.JObj? && Keys(v.members) == ["name", "arguments"]
  {
    JObj([("name", JStr(f.name)), ("arguments", JStr(f.arguments))])
  }

  function EncodeToolCall(c: ToolCall): (v: Value)
    ensures v.JObj? && Keys(v.members) == ["id", "type", "function"]
  {
    JObj([("id", JStr(c.id)), ("type", JStr(ToolTypeName(c.kind))), ("function", EncodeFunctionCall(c.call))])
  }

  function EncodeToolCalls(cs: seq<ToolCall>): (vs: seq<Value>)
    ensures |vs| == |cs|
    ensures forall i :: 0 <= i < |cs| ==> vs[i] == EncodeToolCall(cs[i])
  {
    seq(|cs|, i requires 0 <= i < |cs| => EncodeToolCall(cs[i]))
  }

  /** The derived `Deserialize` of `FunctionCall`: both fields are required strings. */
  function DecodeFunctionCall(v: Value): (r: Option<FunctionCall>)
    ensures r.Some? <==> GetStr(v, "name").Some? && GetStr(v, "arguments").Some?
    ensures r.Some? ==> GetStr(v, "name") == Some(r.value.name)
    ensures r.Some? ==> GetStr(v, "arguments") == Some(r.value.arguments)
  {
    var name, arguments := GetStr(v, "name"), GetStr(v, "arguments");
    if name.Some? && arguments.Some? then Some(FunctionCall(name.value, arguments.value)) else Option.None
  }

  /** The derived `Deserialize` of `ToolCall`. */
  function DecodeToolCall(v: Value): (r: Option<ToolCall>)
    ensures r.Some? <==> GetStr(v, "id").Some? && GetStr(v, "type") == Some(ToolTypeName(ToolType.Function))
                         && Get(v, "function").Some? && DecodeFunctionCall(Get(v, "function").value).Some?
    ensures r.Some? ==> GetStr(v, "id") == Some(r.value.id)
    ensures r.Some? ==> Some(r.value.call) == DecodeFunctionCall(Get(v, "function").value)
  {
    var id, t, f := GetStr(v, "id"), GetStr(v, "type"), Get(v, "function");
    if id.None? || t.None? || f.None? then Option.None
    else
      var kind, call := ParseToolType(t.value), DecodeFunctionCall(f.value);
      if kind.Some? && call.Some? then Some(ToolCall(id.value, kind.value, call.value)) else Option.None
  }

  /** A JSON array of tool calls: one bad element fails the whole list. */
  function DecodeToolCalls(vs: seq<Value>): (r: Option<seq<ToolCall>>)
    ensures r.Some? ==> |r.value| == |vs|
    ensures r.Some? ==> forall i :: 0 <= i < |vs| ==> DecodeToolCall(vs[i]) == Some(r.value[i])
    ensures (forall i :: 0 <= i < |vs| ==> DecodeToolCall(vs[i]).Some?) ==> r.Some?
  {
    if vs == [] then Some([])
    else
      var c, cs := DecodeToolCall(vs[0]), DecodeToolCalls(vs[1..]);
      assert forall i :: 0 <= i < |vs| - 1 ==> vs[1..][i] == vs[i + 1];
      if c.Some? && cs.Some? then Some([c.value] + cs.value) else Option.None
  }

  lemma ToolCallRoundTrip(c: ToolCall)
    ensures DecodeToolCall(EncodeToolCall(c)) == Some(c)
  {
    var v := EncodeToolCall(c);
    assert "id"[0] != "type"[0] && "id"[0] != "function"[0] && "type"[0] != "function"[0];
    LookupAt(v.members, 0, "id");
    LookupAt(v.members, 1, "type");
    LookupAt(v.members, 2, "function");
    var f := EncodeFunctionCall(c.call);
    assert "name"[0] != "arguments"[0];
    LookupAt(f.members, 0, "name");
    LookupAt(f.members, 1, "arguments");
    assert GetStr(v, "id") == Some(c.id);
    assert GetStr(v, "type") == Some("function");
    assert Get(v, "function") == Some(f);
    assert c.kind == ToolType.Function by { match c.kind { case Function => } }
    assert ParseToolType("function") == Some(c.kind);
    assert DecodeFunctionCall(f) == Some(c.call);
  }

  lemma {:induction false} ToolCallsRoundTrip(cs: seq<ToolCall>)
    ensures DecodeToolCalls(EncodeToolCalls(cs)) == Some(cs)
  {
    if cs != [] {
      var vs := EncodeToolCalls(cs);
      assert vs[1..] == EncodeToolCalls(cs[1..]);
      ToolCallRoundTrip(cs[0]);
      ToolCallsRoundTrip(cs[1..]);
      assert [cs[0]] + cs[1..] == cs;
    }
  }

  // ---------------------------------------------------------------------
  // Messages
  // ---------------------------------------------------------------------

  datatype SystemMessage = SystemMessage(content: string, name: Option<string>)

  datatype UserMessage = UserMessage(content: string, name: Option<string>)

  datatype AssistantMessage = AssistantMessage(content: Option<string>, name: Option<string>, toolCalls: seq<ToolCall>)

  datatype ToolMessage = ToolMessage(content: string, toolCallId: string)

  /** `ChatCompletionMessage`, serialised with `tag = "role"`. */
  datatype ChatCompletionMessage =
    | System(system: SystemMessage)
    | User(user: UserMessage)
    | Assistant(assistant: AssistantMessage)
    | Tool(tool: ToolMessage)

  /** `get_name`: the empty name means "no name". */
  function GetName(name: string): (r: Option<string>)
    ensures r.None? <==> name == ""
    ensures r.Some? ==> r.value == name
  {
    if name == "" then Option.None else Some(name)
  }

  /** `ChatCompletionMessage::new_system`. */
  function NewSystem(content: string, name: string): (m: ChatCompletionMessage)
    ensures m.System? && m.system.content == content
    ensures m.system.name.Some? <==> name != ""
    ensures m.system.name.Some? ==> m.system.name.value == name
  {
    System(SystemMessage(content, GetName(name)))
  }

  /** `ChatCompletionMessage::new_user`. */
  function NewUser(content: string, name: string): (m: ChatCompletionMessage)
    ensures m.User? && m.user.content == content
    ensures m.user.name.Some? <==> name != ""
    ensures m.user.name.Some? ==> m.user.name.value == name
  {
    User(UserMessage(content, GetName(name)))
  }

  /** The snake_case variant name serde writes under `"role"`. */
  function RoleName(m: ChatCompletionMessage): (r: string)
    ensures r == "system" <==> m.System?
    ensures r == "user" <==> m.User?
    ensures r == "assistant" <==> m.Assistant?
    ensures r == "tool" <==> m.Tool?
  {
    match m
    case System(_) => "system"
    case User(_) => "user"
    case Assistant(_) => "assistant"
    case Tool(_) => "tool"
  }

  /** The fields of the variant's struct, in declaration order. An assistant's
      `content` has no skip attribute, so `None` is written as `null`. */
  function MessageBody(m: ChatCompletionMessage): (b: seq<(string, Value)>)
    ensures |b| >= 1 && b[0].0 == "content"
    ensures m.Assistant? ==> b[0].1 == (if m.assistant.content.Some? then JStr(m.assistant.content.value) else JNull)
    ensures (m.System? || m.User?) ==> |b| <= 2
    ensures m.Tool? ==> |b| == 2 && b[1] == ("tool_call_id", JStr(m.tool.toolCallId))
  {
    match m
    case System(s) => [("content", JStr(s.content))] + OptMember("name", OptStr(s.name))
    case User(u) => [("content", JStr(u.content))] + OptMember("name", OptStr(u.name))
    case Assistant(a) =>
      [("content", if a.content.Some? then JStr(a.content.value) else JNull)]
      + OptMember("name", OptStr(a.name))
      + (if |a.toolCalls| == 0 then [] else [("tool_calls", JArr(EncodeToolCalls(a.toolCalls)))])
    case Tool(t) => [("content", JStr(t.content)), ("tool_call_id", JStr(t.toolCallId))]
  }

  /** A message is one object: the role tag, then the body's fields beside it. */
  function EncodeMessage(m: ChatCompletionMessage): (v: Value)
    ensures v.JObj? && |v.members| >= 2
    ensures v.members[0] == ("role", JStr(RoleName(m)))
    ensures Get(v, "role") == Some(JStr(RoleName(m)))
  {
    JObj([("role", JStr(RoleName(m)))] + MessageBody(m))
  }

  function EncodeMessages(ms: seq<ChatCompletionMessage>): (vs: seq<Value>)
    ensures |vs| == |ms|
    ensures forall i :: 0 <= i < |ms| ==> vs[i] == EncodeMessage(ms[i])
  {
    seq(|ms|, i requires 0 <= i < |ms| => EncodeMessage(ms[i]))
  }

  /** The keys a message's object holds, as the serde attributes decide them. */
  function MessageKeys(m: ChatCompletionMessage): seq<string> {
    match m
    case System(s) => ["role", "content"] + (if s.name.Some? then ["name"] else [])
    case User(u) => ["role", "content"] + (if u.name.Some? then ["name"] else [])
    case Assistant(a) =>
      ["role", "content"] + (if a.name.Some? then ["name"] else [])
      + (if |a.toolCalls| == 0 then [] else ["tool_calls"])
    case Tool(_) => ["role", "content", "tool_call_id"]
  }

  lemma StringsDiffer()
    ensures "role" != "content" && "role" != "name" && "role" != "tool_calls" && "role" != "tool_call_id"
    ensures "content" != "name" && "content" != "tool_calls" && "content" != "tool_call_id"
    ensures "name" != "tool_calls" && "name" != "tool_call_id"
  {
  }

  /** The keys of a role tag and a content member, followed by an optional member. */
  lemma KeysRoleContentOpt(role: Value, content: Value, k: string, v: Option<Value>)
    ensures Keys([("role", role), ("content", content)] + OptMember(k, v))
         == ["role", "content"] + (if v.Some? then [k] else [])
  {
    KeysAppend([("role", role), ("content", content)], OptMember(k, v));
  }

  lemma AssistantKeys(a: AssistantMessage)
    ensures Keys(EncodeMessage(Assistant(a)).members) == MessageKeys(Assistant(a))
  {
    var v := EncodeMessage(Assistant(a));
    var c := [("role", JStr("assistant")), ("content", if a.content.Some? then JStr(a.content.value) else JNull)];
    var n := OptMember("name", OptStr(a.name));
    var t: seq<(string, Value)> := if |a.toolCalls| == 0 then [] else [("tool_calls", JArr(EncodeToolCalls(a.toolCalls)))];
    assert v.members == (c + n) + t;
    KeysRoleContentOpt(c[0].1, c[1].1, "name", OptStr(a.name));
    KeysAppend(c + n, t);
  }

  /** Every message object has exactly the keys `MessageKeys` lists. */
  lemma MessageKeysExact(m: ChatCompletionMessage)
    ensures Keys(EncodeMessage(m).members) == MessageKeys(m)
  {
    match m
    case System(s) =>
      assert EncodeMessage(m).members == [("role", JStr("system")), ("content", JStr(s.content))] + OptMember("name", OptStr(s.name));
      KeysRoleContentOpt(JStr("system"), JStr(s.content), "name", OptStr(s.name));
    case User(u) =>
      assert EncodeMessage(m).members == [("role", JStr("user")), ("content", JStr(u.content))] + OptMember("name", OptStr(u.name));
      KeysRoleContentOpt(JStr("user"), JStr(u.content), "name", OptStr(u.name));
    case Assistant(a) =>
      AssistantKeys(a);
    case Tool(_) =>
  }

  /** Every key list `MessageKeys` can produce is repetition-free. */
  lemma MessageKeysNoRepeats(m: ChatCompletionMessage)
    ensures NoRepeats(MessageKeys(m))
  {
    StringsDiffer();
    match m
    case System(s) =>
    case User(u) =>
    case Assistant(a) =>
      var ks := MessageKeys(m);
      if a.name.Some? && |a.toolCalls| > 0 {
        assert ks == ["role", "content", "name", "tool_calls"];
      } else if a.name.Some? {
        assert ks == ["role", "content", "name"];
      } else if |a.toolCalls| > 0 {
        assert ks == ["role", "content", "tool_calls"];
      } else {
        assert ks == ["role", "content"];
      }
    case Tool(_) =>
  }

  /** No key occurs twice in a message object: in particular the role tag
      never collides with a body field. */
  lemma MessageKeysDistinct(m: ChatCompletionMessage)
    ensures DistinctKeys(EncodeMessage(m).members)
  {
    MessageKeysExact(m);
    MessageKeysNoRepeats(m);
  }

  /** A system or user message carries a `"name"` key exactly when its name is
      set, and then the key holds that name. */
  lemma NameKeyIffSet(m: ChatCompletionMessage)
    requires m.System? || m.User?
    ensures var name := if m.System? then m.system.name else m.user.name;
            (HasKey(EncodeMessage(m), "name") <==> name.Some?) &&
            (name.Some? ==> Get(EncodeMessage(m), "name") == Some(JStr(name.value)))
  {
    MessageKeysExact(m);
    StringsDiffer();
    GetIffHasKey(EncodeMessage(m), "name");
    var v := EncodeMessage(m);
    if |v.members| == 3 {
      assert "role"[0] != "name"[0] && "content"[0] != "name"[0];
      LookupAt(v.members, 2, "name");
    }
  }

  /** Built through `new_system` or `new_user`, a message names its participant
      exactly when the given name is non-empty: an empty name is never sent. */
  lemma ConstructedNameKey(content: string, name: string)
    ensures HasKey(EncodeMessage(NewSystem(content, name)), "name") <==> name != ""
    ensures HasKey(EncodeMessage(NewUser(content, name)), "name") <==> name != ""
    ensures Get(EncodeMessage(NewSystem(content, name)), "name") != Some(JStr(""))
    ensures Get(EncodeMessage(NewUser(content, name)), "name") != Some(JStr(""))
  {
    NameKeyIffSet(NewSystem(content, name));
    NameKeyIffSet(NewUser(content, name));
    GetIffHasKey(EncodeMessage(NewSystem(content, name)), "name");
    GetIffHasKey(EncodeMessage(NewUser(content, name)), "name");
  }

  /** Reads an optional string member the way serde reads an `Option<String>`
      with `default`: missing or `null` is `None`; any other non-string fails. */
  function DecodeOptStr(v: Value, k: string): Option<Option<string>> {
    var g := Get(v, k);
    if g.None? || g.value.JNull? then Some(Option.None)
    else if g.value.JStr? then Some(Some(g.value.s))
    else Option.None
  }

  /** The derived `Deserialize` of `AssistantMessage` with its `default`
      attributes: `content` and `name` may be missing or `null`, and a missing
      `tool_calls` is the empty list. */
  function DecodeAssistantMessage(v: Value): (r: Option<AssistantMessage>)
    ensures r.Some? ==> v.JObj?
    ensures r.Some? && !HasKey(v, "tool_calls") ==> r.value.toolCalls == []
  {
    GetIffHasKey(v, "tool_calls");
    var content, name, calls := DecodeOptStr(v, "content"), DecodeOptStr(v, "name"), Get(v, "tool_calls");
    if !v.JObj? || content.None? || name.None? then Option.None
    else if calls.None? then Some(AssistantMessage(content.value, name.value, []))
    else if !calls.value.JArr? then Option.None
    else
      var decoded := DecodeToolCalls(calls.value.items);
      if decoded.Some? then Some(AssistantMessage(content.value, name.value, decoded.value)) else Option.None
  }

  /** A reference inverse of `EncodeMessage` (the source serialises messages
      but only deserialises the assistant's): it reads the role tag and then
      the body that role carries. */
  function DecodeMessage(v: Value): (r: Option<ChatCompletionMessage>)
    ensures r.Some? ==> Get(v, "role") == Some(JStr(RoleName(r.value)))
  {
    var role, content := GetStr(v, "role"), GetStr(v, "content");
    if role == Some("system") || role == Some("user") then
      var name := DecodeOptStr(v, "name");
      if content.None? || name.None? then Option.None
      else if role == Some("system") then Some(System(SystemMessage(content.value, name.value)))
      else Some(User(UserMessage(content.value, name.value)))
    else if role == Some("assistant") then
      var a := DecodeAssistantMessage(v);
      if a.Some? then Some(Assistant(a.value)) else Option.None
    else if role == Some("tool") then
      var id := GetStr(v, "tool_call_id");
      if content.Some? && id.Some? then Some(ChatCompletionMessage.Tool(ToolMessage(content.value, id.value)))
      else Option.None
    else Option.None
  }

  lemma RoleNamesDiffer()
    ensures "system" != "user" && "system" != "assistant" && "system" != "tool"
    ensures "user" != "assistant" && "user" != "tool" && "assistant" != "tool"
  {
  }

  /** The wire form loses nothing: every message decodes back to itself, so
      the role tag and every set field survive the flattening. */
  lemma MessageRoundTrip(m: ChatCompletionMessage)
    ensures DecodeMessage(EncodeMessage(m)) == Some(m)
  {
    RoleNamesDiffer();
    var v := EncodeMessage(m);
    assert GetStr(v, "role") == Some(RoleName(m)) by { LookupAt(v.members, 0, "role"); }
    match m
    case System(s) => NamedRoundTrip(m, s.content, s.name);
    case User(u) => NamedRoundTrip(m, u.content, u.name);
    case Assistant(a) => AssistantRoundTrip(a);
    case Tool(t) =>
      assert v.members[1].0 == "content" && v.members[2].0 == "tool_call_id";
      assert "role"[0] != "content"[0] && "role"[0] != "tool_call_id"[0] && "content"[0] != "tool_call_id"[0];
      LookupAt(v.members, 1, "content");
      LookupAt(v.members, 2, "tool_call_id");
  }

  /** The body of a system or user message reads back as its content and name. */
  lemma NamedRoundTrip(m: ChatCompletionMessage, content: string, name: Option<string>)
    requires m == System(SystemMessage(content, name)) || m == User(UserMessage(content, name))
    ensures GetStr(EncodeMessage(m), "content") == Some(content)
    ensures DecodeOptStr(EncodeMessage(m), "name") == Some(name)
  {
    var v := EncodeMessage(m);
    assert v.members[0].0 == "role" && v.members[1] == ("content", JStr(content));
    assert "role"[0] != "content"[0] && "role"[0] != "name"[0] && "content"[0] != "name"[0];
    LookupAt(v.members, 1, "content");
    if name.Some? {
      assert v.members[2] == ("name", JStr(name.value));
      LookupAt(v.members, 2, "name");
    } else {
      LookupMissing(v.members, "name");
    }
  }

  /** The body of an assistant message reads back through the derived decoder. */
  lemma AssistantRoundTrip(a: AssistantMessage)
    ensures DecodeAssistantMessage(EncodeMessage(Assistant(a))) == Some(a)
  {
    AssistantFields(a);
    AssistantToolCalls(a);
    if |a.toolCalls| > 0 {
      ToolCallsRoundTrip(a.toolCalls);
    }
  }

  lemma AssistantFields(a: AssistantMessage)
    ensures DecodeOptStr(EncodeMessage(Assistant(a)), "content") == Some(a.content)
    ensures DecodeOptStr(EncodeMessage(Assistant(a)), "name") == Some(a.name)
  {
    var v := EncodeMessage(Assistant(a));
    assert v.members[0].0 == "role";
    assert v.members[1] == ("content", if a.content.Some? then JStr(a.content.value) else JNull);
    assert "role"[0] != "content"[0] && "role"[0] != "name"[0] && "content"[0] != "name"[0];
    assert "tool_calls"[0] != "name"[0];
    LookupAt(v.members, 1, "content");
    if a.name.Some? {
      assert v.members[2] == ("name", JStr(a.name.value));
      LookupAt(v.members, 2, "name");
    } else {
      LookupMissing(v.members, "name");
    }
  }

  lemma AssistantToolCalls(a: AssistantMessage)
    ensures Get(EncodeMessage(Assistant(a)), "tool_calls")
         == if |a.toolCalls| == 0 then Option.None else Some(JArr(EncodeToolCalls(a.toolCalls)))
  {
    var v := EncodeMessage(Assistant(a));
    assert "role"[0] != "tool_calls"[0] && "content"[0] != "tool_calls"[0] && "name"[0] != "tool_calls"[0];
    assert v.members[0].0 == "role" && v.members[1].0 == "content";
    assert a.name.Some? ==> v.members[2].0 == "name";
    if |a.toolCalls| > 0 {
      LookupAt(v.members, |v.members| - 1, "tool_calls");
    } else {
      LookupMissing(v.members, "tool_calls");
    }
  }

  // ---------------------------------------------------------------------
  // Responses (deserialised only; parsing itself is not modelled)
  // ---------------------------------------------------------------------

  datatype ChatCompleteUsage = ChatCompleteUsage(completionTokens: Usize, promptTokens: Usize, totalTokens: Usize)

  datatype ChatCompletionChoice = ChatCompletionChoice(finishReason: FinishReason, index: Usize, message: AssistantMessage)

  datatype ChatCompletionResponse = ChatCompletionResponse(
    id: string,
    choices: seq<ChatCompletionChoice>,
    created: Usize,
    model: ChatCompleteModel,
    systemFingerprint: Option<string>,
    object: string,
    usage: ChatCompleteUsage)

  /** One streamed fragment of a choice. */
  datatype Delta = Delta(content: Option<string>, reasoningContent: Option<string>, role: Option<string>)

  datatype ChatStreamChoice = ChatStreamChoice(delta: Delta, finishReason: Option<string>, index: Usize, logprobs: Option<string>)

  /** The payload of one SSE `data:` frame. */
  datatype ChatStreamResponse = ChatStreamResponse(
    choices: seq<ChatStreamChoice>,
    created: Usize,
    id: string,
    model: string,
    object: string,
    systemFingerprint: Option<string>)

  // ---------------------------------------------------------------------
  // The request
  // ---------------------------------------------------------------------

  /** `ChatCompletionRequest`. Every field but `messages`, `model` and
      `tools` is optional; float fields are opaque bit patterns. */
  datatype ChatCompletionRequest = ChatCompletionRequest(
    messages: seq<ChatCompletionMessage>,
    model: ChatCompleteModel,
    frequencyPenalty: Option<F32>,
    maxTokens: Option<Usize>,
    n: Option<Usize>,
    presencePenalty: Option<F32>,
    responseFormat: Option<ChatResponseFormatObject>,
    seed: Option<Usize>,
    stop: Option<string>,
    stream: Option<bool>,
    temperature: Option<F32>,
    topP: Option<F32>,
    tools: seq<Tool>,
    toolChoice: Option<ToolChoice>,
    user: Option<string>)

  /** No optional field is set. */
  predicate NoOptionalSet(r: ChatCompletionRequest) {
    r.frequencyPenalty.None? && r.maxTokens.None? && r.n.None? && r.presencePenalty.None?
    && r.responseFormat.None? && r.seed.None? && r.stop.None? && r.stream.None?
    && r.temperature.None? && r.topP.None? && r.toolChoice.None? && r.user.None?
  }

  /** `ChatCompletionRequest::new`: the builder's defaults for everything else. */
  function NewRequest(model: ChatCompleteModel, messages: seq<ChatCompletionMessage>): (r: ChatCompletionRequest)
    ensures r.model == model && r.messages == messages
    ensures r.tools == [] && NoOptionalSet(r)
  {
    ChatCompletionRequest(messages, model, Option.None, Option.None, Option.None, Option.None, Option.None,
                          Option.None, Option.None, Option.None, Option.None, Option.None, [], Option.None, Option.None)
  }

  /** `ChatCompletionRequest::new_with_tools`: `new` with the tool list set. */
  function NewRequestWithTools(model: ChatCompleteModel, messages: seq<ChatCompletionMessage>, tools: seq<Tool>): (r: ChatCompletionRequest)
    ensures r == NewRequest(model, messages).(tools := tools)
  {
    ChatCompletionRequest(messages, model, Option.None, Option.None, Option.None, Option.None, Option.None,
                          Option.None, Option.None, Option.None, Option.None, Option.None, tools, Option.None, Option.None)
  }

  function OptResponseFormat(f: Option<ChatResponseFormatObject>): Option<Value> {
    if f.Some? then Some(EncodeResponseFormat(f.value)) else Option.None
  }

  function OptToolChoice(c: Option<ToolChoice>): Option<Value> {
    if c.Some? then Some(EncodeToolChoice(c.value)) else Option.None
  }

  /** `tools` carries `skip_serializing_if = "Vec::is_empty"`. */
  function OptTools(tools: seq<Tool>): (v: Option<Value>)
    ensures v.Some? <==> |tools| > 0
  {
    if |tools| == 0 then Option.None else Some(JArr(EncodeTools(tools)))
  }

  /** The keys of the skippable fields, in declaration order. */
  const OptionalKeys: seq<string> :=
    ["frequency_penalty", "max_tokens", "n", "presence_penalty", "response_format", "seed",
     "stop", "stream", "temperature", "top_p", "tools", "tool_choice", "user"]

  /** Each skippable field with its encoding, `None` when it is left out. */
  function OptionalFields(r: ChatCompletionRequest): (fs: seq<(string, Option<Value>)>)
    ensures |fs| == |OptionalKeys|
    ensures forall i :: 0 <= i < |fs| ==> fs[i].0 == OptionalKeys[i]
  {
    [("frequency_penalty", OptFloat(r.frequencyPenalty)),
     ("max_tokens", OptNat(r.maxTokens)),
     ("n", OptNat(r.n)),
     ("presence_penalty", OptFloat(r.presencePenalty)),
     ("response_format", OptResponseFormat(r.responseFormat)),
     ("seed", OptNat(r.seed)),
     ("stop", OptStr(r.stop)),
     ("stream", OptBool(r.stream)),
     ("temperature", OptFloat(r.temperature)),
     ("top_p", OptFloat(r.topP)),
     ("tools", OptTools(r.tools)),
     ("tool_choice", OptToolChoice(r.toolChoice)),
     ("user", OptStr(r.user))]
  }

  /** The request object: `messages` and `model`, then the skippable fields
      that are set, in declaration order; an unset field is left out rather
      than written as `null`. */
  function EncodeRequest(r: ChatCompletionRequest): (v: Value)
    ensures v.JObj? && |v.members| >= 2
    ensures v.members[0] == ("messages", JArr(EncodeMessages(r.messages)))
    ensures v.members[1] == ("model", JStr(ModelName(r.model)))
  {
    JObj([("messages", JArr(EncodeMessages(r.messages))), ("model", JStr(ModelName(r.model)))]
         + PresentMembers(OptionalFields(r)))
  }

  /** No two keys of a request object coincide. */
  lemma RequestKeysDistinct()
    ensures forall i, j :: 0 <= i < j < |OptionalKeys| ==> OptionalKeys[i] != OptionalKeys[j]
    ensures forall i :: 0 <= i < |OptionalKeys| ==> OptionalKeys[i] != "messages" && OptionalKeys[i] != "model"
  {
  }

  /** A request object is a well-formed JSON object: whichever optional
      fields are set, no key is written twice. */
  lemma RequestObjectDistinct(r: ChatCompletionRequest)
    ensures DistinctKeys(EncodeRequest(r).members)
  {
    var rest := PresentMembers(OptionalFields(r));
    PresentFieldsApart(OptionalFields(r));
    assert "messages"[1] != "model"[1];
    DistinctKeysPrepend2("messages", JArr(EncodeMessages(r.messages)), "model", JStr(ModelName(r.model)), rest);
  }

  /** The skippable fields that are set have keys of their own, none of them
      `messages` or `model`. */
  lemma PresentFieldsApart(fs: seq<(string, Option<Value>)>)
    requires |fs| == |OptionalKeys|
    requires forall i :: 0 <= i < |fs| ==> fs[i].0 == OptionalKeys[i]
    ensures DistinctKeys(PresentMembers(fs))
    ensures "messages" !in Keys(PresentMembers(fs)) && "model" !in Keys(PresentMembers(fs))
  {
    RequestKeysDistinct();
    PresentMembersDistinct(fs);
    PresentMembersMissing(fs, "messages");
    PresentMembersMissing(fs, "model");
    LookupFound(PresentMembers(fs), "messages");
    LookupFound(PresentMembers(fs), "model");
  }

  /** Every skippable field's key is present exactly when the field is set
      (for `tools`, when the list is non-empty), and then holds the field's
      encoding; `messages` and `model` are always present. */
  lemma {:induction false} RequestOptionalField(r: ChatCompletionRequest, i: nat)
    requires i < |OptionalKeys|
    ensures Get(EncodeRequest(r), OptionalKeys[i]) == OptionalFields(r)[i].1
    ensures HasKey(EncodeRequest(r), OptionalKeys[i]) <==> OptionalFields(r)[i].1.Some?
  {
    RequestKeysDistinct();
    var v := EncodeRequest(r);
    var fs := OptionalFields(r);
    var pre := [("messages", JArr(EncodeMessages(r.messages))), ("model", JStr(ModelName(r.model)))];
    LookupSkip(pre, PresentMembers(fs), OptionalKeys[i]);
    PresentMembersLookup(fs, i);
    GetIffHasKey(v, OptionalKeys[i]);
  }

  /** `messages` and `model` are always present and hold the messages and
      the model name; each skippable field's key holds its encoding when the
      field is set and is absent otherwise. */
  lemma RequestFieldValues(r: ChatCompletionRequest)
    ensures var v := EncodeRequest(r);
      Get(v, "messages") == Some(JArr(EncodeMessages(r.messages))) &&
      Get(v, "model") == Some(JStr(ModelName(r.model))) &&
      Get(v, "frequency_penalty") == OptFloat(r.frequencyPenalty) &&
      Get(v, "max_tokens") == OptNat(r.maxTokens) &&
      Get(v, "n") == OptNat(r.n) &&
      Get(v, "presence_penalty") == OptFloat(r.presencePenalty) &&
      Get(v, "response_format") == OptResponseFormat(r.responseFormat) &&
      Get(v, "seed") == OptNat(r.seed) &&
      Get(v, "stop") == OptStr(r.stop) &&
      Get(v, "stream") == OptBool(r.stream) &&
      Get(v, "temperature") == OptFloat(r.temperature) &&
      Get(v, "top_p") == OptFloat(r.topP) &&
      Get(v, "tools") == OptTools(r.tools) &&
      Get(v, "tool_choice") == OptToolChoice(r.toolChoice) &&
      Get(v, "user") == OptStr(r.user)
  {
    var v := EncodeRequest(r);
    assert "messages"[1] != "model"[1];
    LookupAt(v.members, 0, "messages");
    LookupAt(v.members, 1, "model");
    RequestOptionalField(r, 0);
    RequestOptionalField(r, 1);
    RequestOptionalField(r, 2);
    RequestOptionalField(r, 3);
    RequestOptionalField(r, 4);
    RequestOptionalField(r, 5);
    RequestOptionalField(r, 6);
    RequestOptionalField(r, 7);
    RequestOptionalField(r, 8);
    RequestOptionalField(r, 9);
    RequestOptionalField(r, 10);
    RequestOptionalField(r, 11);
    RequestOptionalField(r, 12);
  }

  /** Each optional field's key is present if and only if the field is set;
      `tools` if and only if the list is non-empty. */
  lemma RequestFieldPresence(r: ChatCompletionRequest)
    ensures var v := EncodeRequest(r);
      HasKey(v, "messages") && HasKey(v, "model") &&
      (HasKey(v, "frequency_penalty") <==> r.frequencyPenalty.Some?) &&
      (HasKey(v, "max_tokens") <==> r.maxTokens.Some?) &&
      (HasKey(v, "n") <==> r.n.Some?) &&
      (HasKey(v, "presence_penalty") <==> r.presencePenalty.Some?) &&
      (HasKey(v, "response_format") <==> r.responseFormat.Some?) &&
      (HasKey(v, "seed") <==> r.seed.Some?) &&
      (HasKey(v, "stop") <==> r.stop.Some?) &&
      (HasKey(v, "stream") <==> r.stream.Some?) &&
      (HasKey(v, "temperature") <==> r.temperature.Some?) &&
      (HasKey(v, "top_p") <==> r.topP.Some?) &&
      (HasKey(v, "tools") <==> |r.tools| > 0) &&
      (HasKey(v, "tool_choice") <==> r.toolChoice.Some?) &&
      (HasKey(v, "user") <==> r.user.Some?)
  {
    var v := EncodeRequest(r);
    assert "messages"[1] != "model"[1];
    LookupAt(v.members, 0, "messages");
    LookupAt(v.members, 1, "model");
    GetIffHasKey(v, "messages");
    GetIffHasKey(v, "model");
    RequestOptionalField(r, 0);
    RequestOptionalField(r, 1);
    RequestOptionalField(r, 2);
    RequestOptionalField(r, 3);
    RequestOptionalField(r, 4);
    RequestOptionalField(r, 5);
    RequestOptionalField(r, 6);
    RequestOptionalField(r, 7);
    RequestOptionalField(r, 8);
    RequestOptionalField(r, 9);
    RequestOptionalField(r, 10);
    RequestOptionalField(r, 11);
    RequestOptionalField(r, 12);
  }

  /** A request fresh from `new` is written with its two required members only. */
  lemma NewRequestEncoding(model: ChatCompleteModel, messages: seq<ChatCompletionMessage>)
    ensures EncodeRequest(NewRequest(model, messages))
         == JObj([("messages", JArr(EncodeMessages(messages))), ("model", JStr(ModelName(model)))])
  {
    var fs := OptionalFields(NewRequest(model, messages));
    PresentMembersNone(fs);
  }

  /** From `new_with_tools`, the tool list is the one extra member, and only
      when it is non-empty. */
  lemma NewRequestWithToolsEncoding(model: ChatCompleteModel, messages: seq<ChatCompletionMessage>, tools: seq<Tool>)
    ensures EncodeRequest(NewRequestWithTools(model, messages, tools))
         == JObj([("messages", JArr(EncodeMessages(messages))), ("model", JStr(ModelName(model)))]
                 + (if |tools| == 0 then [] else [("tools", JArr(EncodeTools(tools)))]))
  {
    var fs := OptionalFields(NewRequestWithTools(model, messages, tools));
    if |tools| == 0 {
      PresentMembersNone(fs);
    } else {
      PresentMembersSingle(fs, 10);
    }
  }

  /** The serialised shape the request test pins: a system message without a
      name, a user message with one, the default model and `tool_choice` set
      to `Auto`, and nothing else. */
  lemma SimpleRequestShape()
    ensures EncodeRequest(
              NewRequest(Gpt3Turbo, [NewSystem("I can answer any question you ask me.", ""),
                                     NewUser("What is human life expectancy in the world?", "user1")])
                .(toolChoice := Some(Auto)))
         == JObj([("messages", JArr([JObj([("role", JStr("system")),
                                           ("content", JStr("I can answer any question you ask me."))]),
                                     JObj([("role", JStr("user")),
                                           ("content", JStr("What is human life expectancy in the world?")),
                                           ("name", JStr("user1"))])])),
                  ("model", JStr("gpt-3.5-turbo-1106")),
                  ("tool_choice", JStr("auto"))])
  {
    var ms := [NewSystem("I can answer any question you ask me.", ""),
               NewUser("What is human life expectancy in the world?", "user1")];
    NewRequestWithToolChoiceEncoding(Gpt3Turbo, ms, Auto);
    TestMessagesShape("I can answer any question you ask me.", "What is human life expectancy in the world?");
  }

  /** The serialised shape the tools test pins: two function tools, each
      carrying the schema of its argument type as `parameters`. */
  lemma ToolRequestShape(weatherSchema: Value, moodSchema: Value)
    ensures EncodeRequest(
              NewRequestWithTools(
                Gpt3Turbo,
                [NewSystem("I can choose the right function for you.", ""),
                 NewUser("What is the weather like in Boston?", "user1")],
                [NewFunctionTool("get_weather_forecast", "Get the weather forecast for a city.", weatherSchema),
                 NewFunctionTool("explain_mood", "Explain the meaning of the given mood.", moodSchema)]))
         == JObj([("messages", JArr([JObj([("role", JStr("system")),
                                           ("content", JStr("I can choose the right function for you."))]),
                                     JObj([("role", JStr("user")),
                                           ("content", JStr("What is the weather like in Boston?")),
                                           ("name", JStr("user1"))])])),
                  ("model", JStr("gpt-3.5-turbo-1106")),
                  ("tools", JArr([JObj([("type", JStr("function")),
                                        ("function", JObj([("description", JStr("Get the weather forecast for a city.")),
                                                           ("name", JStr("get_weather_forecast")),
                                                           ("parameters", weatherSchema)]))]),
                                  JObj([("type", JStr("function")),
                                        ("function", JObj([("description", JStr("Explain the meaning of the given mood.")),
                                                           ("name", JStr("explain_mood")),
                                                           ("parameters", moodSchema)]))])]))])
  {
    var ms := [NewSystem("I can choose the right function for you.", ""),
               NewUser("What is the weather like in Boston?", "user1")];
    var ts := [NewFunctionTool("get_weather_forecast", "Get the weather forecast for a city.", weatherSchema),
               NewFunctionTool("explain_mood", "Explain the meaning of the given mood.", moodSchema)];
    NewRequestWithToolsEncoding(Gpt3Turbo, ms, ts);
    TestMessagesShape("I can choose the right function for you.", "What is the weather like in Boston?");
    assert EncodeTools(ts) == [EncodeTool(ts[0]), EncodeTool(ts[1])];
  }

  /** The two messages both request tests send: an unnamed system prompt
      and a question from `user1`. */
  lemma TestMessagesShape(prompt: string, question: string)
    ensures EncodeMessages([NewSystem(prompt, ""), NewUser(question, "user1")])
         == [JObj([("role", JStr("system")), ("content", JStr(prompt))]),
             JObj([("role", JStr("user")), ("content", JStr(question)), ("name", JStr("user1"))])]
  {
    var ms := [NewSystem(prompt, ""), NewUser(question, "user1")];
    assert ms[0] == System(SystemMessage(prompt, Option.None));
    assert ms[1] == User(UserMessage(question, Some("user1")));
    assert EncodeMessage(ms[0]) == JObj([("role", JStr("system")), ("content", JStr(prompt))]);
    assert EncodeMessage(ms[1]) == JObj([("role", JStr("user")), ("content", JStr(question)), ("name", JStr("user1"))]);
  }

  /** Setting only `tool_choice` on a fresh request adds exactly that member. */
  lemma NewRequestWithToolChoiceEncoding(model: ChatCompleteModel, messages: seq<ChatCompletionMessage>, c: ToolChoice)
    ensures EncodeRequest(NewRequest(model, messages).(toolChoice := Some(c)))
         == JObj([("messages", JArr(EncodeMessages(messages))), ("model", JStr(ModelName(model))),
                  ("tool_choice", EncodeToolChoice(c))])
  {
    var fs := OptionalFields(NewRequest(model, messages).(toolChoice := Some(c)));
    PresentMembersSingle(fs, 11);
  }

  /** What `into_request` builds before authentication: a POST of the
      serialised request to the completions path. */
  datatype PostCall = PostCall(url: string, body: Value)

  const CompletionsPath: string := "/chat/completions"

  /** `IntoRequest for ChatCompletionRequest`. */
  function IntoRequest(r: ChatCompletionRequest, baseUrl: string): (c: PostCall)
    ensures c.url == baseUrl + CompletionsPath
    ensures c.body == EncodeRequest(r)
  {
    PostCall(baseUrl + "/chat/completions", EncodeRequest(r))
  }
}
