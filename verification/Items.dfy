/** JSON values, the items that enter a model call and the items a run produces. */
module Items {

  datatype Option<+T> = None | Some(value: T)

  function Or<T>(a: Option<T>, b: Option<T>): Option<T> { if a.Some? then a else b }

  function Min(a: int, b: int): int { if a < b then a else b }

  function Max(a: int, b: int): int { if a < b then b else a }

  /** Objects are maps: the original's object type keeps its keys sorted, so key order carries
      no information of its own. */
  datatype Json =
    | Null
    | Bool(b: bool)
    | Num(n: int)
    | Str(s: string)
    | Arr(elems: seq<Json>)
    | Obj(fields: map<string, Json>)

  datatype InputItem =
    | Text(text: string)
    | JsonItem(value: Json)

  datatype OutputItem =
    | OutText(text: string)
    | OutJson(value: Json)
    | OutToolCall(callId: string, toolName: string, arguments: Json, namespace: Option<string>)
    | OutHandoff(targetAgent: string)
    | OutReasoning(text: string)

  datatype RunItem =
    | MessageOutput(content: OutputItem)
    | ToolCall(toolName: string, arguments: Json, callId: Option<string>, namespace: Option<string>)
    | ToolCallOutput(toolName: string, output: OutputItem, callId: Option<string>, namespace: Option<string>)
    | HandoffCall(targetAgent: string)
    | HandoffOutput(sourceAgent: string)
    | Reasoning(text: string)

  datatype ReasoningPolicy = Preserve | Omit

  /** `value.get(key)`: only objects have members. */
  function Get(v: Json, key: string): Option<Json> {
    if v.Obj? && key in v.fields then Some(v.fields[key]) else None
  }

  /** `value.get(key).and_then(as_str)`. */
  function GetStr(v: Json, key: string): Option<string> {
    match Get(v, key)
    case Some(Str(s)) => Some(s)
    case _ => None
  }

  function OptStr(s: Option<string>): Json {
    match s
    case Some(t) => Str(t)
    case None => Null
  }

  function ReasoningJson(text: string): Json {
    Obj(map["type" := Str("reasoning"), "text" := Str(text)])
  }

  function HandoffCallJson(targetAgent: string): Json {
    Obj(map["type" := Str("handoff_call"), "target_agent" := Str(targetAgent)])
  }

  function ToolCallJson(toolName: string, arguments: Json, callId: Json, namespace: Option<string>): Json {
    Obj(map["type" := Str("tool_call"), "tool_name" := Str(toolName), "arguments" := arguments,
            "call_id" := callId, "namespace" := OptStr(namespace)])
  }

  /** The serialised form of an output item, as it is embedded in a tool output. */
  function OutputJson(o: OutputItem): Json {
    match o
    case OutText(text) => Obj(map["type" := Str("text"), "text" := Str(text)])
    case OutJson(value) => Obj(map["type" := Str("json"), "value" := value])
    case OutToolCall(callId, toolName, arguments, namespace) =>
      Obj(map["type" := Str("tool_call"), "call_id" := Str(callId), "tool_name" := Str(toolName),
              "arguments" := arguments, "namespace" := OptStr(namespace)])
    case OutHandoff(targetAgent) => Obj(map["type" := Str("handoff"), "target_agent" := Str(targetAgent)])
    case OutReasoning(text) => ReasoningJson(text)
  }

  function ToInputItem(item: RunItem): InputItem {
    match item
    case MessageOutput(OutText(text)) => Text(text)
    case MessageOutput(OutJson(value)) => JsonItem(value)
    case MessageOutput(OutReasoning(text)) => JsonItem(ReasoningJson(text))
    case MessageOutput(OutToolCall(callId, toolName, arguments, namespace)) =>
      JsonItem(ToolCallJson(toolName, arguments, Str(callId), namespace))
    case MessageOutput(OutHandoff(targetAgent)) => JsonItem(HandoffCallJson(targetAgent))
    case ToolCall(toolName, arguments, callId, namespace) =>
      JsonItem(ToolCallJson(toolName, arguments, OptStr(callId), namespace))
    case ToolCallOutput(toolName, output, callId, namespace) =>
      JsonItem(Obj(map["type" := Str("tool_call_output"), "tool_name" := Str(toolName),
                       "output" := OutputJson(output), "call_id" := OptStr(callId),
                       "namespace" := OptStr(namespace)]))
    case HandoffCall(targetAgent) => JsonItem(HandoffCallJson(targetAgent))
    case HandoffOutput(sourceAgent) =>
      JsonItem(Obj(map["type" := Str("handoff_output"), "source_agent" := Str(sourceAgent)]))
    case Reasoning(text) => JsonItem(ReasoningJson(text))
  }

  /** `run_item_to_input_item`: reasoning is dropped under the Omit policy. */
  function RunItemToInputItem(item: RunItem, policy: ReasoningPolicy): Option<InputItem> {
    if item.Reasoning? && policy == Omit then None else Some(ToInputItem(item))
  }

  /** Keeps what `f` maps to a value, in order. */
  function FilterMap<A, B>(f: A -> Option<B>, items: seq<A>): seq<B> {
    if items == [] then []
    else
      var rest := FilterMap(f, items[1..]);
      match f(items[0])
      case Some(b) => [b] + rest
      case None => rest
  }

  lemma {:induction false} FilterMapAppend<A, B>(f: A -> Option<B>, a: seq<A>, b: seq<A>)
    ensures FilterMap(f, a + b) == FilterMap(f, a) + FilterMap(f, b)
  {
    if a == [] {
      assert a + b == b;
    } else {
      FilterMapAppend(f, a[1..], b);
      assert (a + b)[1..] == a[1..] + b;
    }
  }

  lemma FilterMapOne<A, B>(f: A -> Option<B>, a: A)
    ensures FilterMap(f, [a]) == if f(a).Some? then [f(a).value] else []
  {
    assert [a][1..] == [];
  }

  function RunItemsToInputItems(items: seq<RunItem>, policy: ReasoningPolicy): seq<InputItem> {
    FilterMap(item => RunItemToInputItem(item, policy), items)
  }

  /** The run item a loop records for one element of a model response. */
  function MessageOutputItem(o: OutputItem): RunItem {
    match o
    case OutToolCall(callId, toolName, arguments, namespace) =>
      ToolCall(toolName, arguments, Some(callId), namespace)
    case OutHandoff(targetAgent) => HandoffCall(targetAgent)
    case OutReasoning(text) => Reasoning(text)
    case _ => MessageOutput(o)
  }

  function BuildMessageOutputItems(output: seq<OutputItem>): seq<RunItem> {
    if output == [] then [] else [MessageOutputItem(output[0])] + BuildMessageOutputItems(output[1..])
  }

  /** `ModelResponse::to_input_items`, the provider-side conversion. */
  function ResponseInputItem(o: OutputItem): InputItem {
    match o
    case OutText(text) => Text(text)
    case OutJson(value) => JsonItem(value)
    case OutToolCall(callId, toolName, arguments, namespace) =>
      JsonItem(ToolCallJson(toolName, arguments, Str(callId), namespace))
    case OutHandoff(targetAgent) => JsonItem(HandoffCallJson(targetAgent))
    case OutReasoning(text) => JsonItem(ReasoningJson(text))
  }

  function ResponseInputItems(output: seq<OutputItem>): seq<InputItem> {
    if output == [] then [] else [ResponseInputItem(output[0])] + ResponseInputItems(output[1..])
  }

  lemma RunItemsToInputItemsAppend(a: seq<RunItem>, b: seq<RunItem>, policy: ReasoningPolicy)
    ensures RunItemsToInputItems(a + b, policy) == RunItemsToInputItems(a, policy) + RunItemsToInputItems(b, policy)
  {
    FilterMapAppend(item => RunItemToInputItem(item, policy), a, b);
  }

  lemma ItemConversionsAgree(o: OutputItem)
    ensures ToInputItem(MessageOutputItem(o)) == ResponseInputItem(o)
    ensures RunItemToInputItem(MessageOutputItem(o), Preserve) == Some(ResponseInputItem(o))
    ensures RunItemToInputItem(MessageOutputItem(o), Omit) in {None, Some(ResponseInputItem(o))}
  {}

  /** The two conversions of a model response agree: what the server already holds is what the
      loop records and would otherwise replay.  Under Omit the recorded items only lose reasoning. */
  lemma {:induction false} ResponseConversionsAgree(output: seq<OutputItem>, policy: ReasoningPolicy)
    ensures policy == Preserve ==>
              RunItemsToInputItems(BuildMessageOutputItems(output), policy) == ResponseInputItems(output)
    ensures forall x :: x in RunItemsToInputItems(BuildMessageOutputItems(output), policy) ==>
              x in ResponseInputItems(output)
  {
    if output != [] {
      ResponseConversionsAgree(output[1..], policy);
      ItemConversionsAgree(output[0]);
      var items := BuildMessageOutputItems(output);
      assert items[1..] == BuildMessageOutputItems(output[1..]);
    }
  }
}
