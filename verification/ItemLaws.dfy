/** The JSON form of the items a run produces, member by member. */
module ItemLaws {
  import opened Items

  // ---- the JSON form of an item ----

  /** The object has exactly these members. */
  predicate HasExactly(value: Json, names: set<string>) { value.Obj? && value.fields.Keys == names }

  predicate IsStr(value: Json, name: string, text: string) {
    value.Obj? && name in value.fields && value.fields[name] == Str(text)
  }

  /** A text if it is there, and null if not. */
  predicate IsOptStr(value: Json, name: string, text: Option<string>) {
    value.Obj? && name in value.fields && value.fields[name] == if text.Some? then Str(text.value) else Null
  }

  predicate IsToolCall(value: Json, toolName: string, arguments: Json, callId: Option<string>,
                       namespace: Option<string>) {
    && HasExactly(value, {"type", "tool_name", "arguments", "call_id", "namespace"})
    && IsStr(value, "type", "tool_call") && IsStr(value, "tool_name", toolName)
    && value.fields["arguments"] == arguments && IsOptStr(value, "call_id", callId)
    && IsOptStr(value, "namespace", namespace)
  }

  predicate IsNote(value: Json, kind: string, name: string, text: string) {
    HasExactly(value, {"type", name}) && IsStr(value, "type", kind) && IsStr(value, name, text)
  }

  /** An output item inside a tool output. */
  predicate Embeds(value: Json, o: OutputItem) {
    match o
    case OutText(text) => IsNote(value, "text", "text", text)
    case OutJson(inner) =>
      HasExactly(value, {"type", "value"}) && IsStr(value, "type", "json") && value.fields["value"] == inner
    case OutToolCall(callId, toolName, arguments, namespace) =>
      IsToolCall(value, toolName, arguments, Some(callId), namespace)
    case OutHandoff(agent) => IsNote(value, "handoff", "target_agent", agent)
    case OutReasoning(text) => IsNote(value, "reasoning", "text", text)
  }

  predicate IsToolOutput(value: Json, toolName: string, output: OutputItem, callId: Option<string>,
                         namespace: Option<string>) {
    && HasExactly(value, {"type", "tool_name", "output", "call_id", "namespace"})
    && IsStr(value, "type", "tool_call_output") && IsStr(value, "tool_name", toolName)
    && Embeds(value.fields["output"], output) && IsOptStr(value, "call_id", callId)
    && IsOptStr(value, "namespace", namespace)
  }

  /** The input item that a run item is sent as. */
  predicate SentAs(item: RunItem, sent: InputItem) {
    match item
    case MessageOutput(OutText(text)) => sent == Text(text)
    case MessageOutput(OutJson(value)) => sent == JsonItem(value)
    case MessageOutput(OutReasoning(text)) => sent.JsonItem? && IsNote(sent.value, "reasoning", "text", text)
    case MessageOutput(OutToolCall(callId, toolName, arguments, namespace)) =>
      sent.JsonItem? && IsToolCall(sent.value, toolName, arguments, Some(callId), namespace)
    case MessageOutput(OutHandoff(agent)) => sent.JsonItem? && IsNote(sent.value, "handoff_call", "target_agent", agent)
    case ToolCall(toolName, arguments, callId, namespace) =>
      sent.JsonItem? && IsToolCall(sent.value, toolName, arguments, callId, namespace)
    case ToolCallOutput(toolName, output, callId, namespace) =>
      sent.JsonItem? && IsToolOutput(sent.value, toolName, output, callId, namespace)
    case HandoffCall(agent) => sent.JsonItem? && IsNote(sent.value, "handoff_call", "target_agent", agent)
    case HandoffOutput(agent) => sent.JsonItem? && IsNote(sent.value, "handoff_output", "source_agent", agent)
    case Reasoning(text) => sent.JsonItem? && IsNote(sent.value, "reasoning", "text", text)
  }

  lemma NamesDiffer()
    ensures "type" != "tool_name" && "type" != "arguments" && "type" != "call_id" && "type" != "namespace"
      && "type" != "output" && "type" != "value" && "type" != "text" && "type" != "target_agent"
      && "type" != "source_agent"
    ensures "tool_name" != "arguments" && "tool_name" != "call_id" && "tool_name" != "namespace"
      && "tool_name" != "output" && "arguments" != "call_id" && "arguments" != "namespace"
      && "call_id" != "namespace" && "output" != "call_id" && "output" != "namespace"
  {
    assert |"type"| == 4 && |"text"| == 4 && |"value"| == 5 && |"output"| == 6 && |"call_id"| == 7
      && |"tool_name"| == 9 && |"arguments"| == 9 && |"namespace"| == 9 && |"target_agent"| == 12
      && |"source_agent"| == 12;
    assert "type"[1] != "text"[1] && "tool_name"[0] != "arguments"[0] && "tool_name"[0] != "namespace"[0]
      && "arguments"[0] != "namespace"[0];
  }

  lemma EmbedsLaw(o: OutputItem)
    ensures Embeds(OutputJson(o), o)
  {
    NamesDiffer();
  }

  /** What is sent for an item, member by member; only reasoning can be left out, and only if that is wanted. */
  lemma SentLaw(item: RunItem)
    ensures SentAs(item, ToInputItem(item)) && RunItemToInputItem(item, Preserve) == Some(ToInputItem(item))
    ensures !item.Reasoning? ==> RunItemToInputItem(item, Omit) == Some(ToInputItem(item))
    ensures item.Reasoning? ==> RunItemToInputItem(item, Omit) == None
  {
    NamesDiffer();
    if item.ToolCallOutput? { EmbedsLaw(item.output); }
  }
}
