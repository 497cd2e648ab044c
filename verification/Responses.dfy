/** Translating Anthropic responses to OpenAI's format (pkg/proxy/translate.go), and
    sending them back as conversation history. */
module Responses {
  import opened Text
  import opened Wrappers
  import opened Json
  import opened Requests
  import opened Caching

  /** A content block; `input` is the raw JSON text of a tool's input, "" when absent. */
  datatype Block = Block(kind: string, text: string, id: string, name: string, input: string)

  datatype AnthropicResponse = AnthropicResponse(
    id: string, content: seq<Block>, stopReason: string, inputTokens: int, outputTokens: int)

  datatype OpenAIResponse = OpenAIResponse(
    id: string, model: string, content: string, toolCalls: seq<ToolCall>, finishReason: string,
    promptTokens: int, completionTokens: int, totalTokens: int)

  // ----- model names ----------------------------------------------------------------------

  datatype ModelName = ModelName(raw: string, vertexAI: string, display: string)

  /** The name ends in a hyphen and eight digits. */
  predicate Dated(raw: string) {
    |raw| >= 9 && raw[|raw| - 9] == '-' && forall i :: |raw| - 8 <= i < |raw| ==> IsDigit(raw[i])
  }

  /** `ParseModelName`. */
  function ParseModelName(raw: string): ModelName {
    if Dated(raw) then
      var base, date := raw[..|raw| - 9], raw[|raw| - 8..];
      ModelName(raw, base + "@" + date, base)
    else ModelName(raw, raw, raw)
  }

  // ----- finish reasons ----------------------------------------------------------------------

  /** `mapStopReason`. */
  function MapStopReason(reason: string): (r: string)
    ensures r != ""
    ensures r == "stop" <==> reason in {"end_turn", "stop_sequence", "stop", ""}
    ensures r == "length" <==> reason in {"max_tokens", "length"}
    ensures r == "tool_calls" <==> reason in {"tool_use", "tool_calls"}
    ensures r !in {"stop", "length", "tool_calls"} ==> r == reason
  {
    match reason
    case "end_turn" => "stop"
    case "max_tokens" => "length"
    case "stop_sequence" => "stop"
    case "tool_use" => "tool_calls"
    case "" => "stop"
    case _ => reason
  }

  // ----- extraction ----------------------------------------------------------------------------

  /** The text blocks, laid end to end. */
  function TextOf(content: seq<Block>): string {
    if content == [] then ""
    else
      var rest, b := TextOf(content[..|content| - 1]), content[|content| - 1];
      if b.kind == "text" then rest + b.text else rest
  }

  function CallOf(b: Block): ToolCall {
    ToolCall(b.id, b.name, if b.input == "" then "{}" else b.input)
  }

  /** The tool uses, in order. */
  function CallsOf(content: seq<Block>): seq<ToolCall> {
    if content == [] then []
    else
      var rest, b := CallsOf(content[..|content| - 1]), content[|content| - 1];
      if b.kind == "tool_use" then rest + [CallOf(b)] else rest
  }

  /** `extractAnthropicText`: collect the parts, then join them. */
  method ExtractText(content: seq<Block>) returns (r: string)
    ensures r == TextOf(content)
  {
    var parts: seq<string> := [];
    for i := 0 to |content|
      invariant Concat(parts) == TextOf(content[..i])
    {
      assert content[..i + 1][..i] == content[..i];
      if content[i].kind == "text" {
        ConcatSnoc(parts, content[i].text);
        parts := parts + [content[i].text];
      }
    }
    assert content[..|content|] == content;
    return Concat(parts);
  }

  /** `extractAnthropicToolCalls`. */
  method ExtractToolCalls(content: seq<Block>) returns (calls: seq<ToolCall>)
    ensures calls == CallsOf(content)
  {
    calls := [];
    for i := 0 to |content|
      invariant calls == CallsOf(content[..i])
    {
      assert content[..i + 1][..i] == content[..i];
      var c := content[i];
      if c.kind != "tool_use" {
        continue;
      }
      var args := "{}";
      if |c.input| > 0 {
        args := c.input;
      }
      calls := calls + [ToolCall(c.id, c.name, args)];
    }
    assert content[..|content|] == content;
  }

  /** `TranslateResponse`, JSON decoding, encoding and the timestamp aside. */
  method TranslateResponse(resp: AnthropicResponse, model: string) returns (r: OpenAIResponse)
    ensures r == OpenAIResponse(resp.id, ParseModelName(model).display, TextOf(resp.content), CallsOf(resp.content),
                   MapStopReason(resp.stopReason), resp.inputTokens, resp.outputTokens, resp.inputTokens + resp.outputTokens)
  {
    var text := ExtractText(resp.content);
    var calls := ExtractToolCalls(resp.content);
    return OpenAIResponse(resp.id, ParseModelName(model).display, text, calls, MapStopReason(resp.stopReason),
                          resp.inputTokens, resp.outputTokens, resp.inputTokens + resp.outputTokens);
  }

  // ----- the round trip -------------------------------------------------------------------------

  datatype Use = Use(id: string, name: string, input: Json)

  /** The tool uses of a response, inputs as values, absent input as the empty object. */
  function UsesOf(parse: Parser, content: seq<Block>): seq<Use> {
    if content == [] then []
    else
      var rest, b := UsesOf(parse, content[..|content| - 1]), content[|content| - 1];
      if b.kind != "tool_use" then rest
      else rest + [Use(b.id, b.name, if b.input == "" then EMPTY_OBJECT else ParsedArguments(parse, b.input))]
  }

  /** Text and tool uses of a translated message, read off its blocks. */
  function TextIn(blocks: seq<Json>): string {
    if blocks == [] then ""
    else
      var rest, b := TextIn(blocks[..|blocks| - 1]), blocks[|blocks| - 1];
      if Field(b, "type") == Str("text") then rest + AsString(Field(b, "text")) else rest
  }

  function UsesIn(blocks: seq<Json>): seq<Use> {
    if blocks == [] then []
    else
      var rest, b := UsesIn(blocks[..|blocks| - 1]), blocks[|blocks| - 1];
      if Field(b, "type") == Str("tool_use")
      then rest + [Use(AsString(Field(b, "id")), AsString(Field(b, "name")), Field(b, "input"))] else rest
  }

  /** The history entry a client makes of a response. */
  function HistoryEntry(content: seq<Block>): Message {
    Message("assistant", Str(TextOf(content)), CallsOf(content), "")
  }

  lemma ReadToolUse(id: string, name: string, input: Json)
    ensures var b := ToolUseBlock(id, name, input);
      && Field(b, "type") == Str("tool_use") && Field(b, "id") == Str(id)
      && Field(b, "name") == Str(name) && Field(b, "input") == input
  {
  }

  lemma ReadText(s: string)
    ensures Field(TextBlock(s), "type") == Str("text") && Field(TextBlock(s), "text") == Str(s)
  {
  }

  lemma ReadSnoc(blocks: seq<Json>, id: string, name: string, input: Json)
    ensures var more := blocks + [ToolUseBlock(id, name, input)];
      TextIn(more) == TextIn(blocks) && UsesIn(more) == UsesIn(blocks) + [Use(id, name, input)]
  {
    hide ToolUseBlock;
    ReadToolUse(id, name, input);
    assert (blocks + [ToolUseBlock(id, name, input)])[..|blocks|] == blocks;
  }

  lemma ToolUsesSnoc(parse: Parser, calls: seq<ToolCall>, c: ToolCall)
    ensures ToolUses(parse, calls + [c])
         == ToolUses(parse, calls) + [ToolUseBlock(c.id, c.name, ParsedArguments(parse, c.arguments))]
  {
    assert (calls + [c])[..|calls|] == calls;
  }

  /** Appending tool uses adds exactly them and no text. */
  lemma {:induction false} ToolUsesRead(parse: Parser, lead: seq<Json>, content: seq<Block>)
    requires parse("{}") == Some(EMPTY_OBJECT)
    ensures TextIn(lead + ToolUses(parse, CallsOf(content))) == TextIn(lead)
    ensures UsesIn(lead + ToolUses(parse, CallsOf(content))) == UsesIn(lead) + UsesOf(parse, content)
  {
    hide ToolUseBlock; hide ToolUses; hide TextIn; hide UsesIn;
    if content == [] {
      assert lead + ToolUses(parse, []) == lead;
    } else {
      var init, b := content[..|content| - 1], content[|content| - 1];
      ToolUsesRead(parse, lead, init);
      if b.kind == "tool_use" {
        var c := CallOf(b);
        var input := ParsedArguments(parse, c.arguments);
        var before := lead + ToolUses(parse, CallsOf(init));
        ToolUsesSnoc(parse, CallsOf(init), c);
        ReadSnoc(before, c.id, c.name, input);
        assert lead + ToolUses(parse, CallsOf(content)) == before + [ToolUseBlock(c.id, c.name, input)];
      }
    }
  }

  /** The assistant message a response becomes as a history entry. */
  ghost function EntryMessage(parse: Parser, content: seq<Block>): AnthropicMessage {
    var m := HistoryEntry(content);
    AnthropicMessage("assistant",
      if m.toolCalls == [] then m.content else Arr(LeadText(m.content) + ToolUses(parse, m.toolCalls)))
  }

  lemma EntryReadsBack(parse: Parser, content: seq<Block>)
    requires parse("{}") == Some(EMPTY_OBJECT)
    ensures TextIn(Blocks(EntryMessage(parse, content).content)) == TextOf(content)
    ensures UsesIn(Blocks(EntryMessage(parse, content).content)) == UsesOf(parse, content)
  {
    hide TextBlock; hide ToolUses;
    var text := TextOf(content);
    ReadText(text);
    assert TextIn([TextBlock(text)][..0]) == "" && UsesIn([TextBlock(text)][..0]) == [];
    ToolUsesRead(parse, LeadText(Str(text)), content);
    NoCallsNoUses(parse, content);
  }

  lemma AppendKeepsAssistant(parse: Parser, acc: seq<AnthropicMessage>, m: Message, i: nat)
    requires i < |acc| && acc[i].role == "assistant"
    ensures i < |Append(parse, acc, m)| && Append(parse, acc, m)[i] == acc[i]
  {
  }

  /** No later message touches an assistant message. */
  lemma {:induction false} MessagesKeepAssistant(parse: Parser, msgs: seq<Message>, k: nat, i: nat)
    requires k <= |msgs| && i < |Messages(parse, msgs[..k])| && Messages(parse, msgs[..k])[i].role == "assistant"
    ensures i < |Messages(parse, msgs)| && Messages(parse, msgs)[i] == Messages(parse, msgs[..k])[i]
    decreases |msgs|
  {
    hide Append;
    if k == |msgs| {
      assert msgs[..k] == msgs;
    } else {
      var init, m := msgs[..|msgs| - 1], msgs[|msgs| - 1];
      assert init[..k] == msgs[..k];
      MessagesKeepAssistant(parse, init, k, i);
      AppendKeepsAssistant(parse, Messages(parse, init), m, i);
    }
  }

  /** Nor does caching. */
  lemma InjectedKeepsAssistant(msgs: seq<AnthropicMessage>, ttl: TTL, i: nat)
    requires i < |msgs| && msgs[i].role == "assistant"
    ensures i < |Injected(msgs, ttl)| && Injected(msgs, ttl)[i] == msgs[i]
  {
  }

  /** Response-to-history round trip: a response sent back as an entry of the history,
      anywhere in any request and in any caching mode, carries the same text and the
      same tool uses, in order, with absent input as the empty object. */
  lemma HistoryRoundTrip(parse: Parser, content: seq<Block>, req: OpenAIRequest, k: nat, mode: Mode, ttl: TTL)
    requires parse("{}") == Some(EMPTY_OBJECT)
    requires k < |req.messages| && req.messages[k] == HistoryEntry(content)
    ensures var i := |Messages(parse, req.messages[..k])|;
      var ms := Translated(parse, req, mode, ttl).messages;
      && i < |ms| && ms[i].role == "assistant"
      && TextIn(Blocks(ms[i].content)) == TextOf(content)
      && UsesIn(Blocks(ms[i].content)) == UsesOf(parse, content)
  {
    hide Messages; hide TextOf; hide CallsOf; hide ToolUses; hide TextIn; hide UsesIn; hide Blocks; hide System; hide Injected;
    var pre, m := req.messages[..k], HistoryEntry(content);
    var i := |Messages(parse, pre)|;
    assert req.messages[..k + 1] == pre + [m];
    MessagesSnoc(parse, pre, m);
    MessagesKeepAssistant(parse, req.messages, k + 1, i);
    InjectedKeepsAssistant(Messages(parse, req.messages), ttl, i);
    EntryReadsBack(parse, content);
  }

  /** The blocks are the tool calls, each with its ID, name and arguments; arguments that
      do not parse become the empty object. */
  ghost predicate ReadAsUses(parse: Parser, blocks: seq<Json>, calls: seq<ToolCall>) {
    |blocks| == |calls| && forall j :: 0 <= j < |blocks| ==> ReadsAsUse(parse, blocks[j], calls[j])
  }

  ghost predicate ReadsAsUse(parse: Parser, block: Json, call: ToolCall) {
    && Field(block, "type") == Str("tool_use") && Field(block, "id") == Str(call.id) && Field(block, "name") == Str(call.name)
    && match parse(call.arguments)
       case Some(v) => Field(block, "input") == v
       case None => Field(block, "input") == Obj(map[])
  }

  lemma UseReads(parse: Parser, call: ToolCall)
    ensures ReadsAsUse(parse, ToolUseBlock(call.id, call.name, ParsedArguments(parse, call.arguments)), call)
  {
    hide ToolUseBlock;
    ReadToolUse(call.id, call.name, ParsedArguments(parse, call.arguments));
  }

  /** Tool calls reach the model: an assistant message with calls, anywhere in any request
      and in any caching mode, reads back as its text, if it has any, and its calls. */
  lemma ToolCallsReadBack(parse: Parser, req: OpenAIRequest, k: nat, mode: Mode, ttl: TTL)
    requires k < |req.messages| && req.messages[k].role == "assistant" && req.messages[k].toolCalls != []
    ensures var m, i := req.messages[k], |Messages(parse, req.messages[..k])|;
      var ms := Translated(parse, req, mode, ttl).messages;
      && i < |ms| && ms[i].role == "assistant" && ms[i].content.Arr?
      && var items := ms[i].content.items;
        if m.content.Str? && m.content.s != "" then
          && items != [] && Field(items[0], "type") == Str("text") && Field(items[0], "text") == m.content
          && ReadAsUses(parse, items[1..], m.toolCalls)
        else ReadAsUses(parse, items, m.toolCalls)
  {
    hide Messages; hide ToolUses; hide System; hide Injected; hide ReadsAsUse; hide ToolUseBlock; hide TextBlock;
    var pre, m := req.messages[..k], req.messages[k];
    var i := |Messages(parse, pre)|;
    assert req.messages[..k + 1] == pre + [m];
    MessagesSnoc(parse, pre, m);
    MessagesKeepAssistant(parse, req.messages, k + 1, i);
    InjectedKeepsAssistant(Messages(parse, req.messages), ttl, i);
    var uses := ToolUses(parse, m.toolCalls);
    forall j | 0 <= j < |uses| ensures ReadsAsUse(parse, uses[j], m.toolCalls[j]) { UseReads(parse, m.toolCalls[j]); }
    if m.content.Str? && m.content.s != "" {
      ReadText(m.content.s);
      assert ([TextBlock(m.content.s)] + uses)[1..] == uses;
    } else {
      assert [] + uses == uses;
    }
  }

  lemma {:induction false} NoCallsNoUses(parse: Parser, content: seq<Block>)
    ensures |CallsOf(content)| == |UsesOf(parse, content)|
  {
    if content != [] { NoCallsNoUses(parse, content[..|content| - 1]); }
  }
}
