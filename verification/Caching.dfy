/** The whole request translation with prompt caching (pkg/proxy/translate.go):
    where cache breakpoints go, and that they change nothing else. */
module Caching {
  import opened Text
  import opened Wrappers
  import opened Json
  import opened Requests

  datatype Mode = Off | Auto | SystemOnly

  datatype TTL = FiveMinutes | OneHour

  const CACHE_CONTROL: string := "cache_control"

  /** `buildCacheControl`. */
  function CacheControl(ttl: TTL): Json {
    match ttl
    case FiveMinutes => Obj(map["type" := Str("ephemeral")])
    case OneHour => Obj(map["type" := Str("ephemeral"), "ttl" := Str("1h")])
  }

  /** A block with a breakpoint; values that are not objects cannot carry one. */
  function Cached(block: Json, ttl: TTL): Json {
    if block.Obj? then Obj(block.fields[CACHE_CONTROL := CacheControl(ttl)]) else block
  }

  function CacheLast(items: seq<Json>, ttl: TTL): (r: seq<Json>)
    ensures |r| == |items|
  {
    if items == [] then items else items[|items| - 1 := Cached(items[|items| - 1], ttl)]
  }

  // ----- the system prompt ----------------------------------------------------------------

  /** What one system message makes of the system prompt. */
  function SystemAfter(mode: Mode, ttl: TTL, system: Json, content: Json): Json {
    match content
    case Str(s) =>
      if s == "" then system
      else if mode == Off then content
      else Arr([Cached(TextBlock(s), ttl)])
    case Arr(items) => if mode == Off then content else Arr(CacheLast(items, ttl))
    case _ => system
  }

  ghost function System(mode: Mode, ttl: TTL, msgs: seq<Message>): Json {
    if msgs == [] then Null
    else
      var m, before := msgs[|msgs| - 1], System(mode, ttl, msgs[..|msgs| - 1]);
      if m.role == "system" then SystemAfter(mode, ttl, before, m.content) else before
  }

  /** Position of the last system message with a nonempty string or an array, or -1. */
  ghost function LastSystem(msgs: seq<Message>): (i: int)
    ensures -1 <= i < |msgs|
    ensures i >= 0 ==> SetsSystem(msgs[i])
    ensures forall k :: i < k < |msgs| ==> !SetsSystem(msgs[k])
  {
    if msgs == [] then -1
    else if SetsSystem(msgs[|msgs| - 1]) then |msgs| - 1
    else LastSystem(msgs[..|msgs| - 1])
  }

  ghost predicate SetsSystem(m: Message) {
    m.role == "system" && (m.content.Arr? || (m.content.Str? && m.content.s != ""))
  }

  /** A later system message replaces an earlier one: the prompt is the content of
      the last that has any, and earlier ones are lost. */
  lemma {:induction false} SystemIsLast(ttl: TTL, msgs: seq<Message>)
    ensures var i := LastSystem(msgs);
      System(Off, ttl, msgs) == if i < 0 then Null else msgs[i].content
  {
    if msgs != [] { SystemIsLast(ttl, msgs[..|msgs| - 1]); }
  }

  // ----- the last user message --------------------------------------------------------------

  function InjectContent(content: Json, ttl: TTL): Json {
    match content
    case Str(s) => Arr([Cached(TextBlock(s), ttl)])
    case Arr(items) => Arr(CacheLast(items, ttl))
    case _ => content
  }

  function InjectAt(msgs: seq<AnthropicMessage>, i: nat, ttl: TTL): seq<AnthropicMessage>
    requires i < |msgs|
  {
    msgs[i := msgs[i].(content := InjectContent(msgs[i].content, ttl))]
  }

  ghost function LastUser(msgs: seq<AnthropicMessage>): (i: int)
    ensures -1 <= i < |msgs|
    ensures i >= 0 ==> msgs[i].role == "user"
    ensures forall k :: i < k < |msgs| ==> msgs[k].role != "user"
  {
    if msgs == [] then -1
    else if msgs[|msgs| - 1].role == "user" then |msgs| - 1
    else LastUser(msgs[..|msgs| - 1])
  }

  ghost function Injected(msgs: seq<AnthropicMessage>, ttl: TTL): seq<AnthropicMessage> {
    if LastUser(msgs) < 0 then msgs else InjectAt(msgs, LastUser(msgs), ttl)
  }

  /** `injectLastMessageCacheControl`. */
  method InjectLastMessage(msgs: seq<AnthropicMessage>, ttl: TTL) returns (r: seq<AnthropicMessage>)
    ensures r == Injected(msgs, ttl)
  {
    var i := |msgs| - 1;
    while i >= 0
      invariant -1 <= i < |msgs|
      invariant forall k :: i < k < |msgs| ==> msgs[k].role != "user"
    {
      if msgs[i].role != "user" {
        i := i - 1;
        continue;
      }
      match msgs[i].content {
        case Str(s) => return msgs[i := msgs[i].(content := Arr([Cached(TextBlock(s), ttl)]))];
        case Arr(items) =>
          if |items| > 0 {
            return msgs[i := msgs[i].(content := Arr(items[|items| - 1 := Cached(items[|items| - 1], ttl)]))];
          }
          return msgs;
        case _ => return msgs;
      }
    }
    return msgs;
  }

  // ----- the whole translation -----------------------------------------------------------------

  ghost function Tools(tools: seq<Tool>): seq<AnthropicTool> {
    if tools == [] then []
    else
      var rest, t := Tools(tools[..|tools| - 1]), tools[|tools| - 1];
      if t.kind == "function" && t.fn.Some?
      then rest + [AnthropicTool(t.fn.value.name, t.fn.value.description, t.fn.value.parameters)] else rest
  }

  ghost function Translated(parse: Parser, req: OpenAIRequest, mode: Mode, ttl: TTL): AnthropicRequest {
    var messages := Messages(parse, req.messages);
    AnthropicRequest(
      if mode == Auto then Injected(messages, ttl) else messages,
      System(mode, ttl, req.messages),
      if req.maxTokens == 0 then 4096 else req.maxTokens,
      req.temperature, req.topP, req.stream, "vertex-2023-10-16", Tools(req.tools))
  }

  /** `translateRequestFull`, JSON decoding and encoding aside: the request and the model. */
  method TranslateRequest(parse: Parser, req: OpenAIRequest, mode: Mode, ttl: TTL) returns (r: AnthropicRequest, model: string)
    ensures r == Translated(parse, req, mode, ttl) && model == req.model
  {
    var maxTokens := if req.maxTokens == 0 then 4096 else req.maxTokens;
    var tools := TranslateTools(req.tools);
    var messages: seq<AnthropicMessage> := [];
    var system := Null;
    for i := 0 to |req.messages|
      invariant messages == Messages(parse, req.messages[..i])
      invariant system == System(mode, ttl, req.messages[..i])
    {
      hide Messages; hide System; hide Append; hide SystemAfter;
      var msg := req.messages[i];
      assert req.messages[..i + 1] == req.messages[..i] + [msg];
      MessagesSnoc(parse, req.messages[..i], msg);
      SystemSnoc(mode, ttl, req.messages[..i], msg);
      if msg.role == "system" {
        system := TranslateSystem(mode, ttl, system, msg.content);
        assert messages == Append(parse, messages, msg) by { SystemAppendsNothing(parse, messages, msg); }
      } else {
        messages := AppendMessage(parse, messages, msg);
      }
    }
    assert req.messages[..|req.messages|] == req.messages;
    if mode == Auto {
      messages := InjectLastMessage(messages, ttl);
    }
    r := AnthropicRequest(messages, system, maxTokens, req.temperature, req.topP, req.stream, "vertex-2023-10-16", tools);
    model := req.model;
  }

  method TranslateTools(tools: seq<Tool>) returns (r: seq<AnthropicTool>)
    ensures r == Tools(tools)
  {
    r := [];
    for i := 0 to |tools|
      invariant r == Tools(tools[..i])
    {
      assert tools[..i + 1][..i] == tools[..i];
      if tools[i].kind == "function" && tools[i].fn.Some? {
        var fn := tools[i].fn.value;
        r := r + [AnthropicTool(fn.name, fn.description, fn.parameters)];
      }
    }
    assert tools[..|tools|] == tools;
  }

  method TranslateSystem(mode: Mode, ttl: TTL, system: Json, content: Json) returns (r: Json)
    ensures r == SystemAfter(mode, ttl, system, content)
  {
    r := system;
    match content {
      case Str(s) =>
        if s != "" {
          if mode == Auto || mode == SystemOnly {
            r := Arr([Obj(map["type" := Str("text"), "text" := Str(s), CACHE_CONTROL := CacheControl(ttl)])]);
            assert Cached(TextBlock(s), ttl) == Obj(map["type" := Str("text"), "text" := Str(s), CACHE_CONTROL := CacheControl(ttl)]);
          } else {
            r := content;
          }
        }
      case Arr(items) =>
        if (mode == Auto || mode == SystemOnly) && |items| > 0 {
          r := Arr(items[|items| - 1 := Cached(items[|items| - 1], ttl)]);
        } else {
          r := content;
        }
      case _ =>
    }
  }

  /** The blocks of an assistant message with tool calls. */
  method ToolCallBlocks(parse: Parser, msg: Message) returns (blocks: seq<Json>)
    ensures blocks == LeadText(msg.content) + ToolUses(parse, msg.toolCalls)
  {
    hide ToolUseBlock; hide TextBlock;
    blocks := [];
    if msg.content.Str? && msg.content.s != "" {
      blocks := blocks + [TextBlock(msg.content.s)];
    }
    for i := 0 to |msg.toolCalls|
      invariant blocks == LeadText(msg.content) + ToolUses(parse, msg.toolCalls[..i])
    {
      var tc := msg.toolCalls[i];
      assert msg.toolCalls[..i + 1][..i] == msg.toolCalls[..i];
      var input := parse(tc.arguments);
      var inputObj := if input.Some? then input.value else EMPTY_OBJECT;
      blocks := blocks + [ToolUseBlock(tc.id, tc.name, inputObj)];
    }
    assert msg.toolCalls[..|msg.toolCalls|] == msg.toolCalls;
  }

  /** The message switch of the translation loop, system messages aside. */
  method AppendMessage(parse: Parser, messages: seq<AnthropicMessage>, msg: Message) returns (r: seq<AnthropicMessage>)
    requires msg.role != "system"
    ensures r == Append(parse, messages, msg)
  {
    if msg.role == "assistant" {
      if |msg.toolCalls| == 0 {
        return messages + [AnthropicMessage(msg.role, msg.content)];
      }
      var blocks := ToolCallBlocks(parse, msg);
      return messages + [AnthropicMessage("assistant", Arr(blocks))];
    }
    if msg.role == "tool" {
      var block := ToolResultBlock(msg.toolCallID, Str(if msg.content.Str? then msg.content.s else ""));
      if |messages| > 0 {
        var last := messages[|messages| - 1];
        if last.role == "user" && last.content.Arr? {
          return messages[|messages| - 1 := last.(content := Arr(last.content.items + [block]))];
        }
      }
      return messages + [AnthropicMessage("user", Arr([block]))];
    }
    var content := TranslateContent(msg.content);
    return messages + [AnthropicMessage(msg.role, content)];
  }

  lemma SystemSnoc(mode: Mode, ttl: TTL, msgs: seq<Message>, m: Message)
    ensures System(mode, ttl, msgs + [m])
         == if m.role == "system" then SystemAfter(mode, ttl, System(mode, ttl, msgs), m.content) else System(mode, ttl, msgs)
  {
    assert (msgs + [m])[..|msgs|] == msgs;
  }

  lemma SystemAppendsNothing(parse: Parser, acc: seq<AnthropicMessage>, m: Message)
    requires m.role == "system"
    ensures Append(parse, acc, m) == acc
  {
  }

  // ----- caching is invisible ---------------------------------------------------------------------

  /** A block without its breakpoint. */
  function EraseBlock(block: Json): Json {
    if block.Obj? then Obj(block.fields - {CACHE_CONTROL}) else block
  }

  function EraseItems(items: seq<Json>): (r: seq<Json>)
    ensures |r| == |items| && forall i :: 0 <= i < |r| ==> r[i] == EraseBlock(items[i])
  {
    seq(|items|, i requires 0 <= i < |items| => EraseBlock(items[i]))
  }

  /** Content without breakpoints, a string read as one text block. */
  function EraseContent(content: Json): Json {
    match content
    case Str(s) => Arr([EraseBlock(TextBlock(s))])
    case Arr(items) => Arr(EraseItems(items))
    case _ => content
  }

  function EraseMessages(msgs: seq<AnthropicMessage>): (r: seq<AnthropicMessage>)
    ensures |r| == |msgs|
    ensures forall i :: 0 <= i < |r| ==> r[i] == AnthropicMessage(msgs[i].role, EraseContent(msgs[i].content))
  {
    seq(|msgs|, i requires 0 <= i < |msgs| => AnthropicMessage(msgs[i].role, EraseContent(msgs[i].content)))
  }

  function Erase(r: AnthropicRequest): AnthropicRequest {
    r.(messages := EraseMessages(r.messages), system := EraseContent(r.system))
  }

  lemma CachedErases(block: Json, ttl: TTL)
    ensures EraseBlock(Cached(block, ttl)) == EraseBlock(block)
  {
    if block.Obj? {
      assert block.fields[CACHE_CONTROL := CacheControl(ttl)] - {CACHE_CONTROL} == block.fields - {CACHE_CONTROL};
    }
  }

  lemma CacheLastErases(items: seq<Json>, ttl: TTL)
    ensures EraseItems(CacheLast(items, ttl)) == EraseItems(items)
  {
    hide EraseBlock; hide Cached;
    if items != [] { CachedErases(items[|items| - 1], ttl); }
  }

  lemma OneCachedErases(s: string, ttl: TTL)
    ensures EraseItems([Cached(TextBlock(s), ttl)]) == [EraseBlock(TextBlock(s))]
  {
    hide EraseBlock; hide Cached;
    CachedErases(TextBlock(s), ttl);
  }

  lemma InjectContentErases(content: Json, ttl: TTL)
    ensures EraseContent(InjectContent(content, ttl)) == EraseContent(content)
  {
    hide EraseBlock; hide Cached; hide CacheLast; hide EraseItems; hide TextBlock;
    match content
    case Str(s) => OneCachedErases(s, ttl);
    case Arr(items) => CacheLastErases(items, ttl);
    case _ =>
  }

  lemma InjectedErases(msgs: seq<AnthropicMessage>, ttl: TTL)
    ensures EraseMessages(Injected(msgs, ttl)) == EraseMessages(msgs)
  {
    hide EraseContent; hide InjectContent;
    var i := LastUser(msgs);
    if i >= 0 { InjectContentErases(msgs[i].content, ttl); }
  }

  lemma {:induction false} SystemErases(mode: Mode, ttl: TTL, msgs: seq<Message>)
    ensures EraseContent(System(mode, ttl, msgs)) == EraseContent(System(Off, ttl, msgs))
  {
    hide EraseBlock; hide Cached; hide CacheLast; hide EraseItems; hide TextBlock;
    if msgs != [] {
      SystemErases(mode, ttl, msgs[..|msgs| - 1]);
      match msgs[|msgs| - 1].content
      case Str(s) => OneCachedErases(s, ttl);
      case Arr(items) => CacheLastErases(items, ttl);
      case _ =>
    }
  }

  /** Prompt caching is invisible to meaning: whatever the mode and the TTL, the
      request without its breakpoints is the request translated with caching off. */
  lemma CachingInvisible(parse: Parser, req: OpenAIRequest, mode: Mode, ttl: TTL)
    ensures Erase(Translated(parse, req, mode, ttl)) == Erase(Translated(parse, req, Off, ttl))
  {
    hide EraseMessages; hide EraseContent; hide System; hide Messages; hide Injected; hide Tools;
    InjectedErases(Messages(parse, req.messages), ttl);
    SystemErases(mode, ttl, req.messages);
  }

  // ----- counting breakpoints -------------------------------------------------------------------------

  ghost function Marked(block: Json): nat {
    if block.Obj? && CACHE_CONTROL in block.fields then 1 else 0
  }

  ghost function MarkedItems(items: seq<Json>): nat {
    if items == [] then 0 else MarkedItems(items[..|items| - 1]) + Marked(items[|items| - 1])
  }

  ghost function MarkedContent(content: Json): nat {
    if content.Arr? then MarkedItems(content.items) else 0
  }

  ghost function MarkedMessages(msgs: seq<AnthropicMessage>): nat {
    if msgs == [] then 0 else MarkedMessages(msgs[..|msgs| - 1]) + MarkedContent(msgs[|msgs| - 1].content)
  }

  /** Cache breakpoints in a request. */
  ghost function Breakpoints(r: AnthropicRequest): nat {
    MarkedContent(r.system) + MarkedMessages(r.messages)
  }

  lemma InjectContentMarks(content: Json, ttl: TTL)
    ensures MarkedContent(content) <= MarkedContent(InjectContent(content, ttl)) <= MarkedContent(content) + 1
  {
    match content
    case Str(s) => assert MarkedItems([Cached(TextBlock(s), ttl)][..0]) == 0;
    case Arr(items) =>
      if items != [] {
        var n := |items| - 1;
        assert CacheLast(items, ttl)[..n] == items[..n];
      }
    case _ =>
  }

  lemma {:induction false} MarkedUpdate(msgs: seq<AnthropicMessage>, i: nat, m: AnthropicMessage)
    requires i < |msgs|
    ensures MarkedMessages(msgs[i := m]) == MarkedMessages(msgs) - MarkedContent(msgs[i].content) + MarkedContent(m.content)
  {
    hide MarkedContent;
    var n := |msgs| - 1;
    if i == n {
      assert msgs[i := m][..n] == msgs[..n];
    } else {
      assert msgs[i := m][..n] == msgs[..n][i := m];
      MarkedUpdate(msgs[..n], i, m);
    }
  }

  lemma InjectedMarks(msgs: seq<AnthropicMessage>, ttl: TTL)
    ensures MarkedMessages(msgs) <= MarkedMessages(Injected(msgs, ttl)) <= MarkedMessages(msgs) + 1
  {
    hide MarkedMessages; hide MarkedContent; hide InjectContent;
    var i := LastUser(msgs);
    if i >= 0 {
      InjectContentMarks(msgs[i].content, ttl);
      MarkedUpdate(msgs, i, msgs[i].(content := InjectContent(msgs[i].content, ttl)));
    }
  }

  lemma {:induction false} SystemMarks(mode: Mode, ttl: TTL, msgs: seq<Message>)
    ensures MarkedContent(System(Off, ttl, msgs)) <= MarkedContent(System(mode, ttl, msgs)) <= MarkedContent(System(Off, ttl, msgs)) + 1
    ensures mode == Off ==> MarkedContent(System(mode, ttl, msgs)) == MarkedContent(System(Off, ttl, msgs))
  {
    hide MarkedContent; hide InjectContent;
    if msgs != [] {
      SystemMarks(mode, ttl, msgs[..|msgs| - 1]);
      var content := msgs[|msgs| - 1].content;
      InjectContentMarks(content, ttl);
      SystemIsInject(mode, ttl, System(mode, ttl, msgs[..|msgs| - 1]), content);
      SystemIsInject(Off, ttl, System(Off, ttl, msgs[..|msgs| - 1]), content);
    }
  }

  lemma SystemIsInject(mode: Mode, ttl: TTL, system: Json, content: Json)
    ensures SystemAfter(mode, ttl, system, content)
         == if !(content.Arr? || (content.Str? && content.s != "")) then system
            else if mode == Off then content else InjectContent(content, ttl)
  {
  }

  /** Injected breakpoints: at most two in auto mode, one in system-only mode, none
      when off; the client's own are never removed. */
  lemma BreakpointBudget(parse: Parser, req: OpenAIRequest, mode: Mode, ttl: TTL)
    ensures var own := Breakpoints(Translated(parse, req, Off, ttl));
      var budget := match mode case Off => 0 case SystemOnly => 1 case Auto => 2;
      own <= Breakpoints(Translated(parse, req, mode, ttl)) <= own + budget
  {
    hide System; hide Messages; hide Injected; hide Tools; hide MarkedMessages; hide MarkedContent;
    SystemMarks(mode, ttl, req.messages);
    InjectedMarks(Messages(parse, req.messages), ttl);
  }

  // ----- where breakpoints go ---------------------------------------------------------------------------

  /** A string, or an array whose last block is an object. */
  ghost predicate Cacheable(content: Json) {
    content.Str? || (content.Arr? && content.items != [] && content.items[|content.items| - 1].Obj?)
  }

  ghost predicate EndsCached(content: Json, ttl: TTL) {
    && content.Arr? && content.items != []
    && Field(content.items[|content.items| - 1], CACHE_CONTROL) == CacheControl(ttl)
  }

  lemma InjectContentEnds(content: Json, ttl: TTL)
    requires Cacheable(content)
    ensures EndsCached(InjectContent(content, ttl), ttl)
  {
  }

  lemma {:induction false} CachedSystem(mode: Mode, ttl: TTL, msgs: seq<Message>)
    requires mode != Off && LastSystem(msgs) >= 0
    ensures System(mode, ttl, msgs) == InjectContent(msgs[LastSystem(msgs)].content, ttl)
  {
    hide InjectContent;
    var n := |msgs| - 1;
    SystemIsInject(mode, ttl, System(mode, ttl, msgs[..n]), msgs[n].content);
    if !SetsSystem(msgs[n]) { CachedSystem(mode, ttl, msgs[..n]); }
  }

  /** The two breakpoints: the end of the system prompt unless caching is off, and in
      auto mode the end of the last user message. */
  lemma BreakpointsPlaced(parse: Parser, req: OpenAIRequest, mode: Mode, ttl: TTL)
    ensures var i := LastSystem(req.messages);
      mode != Off && i >= 0 && Cacheable(req.messages[i].content)
      ==> EndsCached(Translated(parse, req, mode, ttl).system, ttl)
    ensures var plain := Translated(parse, req, Off, ttl).messages;
      var u := LastUser(plain);
      mode == Auto && u >= 0 && Cacheable(plain[u].content)
      ==> EndsCached(Translated(parse, req, mode, ttl).messages[u].content, ttl)
  {
    hide System; hide Messages; hide Tools; hide EndsCached; hide InjectContent; hide Cacheable;
    var i := LastSystem(req.messages);
    if mode != Off && i >= 0 && Cacheable(req.messages[i].content) {
      CachedSystem(mode, ttl, req.messages);
      InjectContentEnds(req.messages[i].content, ttl);
    }
    var plain := Messages(parse, req.messages);
    var u := LastUser(plain);
    if mode == Auto && u >= 0 && Cacheable(plain[u].content) {
      InjectContentEnds(plain[u].content, ttl);
    }
  }

  // ----- reading a translated request back, by field names -------------------------------------------------

  /** A tool result for the call `id`. */
  ghost predicate ReadsAsResult(block: Json, id: string, content: Json) {
    Field(block, "type") == Str("tool_result") && Field(block, "tool_use_id") == Str(id) && Field(block, "content") == content
  }

  /** A base64 image. */
  ghost predicate ReadsAsImage(block: Json, mediaType: string, data: string) {
    && Field(block, "type") == Str("image")
    && var source := Field(block, "source");
      && Field(source, "type") == Str("base64")
      && Field(source, "media_type") == Str(mediaType) && Field(source, "data") == Str(data)
  }

  /** The blocks are the results the tool messages report, each with its call. */
  ghost predicate ReadAsResults(blocks: seq<Json>, tools: seq<Message>) {
    |blocks| == |tools| && forall k :: 0 <= k < |blocks| ==> ReadsAsResult(blocks[k], tools[k].toolCallID, Str(AsString(tools[k].content)))
  }

  lemma ResultReads(id: string, content: Json)
    ensures ReadsAsResult(ToolResultBlock(id, content), id, content)
  {
  }

  lemma ImageReads(mediaType: string, data: string)
    ensures ReadsAsImage(ImageBlock(mediaType, data), mediaType, data)
  {
  }

  /** A breakpoint adds its own field and touches no other. */
  lemma BreakpointReads(block: Json, ttl: TTL)
    ensures forall name :: name != "cache_control" ==> Field(Cached(block, ttl), name) == Field(block, name)
    ensures block.Obj? ==>
      var mark := Field(Cached(block, ttl), "cache_control");
      Field(mark, "type") == Str("ephemeral") && Field(mark, "ttl") == if ttl == OneHour then Str("1h") else Null
  {
  }

  lemma CachedStillReads(block: Json, ttl: TTL)
    ensures forall id, content :: ReadsAsResult(block, id, content) ==> ReadsAsResult(Cached(block, ttl), id, content)
    ensures forall mediaType, data :: ReadsAsImage(block, mediaType, data) ==> ReadsAsImage(Cached(block, ttl), mediaType, data)
  {
    hide Cached; hide Field;
    BreakpointReads(block, ttl);
  }

  /** Whatever the mode, a translated message has the role and the blocks of mode off,
      but for breakpoints. */
  lemma ModeKeepsBlocks(parse: Parser, req: OpenAIRequest, mode: Mode, ttl: TTL, i: nat)
    requires var plain := Messages(parse, req.messages); i < |plain| && plain[i].content.Arr?
    ensures var plain, ms := Messages(parse, req.messages), Translated(parse, req, mode, ttl).messages;
      && |ms| == |plain| && ms[i].role == plain[i].role && ms[i].content.Arr? && |ms[i].content.items| == |plain[i].content.items|
      && forall k :: 0 <= k < |plain[i].content.items| ==>
           ms[i].content.items[k] == plain[i].content.items[k] || ms[i].content.items[k] == Cached(plain[i].content.items[k], ttl)
  {
    hide Messages; hide System; hide Tools; hide Cached; hide LastUser;
  }

  /** Tool results reach the model with the calls they answer: any run of tool messages,
      anywhere in any request and in any caching mode, reads back from one user message,
      in order, each with its call and its content. */
  lemma ToolResultsReadBack(parse: Parser, req: OpenAIRequest, lo: nat, hi: nat, mode: Mode, ttl: TTL) returns (i: nat, at: nat)
    requires lo < hi <= |req.messages| && forall k :: lo <= k < hi ==> req.messages[k].role == "tool"
    ensures var ms := Translated(parse, req, mode, ttl).messages;
      && i < |ms| && ms[i].role == "user" && ms[i].content.Arr? && at + (hi - lo) <= |ms[i].content.items|
      && ReadAsResults(ms[i].content.items[at..at + (hi - lo)], req.messages[lo..hi])
  {
    hide Messages; hide Translated; hide ReadsAsResult; hide ToolResultBlock; hide Cached;
    var pre, tools, post := req.messages[..lo], req.messages[lo..hi], req.messages[hi..];
    assert req.messages == pre + tools + post;
    assert forall k :: 0 <= k < |tools| ==> tools[k] == req.messages[lo + k];
    i := ToolRunTogether(parse, pre, tools, post);
    var plain := Messages(parse, req.messages)[i].content.items;
    at :| OccursAt(plain, Results(tools), at);
    ModeKeepsBlocks(parse, req, mode, ttl, i);
    var items := Translated(parse, req, mode, ttl).messages[i].content.items;
    var found := items[at..at + (hi - lo)];
    forall k | 0 <= k < |found| ensures ReadsAsResult(found[k], tools[k].toolCallID, Str(AsString(tools[k].content))) {
      var id, content := tools[k].toolCallID, Str(AsString(tools[k].content));
      assert plain[at + k] == plain[at..at + |tools|][k] == Results(tools)[k];
      ResultReads(id, content);
      CachedStillReads(plain[at + k], ttl);
    }
  }

  /** A content part with an image at a URL. */
  ghost predicate ImageAt(part: Json, url: string) {
    Field(part, "type") == Str("image_url") && Field(Field(part, "image_url"), "url") == Str(url)
  }

  lemma ImageAtURL(part: Json, url: string)
    requires ImageAt(part, url)
    ensures IsImagePart(part) && ImageURL(part) == url
  {
  }

  /** Images reach the model with the media type and data of their URLs: in a message all
      of whose images are base64 data URLs, each reads back from its own position, in any
      request and any caching mode. */
  lemma ImagesReadBack(parse: Parser, req: OpenAIRequest, k: nat, mode: Mode, ttl: TTL)
    requires k < |req.messages| && req.messages[k].role == "user" && req.messages[k].content.Arr?
    requires ImagesConvertible(req.messages[k].content.items)
    ensures var parts, i := req.messages[k].content.items, |Messages(parse, req.messages[..k])|;
      var ms := Translated(parse, req, mode, ttl).messages;
      && i < |ms| && ms[i].role == "user" && ms[i].content.Arr? && |parts| <= |ms[i].content.items|
      && forall j, url, mediaType, params, data :: 0 <= j < |parts| && ImageAt(parts[j], url) && DataURL(url, mediaType, params, data) ==>
           ReadsAsImage(ms[i].content.items[j], mediaType, data)
  {
    hide Messages; hide Translated; hide ReadsAsImage; hide Cached; hide TranslateParts; hide IsImagePart; hide DataURL; hide ImageURL;
    hide ImagesConvertible; hide IdealParts; hide ImageBlock; hide ImageAt;
    var m := req.messages[k];
    var parts, pre := m.content.items, req.messages[..k];
    var i := |Messages(parse, pre)|;
    TranslatePartsIff(parts);
    assert req.messages[..k + 1] == pre + [m];
    MessagesSnoc(parse, pre, m);
    MessagesGrow(parse, req.messages, k + 1, i);
    ModeKeepsBlocks(parse, req, mode, ttl, i);
    var plain := Messages(parse, req.messages)[i].content.items;
    var items := Translated(parse, req, mode, ttl).messages[i].content.items;
    forall j, url, mediaType, params, data | 0 <= j < |parts| && ImageAt(parts[j], url) && DataURL(url, mediaType, params, data)
      ensures ReadsAsImage(items[j], mediaType, data)
    {
      ImageAtURL(parts[j], url);
      ImageArrives(parts[j]);
      ImageConvertedIff(parts[j], mediaType, data);
      assert plain[j] == IdealParts(parts)[j];
      ImageReads(mediaType, data);
      CachedStillReads(plain[j], ttl);
    }
  }

  lemma AppendGrows(parse: Parser, acc: seq<AnthropicMessage>, m: Message, i: nat)
    requires i < |acc| && acc[i].content.Arr?
    ensures var acc' := Append(parse, acc, m);
      i < |acc'| && acc'[i].role == acc[i].role && acc'[i].content.Arr? && acc[i].content.items <= acc'[i].content.items
  {
    hide ToolUses; hide TranslateParts;
  }

  /** Later messages only add blocks at the end. */
  lemma {:induction false} MessagesGrow(parse: Parser, msgs: seq<Message>, k: nat, i: nat)
    requires k <= |msgs| && i < |Messages(parse, msgs[..k])| && Messages(parse, msgs[..k])[i].content.Arr?
    ensures var before, after := Messages(parse, msgs[..k]), Messages(parse, msgs);
      i < |after| && after[i].role == before[i].role && after[i].content.Arr? && before[i].content.items <= after[i].content.items
    decreases |msgs|
  {
    hide Append;
    if k == |msgs| {
      assert msgs[..k] == msgs;
    } else {
      var init, m := msgs[..|msgs| - 1], msgs[|msgs| - 1];
      assert init[..k] == msgs[..k];
      MessagesGrow(parse, init, k, i);
      AppendGrows(parse, Messages(parse, init), m, i);
    }
  }

  /** The rest of a request: nothing is changed but a missing token limit. */
  lemma SettingsKept(parse: Parser, req: OpenAIRequest, mode: Mode, ttl: TTL)
    ensures var r := Translated(parse, req, mode, ttl);
      && r.temperature == req.temperature && r.topP == req.topP && r.stream == req.stream
      && (req.maxTokens != 0 ==> r.maxTokens == req.maxTokens) && (req.maxTokens == 0 ==> r.maxTokens == 4096)
      && r.version == "vertex-2023-10-16"
  {
    hide Messages; hide System; hide Tools; hide Injected;
  }

  /** A tool the model can call. */
  ghost predicate IsFunction(t: Tool) {
    t.kind == "function" && t.fn.Some?
  }

  ghost predicate SameTool(r: AnthropicTool, t: Tool) {
    IsFunction(t) && r.name == t.fn.value.name && r.description == t.fn.value.description && r.inputSchema == t.fn.value.parameters
  }

  /** The tools are the function tools at positions `ks`, in that order, as given. */
  ghost predicate ToolsAt(r: seq<AnthropicTool>, tools: seq<Tool>, ks: seq<nat>) {
    && |ks| == |r| && (forall i, j :: 0 <= i < j < |ks| ==> ks[i] < ks[j])
    && forall i :: 0 <= i < |ks| ==> ks[i] < |tools| && SameTool(r[i], tools[ks[i]])
  }

  lemma ToolsAtSnoc(r: seq<AnthropicTool>, tools: seq<Tool>, ks: seq<nat>, a: AnthropicTool, t: Tool)
    requires ToolsAt(r, tools, ks)
    ensures ToolsAt(r, tools + [t], ks)
    ensures SameTool(a, t) ==> ToolsAt(r + [a], tools + [t], ks + [|tools|])
  {
    hide SameTool;
    assert forall k :: 0 <= k < |tools| ==> (tools + [t])[k] == tools[k];
    assert (tools + [t])[|tools|] == t;
  }

  lemma MemberSnoc(tools: seq<Tool>, t: Tool, ks: seq<nat>, more: seq<nat>)
    requires (forall k :: k in ks ==> k < |tools|) && forall k :: 0 <= k < |tools| ==> (k in ks <==> IsFunction(tools[k]))
    requires more == if IsFunction(t) then ks + [|tools|] else ks
    ensures forall k :: 0 <= k < |tools + [t]| ==> (k in more <==> IsFunction((tools + [t])[k]))
  {
    hide IsFunction;
  }

  /** Exactly the function tools are offered, in order. */
  lemma {:induction false} ToolsKept(tools: seq<Tool>) returns (ks: seq<nat>)
    ensures ToolsAt(Tools(tools), tools, ks)
    ensures (forall k :: k in ks ==> k < |tools|) && forall k :: 0 <= k < |tools| ==> (k in ks <==> IsFunction(tools[k]))
  {
    hide Tools; hide SameTool; hide IsFunction;
    ks := [];
    if tools == [] {
      NoTools();
    } else {
      hide ToolsAt;
      var n := |tools| - 1;
      var init, last := tools[..n], tools[n];
      var before := ToolsKept(init);
      assert tools == init + [last];
      ToolsSnoc(init, last);
      ks := if IsFunction(last) then before + [n] else before;
      MemberSnoc(init, last, before, ks);
      var r, r' := Tools(init), Tools(tools);
      if IsFunction(last) {
        assert r' == r + [r'[|r|]];
        ToolsAtSnoc(r, init, before, r'[|r|], last);
      } else {
        ToolsAtSnoc(r, init, before, AnthropicTool("", "", Null), last);
      }
    }
  }

  lemma NoTools()
    ensures Tools([]) == []
  {
  }

  lemma ToolsSnoc(tools: seq<Tool>, t: Tool)
    ensures if IsFunction(t) then
        |Tools(tools + [t])| == |Tools(tools)| + 1 && Tools(tools + [t])[..|Tools(tools)|] == Tools(tools)
        && SameTool(Tools(tools + [t])[|Tools(tools)|], t)
      else Tools(tools + [t]) == Tools(tools)
  {
    assert (tools + [t])[..|tools|] == tools;
  }
}
