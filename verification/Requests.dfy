/** Translating OpenAI chat requests to Anthropic's format (pkg/proxy/translate.go):
    system extraction, tool calls, merging of tool results, images. */
module Requests {
  import opened Text
  import opened Wrappers
  import opened Json

  datatype ToolCall = ToolCall(id: string, name: string, arguments: string)

  datatype Message = Message(role: string, content: Json, toolCalls: seq<ToolCall>, toolCallID: string)

  datatype ToolFunction = ToolFunction(name: string, description: string, parameters: Json)

  datatype Tool = Tool(kind: string, fn: Option<ToolFunction>)

  datatype OpenAIRequest = OpenAIRequest(
    model: string, messages: seq<Message>, maxTokens: int, temperature: Option<real>, topP: Option<real>,
    stream: bool, tools: seq<Tool>)

  datatype AnthropicMessage = AnthropicMessage(role: string, content: Json)

  datatype AnthropicTool = AnthropicTool(name: string, description: string, inputSchema: Json)

  datatype AnthropicRequest = AnthropicRequest(
    messages: seq<AnthropicMessage>, system: Json, maxTokens: int, temperature: Option<real>, topP: Option<real>,
    stream: bool, version: string, tools: seq<AnthropicTool>)

  // ----- blocks ------------------------------------------------------------------------

  function TextBlock(s: string): Json {
    Obj(map["type" := Str("text"), "text" := Str(s)])
  }

  function ToolUseBlock(id: string, name: string, input: Json): Json {
    Obj(map["type" := Str("tool_use"), "id" := Str(id), "name" := Str(name), "input" := input])
  }

  function ToolResultBlock(id: string, content: Json): Json {
    Obj(map["type" := Str("tool_result"), "tool_use_id" := Str(id), "content" := content])
  }

  function ImageBlock(mediaType: string, data: string): Json {
    Obj(map["type" := Str("image"),
            "source" := Obj(map["type" := Str("base64"), "media_type" := Str(mediaType), "data" := Str(data)])])
  }

  // ----- images --------------------------------------------------------------------------

  const DATA_SCHEME: string := "data:"
  const BASE64_MARK: string := ";base64,"

  /** `parseDataURL`: media type, without parameters, and base64 data. */
  function ParseDataURL(url: string): Option<(string, string)> {
    var rest := if DATA_SCHEME <= url then url[|DATA_SCHEME|..] else url;
    var idx := Index(rest, BASE64_MARK);
    if idx < 0 then None
    else
      var mediaType := Split(rest[..idx], ';')[0];
      var data := rest[idx + |BASE64_MARK|..];
      if mediaType == "" || data == "" then None else Some((mediaType, data))
  }

  /** A base64 data URL with its media type, further parameters and data. */
  ghost predicate DataURL(url: string, mediaType: string, params: string, data: string) {
    && url == "data:" + mediaType + params + ";base64," + data
    && mediaType != "" && data != "" && ';' !in mediaType
    && (params == "" || params[0] == ';') && Index(params, ";base64,") < 0
  }

  lemma MarkIn(mediaType: string, params: string)
    requires ';' !in mediaType && Index(params, BASE64_MARK) < 0
    ensures Index(mediaType + params, BASE64_MARK) < 0
  {
    hide IndexFrom;
    var s := mediaType + params;
    forall k | 0 <= k ensures !OccursAt(s, BASE64_MARK, k) {
      if k < |mediaType| && k + |BASE64_MARK| <= |s| {
        assert s[k..k + |BASE64_MARK|][0] == s[k] == mediaType[k];
      } else if k + |BASE64_MARK| <= |s| {
        assert !OccursAt(params, BASE64_MARK, k - |mediaType|);
        assert params[k - |mediaType|..k - |mediaType| + |BASE64_MARK|] == s[k..k + |BASE64_MARK|];
      }
    }
  }

  /** Every base64 data URL is read back exactly, parameters dropped. */
  lemma ReadDataURL(url: string, mediaType: string, params: string, data: string)
    requires DataURL(url, mediaType, params, data)
    ensures DATA_SCHEME <= url && ParseDataURL(url) == Some((mediaType, data))
  {
    hide Index; hide Split;
    var head := mediaType + params;
    var rest := head + BASE64_MARK + data;
    assert url == DATA_SCHEME + rest && url[|DATA_SCHEME|..] == rest;
    MarkIn(mediaType, params);
    IndexAfter(head, BASE64_MARK, data);
    assert rest[..|head|] == head && rest[|head| + |BASE64_MARK|..] == data;
    assert Split(mediaType, ';') == [mediaType];
    if params == "" {
      assert head == mediaType;
    } else {
      assert head == mediaType + [';'] + params[1..];
      SplitAtSeparator(mediaType, ';', params[1..]);
    }
  }

  /** Before the first mark there is none, in the parameters either. */
  lemma NoMarkBefore(mediaType: string, params: string, tail: string, mark: string)
    requires mark != "" && Index(mediaType + params + tail, mark) == |mediaType + params|
    ensures Index(params, mark) < 0
  {
    hide IndexFrom;
    var rest := mediaType + params + tail;
    var k := Index(params, mark);
    var at := |mediaType| + k;
    assert k >= 0 ==> rest[at..at + |mark|] == params[k..k + |mark|];
    assert k >= 0 ==> OccursAt(rest, mark, at);
  }

  lemma CutAtMark(rest: string, mark: string) returns (head: string, data: string)
    requires Index(rest, mark) >= 0
    ensures var i := Index(rest, mark); head == rest[..i] && data == rest[i + |mark|..]
    ensures rest == head + mark + data
  {
    hide IndexFrom;
    var i := Index(rest, mark);
    head, data := rest[..i], rest[i + |mark|..];
    assert rest == rest[..i] + rest[i..i + |mark|] + rest[i + |mark|..];
  }

  lemma ParsedParts(url: string) returns (head: string, data: string)
    requires DATA_SCHEME <= url && ParseDataURL(url).Some?
    ensures url == DATA_SCHEME + (head + BASE64_MARK + data)
    ensures Index(head + BASE64_MARK + data, BASE64_MARK) == |head|
    ensures ParseDataURL(url).value == (Split(head, ';')[0], data) && Split(head, ';')[0] != "" && data != ""
  {
    hide Index; hide Split;
    var rest := url[|DATA_SCHEME|..];
    head, data := CutAtMark(rest, BASE64_MARK);
    assert url == DATA_SCHEME + rest;
  }

  lemma HeadParts(head: string) returns (params: string)
    ensures var mediaType := Split(head, ';')[0];
      && head == mediaType + params && ';' !in mediaType && (params == "" || params[0] == ';')
  {
    hide Split;
    SplitFirst(head, ';');
    var mediaType := Split(head, ';')[0];
    params := head[|mediaType|..];
  }

  /** Nothing else is read. */
  lemma OnlyDataURLs(url: string) returns (params: string)
    requires DATA_SCHEME <= url && ParseDataURL(url).Some?
    ensures DataURL(url, ParseDataURL(url).value.0, params, ParseDataURL(url).value.1)
  {
    hide Index; hide Split; hide ParseDataURL;
    var head, data := ParsedParts(url);
    params := HeadParts(head);
    var mediaType := Split(head, ';')[0];
    assert head + BASE64_MARK + data == mediaType + params + (BASE64_MARK + data);
    NoMarkBefore(mediaType, params, BASE64_MARK + data, BASE64_MARK);
    assert url == DATA_SCHEME + mediaType + params + BASE64_MARK + data;
  }

  function ImageURL(part: Json): string {
    AsString(Field(Field(part, "image_url"), "url"))
  }

  /** `translateImageURLToAnthropic`: only base64 data URLs are accepted. */
  function TranslateImage(part: Json): Option<Json> {
    var url := ImageURL(part);
    if !(DATA_SCHEME <= url) then None
    else match ParseDataURL(url)
      case None => None
      case Some((mediaType, data)) => Some(ImageBlock(mediaType, data))
  }

  lemma ImageBlockIdentifies(mediaType: string, data: string, mediaType': string, data': string)
    ensures ImageBlock(mediaType, data) == ImageBlock(mediaType', data') ==> mediaType == mediaType' && data == data'
  {
    var b, b' := ImageBlock(mediaType, data), ImageBlock(mediaType', data');
    assert b == b' ==> b.fields["source"].fields["media_type"] == b'.fields["source"].fields["media_type"];
    assert b == b' ==> b.fields["source"].fields["data"] == b'.fields["source"].fields["data"];
  }

  /** An image is converted exactly when its URL is a base64 data URL, and to the
      media type and data the URL holds. */
  lemma ImageConvertedIff(part: Json, mediaType: string, data: string)
    ensures TranslateImage(part) == Some(ImageBlock(mediaType, data))
            <==> exists params :: DataURL(ImageURL(part), mediaType, params, data)
  {
    hide ParseDataURL; hide DataURL; hide ImageURL; hide ImageBlock;
    if params :| DataURL(ImageURL(part), mediaType, params, data) {
      ReadDataURL(ImageURL(part), mediaType, params, data);
    }
    if TranslateImage(part) == Some(ImageBlock(mediaType, data)) {
      var params := OnlyDataURLs(ImageURL(part));
      var (mt, d) := ParseDataURL(ImageURL(part)).value;
      ImageBlockIdentifies(mt, d, mediaType, data);
    }
  }

  predicate IsImagePart(part: Json) {
    AsString(Field(part, "type")) == "image_url"
  }

  /** One content part: images are converted or dropped, the rest passes through. */
  function TranslatePart(part: Json): seq<Json> {
    if !IsImagePart(part) then [part]
    else match TranslateImage(part)
      case None => []
      case Some(block) => [block]
  }

  function TranslateParts(parts: seq<Json>): seq<Json> {
    if parts == [] then [] else TranslateParts(parts[..|parts| - 1]) + TranslatePart(parts[|parts| - 1])
  }

  /** `translateContentToAnthropic`. */
  method TranslateContent(content: Json) returns (r: Json)
    ensures r == ContentOf(content)
  {
    match content
    case Arr(parts) =>
      var blocks: seq<Json> := [];
      for i := 0 to |parts|
        invariant blocks == TranslateParts(parts[..i])
      {
        assert parts[..i + 1][..i] == parts[..i];
        if !IsImagePart(parts[i]) {
          blocks := blocks + [parts[i]];
          continue;
        }
        var block := TranslateImage(parts[i]);
        if block.None? {
          continue;   // skipped with a warning
        }
        blocks := blocks + [block.value];
      }
      assert parts[..|parts|] == parts;
      return Arr(blocks);
    case _ => return content;
  }

  function ContentOf(content: Json): Json {
    match content
    case Arr(parts) => Arr(TranslateParts(parts))
    case _ => content
  }

  // ----- messages ---------------------------------------------------------------------------

  function ParsedArguments(parse: Parser, arguments: string): Json {
    match parse(arguments)
    case None => EMPTY_OBJECT
    case Some(v) => v
  }

  function ToolUses(parse: Parser, calls: seq<ToolCall>): (r: seq<Json>)
    ensures |r| == |calls|
    ensures forall i :: 0 <= i < |calls| ==>
              r[i] == ToolUseBlock(calls[i].id, calls[i].name, ParsedArguments(parse, calls[i].arguments))
  {
    if calls == [] then []
    else
      var c := calls[|calls| - 1];
      ToolUses(parse, calls[..|calls| - 1]) + [ToolUseBlock(c.id, c.name, ParsedArguments(parse, c.arguments))]
  }

  /** The text block in front of tool uses, when there is text. */
  function LeadText(content: Json): seq<Json> {
    if content.Str? && content.s != "" then [TextBlock(content.s)] else []
  }

  /** Appending one message to the translation so far. */
  function Append(parse: Parser, acc: seq<AnthropicMessage>, m: Message): seq<AnthropicMessage> {
    if m.role == "system" then acc
    else if m.role == "assistant" then
      acc + [AnthropicMessage("assistant",
        if m.toolCalls == [] then m.content else Arr(LeadText(m.content) + ToolUses(parse, m.toolCalls)))]
    else if m.role == "tool" then
      var block := ToolResultBlock(m.toolCallID, Str(AsString(m.content)));
      var n := |acc| - 1;
      if acc != [] && acc[n].role == "user" && acc[n].content.Arr?
      then acc[n := AnthropicMessage("user", Arr(acc[n].content.items + [block]))]
      else acc + [AnthropicMessage("user", Arr([block]))]
    else acc + [AnthropicMessage(m.role, ContentOf(m.content))]
  }

  ghost function Messages(parse: Parser, msgs: seq<Message>): seq<AnthropicMessage> {
    if msgs == [] then []
    else Append(parse, Messages(parse, msgs[..|msgs| - 1]), msgs[|msgs| - 1])
  }

  lemma MessagesSnoc(parse: Parser, msgs: seq<Message>, m: Message)
    ensures Messages(parse, msgs + [m]) == Append(parse, Messages(parse, msgs), m)
  {
    assert (msgs + [m])[..|msgs|] == msgs;
  }

  // ----- what a conversation says -------------------------------------------------------------

  datatype Item = Item(role: string, block: Json)

  /** String content reads as one text block. */
  function Blocks(content: Json): seq<Json> {
    match content
    case Str(s) => [TextBlock(s)]
    case Arr(items) => items
    case _ => [content]
  }

  ghost function Tag(role: string, blocks: seq<Json>): (r: seq<Item>)
    ensures |r| == |blocks| && forall i :: 0 <= i < |r| ==> r[i] == Item(role, blocks[i])
  {
    seq(|blocks|, i requires 0 <= i < |blocks| => Item(role, blocks[i]))
  }

  /** The blocks of a translated conversation, in order, each with its speaker. */
  ghost function Flatten(msgs: seq<AnthropicMessage>): seq<Item> {
    if msgs == [] then []
    else
      var m := msgs[|msgs| - 1];
      Flatten(msgs[..|msgs| - 1]) + Tag(m.role, Blocks(m.content))
  }

  /** The URL of the image is a base64 data URL. */
  ghost predicate Convertible(part: Json) {
    exists mediaType, params, data :: DataURL(ImageURL(part), mediaType, params, data)
  }

  /** A part as it should arrive: an image in a data URL as a block with its media
      type and data, anything else as sent. */
  ghost function IdealPart(part: Json): Json {
    if IsImagePart(part) && Convertible(part) then
      var mediaType, params, data :| DataURL(ImageURL(part), mediaType, params, data);
      ImageBlock(mediaType, data)
    else part
  }

  lemma ImageArrives(part: Json)
    ensures TranslateImage(part).Some? <==> Convertible(part)
    ensures IsImagePart(part) && Convertible(part) ==> TranslateImage(part) == Some(IdealPart(part))
  {
    hide DataURL; hide ImageURL; hide IsImagePart; hide ImageBlock;
    if TranslateImage(part).Some? {
      var params := OnlyDataURLs(ImageURL(part));
    }
    if Convertible(part) {
      if IsImagePart(part) {
        var mediaType, params, data :| DataURL(ImageURL(part), mediaType, params, data) && IdealPart(part) == ImageBlock(mediaType, data);
        ReadDataURL(ImageURL(part), mediaType, params, data);
      } else {
        var mediaType, params, data :| DataURL(ImageURL(part), mediaType, params, data);
        ReadDataURL(ImageURL(part), mediaType, params, data);
      }
    }
  }

  ghost function IdealParts(parts: seq<Json>): (r: seq<Json>)
    ensures |r| == |parts| && forall i :: 0 <= i < |r| ==> r[i] == IdealPart(parts[i])
  {
    seq(|parts|, i requires 0 <= i < |parts| => IdealPart(parts[i]))
  }

  /** A call's arguments as a value; text that is not JSON stands for itself. */
  function IdealArguments(parse: Parser, arguments: string): Json {
    match parse(arguments)
    case None => Str(arguments)
    case Some(v) => v
  }

  ghost function IdealUses(parse: Parser, calls: seq<ToolCall>): (r: seq<Json>)
    ensures |r| == |calls|
    ensures forall i :: 0 <= i < |r| ==>
              r[i] == ToolUseBlock(calls[i].id, calls[i].name, IdealArguments(parse, calls[i].arguments))
  {
    seq(|calls|, i requires 0 <= i < |calls| =>
      ToolUseBlock(calls[i].id, calls[i].name, IdealArguments(parse, calls[i].arguments)))
  }

  /** What one source message says, with "tool" read as "user". System messages
      speak through the system prompt instead. */
  ghost function Meaning(parse: Parser, m: Message): seq<Item> {
    if m.role == "system" then []
    else if m.role == "assistant" then
      if m.toolCalls == [] then Tag("assistant", Blocks(m.content))
      else
        var lead := if m.content == Null || m.content == Str("") then [] else Blocks(m.content);
        Tag("assistant", lead + IdealUses(parse, m.toolCalls))
    else if m.role == "tool" then Tag("user", [ToolResultBlock(m.toolCallID, m.content)])
    else Tag(m.role, if m.content.Arr? then IdealParts(m.content.items) else Blocks(m.content))
  }

  ghost function MeaningAll(parse: Parser, msgs: seq<Message>): seq<Item> {
    if msgs == [] then []
    else MeaningAll(parse, msgs[..|msgs| - 1]) + Meaning(parse, msgs[|msgs| - 1])
  }

  /** What a caller must respect: tool results are strings, a tool-calling assistant
      message has string or no content and arguments that parse, and images come in
      base64 data URLs. */
  ghost predicate Faithful(parse: Parser, m: Message) {
    if m.role == "system" then true
    else if m.role == "assistant" then
      m.toolCalls == [] || ((m.content.Str? || m.content.Null? || m.content == Arr([])) && ArgumentsParse(parse, m.toolCalls))
    else if m.role == "tool" then m.content.Str?
    else m.content.Arr? ==> ImagesConvertible(m.content.items)
  }

  ghost predicate ArgumentsParse(parse: Parser, calls: seq<ToolCall>) {
    forall i :: 0 <= i < |calls| ==> parse(calls[i].arguments).Some?
  }

  ghost predicate ImagesConvertible(parts: seq<Json>) {
    forall i :: 0 <= i < |parts| && IsImagePart(parts[i]) ==> Convertible(parts[i])
  }

  /** What one message adds to the flattened translation. */
  ghost function Added(parse: Parser, m: Message): seq<Item> {
    if m.role == "system" then []
    else if m.role == "assistant" then
      Tag("assistant", if m.toolCalls == [] then Blocks(m.content) else LeadText(m.content) + ToolUses(parse, m.toolCalls))
    else if m.role == "tool" then Tag("user", [ToolResultBlock(m.toolCallID, Str(AsString(m.content)))])
    else Tag(m.role, Blocks(ContentOf(m.content)))
  }

  lemma TagConcat(role: string, a: seq<Json>, b: seq<Json>)
    ensures Tag(role, a + b) == Tag(role, a) + Tag(role, b)
  {
  }

  lemma FlattenSnoc(msgs: seq<AnthropicMessage>, m: AnthropicMessage)
    ensures Flatten(msgs + [m]) == Flatten(msgs) + Tag(m.role, Blocks(m.content))
  {
    assert (msgs + [m])[..|msgs|] == msgs;
  }

  /** Merged or not, a message adds its blocks at the end of the conversation. */
  lemma AppendFlattens(parse: Parser, acc: seq<AnthropicMessage>, m: Message)
    ensures Flatten(Append(parse, acc, m)) == Flatten(acc) + Added(parse, m)
  {
    hide Flatten; hide Tag; hide TranslateParts; hide ToolUses;
    if m.role == "system" {
      assert Flatten(acc) + [] == Flatten(acc);
    } else if m.role == "assistant" {
      FlattenSnoc(acc, Append(parse, acc, m)[|acc|]);
    } else if m.role == "tool" {
      var block := ToolResultBlock(m.toolCallID, Str(AsString(m.content)));
      var n := |acc| - 1;
      if acc != [] && acc[n].role == "user" && acc[n].content.Arr? {
        var init, last := acc[..n], acc[n];
        var last' := AnthropicMessage("user", Arr(last.content.items + [block]));
        assert acc == init + [last] && acc[n := last'] == init + [last'];
        FlattenSnoc(init, last);
        FlattenSnoc(init, last');
        TagConcat("user", last.content.items, [block]);
        assert Flatten(init) + (Tag("user", last.content.items) + Tag("user", [block]))
            == Flatten(init) + Tag("user", last.content.items) + Tag("user", [block]);
      } else {
        FlattenSnoc(acc, AnthropicMessage("user", Arr([block])));
      }
    } else {
      FlattenSnoc(acc, AnthropicMessage(m.role, ContentOf(m.content)));
    }
  }

  lemma {:induction false} TranslatePartsIff(parts: seq<Json>)
    ensures |TranslateParts(parts)| <= |parts|
    ensures TranslateParts(parts) == IdealParts(parts) <==> ImagesConvertible(parts)
  {
    hide TranslateImage; hide IsImagePart; hide Convertible; hide IdealPart;
    if parts != [] {
      var init, last := parts[..|parts| - 1], parts[|parts| - 1];
      TranslatePartsIff(init);
      ImageArrives(last);
      assert IdealParts(parts) == IdealParts(init) + [IdealPart(last)];
      assert forall i :: 0 <= i < |init| ==> init[i] == parts[i];
      if IsImagePart(last) && TranslateImage(last).None? {
        assert |TranslateParts(parts)| < |parts|;
      } else {
        OtherPartArrives(last);
        assert TranslatePart(last) == [IdealPart(last)];
      }
    }
  }

  lemma OtherPartArrives(part: Json)
    ensures !IsImagePart(part) ==> IdealPart(part) == part
  {
  }

  /** The tool uses carry the calls' arguments exactly when all of them parse. */
  lemma ToolUsesIff(parse: Parser, calls: seq<ToolCall>)
    ensures ToolUses(parse, calls) == IdealUses(parse, calls) <==> ArgumentsParse(parse, calls)
  {
    hide ToolUses; hide ToolUseBlock; hide IdealUses;
    var sent, ideal := ToolUses(parse, calls), IdealUses(parse, calls);
    forall i | 0 <= i < |calls| ensures sent[i] == ideal[i] <==> parse(calls[i].arguments).Some? {
      var c := calls[i];
      ToolUseInput(c.id, c.name, ParsedArguments(parse, c.arguments), IdealArguments(parse, c.arguments));
    }
  }

  lemma ToolUseInput(id: string, name: string, a: Json, b: Json)
    ensures ToolUseBlock(id, name, a) == ToolUseBlock(id, name, b) <==> a == b
  {
    assert ToolUseBlock(id, name, a).fields["input"] == a && ToolUseBlock(id, name, b).fields["input"] == b;
  }

  /** One message is translated to what it says exactly when it is faithful, and
      never to more. */
  lemma AddedIff(parse: Parser, m: Message)
    ensures |Added(parse, m)| <= |Meaning(parse, m)|
    ensures Added(parse, m) == Meaning(parse, m) <==> Faithful(parse, m)
  {
    hide TranslateImage; hide IsImagePart; hide TranslateParts; hide ImagesConvertible; hide ArgumentsParse; hide IdealUses; hide ToolUses;
    if m.role == "assistant" && m.toolCalls != [] {
      var uses, ideal := ToolUses(parse, m.toolCalls), IdealUses(parse, m.toolCalls);
      var lead := if m.content == Null || m.content == Str("") then [] else Blocks(m.content);
      ToolUsesIff(parse, m.toolCalls);
      ConcatEqual(LeadText(m.content), uses, lead, ideal);
      TagInjective("assistant", LeadText(m.content) + uses, lead + ideal);
    } else if m.role == "tool" {
      var sent, ideal := ToolResultBlock(m.toolCallID, Str(AsString(m.content))), ToolResultBlock(m.toolCallID, m.content);
      assert sent.fields["content"] == Str(AsString(m.content)) && ideal.fields["content"] == m.content;
      assert Tag("user", [sent])[0].block == sent && Tag("user", [ideal])[0].block == ideal;
    } else if m.role != "system" && m.role != "assistant" && m.content.Arr? {
      TranslatePartsIff(m.content.items);
      TagInjective(m.role, TranslateParts(m.content.items), IdealParts(m.content.items));
    }
  }

  lemma TagInjective(role: string, a: seq<Json>, b: seq<Json>)
    ensures Tag(role, a) == Tag(role, b) <==> a == b
  {
    if Tag(role, a) == Tag(role, b) {
      assert |a| == |b|;
      forall i | 0 <= i < |a| ensures a[i] == b[i] {
        assert Tag(role, a)[i] == Tag(role, b)[i];
      }
    }
  }

  /** Request translation preserves the conversation exactly when every message is
      faithful: same blocks, same order, same speakers. It never adds an item. */
  lemma {:induction false} ConversationPreservedIff(parse: Parser, msgs: seq<Message>)
    ensures |Flatten(Messages(parse, msgs))| <= |MeaningAll(parse, msgs)|
    ensures Flatten(Messages(parse, msgs)) == MeaningAll(parse, msgs) <==> forall i :: 0 <= i < |msgs| ==> Faithful(parse, msgs[i])
  {
    hide Append; hide Added; hide Meaning; hide Faithful;
    if msgs == [] {
    } else {
      var init, m := msgs[..|msgs| - 1], msgs[|msgs| - 1];
      assert msgs == init + [m];
      ConversationPreservedIff(parse, init);
      AppendFlattens(parse, Messages(parse, init), m);
      AddedIff(parse, m);
      ConcatEqual(Flatten(Messages(parse, init)), Added(parse, m), MeaningAll(parse, init), Meaning(parse, m));
    }
  }

  /** Two concatenations whose halves are bounded pairwise agree iff the halves do. */
  lemma ConcatEqual<T>(a: seq<T>, b: seq<T>, a': seq<T>, b': seq<T>)
    requires |a| <= |a'| && |b| <= |b'|
    ensures a + b == a' + b' <==> a == a' && b == b'
  {
    if a + b == a' + b' {
      assert |a| == |a'|;
      assert a == (a + b)[..|a|] == a';
      assert b == (a + b)[|a|..] == b';
    }
  }

  // ----- runs of tool results ------------------------------------------------------------------

  ghost function Results(tools: seq<Message>): (r: seq<Json>)
    ensures |r| == |tools|
  {
    seq(|tools|, i requires 0 <= i < |tools| => ToolResultBlock(tools[i].toolCallID, Str(AsString(tools[i].content))))
  }

  /** The message holds the blocks, in order and next to one another. */
  ghost predicate Holds(m: AnthropicMessage, blocks: seq<Json>) {
    m.role == "user" && m.content.Arr? && exists k :: OccursAt(m.content.items, blocks, k)
  }

  /** Appending a message never takes blocks out of a message or moves it. */
  lemma AppendKeepsHolding(parse: Parser, acc: seq<AnthropicMessage>, m: Message, i: nat, blocks: seq<Json>)
    requires i < |acc| && Holds(acc[i], blocks)
    ensures i < |Append(parse, acc, m)| && Holds(Append(parse, acc, m)[i], blocks)
  {
    var acc' := Append(parse, acc, m);
    if acc'[i] != acc[i] {
      var items, items' := acc[i].content.items, acc'[i].content.items;
      var k :| OccursAt(items, blocks, k);
      assert items' == items + [items'[|items|]];
      OccursAtPrefix(items, [items'[|items|]], blocks, k);
    }
  }

  lemma {:induction false} MessagesKeepHolding(parse: Parser, pre: seq<Message>, post: seq<Message>, i: nat, blocks: seq<Json>)
    requires i < |Messages(parse, pre)| && Holds(Messages(parse, pre)[i], blocks)
    ensures i < |Messages(parse, pre + post)| && Holds(Messages(parse, pre + post)[i], blocks)
  {
    hide Append; hide Holds;
    if post == [] {
      assert pre + post == pre;
    } else {
      var init, m := post[..|post| - 1], post[|post| - 1];
      MessagesKeepHolding(parse, pre, init, i, blocks);
      assert pre + post == (pre + init) + [m];
      MessagesSnoc(parse, pre + init, m);
      AppendKeepsHolding(parse, Messages(parse, pre + init), m, i, blocks);
    }
  }

  /** A user message made of content blocks, ending in the given ones. */
  ghost predicate EndsIn(ms: seq<AnthropicMessage>, blocks: seq<Json>) {
    ms != []
    && var last := ms[|ms| - 1];
      last.role == "user" && last.content.Arr? && HasSuffix(last.content.items, blocks)
  }

  lemma ToolAppendEnds(parse: Parser, acc: seq<AnthropicMessage>, m: Message, blocks: seq<Json>)
    requires m.role == "tool" && (blocks == [] || EndsIn(acc, blocks))
    ensures EndsIn(Append(parse, acc, m), blocks + [ToolResultBlock(m.toolCallID, Str(AsString(m.content)))])
  {
    var block := ToolResultBlock(m.toolCallID, Str(AsString(m.content)));
    var acc' := Append(parse, acc, m);
    var items' := acc'[|acc'| - 1].content.items;
    assert items'[|items'| - 1] == block;
    if blocks == [] {
      assert items'[|items'| - 1..] == [block];
    } else {
      var items := acc[|acc| - 1].content.items;
      assert items' == items + [block];
      assert items'[|items'| - |blocks| - 1..] == items[|items| - |blocks|..] + [block];
    }
  }

  /** After a run of tool results, the last message is a user message that ends in them. */
  lemma {:induction false} ToolRunEnds(parse: Parser, pre: seq<Message>, tools: seq<Message>)
    requires tools != [] && forall i :: 0 <= i < |tools| ==> tools[i].role == "tool"
    ensures EndsIn(Messages(parse, pre + tools), Results(tools))
  {
    hide Append; hide Messages; hide EndsIn;
    var init, m := tools[..|tools| - 1], tools[|tools| - 1];
    assert pre + tools == (pre + init) + [m];
    MessagesSnoc(parse, pre + init, m);
    if init != [] { ToolRunEnds(parse, pre, init); }
    ToolAppendEnds(parse, Messages(parse, pre + init), m, Results(init));
    assert Results(tools) == Results(init) + [ToolResultBlock(m.toolCallID, Str(AsString(m.content)))];
  }

  /** Every run of consecutive tool results ends up, whole and in order, in a single
      user message, whatever comes before and after it. */
  lemma ToolRunTogether(parse: Parser, pre: seq<Message>, tools: seq<Message>, post: seq<Message>) returns (i: nat)
    requires tools != [] && forall k :: 0 <= k < |tools| ==> tools[k].role == "tool"
    ensures i < |Messages(parse, pre + tools + post)| && Holds(Messages(parse, pre + tools + post)[i], Results(tools))
  {
    hide Messages;
    ToolRunEnds(parse, pre, tools);
    var ms := Messages(parse, pre + tools);
    i := |ms| - 1;
    var items := ms[i].content.items;
    assert OccursAt(items, Results(tools), |items| - |tools|);
    MessagesKeepHolding(parse, pre + tools, post, i, Results(tools));
  }
}
