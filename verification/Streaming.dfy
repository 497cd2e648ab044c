/** Streaming translation (pkg/proxy/translate.go): Anthropic SSE data to OpenAI
    chunks, one call per piece of data, with the stream ID threaded through. */
module Streaming {
  import opened EventStream
  import opened Text
  import opened Wrappers
  import opened Json
  import opened Requests
  import opened Responses

  // ----- events --------------------------------------------------------------------------

  datatype Event =
    | MessageStart(id: string)
    | TextDelta(text: string)
    | InputDelta(json: string)
    | ToolStart(toolID: string, name: string)
    | MessageDelta(stopReason: string, usage: Json)
    | MessageStop
    | DoneMarker
    | Ignored

  /** The event a decoded payload denotes; unknown types and other values are ignored. */
  function Decode(chunk: Json): Event {
    var kind := AsString(Field(chunk, "type"));
    if kind == "message_start" then MessageStart(AsString(Field(Field(chunk, "message"), "id")))
    else if kind == "content_block_delta" then
      var delta := Field(chunk, "delta");
      var deltaType := AsString(Field(delta, "type"));
      if deltaType == "text_delta" then TextDelta(AsString(Field(delta, "text")))
      else if deltaType == "input_json_delta" then InputDelta(AsString(Field(delta, "partial_json")))
      else Ignored
    else if kind == "content_block_start" then
      var block := Field(chunk, "content_block");
      if AsString(Field(block, "type")) == "tool_use"
      then ToolStart(AsString(Field(block, "id")), AsString(Field(block, "name")))
      else Ignored
    else if kind == "message_delta" then
      MessageDelta(AsString(Field(Field(chunk, "delta"), "stop_reason")), Field(chunk, "usage"))
    else if kind == "message_stop" then MessageStop
    else Ignored
  }

  // ----- Anthropic's payloads, by field names ----------------------------------------------------

  /** The payload says the event, whatever else it says. */
  ghost predicate Says(v: Json, e: Event) {
    var kind, delta, block := Field(v, "type"), Field(v, "delta"), Field(v, "content_block");
    match e
    case MessageStart(id) => kind == Str("message_start") && Field(Field(v, "message"), "id") == Str(id)
    case TextDelta(text) => kind == Str("content_block_delta") && Field(delta, "type") == Str("text_delta") && Field(delta, "text") == Str(text)
    case InputDelta(json) =>
      kind == Str("content_block_delta") && Field(delta, "type") == Str("input_json_delta") && Field(delta, "partial_json") == Str(json)
    case ToolStart(id, name) =>
      && kind == Str("content_block_start") && Field(block, "type") == Str("tool_use")
      && Field(block, "id") == Str(id) && Field(block, "name") == Str(name)
    case MessageDelta(reason, usage) =>
      kind == Str("message_delta") && Field(delta, "stop_reason") == Str(reason) && Field(v, "usage") == usage
    case MessageStop => kind == Str("message_stop")
    case DoneMarker => false
    case Ignored =>
      || kind !in {Str("message_start"), Str("content_block_delta"), Str("content_block_start"), Str("message_delta"), Str("message_stop")}
      || (kind == Str("content_block_delta") && Field(delta, "type") !in {Str("text_delta"), Str("input_json_delta")})
      || (kind == Str("content_block_start") && Field(block, "type") != Str("tool_use"))
  }

  /** Every payload is read as what it says; pings, block stops, unknown types and the
      starts of other blocks say nothing. */
  lemma DecodeReads(v: Json, e: Event)
    requires Says(v, e)
    ensures Decode(v) == e
  {
    hide Field;
  }

  /** Anthropic's payload for an event. */
  function Payload(e: Event): Json {
    match e
    case MessageStart(id) => Obj(map["type" := Str("message_start"), "message" := Obj(map["id" := Str(id)])])
    case TextDelta(text) =>
      Obj(map["type" := Str("content_block_delta"), "delta" := Obj(map["type" := Str("text_delta"), "text" := Str(text)])])
    case InputDelta(json) =>
      Obj(map["type" := Str("content_block_delta"), "delta" := Obj(map["type" := Str("input_json_delta"), "partial_json" := Str(json)])])
    case ToolStart(id, name) =>
      Obj(map["type" := Str("content_block_start"),
              "content_block" := Obj(map["type" := Str("tool_use"), "id" := Str(id), "name" := Str(name)])])
    case MessageDelta(reason, usage) =>
      Obj(map["type" := Str("message_delta"), "delta" := Obj(map["stop_reason" := Str(reason)]), "usage" := usage])
    case MessageStop => Obj(map["type" := Str("message_stop")])
    case DoneMarker => Null
    case Ignored => Obj(map["type" := Str("ping")])
  }

  /** Encoding and decoding round trip. */
  lemma PayloadRoundTrip(e: Event)
    requires !e.DoneMarker?
    ensures Says(Payload(e), e) && Decode(Payload(e)) == e
  {
    DecodeReads(Payload(e), e);
  }

  /** What a line says: an event in a data line, or nothing in a blank line, an event
      line or a data line that says nothing. */
  ghost predicate LineSays(parse: Parser, line: string, e: Event) {
    var t := TrimSpace(line);
    || (exists v :: DataLine(parse, t, v) && Says(v, e))
    || (e == DoneMarker && t == "data: [DONE]")
    || (e == Ignored && (t == "" || "event:" <= t))
  }

  ghost predicate DataLine(parse: Parser, t: string, v: Json) {
    "data: " <= t && t[6..] != "[DONE]" && parse(t[6..]) == Some(v)
  }

  lemma LineReads(parse: Parser, line: string, e: Event)
    requires LineSays(parse, line, e)
    ensures LineEvent(parse, line) == e
  {
    hide TrimSpace; hide Decode; hide Says;
    var t := TrimSpace(line);
    if v :| DataLine(parse, t, v) && Says(v, e) {
      DecodeReads(v, e);
    } else if e == DoneMarker {
      assert t == DATA + DONE;
      assert t[|DATA|..] == DONE;
    } else {
      NotData(parse, line);
    }
  }

  /** The event on a line; everything but parseable data lines is ignored. */
  function LineEvent(parse: Parser, line: string): Event {
    var trimmed := TrimSpace(line);
    if !(DATA <= trimmed) then Ignored
    else
      var payload := trimmed[|DATA|..];
      if payload == DONE then DoneMarker
      else match parse(payload)
        case None => Ignored
        case Some(chunk) => Decode(chunk)
  }

  // ----- chunks ----------------------------------------------------------------------------

  datatype ToolDelta = ToolOpen(toolID: string, name: string) | ToolArguments(json: string)

  /** An OpenAI chunk. Tool deltas always carry index 0. */
  datatype Chunk =
    | Done
    | Delta(id: string, model: string, role: string, content: string, tool: Option<ToolDelta>,
            finish: string, usage: Option<Usage>)

  /** `toInt64`: truncated, and never negative. */
  function Tokens(v: Json): nat {
    if v.Num? && v.n > 0.0 then v.n.Floor else 0
  }

  function UsageOf(usage: Json): Option<Usage> {
    if !usage.Obj? then None
    else
      var i, o := Tokens(Field(usage, "input_tokens")), Tokens(Field(usage, "output_tokens"));
      Some(Usage(i, o, i + o))
  }

  function RoleChunk(id: string, model: string): Chunk {
    Delta(id, model, "assistant", "", None, "", None)
  }

  function TextChunk(id: string, model: string, text: string): Chunk {
    Delta(id, model, "", text, None, "", None)
  }

  function ToolChunk(id: string, model: string, tool: ToolDelta): Chunk {
    Delta(id, model, "", "", Some(tool), "", None)
  }

  function FinishChunk(id: string, model: string, reason: string, usage: Json): Chunk {
    Delta(id, model, "", "", None, MapStopReason(reason), UsageOf(usage))
  }

  /** A token count is the whole part of a positive number, and zero for anything else. */
  lemma TokensMean(v: Json)
    ensures v.Num? && v.n >= 0.0 ==> Tokens(v) as real <= v.n < Tokens(v) as real + 1.0
    ensures !(v.Num? && v.n >= 0.0) ==> Tokens(v) == 0
  {
  }

  /** Usage is reported exactly when the event has any: prompt and completion as counted,
      and their sum. */
  lemma UsageReads(usage: Json)
    ensures UsageOf(usage).Some? <==> usage.Obj?
    ensures usage.Obj? ==>
      var u := UsageOf(usage).value;
      u.prompt == Tokens(Field(usage, "input_tokens")) && u.completion == Tokens(Field(usage, "output_tokens")) && u.total == u.prompt + u.completion
  {
  }

  /** The stream ID after an event: the message's own, once it is known. */
  function NextID(e: Event, id: string): string {
    if e.MessageStart? && e.id != "" then e.id else id
  }

  /** The chunks an event causes. */
  function Emit(e: Event, id: string, model: string): seq<Chunk> {
    match e
    case MessageStart(_) => [RoleChunk(NextID(e, id), model)]
    case TextDelta(text) => if text == "" then [] else [TextChunk(id, model, text)]
    case InputDelta(json) => if json == "" then [] else [ToolChunk(id, model, ToolArguments(json))]
    case ToolStart(toolID, name) => [ToolChunk(id, model, ToolOpen(toolID, name))]
    case MessageDelta(reason, usage) => [FinishChunk(id, model, reason, usage)]
    case MessageStop => [Done]
    case DoneMarker => [Done]
    case Ignored => []
  }

  /** A chunk of the stream `id` and the model that carries nothing but what is named. */
  ghost predicate Carrying(c: Chunk, id: string, model: string, role: string, content: string, tool: Option<ToolDelta>, finish: string) {
    c.Delta? && c.id == id && c.model == model && c.role == role && c.content == content && c.tool == tool && c.finish == finish
  }

  /** What is written for an event: one chunk that carries what the event says and
      nothing else, the end marker, or nothing. */
  lemma EmitSays(e: Event, id: string, model: string)
    ensures var out := Emit(e, id, model);
      match e
      case MessageStart(msg) => |out| == 1 && Carrying(out[0], if msg != "" then msg else id, model, "assistant", "", None, "") && out[0].usage == None
      case TextDelta(text) => if text == "" then out == [] else |out| == 1 && Carrying(out[0], id, model, "", text, None, "") && out[0].usage == None
      case InputDelta(json) =>
        if json == "" then out == [] else |out| == 1 && Carrying(out[0], id, model, "", "", Some(ToolArguments(json)), "") && out[0].usage == None
      case ToolStart(tool, name) => |out| == 1 && Carrying(out[0], id, model, "", "", Some(ToolOpen(tool, name)), "") && out[0].usage == None
      case MessageDelta(reason, usage) =>
        |out| == 1 && Carrying(out[0], id, model, "", "", None, MapStopReason(reason)) && out[0].usage == UsageOf(usage)
      case MessageStop => out == [Done]
      case DoneMarker => out == [Done]
      case Ignored => out == []
  {
    hide UsageOf; hide MapStopReason;
  }

  datatype Result = Result(id: string, out: seq<Chunk>)

  ghost function Run(es: seq<Event>, id: string, model: string): Result {
    if es == [] then Result(id, [])
    else
      var r, e := Run(es[..|es| - 1], id, model), es[|es| - 1];
      Result(NextID(e, r.id), r.out + Emit(e, r.id, model))
  }

  ghost function Events(parse: Parser, lines: seq<string>): (es: seq<Event>)
    ensures |es| == |lines|
  {
    if lines == [] then [] else Events(parse, lines[..|lines| - 1]) + [LineEvent(parse, lines[|lines| - 1])]
  }

  function StartID(streamID: string, spanID: string): string {
    if streamID == "" then "chatcmpl-" + spanID else streamID
  }

  /** One call: the ID the caller keeps, and the chunks written. `spanID` is the
      random ID used when the caller has none yet. */
  ghost function Call(parse: Parser, data: string, model: string, streamID: string, spanID: string): Result {
    Run(Events(parse, Split(data, LF)), StartID(streamID, spanID), ParseModelName(model).display)
  }

  /** `TranslateStreamChunk`, timestamps and chunk encoding aside. */
  method TranslateStreamChunk(parse: Parser, data: string, model: string, streamID: string, spanID: string)
    returns (id: string, out: seq<Chunk>)
    ensures Result(id, out) == Call(parse, data, model, streamID, spanID)
  {
    var display := ParseModelName(model).display;
    id := streamID;
    if id == "" {
      id := "chatcmpl-" + spanID;
    }
    id, out := TranslateLines(parse, Split(data, LF), id, display);
  }

  /** The loop over the lines. */
  method TranslateLines(parse: Parser, lines: seq<string>, streamID: string, model: string)
    returns (id: string, out: seq<Chunk>)
    ensures Result(id, out) == Run(Events(parse, lines), streamID, model)
  {
    hide Run; hide Events; hide LineEvent; hide Emit; hide NextID;
    NoLinesNoEvents(parse);
    RunNoEvents(streamID, model);
    id, out := streamID, [];
    for i := 0 to |lines|
      invariant Result(id, out) == Run(Events(parse, lines[..i]), streamID, model)
    {
      assert lines[..i + 1] == lines[..i] + [lines[i]];
      EventsSnoc(parse, lines[..i], lines[i]);
      RunSnoc(Events(parse, lines[..i]), LineEvent(parse, lines[i]), streamID, model);
      id, out := TranslateLine(parse, lines[i], id, model, out);
    }
    assert lines[..|lines|] == lines;
  }

  /** One line of the streaming loop. */
  method TranslateLine(parse: Parser, line: string, streamID: string, model: string, written: seq<Chunk>)
    returns (id: string, out: seq<Chunk>)
    ensures var e := LineEvent(parse, line);
      id == NextID(e, streamID) && out == written + Emit(e, streamID, model)
  {
    hide TrimSpace; hide Decode;
    id, out := streamID, written;
    var trimmed := TrimSpace(line);
    if "event:" <= trimmed || trimmed == "" {
      NotData(parse, line);
      return;
    }
    if !(DATA <= trimmed) {
      return;
    }
    var payload := trimmed[|DATA|..];
    if payload == DONE {
      out := out + [Done];
      return;
    }
    var chunk := parse(payload);
    if chunk.None? {
      return;   // unparseable
    }
    id, out := TranslateEvent(Decode(chunk.value), id, model, out);
  }

  /** The event switch of the streaming loop. */
  method TranslateEvent(e: Event, streamID: string, model: string, written: seq<Chunk>)
    returns (id: string, out: seq<Chunk>)
    ensures id == NextID(e, streamID) && out == written + Emit(e, streamID, model)
  {
    id, out := streamID, written;
    match e {
      case MessageStart(msgID) =>
        if msgID != "" {
          id := msgID;
        }
        out := out + [RoleChunk(id, model)];
      case TextDelta(text) =>
        if text != "" {
          out := out + [TextChunk(id, model, text)];
        }
      case InputDelta(json) =>
        if json != "" {
          out := out + [ToolChunk(id, model, ToolArguments(json))];
        }
      case ToolStart(toolID, name) => out := out + [ToolChunk(id, model, ToolOpen(toolID, name))];
      case MessageDelta(reason, usage) =>
        out := out + [FinishChunk(id, model, reason, usage)];
      case MessageStop => out := out + [Done];
      case DoneMarker => out := out + [Done];
      case Ignored =>
    }
  }

  lemma NotData(parse: Parser, line: string)
    requires "event:" <= TrimSpace(line) || TrimSpace(line) == ""
    ensures LineEvent(parse, line) == Ignored
  {
    var t := TrimSpace(line);
    assert "event:"[0] != DATA[0];
  }

  lemma EventsSnoc(parse: Parser, lines: seq<string>, line: string)
    ensures Events(parse, lines + [line]) == Events(parse, lines) + [LineEvent(parse, line)]
  {
    assert (lines + [line])[..|lines|] == lines;
  }

  lemma NoLinesNoEvents(parse: Parser)
    ensures Events(parse, []) == []
  {
  }

  lemma RunNoEvents(id: string, model: string)
    ensures Run([], id, model) == Result(id, [])
  {
  }

  lemma RunSnoc(es: seq<Event>, e: Event, id: string, model: string)
    ensures var r := Run(es, id, model);
      Run(es + [e], id, model) == Result(NextID(e, r.id), r.out + Emit(e, r.id, model))
  {
    assert (es + [e])[..|es|] == es;
  }

  // ----- cutting the stream -------------------------------------------------------------------

  lemma {:induction false} EventsAppend(parse: Parser, a: seq<string>, b: seq<string>)
    ensures Events(parse, a + b) == Events(parse, a) + Events(parse, b)
  {
    hide LineEvent;
    if b == [] {
      assert a + b == a;
    } else {
      var init, last := b[..|b| - 1], b[|b| - 1];
      EventsAppend(parse, a, init);
      assert a + b == (a + init) + [last];
      EventsSnoc(parse, a + init, last);
    }
  }

  lemma {:induction false} RunAppend(a: seq<Event>, b: seq<Event>, id: string, model: string)
    ensures var r := Run(a, id, model);
      var s := Run(b, r.id, model);
      Run(a + b, id, model) == Result(s.id, r.out + s.out)
  {
    hide Run; hide Emit; hide NextID;
    var r := Run(a, id, model);
    if b == [] {
      RunNoEvents(r.id, model);
      assert a + b == a;
    } else {
      var init, last := b[..|b| - 1], b[|b| - 1];
      RunAppend(a, init, id, model);
      assert a + b == (a + init) + [last] && b == init + [last];
      RunSnoc(a + init, last, id, model);
      RunSnoc(init, last, r.id, model);
      var s := Run(init, r.id, model);
      assert r.out + (s.out + Emit(last, s.id, model)) == (r.out + s.out) + Emit(last, s.id, model);
    }
  }

  lemma {:induction false} IDStaysSet(es: seq<Event>, id: string, model: string)
    requires id != ""
    ensures Run(es, id, model).id != ""
  {
    hide Emit;
    if es != [] { IDStaysSet(es[..|es| - 1], id, model); }
  }

  /** The unfinished last line of a piece of data. */
  function LastLine(data: string): string {
    var lines := Split(data, LF);
    lines[|lines| - 1]
  }

  /** Nothing but white space since the last newline. */
  predicate SafeCut(data: string) {
    TrimSpace(LastLine(data)) == ""
  }

  /** The pieces are translated separately as the whole would be. */
  ghost predicate SameAsWhole(parse: Parser, a: string, b: string, model: string, streamID: string, span1: string, span2: string) {
    var first := Call(parse, a, model, streamID, span1);
    var second := Call(parse, b, model, first.id, span2);
    Call(parse, a + b, model, streamID, span1) == Result(second.id, first.out + second.out)
  }

  /** The events of a safely cut piece end in an ignored one, which the whole lacks. */
  lemma SafeCutEvents(parse: Parser, a: string, b: string) returns (es: seq<Event>)
    requires SafeCut(a)
    ensures Events(parse, Split(a, LF)) == es + [Ignored]
    ensures Events(parse, Split(a + b, LF)) == es + Events(parse, Split(b, LF))
  {
    hide Events; hide LineEvent; hide Split; hide TrimSpace;
    var x, y := Split(a, LF), Split(b, LF);
    SplitConcat(a, b, LF);
    var heads, tail := x[..|x| - 1], x[|x| - 1];
    es := Events(parse, heads);
    BlankTail(parse, tail, y[0]);
    EventsAppend(parse, heads, [tail]);
    OneEvent(parse, tail);
    assert x == heads + [tail];
    EventsAppend(parse, heads, [tail + y[0]] + y[1..]);
    EventsAppend(parse, [tail + y[0]], y[1..]);
    OneEvent(parse, tail + y[0]);
    EventsAppend(parse, [y[0]], y[1..]);
    OneEvent(parse, y[0]);
    assert y == [y[0]] + y[1..];
  }

  /** Cutting after nothing but white space since a newline loses nothing. */
  lemma SafeCutIsHomomorphic(parse: Parser, a: string, b: string, model: string, streamID: string, span1: string, span2: string)
    requires SafeCut(a)
    ensures SameAsWhole(parse, a, b, model, streamID, span1, span2)
  {
    var display, id := ParseModelName(model).display, StartID(streamID, span1);
    StartNonempty(streamID, span1);
    hide Run; hide Events; hide Split; hide ParseModelName; hide StartID; hide SafeCut;
    var es := SafeCutEvents(parse, a, b);
    RunIgnored(es, id, display);
    RunAppend(es, Events(parse, Split(b, LF)), id, display);
    IDStaysSet(es, id, display);
    StartSet(Run(es, id, display).id, span2);
  }

  lemma StartNonempty(streamID: string, spanID: string)
    ensures StartID(streamID, spanID) != ""
  {
  }

  lemma OneEvent(parse: Parser, line: string)
    ensures Events(parse, [line]) == [LineEvent(parse, line)]
  {
    EventsSnoc(parse, [], line);
    assert [] + [line] == [line];
  }

  lemma BlankTail(parse: Parser, tail: string, head: string)
    requires TrimSpace(tail) == ""
    ensures LineEvent(parse, tail) == Ignored && LineEvent(parse, tail + head) == LineEvent(parse, head)
  {
    hide Decode; hide IsSpace; hide TrimLeft; hide TrimRight;
    BlankPrefix(tail, head);
  }

  lemma RunIgnored(es: seq<Event>, id: string, model: string)
    ensures Run(es + [Ignored], id, model) == Run(es, id, model)
  {
    RunSnoc(es, Ignored, id, model);
  }

  lemma StartSet(streamID: string, spanID: string)
    requires streamID != ""
    ensures StartID(streamID, spanID) == streamID
  {
  }

  // ----- unsafe cuts ------------------------------------------------------------------------------

  const DONE_LINE: string := DATA + DONE

  /** True of JSON: no text that ends in "data: [DONE]" is a JSON value. */
  ghost predicate RejectsMarker(parse: Parser) {
    forall s :: parse(s + DONE_LINE) == None
  }

  lemma MarkerIsMarker(parse: Parser)
    ensures LineEvent(parse, DONE_LINE) == DoneMarker
  {
    assert !IsSpace(DONE_LINE[0]) && !IsSpace(DONE_LINE[|DONE_LINE| - 1]);
    assert TrimSpace(DONE_LINE) == DONE_LINE;
    assert DONE_LINE[|DATA|..] == DONE;
  }

  /** A data line cannot begin inside the marker glued to it. */
  lemma GluedPrefix(ink: string)
    requires ink != ""
    ensures DATA <= ink + DONE_LINE ==> |ink| >= |DATA|
  {
    if |ink| < |DATA| {
      assert (ink + DONE_LINE)[|ink|] == 'd' && DATA[|ink|] != 'd';
    }
  }

  lemma NoEffect(parse: Parser, line: string)
    requires DATA <= TrimSpace(line) ==>
      TrimSpace(line)[|DATA|..] != DONE && parse(TrimSpace(line)[|DATA|..]) == None
    ensures LineEvent(parse, line) == Ignored
  {
    hide TrimSpace; hide Decode;
  }

  lemma MarkerSolid()
    ensures DONE_LINE != "" && !IsSpace(DONE_LINE[|DONE_LINE| - 1])
  {
    assert DONE_LINE[|DONE_LINE| - 1] == ']';
  }

  lemma GluedPayload(parse: Parser, lead: string)
    requires RejectsMarker(parse) && lead != "" && DATA <= lead + DONE_LINE
    ensures var payload := (lead + DONE_LINE)[|DATA|..]; payload != DONE && parse(payload) == None
  {
    GluedPrefix(lead);
    assert (lead + DONE_LINE)[|DATA|..] == lead[|DATA|..] + DONE_LINE;
  }

  /** Ink in front of a marker hides it: the glued line has no effect. */
  lemma GluedIgnored(parse: Parser, ink: string)
    requires RejectsMarker(parse) && TrimSpace(ink) != ""
    ensures LineEvent(parse, ink + DONE_LINE) == Ignored
  {
    hide TrimSpace; hide TrimLeft; hide IsSpace; hide LineEvent; hide RejectsMarker;
    MarkerSolid();
    TrimOfInk(ink, DONE_LINE);
    if DATA <= TrimLeft(ink) + DONE_LINE { GluedPayload(parse, TrimLeft(ink)); }
    NoEffect(parse, ink + DONE_LINE);
  }

  /** A marker following an unfinished line is lost from the whole but seen by the
      pieces, which therefore write more. */
  lemma UnsafeCutLoses(parse: Parser, a: string, model: string, streamID: string, span1: string, span2: string)
    requires RejectsMarker(parse) && !SafeCut(a)
    ensures !SameAsWhole(parse, a, DONE_LINE, model, streamID, span1, span2)
  {
    hide Run; hide Events; hide LineEvent; hide Split; hide TrimSpace; hide ParseModelName; hide StartID; hide RejectsMarker; hide Emit;
    var display, id := ParseModelName(model).display, StartID(streamID, span1);
    var x := Split(a, LF);
    var heads, tail := x[..|x| - 1], x[|x| - 1];
    assert Split(DONE_LINE, LF) == [DONE_LINE] by { assert forall i :: 0 <= i < |DONE_LINE| ==> DONE_LINE[i] != LF; }
    SplitConcat(a, DONE_LINE, LF);
    assert x == heads + [tail] && Split(a + DONE_LINE, LF) == heads + [tail + DONE_LINE];
    var es := Events(parse, heads);
    EventsSnoc(parse, heads, tail);
    EventsSnoc(parse, heads, tail + DONE_LINE);
    GluedIgnored(parse, tail);
    RunIgnored(es, id, display);
    RunSnoc(es, LineEvent(parse, tail), id, display);
    var first := Run(Events(parse, x), id, display);
    MarkerWrites(parse, StartID(first.id, span2), display);
    assert |first.out| >= |Run(es, id, display).out|;
    assert Call(parse, a, model, streamID, span1) == first;
    assert Call(parse, DONE_LINE, model, first.id, span2).out == [Done];
    assert Call(parse, a + DONE_LINE, model, streamID, span1).out == Run(es, id, display).out;
  }

  lemma MarkerWrites(parse: Parser, id: string, model: string)
    ensures Run(Events(parse, [DONE_LINE]), id, model).out == [Done]
  {
    hide LineEvent; hide Run; hide Events;
    OneEvent(parse, DONE_LINE);
    MarkerIsMarker(parse);
    RunNoEvents(id, model);
    RunSnoc([], DoneMarker, id, model);
    assert [] + [DoneMarker] == [DoneMarker];
  }

  /** The exact condition: data may be cut after `a`, whatever follows, iff there is
      nothing but white space since the last newline. */
  lemma CutIff(parse: Parser, a: string)
    requires RejectsMarker(parse)
    ensures SafeCut(a) <==>
      forall b, model, streamID, span1, span2 :: SameAsWhole(parse, a, b, model, streamID, span1, span2)
  {
    hide SafeCut; hide SameAsWhole; hide RejectsMarker;
    if SafeCut(a) {
      forall b, model, streamID, span1, span2
        ensures SameAsWhole(parse, a, b, model, streamID, span1, span2)
      {
        SafeCutIsHomomorphic(parse, a, b, model, streamID, span1, span2);
      }
    } else {
      UnsafeCutLoses(parse, a, "", "", "", "");
    }
  }

  // ----- a line cut in two ---------------------------------------------------------------------------------

  /** Events that write nothing. */
  ghost predicate Silent(e: Event) {
    e == Ignored || e == TextDelta("") || e == InputDelta("")
  }

  lemma SilentIff(e: Event, id: string, model: string)
    ensures Emit(e, id, model) == [] <==> Silent(e)
    ensures Silent(e) ==> NextID(e, id) == id
    ensures |Emit(e, id, model)| <= 1
  {
    hide UsageOf; hide MapStopReason;
  }

  lemma SameLength(e: Event, id: string, id': string, model: string)
    ensures |Emit(e, id, model)| == |Emit(e, id', model)|
  {
    hide UsageOf; hide MapStopReason;
  }

  /** How much is written does not depend on the stream ID. */
  lemma {:induction false} RunLength(es: seq<Event>, id: string, id': string, model: string)
    ensures |Run(es, id, model).out| == |Run(es, id', model).out|
  {
    hide Run; hide Emit; hide NextID;
    if es == [] {
      RunNoEvents(id, model);
      RunNoEvents(id', model);
    } else {
      var init, e := es[..|es| - 1], es[|es| - 1];
      assert es == init + [e];
      RunLength(init, id, id', model);
      RunSnoc(init, e, id, model);
      RunSnoc(init, e, id', model);
      SameLength(e, Run(init, id, model).id, Run(init, id', model).id, model);
    }
  }

  /** The events of two pieces and of the whole differ where the pieces touch. */
  lemma TouchingEvents(parse: Parser, a: string, b: string) returns (es: seq<Event>, rest: seq<Event>)
    ensures var x, y := Split(a, LF), Split(b, LF);
      var tail, head := x[|x| - 1], y[0];
      && Events(parse, x) == es + [LineEvent(parse, tail)]
      && Events(parse, y) == [LineEvent(parse, head)] + rest
      && Events(parse, Split(a + b, LF)) == es + ([LineEvent(parse, tail + head)] + rest)
  {
    hide Events; hide LineEvent; hide Split;
    var x, y := Split(a, LF), Split(b, LF);
    var heads, tail, head := x[..|x| - 1], x[|x| - 1], y[0];
    es, rest := Events(parse, heads), Events(parse, y[1..]);
    SplitConcat(a, b, LF);
    assert x == heads + [tail] && y == [head] + y[1..];
    EventsSnoc(parse, heads, tail);
    EventsAppend(parse, [head], y[1..]);
    OneEvent(parse, head);
    EventsAppend(parse, heads, [tail + head] + y[1..]);
    EventsAppend(parse, [tail + head], y[1..]);
    OneEvent(parse, tail + head);
  }

  lemma RunFirst(e: Event, rest: seq<Event>, id: string, model: string)
    ensures var s := Run(rest, NextID(e, id), model);
      Run([e] + rest, id, model) == Result(s.id, Emit(e, id, model) + s.out)
  {
    hide Run; hide Emit; hide NextID;
    RunNoEvents(id, model);
    RunSnoc([], e, id, model);
    assert [] + [e] == [e];
    RunAppend([e], rest, id, model);
    assert [] + Emit(e, id, model) == Emit(e, id, model);
  }

  /** One event in the middle can be left out exactly when it is silent. */
  lemma OmittedIff(es: seq<Event>, e: Event, rest: seq<Event>, id: string, model: string)
    ensures Run(es + ([e] + rest), id, model) == Run(es + rest, id, model) <==> Silent(e)
  {
    hide Run; hide Emit; hide NextID; hide Silent;
    var r := Run(es, id, model);
    RunAppend(es, [e] + rest, id, model);
    RunAppend(es, rest, id, model);
    RunFirst(e, rest, r.id, model);
    SilentIff(e, r.id, model);
    RunLength(rest, r.id, NextID(e, r.id), model);
    if Silent(e) {
      var s := Run(rest, r.id, model);
      assert [] + s.out == s.out;
    }
  }

  /** The exact condition for one cut: where neither half of the line it falls into has
      an event of its own, the pieces are translated as the whole iff the line writes
      nothing. A data line cut in two is lost. */
  lemma SplitLineIff(parse: Parser, a: string, b: string, model: string, streamID: string, span1: string, span2: string)
    requires LineEvent(parse, LastLine(a)) == Ignored && LineEvent(parse, Split(b, LF)[0]) == Ignored
    ensures SameAsWhole(parse, a, b, model, streamID, span1, span2)
            <==> Silent(LineEvent(parse, LastLine(a) + Split(b, LF)[0]))
  {
    var display, id := ParseModelName(model).display, StartID(streamID, span1);
    StartNonempty(streamID, span1);
    hide Run; hide Events; hide Split; hide ParseModelName; hide StartID; hide LineEvent; hide Silent;
    var es, rest := TouchingEvents(parse, a, b);
    var e := LineEvent(parse, LastLine(a) + Split(b, LF)[0]);
    var r := Run(es, id, display);
    RunIgnored(es, id, display);
    IDStaysSet(es, id, display);
    StartSet(r.id, span2);
    RunFirst(Ignored, rest, r.id, display);
    assert [] + Run(rest, r.id, display).out == Run(rest, r.id, display).out;
    RunAppend(es, rest, id, display);
    OmittedIff(es, e, rest, id, display);
  }

  // ----- any number of pieces ---------------------------------------------------------------------------

  ghost function AllCalls(parse: Parser, pieces: seq<string>, model: string, streamID: string, spans: seq<string>): Result
    requires |spans| == |pieces|
  {
    if pieces == [] then Result(streamID, [])
    else
      var n := |pieces| - 1;
      var r := AllCalls(parse, pieces[..n], model, streamID, spans[..n]);
      var c := Call(parse, pieces[n], model, r.id, spans[n]);
      Result(c.id, r.out + c.out)
  }

  lemma SafeCutsCompose(a: string, b: string)
    requires SafeCut(a) && SafeCut(b)
    ensures SafeCut(a + b)
  {
    hide Split; hide TrimSpace;
    SplitConcat(a, b, LF);
    var x, y := Split(a, LF), Split(b, LF);
    if |y| == 1 { BlankLines(x[|x| - 1], y[0]); }
  }

  lemma BlankLines(s: string, t: string)
    requires TrimSpace(s) == "" && TrimSpace(t) == ""
    ensures TrimSpace(s + t) == ""
  {
    hide TrimSpace; hide IsSpace;
    assert forall i :: 0 <= i < |s + t| ==> (s + t)[i] == if i < |s| then s[i] else t[i - |s|];
  }

  lemma NothingIsSafe()
    ensures SafeCut("")
  {
    assert Split("", LF) == [""];
  }

  lemma {:induction false} SafePiecesJoin(pieces: seq<string>)
    requires forall i :: 0 <= i < |pieces| ==> SafeCut(pieces[i])
    ensures SafeCut(Concat(pieces))
  {
    hide SafeCut;
    if pieces == [] {
      NothingIsSafe();
    } else {
      var n := |pieces| - 1;
      SafePiecesJoin(pieces[..n]);
      assert pieces == pieces[..n] + [pieces[n]];
      ConcatSnoc(pieces[..n], pieces[n]);
      SafeCutsCompose(Concat(pieces[..n]), pieces[n]);
    }
  }

  /** Streaming translation is a homomorphism: any number of safely cut pieces, the
      stream ID threaded through, give the output of the whole. */
  lemma {:induction false} PiecesTranslateAsWhole(parse: Parser, pieces: seq<string>, model: string, streamID: string, spans: seq<string>)
    requires pieces != [] && |spans| == |pieces|
    requires forall i :: 0 <= i < |pieces| - 1 ==> SafeCut(pieces[i])
    ensures AllCalls(parse, pieces, model, streamID, spans) == Call(parse, Concat(pieces), model, streamID, spans[0])
  {
    hide Call; hide SafeCut;
    var n := |pieces| - 1;
    var init := pieces[..n];
    assert pieces == init + [pieces[n]];
    ConcatSnoc(init, pieces[n]);
    if n == 0 {
      assert Concat(init) + pieces[0] == pieces[0];
      OneCall(parse, pieces, model, streamID, spans);
    } else {
      PiecesTranslateAsWhole(parse, init, model, streamID, spans[..n]);
      SafePiecesJoin(init);
      SafeCutIsHomomorphic(parse, Concat(init), pieces[n], model, streamID, spans[0], spans[n]);
    }
  }

  lemma OneCall(parse: Parser, pieces: seq<string>, model: string, streamID: string, spans: seq<string>)
    requires |pieces| == |spans| == 1
    ensures AllCalls(parse, pieces, model, streamID, spans) == Call(parse, pieces[0], model, streamID, spans[0])
  {
    hide Call;
    assert pieces[..0] == [] && spans[..0] == [];
    assert AllCalls(parse, pieces[..0], model, streamID, spans[..0]) == Result(streamID, []);
    var c := Call(parse, pieces[0], model, streamID, spans[0]);
    assert [] + c.out == c.out;
  }
}
