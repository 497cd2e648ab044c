/** Streamed and unstreamed translation compared (pkg/proxy/translate.go): what an
    OpenAI client puts together from the chunks of a stream, against the response
    the same Anthropic message translates to when it arrives in one piece. */
module Agreement {
  import opened EventStream
  import opened Text
  import opened Wrappers
  import opened Json
  import opened Requests
  import opened Responses
  import opened Streaming

  // ----- the client --------------------------------------------------------------------------

  /** What a client has put together: text, tool calls by index, finish reason. */
  datatype Client = Client(text: string, calls: seq<ToolCall>, finish: string)

  const NOTHING: Client := Client("", [], "")

  /** What a client does when an index that is in use is opened again. */
  type Reopen = (ToolCall, string, string) -> ToolCall

  function Open(reopen: Reopen, calls: seq<ToolCall>, id: string, name: string): seq<ToolCall> {
    if calls == [] then [ToolCall(id, name, "")] else [reopen(calls[0], id, name)] + calls[1..]
  }

  function Extend(calls: seq<ToolCall>, json: string): seq<ToolCall> {
    if calls == [] then [ToolCall("", "", json)]
    else [ToolCall(calls[0].id, calls[0].name, calls[0].arguments + json)] + calls[1..]
  }

  /** Every tool delta carries index 0, so only the first call is ever touched. */
  function Receive(reopen: Reopen, c: Client, chunk: Chunk): Client {
    if chunk.Done? then c
    else Client(
      c.text + chunk.content,
      match chunk.tool
      case None => c.calls
      case Some(ToolOpen(id, name)) => Open(reopen, c.calls, id, name)
      case Some(ToolArguments(json)) => Extend(c.calls, json),
      if chunk.finish == "" then c.finish else chunk.finish)
  }

  ghost function Assemble(reopen: Reopen, chunks: seq<Chunk>): Client {
    if chunks == [] then NOTHING
    else Receive(reopen, Assemble(reopen, chunks[..|chunks| - 1]), chunks[|chunks| - 1])
  }

  /** The same, read off the events. */
  function Hear(reopen: Reopen, c: Client, e: Event): Client {
    match e
    case TextDelta(text) => c.(text := c.text + text)
    case InputDelta(json) => if json == "" then c else c.(calls := Extend(c.calls, json))
    case ToolStart(id, name) => c.(calls := Open(reopen, c.calls, id, name))
    case MessageDelta(reason, _) => c.(finish := MapStopReason(reason))
    case _ => c
  }

  ghost function Heard(reopen: Reopen, c: Client, es: seq<Event>): Client {
    if es == [] then c
    else Hear(reopen, Heard(reopen, c, es[..|es| - 1]), es[|es| - 1])
  }

  lemma HeardNothing(reopen: Reopen, c: Client)
    ensures Heard(reopen, c, []) == c
  {
  }

  lemma HeardSnoc(reopen: Reopen, c: Client, es: seq<Event>, e: Event)
    ensures Heard(reopen, c, es + [e]) == Hear(reopen, Heard(reopen, c, es), e)
  {
    assert (es + [e])[..|es|] == es;
  }

  lemma HeardOne(reopen: Reopen, c: Client, e: Event)
    ensures Heard(reopen, c, [e]) == Hear(reopen, c, e)
  {
    HeardNothing(reopen, c);
    HeardSnoc(reopen, c, [], e);
    assert [] + [e] == [e];
  }

  lemma {:induction false} HeardAppend(reopen: Reopen, c: Client, a: seq<Event>, b: seq<Event>)
    ensures Heard(reopen, c, a + b) == Heard(reopen, Heard(reopen, c, a), b)
  {
    hide Heard; hide Hear;
    if b == [] {
      assert a + b == a;
      HeardNothing(reopen, Heard(reopen, c, a));
    } else {
      var init, last := b[..|b| - 1], b[|b| - 1];
      HeardAppend(reopen, c, a, init);
      assert a + b == (a + init) + [last] && b == init + [last];
      HeardSnoc(reopen, c, a + init, last);
      HeardSnoc(reopen, Heard(reopen, c, a), init, last);
    }
  }

  lemma AssembleSnoc(reopen: Reopen, chunks: seq<Chunk>, chunk: Chunk)
    ensures Assemble(reopen, chunks + [chunk]) == Receive(reopen, Assemble(reopen, chunks), chunk)
  {
    assert (chunks + [chunk])[..|chunks|] == chunks;
  }

  /** One event's chunks, received, are the event heard. */
  lemma EmitHeard(reopen: Reopen, chunks: seq<Chunk>, e: Event, id: string, model: string)
    ensures Assemble(reopen, chunks + Emit(e, id, model)) == Hear(reopen, Assemble(reopen, chunks), e)
  {
    hide Assemble; hide Open; hide Extend; hide UsageOf;
    var out := Emit(e, id, model);
    var c := Assemble(reopen, chunks);
    assert forall t: string :: t + "" == t;
    if out == [] {
      assert chunks + out == chunks;
    } else {
      assert out == [out[0]];
      AssembleSnoc(reopen, chunks, out[0]);
    }
  }

  /** What the client assembles does not depend on IDs or the model. */
  lemma {:induction false} AssembledIsHeard(reopen: Reopen, es: seq<Event>, id: string, model: string)
    ensures Assemble(reopen, Run(es, id, model).out) == Heard(reopen, NOTHING, es)
  {
    hide Run; hide Emit; hide Hear; hide Assemble; hide Heard; hide NextID;
    if es == [] {
      RunNoEvents(id, model);
      HeardNothing(reopen, NOTHING);
      AssembleNothing(reopen);
    } else {
      var init, e := es[..|es| - 1], es[|es| - 1];
      AssembledIsHeard(reopen, init, id, model);
      assert es == init + [e];
      RunSnoc(init, e, id, model);
      HeardSnoc(reopen, NOTHING, init, e);
      EmitHeard(reopen, Run(init, id, model).out, e, Run(init, id, model).id, model);
    }
  }

  lemma AssembleNothing(reopen: Reopen)
    ensures Assemble(reopen, []) == NOTHING
  {
  }

  // ----- the message -----------------------------------------------------------------------------

  /** A content block as it is streamed: the pieces of its text or tool input. */
  datatype StreamedBlock = TextPieces(pieces: seq<string>) | ToolPieces(id: string, name: string, pieces: seq<string>)

  datatype Streamed = Streamed(id: string, blocks: seq<StreamedBlock>, stopReason: string, usage: Json)

  /** The block that arrives when the message is not streamed. */
  function Finished(b: StreamedBlock): Block {
    match b
    case TextPieces(pieces) => Block("text", Concat(pieces), "", "", "")
    case ToolPieces(id, name, pieces) => Block("tool_use", "", id, name, Concat(pieces))
  }

  ghost function Content(blocks: seq<StreamedBlock>): seq<Block> {
    if blocks == [] then [] else Content(blocks[..|blocks| - 1]) + [Finished(blocks[|blocks| - 1])]
  }

  ghost function TextDeltas(pieces: seq<string>): seq<Event> {
    if pieces == [] then [] else TextDeltas(pieces[..|pieces| - 1]) + [TextDelta(pieces[|pieces| - 1])]
  }

  ghost function InputDeltas(pieces: seq<string>): seq<Event> {
    if pieces == [] then [] else InputDeltas(pieces[..|pieces| - 1]) + [InputDelta(pieces[|pieces| - 1])]
  }

  ghost function BlockEvents(b: StreamedBlock): seq<Event> {
    match b
    case TextPieces(pieces) => TextDeltas(pieces)
    case ToolPieces(id, name, pieces) => [ToolStart(id, name)] + InputDeltas(pieces)
  }

  ghost function AllBlockEvents(blocks: seq<StreamedBlock>): seq<Event> {
    if blocks == [] then [] else AllBlockEvents(blocks[..|blocks| - 1]) + BlockEvents(blocks[|blocks| - 1])
  }

  /** The events that carry a message, in order. */
  ghost function Script(m: Streamed): seq<Event> {
    [MessageStart(m.id)] + AllBlockEvents(m.blocks) + [MessageDelta(m.stopReason, m.usage)] + [MessageStop]
  }

  /** Without pings, block stops and the other lines that have no effect. */
  ghost function Relevant(es: seq<Event>): seq<Event> {
    if es == [] then []
    else if es[|es| - 1] == Ignored then Relevant(es[..|es| - 1])
    else Relevant(es[..|es| - 1]) + [es[|es| - 1]]
  }

  lemma {:induction false} HeardRelevant(reopen: Reopen, c: Client, es: seq<Event>)
    ensures Heard(reopen, c, es) == Heard(reopen, c, Relevant(es))
  {
    hide Heard;
    if es != [] {
      var init, e := es[..|es| - 1], es[|es| - 1];
      HeardRelevant(reopen, c, init);
      assert es == init + [e];
      HeardSnoc(reopen, c, init, e);
      HeardSnoc(reopen, c, Relevant(init), e);
    }
  }

  // ----- what is heard of a message -------------------------------------------------------------------

  lemma {:induction false} HeardText(reopen: Reopen, c: Client, pieces: seq<string>)
    ensures Heard(reopen, c, TextDeltas(pieces)) == c.(text := c.text + Concat(pieces))
  {
    hide Heard;
    if pieces == [] {
      HeardNothing(reopen, c);
      assert c.text + Concat(pieces) == c.text;
    } else {
      var init, p := pieces[..|pieces| - 1], pieces[|pieces| - 1];
      HeardText(reopen, c, init);
      HeardSnoc(reopen, c, TextDeltas(init), TextDelta(p));
      assert pieces == init + [p];
      ConcatSnoc(init, p);
      assert c.text + (Concat(init) + p) == (c.text + Concat(init)) + p;
    }
  }

  lemma {:induction false} HeardInput(reopen: Reopen, c: Client, pieces: seq<string>)
    requires c.calls != []
    ensures var call := c.calls[0];
      Heard(reopen, c, InputDeltas(pieces))
      == c.(calls := [ToolCall(call.id, call.name, call.arguments + Concat(pieces))] + c.calls[1..])
  {
    hide Heard;
    var call, rest := c.calls[0], c.calls[1..];
    if pieces == [] {
      HeardNothing(reopen, c);
      assert call.arguments + Concat(pieces) == call.arguments;
      assert c.calls == [call] + rest;
    } else {
      var init, p := pieces[..|pieces| - 1], pieces[|pieces| - 1];
      HeardInput(reopen, c, init);
      HeardSnoc(reopen, c, InputDeltas(init), InputDelta(p));
      assert pieces == init + [p];
      ConcatSnoc(init, p);
      var soFar := ToolCall(call.id, call.name, call.arguments + Concat(init));
      assert ([soFar] + rest)[1..] == rest;
      assert call.arguments + (Concat(init) + p) == soFar.arguments + p;
      if p == "" { assert soFar.arguments + p == soFar.arguments; }
    }
  }

  /** The calls a client should end up with, arguments as streamed. */
  ghost function Streamable(blocks: seq<StreamedBlock>): seq<ToolCall> {
    if blocks == [] then []
    else
      var rest, b := Streamable(blocks[..|blocks| - 1]), blocks[|blocks| - 1];
      if b.ToolPieces? then rest + [ToolCall(b.id, b.name, Concat(b.pieces))] else rest
  }

  /** All calls share one slot: right for at most one, merged for more. */
  ghost predicate OneSlot(calls: seq<ToolCall>, expected: seq<ToolCall>) {
    if |expected| <= 1 then calls == expected else |calls| == 1
  }

  lemma HeardTool(reopen: Reopen, c: Client, b: StreamedBlock)
    requires b.ToolPieces? && |c.calls| <= 1
    ensures var h := Heard(reopen, c, BlockEvents(b));
      && h.text == c.text && h.finish == c.finish && |h.calls| == 1
      && (c.calls == [] ==> h.calls == [ToolCall(b.id, b.name, Concat(b.pieces))])
  {
    hide Heard; hide InputDeltas; hide Concat;
    var start := ToolStart(b.id, b.name);
    HeardAppend(reopen, c, [start], InputDeltas(b.pieces));
    HeardOne(reopen, c, start);
    HeardInput(reopen, Hear(reopen, c, start), b.pieces);
    assert "" + Concat(b.pieces) == Concat(b.pieces);
  }

  lemma TextOfSnoc(content: seq<Block>, b: Block)
    ensures TextOf(content + [b]) == if b.kind == "text" then TextOf(content) + b.text else TextOf(content)
    ensures CallsOf(content + [b]) == if b.kind == "tool_use" then CallsOf(content) + [CallOf(b)] else CallsOf(content)
  {
    assert (content + [b])[..|content|] == content;
  }

  /** The text comes through whole; the calls share one slot. */
  lemma {:induction false} HeardBlocks(reopen: Reopen, blocks: seq<StreamedBlock>)
    ensures var h := Heard(reopen, NOTHING, AllBlockEvents(blocks));
      h.text == TextOf(Content(blocks)) && h.finish == "" && OneSlot(h.calls, Streamable(blocks))
  {
    hide Heard; hide BlockEvents; hide TextOf; hide Concat;
    if blocks == [] {
      HeardNothing(reopen, NOTHING);
      NoText();
    } else {
      var init, b := blocks[..|blocks| - 1], blocks[|blocks| - 1];
      HeardBlocks(reopen, init);
      var c := Heard(reopen, NOTHING, AllBlockEvents(init));
      HeardAppend(reopen, NOTHING, AllBlockEvents(init), BlockEvents(b));
      TextOfSnoc(Content(init), Finished(b));
      if b.TextPieces? {
        TextBlockEvents(b);
        HeardText(reopen, c, b.pieces);
      } else {
        HeardTool(reopen, c, b);
      }
    }
  }

  lemma NoText()
    ensures TextOf([]) == ""
  {
  }

  lemma TextBlockEvents(b: StreamedBlock)
    requires b.TextPieces?
    ensures BlockEvents(b) == TextDeltas(b.pieces)
  {
  }

  /** The two lists of calls differ only where a tool was streamed no input. */
  lemma {:induction false} CallsOfStreamed(blocks: seq<StreamedBlock>)
    ensures var expected, whole := Streamable(blocks), CallsOf(Content(blocks));
      && |expected| == |whole|
      && (expected == whole <==> forall i :: 0 <= i < |expected| ==> expected[i].arguments != "")
  {
    hide CallsOf; hide TextOf; hide Concat;
    if blocks == [] {
      NoCalls();
    } else {
      var init, b := blocks[..|blocks| - 1], blocks[|blocks| - 1];
      CallsOfStreamed(init);
      var block := Finished(b);
      TextOfSnoc(Content(init), block);
      if b.ToolPieces? {
        SnocAgree(Streamable(init), CallsOf(Content(init)), ToolCall(b.id, b.name, Concat(b.pieces)), CallOf(block));
      }
    }
  }

  lemma NoCalls()
    ensures CallsOf([]) == []
  {
  }

  lemma SnocAgree(a: seq<ToolCall>, b: seq<ToolCall>, x: ToolCall, y: ToolCall)
    requires |a| == |b|
    requires a == b <==> forall i :: 0 <= i < |a| ==> a[i].arguments != ""
    requires x == y <==> x.arguments != ""
    ensures a + [x] == b + [y] <==> forall i :: 0 <= i < |a + [x]| ==> (a + [x])[i].arguments != ""
  {
    var ax, bx := a + [x], b + [y];
    assert ax[..|a|] == a && bx[..|a|] == b && ax[|a|] == x && bx[|a|] == y;
    assert forall i :: 0 <= i < |a| ==> ax[i] == a[i];
    if ax == bx { assert a == b && x == y; }
    assert forall i :: 0 <= i < |ax| ==> ax[i] == if i < |a| then a[i] else x;
    if forall i :: 0 <= i < |ax| ==> ax[i].arguments != "" {
      assert ax[|a|].arguments != "";
      assert forall i :: 0 <= i < |a| ==> ax[i].arguments != "";
    }
  }

  lemma HeardScript(reopen: Reopen, m: Streamed)
    ensures var h := Heard(reopen, NOTHING, Script(m));
      && h.text == TextOf(Content(m.blocks)) && h.finish == MapStopReason(m.stopReason)
      && OneSlot(h.calls, Streamable(m.blocks))
  {
    hide Heard; hide AllBlockEvents; hide MapStopReason; hide OneSlot; hide Streamable; hide TextOf; hide Content;
    var start, end := MessageStart(m.id), MessageDelta(m.stopReason, m.usage);
    var body := AllBlockEvents(m.blocks);
    HeardBlocks(reopen, m.blocks);
    HeardAppend(reopen, NOTHING, [start], body);
    HeardOne(reopen, NOTHING, start);
    HeardSnoc(reopen, NOTHING, [start] + body, end);
    HeardSnoc(reopen, NOTHING, [start] + body + [end], MessageStop);
  }

  // ----- agreement ------------------------------------------------------------------------------------

  ghost predicate AtMostOneTool(blocks: seq<StreamedBlock>) {
    forall i, j :: 0 <= i < j < |blocks| ==> !(blocks[i].ToolPieces? && blocks[j].ToolPieces?)
  }

  /** Some piece of a tool's input is nonempty. */
  ghost predicate HasInput(b: StreamedBlock) {
    exists k :: 0 <= k < |b.pieces| && b.pieces[k] != ""
  }

  ghost predicate EveryToolHasInput(blocks: seq<StreamedBlock>) {
    forall i :: 0 <= i < |blocks| && blocks[i].ToolPieces? ==> HasInput(blocks[i])
  }

  lemma {:induction false} InputIsConcat(b: StreamedBlock)
    ensures HasInput(b) <==> Concat(b.pieces) != ""
    decreases |b.pieces|
  {
    if b.pieces != [] {
      var rest := b.(pieces := b.pieces[1..]);
      InputIsConcat(rest);
      if HasInput(rest) {
        var k :| 0 <= k < |rest.pieces| && rest.pieces[k] != "";
        assert b.pieces[k + 1] != "";
      }
      if HasInput(b) {
        var k :| 0 <= k < |b.pieces| && b.pieces[k] != "";
        assert k > 0 ==> rest.pieces[k - 1] != "";
      }
    }
  }

  ghost predicate NoTools(blocks: seq<StreamedBlock>) {
    forall i :: 0 <= i < |blocks| ==> !blocks[i].ToolPieces?
  }

  lemma {:induction false} ToolsCounted(blocks: seq<StreamedBlock>)
    ensures NoTools(blocks) <==> |Streamable(blocks)| == 0
    ensures AtMostOneTool(blocks) <==> |Streamable(blocks)| <= 1
  {
    hide Concat;
    if blocks != [] {
      var n := |blocks| - 1;
      var init, b := blocks[..n], blocks[n];
      ToolsCounted(init);
      assert forall i :: 0 <= i < n ==> init[i] == blocks[i];
      if b.ToolPieces? && !NoTools(init) {
        var i :| 0 <= i < n && init[i].ToolPieces?;
        assert blocks[i].ToolPieces? && blocks[n].ToolPieces?;
      }
      if !AtMostOneTool(init) {
        var i, j :| 0 <= i < j < n && init[i].ToolPieces? && init[j].ToolPieces?;
        assert blocks[i].ToolPieces? && blocks[j].ToolPieces?;
      }
    }
  }

  ghost predicate ArgumentsGiven(calls: seq<ToolCall>) {
    forall i :: 0 <= i < |calls| ==> calls[i].arguments != ""
  }

  lemma {:induction false} InputsCounted(blocks: seq<StreamedBlock>)
    ensures EveryToolHasInput(blocks) <==> ArgumentsGiven(Streamable(blocks))
  {
    hide Concat; hide HasInput;
    if blocks != [] {
      var n := |blocks| - 1;
      var init, b := blocks[..n], blocks[n];
      InputsCounted(init);
      InputIsConcat(b);
      assert forall i :: 0 <= i < n ==> init[i] == blocks[i];
      var calls := Streamable(init);
      if b.ToolPieces? {
        GivenSnoc(calls, ToolCall(b.id, b.name, Concat(b.pieces)));
      }
    }
  }

  lemma GivenSnoc(calls: seq<ToolCall>, call: ToolCall)
    ensures ArgumentsGiven(calls + [call]) <==> ArgumentsGiven(calls) && call.arguments != ""
  {
    var more := calls + [call];
    assert more[|calls|] == call && forall i :: 0 <= i < |calls| ==> more[i] == calls[i];
  }

  /** The data holds the events of one whole message, and lines without effect. */
  ghost predicate Carries(parse: Parser, data: string, m: Streamed) {
    Relevant(Events(parse, Split(data, LF))) == Script(m)
  }

  /** The exact condition: however a client treats an index that is opened twice, it
      assembles from the stream what the unstreamed response says, iff the message
      has at most one tool use and no tool use is streamed without input. */
  lemma AgreementIff(parse: Parser, data: string, model: string, streamID: string, spanID: string, reopen: Reopen, m: Streamed)
    ensures var content := Content(m.blocks);
      Carries(parse, data, m) ==>
      (Assemble(reopen, Call(parse, data, model, streamID, spanID).out)
        == Client(TextOf(content), CallsOf(content), MapStopReason(m.stopReason))
      <==> AtMostOneTool(m.blocks) && EveryToolHasInput(m.blocks))
  {
    if !Carries(parse, data, m) { return; }
    var es := Events(parse, Split(data, LF));
    var id, display := StartID(streamID, spanID), ParseModelName(model).display;
    hide Events; hide Split; hide Run; hide Assemble; hide Heard; hide Script; hide Relevant; hide MapStopReason;
    hide Streamable; hide TextOf; hide CallsOf; hide Content; hide StartID; hide ParseModelName;
    hide AtMostOneTool; hide EveryToolHasInput;
    AssembledIsHeard(reopen, es, id, display);
    HeardRelevant(reopen, NOTHING, es);
    HeardScript(reopen, m);
    CallsOfStreamed(m.blocks);
    ToolsCounted(m.blocks);
    InputsCounted(m.blocks);
  }

  // ----- agreement on actual streams --------------------------------------------------------------------

  /** Lines, each ended by a newline. */
  ghost function Joined(lines: seq<string>): string {
    if lines == [] then "" else Joined(lines[..|lines| - 1]) + lines[|lines| - 1] + "\n"
  }

  lemma {:induction false} SplitJoined(lines: seq<string>)
    requires forall i :: 0 <= i < |lines| ==> LF !in lines[i]
    ensures Split(Joined(lines), LF) == lines + [""]
  {
    hide Split;
    if lines == [] {
      assert Split("", LF) == [""];
    } else {
      var init, last := lines[..|lines| - 1], lines[|lines| - 1];
      SplitJoined(init);
      assert Split(last, LF) == [last] && Split("", LF) == [""];
      SplitConcat(Joined(init), last, LF);
      var before := Joined(init) + last;
      assert Split(before, LF) == init + [last] by { assert "" + last == last; }
      assert before + [LF] + "" == Joined(lines);
      SplitAtSeparator(before, LF, "");
      assert init + [last] == lines;
    }
  }

  /** The lines say the events, one each. */
  ghost predicate LinesSay(parse: Parser, lines: seq<string>, es: seq<Event>) {
    |es| == |lines| && forall i :: 0 <= i < |lines| ==> LF !in lines[i] && LineSays(parse, lines[i], es[i])
  }

  lemma {:induction false} EventsSaid(parse: Parser, lines: seq<string>, es: seq<Event>)
    requires LinesSay(parse, lines, es)
    ensures Events(parse, lines) == es
  {
    hide LineSays; hide LineEvent;
    if lines != [] {
      var n := |lines| - 1;
      EventsSaid(parse, lines[..n], es[..n]);
      LineReads(parse, lines[n], es[n]);
    }
  }

  /** Lines that say a message, among others that say nothing, carry it. */
  lemma SaidIsCarried(parse: Parser, lines: seq<string>, es: seq<Event>, m: Streamed)
    requires LinesSay(parse, lines, es) && Relevant(es) == Script(m)
    ensures Carries(parse, Joined(lines), m)
  {
    hide Events; hide Split; hide Joined; hide LineEvent; hide Script; hide LineSays;
    SplitJoined(lines);
    EventsSaid(parse, lines, es);
    EventsSnoc(parse, lines, "");
    BlankLine(parse);
    assert (es + [Ignored])[..|es|] == es;
  }

  lemma BlankLine(parse: Parser)
    ensures LineEvent(parse, "") == Ignored
  {
  }

  /** The exact condition on actual streams: the client assembles from lines that say a
      message what the unstreamed response says, iff the message has at most one tool
      use and none is streamed without input. */
  lemma StreamAgreesIff(parse: Parser, lines: seq<string>, es: seq<Event>, model: string, streamID: string, spanID: string,
                        reopen: Reopen, m: Streamed)
    requires LinesSay(parse, lines, es) && Relevant(es) == Script(m)
    ensures var content := Content(m.blocks);
      Assemble(reopen, Call(parse, Joined(lines), model, streamID, spanID).out)
        == Client(TextOf(content), CallsOf(content), MapStopReason(m.stopReason))
      <==> AtMostOneTool(m.blocks) && EveryToolHasInput(m.blocks)
  {
    hide *;
    SaidIsCarried(parse, lines, es, m);
    AgreementIff(parse, Joined(lines), model, streamID, spanID, reopen, m);
  }

  /** A text for every event that the decoder reads as Anthropic's payload for it. */
  ghost predicate Spells(parse: Parser, text: Event -> string) {
    forall e: Event :: !e.DoneMarker? ==>
      && parse(text(e)) == Some(Payload(e)) && LF !in text(e) && text(e) != "" && text(e) != "[DONE]"
      && !IsSpace(text(e)[|text(e)| - 1])
  }

  /** Events as data lines, each followed by a blank line. */
  ghost function EventLines(text: Event -> string, es: seq<Event>): seq<string> {
    if es == [] then [] else EventLines(text, es[..|es| - 1]) + ["data: " + text(es[|es| - 1]), ""]
  }

  ghost function Spaced(es: seq<Event>): seq<Event> {
    if es == [] then [] else Spaced(es[..|es| - 1]) + [es[|es| - 1], Ignored]
  }

  lemma DataLineShape(text: string)
    requires LF !in text && text != "" && !IsSpace(text[|text| - 1])
    ensures var line := "data: " + text;
      LF !in line && line != "" && line[6..] == text && !IsSpace(line[0]) && !IsSpace(line[|line| - 1])
  {
    var line := "data: " + text;
    assert !IsSpace('d') && line[0] == 'd';
    hide IsSpace;
    assert forall i :: 0 <= i < |line| ==> line[i] == if i < 6 then "data: "[i] else text[i - 6];
  }

  lemma DataLineSays(parse: Parser, text: Event -> string, e: Event)
    requires Spells(parse, text) && !e.DoneMarker?
    ensures LF !in "data: " + text(e) && LineSays(parse, "data: " + text(e), e) && LineSays(parse, "", Ignored)
  {
    hide Says; hide TrimSpace; hide Payload; hide IsSpace;
    var line := "data: " + text(e);
    DataLineShape(text(e));
    SolidLine(line);
    PayloadRoundTrip(e);
    assert DataLine(parse, line, Payload(e));
  }

  lemma SolidLine(line: string)
    requires line != "" && !IsSpace(line[0]) && !IsSpace(line[|line| - 1])
    ensures TrimSpace(line) == line && TrimSpace("") == ""
  {
    hide IsSpace;
    TrimAround("", line, "");
    assert "" + line + "" == line;
  }

  lemma {:induction false} EventLinesSay(parse: Parser, text: Event -> string, es: seq<Event>)
    requires Spells(parse, text) && forall e :: e in es ==> !e.DoneMarker? && e != Ignored
    ensures LinesSay(parse, EventLines(text, es), Spaced(es)) && Relevant(Spaced(es)) == es
  {
    hide Spells; hide LineSays;
    if es != [] {
      var init, e := es[..|es| - 1], es[|es| - 1];
      EventLinesSay(parse, text, init);
      DataLineSays(parse, text, e);
      RelevantPair(Spaced(init), e);
      assert es == init + [e];
    }
  }

  lemma RelevantPair(es: seq<Event>, e: Event)
    requires e != Ignored
    ensures Relevant(es + [e, Ignored]) == Relevant(es) + [e]
  {
    var more := es + [e, Ignored];
    assert more[..|more| - 1] == es + [e] && (es + [e])[..|es|] == es;
  }

  lemma ScriptSpoken(m: Streamed)
    ensures forall e :: e in Script(m) ==> !e.DoneMarker? && e != Ignored
  {
    hide AllBlockEvents;
    BlocksSpoken(m.blocks);
  }

  lemma {:induction false} DeltasSpoken(pieces: seq<string>)
    ensures forall e :: e in TextDeltas(pieces) + InputDeltas(pieces) ==> !e.DoneMarker? && e != Ignored
  {
    if pieces != [] {
      var init := pieces[..|pieces| - 1];
      DeltasSpoken(init);
      forall e | e in TextDeltas(pieces) + InputDeltas(pieces) ensures !e.DoneMarker? && e != Ignored {
        assert e in TextDeltas(init) + InputDeltas(init) || e == TextDelta(pieces[|init|]) || e == InputDelta(pieces[|init|]);
      }
    }
  }

  lemma {:induction false} BlocksSpoken(blocks: seq<StreamedBlock>)
    ensures forall e :: e in AllBlockEvents(blocks) ==> !e.DoneMarker? && e != Ignored
  {
    hide TextDeltas; hide InputDeltas;
    if blocks != [] {
      var b := blocks[|blocks| - 1];
      BlocksSpoken(blocks[..|blocks| - 1]);
      DeltasSpoken(b.pieces);
      forall e | e in BlockEvents(b) ensures !e.DoneMarker? && e != Ignored {
        assert e in TextDeltas(b.pieces) + InputDeltas(b.pieces) || (b.ToolPieces? && e == ToolStart(b.id, b.name));
      }
    }
  }

  /** In particular on the plain stream of a message: Anthropic's payload for each of its
      events on a data line of its own. */
  lemma PlainStreamAgreesIff(parse: Parser, text: Event -> string, model: string, streamID: string, spanID: string, reopen: Reopen, m: Streamed)
    requires Spells(parse, text)
    ensures var content := Content(m.blocks);
      Assemble(reopen, Call(parse, Joined(EventLines(text, Script(m))), model, streamID, spanID).out)
        == Client(TextOf(content), CallsOf(content), MapStopReason(m.stopReason))
      <==> AtMostOneTool(m.blocks) && EveryToolHasInput(m.blocks)
  {
    hide *;
    ScriptSpoken(m);
    EventLinesSay(parse, text, Script(m));
    StreamAgreesIff(parse, EventLines(text, Script(m)), Spaced(Script(m)), model, streamID, spanID, reopen, m);
  }

  /** Two parallel tool uses reach a streaming client as one. */
  lemma ParallelToolsMerge(reopen: Reopen, model: string)
    ensures var blocks := [ToolPieces("a", "f", ["{}"]), ToolPieces("b", "g", ["{}"])];
      var m := Streamed("msg", blocks, "tool_use", Null);
      && |Assemble(reopen, Run(Script(m), "x", model).out).calls| == 1
      && |CallsOf(Content(blocks))| == 2
  {
    hide Assemble; hide Run; hide Heard; hide Script; hide Content; hide CallsOf;
    var blocks := [ToolPieces("a", "f", ["{}"]), ToolPieces("b", "g", ["{}"])];
    var m := Streamed("msg", blocks, "tool_use", Null);
    AssembledIsHeard(reopen, Script(m), "x", model);
    HeardScript(reopen, m);
    CallsOfStreamed(blocks);
    assert blocks[..1] == [blocks[0]] && blocks[..1][..0] == [];
  }

  // ----- one ID for the whole stream ----------------------------------------------------------------------

  ghost predicate NoStart(es: seq<Event>) {
    forall e :: e in es ==> !e.MessageStart?
  }

  ghost predicate CarryID(chunks: seq<Chunk>, id: string) {
    forall c :: c in chunks && c.Delta? ==> c.id == id
  }

  lemma {:induction false} RunRelevant(es: seq<Event>, id: string, model: string)
    ensures Run(es, id, model) == Run(Relevant(es), id, model)
  {
    hide Run; hide UsageOf; hide MapStopReason;
    if es != [] {
      var init, e := es[..|es| - 1], es[|es| - 1];
      RunRelevant(init, id, model);
      assert es == init + [e];
      RunSnoc(init, e, id, model);
      RunSnoc(Relevant(init), e, id, model);
    }
  }

  lemma {:induction false} OneID(es: seq<Event>, id: string, model: string)
    requires NoStart(es)
    ensures var r := Run(es, id, model); r.id == id && CarryID(r.out, id)
  {
    hide Run; hide UsageOf; hide MapStopReason;
    if es == [] {
      RunNoEvents(id, model);
    } else {
      var init, e := es[..|es| - 1], es[|es| - 1];
      OneID(init, id, model);
      assert es == init + [e];
      assert e in es;
      RunSnoc(init, e, id, model);
    }
  }

  lemma {:induction false} DeltasDoNotStart(pieces: seq<string>)
    ensures NoStart(TextDeltas(pieces)) && NoStart(InputDeltas(pieces))
  {
    if pieces != [] { DeltasDoNotStart(pieces[..|pieces| - 1]); }
  }

  lemma {:induction false} BlocksDoNotStart(blocks: seq<StreamedBlock>)
    ensures NoStart(AllBlockEvents(blocks))
  {
    hide TextDeltas; hide InputDeltas;
    if blocks != [] {
      BlocksDoNotStart(blocks[..|blocks| - 1]);
      DeltasDoNotStart(blocks[|blocks| - 1].pieces);
    }
  }

  lemma ScriptSharesID(m: Streamed, id: string, model: string)
    ensures CarryID(Run(Script(m), id, model).out, if m.id != "" then m.id else id)
  {
    hide Run; hide UsageOf; hide MapStopReason; hide AllBlockEvents;
    var start := MessageStart(m.id);
    var rest := AllBlockEvents(m.blocks) + [MessageDelta(m.stopReason, m.usage)] + [MessageStop];
    assert Script(m) == [start] + rest;
    BlocksDoNotStart(m.blocks);
    RunAppend([start], rest, id, model);
    RunNoEvents(id, model);
    RunSnoc([], start, id, model);
    assert [] + [start] == [start];
    OneID(rest, NextID(start, id), model);
  }

  /** Every chunk of a message carries one ID: the message's own, or the one the
      stream began with when the message has none. */
  lemma ChunksShareID(parse: Parser, data: string, model: string, streamID: string, spanID: string, m: Streamed)
    ensures Carries(parse, data, m) ==>
      CarryID(Call(parse, data, model, streamID, spanID).out,
              if m.id != "" then m.id else if streamID != "" then streamID else "chatcmpl-" + spanID)
  {
    assert StartID(streamID, spanID) == if streamID != "" then streamID else "chatcmpl-" + spanID;
    hide Events; hide Split; hide Run; hide Relevant; hide Script; hide StartID; hide ParseModelName; hide CarryID;
    var id, display := StartID(streamID, spanID), ParseModelName(model).display;
    RunRelevant(Events(parse, Split(data, LF)), id, display);
    ScriptSharesID(m, id, display);
  }

  // ----- the model's name ----------------------------------------------------------------------------------

  ghost predicate NamedModel(chunks: seq<Chunk>, name: string) {
    forall c :: c in chunks && c.Delta? ==> c.model == name
  }

  lemma {:induction false} RunNamesModel(es: seq<Event>, id: string, model: string)
    ensures NamedModel(Run(es, id, model).out, model)
  {
    hide Run; hide UsageOf; hide MapStopReason;
    if es == [] {
      RunNoEvents(id, model);
    } else {
      var init, e := es[..|es| - 1], es[|es| - 1];
      RunNamesModel(init, id, model);
      assert es == init + [e];
      RunSnoc(init, e, id, model);
    }
  }

  /** Every chunk names the model without a trailing date: a hyphen and eight digits. */
  lemma ChunksNameModel(parse: Parser, data: string, name: string, date: string, streamID: string, spanID: string)
    requires |date| == 8 && forall i :: 0 <= i < 8 ==> IsDigit(date[i])
    ensures NamedModel(Call(parse, data, name + "-" + date, streamID, spanID).out, name)
    ensures !Dated(name) ==> NamedModel(Call(parse, data, name, streamID, spanID).out, name)
  {
    DateDropped(name, date);
    hide Run; hide Events; hide Split; hide StartID; hide ParseModelName; hide NamedModel; hide Dated;
    RunNamesModel(Events(parse, Split(data, LF)), StartID(streamID, spanID), name);
  }

  lemma DateDropped(name: string, date: string)
    requires |date| == 8 && forall i :: 0 <= i < 8 ==> IsDigit(date[i])
    ensures var p := ParseModelName(name + "-" + date); p.display == name && p.vertexAI == name + "@" + date
    ensures !Dated(name) ==> ParseModelName(name).display == name && ParseModelName(name).vertexAI == name
  {
    var raw := name + "-" + date;
    assert raw[|raw| - 9] == '-' && raw[|raw| - 8..] == date && raw[..|raw| - 9] == name;
    assert forall i :: |raw| - 8 <= i < |raw| ==> raw[i] == date[i - (|raw| - 8)];
    assert Dated(raw);
  }
}
