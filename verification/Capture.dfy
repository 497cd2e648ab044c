/** Capture buffers for streamed responses (pkg/proxy/rolling_buffer.go,
    cmd/candela/span_capture.go), generic in what a byte is. */
module Capture {
  import opened EventStream
  import opened Text
  import opened Wrappers

  // ----- the last n and the first n elements ----------------------------------------

  function Last<T>(s: seq<T>, n: nat): seq<T> {
    if |s| <= n then s else s[|s| - n..]
  }

  function First<T>(s: seq<T>, n: nat): seq<T> {
    if |s| <= n then s else s[..n]
  }

  /** What was forgotten earlier would be forgotten anyway. */
  lemma LastAbsorbs<T>(s: seq<T>, p: seq<T>, n: nat)
    ensures Last(Last(s, n) + p, n) == Last(s + p, n)
  {
  }

  /** How the window moves, in the three cases of a write. */
  lemma LastOfWrite<T>(s: seq<T>, p: seq<T>, n: nat)
    ensures var kept := Last(s, n);
      && |kept| <= n
      && (|p| >= n ==> Last(s + p, n) == p[|p| - n..])
      && (|p| < n < |kept| + |p| ==> Last(s + p, n) == kept[|kept| + |p| - n..] + p)
      && (|kept| + |p| <= n ==> Last(s + p, n) == kept + p)
  {
    LastAbsorbs(s, p, n);
  }

  // ----- rollingBuffer ------------------------------------------------------------------

  class RollingBuffer<T(0)> {
    const maxSize: nat
    const data: array<T>
    var len: nat
    /** Everything written since creation or the last reset. */
    ghost var stream: seq<T>

    ghost predicate Valid()
      reads this, data
    {
      data.Length == maxSize && len <= maxSize && data[..len] == Last(stream, maxSize)
    }

    constructor (n: nat)
      ensures Valid() && fresh(data) && maxSize == n && stream == []
    {
      maxSize := n;
      data := new T[n];
      len, stream := 0, [];
    }

    /** The overlapping copy to the front, one element at a time. */
    method ShiftDown(excess: nat)
      requires data.Length == maxSize && excess <= len <= maxSize
      modifies data
      ensures data[..len - excess] == old(data[excess..len])
    {
      for i := 0 to len - excess
        invariant data[..i] == old(data[excess..excess + i])
        invariant forall k :: i + excess <= k < len ==> data[k] == old(data[k])
      {
        data[i] := data[i + excess];
      }
    }

    method Append(p: seq<T>)
      requires data.Length == maxSize && len + |p| <= maxSize
      modifies data, `len
      ensures len == old(len) + |p| && data[..len] == old(data[..len]) + p
    {
      for i := 0 to |p|
        invariant len == old(len)
        invariant data[..len + i] == old(data[..len]) + p[..i]
      {
        data[len + i] := p[i];
      }
      assert p[..|p|] == p;
      len := len + |p|;
    }

    /** After any writes the buffer holds exactly the last `maxSize` bytes of the stream. */
    method Write(p: seq<T>) returns (n: nat)
      requires Valid()
      modifies this, data
      ensures Valid() && stream == old(stream) + p && n == |p|
    {
      hide Last;
      LastOfWrite(stream, p, maxSize);
      n := |p|;
      if n == 0 {
        assert stream + p == stream;
        return 0;
      }
      stream := stream + p;
      if n >= maxSize {
        len := 0;
        Append(p[n - maxSize..]);
        return;
      }
      var avail := maxSize - len;
      if n > avail {
        var excess := n - avail;
        ShiftDown(excess);
        len := len - excess;
      }
      Append(p);
    }

    method Reset()
      requires Valid()
      modifies `len, `stream
      ensures Valid() && stream == [] && len == 0
    {
      len, stream := 0, [];
    }
  }

  // ----- responseCapture ------------------------------------------------------------------

  const MAX_CAPTURE: nat := 0x10_0000

  /** What a writer answers: how much it took, and whether it succeeded. */
  datatype Reply = Reply(n: nat, ok: bool)

  /** Buffers the head of a response on its way to the client. */
  class ResponseCapture<T> {
    var body: seq<T>
    var statusCode: int
    var capped: bool
    /** What the wrapped writer was given. */
    var forwarded: seq<T>

    ghost predicate Valid()
      reads this
    {
      body == First(forwarded, MAX_CAPTURE) && (capped <==> |forwarded| > MAX_CAPTURE)
    }

    constructor ()
      ensures Valid() && forwarded == [] && statusCode == 0
    {
      body, statusCode, capped, forwarded := [], 0, false, [];
    }

    /** The wrapped writer gets every byte and has the last word; the capture holds
        exactly the first megabyte. */
    method Write(b: seq<T>, reply: Reply) returns (r: Reply)
      requires Valid()
      modifies this
      ensures r == reply
      ensures Valid() && forwarded == old(forwarded) + b
      ensures body == if |forwarded| <= 1_048_576 then forwarded else forwarded[..1_048_576]
      ensures statusCode == if old(statusCode) == 0 then 200 else old(statusCode)
    {
      if statusCode == 0 {
        statusCode := 200;
      }
      if !capped {
        if |body| + |b| > MAX_CAPTURE {
          var remaining := MAX_CAPTURE - |body|;
          if remaining > 0 {
            body := body + b[..remaining];
          }
          capped := true;
        } else {
          body := body + b;
        }
      }
      forwarded := forwarded + b;
      return reply;
    }
  }

  // ----- token usage in a captured stream -----------------------------------------------------

  /** `json.Unmarshal` of a data payload into its usage record; None on a parse error. */
  type Parser = string -> Option<Usage>

  /** The usage a line reports, if it is a data line that reports any. */
  function LineUsage(parse: Parser, line: string): Option<Usage> {
    var trimmed := TrimSpace(line);
    if !(DATA <= trimmed) then None
    else
      var data := trimmed[|DATA|..];
      if data == DONE then None
      else
        var u := parse(data);
        if u.Some? && u.value.total > 0 then u else None
  }

  /** A line reports a usage exactly when it is a data line, other than the end marker,
      whose payload has that usage with a positive total. */
  lemma LineUsageIff(parse: Parser, line: string, u: Usage)
    ensures LineUsage(parse, line) == Some(u) <==>
      exists text :: TrimSpace(line) == "data: " + text && text != "[DONE]" && parse(text) == Some(u) && u.total > 0
  {
    hide TrimSpace;
    var t := TrimSpace(line);
    if DATA <= t { assert t == "data: " + t[6..]; }
    if text :| t == "data: " + text && text != "[DONE]" && parse(text) == Some(u) && u.total > 0 {
      assert t[6..] == text;
    }
  }

  /** The forward reading: of all lines, the last that reports usage. */
  ghost function LastUsage(parse: Parser, lines: seq<string>): Option<Usage> {
    if lines == [] then None
    else
      var u := LineUsage(parse, lines[|lines| - 1]);
      if u.Some? then u else LastUsage(parse, lines[..|lines| - 1])
  }

  ghost function UsageOf(parse: Parser, body: string): Option<Usage> {
    LastUsage(parse, Split(body, LF))
  }

  /** The usage of a body is that of its last reporting line. */
  lemma {:induction false} LastUsageIff(parse: Parser, lines: seq<string>, u: Usage)
    ensures LastUsage(parse, lines) == Some(u) <==>
      exists i :: 0 <= i < |lines| && LineUsage(parse, lines[i]) == Some(u) && forall j :: i < j < |lines| ==> LineUsage(parse, lines[j]) == None
  {
    hide LineUsage;
    if lines != [] {
      var n := |lines| - 1;
      var init := lines[..n];
      LastUsageIff(parse, init, u);
      assert forall j :: 0 <= j < n ==> init[j] == lines[j];
      if LineUsage(parse, lines[n]) == None {
        if i :| 0 <= i < |init| && LineUsage(parse, init[i]) == Some(u) && forall j :: i < j < |init| ==> LineUsage(parse, init[j]) == None {
          assert LineUsage(parse, lines[i]) == Some(u);
        }
        if i :| 0 <= i < |lines| && LineUsage(parse, lines[i]) == Some(u) && forall j :: i < j < |lines| ==> LineUsage(parse, lines[j]) == None {
          assert init[i] == lines[i];
        }
      } else if LineUsage(parse, lines[n]) == Some(u) {
        assert 0 <= n < |lines|;
      }
    }
  }

  lemma EmptyLineReportsNothing(parse: Parser)
    ensures LineUsage(parse, "") == None
  {
  }

  /** Of two bodies on successive lines, the later report counts. */
  lemma UsageJoin(parse: Parser, a: string, b: string)
    ensures UsageOf(parse, a + [LF] + b) == if UsageOf(parse, b).Some? then UsageOf(parse, b) else UsageOf(parse, a)
  {
    hide LastUsage; hide Split;
    SplitAtSeparator(a, LF, b);
    LastUsageAppend(parse, Split(a, LF), Split(b, LF));
  }

  lemma {:induction false} LastUsageAppend(parse: Parser, a: seq<string>, b: seq<string>)
    ensures LastUsage(parse, a + b) == if LastUsage(parse, b).Some? then LastUsage(parse, b) else LastUsage(parse, a)
  {
    hide LineUsage;
    if b == [] {
      assert a + b == a;
    } else {
      var b' := b[..|b| - 1];
      assert (a + b)[..|a + b| - 1] == a + b';
      LastUsageAppend(parse, a, b');
    }
  }

  lemma UsageOfLine(parse: Parser, line: string)
    requires LF !in line
    ensures UsageOf(parse, line) == LineUsage(parse, line)
  {
    assert Split(line, LF) == [line];
    LastUsageOne(parse, line);
  }

  /** Peeling the last line off a body. */
  lemma UsagePeel(parse: Parser, a: string, line: string)
    requires LF !in line
    ensures UsageOf(parse, a + [LF] + line)
         == if LineUsage(parse, line).Some? then LineUsage(parse, line) else UsageOf(parse, a)
  {
    hide LineUsage; hide UsageOf;
    UsageJoin(parse, a, line);
    UsageOfLine(parse, line);
  }

  /** `parseSSEUsage`: walking backwards finds what reading forwards would report. */
  method ParseSSEUsage(parse: Parser, body: string) returns (u: Usage)
    ensures u == match UsageOf(parse, body) case Some(v) => v case None => Usage(0, 0, 0)
  {
    hide LineUsage; hide LastUsage; hide Split;
    var end := |body|;
    assert body[..end] == body;
    while end > 0
      invariant 0 <= end <= |body|
      invariant UsageOf(parse, body[..end]) == UsageOf(parse, body)
    {
      var nl := LastIndex(body[..end], LF);
      var line;
      if nl >= 0 {
        line := body[nl + 1..end];
        assert body[..end] == body[..nl] + [LF] + line;
        assert forall k :: 0 <= k < |line| ==> line[k] == body[..end][nl + 1 + k];
        UsagePeel(parse, body[..nl], line);
        end := nl;
      } else {
        line := body[..end];
        assert Split(line, LF) == [line];
        LastUsageOne(parse, line);
        end := 0;
      }
      var found := LineUsage(parse, line);
      if found.Some? {
        return found.value;
      }
      if nl < 0 { EmptyBody(parse); }
    }
    EmptyBody(parse);
    return Usage(0, 0, 0);
  }

  lemma LastUsageOne(parse: Parser, line: string)
    ensures LastUsage(parse, [line]) == LineUsage(parse, line)
  {
    hide LineUsage;
    assert [line][..0] == [];
    assert LastUsage(parse, [line][..0]) == None;
    LineUsageShape(parse, line);
  }

  lemma LineUsageShape(parse: Parser, line: string)
    ensures LineUsage(parse, line).None? ==> LineUsage(parse, line) == None
  {
  }

  lemma EmptyBody(parse: Parser)
    ensures UsageOf(parse, "") == None && UsageOf(parse, []) == None
  {
    EmptyLineReportsNothing(parse);
    LastUsageOne(parse, "");
  }

  // ----- what a cut body reports -----------------------------------------------------------------

  /** True of JSON objects on data lines: with characters cut off its end, a line that
      reports usage reports nothing. */
  ghost predicate Indivisible(parse: Parser) {
    forall line, k :: LineUsage(parse, line).Some? && TrimSpace(line) == line && 0 <= k < |line| ==>
      LineUsage(parse, line[..k]) == None
  }

  /** Blanks around a line do not matter. */
  lemma TrimmedReports(parse: Parser, line: string)
    requires TrimSpace(line) != ""
    ensures TrimSpace(TrimSpace(line)) == TrimSpace(line) && LineUsage(parse, TrimSpace(line)) == LineUsage(parse, line)
  {
    hide IsSpace; hide TrimLeft; hide TrimRight;
    var t := TrimSpace(line);
    TrimAround("", t, "");
    assert "" + t + "" == t;
  }

  lemma ReportHasInk(parse: Parser, line: string)
    requires LineUsage(parse, line).Some?
    ensures |TrimSpace(line)| >= |DATA|
  {
    hide TrimSpace;
  }

  lemma BlankReportsNothing(parse: Parser, line: string)
    requires Blank(line)
    ensures LineUsage(parse, line) == None
  {
    hide IsSpace; hide TrimLeft; hide TrimRight;
    assert TrimSpace(line) == "";
  }

  lemma SameTrimSameReport(parse: Parser, a: string, b: string)
    requires TrimSpace(a) == TrimSpace(b)
    ensures LineUsage(parse, a) == LineUsage(parse, b)
  {
    hide TrimSpace;
  }

  /** A line cut short reports its usage iff its ink is whole. */
  lemma LineCut(parse: Parser, line: string, j: nat)
    requires Indivisible(parse) && LineUsage(parse, line).Some? && j <= |line|
    ensures LineUsage(parse, line[..j]) == if j >= |TrimRight(line)| then LineUsage(parse, line) else None
  {
    hide IsSpace; hide TrimLeft; hide TrimRight; hide LineUsage; hide TrimSpace;
    ReportHasInk(parse, line);
    TrimmedReports(parse, line);
    var lead, trail := TrimParts(line);
    var t := TrimSpace(line);
    if j >= |lead| + |t| {
      assert line[..j] == lead + t + trail[..j - |lead| - |t|];
      TrimAround(lead, t, trail[..j - |lead| - |t|]);
      SameTrimSameReport(parse, line[..j], line);
    } else if j >= |lead| {
      var cut := t[..j - |lead|];
      assert line[..j] == lead + cut;
      BlankPrefix(lead, cut);
      SameTrimSameReport(parse, line[..j], cut);
    } else {
      assert line[..j] == lead[..j];
      BlankReportsNothing(parse, line[..j]);
    }
  }

  /** The capped capture keeps the usage of a stream. */
  ghost predicate KeptByHead(parse: Parser, n: nat, s: string) {
    UsageOf(parse, First(s, n)) == UsageOf(parse, s)
  }

  /** What follows a line: nothing, or further lines. */
  ghost predicate Further(rest: string) {
    rest == "" || rest[0] == LF
  }

  /** Further lines that report nothing, wherever they are cut. */
  ghost predicate Quiet(parse: Parser, rest: string) {
    && Further(rest)
    && forall j :: 1 <= j <= |rest| ==> UsageOf(parse, rest[1..j]) == None
  }

  lemma LineThenQuiet(parse: Parser, line: string, rest: string, j: nat)
    requires LF !in line && Quiet(parse, rest) && j <= |rest|
    ensures UsageOf(parse, line + rest[..j]) == LineUsage(parse, line)
  {
    hide UsageOf; hide LineUsage;
    UsageOfLine(parse, line);
    if j == 0 {
      assert line + rest[..j] == line;
    } else {
      assert rest[..j] == [LF] + rest[1..j];
      assert line + rest[..j] == line + [LF] + rest[1..j];
      UsageJoin(parse, line, rest[1..j]);
    }
  }

  /** Nothing, or complete lines. */
  ghost predicate Complete(a: string) {
    a == "" || a[|a| - 1] == LF
  }

  lemma AfterLines(parse: Parser, a: string, b: string)
    requires Complete(a)
    ensures UsageOf(parse, a + b) == if UsageOf(parse, b).Some? then UsageOf(parse, b) else UsageOf(parse, a)
  {
    hide UsageOf;
    EmptyBody(parse);
    if a == "" {
      assert a + b == b;
    } else {
      var a' := a[..|a| - 1];
      assert a == a' + [LF] + "" && a + b == a' + [LF] + b;
      UsageJoin(parse, a', b);
      UsageJoin(parse, a', "");
    }
  }

  lemma ReportCounts(parse: Parser, a: string, line: string, rest: string, j: nat)
    requires Complete(a) && LF !in line && Quiet(parse, rest) && j <= |rest|
    ensures UsageOf(parse, a + (line + rest[..j]))
         == if LineUsage(parse, line).Some? then LineUsage(parse, line) else UsageOf(parse, a)
  {
    hide UsageOf; hide LineUsage; hide Quiet;
    LineThenQuiet(parse, line, rest, j);
    AfterLines(parse, a, line + rest[..j]);
  }

  /** The capped capture keeps the usage of a stream iff the cap comes after the ink of
      its last reporting line, or what came before reports the same. */
  lemma HeadKeepsReportIff(parse: Parser, a: string, line: string, rest: string, n: nat)
    requires Indivisible(parse) && Complete(a) && LF !in line && LineUsage(parse, line).Some? && Quiet(parse, rest)
    ensures KeptByHead(parse, n, a + line + rest)
      <==> n >= |a| + |TrimRight(line)| || UsageOf(parse, First(a, n)) == LineUsage(parse, line)
  {
    hide UsageOf; hide LineUsage; hide TrimRight; hide Quiet; hide Indivisible; hide Complete;
    var s := a + line + rest;
    assert rest[..|rest|] == rest && s == a + (line + rest[..|rest|]);
    ReportCounts(parse, a, line, rest, |rest|);
    ReportHasRight(parse, line);
    if n < |a| {
      assert First(s, n) == First(a, n);
    } else if n < |a| + |line| {
      var j := n - |a|;
      assert First(s, n) == a + line[..j];
      LineCut(parse, line, j);
      UsageOfLine(parse, line[..j]);
      AfterLines(parse, a, line[..j]);
    } else {
      var j := if n <= |s| then n - |a| - |line| else |rest|;
      assert First(s, n) == a + (line + rest[..j]);
      ReportCounts(parse, a, line, rest, j);
    }
  }

  lemma ReportHasRight(parse: Parser, line: string)
    requires LineUsage(parse, line).Some?
    ensures 0 < |TrimRight(line)| <= |line|
  {
    hide TrimSpace; hide TrimLeft; hide TrimRight; hide IsSpace;
    ReportHasInk(parse, line);
    var lead, trail := TrimParts(line);
  }

  // ----- which streams are safe ---------------------------------------------------------------------

  function BlankLines(n: nat): string {
    if n == 0 then "" else BlankLines(n - 1) + [LF]
  }

  lemma {:induction false} BlankLinesReportNothing(parse: Parser, n: nat)
    ensures |BlankLines(n)| == n && UsageOf(parse, BlankLines(n)) == None
  {
    hide LineUsage; hide UsageOf;
    if n == 0 {
      EmptyBody(parse);
    } else {
      BlankLinesReportNothing(parse, n - 1);
      UsagePeel(parse, BlankLines(n - 1), "");
      EmptyLineReportsNothing(parse);
      assert BlankLines(n) == BlankLines(n - 1) + [LF] + "";
    }
  }

  lemma LineAfterBlanks(parse: Parser, n: nat, line: string)
    requires n > 0 && LF !in line
    ensures UsageOf(parse, BlankLines(n) + line) == LineUsage(parse, line)
  {
    hide LineUsage; hide UsageOf;
    assert BlankLines(n) + line == BlankLines(n - 1) + [LF] + line;
    BlankLinesReportNothing(parse, n - 1);
    UsagePeel(parse, BlankLines(n - 1), line);
    LineUsageShape(parse, line);
  }

  /** No line of at most `k` characters reports usage. */
  ghost predicate NoReport(parse: Parser, k: nat) {
    forall line :: |line| <= k && LF !in line ==> LineUsage(parse, line) == None
  }

  lemma {:induction false} LinesReportNothing(parse: Parser, lines: seq<string>)
    requires forall i :: 0 <= i < |lines| ==> LineUsage(parse, lines[i]) == None
    ensures LastUsage(parse, lines) == None
  {
    hide LineUsage;
    if lines != [] { LinesReportNothing(parse, lines[..|lines| - 1]); }
  }

  lemma NothingToLose(parse: Parser, s: string, k: nat)
    requires NoReport(parse, k) && |s| <= k
    ensures UsageOf(parse, s) == None
  {
    hide LineUsage;
    SplitShort(s, LF);
    LinesReportNothing(parse, Split(s, LF));
  }

  /** The usage of every stream of at most `k` characters is kept. */
  ghost predicate HeadKeeps(parse: Parser, n: nat, k: nat) {
    forall s :: |s| <= k ==> KeptByHead(parse, n, s)
  }

  /** A reporting line, trimmed. */
  lemma ShortReport(parse: Parser, k: nat) returns (t: string)
    requires !NoReport(parse, k)
    ensures |t| <= k && LF !in t && LineUsage(parse, t).Some? && TrimSpace(t) == t && |t| > 1
  {
    hide LineUsage; hide TrimSpace;
    var line :| |line| <= k && LF !in line && LineUsage(parse, line) != None;
    LineUsageShape(parse, line);
    ReportHasInk(parse, line);
    TrimmedReports(parse, line);
    t := TrimSpace(line);
    var lead, trail := TrimParts(line);
    assert forall i :: 0 <= i < |t| ==> t[i] == line[|lead| + i];
  }

  lemma CutReportsNothing(parse: Parser, t: string, k: nat)
    requires Indivisible(parse) && LineUsage(parse, t).Some? && TrimSpace(t) == t && k < |t|
    ensures LineUsage(parse, t[..k]) == None
  {
    hide LineUsage; hide TrimSpace;
  }

  /** Any report that may be too long for the head capture is lost in some stream. */
  lemma HeadLoses(parse: Parser, n: nat, t: string) returns (s: string)
    requires Indivisible(parse) && LF !in t && LineUsage(parse, t).Some? && TrimSpace(t) == t && t != ""
    ensures |s| == if |t| > n then |t| else n + 1
    ensures UsageOf(parse, First(s, n)) == None && UsageOf(parse, s).Some?
  {
    hide LineUsage; hide UsageOf; hide TrimSpace; hide Indivisible;
    if |t| > n {
      s := t;
      CutReportsNothing(parse, t, n);
      UsageOfLine(parse, t);
      UsageOfLine(parse, t[..n]);
    } else {
      var pad := n + 1 - |t|;
      CutReportsNothing(parse, t, |t| - 1);
      BlankLinesReportNothing(parse, pad);
      s := BlankLines(pad) + t;
      assert First(s, n) == BlankLines(pad) + t[..|t| - 1];
      LineAfterBlanks(parse, pad, t);
      LineAfterBlanks(parse, pad, t[..|t| - 1]);
    }
  }

  lemma HeadKeepsSome(parse: Parser, n: nat, k: nat)
    requires k <= n || NoReport(parse, k)
    ensures HeadKeeps(parse, n, k)
  {
    hide UsageOf; hide NoReport;
    forall s | |s| <= k ensures KeptByHead(parse, n, s) {
      if k > n {
        NothingToLose(parse, s, k);
        NothingToLose(parse, First(s, n), k);
      }
    }
  }

  /** The exact condition: the capped capture keeps the usage of all streams of at most
      `k` characters iff they fit, or are too short to report any. */
  lemma HeadKeepsIff(parse: Parser, n: nat, k: nat)
    requires Indivisible(parse)
    ensures HeadKeeps(parse, n, k) <==> k <= n || NoReport(parse, k)
  {
    hide *;
    if k <= n || NoReport(parse, k) {
      HeadKeepsSome(parse, n, k);
    } else {
      var t := ShortReport(parse, k);
      var s := HeadLoses(parse, n, t);
      HeadLost(parse, n, k, s);
    }
  }

  lemma HeadLost(parse: Parser, n: nat, k: nat, s: string)
    requires |s| <= k && UsageOf(parse, First(s, n)) == None && UsageOf(parse, s).Some?
    ensures !HeadKeeps(parse, n, k)
  {
    hide UsageOf; hide First;
    assert !KeptByHead(parse, n, s);
  }

}
