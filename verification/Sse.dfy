/** The SSE re-framers of the local gateway (cmd/candela/lm_handler.go): bytes
    arrive in arbitrary pieces, events ("...\n\n") leave whole and rewritten. */
module Sse {
  import opened Text
  import opened Wrappers

  type byte = b: int | 0 <= b < 256

  type Bytes = seq<byte>

  const NEWLINE: byte := 10

  const BLANK: Bytes := [NEWLINE, NEWLINE]

  // ----- framing a whole stream --------------------------------------------------

  datatype Framed = Framed(events: seq<Bytes>, rest: Bytes)

  /** The complete events of a stream, terminators included, and the unfinished tail. */
  ghost function Frames(s: Bytes): (f: Framed)
    decreases |s|
  {
    var i := Index(s, BLANK);
    if i < 0 then Framed([], s)
    else var f := Frames(s[i + 2..]); Framed([s[..i + 2]] + f.events, f.rest)
  }

  lemma FramesUnfold(s: Bytes, i: int)
    requires i == Index(s, BLANK)
    ensures i < 0 ==> Frames(s) == Framed([], s)
    ensures i >= 0 ==> Frames(s).events == [s[..i + 2]] + Frames(s[i + 2..]).events
    ensures i >= 0 ==> Frames(s).rest == Frames(s[i + 2..]).rest
  {
  }

  /** `Frames` partitions the stream: nothing lost or reordered, every event ends
      in a blank line and holds no earlier one, and the tail holds none. */
  lemma {:induction false} FramesPartition(s: Bytes)
    ensures Concat(Frames(s).events) + Frames(s).rest == s
    ensures forall e :: e in Frames(s).events ==> |e| >= 2 && Index(e, BLANK) == |e| - 2
    ensures Index(Frames(s).rest, BLANK) == -1
    decreases |s|
  {
    hide Frames; hide Index; hide IndexFrom; hide OccursAt; hide Concat;
    var i := Index(s, BLANK);
    FramesUnfold(s, i);
    if i < 0 {
      assert Concat<byte>([]) == [] by { ConcatNil<byte>(); }
    } else {
      var e, tail := s[..i + 2], s[i + 2..];
      FramesPartition(tail);
      IndexOfPrefix(s, BLANK);
      ConcatCons(e, Frames(tail).events);
      assert s == e + tail;
      assert e + Concat(Frames(tail).events) + Frames(tail).rest == e + (Concat(Frames(tail).events) + Frames(tail).rest);
    }
  }

  /** An event ends where two newlines follow one another for the first time. */
  lemma EventsEndBlank(s: Bytes, e: Bytes)
    requires e in Frames(s).events
    ensures |e| >= 2 && e[|e| - 2] == 10 && e[|e| - 1] == 10
    ensures forall k :: 0 <= k < |e| - 2 ==> !(e[k] == 10 && e[k + 1] == 10)
  {
    hide Frames; hide IndexFrom; hide Concat;
    FramesPartition(s);
    var n := |e| - 2;
    assert e[n..n + 2] == [e[n], e[n + 1]];
    forall k | 0 <= k < n ensures !(e[k] == 10 && e[k + 1] == 10) {
      assert e[k..k + 2] == [e[k], e[k + 1]];
      assert !OccursAt(e, BLANK, k);
    }
  }

  /** The heart of chunk independence: more input never moves a boundary already found. */
  lemma {:induction false} FramesAppend(s: Bytes, t: Bytes)
    ensures Frames(s + t).events == Frames(s).events + Frames(Frames(s).rest + t).events
    ensures Frames(s + t).rest == Frames(Frames(s).rest + t).rest
    decreases |s|
  {
    hide Frames; hide Index; hide IndexFrom; hide OccursAt;
    var i := Index(s, BLANK);
    FramesUnfold(s, i);
    if i >= 0 {
      IndexAppend(s, t, BLANK);
      FramesUnfold(s + t, i);
      assert (s + t)[i + 2..] == s[i + 2..] + t;
      assert (s + t)[..i + 2] == s[..i + 2];
      FramesAppend(s[i + 2..], t);
      var e, a, b := s[..i + 2], Frames(s[i + 2..]).events, Frames(Frames(s).rest + t).events;
      assert [e] + (a + b) == [e] + a + b;
    }
  }

  // ----- rewriting --------------------------------------------------------------------

  /** The per-event rewrite; suppressing an event is rewriting it to nothing. */
  type Rewrite = Bytes -> Bytes

  ghost function Emit(rewrite: Rewrite, events: seq<Bytes>): Bytes {
    if events == [] then [] else rewrite(events[0]) + Emit(rewrite, events[1..])
  }

  lemma {:induction false} EmitAppend(rewrite: Rewrite, a: seq<Bytes>, b: seq<Bytes>)
    ensures Emit(rewrite, a + b) == Emit(rewrite, a) + Emit(rewrite, b)
  {
    if a == [] {
      assert a + b == b;
    } else {
      assert (a + b)[1..] == a[1..] + b;
      EmitAppend(rewrite, a[1..], b);
    }
  }

  lemma EmitNothing(rewrite: Rewrite)
    ensures Emit(rewrite, []) == []
  {
  }

  lemma EmitSnoc(rewrite: Rewrite, a: seq<Bytes>, e: Bytes)
    ensures Emit(rewrite, a + [e]) == Emit(rewrite, a) + rewrite(e)
  {
    EmitAppend(rewrite, a, [e]);
    assert Emit(rewrite, [e][1..]) == [];
  }

  lemma {:induction false} EmitIdentity(rewrite: Rewrite, events: seq<Bytes>)
    requires forall e :: e in events ==> rewrite(e) == e
    ensures Emit(rewrite, events) == Concat(events)
  {
    if events != [] { EmitIdentity(rewrite, events[1..]); }
  }

  // ----- any sequence of writes -----------------------------------------------------------

  datatype Stream = Stream(sent: Bytes, buf: Bytes)

  /** One `Write`: what goes downstream, and what is held back. */
  ghost function Write(rewrite: Rewrite, st: Stream, b: Bytes): Stream {
    var f := Frames(st.buf + b);
    Stream(st.sent + Emit(rewrite, f.events), f.rest)
  }

  ghost function WriteAll(rewrite: Rewrite, chunks: seq<Bytes>): Stream {
    if chunks == [] then Stream([], [])
    else Write(rewrite, WriteAll(rewrite, chunks[..|chunks| - 1]), chunks[|chunks| - 1])
  }

  /** However the stream was cut, the result is that of framing it whole. */
  lemma {:induction false} ChunksDoNotMatter(rewrite: Rewrite, chunks: seq<Bytes>)
    ensures WriteAll(rewrite, chunks) == Stream(Emit(rewrite, Frames(Concat(chunks)).events), Frames(Concat(chunks)).rest)
  {
    if chunks == [] {
    } else {
      var init, last := chunks[..|chunks| - 1], chunks[|chunks| - 1];
      assert chunks == init + [last];
      ChunksDoNotMatter(rewrite, init);
      ConcatSnoc(init, last);
      FramesAppend(Concat(init), last);
      EmitAppend(rewrite, Frames(Concat(init)).events, Frames(Frames(Concat(init)).rest + last).events);
    }
  }

  /** Two cuttings of one stream: same bytes sent, same bytes held back, and no
      complete event among the latter. */
  lemma SameStreamSameOutput(rewrite: Rewrite, chunks: seq<Bytes>, chunks': seq<Bytes>)
    requires Concat(chunks) == Concat(chunks')
    ensures WriteAll(rewrite, chunks) == WriteAll(rewrite, chunks')
    ensures Index(WriteAll(rewrite, chunks).buf, BLANK) == -1
  {
    ChunksDoNotMatter(rewrite, chunks);
    ChunksDoNotMatter(rewrite, chunks');
    FramesPartition(Concat(chunks));
  }

  /** A rewrite that leaves the stream's events alone makes the re-framer transparent:
      sent plus held back is exactly the input. */
  lemma IdentityIsTransparent(rewrite: Rewrite, chunks: seq<Bytes>)
    requires forall e :: e in Frames(Concat(chunks)).events ==> rewrite(e) == e
    ensures var st := WriteAll(rewrite, chunks); st.sent + st.buf == Concat(chunks)
  {
    ChunksDoNotMatter(rewrite, chunks);
    FramesPartition(Concat(chunks));
    EmitIdentity(rewrite, Frames(Concat(chunks)).events);
  }

  // ----- the normalizers ---------------------------------------------------------------------

  /** The shared loop of both `Write` methods: cut complete events off the front. */
  method CutEvents(input: Bytes, rewrite: Rewrite) returns (out: Bytes, rest: Bytes)
    ensures rest == Frames(input).rest
    ensures out == Emit(rewrite, Frames(input).events)
  {
    hide Frames; hide Index; hide IndexFrom; hide OccursAt; hide Emit;
    EmitNothing(rewrite);
    out, rest := [], input;
    ghost var done: seq<Bytes> := [];
    while true
      invariant Frames(input).events == done + Frames(rest).events
      invariant Frames(input).rest == Frames(rest).rest
      invariant out == Emit(rewrite, done)
      decreases |rest|
    {
      var idx := Index(rest, BLANK);
      FramesUnfold(rest, idx);
      if idx == -1 {
        break;
      }
      var event := rest[..idx + 2];
      rest := rest[idx + 2..];
      var patched := rewrite(event);
      out := out + patched;
      EmitSnoc(rewrite, done, event);
      assert done + ([event] + Frames(rest).events) == (done + [event]) + Frames(rest).events;
      done := done + [event];
    }
    assert done + [] == done;
  }

  /** What a failing writer took of a write. */
  function Taken(out: Bytes, took: nat): Bytes {
    if took <= |out| then out[..took] else out
  }

  /** `sseLiteNormalizer`: header once, events rewritten, tail flushed on request. */
  class LiteNormalizer {
    const rewrite: Rewrite
    var buf: Bytes
    var wroteHeader: bool
    /** What the wrapped writer has received. */
    var statuses: seq<int>
    var sent: Bytes
    /** The writes so far, and whether one of them met a failing writer. */
    ghost var chunks: seq<Bytes>
    ghost var failed: bool

    ghost predicate Valid()
      reads this
    {
      && (if wroteHeader then |statuses| == 1 else statuses == [] && chunks == [])
      && buf == WriteAll(rewrite, chunks).buf
      && (!failed ==> sent == WriteAll(rewrite, chunks).sent)
    }

    constructor (rw: Rewrite)
      ensures Valid() && rewrite == rw && chunks == [] && !failed && sent == [] && statuses == []
    {
      rewrite := rw;
      buf, wroteHeader, statuses, sent, chunks, failed := [], false, [], [], [], false;
    }

    method WriteHeader(code: int)
      requires Valid()
      modifies `wroteHeader, `statuses
      ensures Valid() && wroteHeader
      ensures statuses == if old(wroteHeader) then old(statuses) else [code]
    {
      if wroteHeader {
        return;
      }
      wroteHeader := true;
      statuses := statuses + [code];
    }

    /** `up` says whether the wrapped writer accepts this write; one that fails may have
        taken the first `took` bytes. */
    method Write(b: Bytes, up: bool, took: nat) returns (n: nat, ok: bool)
      requires Valid()
      modifies this
      ensures Valid() && wroteHeader && chunks == old(chunks) + [b]
      ensures statuses == if old(wroteHeader) then old(statuses) else [200]
      ensures n == |b|
      ensures var out := Emit(rewrite, Frames(old(buf) + b).events);
        sent == old(sent) + if ok then out else Taken(out, took)
      ensures ok <==> up || Emit(rewrite, Frames(old(buf) + b).events) == []
      ensures failed <==> old(failed) || !ok
    {
      if !wroteHeader {
        WriteHeader(200);
      }
      assert (chunks + [b])[..|chunks|] == chunks;
      chunks := chunks + [b];
      n := |b|;
      var out, rest := CutEvents(buf + b, rewrite);
      buf := rest;
      if |out| > 0 {
        if !up {
          sent := sent + Taken(out, took);
          failed := true;
          return n, false;
        }
        sent := sent + out;
      }
      return n, true;
    }

    /** After the last write: the wrapped writer has the rewritten events and the
        unterminated tail, unless it fails now, and nothing is held back. The source
        ignores the failure. */
    method FlushRemaining(up: bool, took: nat)
      requires Valid()
      modifies `sent, `buf
      ensures buf == []
      ensures sent == old(sent) + if up then old(buf) else Taken(old(buf), took)
      ensures !failed && up ==> sent == Emit(rewrite, Frames(Concat(chunks)).events) + Frames(Concat(chunks)).rest
    {
      ChunksDoNotMatter(rewrite, chunks);
      if |buf| > 0 {
        if up {
          sent := sent + buf;
        } else {
          sent := sent + Taken(buf, took);
        }
        buf := [];
      }
    }
  }

  /** `sseNormalizer`: the rewrite may suppress an event altogether. */
  class Normalizer {
    const normalize: Bytes -> Option<Bytes>
    var buf: Bytes
    var sent: Bytes
    ghost var chunks: seq<Bytes>
    ghost var failed: bool

    ghost function Rewriting(): Rewrite {
      Suppressing(normalize)
    }

    ghost predicate Valid()
      reads this
    {
      && buf == WriteAll(Rewriting(), chunks).buf
      && (!failed ==> sent == WriteAll(Rewriting(), chunks).sent)
    }

    constructor (f: Bytes -> Option<Bytes>)
      ensures Valid() && normalize == f && chunks == [] && !failed && sent == []
    {
      normalize := f;
      buf, sent, chunks, failed := [], [], [], false;
    }

    method Write(b: Bytes, up: bool, took: nat) returns (n: nat, ok: bool)
      requires Valid()
      modifies this
      ensures Valid() && chunks == old(chunks) + [b]
      ensures n == |b|
      ensures var out := Emit(Rewriting(), Frames(old(buf) + b).events);
        sent == old(sent) + if ok then out else Taken(out, took)
      ensures ok <==> up || Emit(Rewriting(), Frames(old(buf) + b).events) == []
      ensures failed <==> old(failed) || !ok
    {
      assert (chunks + [b])[..|chunks|] == chunks;
      chunks := chunks + [b];
      n := |b|;
      var rewrite := Suppressing(normalize);
      var out, rest := CutEvents(buf + b, rewrite);
      buf := rest;
      if |out| > 0 {
        if !up {
          sent := sent + Taken(out, took);
          failed := true;
          return n, false;
        }
        sent := sent + out;
      }
      return n, true;
    }
  }

  /** A suppressed event leaves no bytes, any other the bytes it is rewritten to. */
  lemma SuppressingMeans(normalize: Bytes -> Option<Bytes>, event: Bytes)
    ensures normalize(event) == None ==> Suppressing(normalize)(event) == []
    ensures forall bytes :: normalize(event) == Some(bytes) ==> Suppressing(normalize)(event) == bytes
  {
  }

  function Suppressing(normalize: Bytes -> Option<Bytes>): Rewrite {
    event => match normalize(event) case Some(bytes) => bytes case None => []
  }
}
