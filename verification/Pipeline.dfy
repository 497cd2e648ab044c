/** The span pipeline (pkg/processor/processor.go) and the resilient writer in
    front of each sink (pkg/processor/resilient_writer.go), as state machines over
    their atomic steps. */
module Pipeline {
  import opened Breakers
  import opened Wrappers

  datatype GenAI = GenAI(provider: string, model: string, inputTokens: int, outputTokens: int, costUSD: real)

  datatype Span = Span(spanID: string, traceID: string, genAI: Option<GenAI>)

  /** The cost calculator, as seen from here. */
  type Price = (string, string, int, int) -> real

  /** Spans that arrive without a cost get one. */
  function Enrich(price: Price, s: Span): Span {
    if s.genAI.Some? && s.genAI.value.costUSD == 0.0 then
      var g := s.genAI.value;
      s.(genAI := Some(g.(costUSD := price(g.provider, g.model, g.inputTokens, g.outputTokens))))
    else s
  }

  /** Only a missing cost is filled in, with what the calculator charges for the span's
      provider, model, input and output tokens; nothing else of a span changes. */
  lemma EnrichFillsCost(price: Price, s: Span)
    ensures var e := Enrich(price, s);
      && e.spanID == s.spanID && e.traceID == s.traceID && e.genAI.Some? == s.genAI.Some?
      && (s.genAI.Some? ==>
           var g, g' := s.genAI.value, e.genAI.value;
           && g'.provider == g.provider && g'.model == g.model && g'.inputTokens == g.inputTokens && g'.outputTokens == g.outputTokens
           && g'.costUSD == (if g.costUSD != 0.0 then g.costUSD else price(g.provider, g.model, g.inputTokens, g.outputTokens)))
  {
  }

  ghost function EnrichAll(price: Price, spans: seq<Span>): (r: seq<Span>)
    ensures |r| == |spans| && forall i :: 0 <= i < |spans| ==> r[i] == Enrich(price, spans[i])
  {
    seq(|spans|, i requires 0 <= i < |spans| => Enrich(price, spans[i]))
  }

  // ----- one sink ----------------------------------------------------------------------

  /** A sink: breaker, bulkhead and counters, with the history of what it was given. */
  datatype Sink = Sink(
    cfg: Config,
    bulkhead: nat,              // concurrent writes allowed
    inFlight: nat,              // semaphore slots taken
    totalWrites: nat,
    totalFailures: nat,
    totalDropped: nat,
    events: seq<Event>,         // what the breaker has seen
    waiting: seq<seq<Span>>,    // past the breaker, not yet at the semaphore
    completed: nat,             // writes that came back
    offered: seq<Span>,
    attempted: seq<Span>,
    skipped: seq<Span>)

  ghost predicate CircuitAllows(s: Sink, now: int) {
    Admits(s.cfg, Run(ForSink, s.cfg, s.events), now)
  }

  /** First step of `IngestSpans`: ask the breaker; refusal drops the batch. */
  ghost function Check(s: Sink, spans: seq<Span>, now: int): Sink {
    var asked := s.(events := s.events + [Allow(now)], offered := s.offered + spans);
    if CircuitAllows(s, now) then asked.(waiting := s.waiting + [spans])
    else asked.(totalDropped := s.totalDropped + |spans|, skipped := s.skipped + spans)
  }

  /** Second step: try for a semaphore slot without blocking; a full bulkhead drops the batch. */
  ghost function Acquire(s: Sink, i: nat): Sink
    requires i < |s.waiting|
  {
    var spans := s.waiting[i];
    var s' := s.(waiting := s.waiting[..i] + s.waiting[i + 1..]);
    if s.inFlight < s.bulkhead
    then s'.(inFlight := s.inFlight + 1, totalWrites := s.totalWrites + 1, attempted := s.attempted + spans)
    else s'.(totalDropped := s.totalDropped + |spans|, skipped := s.skipped + spans)
  }

  /** Last step, on return of the wrapped writer: record the outcome, free the slot. */
  ghost function End(s: Sink, ok: bool, now: int): Sink
    requires s.inFlight > 0
  {
    s.(inFlight := s.inFlight - 1, completed := s.completed + 1,
       totalFailures := if ok then s.totalFailures else s.totalFailures + 1,
       events := s.events + [if ok then Success(now) else Failure(now)])
  }

  ghost function Failures(es: seq<Event>): nat {
    if es == [] then 0
    else if es[|es| - 1].Failure? then Failures(es[..|es| - 1]) + 1 else Failures(es[..|es| - 1])
  }

  ghost function Bag(batches: seq<seq<Span>>): multiset<Span> {
    if batches == [] then multiset{} else Bag(batches[..|batches| - 1]) + multiset(batches[|batches| - 1])
  }

  lemma BagSnoc(batches: seq<seq<Span>>, b: seq<Span>)
    ensures Bag(batches + [b]) == Bag(batches) + multiset(b)
  {
    assert (batches + [b])[..|batches|] == batches;
  }

  lemma {:induction false} BagRemove(batches: seq<seq<Span>>, i: nat)
    requires i < |batches|
    ensures Bag(batches) == Bag(batches[..i] + batches[i + 1..]) + multiset(batches[i])
  {
    var n := |batches| - 1;
    if i == n {
      assert batches[..i] + batches[i + 1..] == batches[..n];
    } else {
      BagRemove(batches[..n], i);
      assert batches[..i] + batches[i + 1..] == (batches[..n][..i] + batches[..n][i + 1..]) + [batches[n]];
      BagSnoc(batches[..n][..i] + batches[..n][i + 1..], batches[n]);
    }
  }

  ghost predicate Accounted(offered: seq<Span>, attempted: seq<Span>, skipped: seq<Span>, waiting: multiset<Span>) {
    multiset(offered) == multiset(attempted) + multiset(skipped) + waiting
  }

  lemma OneMoreBatch(offered: seq<Span>, attempted: seq<Span>, skipped: seq<Span>, waiting: multiset<Span>, b: seq<Span>)
    requires Accounted(offered, attempted, skipped, waiting)
    ensures Accounted(offered + b, attempted, skipped, waiting + multiset(b))
    ensures Accounted(offered + b, attempted, skipped + b, waiting)
  {
  }

  lemma OneBatchLess(offered: seq<Span>, attempted: seq<Span>, skipped: seq<Span>, waiting: multiset<Span>, b: seq<Span>)
    requires Accounted(offered, attempted, skipped, waiting + multiset(b))
    ensures Accounted(offered, attempted + b, skipped, waiting)
    ensures Accounted(offered, attempted, skipped + b, waiting)
  {
  }

  /** Every offered span was attempted, counted as dropped or is about to be, slots
      stay within the bulkhead, and the counters agree with the breaker's history. */
  ghost predicate SinkOk(s: Sink) {
    && s.bulkhead > 0 && s.inFlight <= s.bulkhead
    && Accounted(s.offered, s.attempted, s.skipped, Bag(s.waiting))
    && s.totalDropped == |s.skipped|
    && s.totalWrites == s.completed + s.inFlight
    && s.totalFailures == Failures(s.events)
    && s.completed == Failures(s.events) + Successes(s.events)
  }

  lemma Counted(es: seq<Event>, e: Event)
    ensures Failures(es + [e]) == Failures(es) + if e.Failure? then 1 else 0
    ensures Successes(es + [e]) == Successes(es) + if e.Success? then 1 else 0
  {
    assert (es + [e])[..|es|] == es;
  }

  lemma CheckKeepsSink(s: Sink, spans: seq<Span>, now: int)
    requires SinkOk(s)
    ensures SinkOk(Check(s, spans, now))
  {
    hide CircuitAllows; hide Bag; hide Accounted; hide Successes; hide Failures;
    Counted(s.events, Allow(now));
    BagSnoc(s.waiting, spans);
    OneMoreBatch(s.offered, s.attempted, s.skipped, Bag(s.waiting), spans);
  }

  lemma AcquireKeepsSink(s: Sink, i: nat)
    requires SinkOk(s) && i < |s.waiting|
    ensures SinkOk(Acquire(s, i))
  {
    hide Bag; hide Accounted;
    BagRemove(s.waiting, i);
    OneBatchLess(s.offered, s.attempted, s.skipped, Bag(s.waiting[..i] + s.waiting[i + 1..]), s.waiting[i]);
  }

  lemma EndKeepsSink(s: Sink, ok: bool, now: int)
    requires SinkOk(s) && s.inFlight > 0
    ensures SinkOk(End(s, ok, now))
  {
    Counted(s.events, if ok then Success(now) else Failure(now));
  }

  /** Steps of any number of concurrent `IngestSpans` calls. */
  datatype SinkStep = CheckStep(spans: seq<Span>, at: int) | AcquireStep(i: nat) | EndStep(ok: bool, at: int)

  ghost predicate SinkEnabled(s: Sink, step: SinkStep) {
    match step
    case CheckStep(_, _) => true
    case AcquireStep(i) => i < |s.waiting|
    case EndStep(_, _) => s.inFlight > 0
  }

  ghost function SinkNext(s: Sink, step: SinkStep): Sink
    requires SinkEnabled(s, step)
  {
    match step
    case CheckStep(spans, at) => Check(s, spans, at)
    case AcquireStep(i) => Acquire(s, i)
    case EndStep(ok, at) => End(s, ok, at)
  }

  ghost predicate IsSinkRun(s: Sink, steps: seq<SinkStep>)
    decreases |steps|
  {
    steps == [] || (SinkEnabled(s, steps[0]) && IsSinkRun(SinkNext(s, steps[0]), steps[1..]))
  }

  ghost function SinkRun(s: Sink, steps: seq<SinkStep>): Sink
    requires IsSinkRun(s, steps)
    decreases |steps|
  {
    if steps == [] then s else SinkRun(SinkNext(s, steps[0]), steps[1..])
  }

  /** Over every interleaving of concurrent writes: conservation, the bulkhead bound
      and exact counters. */
  lemma {:induction false} SinkConservation(s: Sink, steps: seq<SinkStep>)
    requires SinkOk(s) && IsSinkRun(s, steps)
    ensures SinkOk(SinkRun(s, steps))
    decreases |steps|
  {
    if steps != [] {
      match steps[0] {
        case CheckStep(spans, at) => CheckKeepsSink(s, spans, at);
        case AcquireStep(i) => AcquireKeepsSink(s, i);
        case EndStep(ok, at) => EndKeepsSink(s, ok, at);
      }
      SinkConservation(SinkNext(s, steps[0]), steps[1..]);
    }
  }

  /** The resilient writer object: breaker, semaphore and counters. */
  class ResilientWriter {
    const breaker: SinkBreaker
    const bulkheadSize: nat
    var semaphore: nat
    var totalWrites: nat
    var totalFailures: nat
    var totalDropped: nat
    ghost var model: Sink

    ghost predicate Valid()
      reads this, breaker
    {
      && breaker.Valid() && SinkOk(model)
      && model.cfg == breaker.cfg && model.events == breaker.history
      && model.bulkhead == bulkheadSize && model.inFlight == semaphore
      && model.totalWrites == totalWrites && model.totalFailures == totalFailures && model.totalDropped == totalDropped
    }

    constructor (bulkhead: int, c: Config)
      ensures Valid() && fresh(breaker)
      ensures bulkheadSize == if bulkhead <= 0 then 4 else bulkhead
      ensures model.offered == [] && model.inFlight == 0
    {
      var size := if bulkhead <= 0 then 4 else bulkhead;
      var b := new SinkBreaker(c);
      breaker, bulkheadSize := b, size;
      semaphore, totalWrites, totalFailures, totalDropped := 0, 0, 0, 0;
      model := Sink(b.cfg, size, 0, 0, 0, 0, [], [], 0, [], [], []);
    }

    /** The breaker check at the head of `IngestSpans`. */
    method PassBreaker(spans: seq<Span>, now: int) returns (proceed: bool)
      requires Valid()
      modifies this, breaker
      ensures Valid() && model == Check(old(model), spans, now)
      ensures proceed <==> CircuitAllows(old(model), now)
    {
      hide SinkOk;
      CheckKeepsSink(model, spans, now);
      model := Check(model, spans, now);
      var allowed := breaker.Allow(now);
      if !allowed {
        totalDropped := totalDropped + |spans|;
        return false;
      }
      return true;
    }

    /** The bulkhead, for the batch waiting at position `i`. */
    method PassBulkhead(spans: seq<Span>, ghost i: nat) returns (proceed: bool)
      requires Valid() && i < |model.waiting| && model.waiting[i] == spans
      modifies this
      ensures Valid() && model == Acquire(old(model), i)
      ensures proceed <==> old(model).inFlight < old(model).bulkhead
    {
      hide SinkOk;
      AcquireKeepsSink(model, i);
      model := Acquire(model, i);
      if semaphore >= bulkheadSize {
        totalDropped := totalDropped + |spans|;
        return false;
      }
      semaphore := semaphore + 1;
      totalWrites := totalWrites + 1;
      return true;
    }

    /** The outcome of the wrapped writer. */
    method Finish(ok: bool, now: int)
      requires Valid() && semaphore > 0
      modifies this, breaker
      ensures Valid() && model == End(old(model), ok, now)
    {
      hide SinkOk;
      EndKeepsSink(model, ok, now);
      model := End(model, ok, now);
      if !ok {
        totalFailures := totalFailures + 1;
        breaker.RecordFailure(now);
      } else {
        breaker.RecordSuccess(now);
      }
      semaphore := semaphore - 1;
    }
  }

  // ----- flushing a batch to the sinks --------------------------------------------------------

  /** What the environment does to one sink during a flush. */
  datatype Attempt = Attempt(at: int, ok: bool, returned: int)

  /** One whole `IngestSpans` call, nothing else running on the sink. */
  ghost function Deliver(s: Sink, spans: seq<Span>, a: Attempt): Sink {
    var s1 := Check(s, spans, a.at);
    if s1.waiting == [] then s1
    else
      var s2 := Acquire(s1, |s1.waiting| - 1);
      if s2.inFlight > 0 then End(s2, a.ok, a.returned) else s2
  }

  /** Between flushes a sink has nothing under way: each flush waits for its writers. */
  ghost predicate Quiet(s: Sink) {
    SinkOk(s) && s.inFlight == 0 && s.waiting == []
  }

  /** A lone delivery leaves the sink quiet, never meets a full bulkhead, and drops
      the batch exactly when the circuit refuses it. */
  lemma LoneDelivery(s: Sink, spans: seq<Span>, a: Attempt)
    requires Quiet(s)
    ensures var s' := Deliver(s, spans, a);
      && Quiet(s') && s'.offered == s.offered + spans
      && (if CircuitAllows(s, a.at) then s'.attempted == s.attempted + spans && s'.skipped == s.skipped
          else s'.skipped == s.skipped + spans && s'.attempted == s.attempted)
  {
    hide CircuitAllows; hide SinkOk;
    assert s.bulkhead > 0 by { BulkheadPositive(s); }
    CheckKeepsSink(s, spans, a.at);
    var s1 := Check(s, spans, a.at);
    if s1.waiting != [] {
      assert s1.waiting == [spans];
      AcquireKeepsSink(s1, 0);
      var s2 := Acquire(s1, 0);
      assert s2.waiting == [];
      EndKeepsSink(s2, a.ok, a.returned);
    }
  }

  lemma BulkheadPositive(s: Sink)
    requires SinkOk(s)
    ensures s.bulkhead > 0
  {
  }

  ghost function DeliverAll(sinks: seq<Sink>, spans: seq<Span>, env: seq<Attempt>): (r: seq<Sink>)
    requires |env| == |sinks|
    ensures |r| == |sinks| && forall i :: 0 <= i < |sinks| ==> r[i] == Deliver(sinks[i], spans, env[i])
  {
    seq(|sinks|, i requires 0 <= i < |sinks| => Deliver(sinks[i], spans, env[i]))
  }

  // ----- the pipeline ---------------------------------------------------------------------------

  datatype Phase = Running | Draining | Finished

  datatype State = State(
    queue: seq<Span>,           // the span channel
    batch: seq<Span>,
    dropped: nat,               // the dropped-spans counter
    phase: Phase,
    closed: bool,               // the channel is closed
    sinks: seq<Sink>,
    submitted: seq<Span>,
    accepted: seq<Span>,
    refused: seq<Span>,
    flushed: seq<Span>)

  datatype Settings = Settings(batchSize: nat, price: Price)

  datatype Move =
    | Submit(span: Span)
    | Receive(env: seq<Attempt>)    // the loop takes a span, flushing a full batch
    | Tick(env: seq<Attempt>)
    | Shutdown(close: bool)         // Stop closes the channel, cancellation does not
    | DrainOne
    | DrainEnd(env: seq<Attempt>)   // nothing left to drain: final flush

  ghost function Flush(c: Settings, p: State, env: seq<Attempt>): State
    requires |env| == |p.sinks|
  {
    if p.batch == [] then p
    else p.(batch := [], flushed := p.flushed + p.batch, sinks := DeliverAll(p.sinks, EnrichAll(c.price, p.batch), env))
  }

  ghost predicate Enabled(p: State, m: Move) {
    match m
    case Submit(_) => !p.closed
    case Receive(env) => p.phase == Running && p.queue != [] && |env| == |p.sinks|
    case Tick(env) => p.phase == Running && |env| == |p.sinks|
    case Shutdown(_) => p.phase == Running
    case DrainOne => p.phase == Draining && p.queue != []
    case DrainEnd(env) => p.phase == Draining && p.queue == [] && |env| == |p.sinks|
  }

  ghost function Take(p: State): State
    requires p.queue != []
  {
    p.(queue := p.queue[1..], batch := p.batch + [p.queue[0]])
  }

  ghost function Next(c: Settings, p: State, m: Move): State
    requires Enabled(p, m)
  {
    match m
    case Submit(span) =>
      var p' := p.(submitted := p.submitted + [span]);
      if |p.queue| < 10 * c.batchSize then p'.(queue := p.queue + [span], accepted := p.accepted + [span])
      else p'.(dropped := p.dropped + 1, refused := p.refused + [span])
    case Receive(env) =>
      var p' := Take(p);
      if |p'.batch| >= c.batchSize then Flush(c, p', env) else p'
    case Tick(env) => Flush(c, p, env)
    case Shutdown(close) => p.(phase := Draining, closed := p.closed || close)
    case DrainOne => Take(p)
    case DrainEnd(env) => Flush(c, p, env).(phase := Finished)
  }

  /** The pipeline's promises, in every reachable state. */
  ghost predicate Ok(c: Settings, p: State) {
    && c.batchSize > 0
    // spans leave in the order they were accepted, none lost and none invented
    && p.accepted == p.flushed + p.batch + p.queue
    && Accounted(p.submitted, p.accepted, p.refused, multiset{}) && p.dropped == |p.refused|
    // bounded buffering
    && |p.queue| <= 10 * c.batchSize
    && (p.phase == Running ==> |p.batch| < c.batchSize)
    // a closed channel ends drained and flushed
    && (p.phase == Finished ==> p.batch == [] && (p.closed ==> p.queue == []))
    // every sink was offered exactly the flushed spans, enriched, in order
    && (forall i :: 0 <= i < |p.sinks| ==> Quiet(p.sinks[i]) && p.sinks[i].offered == EnrichAll(c.price, p.flushed))
  }

  lemma FlushSinks(c: Settings, p: State, env: seq<Attempt>, i: nat)
    requires |env| == |p.sinks| && p.batch != [] && i < |p.sinks|
    requires Quiet(p.sinks[i]) && p.sinks[i].offered == EnrichAll(c.price, p.flushed)
    ensures var s := Flush(c, p, env).sinks[i];
      Quiet(s) && s.offered == EnrichAll(c.price, p.flushed + p.batch)
  {
    hide Quiet; hide Deliver;
    LoneDelivery(p.sinks[i], EnrichAll(c.price, p.batch), env[i]);
    assert EnrichAll(c.price, p.flushed) + EnrichAll(c.price, p.batch) == EnrichAll(c.price, p.flushed + p.batch);
  }

  lemma FlushKeeps(c: Settings, p: State, env: seq<Attempt>)
    requires |env| == |p.sinks| && c.batchSize > 0 && p.accepted == p.flushed + p.batch + p.queue
    requires forall i :: 0 <= i < |p.sinks| ==> Quiet(p.sinks[i]) && p.sinks[i].offered == EnrichAll(c.price, p.flushed)
    ensures var p' := Flush(c, p, env);
      && p'.batch == [] && p' == p.(batch := [], flushed := p'.flushed, sinks := p'.sinks)
      && p'.accepted == p'.flushed + p'.queue
      && forall i :: 0 <= i < |p'.sinks| ==> Quiet(p'.sinks[i]) && p'.sinks[i].offered == EnrichAll(c.price, p'.flushed)
  {
    hide Quiet; hide EnrichAll; hide Deliver; hide DeliverAll;
    if p.batch != [] {
      forall i | 0 <= i < |p.sinks|
        ensures Quiet(Flush(c, p, env).sinks[i]) && Flush(c, p, env).sinks[i].offered == EnrichAll(c.price, p.flushed + p.batch)
      {
        FlushSinks(c, p, env, i);
      }
    } else {
      assert p.flushed + p.batch == p.flushed;
    }
  }

  /** Every step keeps every promise. */
  lemma StepKeepsOk(c: Settings, p: State, m: Move)
    requires Ok(c, p) && Enabled(p, m)
    ensures Ok(c, Next(c, p, m))
  {
    hide Quiet; hide EnrichAll; hide Flush; hide Accounted;
    match m
    case Submit(span) => SubmitKeepsOk(c, p, span);
    case Receive(env) =>
      TakeKeepsOrder(p);
      FlushKeeps(c, Take(p), env);
    case Tick(env) => FlushKeeps(c, p, env);
    case Shutdown(_) =>
    case DrainOne => TakeKeepsOrder(p);
    case DrainEnd(env) => FlushKeeps(c, p, env);
  }

  lemma SubmitKeepsOk(c: Settings, p: State, span: Span)
    requires Ok(c, p) && !p.closed
    ensures Ok(c, Next(c, p, Submit(span)))
  {
    hide Quiet; hide EnrichAll; hide Accounted;
    Widen(p, span);
    OneBatchLess(p.submitted + [span], p.accepted, p.refused, multiset{}, [span]);
    if |p.queue| < 10 * c.batchSize {
      assert p.accepted + [span] == p.flushed + p.batch + (p.queue + [span]);
    }
  }

  lemma Widen(p: State, span: Span)
    requires Accounted(p.submitted, p.accepted, p.refused, multiset{})
    ensures Accounted(p.submitted + [span], p.accepted, p.refused, multiset([span]))
    ensures multiset{} + multiset([span]) == multiset([span])
  {
  }

  lemma TakeKeepsOrder(p: State)
    requires p.queue != [] && p.accepted == p.flushed + p.batch + p.queue
    ensures p.accepted == p.flushed + Take(p).batch + Take(p).queue
  {
    assert p.queue == [p.queue[0]] + p.queue[1..];
  }

  ghost predicate IsRun(c: Settings, p: State, ms: seq<Move>)
    decreases |ms|
  {
    ms == [] || (Enabled(p, ms[0]) && IsRun(c, Next(c, p, ms[0]), ms[1..]))
  }

  ghost function Final(c: Settings, p: State, ms: seq<Move>): State
    requires IsRun(c, p, ms)
    decreases |ms|
  {
    if ms == [] then p else Final(c, Next(c, p, ms[0]), ms[1..])
  }

  ghost predicate Fresh(c: Settings, p: State) {
    && c.batchSize > 0 && p == State([], [], 0, Running, false, p.sinks, [], [], [], [])
    && forall i :: 0 <= i < |p.sinks| ==> Quiet(p.sinks[i]) && p.sinks[i].offered == []
  }

  /** Pipeline conservation, over every interleaving of submitters, the loop, its
      ticker and shutdown. */
  lemma PipelineConservation(c: Settings, p: State, ms: seq<Move>)
    requires Fresh(c, p) && IsRun(c, p, ms)
    ensures Ok(c, Final(c, p, ms))
  {
    RunKeepsOk(c, p, ms);
  }

  lemma {:induction false} RunKeepsOk(c: Settings, p: State, ms: seq<Move>)
    requires Ok(c, p) && IsRun(c, p, ms)
    ensures Ok(c, Final(c, p, ms))
    decreases |ms|
  {
    hide Ok; hide Next; hide Enabled;
    if ms != [] {
      StepKeepsOk(c, p, ms[0]);
      RunKeepsOk(c, Next(c, p, ms[0]), ms[1..]);
    }
  }

  /** When the moves do what: a span is refused only by a full queue, a received span
      triggers a flush exactly when it completes a batch, a tick flushes whatever there
      is, and only a stop closes the channel. */
  lemma MovesWhen(c: Settings, p: State, m: Move)
    requires Ok(c, p) && Enabled(p, m)
    ensures var p' := Next(c, p, m);
      match m
      case Submit(span) =>
        if |p.queue| == 10 * c.batchSize then p'.refused == p.refused + [span] && p'.queue == p.queue
        else p'.queue == p.queue + [span] && p'.accepted == p.accepted + [span] && p'.refused == p.refused
      case Receive(_) =>
        && p'.queue == p.queue[1..]
        && (if |p.batch| + 1 == c.batchSize then p'.flushed == p.flushed + p.batch + [p.queue[0]] && p'.batch == []
            else p'.flushed == p.flushed && p'.batch == p.batch + [p.queue[0]])
      case Tick(_) => p'.flushed == p.flushed + p.batch && p'.batch == [] && p'.queue == p.queue
      case Shutdown(close) => p'.phase == Draining && p'.closed == (p.closed || close) && p'.flushed == p.flushed
      case DrainOne => p'.phase == Draining && p'.queue == p.queue[1..] && p'.flushed == p.flushed
      case DrainEnd(_) => p'.phase == Finished && p'.batch == []
  {
    hide Quiet; hide EnrichAll; hide DeliverAll;
  }

  /** The moment the loop returns, everything accepted so far has been flushed. */
  lemma DrainFlushesEverything(c: Settings, p: State, env: seq<Attempt>)
    requires Ok(c, p) && Enabled(p, DrainEnd(env))
    ensures var p' := Next(c, p, DrainEnd(env)); p'.phase == Finished && p'.flushed == p'.accepted
  {
    hide Quiet; hide EnrichAll; hide Flush;
    FlushKeeps(c, p, env);
  }

  /** One whole `IngestSpans` call on a writer nobody else is using. */
  method IngestSpans(w: ResilientWriter, spans: seq<Span>, a: Attempt)
    requires w.Valid() && Quiet(w.model)
    modifies w, w.breaker
    ensures w.Valid() && w.model == Deliver(old(w.model), spans, a)
  {
    hide SinkOk; hide CircuitAllows;
    var passed := w.PassBreaker(spans, a.at);
    if !passed {
      return;
    }
    assert w.model.waiting == [spans];
    ghost var waiting := w.model;
    var admitted := w.PassBulkhead(spans, 0);
    if !admitted {
      return;
    }
    w.Finish(a.ok, a.returned);
  }

  // ----- the processor object ----------------------------------------------------------------------

  class SpanProcessor {
    const settings: Settings
    const writers: seq<ResilientWriter>
    var spanCh: seq<Span>
    var batch: seq<Span>
    var droppedSpans: nat
    var phase: Phase
    var closed: bool
    ghost var submitted: seq<Span>
    ghost var accepted: seq<Span>
    ghost var refused: seq<Span>
    ghost var flushed: seq<Span>

    ghost function Parts(): set<object>
    {
      (set i | 0 <= i < |writers| :: writers[i] as object) + (set i | 0 <= i < |writers| :: writers[i].breaker as object)
    }

    /** No two writers share a breaker or are one another. */
    ghost predicate Separate()
    {
      forall i, j :: 0 <= i < j < |writers| ==> writers[i] != writers[j] && writers[i].breaker != writers[j].breaker
    }

    ghost function Models(): (r: seq<Sink>)
      reads writers
      ensures |r| == |writers|
    {
      seq(|writers|, i requires 0 <= i < |writers| reads writers => writers[i].model)
    }

    ghost function View(): State
      reads this, writers
    {
      State(spanCh, batch, droppedSpans, phase, closed, Models(), submitted, accepted, refused, flushed)
    }

    ghost predicate WritersValid()
      reads writers, Parts()
    {
      Separate() && forall i :: 0 <= i < |writers| ==> writers[i].Valid()
    }

    ghost predicate Valid()
      reads this, writers, Parts()
    {
      WritersValid() && Ok(settings, View())
    }

    constructor (ws: seq<ResilientWriter>, price: Price, batchSize: int)
      requires forall i, j :: 0 <= i < j < |ws| ==> ws[i] != ws[j] && ws[i].breaker != ws[j].breaker
      requires forall i :: 0 <= i < |ws| ==> ws[i].Valid() && Quiet(ws[i].model) && ws[i].model.offered == []
      ensures Valid() && writers == ws && settings.price == price
      ensures settings.batchSize == if batchSize <= 0 then 100 else batchSize
      ensures View() == State([], [], 0, Running, false, Models(), [], [], [], [])
    {
      settings := Settings(if batchSize <= 0 then 100 else batchSize, price);
      writers := ws;
      spanCh, batch, droppedSpans, phase, closed := [], [], 0, Running, false;
      submitted, accepted, refused, flushed := [], [], [], [];
      new;
      hide Quiet; hide ResilientWriter.Valid;
      assert EnrichAll(settings.price, []) == [];
    }

    /** Submitting to a closed channel panics. */
    method Submit(span: Span) returns (panicked: bool)
      requires Valid()
      modifies this
      ensures Valid() && (panicked <==> old(closed))
      ensures View() == if panicked then old(View()) else Next(settings, old(View()), Move.Submit(span))
    {
      hide Valid; hide Next; hide View;
      if closed {
        return true;
      }
      Send(span);
      return false;
    }

    /** Non-blocking send: a full channel costs the span, counted. */
    method Send(span: Span)
      requires Valid() && !closed
      modifies this
      ensures Valid() && View() == Next(settings, old(View()), Move.Submit(span))
    {
      hide Ok;
      StepKeepsOk(settings, View(), Move.Submit(span));
      submitted := submitted + [span];
      if |spanCh| < 10 * settings.batchSize {
        spanCh := spanCh + [span];
        accepted := accepted + [span];
      } else {
        droppedSpans := droppedSpans + 1;
        refused := refused + [span];
      }
    }

    /** Cost enrichment, in place. */
    method EnrichBatch()
      modifies `batch
      ensures batch == EnrichAll(settings.price, old(batch))
    {
      for i := 0 to |batch|
        invariant |batch| == |old(batch)|
        invariant forall k :: 0 <= k < |batch| ==> batch[k] == if k < i then Enrich(settings.price, old(batch)[k]) else old(batch)[k]
      {
        batch := batch[i := Enrich(settings.price, batch[i])];
      }
    }

    /** Fan-out: every writer gets the batch, each on its own. */
    method FanOut(spans: seq<Span>, env: seq<Attempt>)
      requires WritersValid() && |env| == |writers|
      requires forall i :: 0 <= i < |writers| ==> Quiet(writers[i].model)
      modifies Parts()
      ensures WritersValid()
      ensures Models() == DeliverAll(old(Models()), spans, env)
    {
      hide Quiet; hide Deliver; hide SinkOk; hide Run; hide ResilientWriter.Valid;
      for n := 0 to |writers|
        invariant WritersValid()
        invariant forall i :: 0 <= i < n ==> writers[i].model == Deliver(old(writers[i].model), spans, env[i])
        invariant forall i :: n <= i < |writers| ==> writers[i].model == old(writers[i].model)
      {
        IngestSpans(writers[n], spans, env[n]);
      }
    }

    /** The `flush` closure. */
    method FlushBatch(env: seq<Attempt>)
      requires WritersValid() && |env| == |writers|
      requires forall i :: 0 <= i < |writers| ==> Quiet(writers[i].model)
      modifies `batch, `flushed, Parts()
      ensures WritersValid() && View() == Flush(settings, old(View()), env)
    {
      hide Quiet; hide Deliver; hide SinkOk; hide Run; hide ResilientWriter.Valid;
      if |batch| == 0 {
        return;
      }
      flushed := flushed + batch;
      EnrichBatch();
      FanOut(batch, env);
      batch := [];
    }

    lemma SinksQuiet()
      requires Ok(settings, View())
      ensures forall i :: 0 <= i < |writers| ==> Quiet(writers[i].model)
    {
      hide Quiet; hide EnrichAll;
      forall i | 0 <= i < |writers| ensures Quiet(writers[i].model) {
        assert Models()[i] == writers[i].model;
      }
    }

    /** The loop takes a span from the channel and flushes a full batch. */
    method Receive(env: seq<Attempt>)
      requires Valid() && phase == Running && spanCh != [] && |env| == |writers|
      modifies this, Parts()
      ensures Valid() && View() == Next(settings, old(View()), Move.Receive(env))
    {
      hide Quiet; hide Deliver; hide SinkOk; hide Run; hide ResilientWriter.Valid; hide Ok; hide DeliverAll; hide EnrichAll;
      SinksQuiet();
      StepKeepsOk(settings, View(), Move.Receive(env));
      batch := batch + [spanCh[0]];
      spanCh := spanCh[1..];
      if |batch| >= settings.batchSize {
        FlushBatch(env);
      }
    }

    method Tick(env: seq<Attempt>)
      requires Valid() && phase == Running && |env| == |writers|
      modifies this, Parts()
      ensures Valid() && View() == Next(settings, old(View()), Move.Tick(env))
    {
      hide Quiet; hide Deliver; hide SinkOk; hide Run; hide ResilientWriter.Valid; hide Ok; hide DeliverAll; hide EnrichAll;
      SinksQuiet();
      StepKeepsOk(settings, View(), Move.Tick(env));
      FlushBatch(env);
    }

    /** Stop or cancellation observed by the loop: from here on it only drains. */
    method Shutdown(close: bool)
      requires Valid() && phase == Running
      modifies this
      ensures Valid() && View() == Next(settings, old(View()), Move.Shutdown(close))
    {
      hide Ok; hide ResilientWriter.Valid;
      StepKeepsOk(settings, View(), Move.Shutdown(close));
      phase := Draining;
      if close {
        closed := true;
      }
    }

    /** Both drain paths, no submitter interfering: the channel is emptied into one
        final batch, which is flushed; nothing accepted is left behind. */
    method Drain(env: seq<Attempt>)
      requires Valid() && phase == Draining && |env| == |writers|
      modifies this, Parts()
      ensures Valid() && phase == Finished && closed == old(closed)
      ensures accepted == old(accepted) == flushed && spanCh == [] && batch == []
      ensures droppedSpans == old(droppedSpans) && submitted == old(submitted)
    {
      hide Quiet; hide Deliver; hide SinkOk; hide Run; hide ResilientWriter.Valid; hide Ok; hide DeliverAll; hide EnrichAll;
      while |spanCh| > 0
        invariant Valid() && phase == Draining && closed == old(closed)
        invariant accepted == old(accepted) && submitted == old(submitted) && droppedSpans == old(droppedSpans)
        invariant Models() == old(Models())
        decreases |spanCh|
      {
        StepKeepsOk(settings, View(), DrainOne);
        batch := batch + [spanCh[0]];
        spanCh := spanCh[1..];
      }
      SinksQuiet();
      StepKeepsOk(settings, View(), DrainEnd(env));
      DrainFlushesEverything(settings, View(), env);
      FlushEmpties(settings, View(), env);
      FlushBatch(env);
      phase := Finished;
    }
  }

  lemma FlushEmpties(c: Settings, p: State, env: seq<Attempt>)
    requires |env| == |p.sinks|
    ensures Flush(c, p, env).batch == []
  {
  }
}
