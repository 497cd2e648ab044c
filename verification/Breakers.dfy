/** The two circuit breakers: the sink breaker of the span pipeline
    (pkg/processor/circuit_breaker.go) and the per-provider breaker of the proxy
    (pkg/proxy/circuit_breaker.go). Times come from the caller. */
module Breakers {

  datatype CircuitState = Closed | Open | HalfOpen

  datatype Config = Config(threshold: int, resetTimeout: int, halfOpenMax: int)

  /** Which of the two breakers: they differ in what a failure does. */
  datatype Kind = ForSink | ForProvider

  datatype Event = Allow(at: int) | Success(at: int) | Failure(at: int)

  datatype Breaker = Breaker(state: CircuitState, failures: int, successes: int, lastFailure: int)

  const INITIAL: Breaker := Breaker(Closed, 0, 0, 0)

  const SECOND: int := 1_000_000_000

  ghost predicate Positive(c: Config) {
    c.threshold > 0 && c.resetTimeout > 0 && c.halfOpenMax > 0
  }

  // ----- one step --------------------------------------------------------------

  function Admits(c: Config, b: Breaker, at: int): bool {
    b.state != Open || at - b.lastFailure > c.resetTimeout
  }

  function Step(kind: Kind, c: Config, b: Breaker, e: Event): Breaker {
    match e
    case Allow(at) =>
      if b.state == Open && Admits(c, b, at) then b.(state := HalfOpen, successes := 0) else b
    case Success(_) =>
      if b.state != HalfOpen then b.(failures := 0)
      else b.(failures := 0, successes := b.successes + 1,
              state := if b.successes + 1 >= c.halfOpenMax then Closed else HalfOpen)
    case Failure(at) =>
      var n := if b.failures <= c.threshold then b.failures + 1 else b.failures;
      var trips := n >= c.threshold || (kind == ForSink && b.state == HalfOpen);
      b.(failures := n, lastFailure := at, state := if trips then Open else b.state)
  }

  /** The breaker after a whole history of events. */
  ghost function Run(kind: Kind, c: Config, es: seq<Event>): Breaker {
    if es == [] then INITIAL
    else Step(kind, c, Run(kind, c, es[..|es| - 1]), es[|es| - 1])
  }

  lemma RunSnoc(kind: Kind, c: Config, es: seq<Event>, e: Event)
    ensures Run(kind, c, es + [e]) == Step(kind, c, Run(kind, c, es), e)
  {
    assert (es + [e])[..|es|] == es;
  }

  // ----- reading a history -------------------------------------------------------

  /** Failures recorded since the last success. */
  ghost function Streak(es: seq<Event>): nat {
    if es == [] then 0
    else match es[|es| - 1]
      case Success(_) => 0
      case Failure(_) => 1 + Streak(es[..|es| - 1])
      case Allow(_) => Streak(es[..|es| - 1])
  }

  /** Position of the last failure, or -1. */
  ghost function LastFailure(es: seq<Event>): (i: int)
    ensures -1 <= i < |es|
    ensures i >= 0 ==> es[i].Failure?
    ensures forall k :: i < k < |es| ==> !es[k].Failure?
  {
    if es == [] then -1
    else if es[|es| - 1].Failure? then |es| - 1
    else LastFailure(es[..|es| - 1])
  }

  ghost function Successes(es: seq<Event>): nat {
    if es == [] then 0
    else Successes(es[..|es| - 1]) + if es[|es| - 1].Success? then 1 else 0
  }

  ghost predicate ClockMonotone(es: seq<Event>) {
    forall i, j :: 0 <= i <= j < |es| ==> es[i].at <= es[j].at
  }

  // ----- the sink breaker over whole runs ---------------------------------------------

  /** The failure counter is the capped streak, and a closed circuit is below threshold. */
  lemma {:induction false} CounterIsStreak(c: Config, es: seq<Event>)
    requires Positive(c)
    ensures var b := Run(ForSink, c, es);
      && b.failures == (if Streak(es) <= c.threshold then Streak(es) else c.threshold + 1)
      && (b.state == Closed ==> Streak(es) < c.threshold)
  {
    if es != [] { CounterIsStreak(c, es[..|es| - 1]); }
  }

  /** The remembered failure time is that of the last failure, and an open circuit has one. */
  lemma {:induction false} RemembersLastFailure(kind: Kind, c: Config, es: seq<Event>)
    requires Positive(c)
    ensures LastFailure(es) >= 0 ==> Run(kind, c, es).lastFailure == es[LastFailure(es)].at
    ensures Run(kind, c, es).state != Closed ==> LastFailure(es) >= 0
  {
    if es != [] { RemembersLastFailure(kind, c, es[..|es| - 1]); }
  }

  /** Closed circuits open exactly at the threshold-th consecutive failure, and go nowhere else. */
  lemma OpensAtThreshold(c: Config, es: seq<Event>, e: Event)
    requires Positive(c) && Run(ForSink, c, es).state == Closed
    ensures Run(ForSink, c, es + [e]).state == Open <==> e.Failure? && Streak(es + [e]) == c.threshold
    ensures Run(ForSink, c, es + [e]).state != HalfOpen
  {
    RunSnoc(ForSink, c, es, e);
    CounterIsStreak(c, es);
    assert (es + [e])[..|es|] == es;
  }

  /** Open circuits are left only by a write more than the reset timeout after
      the last failure, and then for half-open. */
  lemma LeavesOpenAfterTimeout(kind: Kind, c: Config, es: seq<Event>, e: Event)
    requires Positive(c) && Run(kind, c, es).state == Open
    ensures LastFailure(es) >= 0
    ensures var after := Run(kind, c, es + [e]).state;
      && (after == HalfOpen <==> e.Allow? && e.at - es[LastFailure(es)].at > c.resetTimeout)
      && after != Closed
  {
    RunSnoc(kind, c, es, e);
    RemembersLastFailure(kind, c, es);
  }

  /** A write is refused exactly within the reset timeout of the failure that
      last kept the circuit open. */
  lemma RefusesOnlyAfterFailure(kind: Kind, c: Config, es: seq<Event>, at: int)
    requires Positive(c)
    requires ClockMonotone(es + [Allow(at)])
    ensures !Admits(c, Run(kind, c, es), at) <==>
              Run(kind, c, es).state == Open && LastFailure(es) >= 0
              && 0 <= at - es[LastFailure(es)].at <= c.resetTimeout
  {
    RemembersLastFailure(kind, c, es);
    var i := LastFailure(es);
    if i >= 0 {
      var all := es + [Allow(at)];
      assert all[i].at <= all[|es|].at;
    }
  }

  /** The half-open episode that `es` ends in began at the write number `k`. */
  ghost predicate ProbingSince(c: Config, es: seq<Event>, k: nat) {
    && k < |es| && es[k].Allow?
    && Run(ForSink, c, es[..k]).state == Open
    && (forall j :: k < j <= |es| ==> Run(ForSink, c, es[..j]).state == HalfOpen)
    && (forall j :: k < j < |es| ==> !es[j].Failure?)
    && Run(ForSink, c, es).successes == Successes(es[k + 1..]) < c.halfOpenMax
  }

  /** A half-open breaker came from an open one by a write, or stays half-open
      without a failure, counting successes. */
  lemma HalfOpenBefore(c: Config, es: seq<Event>, e: Event)
    requires Run(ForSink, c, es + [e]).state == HalfOpen
    ensures var b, b' := Run(ForSink, c, es), Run(ForSink, c, es + [e]);
      || (b.state == Open && e.Allow? && b'.successes == 0)
      || (b.state == HalfOpen && !e.Failure? && b'.successes == b.successes + (if e.Success? then 1 else 0)
          && (e.Success? ==> b'.successes < c.halfOpenMax))
  {
    RunSnoc(ForSink, c, es, e);
  }

  lemma SuccessesSnoc(es: seq<Event>, e: Event)
    ensures Successes(es + [e]) == Successes(es) + if e.Success? then 1 else 0
  {
    assert (es + [e])[..|es|] == es;
  }

  lemma EpisodeGrows(c: Config, es: seq<Event>, e: Event, k: nat)
    requires ProbingSince(c, es, k) && Run(ForSink, c, es + [e]).state == HalfOpen
    ensures ProbingSince(c, es + [e], k)
  {
    hide Run; hide Successes;
    var es' := es + [e];
    HalfOpenBefore(c, es, e);
    SuccessesSnoc(es[k + 1..], e);
    assert es'[k + 1..] == es[k + 1..] + [e];
    assert es'[..k] == es[..k] && es'[..|es'|] == es' && es[..|es|] == es;
    forall j | k < j <= |es'| ensures Run(ForSink, c, es'[..j]).state == HalfOpen {
      if j <= |es| { assert es'[..j] == es[..j]; }
    }
  }

  lemma {:induction false} HalfOpenEpisode(c: Config, es: seq<Event>) returns (k: nat)
    requires Positive(c) && Run(ForSink, c, es).state == HalfOpen
    ensures ProbingSince(c, es, k)
  {
    assert es != [];
    var es', e := es[..|es| - 1], es[|es| - 1];
    assert es == es' + [e];
    HalfOpenBefore(c, es', e);
    if Run(ForSink, c, es').state == Open {
      k := |es'|;
      assert es[..|es|] == es && es[k + 1..] == [];
    } else {
      k := HalfOpenEpisode(c, es');
      EpisodeGrows(c, es', e, k);
    }
  }

  /** Half-open circuits close exactly when the success completes `halfOpenMax`
      successes of one episode without a failure; a failure reopens at once. */
  lemma ClosesAfterProbes(c: Config, es: seq<Event>, e: Event) returns (k: nat)
    requires Positive(c) && Run(ForSink, c, es).state == HalfOpen
    ensures ProbingSince(c, es, k)
    ensures Run(ForSink, c, es + [e]).state == Closed <==> e.Success? && Successes(es[k + 1..]) + 1 == c.halfOpenMax
    ensures Run(ForSink, c, es + [e]).state == Open <==> e.Failure?
  {
    k := HalfOpenEpisode(c, es);
    RunSnoc(ForSink, c, es, e);
  }

  // ----- the two breakers side by side -----------------------------------------------------

  /** Where the two part: a half-open failure whose streak is still below the threshold. */
  ghost predicate PartsAt(c: Config, es: seq<Event>, i: nat)
    requires i < |es|
  {
    es[i].Failure? && Run(ForSink, c, es[..i]).state == HalfOpen && Streak(es[..i + 1]) < c.threshold
  }

  ghost predicate InLockStep(c: Config, es: seq<Event>) {
    forall i :: 0 <= i <= |es| ==> Run(ForSink, c, es[..i]) == Run(ForProvider, c, es[..i])
  }

  /** One more event keeps lock-step exactly when the breakers do not part at it. */
  lemma LockStepStep(c: Config, es: seq<Event>, i: nat)
    requires Positive(c) && i < |es| && Run(ForSink, c, es[..i]) == Run(ForProvider, c, es[..i])
    ensures Run(ForSink, c, es[..i + 1]) == Run(ForProvider, c, es[..i + 1]) <==> !PartsAt(c, es, i)
  {
    assert es[..i + 1] == es[..i] + [es[i]];
    RunSnoc(ForSink, c, es[..i], es[i]);
    RunSnoc(ForProvider, c, es[..i], es[i]);
    CounterIsStreak(c, es[..i + 1]);
  }

  /** The exact condition: a run keeps the breakers in lock-step iff they never part. */
  lemma {:induction false} LockStepIff(c: Config, es: seq<Event>)
    requires Positive(c)
    ensures InLockStep(c, es) <==> forall i :: 0 <= i < |es| ==> !PartsAt(c, es, i)
  {
    if InLockStep(c, es) {
      forall i | 0 <= i < |es| ensures !PartsAt(c, es, i) { LockStepStep(c, es, i); }
    }
    if forall i :: 0 <= i < |es| ==> !PartsAt(c, es, i) {
      LockStepUpTo(c, es, |es|);
    }
  }

  lemma {:induction false} LockStepUpTo(c: Config, es: seq<Event>, n: nat)
    requires Positive(c) && n <= |es|
    requires forall i :: 0 <= i < |es| ==> !PartsAt(c, es, i)
    ensures forall i :: 0 <= i <= n ==> Run(ForSink, c, es[..i]) == Run(ForProvider, c, es[..i])
  {
    if n == 0 {
      assert es[..0] == [];
    } else {
      LockStepUpTo(c, es, n - 1);
      LockStepStep(c, es, n - 1);
    }
  }

  /** Parting shows: until the reset timeout is over, the sink breaker refuses what
      the provider breaker admits. */
  lemma PartingIsVisible(c: Config, es: seq<Event>, i: nat, at: int)
    requires Positive(c) && i < |es| && PartsAt(c, es, i)
    requires Run(ForSink, c, es[..i]) == Run(ForProvider, c, es[..i])
    ensures Admits(c, Run(ForSink, c, es[..i + 1]), at) <==> at > es[i].at + c.resetTimeout
    ensures Admits(c, Run(ForProvider, c, es[..i + 1]), at)
  {
    assert es[..i + 1] == es[..i] + [es[i]];
    RunSnoc(ForSink, c, es[..i], es[i]);
    RunSnoc(ForProvider, c, es[..i], es[i]);
    CounterIsStreak(c, es[..i + 1]);
  }

  /** At every point of the run, a request made then or later gets one answer from both. */
  ghost predicate SameDecisions(c: Config, es: seq<Event>) {
    forall i, at :: 0 <= i <= |es| && (i > 0 ==> es[i - 1].at <= at) ==>
      (Admits(c, Run(ForSink, c, es[..i]), at) <==> Admits(c, Run(ForProvider, c, es[..i]), at))
  }

  lemma {:induction false} FirstDifference(c: Config, es: seq<Event>, n: nat) returns (i: nat)
    requires n <= |es| && Run(ForSink, c, es[..n]) != Run(ForProvider, c, es[..n])
    ensures i < n && Run(ForSink, c, es[..i]) == Run(ForProvider, c, es[..i])
    ensures Run(ForSink, c, es[..i + 1]) != Run(ForProvider, c, es[..i + 1])
  {
    assert es[..0] == [];
    if Run(ForSink, c, es[..n - 1]) == Run(ForProvider, c, es[..n - 1]) {
      i := n - 1;
    } else {
      i := FirstDifference(c, es, n - 1);
    }
  }

  /** The exact condition, on decisions: both breakers decide alike throughout a run
      iff no event of it parts them. */
  lemma DecisionsAgreeIff(c: Config, es: seq<Event>)
    requires Positive(c)
    ensures SameDecisions(c, es) <==> forall i :: 0 <= i < |es| ==> !PartsAt(c, es, i)
  {
    hide Run; hide PartsAt;
    LockStepIff(c, es);
    if !InLockStep(c, es) {
      var n :| 0 <= n <= |es| && Run(ForSink, c, es[..n]) != Run(ForProvider, c, es[..n]);
      var i := FirstDifference(c, es, n);
      LockStepStep(c, es, i);
      PartingIsVisible(c, es, i, es[i].at);
    }
  }

  /** With a threshold of one the breakers never part. */
  lemma ThresholdOneNeverParts(c: Config, es: seq<Event>)
    requires Positive(c) && c.threshold == 1
    ensures InLockStep(c, es)
  {
    forall i | 0 <= i < |es| ensures !PartsAt(c, es, i) {
      assert es[..i + 1][..i] == es[..i];
    }
    LockStepIff(c, es);
  }

  /** A success was recorded since the sink breaker last left the closed state. */
  ghost predicate SucceededSinceOpened(c: Config, es: seq<Event>) {
    es != [] && Run(ForSink, c, es).state != Closed
    && (es[|es| - 1].Success? || SucceededSinceOpened(c, es[..|es| - 1]))
  }

  lemma {:induction false} StreakWhileUnhealed(c: Config, es: seq<Event>)
    requires Positive(c) && Run(ForSink, c, es).state != Closed && !SucceededSinceOpened(c, es)
    ensures Streak(es) >= c.threshold
  {
    var es', e := es[..|es| - 1], es[|es| - 1];
    assert es == es' + [e];
    if Run(ForSink, c, es').state == Closed {
      OpensAtThreshold(c, es', e);
    } else {
      StreakWhileUnhealed(c, es');
    }
  }

  /** Lock-step holds on every run whose half-open failures follow no success
      recorded since the circuit opened. */
  lemma LockStepWithoutHealedFailure(c: Config, es: seq<Event>)
    requires Positive(c)
    requires forall i :: 0 <= i < |es| && es[i].Failure? && Run(ForSink, c, es[..i]).state == HalfOpen
                         ==> !SucceededSinceOpened(c, es[..i])
    ensures InLockStep(c, es)
  {
    forall i | 0 <= i < |es| ensures !PartsAt(c, es, i) {
      if es[i].Failure? && Run(ForSink, c, es[..i]).state == HalfOpen {
        StreakWhileUnhealed(c, es[..i]);
        assert es[..i + 1][..i] == es[..i];
      }
    }
    LockStepIff(c, es);
  }

  /** They do part: two failures open, a probe succeeds, the next one fails. */
  lemma LockStepFails()
    ensures var c := Config(2, 10, 2);
      var es := [Failure(0), Failure(0), Allow(11), Success(11), Failure(12)];
      PartsAt(c, es, 4) && !InLockStep(c, es)
  {
    var c := Config(2, 10, 2);
    var es := [Failure(0), Failure(0), Allow(11), Success(11), Failure(12)];
    assert es[..1] == [Failure(0)];
    assert es[..2] == [Failure(0), Failure(0)];
    assert es[..3] == [Failure(0), Failure(0), Allow(11)];
    assert es[..4] == [Failure(0), Failure(0), Allow(11), Success(11)];
    assert es[..5][..4] == es[..4] && es[..4][..3] == es[..3] && es[..3][..2] == es[..2] && es[..2][..1] == es[..1] && es[..1][..0] == [];
    assert Run(ForSink, c, es[..1]) == Breaker(Closed, 1, 0, 0);
    assert Run(ForSink, c, es[..2]) == Breaker(Open, 2, 0, 0);
    assert Run(ForSink, c, es[..3]) == Breaker(HalfOpen, 2, 0, 0);
    assert Run(ForSink, c, es[..4]) == Breaker(HalfOpen, 0, 1, 0);
    assert Streak(es[..4]) == 0;
    LockStepIff(c, es);
  }

  // ----- the objects ----------------------------------------------------------------------------

  /** The pipeline's per-sink breaker. */
  class SinkBreaker {
    const cfg: Config
    var state: CircuitState
    var failures: int
    var successes: int
    var lastFailureTime: int
    ghost var history: seq<Event>

    ghost predicate Valid()
      reads this
    {
      Positive(cfg) && Breaker(state, failures, successes, lastFailureTime) == Run(ForSink, cfg, history)
    }

    constructor (c: Config)
      ensures Valid() && history == []
      ensures cfg == Config(if c.threshold <= 0 then 5 else c.threshold,
                            if c.resetTimeout <= 0 then 30_000_000_000 else c.resetTimeout,
                            if c.halfOpenMax <= 0 then 2 else c.halfOpenMax)
    {
      var c' := c;
      if c'.threshold <= 0 { c' := c'.(threshold := 5); }
      if c'.resetTimeout <= 0 { c' := c'.(resetTimeout := 30 * SECOND); }
      if c'.halfOpenMax <= 0 { c' := c'.(halfOpenMax := 2); }
      cfg := c';
      state, failures, successes, lastFailureTime, history := Closed, 0, 0, 0, [];
    }

    method Allow(now: int) returns (ok: bool)
      requires Valid()
      modifies this
      ensures Valid() && history == old(history) + [Event.Allow(now)]
      ensures ok == Admits(cfg, Run(ForSink, cfg, old(history)), now)
    {
      RunSnoc(ForSink, cfg, history, Event.Allow(now));
      history := history + [Event.Allow(now)];
      match state {
        case Closed => return true;
        case Open =>
          if now - lastFailureTime > cfg.resetTimeout {
            state := HalfOpen;
            successes := 0;
            return true;
          }
          return false;
        case HalfOpen => return true;
      }
    }

    method RecordSuccess(now: int)
      requires Valid()
      modifies this
      ensures Valid() && history == old(history) + [Success(now)]
    {
      RunSnoc(ForSink, cfg, history, Success(now));
      history := history + [Success(now)];
      failures := 0;
      if state == HalfOpen {
        successes := successes + 1;
        if successes >= cfg.halfOpenMax {
          state := Closed;
        }
      }
    }

    method RecordFailure(now: int)
      requires Valid()
      modifies this
      ensures Valid() && history == old(history) + [Failure(now)]
    {
      RunSnoc(ForSink, cfg, history, Failure(now));
      history := history + [Failure(now)];
      if failures <= cfg.threshold {
        failures := failures + 1;
      }
      lastFailureTime := now;
      match state {
        case Closed =>
          if failures >= cfg.threshold {
            state := Open;
          }
        case HalfOpen => state := Open;
        case Open =>
      }
    }
  }

  /** The proxy's per-provider breaker. */
  class ProviderBreaker {
    const cfg: Config
    var state: CircuitState
    var failures: int
    var successes: int
    var lastFailureTime: int
    ghost var history: seq<Event>

    ghost predicate Valid()
      reads this
    {
      Breaker(state, failures, successes, lastFailureTime) == Run(ForProvider, cfg, history)
    }

    constructor (c: Config)
      ensures Valid() && history == []
      ensures cfg == Config(if c.threshold == 0 then 5 else c.threshold,
                            if c.resetTimeout == 0 then 30_000_000_000 else c.resetTimeout,
                            if c.halfOpenMax == 0 then 2 else c.halfOpenMax)
    {
      var c' := c;
      if c'.threshold == 0 { c' := c'.(threshold := 5); }
      if c'.resetTimeout == 0 { c' := c'.(resetTimeout := 30 * SECOND); }
      if c'.halfOpenMax == 0 { c' := c'.(halfOpenMax := 2); }
      cfg := c';
      state, failures, successes, lastFailureTime, history := Closed, 0, 0, 0, [];
    }

    method AllowRequest(now: int) returns (ok: bool)
      requires Valid()
      modifies this
      ensures Valid() && history == old(history) + [Event.Allow(now)]
      ensures ok == Admits(cfg, Run(ForProvider, cfg, old(history)), now)
    {
      RunSnoc(ForProvider, cfg, history, Event.Allow(now));
      history := history + [Event.Allow(now)];
      match state {
        case Closed => return true;
        case Open =>
          if now - lastFailureTime > cfg.resetTimeout {
            state := HalfOpen;
            successes := 0;
            return true;
          }
          return false;
        case HalfOpen => return true;
      }
    }

    method RecordSuccess(now: int)
      requires Valid()
      modifies this
      ensures Valid() && history == old(history) + [Success(now)]
    {
      RunSnoc(ForProvider, cfg, history, Success(now));
      history := history + [Success(now)];
      failures := 0;
      if state == HalfOpen {
        successes := successes + 1;
        if successes >= cfg.halfOpenMax {
          state := Closed;
        }
      }
    }

    method RecordFailure(now: int)
      requires Valid()
      modifies this
      ensures Valid() && history == old(history) + [Failure(now)]
    {
      RunSnoc(ForProvider, cfg, history, Failure(now));
      history := history + [Failure(now)];
      if failures <= cfg.threshold {
        failures := failures + 1;
      }
      lastFailureTime := now;
      if failures >= cfg.threshold {
        state := Open;
      }
    }

    /** `IsOpen` predicts, without moving the breaker, that a request now would
        be turned away. */
    method IsOpen(now: int) returns (open: bool)
      requires Valid()
      ensures open <==> !Admits(cfg, Run(ForProvider, cfg, history), now)
    {
      open := state == Open && now - lastFailureTime <= cfg.resetTimeout;
    }
  }
}
