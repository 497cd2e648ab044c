/** The identity cache (pkg/auth/cache.go) and the resolver chain behind it
    (pkg/auth/chain.go). Token hashing is a parameter, assumed injective and never
    empty; time is given by the caller. */
module IdentityCache {
  import opened Wrappers

  datatype Identity = Identity(id: string, email: string, provider: string, tenantIDs: seq<string>)

  datatype Entry = Entry(identity: Identity, expiresAt: int)

  type Entries = map<string, Entry>

  type Hash = string -> string

  ghost predicate GoodHash(hash: Hash) {
    (forall s, t :: hash(s) == hash(t) ==> s == t) && forall s :: hash(s) != ""
  }

  predicate Expired(e: Entry, now: int) {
    now > e.expiresAt
  }

  // ----- what storing does -------------------------------------------------------------

  /** The entries left after the sweep a full cache gets. */
  ghost function Swept(es: Entries, maxSize: nat, now: int): Entries {
    if |es| < maxSize then es else map k | k in es && !Expired(es[k], now) :: es[k]
  }

  ghost predicate ExpiresFirst(es: Entries, k: string) {
    k in es && forall j :: j in es ==> es[k].expiresAt <= es[j].expiresAt
  }

  /** Storing replaces in place, or else sweeps when full and, if that freed nothing,
      gives up the entry that would expire first. */
  ghost predicate StoredTo(es: Entries, es': Entries, key: string, e: Entry, maxSize: nat, now: int) {
    if maxSize == 0 then es' == es
    else if key in es then es' == es[key := e]
    else
      var swept := Swept(es, maxSize, now);
      if |swept| < maxSize then es' == swept[key := e]
      else exists k :: ExpiresFirst(swept, k) && es' == (swept - {k})[key := e]
  }

  lemma CardinalityGrows(es: Entries, key: string, e: Entry)
    ensures |es[key := e]| <= |es| + 1
  {
    assert es[key := e].Keys == es.Keys + {key};
  }

  lemma CardinalityShrinks(es: Entries, k: string)
    requires k in es
    ensures |es - {k}| == |es| - 1
  {
    assert (es - {k}).Keys == es.Keys - {k};
  }

  lemma SweepShrinks(es: Entries, maxSize: nat, now: int)
    ensures |Swept(es, maxSize, now)| <= |es|
  {
    var swept := Swept(es, maxSize, now);
    assert swept.Keys <= es.Keys;
    SubsetSize(swept.Keys, es.Keys);
  }

  lemma {:induction false} SubsetSize(a: set<string>, b: set<string>)
    requires a <= b
    ensures |a| <= |b|
  {
    if a != {} {
      var x :| x in a;
      SubsetSize(a - {x}, b - {x});
    }
  }

  /** The cache stays within its size, keeps the new entry, and every other entry
      that is left is untouched. */
  lemma StoreBounds(es: Entries, es': Entries, key: string, e: Entry, maxSize: nat, now: int)
    requires StoredTo(es, es', key, e, maxSize, now) && |es| <= maxSize
    ensures |es'| <= maxSize
    ensures maxSize > 0 ==> key in es' && es'[key] == e
    ensures forall k :: k in es' && (k != key || maxSize == 0) ==> k in es && es'[k] == es[k]
  {
    if maxSize > 0 {
      if key in es {
        assert es'.Keys == es.Keys;
      } else {
        var swept := Swept(es, maxSize, now);
        SweepShrinks(es, maxSize, now);
        if |swept| < maxSize {
          CardinalityGrows(swept, key, e);
        } else {
          var k :| ExpiresFirst(swept, k) && es' == (swept - {k})[key := e];
          CardinalityShrinks(swept, k);
          CardinalityGrows(swept - {k}, key, e);
        }
      }
    }
  }

  /** An unexpired entry is given up only by a full cache with nothing expired, and
      then it is one that expires first. */
  lemma EvictionIsFair(es: Entries, es': Entries, key: string, e: Entry, maxSize: nat, now: int, k: string)
    requires StoredTo(es, es', key, e, maxSize, now) && |es| <= maxSize
    requires k in es && k !in es' && !Expired(es[k], now)
    ensures |es| == maxSize && (forall j :: j in es ==> !Expired(es[j], now)) && ExpiresFirst(es, k)
  {
    var swept := Swept(es, maxSize, now);
    SweepShrinks(es, maxSize, now);
    assert k in swept;
    assert |swept| == |es|;
    assert swept.Keys <= es.Keys;
    SameSizeSubset(swept.Keys, es.Keys);
  }

  /** Replacing an entry, or adding one where there is room, gives up nothing at all;
      otherwise what has expired goes. */
  lemma RoomGivesUpNothing(es: Entries, es': Entries, key: string, e: Entry, maxSize: nat, now: int)
    requires StoredTo(es, es', key, e, maxSize, now) && maxSize > 0
    ensures key in es || |es| < maxSize ==> es' == es[key := e]
    ensures key !in es && |es| >= maxSize ==> forall k :: k in es' && k != key ==> now <= es'[k].expiresAt
  {
  }

  lemma SameSizeSubset(a: set<string>, b: set<string>)
    requires a <= b && |a| == |b|
    ensures a == b
  {
    assert b == a + (b - a);
    assert |b - a| == 0;
  }

  // ----- the cache object ------------------------------------------------------------------

  class Cache {
    const maxSize: nat
    const ttl: int
    const hash: Hash
    var entries: Entries

    ghost predicate Valid()
      reads this
    {
      |entries| <= maxSize && forall k :: k in entries ==> k != ""
    }

    constructor (size: int, ttl: int, hash: Hash)
      ensures Valid() && entries == map[] && this.ttl == ttl && this.hash == hash
      ensures maxSize == if size < 0 then 0 else size
    {
      maxSize, this.ttl, this.hash := if size < 0 then 0 else size, ttl, hash;
      entries := map[];
    }

    /** First step of `Get`, under the read lock. */
    method Read(token: string) returns (r: Option<Entry>)
      ensures r == if hash(token) in entries then Some(entries[hash(token)]) else None
    {
      var key := hash(token);
      return if key in entries then Some(entries[key]) else None;
    }

    /** Second step of an expired `Get`, under the write lock: look again, and delete
        only what is expired now. */
    method Cleanup(token: string, now: int)
      requires Valid()
      modifies this
      ensures Valid()
      ensures entries == if hash(token) in old(entries) && Expired(old(entries)[hash(token)], now)
                         then old(entries) - {hash(token)} else old(entries)
    {
      var key := hash(token);
      if key in entries && Expired(entries[key], now) {
        CardinalityShrinks(entries, key);
        entries := entries - {key};
      }
    }

    method Invalidate(token: string)
      requires Valid()
      modifies this
      ensures Valid() && entries == old(entries) - {hash(token)}
    {
      var key := hash(token);
      SubsetSize((entries - {key}).Keys, entries.Keys);
      entries := entries - {key};
    }

    method Sweep(now: int)
      requires Valid()
      modifies this
      ensures Valid() && entries == map k | k in old(entries) && !Expired(old(entries)[k], now) :: old(entries)[k]
    {
      var keys := entries.Keys;
      while keys != {}
        invariant keys <= entries.Keys <= old(entries).Keys
        invariant forall k :: k in old(entries) && (k in keys || !Expired(old(entries)[k], now)) ==> k in entries
        invariant forall k :: k in entries ==> entries[k] == old(entries)[k] && (k in keys || !Expired(entries[k], now))
        decreases |keys|
      {
        var k :| k in keys;
        if Expired(entries[k], now) {
          entries := entries - {k};
        }
        keys := keys - {k};
      }
      SubsetSize(entries.Keys, old(entries).Keys);
    }

    /** The scan for the oldest entry, with its empty-string sentinel. */
    method Oldest() returns (oldestKey: string)
      requires entries != map[] && forall k :: k in entries ==> k != ""
      ensures ExpiresFirst(entries, oldestKey)
    {
      oldestKey := "";
      var oldestTime := 0;
      var keys := entries.Keys;
      while keys != {}
        invariant keys <= entries.Keys
        invariant oldestKey == "" ==> keys == entries.Keys
        invariant oldestKey != "" ==> oldestKey in entries && oldestTime == entries[oldestKey].expiresAt
        invariant oldestKey != "" ==> forall k :: k in entries && k !in keys ==> oldestTime <= entries[k].expiresAt
        decreases |keys|
      {
        var k :| k in keys;
        if oldestKey == "" || entries[k].expiresAt < oldestTime {
          oldestKey, oldestTime := k, entries[k].expiresAt;
        }
        keys := keys - {k};
      }
      assert entries.Keys != {};
    }

    /** `Put`: `now` is the clock at the sweep, `stored` the clock at the store. */
    method Put(token: string, id: Identity, now: int, stored: int)
      requires Valid() && hash(token) != ""
      modifies this
      ensures Valid()
      ensures StoredTo(old(entries), entries, hash(token), Entry(id, stored + ttl), maxSize, now)
    {
      if maxSize <= 0 {
        return;
      }
      var key := hash(token);
      var e := Entry(id, stored + ttl);
      if key in entries {
        entries := entries[key := e];
        assert entries.Keys == old(entries).Keys;
        return;
      }
      if |entries| >= maxSize {
        Sweep(now);
      }
      ghost var swept := entries;
      assert swept == Swept(old(entries), maxSize, now);
      if |entries| >= maxSize {
        var oldestKey := Oldest();
        entries := entries - {oldestKey};
        assert ExpiresFirst(swept, oldestKey) && entries == swept - {oldestKey};
      }
      entries := entries[key := e];
      StoreBounds(old(entries), entries, key, e, maxSize, now);
    }
  }

  // ----- the resolver chain --------------------------------------------------------------------

  /** What one resolver says of a token: not its kind, recognised but invalid, or an identity. */
  datatype Answer = NotMine | Rejected(error: string) | Identified(identity: Identity)

  datatype Outcome = Resolved(identity: Identity) | Failed(error: string)

  const NO_MATCH: string := "no auth resolver matched token"

  /** The verdict of the first resolver that recognises the token. */
  ghost function Verdict(answers: seq<Answer>): Outcome {
    if answers == [] then Failed(NO_MATCH)
    else match answers[0]
      case NotMine => Verdict(answers[1..])
      case Rejected(err) => Failed(err)
      case Identified(id) => Resolved(id)
  }

  /** The cache holds an entry for the key that has not expired. */
  ghost predicate Hit(es: Entries, key: string, now: int) {
    key in es && now <= es[key].expiresAt
  }

  /** No resolver before position `i` knows the token. */
  ghost predicate UnknownBefore(answers: seq<Answer>, i: nat) {
    i <= |answers| && forall j :: 0 <= j < i ==> answers[j] == NotMine
  }

  /** The first resolver that knows the token identified it. */
  ghost predicate Identifies(answers: seq<Answer>, id: Identity) {
    exists i :: 0 <= i < |answers| && answers[i] == Identified(id) && UnknownBefore(answers, i)
  }

  /** The first resolver that knows the token rejected it with that error, or no
      resolver knows it. */
  ghost predicate Refuses(answers: seq<Answer>, error: string) {
    || (exists i :: 0 <= i < |answers| && answers[i] == Rejected(error) && UnknownBefore(answers, i))
    || (error == "no auth resolver matched token" && UnknownBefore(answers, |answers|))
  }

  /** What a verdict is, by positions: the first resolver that knows the token decides,
      and a rejection is final. */
  lemma {:induction false} VerdictIff(answers: seq<Answer>)
    ensures forall id :: Verdict(answers) == Resolved(id) <==> Identifies(answers, id)
    ensures forall error :: Verdict(answers) == Failed(error) <==> Refuses(answers, error)
  {
    if answers != [] {
      var rest := answers[1..];
      VerdictIff(rest);
      if answers[0] == NotMine {
        forall i | 0 <= i <= |rest| ensures UnknownBefore(answers, i + 1) <==> UnknownBefore(rest, i) { ShiftUnknown(answers, i); }
        forall id ensures Identifies(answers, id) <==> Identifies(rest, id) {
          if i :| 0 <= i < |rest| && rest[i] == Identified(id) && UnknownBefore(rest, i) {
            assert answers[i + 1] == Identified(id) && UnknownBefore(answers, i + 1);
          }
          if i :| 0 <= i < |answers| && answers[i] == Identified(id) && UnknownBefore(answers, i) {
            assert rest[i - 1] == Identified(id) && UnknownBefore(rest, i - 1);
          }
        }
        forall error ensures Refuses(answers, error) <==> Refuses(rest, error) {
          if i :| 0 <= i < |rest| && rest[i] == Rejected(error) && UnknownBefore(rest, i) {
            assert answers[i + 1] == Rejected(error) && UnknownBefore(answers, i + 1);
          }
          if i :| 0 <= i < |answers| && answers[i] == Rejected(error) && UnknownBefore(answers, i) {
            assert rest[i - 1] == Rejected(error) && UnknownBefore(rest, i - 1);
          }
        }
      } else {
        assert UnknownBefore(answers, 0);
        assert forall i :: 0 < i <= |answers| ==> !UnknownBefore(answers, i);
      }
    }
  }

  lemma ShiftUnknown(answers: seq<Answer>, i: nat)
    requires answers != [] && answers[0] == NotMine && i < |answers|
    ensures UnknownBefore(answers, i + 1) <==> UnknownBefore(answers[1..], i)
  {
    var rest := answers[1..];
    assert forall j :: 0 <= j < |rest| ==> rest[j] == answers[j + 1];
    if UnknownBefore(rest, i) {
      forall j | 0 <= j < i + 1 ensures answers[j] == NotMine { if j > 0 { assert rest[j - 1] == NotMine; } }
    }
    if UnknownBefore(answers, i + 1) {
      forall j | 0 <= j < i ensures rest[j] == NotMine { assert answers[j + 1] == NotMine; }
    }
  }

  /** `Resolve`: a live cache entry, else the chain's verdict, cached when positive.
      `answers` is what the resolvers would say to this call. */
  method Resolve(cache: Cache?, token: string, answers: seq<Answer>, t0: int, t1: int, t2: int, t3: int)
    returns (r: Outcome)
    requires cache != null ==> cache.Valid() && cache.hash(token) != ""
    requires t0 <= t1 <= t2 <= t3
    modifies cache
    ensures cache != null ==> cache.Valid()
    ensures cache == null ==> r == Verdict(answers)
    ensures cache == null || !Hit(old(cache.entries), cache.hash(token), t0) ==>
      if r.Resolved? then Identifies(answers, r.identity) else Refuses(answers, r.error)
    ensures cache != null ==>
      var key := cache.hash(token);
      var es := old(cache.entries);
      if Hit(es, key, t0) then r == Resolved(es[key].identity) && cache.entries == es
      else
        && r == Verdict(answers)
        && var left := if key in es && Expired(es[key], t1) then es - {key} else es;
           if r.Resolved? then StoredTo(left, cache.entries, key, Entry(r.identity, t3 + cache.ttl), cache.maxSize, t2)
           else cache.entries == left
  {
    VerdictIff(answers);
    if cache != null {
      var hit := cache.Read(token);
      if hit.Some? {
        if !Expired(hit.value, t0) {
          return Resolved(hit.value.identity);
        }
        cache.Cleanup(token, t1);
      }
    }
    label Looked:
    for i := 0 to |answers|
      invariant cache != null ==> cache.Valid() && cache.entries == old@Looked(cache.entries)
      invariant Verdict(answers[i..]) == Verdict(answers)
    {
      match answers[i] {
        case Rejected(err) => return Failed(err);
        case Identified(id) =>
          if cache != null {
            cache.Put(token, id, t2, t3);
          }
          return Resolved(id);
        case NotMine => assert answers[i..][1..] == answers[i + 1..];
      }
    }
    return Failed(NO_MATCH);
  }

  // ----- concurrent runs -------------------------------------------------------------------------

  /** What happened to tokens, in order. A `Made` carries what the resolvers said, a
      `Stored` names the `Made` it stores. */
  datatype Happening =
    | Made(token: string, answers: seq<Answer>, at: int)
    | Stored(token: string, id: Identity, at: int, made: nat)
    | Dropped(token: string)

  /** Where one `Resolve` call is. `seen` is how much had happened when it read the cache. */
  datatype Call =
    | Idle
    | Seen(token: string, entry: Entry, stored: nat, seen: nat)
    | Missed(token: string)
    | Stale(token: string)
    | Holding(token: string, id: Identity, made: nat)
    | Served(token: string, id: Identity, at: int, stored: nat, seen: nat)
    | Answered(token: string, id: Identity, made: nat)
    | Denied(token: string, answers: seq<Answer>, error: string)

  datatype World = World(entries: Entries, log: seq<Happening>, calls: seq<Call>, clock: int)

  datatype Settings = Settings(maxSize: nat, ttl: int, hash: Hash)

  datatype Step =
    | Advance(ticks: nat)
    | Look(i: nat, token: string)           // the read under the read lock
    | Judge(i: nat)                         // the expiry test, after unlocking
    | Clean(i: nat)                         // the delete under the write lock
    | Make(i: nat, answers: seq<Answer>)    // the resolvers settle on an identity
    | Deny(i: nat, answers: seq<Answer>)    // or on a failure
    | Store(i: nat, lag: nat)               // Put; the clock may advance while it runs
    | Invalidate(token: string)

  /** Position of the last store or invalidation of a token, or -1. */
  ghost function Latest(log: seq<Happening>, token: string): (i: int)
    ensures -1 <= i < |log|
    ensures i >= 0 ==> !log[i].Made? && log[i].token == token
    ensures forall k :: i < k < |log| ==> log[k].Made? || log[k].token != token
  {
    if log == [] then -1
    else if !log[|log| - 1].Made? && log[|log| - 1].token == token then |log| - 1
    else Latest(log[..|log| - 1], token)
  }

  ghost predicate Next(c: Settings, w: World, s: Step, w': World) {
    match s
    case Advance(ticks) => w' == w.(clock := w.clock + ticks)
    case Look(i, token) =>
      && i < |w.calls| && w.calls[i].Idle?
      && var key := c.hash(token);
         w' == Becomes(w, i,
           if key !in w.entries then Missed(token)
           else Seen(token, w.entries[key], if Latest(w.log, token) < 0 then 0 else Latest(w.log, token), |w.log|))
    case Judge(i) =>
      && i < |w.calls| && w.calls[i].Seen?
      && var s := w.calls[i];
         w' == Becomes(w, i,
           if Expired(s.entry, w.clock) then Stale(s.token) else Served(s.token, s.entry.identity, w.clock, s.stored, s.seen))
    case Clean(i) =>
      && i < |w.calls| && w.calls[i].Stale?
      && var key := c.hash(w.calls[i].token);
         w' == Becomes(w, i, Missed(w.calls[i].token)).(entries :=
           if key in w.entries && Expired(w.entries[key], w.clock) then w.entries - {key} else w.entries)
    case Make(i, answers) =>
      && i < |w.calls| && w.calls[i].Missed? && Verdict(answers).Resolved?
      && var t := w.calls[i].token;
         w' == Becomes(w, i, Holding(t, Verdict(answers).identity, |w.log|)).(log := w.log + [Made(t, answers, w.clock)])
    case Deny(i, answers) =>
      && i < |w.calls| && w.calls[i].Missed? && Verdict(answers).Failed?
      && w' == Becomes(w, i, Denied(w.calls[i].token, answers, Verdict(answers).error))
    case Store(i, lag) =>
      && i < |w.calls| && w.calls[i].Holding?
      && var h := w.calls[i];
         var now := w.clock + lag;
         && StoredTo(w.entries, w'.entries, c.hash(h.token), Entry(h.id, now + c.ttl), c.maxSize, w.clock)
         && w' == Becomes(w, i, Answered(h.token, h.id, h.made)).(clock := now, entries := w'.entries,
                    log := if c.maxSize == 0 then w.log else w.log + [Stored(h.token, h.id, now, h.made)])
    case Invalidate(token) =>
      w' == w.(entries := w.entries - {c.hash(token)}, log := w.log + [Dropped(token)])
  }

  ghost function Becomes(w: World, i: nat, call: Call): World
    requires i < |w.calls|
  {
    w.(calls := w.calls[i := call])
  }

  /** What the steps do to the cache: a cleanup removes the call's own entry and only if
      it has expired, an invalidation removes the token's entry, a store stores, and
      nothing else touches it. */
  lemma EntriesStep(c: Settings, w: World, s: Step, w': World)
    requires Next(c, w, s, w')
    ensures s.Invalidate? ==> w'.entries == w.entries - {c.hash(s.token)}
    ensures s.Clean? ==>
      && s.i < |w.calls| && w.calls[s.i].Stale?
      && forall k :: k in w.entries ==>
        (k !in w'.entries <==> k == c.hash(w.calls[s.i].token) && w.clock > w.entries[k].expiresAt) && (k in w'.entries ==> w'.entries[k] == w.entries[k])
    ensures s.Store? ==>
      && s.i < |w.calls| && w.calls[s.i].Holding?
      && var h := w.calls[s.i]; StoredTo(w.entries, w'.entries, c.hash(h.token), Entry(h.id, w'.clock + c.ttl), c.maxSize, w.clock)
    ensures !s.Invalidate? && !s.Clean? && !s.Store? ==> w'.entries == w.entries
  {
    hide Verdict; hide Identifies; hide Refuses; hide StoredTo; hide Latest;
  }

  // ----- coherence ----------------------------------------------------------------------------------

  /** The entry is the latest word on the token: stored by the `Stored` at `s`, and
      neither invalidated nor replaced since. */
  ghost predicate Backed(c: Settings, log: seq<Happening>, token: string, e: Entry, clock: int) {
    var s := Latest(log, token);
    s >= 0 && log[s].Stored? && log[s].id == e.identity && e.expiresAt == log[s].at + c.ttl && log[s].at <= clock
  }

  /** At `made` the first resolver that recognises the token produced the identity for it. */
  ghost predicate Produced(log: seq<Happening>, made: nat, token: string, id: Identity, until: int) {
    made < |log| && log[made].Made? && log[made].token == token && Identifies(log[made].answers, id) && log[made].at <= until
  }

  /** A store names an earlier production of that identity for that token. */
  ghost predicate Sourced(log: seq<Happening>, i: nat)
    requires i < |log|
  {
    var h := log[i];
    h.Stored? ==> h.made < i && Produced(log, h.made, h.token, h.id, h.at)
  }

  /** The identity was stored for the token, and nothing happened to the token between
      that and the read. */
  ghost predicate ReadFrom(log: seq<Happening>, token: string, id: Identity, stored: nat, seen: nat) {
    && stored < seen <= |log| && log[stored].Stored? && log[stored].token == token && log[stored].id == id
    && forall k :: stored < k < seen ==> log[k].Made? || log[k].token != token
  }

  /** What is known of a call's identity. A served one was stored for that token at
      most a TTL before, with no invalidation or replacement before it was read. */
  ghost predicate CallOk(c: Settings, log: seq<Happening>, clock: int, call: Call) {
    match call
    case Holding(token, id, made) => Produced(log, made, token, id, clock)
    case Answered(token, id, made) => Produced(log, made, token, id, clock)
    case Seen(token, e, stored, seen) =>
      ReadFrom(log, token, e.identity, stored, seen) && e.expiresAt == log[stored].at + c.ttl && log[stored].at <= clock
    case Served(token, id, at, stored, seen) =>
      ReadFrom(log, token, id, stored, seen) && log[stored].at <= at <= log[stored].at + c.ttl
    case Denied(_, answers, error) => Refuses(answers, error)
    case _ => true
  }

  ghost predicate Coherent(c: Settings, w: World) {
    && |w.entries| <= c.maxSize
    && (forall token :: c.hash(token) in w.entries ==> Backed(c, w.log, token, w.entries[c.hash(token)], w.clock))
    && (forall i :: 0 <= i < |w.log| ==> Sourced(w.log, i))
    && (forall i :: 0 <= i < |w.calls| ==> CallOk(c, w.log, w.clock, w.calls[i]))
  }

  lemma LatestSnoc(log: seq<Happening>, h: Happening, token: string)
    ensures Latest(log + [h], token) == if !h.Made? && h.token == token then |log| else Latest(log, token)
  {
    assert (log + [h])[..|log|] == log;
  }

  lemma BackedGrows(c: Settings, log: seq<Happening>, h: Happening, token: string, e: Entry, clock: int, clock': int)
    requires Backed(c, log, token, e, clock) && clock <= clock' && (h.Made? || h.token != token)
    ensures Backed(c, log + [h], token, e, clock')
  {
    LatestSnoc(log, h, token);
  }

  lemma CallGrows(c: Settings, log: seq<Happening>, h: Happening, clock: int, clock': int, call: Call)
    requires CallOk(c, log, clock, call) && clock <= clock'
    ensures CallOk(c, log + [h], clock', call)
  {
    hide Verdict; hide Identifies; hide Refuses;
  }

  lemma SourcedGrows(log: seq<Happening>, h: Happening)
    requires forall i :: 0 <= i < |log| ==> Sourced(log, i)
    requires Sourced(log + [h], |log|)
    ensures forall i :: 0 <= i < |log + [h]| ==> Sourced(log + [h], i)
  {
    hide Verdict; hide Identifies; hide Refuses;
    forall i | 0 <= i < |log + [h]| ensures Sourced(log + [h], i) {
      if i < |log| { assert Sourced(log, i); }
    }
  }

  lemma CoherentLook(c: Settings, w: World, i: nat, token: string, w': World)
    requires GoodHash(c.hash) && Coherent(c, w) && Next(c, w, Look(i, token), w')
    ensures Coherent(c, w')
  {
    hide Verdict; hide Identifies; hide Refuses;
  }

  lemma CoherentJudge(c: Settings, w: World, i: nat, w': World)
    requires Coherent(c, w) && Next(c, w, Judge(i), w')
    ensures Coherent(c, w')
  {
    hide Verdict; hide Identifies; hide Refuses; hide Backed; hide Sourced; hide ReadFrom;
  }

  lemma CoherentClean(c: Settings, w: World, i: nat, w': World)
    requires GoodHash(c.hash) && Coherent(c, w) && Next(c, w, Clean(i), w')
    ensures Coherent(c, w')
  {
    hide Verdict; hide Identifies; hide Refuses;
    SubsetSize(w'.entries.Keys, w.entries.Keys);
  }

  lemma CoherentMake(c: Settings, w: World, i: nat, answers: seq<Answer>, w': World)
    requires GoodHash(c.hash) && Coherent(c, w) && Next(c, w, Make(i, answers), w')
    ensures Coherent(c, w')
  {
    hide Backed; hide CallOk; hide Latest; hide Verdict; hide Identifies; hide Refuses;
    var h := Made(w.calls[i].token, answers, w.clock);
    SourcedGrows(w.log, h);
    forall token | c.hash(token) in w.entries ensures Backed(c, w'.log, token, w.entries[c.hash(token)], w.clock) {
      BackedGrows(c, w.log, h, token, w.entries[c.hash(token)], w.clock, w.clock);
    }
    forall j | 0 <= j < |w.calls| ensures CallOk(c, w'.log, w.clock, w'.calls[j]) {
      if j == i { JustMade(c, w.log, w.calls[i].token, answers, w.clock); } else { CallGrows(c, w.log, h, w.clock, w.clock, w.calls[j]); }
    }
  }

  lemma JustMade(c: Settings, log: seq<Happening>, token: string, answers: seq<Answer>, clock: int)
    requires Verdict(answers).Resolved?
    ensures CallOk(c, log + [Made(token, answers, clock)], clock, Holding(token, Verdict(answers).identity, |log|))
  {
    hide Verdict; hide Identifies; hide Refuses;
    VerdictIff(answers);
  }

  lemma CoherentDeny(c: Settings, w: World, i: nat, answers: seq<Answer>, w': World)
    requires Coherent(c, w) && Next(c, w, Deny(i, answers), w')
    ensures Coherent(c, w')
  {
    VerdictIff(answers);
    hide Verdict; hide Identifies; hide Refuses; hide Backed; hide Sourced;
  }

  lemma CoherentInvalidate(c: Settings, w: World, token: string, w': World)
    requires GoodHash(c.hash) && Coherent(c, w) && Next(c, w, Invalidate(token), w')
    ensures Coherent(c, w')
  {
    hide Backed; hide CallOk; hide Latest; hide Verdict; hide Identifies; hide Refuses;
    var h := Dropped(token);
    SubsetSize(w'.entries.Keys, w.entries.Keys);
    SourcedGrows(w.log, h);
    forall t | c.hash(t) in w'.entries ensures Backed(c, w'.log, t, w'.entries[c.hash(t)], w.clock) {
      BackedGrows(c, w.log, h, t, w.entries[c.hash(t)], w.clock, w.clock);
    }
    forall j | 0 <= j < |w.calls| ensures CallOk(c, w'.log, w.clock, w'.calls[j]) {
      CallGrows(c, w.log, h, w.clock, w.clock, w.calls[j]);
    }
  }

  lemma CoherentStore(c: Settings, w: World, i: nat, lag: nat, w': World)
    requires GoodHash(c.hash) && Coherent(c, w) && Next(c, w, Store(i, lag), w')
    ensures Coherent(c, w')
  {
    hide Backed; hide CallOk; hide Latest; hide StoredTo; hide Verdict; hide Identifies; hide Refuses;
    var h := w.calls[i];
    var key, e := c.hash(h.token), Entry(h.id, w'.clock + c.ttl);
    StoreBounds(w.entries, w'.entries, key, e, c.maxSize, w.clock);
    if c.maxSize == 0 {
      StoreNothing(c, w, i, w');
    } else {
      var s := Stored(h.token, h.id, w'.clock, h.made);
      HoldingSourced(c, w.log, w.clock, h, w'.clock);
      SourcedGrows(w.log, s);
      forall t | c.hash(t) in w'.entries ensures Backed(c, w'.log, t, w'.entries[c.hash(t)], w'.clock) {
        if t == h.token {
          JustStored(c, w.log, h.token, h.id, w'.clock, h.made);
        } else {
          BackedGrows(c, w.log, s, t, w.entries[c.hash(t)], w.clock, w'.clock);
        }
      }
      forall j | 0 <= j < |w.calls| ensures CallOk(c, w'.log, w'.clock, w'.calls[j]) {
        CallGrows(c, w.log, s, w.clock, w'.clock, w.calls[j]);
        if j == i { HoldingAnswers(c, w'.log, w'.clock, h); }
      }
    }
  }

  lemma StoreNothing(c: Settings, w: World, i: nat, w': World)
    requires GoodHash(c.hash) && Coherent(c, w) && i < |w.calls| && w.calls[i].Holding? && w.clock <= w'.clock
    requires w' == Becomes(w, i, Answered(w.calls[i].token, w.calls[i].id, w.calls[i].made)).(clock := w'.clock)
    ensures Coherent(c, w')
  {
    hide Verdict; hide Identifies; hide Refuses;
  }

  lemma HoldingSourced(c: Settings, log: seq<Happening>, clock: int, h: Call, now: int)
    requires h.Holding? && CallOk(c, log, clock, h) && clock <= now
    ensures Sourced(log + [Stored(h.token, h.id, now, h.made)], |log|)
  {
    hide Verdict; hide Identifies; hide Refuses;
  }

  lemma HoldingAnswers(c: Settings, log: seq<Happening>, clock: int, h: Call)
    requires h.Holding? && CallOk(c, log, clock, h)
    ensures CallOk(c, log, clock, Answered(h.token, h.id, h.made))
  {
    hide Verdict; hide Identifies; hide Refuses;
  }

  lemma JustStored(c: Settings, log: seq<Happening>, token: string, id: Identity, now: int, made: nat)
    ensures Backed(c, log + [Stored(token, id, now, made)], token, Entry(id, now + c.ttl), now)
  {
    LatestSnoc(log, Stored(token, id, now, made), token);
  }

  lemma CoherentAdvance(c: Settings, w: World, ticks: nat, w': World)
    requires Coherent(c, w) && Next(c, w, Advance(ticks), w')
    ensures Coherent(c, w')
  {
    hide Verdict; hide Identifies; hide Refuses;
  }

  lemma CoherentStep(c: Settings, w: World, s: Step, w': World)
    requires GoodHash(c.hash) && Coherent(c, w) && Next(c, w, s, w')
    ensures Coherent(c, w')
  {
    hide Coherent; hide Next;
    match s
    case Advance(ticks) => CoherentAdvance(c, w, ticks, w');
    case Look(i, token) => CoherentLook(c, w, i, token, w');
    case Judge(i) => CoherentJudge(c, w, i, w');
    case Clean(i) => CoherentClean(c, w, i, w');
    case Make(i, answers) => CoherentMake(c, w, i, answers, w');
    case Deny(i, answers) => CoherentDeny(c, w, i, answers, w');
    case Store(i, lag) => CoherentStore(c, w, i, lag, w');
    case Invalidate(token) => CoherentInvalidate(c, w, token, w');
  }

  ghost predicate IsTrace(c: Settings, ws: seq<World>, steps: seq<Step>) {
    && |ws| == |steps| + 1
    && forall n :: 0 <= n < |steps| ==> Next(c, ws[n], steps[n], ws[n + 1])
  }

  ghost predicate Initial(w: World) {
    w.entries == map[] && w.log == [] && forall i :: 0 <= i < |w.calls| ==> w.calls[i].Idle?
  }

  /** Cached identity coherence: in every interleaving, up to every moment, the cache
      is within bounds, each entry is the latest word on its token, and each identity
      handed out was produced for that token by the first resolver that recognises it
      and, if it came from the cache, stored at most a TTL before and not invalidated
      between the store and the read. */
  lemma {:induction false} CacheCoherence(c: Settings, ws: seq<World>, steps: seq<Step>, n: nat)
    requires GoodHash(c.hash) && IsTrace(c, ws, steps) && Initial(ws[0]) && n < |ws|
    ensures Coherent(c, ws[n])
  {
    hide Next; hide Coherent;
    if n == 0 {
      InitiallyCoherent(c, ws[0]);
    } else {
      CacheCoherence(c, ws, steps, n - 1);
      CoherentStep(c, ws[n - 1], steps[n - 1], ws[n]);
    }
  }

  lemma InitiallyCoherent(c: Settings, w: World)
    requires Initial(w)
    ensures Coherent(c, w)
  {
  }

  // ----- invalidation while an identity is being resolved --------------------------------------------

  /** No invalidation of the token between the two positions. */
  ghost predicate Undisturbed(log: seq<Happening>, token: string, from: nat, to: int) {
    forall k :: from < k < to && k < |log| ==> log[k] != Dropped(token)
  }

  /** The latest word on the token is a store of an identity not invalidated since
      it was produced. */
  ghost predicate FreshFor(log: seq<Happening>, token: string) {
    var s := Latest(log, token);
    s >= 0 && log[s].Stored? && Undisturbed(log, token, log[s].made, s)
  }

  /** Stronger than coherence: no cached identity was invalidated since it was produced. */
  ghost predicate FreshSinceMade(c: Settings, w: World) {
    forall token :: c.hash(token) in w.entries ==> FreshFor(w.log, token)
  }

  lemma FreshGrows(log: seq<Happening>, h: Happening, token: string)
    requires (h.Made? || h.token != token) && FreshFor(log, token)
    ensures FreshFor(log + [h], token)
  {
    LatestSnoc(log, h, token);
  }

  lemma JustStoredFreshIff(log: seq<Happening>, token: string, id: Identity, at: int, made: nat)
    ensures FreshFor(log + [Stored(token, id, at, made)], token) <==> Undisturbed(log, token, made, |log|)
  {
    var log' := log + [Stored(token, id, at, made)];
    LatestSnoc(log, Stored(token, id, at, made), token);
    assert forall k :: 0 <= k < |log| ==> log'[k] == log[k];
  }

  /** Every step but a store keeps it. */
  lemma OtherStepsKeepFresh(c: Settings, w: World, s: Step, w': World)
    requires GoodHash(c.hash) && FreshSinceMade(c, w) && Next(c, w, s, w') && !s.Store?
    ensures FreshSinceMade(c, w')
  {
    hide FreshFor; hide Latest; hide Verdict; hide Identifies; hide Refuses;
    if s.Make? || s.Invalidate? {
      forall token | c.hash(token) in w'.entries ensures FreshFor(w'.log, token) {
        FreshGrows(w.log, w'.log[|w.log|], token);
      }
    }
  }

  lemma StoreKeepsFreshIff(c: Settings, w: World, i: nat, lag: nat, w': World)
    requires GoodHash(c.hash) && Coherent(c, w) && FreshSinceMade(c, w) && Next(c, w, Store(i, lag), w') && c.maxSize > 0
    ensures FreshSinceMade(c, w') <==> Undisturbed(w.log, w.calls[i].token, w.calls[i].made, |w.log|)
  {
    hide FreshFor; hide StoredTo; hide Backed; hide CallOk; hide Undisturbed; hide Verdict; hide Identifies; hide Refuses;
    var call := w.calls[i];
    var s := Stored(call.token, call.id, w'.clock, call.made);
    StoreBounds(w.entries, w'.entries, c.hash(call.token), Entry(call.id, w'.clock + c.ttl), c.maxSize, w.clock);
    JustStoredFreshIff(w.log, call.token, call.id, w'.clock, call.made);
    forall token | c.hash(token) in w'.entries && token != call.token ensures FreshFor(w'.log, token) {
      FreshGrows(w.log, s, token);
    }
  }

  // ----- the same, on the schedule ----------------------------------------------------------------------

  /** The last cache read of a call among the first `n` steps, or -1. */
  ghost function LookOf(steps: seq<Step>, n: nat, i: nat): (l: int)
    requires n <= |steps|
    ensures -1 <= l < n
    ensures l >= 0 ==> steps[l].Look? && steps[l].i == i
    ensures forall k :: l < k < n ==> !(steps[k].Look? && steps[k].i == i)
  {
    if n == 0 then -1
    else if steps[n - 1].Look? && steps[n - 1].i == i then n - 1
    else LookOf(steps, n - 1, i)
  }

  /** The last production of a call among the first `n` steps, or -1. */
  ghost function MakeOf(steps: seq<Step>, n: nat, i: nat): (m: int)
    requires n <= |steps|
    ensures -1 <= m < n
    ensures m >= 0 ==> steps[m].Make? && steps[m].i == i
    ensures forall k :: m < k < n ==> !(steps[k].Make? && steps[k].i == i)
  {
    if n == 0 then -1
    else if steps[n - 1].Make? && steps[n - 1].i == i then n - 1
    else MakeOf(steps, n - 1, i)
  }

  /** The token was invalidated between two steps. */
  ghost predicate InvalidatedBetween(steps: seq<Step>, token: string, m: int, n: nat) {
    exists d :: 0 <= d < |steps| && m < d < n && steps[d] == Invalidate(token)
  }

  /** Step `n` stores an identity whose token, the one the call looked up, was
      invalidated after the call had it produced. */
  ghost predicate Disturbed(steps: seq<Step>, n: nat)
    requires n < |steps|
  {
    steps[n].Store?
    && var l, m := LookOf(steps, n, steps[n].i), MakeOf(steps, n, steps[n].i);
      l >= 0 && InvalidatedBetween(steps, steps[l].token, m, n)
  }

  ghost function TokenOf(call: Call): string
    requires !call.Idle?
  {
    call.token
  }

  /** The worlds of a trace remember what the schedule did. */
  ghost predicate Remembers(ws: seq<World>, steps: seq<Step>, n: nat, i: nat)
    requires |ws| == |steps| + 1 && n < |ws| && i < |ws[n].calls|
  {
    var call, l, m := ws[n].calls[i], LookOf(steps, n, i), MakeOf(steps, n, i);
    && (!call.Idle? ==> l >= 0 && steps[l].token == TokenOf(call))
    && (call.Holding? ==> m >= 0 && call.made == |ws[m].log|)
  }

  lemma CallsStay(c: Settings, ws: seq<World>, steps: seq<Step>, n: nat)
    requires IsTrace(c, ws, steps) && n < |steps|
    ensures |ws[n + 1].calls| == |ws[n].calls|
  {
    hide Verdict; hide Identifies; hide Refuses; hide StoredTo; hide Latest;
  }

  /** One step on a call: what it was and what it becomes. */
  lemma CallStep(c: Settings, w: World, s: Step, w': World, i: nat)
    requires Next(c, w, s, w') && i < |w.calls|
    ensures |w'.calls| == |w.calls|
    ensures s.Look? && s.i == i ==> !w'.calls[i].Idle? && TokenOf(w'.calls[i]) == s.token && !w'.calls[i].Holding?
    ensures s.Make? && s.i == i ==> !w.calls[i].Idle? && w'.calls[i].Holding? && w'.calls[i].made == |w.log| && TokenOf(w'.calls[i]) == TokenOf(w.calls[i])
    ensures !(s.Look? && s.i == i) ==> (w.calls[i].Idle? <==> w'.calls[i].Idle?) && (!w.calls[i].Idle? ==> TokenOf(w'.calls[i]) == TokenOf(w.calls[i]))
    ensures !(s.Make? && s.i == i) && w'.calls[i].Holding? ==> w'.calls[i] == w.calls[i]
  {
    hide Verdict; hide Identifies; hide Refuses; hide StoredTo; hide Latest;
  }

  lemma {:induction false} TraceRemembers(c: Settings, ws: seq<World>, steps: seq<Step>, n: nat, i: nat)
    requires IsTrace(c, ws, steps) && Initial(ws[0]) && n < |ws| && i < |ws[n].calls|
    ensures Remembers(ws, steps, n, i)
  {
    hide Next;
    if n > 0 {
      CallsStay(c, ws, steps, n - 1);
      TraceRemembers(c, ws, steps, n - 1, i);
      CallStep(c, ws[n - 1], steps[n - 1], ws[n], i);
    }
  }

  /** The log grows by at most one, and by an invalidation exactly at such a step. */
  lemma LogStep(c: Settings, w: World, s: Step, w': World)
    requires Next(c, w, s, w')
    ensures |w.log| <= |w'.log| <= |w.log| + 1 && w'.log[..|w.log|] == w.log
    ensures forall t :: (|w'.log| > |w.log| && w'.log[|w.log|] == Dropped(t)) <==> s == Invalidate(t)
    ensures s.Make? ==> |w'.log| == |w.log| + 1
  {
    hide Verdict; hide Identifies; hide Refuses; hide StoredTo; hide Latest;
  }

  /** The log shows an invalidation after a production exactly when the schedule has one. */
  lemma {:induction false} DroppedSince(c: Settings, ws: seq<World>, steps: seq<Step>, m: nat, n: nat, token: string)
    requires IsTrace(c, ws, steps) && m < n < |ws| && steps[m].Make?
    ensures |ws[m].log| < |ws[n].log|
    ensures Undisturbed(ws[n].log, token, |ws[m].log|, |ws[n].log|) <==> !InvalidatedBetween(steps, token, m, n)
  {
    hide Next;
    LogStep(c, ws[n - 1], steps[n - 1], ws[n]);
    if n == m + 1 {
      assert Undisturbed(ws[n].log, token, |ws[m].log|, |ws[n].log|);
    } else {
      DroppedSince(c, ws, steps, m, n - 1, token);
      OneMoreStep(ws[n - 1].log, ws[n].log, steps, token, m, n, |ws[m].log|);
    }
  }

  lemma OneMoreStep(log: seq<Happening>, log': seq<Happening>, steps: seq<Step>, token: string, m: nat, n: nat, made: nat)
    requires m + 1 < n <= |steps| && made < |log| <= |log'| <= |log| + 1 && log'[..|log|] == log
    requires (|log'| > |log| && log'[|log|] == Dropped(token)) <==> steps[n - 1] == Invalidate(token)
    requires Undisturbed(log, token, made, |log|) <==> !InvalidatedBetween(steps, token, m, n - 1)
    ensures Undisturbed(log', token, made, |log'|) <==> !InvalidatedBetween(steps, token, m, n)
  {
    assert forall k :: 0 <= k < |log| ==> log'[k] == log[k];
    if Undisturbed(log', token, made, |log'|) {
      assert Undisturbed(log, token, made, |log|) by {
        forall k | made < k < |log| ensures log[k] != Dropped(token) { assert log'[k] != Dropped(token); }
      }
    }
    if InvalidatedBetween(steps, token, m, n) {
      var d :| 0 <= d < |steps| && m < d < n && steps[d] == Invalidate(token);
      if d < n - 1 { assert InvalidatedBetween(steps, token, m, n - 1); }
    }
    if InvalidatedBetween(steps, token, m, n - 1) {
      var d :| 0 <= d < |steps| && m < d < n - 1 && steps[d] == Invalidate(token);
      assert m < d < n;
    }
  }

  /** A store is disturbed in the schedule exactly when the log says so. */
  lemma DisturbedIff(c: Settings, ws: seq<World>, steps: seq<Step>, n: nat)
    requires IsTrace(c, ws, steps) && Initial(ws[0]) && n < |steps| && steps[n].Store?
    ensures var i := steps[n].i;
      && i < |ws[n].calls| && ws[n].calls[i].Holding?
      && (Disturbed(steps, n) <==> !Undisturbed(ws[n].log, ws[n].calls[i].token, ws[n].calls[i].made, |ws[n].log|))
  {
    var i := steps[n].i;
    StoreHolds(c, ws[n], steps[n], ws[n + 1]);
    hide Next; hide Undisturbed; hide InvalidatedBetween;
    TraceRemembers(c, ws, steps, n, i);
    DroppedSince(c, ws, steps, MakeOf(steps, n, i), n, ws[n].calls[i].token);
  }

  lemma StoreHolds(c: Settings, w: World, s: Step, w': World)
    requires Next(c, w, s, w') && s.Store?
    ensures s.i < |w.calls| && w.calls[s.i].Holding?
  {
    hide StoredTo;
  }

  ghost predicate NoneDisturbed(steps: seq<Step>) {
    forall n :: 0 <= n < |steps| ==> !Disturbed(steps, n)
  }

  lemma NothingCached(c: Settings, w: World)
    requires Coherent(c, w) && c.maxSize == 0
    ensures FreshSinceMade(c, w)
  {
    assert w.entries == map[];
  }

  lemma {:induction false} FreshUpTo(c: Settings, ws: seq<World>, steps: seq<Step>, n: nat)
    requires GoodHash(c.hash) && IsTrace(c, ws, steps) && Initial(ws[0]) && n < |ws|
    requires c.maxSize == 0 || NoneDisturbed(steps)
    ensures FreshSinceMade(c, ws[n])
  {
    hide Next; hide FreshSinceMade; hide Disturbed; hide Coherent; hide Undisturbed;
    CacheCoherence(c, ws, steps, n);
    if c.maxSize == 0 {
      NothingCached(c, ws[n]);
    } else if n == 0 {
      InitiallyFresh(c, ws[0]);
    } else {
      FreshUpTo(c, ws, steps, n - 1);
      CacheCoherence(c, ws, steps, n - 1);
      if steps[n - 1].Store? {
        DisturbedIff(c, ws, steps, n - 1);
        StoreKeepsFreshIff(c, ws[n - 1], steps[n - 1].i, steps[n - 1].lag, ws[n]);
      } else {
        OtherStepsKeepFresh(c, ws[n - 1], steps[n - 1], ws[n]);
      }
    }
  }

  lemma InitiallyFresh(c: Settings, w: World)
    requires Initial(w)
    ensures FreshSinceMade(c, w)
  {
  }

  /** The exact condition, over runs and on the schedule: at no moment is an identity
      cached that was invalidated since it was produced iff no call stores an identity
      after an invalidation that followed its production (or nothing is ever cached). */
  lemma FreshRunIff(c: Settings, ws: seq<World>, steps: seq<Step>)
    requires GoodHash(c.hash) && IsTrace(c, ws, steps) && Initial(ws[0])
    ensures (forall n :: 0 <= n < |ws| ==> FreshSinceMade(c, ws[n])) <==> c.maxSize == 0 || NoneDisturbed(steps)
  {
    hide Next; hide FreshSinceMade; hide Disturbed; hide Coherent; hide Undisturbed; hide Initial;
    if c.maxSize == 0 || NoneDisturbed(steps) {
      forall n | 0 <= n < |ws| ensures FreshSinceMade(c, ws[n]) { FreshUpTo(c, ws, steps, n); }
    } else {
      var n :| 0 <= n < |steps| && Disturbed(steps, n);
      DisturbedStores(steps, n);
      DisturbedIff(c, ws, steps, n);
      if FreshSinceMade(c, ws[n]) {
        CacheCoherence(c, ws, steps, n);
        StoreKeepsFreshIff(c, ws[n], steps[n].i, steps[n].lag, ws[n + 1]);
      }
    }
  }

  lemma DisturbedStores(steps: seq<Step>, n: nat)
    requires n < |steps| && Disturbed(steps, n)
    ensures steps[n].Store?
  {
  }

  /** The identity a call took from the cache was not invalidated between its
      production and the read. */
  ghost predicate ReadUndisturbed(log: seq<Happening>, call: Call) {
    call.Seen? || call.Served? ==>
      call.stored < |log| && log[call.stored].Stored? && Undisturbed(log, call.token, log[call.stored].made, call.seen)
  }

  lemma ReadGrows(log: seq<Happening>, log': seq<Happening>, call: Call)
    requires ReadUndisturbed(log, call) && |log| <= |log'| && log'[..|log|] == log
    requires call.Seen? || call.Served? ==> call.seen <= |log|
    ensures ReadUndisturbed(log', call)
  {
    assert forall k :: 0 <= k < |log| ==> log'[k] == log[k];
  }

  lemma FreshRead(c: Settings, w: World, token: string)
    requires FreshFor(w.log, token)
    ensures Latest(w.log, token) >= 0
    ensures forall e :: ReadUndisturbed(w.log, Seen(token, e, Latest(w.log, token), |w.log|))
  {
  }

  lemma ReadStep(c: Settings, w: World, s: Step, w': World, i: nat)
    requires Coherent(c, w) && FreshSinceMade(c, w) && Next(c, w, s, w') && i < |w.calls| && ReadUndisturbed(w.log, w.calls[i])
    ensures i < |w'.calls| && ReadUndisturbed(w'.log, w'.calls[i])
  {
    LogStep(c, w, s, w');
    assert CallOk(c, w.log, w.clock, w.calls[i]);
    if s.Look? && s.i == i {
      if c.hash(s.token) in w.entries { FreshRead(c, w, s.token); }
    } else {
      hide ReadUndisturbed;
      ReadGrows(w.log, w'.log, w.calls[i]);
      ReadKept(c, w, s, w', i);
    }
  }

  lemma ReadKept(c: Settings, w: World, s: Step, w': World, i: nat)
    requires Next(c, w, s, w') && i < |w.calls| && !(s.Look? && s.i == i) && ReadUndisturbed(w'.log, w.calls[i])
    ensures i < |w'.calls| && ReadUndisturbed(w'.log, w'.calls[i])
  {
    hide Verdict; hide Identifies; hide Refuses; hide StoredTo; hide Latest; hide Undisturbed;
  }

  /** And then no identity is served that was invalidated since it was produced. */
  lemma {:induction false} ServedIsUndisturbed(c: Settings, ws: seq<World>, steps: seq<Step>, n: nat, i: nat)
    requires GoodHash(c.hash) && IsTrace(c, ws, steps) && Initial(ws[0]) && n < |ws| && i < |ws[n].calls|
    requires c.maxSize == 0 || NoneDisturbed(steps)
    ensures ReadUndisturbed(ws[n].log, ws[n].calls[i])
  {
    hide Next; hide FreshSinceMade; hide Coherent; hide NoneDisturbed; hide ReadUndisturbed;
    if n == 0 {
      IdleReadsNothing(ws[0].log);
    } else {
      CallsStay(c, ws, steps, n - 1);
      ServedIsUndisturbed(c, ws, steps, n - 1, i);
      CacheCoherence(c, ws, steps, n - 1);
      FreshUpTo(c, ws, steps, n - 1);
      ReadStep(c, ws[n - 1], steps[n - 1], ws[n], i);
    }
  }

  lemma IdleReadsNothing(log: seq<Happening>)
    ensures ReadUndisturbed(log, Idle)
  {
  }

  // ----- the harm -------------------------------------------------------------------------------------------

  /** Right after a store, a look at the token reads what was stored. */
  lemma LookAfterStore(c: Settings, w: World, s: Step, w': World, j: nat) returns (w1: World, w2: World)
    requires Coherent(c, w) && Next(c, w, s, w') && s.Store? && c.maxSize > 0 && c.ttl >= 0
    requires j < |w'.calls| && w'.calls[j].Idle?
    ensures s.i < |w.calls| && w.calls[s.i].Holding?
    ensures var h := w.calls[s.i];
      && Next(c, w', Look(j, h.token), w1) && Next(c, w1, Judge(j), w2)
      && w2.log == w.log + [Stored(h.token, h.id, w'.clock, h.made)]
      && j < |w2.calls| && w2.calls[j] == Served(h.token, h.id, w'.clock, |w.log|, |w2.log|)
  {
    hide StoredTo; hide Latest; hide Verdict; hide Identifies; hide Refuses; hide Backed; hide CallOk; hide Sourced;
    var h := w.calls[s.i];
    var e := Entry(h.id, w'.clock + c.ttl);
    StoreBounds(w.entries, w'.entries, c.hash(h.token), e, c.maxSize, w.clock);
    LatestSnoc(w.log, Stored(h.token, h.id, w'.clock, h.made), h.token);
    w1 := Becomes(w', j, Seen(h.token, e, |w.log|, |w'.log|));
    w2 := Becomes(w1, j, Served(h.token, h.id, w'.clock, |w.log|, |w'.log|));
  }

  /** Every disturbed store can do harm: one more call, and an identity is served that
      was invalidated since it was produced. */
  lemma DisturbedStoreServed(c: Settings, ws: seq<World>, steps: seq<Step>, j: nat) returns (ws': seq<World>, steps': seq<Step>)
    requires GoodHash(c.hash) && IsTrace(c, ws, steps) && Initial(ws[0]) && steps != [] && Disturbed(steps, |steps| - 1)
    requires c.maxSize > 0 && c.ttl >= 0
    requires var w := ws[|ws| - 1]; j < |w.calls| && w.calls[j].Idle?
    ensures ws <= ws' && steps <= steps' && IsTrace(c, ws', steps')
    ensures var w := ws'[|ws'| - 1]; j < |w.calls| && w.calls[j].Served? && !ReadUndisturbed(w.log, w.calls[j])
  {
    hide Next; hide Coherent; hide Disturbed; hide Initial;
    var n := |steps| - 1;
    DisturbedStores(steps, n);
    DisturbedIff(c, ws, steps, n);
    CacheCoherence(c, ws, steps, n);
    var h := ws[n].calls[steps[n].i];
    var w1, w2 := LookAfterStore(c, ws[n], steps[n], ws[n + 1], j);
    ws', steps' := ws + [w1, w2], steps + [Look(j, h.token), Judge(j)];
    forall k | 0 <= k < |steps'| ensures Next(c, ws'[k], steps'[k], ws'[k + 1]) {
      if k < |steps| { assert Next(c, ws[k], steps[k], ws[k + 1]); }
    }
    var k :| h.made < k < |ws[n].log| && ws[n].log[k] == Dropped(h.token);
    assert w2.log[k] == Dropped(h.token);
  }

  ghost function RaceStep(token: string, id: Identity, n: nat): Step {
    match n
    case 0 => Look(0, token)
    case 1 => Make(0, [Identified(id)])
    case 2 => Invalidate(token)
    case _ => Store(0, 0)
  }

  ghost function RaceWorld(c: Settings, token: string, id: Identity, n: nat): World {
    var made, dropped, stored := Made(token, [Identified(id)], 0), Dropped(token), Stored(token, id, 0, 0);
    match n
    case 0 => World(map[], [], [Idle, Idle], 0)
    case 1 => World(map[], [], [Missed(token), Idle], 0)
    case 2 => World(map[], [made], [Holding(token, id, 0), Idle], 0)
    case 3 => World(map[], [made, dropped], [Holding(token, id, 0), Idle], 0)
    case _ => World(map[c.hash(token) := Entry(id, c.ttl)], [made, dropped, stored], [Answered(token, id, 0), Idle], 0)
  }

  lemma RaceNext(c: Settings, token: string, id: Identity, n: nat)
    requires c.maxSize > 0 && n < 4
    ensures Next(c, RaceWorld(c, token, id, n), RaceStep(token, id, n), RaceWorld(c, token, id, n + 1))
  {
    if n == 1 {
      assert Verdict([Identified(id)]) == Resolved(id);
    } else if n == 3 {
      assert StoredTo(map[], map[c.hash(token) := Entry(id, c.ttl)], c.hash(token), Entry(id, c.ttl), c.maxSize, 0);
    }
  }

  /** And there are such runs: a token invalidated while its identity is being resolved
      is cached all the same, and served to the next caller. */
  lemma InvalidatedYetServed(c: Settings, token: string, id: Identity) returns (ws: seq<World>, steps: seq<Step>)
    requires GoodHash(c.hash) && c.maxSize > 0 && c.ttl >= 0
    ensures IsTrace(c, ws, steps) && Initial(ws[0])
    ensures var w := ws[|ws| - 1]; |w.calls| == 2 && w.calls[1].Served? && !ReadUndisturbed(w.log, w.calls[1])
  {
    hide Next; hide ReadUndisturbed;
    var race := seq(5, n requires 0 <= n < 5 => RaceWorld(c, token, id, n));
    var run := seq(4, n requires 0 <= n < 4 => RaceStep(token, id, n));
    forall n | 0 <= n < |run| ensures Next(c, race[n], run[n], race[n + 1]) {
      RaceNext(c, token, id, n);
    }
    assert LookOf(run, 1, 0) == 0 && run[0] == Look(0, token) && run[1].Make? && run[2] == Invalidate(token) && run[3].Store?;
    assert LookOf(run, 3, 0) == 0 && MakeOf(run, 3, 0) == 1;
    assert InvalidatedBetween(run, token, 1, 3);
    assert Disturbed(run, 3);
    ws, steps := DisturbedStoreServed(c, race, run, 1);
    TraceKeepsCalls(c, ws, steps, |ws| - 1);
  }

  lemma {:induction false} TraceKeepsCalls(c: Settings, ws: seq<World>, steps: seq<Step>, n: nat)
    requires IsTrace(c, ws, steps) && n < |ws|
    ensures |ws[n].calls| == |ws[0].calls|
  {
    hide Next;
    if n > 0 {
      TraceKeepsCalls(c, ws, steps, n - 1);
      CallsStay(c, ws, steps, n - 1);
    }
  }

  // ----- how old an identity may be ----------------------------------------------------------------------------

  /** How far a step moves the clock. */
  function Ticks(s: Step): nat {
    match s
    case Advance(ticks) => ticks
    case Store(_, lag) => lag
    case _ => 0
  }

  /** The time the steps from `m` up to `n` take. */
  ghost function Passed(steps: seq<Step>, m: nat, n: nat): nat
    requires m <= n <= |steps|
  {
    if m == n then 0 else Passed(steps, m, n - 1) + Ticks(steps[n - 1])
  }

  /** How long the call that stores at step `n` held its identity, the store included. */
  ghost function HoldTime(steps: seq<Step>, n: nat): nat
    requires n < |steps|
  {
    var m := MakeOf(steps, n, if steps[n].Store? then steps[n].i else 0);
    if m < 0 then 0 else Passed(steps, m, n + 1)
  }

  /** Step `n` stores an identity some time after it was produced. */
  ghost predicate Late(steps: seq<Step>, n: nat)
    requires n < |steps|
  {
    steps[n].Store? && HoldTime(steps, n) > 0
  }

  ghost predicate NoneLate(steps: seq<Step>) {
    forall n :: 0 <= n < |steps| ==> !Late(steps, n)
  }

  lemma ClockStep(c: Settings, w: World, s: Step, w': World)
    requires Next(c, w, s, w')
    ensures w'.clock == w.clock + Ticks(s)
  {
    hide Verdict; hide Identifies; hide Refuses; hide StoredTo; hide Latest;
  }

  lemma {:induction false} ClockPassed(c: Settings, ws: seq<World>, steps: seq<Step>, m: nat, n: nat)
    requires IsTrace(c, ws, steps) && m <= n < |ws|
    ensures ws[n].clock == ws[m].clock + Passed(steps, m, n)
  {
    hide Next;
    if m < n {
      ClockPassed(c, ws, steps, m, n - 1);
      ClockStep(c, ws[n - 1], steps[n - 1], ws[n]);
    }
  }

  lemma {:induction false} LogKept(c: Settings, ws: seq<World>, steps: seq<Step>, m: nat, n: nat)
    requires IsTrace(c, ws, steps) && m <= n < |ws|
    ensures ws[m].log <= ws[n].log
  {
    hide Next;
    if m < n {
      LogKept(c, ws, steps, m, n - 1);
      LogStep(c, ws[n - 1], steps[n - 1], ws[n]);
    }
  }

  lemma MakeLogs(c: Settings, w: World, s: Step, w': World)
    requires Next(c, w, s, w') && s.Make?
    ensures |w'.log| == |w.log| + 1 && w'.log[|w.log|].Made? && w'.log[|w.log|].at == w.clock
  {
    hide Verdict; hide Identifies; hide Refuses;
  }

  lemma HoldTimeIs(steps: seq<Step>, n: nat)
    requires n < |steps| && steps[n].Store? && MakeOf(steps, n, steps[n].i) >= 0
    ensures HoldTime(steps, n) == Passed(steps, MakeOf(steps, n, steps[n].i), n + 1)
  {
  }

  /** The production of what a call holds, in schedule and log. */
  lemma Production(c: Settings, ws: seq<World>, steps: seq<Step>, n: nat, i: nat)
    requires IsTrace(c, ws, steps) && Initial(ws[0]) && n < |ws| && i < |ws[n].calls| && ws[n].calls[i].Holding?
    ensures var m, made := MakeOf(steps, n, i), ws[n].calls[i].made;
      m >= 0 && made < |ws[n].log| && ws[n].log[made].Made? && ws[n].log[made].at == ws[m].clock
  {
    hide Next; hide Initial; hide MakeOf; hide LookOf;
    TraceRemembers(c, ws, steps, n, i);
    var m := MakeOf(steps, n, i);
    MakeLogs(c, ws[m], steps[m], ws[m + 1]);
    LogKept(c, ws, steps, m + 1, n);
  }

  /** What a store stores was produced its hold time before. */
  lemma HeldFor(c: Settings, ws: seq<World>, steps: seq<Step>, n: nat)
    requires IsTrace(c, ws, steps) && Initial(ws[0]) && n < |steps| && steps[n].Store?
    ensures var i := steps[n].i;
      && i < |ws[n].calls| && ws[n].calls[i].Holding?
      && var made := ws[n].calls[i].made;
        made < |ws[n].log| && ws[n].log[made].Made? && ws[n + 1].clock == ws[n].log[made].at + HoldTime(steps, n)
  {
    hide Next; hide Initial; hide MakeOf; hide HoldTime; hide Passed;
    var i := steps[n].i;
    StoreHolds(c, ws[n], steps[n], ws[n + 1]);
    Production(c, ws, steps, n, i);
    HoldTimeIs(steps, n);
    ClockPassed(c, ws, steps, MakeOf(steps, n, i), n + 1);
  }

  /** The entry expires at most a TTL after its identity was produced. */
  ghost predicate YoungFor(c: Settings, log: seq<Happening>, token: string, e: Entry) {
    var s := Latest(log, token);
    && s >= 0 && log[s].Stored? && log[s].made < |log| && log[log[s].made].Made?
    && e.expiresAt <= log[log[s].made].at + c.ttl
  }

  ghost predicate YoungCache(c: Settings, w: World) {
    forall token :: c.hash(token) in w.entries ==> YoungFor(c, w.log, token, w.entries[c.hash(token)])
  }

  lemma YoungGrows(c: Settings, log: seq<Happening>, h: Happening, token: string, e: Entry)
    requires (h.Made? || h.token != token) && YoungFor(c, log, token, e)
    ensures YoungFor(c, log + [h], token, e)
  {
    LatestSnoc(log, h, token);
  }

  lemma JustStoredYoungIff(c: Settings, log: seq<Happening>, token: string, id: Identity, at: int, made: nat)
    requires made < |log| && log[made].Made?
    ensures YoungFor(c, log + [Stored(token, id, at, made)], token, Entry(id, at + c.ttl)) <==> at <= log[made].at
  {
    LatestSnoc(log, Stored(token, id, at, made), token);
  }

  lemma OtherStepsKeepYoung(c: Settings, w: World, s: Step, w': World)
    requires GoodHash(c.hash) && YoungCache(c, w) && Next(c, w, s, w') && !s.Store?
    ensures YoungCache(c, w')
  {
    hide YoungFor; hide Latest; hide Verdict; hide Identifies; hide Refuses;
    if s.Make? || s.Invalidate? {
      forall token | c.hash(token) in w'.entries ensures YoungFor(c, w'.log, token, w'.entries[c.hash(token)]) {
        YoungGrows(c, w.log, w'.log[|w.log|], token, w.entries[c.hash(token)]);
      }
    }
  }

  lemma StoreKeepsYoungIff(c: Settings, w: World, i: nat, lag: nat, w': World)
    requires GoodHash(c.hash) && Coherent(c, w) && YoungCache(c, w) && Next(c, w, Store(i, lag), w') && c.maxSize > 0
    requires w.calls[i].made < |w.log| && w.log[w.calls[i].made].Made?
    ensures YoungCache(c, w') <==> w'.clock <= w.log[w.calls[i].made].at
  {
    hide YoungFor; hide StoredTo; hide Backed; hide CallOk; hide Verdict; hide Identifies; hide Refuses;
    var call := w.calls[i];
    var s, e := Stored(call.token, call.id, w'.clock, call.made), Entry(call.id, w'.clock + c.ttl);
    StoreBounds(w.entries, w'.entries, c.hash(call.token), e, c.maxSize, w.clock);
    JustStoredYoungIff(c, w.log, call.token, call.id, w'.clock, call.made);
    forall token | c.hash(token) in w'.entries && token != call.token
      ensures YoungFor(c, w'.log, token, w'.entries[c.hash(token)])
    {
      YoungGrows(c, w.log, s, token, w.entries[c.hash(token)]);
    }
  }

  lemma NothingCachedYoung(c: Settings, w: World)
    requires Coherent(c, w) && c.maxSize == 0
    ensures YoungCache(c, w)
  {
    assert w.entries == map[];
  }

  lemma InitiallyYoung(c: Settings, w: World)
    requires Initial(w)
    ensures YoungCache(c, w)
  {
  }

  lemma LateIff(steps: seq<Step>, n: nat)
    requires n < |steps|
    ensures Late(steps, n) <==> steps[n].Store? && HoldTime(steps, n) > 0
  {
  }

  lemma {:induction false} YoungUpTo(c: Settings, ws: seq<World>, steps: seq<Step>, n: nat)
    requires GoodHash(c.hash) && IsTrace(c, ws, steps) && Initial(ws[0]) && n < |ws|
    requires c.maxSize == 0 || NoneLate(steps)
    ensures YoungCache(c, ws[n])
  {
    hide Next; hide YoungCache; hide Late; hide Coherent; hide HoldTime;
    CacheCoherence(c, ws, steps, n);
    if c.maxSize == 0 {
      NothingCachedYoung(c, ws[n]);
    } else if n == 0 {
      InitiallyYoung(c, ws[0]);
    } else {
      YoungUpTo(c, ws, steps, n - 1);
      CacheCoherence(c, ws, steps, n - 1);
      if steps[n - 1].Store? {
        HeldFor(c, ws, steps, n - 1);
        LateIff(steps, n - 1);
        StoreKeepsYoungIff(c, ws[n - 1], steps[n - 1].i, steps[n - 1].lag, ws[n]);
      } else {
        OtherStepsKeepYoung(c, ws[n - 1], steps[n - 1], ws[n]);
      }
    }
  }

  /** The exact condition, over runs and on the schedule: every cached identity expires
      within a TTL of its production, at every moment, iff no time passes between any
      call's production and its store (or nothing is ever cached). */
  lemma YoungRunIff(c: Settings, ws: seq<World>, steps: seq<Step>)
    requires GoodHash(c.hash) && IsTrace(c, ws, steps) && Initial(ws[0])
    ensures (forall n :: 0 <= n < |ws| ==> YoungCache(c, ws[n])) <==> c.maxSize == 0 || NoneLate(steps)
  {
    hide Next; hide YoungCache; hide Late; hide Coherent; hide Initial; hide HoldTime;
    if c.maxSize == 0 || NoneLate(steps) {
      forall n | 0 <= n < |ws| ensures YoungCache(c, ws[n]) { YoungUpTo(c, ws, steps, n); }
    } else {
      var n :| 0 <= n < |steps| && Late(steps, n);
      LateIff(steps, n);
      HeldFor(c, ws, steps, n);
      if YoungCache(c, ws[n]) {
        CacheCoherence(c, ws, steps, n);
        StoreKeepsYoungIff(c, ws[n], steps[n].i, steps[n].lag, ws[n + 1]);
      }
    }
  }

  /** The identity a call took, or is about to take, from the cache is at most a TTL
      old, from its production on. */
  ghost predicate ReadYoung(c: Settings, log: seq<Happening>, call: Call) {
    call.Seen? || call.Served? ==>
      && call.stored < |log| && log[call.stored].Stored? && log[call.stored].made < |log| && log[log[call.stored].made].Made?
      && (if call.Seen? then call.entry.expiresAt else call.at) <= log[log[call.stored].made].at + c.ttl
  }

  lemma ReadYoungGrows(c: Settings, log: seq<Happening>, log': seq<Happening>, call: Call)
    requires ReadYoung(c, log, call) && |log| <= |log'| && log'[..|log|] == log
    ensures ReadYoung(c, log', call)
  {
    assert forall k :: 0 <= k < |log| ==> log'[k] == log[k];
  }

  lemma ReadYoungKept(c: Settings, w: World, s: Step, w': World, i: nat)
    requires Next(c, w, s, w') && i < |w.calls| && !(s.Look? && s.i == i) && ReadYoung(c, w'.log, w.calls[i])
    ensures i < |w'.calls| && ReadYoung(c, w'.log, w'.calls[i])
  {
    hide Verdict; hide Identifies; hide Refuses; hide StoredTo; hide Latest;
  }

  lemma ReadYoungStep(c: Settings, w: World, s: Step, w': World, i: nat)
    requires YoungCache(c, w) && Next(c, w, s, w') && i < |w.calls| && ReadYoung(c, w.log, w.calls[i])
    ensures i < |w'.calls| && ReadYoung(c, w'.log, w'.calls[i])
  {
    LogStep(c, w, s, w');
    if s.Look? && s.i == i {
      if c.hash(s.token) in w.entries { assert YoungFor(c, w.log, s.token, w.entries[c.hash(s.token)]); }
    } else {
      hide ReadYoung;
      ReadYoungGrows(c, w.log, w'.log, w.calls[i]);
      ReadYoungKept(c, w, s, w', i);
    }
  }

  /** And then every identity served was produced at most a TTL before. */
  lemma {:induction false} ServedIsYoung(c: Settings, ws: seq<World>, steps: seq<Step>, n: nat, i: nat)
    requires GoodHash(c.hash) && IsTrace(c, ws, steps) && Initial(ws[0]) && n < |ws| && i < |ws[n].calls|
    requires c.maxSize == 0 || NoneLate(steps)
    ensures ReadYoung(c, ws[n].log, ws[n].calls[i])
  {
    hide Next; hide YoungCache; hide NoneLate; hide ReadYoung;
    if n == 0 {
      IdleReadsNothingYoung(c, ws[0].log);
    } else {
      CallsStay(c, ws, steps, n - 1);
      ServedIsYoung(c, ws, steps, n - 1, i);
      YoungUpTo(c, ws, steps, n - 1);
      ReadYoungStep(c, ws[n - 1], steps[n - 1], ws[n], i);
    }
  }

  lemma IdleReadsNothingYoung(c: Settings, log: seq<Happening>)
    ensures ReadYoung(c, log, Idle)
  {
  }

  /** Every store in the log is a step of the schedule. */
  lemma {:induction false} StoreStep(c: Settings, ws: seq<World>, steps: seq<Step>, n: nat, p: nat) returns (k: nat)
    requires IsTrace(c, ws, steps) && Initial(ws[0]) && n < |ws| && p < |ws[n].log| && ws[n].log[p].Stored?
    ensures k < n && steps[k].Store? && |ws[k].log| == p && |ws[k + 1].log| == p + 1
    ensures var s := ws[n].log[p];
      steps[k].i < |ws[k].calls| && ws[k].calls[steps[k].i] == Holding(s.token, s.id, s.made) && ws[k + 1].clock == s.at
  {
    LogStep(c, ws[n - 1], steps[n - 1], ws[n]);
    if p < |ws[n - 1].log| {
      hide Next;
      assert ws[n].log[p] == ws[n].log[..|ws[n - 1].log|][p];
      k := StoreStep(c, ws, steps, n - 1, p);
    } else {
      k := n - 1;
      StoreLogs(c, ws[k], steps[k], ws[n]);
    }
  }

  lemma StoreLogs(c: Settings, w: World, s: Step, w': World)
    requires Next(c, w, s, w') && |w'.log| == |w.log| + 1 && w'.log[|w.log|].Stored?
    ensures var h := w'.log[|w.log|];
      s.Store? && s.i < |w.calls| && w.calls[s.i] == Holding(h.token, h.id, h.made) && w'.clock == h.at
  {
    hide Verdict; hide Identifies; hide Refuses; hide StoredTo; hide Latest;
  }

  /** In any run: a served identity is at most a TTL older than the time the call that
      stored it, at step `k`, held it. */
  lemma ServedAge(c: Settings, ws: seq<World>, steps: seq<Step>, n: nat, i: nat) returns (k: nat, made: nat)
    requires GoodHash(c.hash) && IsTrace(c, ws, steps) && Initial(ws[0]) && n < |ws| && i < |ws[n].calls| && ws[n].calls[i].Served?
    ensures var call, log := ws[n].calls[i], ws[n].log;
      && made < |log| && log[made].Made? && log[made].token == call.token && Identifies(log[made].answers, call.id)
      && k < n && steps[k].Store? && call.at - log[made].at <= c.ttl + HoldTime(steps, k)
  {
    hide Next; hide Initial; hide HoldTime; hide Verdict; hide Identifies; hide Refuses; hide Backed;
    CacheCoherence(c, ws, steps, n);
    var call, log := ws[n].calls[i], ws[n].log;
    assert CallOk(c, log, ws[n].clock, call);
    assert Sourced(log, call.stored);
    k := StoreStep(c, ws, steps, n, call.stored);
    made := log[call.stored].made;
    HeldFor(c, ws, steps, k);
    LogKept(c, ws, steps, k, n);
  }

  // ----- stores that come too late ---------------------------------------------------------------------------------

  /** A call that looks a TTL after a store is still served what was stored. */
  lemma LookMuchLater(c: Settings, w: World, s: Step, w': World, j: nat) returns (w1: World, w2: World, w3: World)
    requires Coherent(c, w) && Next(c, w, s, w') && s.Store? && c.maxSize > 0 && c.ttl >= 0
    requires j < |w'.calls| && w'.calls[j].Idle?
    ensures s.i < |w.calls| && w.calls[s.i].Holding?
    ensures var h := w.calls[s.i];
      && Next(c, w', Advance(c.ttl), w1) && Next(c, w1, Look(j, h.token), w2) && Next(c, w2, Judge(j), w3)
      && w3.log == w.log + [Stored(h.token, h.id, w'.clock, h.made)]
      && j < |w3.calls| && w3.calls[j] == Served(h.token, h.id, w'.clock + c.ttl, |w.log|, |w3.log|)
  {
    hide StoredTo; hide Latest; hide Verdict; hide Identifies; hide Refuses; hide Backed; hide CallOk; hide Sourced;
    var h := w.calls[s.i];
    var e := Entry(h.id, w'.clock + c.ttl);
    StoreBounds(w.entries, w'.entries, c.hash(h.token), e, c.maxSize, w.clock);
    LatestSnoc(w.log, Stored(h.token, h.id, w'.clock, h.made), h.token);
    w1 := w'.(clock := w'.clock + c.ttl);
    w2 := Becomes(w1, j, Seen(h.token, e, |w.log|, |w'.log|));
    w3 := Becomes(w2, j, Served(h.token, h.id, w1.clock, |w.log|, |w'.log|));
  }

  /** Every late store can do harm: one more call, a TTL later, and an identity is served
      that was produced more than a TTL before. */
  lemma LateStoreServed(c: Settings, ws: seq<World>, steps: seq<Step>, j: nat) returns (ws': seq<World>, steps': seq<Step>)
    requires GoodHash(c.hash) && IsTrace(c, ws, steps) && Initial(ws[0]) && steps != [] && Late(steps, |steps| - 1)
    requires c.maxSize > 0 && c.ttl >= 0
    requires var w := ws[|ws| - 1]; j < |w.calls| && w.calls[j].Idle?
    ensures ws <= ws' && steps <= steps' && IsTrace(c, ws', steps')
    ensures var w := ws'[|ws'| - 1]; j < |w.calls| && w.calls[j].Served? && !ReadYoung(c, w.log, w.calls[j])
  {
    hide Next; hide Coherent; hide Late; hide Initial; hide HoldTime;
    var n := |steps| - 1;
    LateIff(steps, n);
    HeldFor(c, ws, steps, n);
    CacheCoherence(c, ws, steps, n);
    var h := ws[n].calls[steps[n].i];
    var w1, w2, w3 := LookMuchLater(c, ws[n], steps[n], ws[n + 1], j);
    ws', steps' := ws + [w1, w2, w3], steps + [Advance(c.ttl), Look(j, h.token), Judge(j)];
    forall k | 0 <= k < |steps'| ensures Next(c, ws'[k], steps'[k], ws'[k + 1]) {
      if k < |steps| { assert Next(c, ws[k], steps[k], ws[k + 1]); }
    }
    assert w3.log[h.made] == ws[n].log[h.made];
  }

  ghost function SlowStep(token: string, id: Identity, n: nat): Step {
    match n
    case 0 => Look(0, token)
    case 1 => Make(0, [Identified(id)])
    case _ => Store(0, 1)
  }

  ghost function SlowWorld(c: Settings, token: string, id: Identity, n: nat): World {
    var made, stored := Made(token, [Identified(id)], 0), Stored(token, id, 1, 0);
    match n
    case 0 => World(map[], [], [Idle, Idle], 0)
    case 1 => World(map[], [], [Missed(token), Idle], 0)
    case 2 => World(map[], [made], [Holding(token, id, 0), Idle], 0)
    case _ => World(map[c.hash(token) := Entry(id, 1 + c.ttl)], [made, stored], [Answered(token, id, 0), Idle], 1)
  }

  lemma SlowNext(c: Settings, token: string, id: Identity, n: nat)
    requires c.maxSize > 0 && n < 3
    ensures Next(c, SlowWorld(c, token, id, n), SlowStep(token, id, n), SlowWorld(c, token, id, n + 1))
  {
    if n == 1 {
      assert Verdict([Identified(id)]) == Resolved(id);
    } else if n == 2 {
      var e := Entry(id, 1 + c.ttl);
      assert StoredTo(map[], map[c.hash(token) := e], c.hash(token), e, c.maxSize, 0);
    }
  }

  /** And there are such runs: a store one tick after the production, and an identity is
      served that is older than the TTL. */
  lemma ServedPastTTL(c: Settings, token: string, id: Identity) returns (ws: seq<World>, steps: seq<Step>)
    requires GoodHash(c.hash) && c.maxSize > 0 && c.ttl >= 0
    ensures IsTrace(c, ws, steps) && Initial(ws[0])
    ensures var w := ws[|ws| - 1]; |w.calls| == 2 && w.calls[1].Served? && !ReadYoung(c, w.log, w.calls[1])
  {
    hide Next; hide ReadYoung;
    var slow := seq(4, n requires 0 <= n < 4 => SlowWorld(c, token, id, n));
    var run := seq(3, n requires 0 <= n < 3 => SlowStep(token, id, n));
    forall n | 0 <= n < |run| ensures Next(c, slow[n], run[n], slow[n + 1]) {
      SlowNext(c, token, id, n);
    }
    assert run[1].Make? && run[1].i == 0 && run[2] == Store(0, 1);
    assert MakeOf(run, 2, 0) == 1;
    assert Passed(run, 1, 3) == Passed(run, 1, 2) + 1;
    assert Late(run, 2);
    ws, steps := LateStoreServed(c, slow, run, 1);
    TraceKeepsCalls(c, ws, steps, |ws| - 1);
  }
}
