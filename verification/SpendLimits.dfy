/** Per-model daily spend limits: choosing the limit (pkg/proxy/cost_gate.go),
    merging per-user limits over the YAML defaults (pkg/proxy/model_limit_cache.go)
    and the self-evicting daily ledger. Days are numbered; USD are reals. */
module SpendLimits {
  import opened Text
  import opened Wrappers

  datatype Limit = Limit(model: string, maxDailyUSD: real)

  // ----- choosing a limit -----------------------------------------------------------

  /** A valid limit whose nonempty prefix matches the model, ignoring case. */
  ghost predicate Applies(l: Limit, model: string) {
    l.maxDailyUSD > 0.0 && l.model != "" && Lower(l.model) <= Lower(model)
  }

  /** A limit covers the models whose names continue its own, in any case; one without a
      name or without a positive cap covers none. */
  lemma AppliesIff(l: Limit, model: string)
    ensures Applies(l, model) <==>
      l.maxDailyUSD > 0.0 && |l.model| > 0 && exists rest :: Lower(model) == Lower(l.model) + rest
  {
    if Lower(l.model) <= Lower(model) {
      assert Lower(model) == Lower(l.model) + Lower(model)[|l.model|..];
    }
  }

  /** Position of the first of the longest applicable prefixes, or -1. */
  ghost function Best(model: string, limits: seq<Limit>): (b: int)
    ensures -1 <= b < |limits|
    ensures b >= 0 ==> Applies(limits[b], model)
    ensures forall j :: 0 <= j < |limits| && Applies(limits[j], model) ==>
              b >= 0 && |limits[j].model| <= |limits[b].model|
              && (j < b ==> |limits[j].model| < |limits[b].model|)
  {
    if limits == [] then -1
    else
      var n := |limits| - 1;
      var b := Best(model, limits[..n]);
      if Applies(limits[n], model) && (b == -1 || |limits[n].model| > |limits[b].model|) then n else b
  }

  /** `matchSpendLimit`. */
  method MatchSpendLimit(model: string, limits: seq<Limit>) returns (best: int)
    ensures best == Best(model, limits)
  {
    var folded := Lower(model);
    best := -1;
    var bestLen := 0;
    for i := 0 to |limits|
      invariant best == Best(model, limits[..i])
      invariant bestLen == if best == -1 then 0 else |limits[best].model|
    {
      assert limits[..i + 1][..i] == limits[..i];
      if limits[i].maxDailyUSD <= 0.0 {
        continue;   // invalid configuration
      }
      var prefix := Lower(limits[i].model);
      if prefix <= folded && |prefix| > bestLen {
        best := i;
        bestLen := |prefix|;
      }
    }
    assert limits[..|limits|] == limits;
  }

  /** Applicable limits of one length have the same prefix. */
  lemma SameLengthSamePrefix(a: Limit, b: Limit, model: string)
    requires Applies(a, model) && Applies(b, model) && |a.model| == |b.model|
    ensures Lower(a.model) == Lower(b.model)
  {
    var m := Lower(model);
    assert Lower(a.model) == m[..|a.model|] == Lower(b.model);
  }

  ghost predicate DistinctPrefixes(limits: seq<Limit>) {
    forall i, j :: 0 <= i < j < |limits| ==> Lower(limits[i].model) != Lower(limits[j].model)
  }

  /** The choice does not depend on the order of the list. */
  lemma OrderIrrelevant(model: string, a: seq<Limit>, b: seq<Limit>)
    requires DistinctPrefixes(a) && forall l :: l in a <==> l in b
    ensures Best(model, a) >= 0 <==> Best(model, b) >= 0
    ensures Best(model, a) >= 0 ==> a[Best(model, a)] == b[Best(model, b)]
  {
    hide Best; hide Applies;
    var i, j := Best(model, a), Best(model, b);
    if i >= 0 {
      assert a[i] in b;
      var k :| 0 <= k < |b| && b[k] == a[i];
      assert Applies(b[k], model) && j >= 0;
    }
    if j >= 0 {
      assert b[j] in a;
      var k :| 0 <= k < |a| && a[k] == b[j];
      assert Applies(a[k], model) && i >= 0;
      SameLengthSamePrefix(a[i], a[k], model);
      assert i == k;
    }
  }

  // ----- merging --------------------------------------------------------------------------

  ghost predicate Overridden(y: Limit, user: seq<Limit>) {
    exists i :: 0 <= i < |user| && Lower(user[i].model) == Lower(y.model)
  }

  /** A user limit overrides the YAML limits of the same name, in any case and whatever
      either caps. */
  lemma OverriddenIff(y: Limit, user: seq<Limit>)
    ensures Overridden(y, user) <==> exists u :: u in user && Lower(u.model) == Lower(y.model)
  {
    hide Lower;
    if u :| u in user && Lower(u.model) == Lower(y.model) {
      var i :| 0 <= i < |user| && user[i] == u;
    }
  }

  /** The YAML limits no user limit names, in order. */
  ghost function NotOverridden(yaml: seq<Limit>, user: seq<Limit>): (r: seq<Limit>)
    ensures forall l :: l in r <==> l in yaml && !Overridden(l, user)
  {
    if yaml == [] then []
    else
      var n := |yaml| - 1;
      var rest := NotOverridden(yaml[..n], user);
      if Overridden(yaml[n], user) then rest else rest + [yaml[n]]
  }

  lemma {:induction false} NothingOverrides(yaml: seq<Limit>)
    ensures NotOverridden(yaml, []) == yaml
  {
    if yaml != [] {
      NothingOverrides(yaml[..|yaml| - 1]);
      assert yaml == yaml[..|yaml| - 1] + [yaml[|yaml| - 1]];
    }
  }

  /** `mergedLimits`, given the user's limits. */
  method MergedLimits(user: seq<Limit>, yaml: seq<Limit>) returns (merged: seq<Limit>)
    ensures merged == user + NotOverridden(yaml, user)
  {
    if |user| == 0 {
      NothingOverrides(yaml);
      return yaml;
    }
    if |yaml| == 0 {
      return user;
    }
    var userPrefixes: set<string> := {};
    for i := 0 to |user|
      invariant forall p :: p in userPrefixes <==> exists k :: 0 <= k < i && Lower(user[k].model) == p
    {
      userPrefixes := userPrefixes + {Lower(user[i].model)};
    }
    merged := user;
    for i := 0 to |yaml|
      invariant merged == user + NotOverridden(yaml[..i], user)
    {
      assert yaml[..i + 1][..i] == yaml[..i];
      if Lower(yaml[i].model) !in userPrefixes {
        merged := merged + [yaml[i]];
      }
    }
    assert yaml[..|yaml|] == yaml;
  }

  /** The limit in force: the longest applicable prefix among the user's limits and
      the YAML limits the user has not overridden; none only when none applies. An
      overriding limit with no positive cap thus lifts the YAML one. */
  lemma LimitInForce(model: string, user: seq<Limit>, yaml: seq<Limit>)
    ensures var merged := user + NotOverridden(yaml, user);
      var b := Best(model, merged);
      && (b >= 0 ==> Applies(merged[b], model)
                     && (merged[b] in user || (merged[b] in yaml && !Overridden(merged[b], user))))
      && forall l :: Applies(l, model) && (l in user || (l in yaml && !Overridden(l, user)))
                     ==> b >= 0 && |l.model| <= |merged[b].model|
  {
    hide Applies; hide Overridden;
    var merged := user + NotOverridden(yaml, user);
    forall l | Applies(l, model) && (l in user || (l in yaml && !Overridden(l, user)))
      ensures Best(model, merged) >= 0 && |l.model| <= |merged[Best(model, merged)].model|
    {
      assert l in merged;
    }
  }

  // ----- the daily ledger -----------------------------------------------------------------

  const NUL: char := '\0'

  datatype Entry = Entry(spent: real, day: int)

  datatype Spend = Spend(user: string, prefix: string, cost: real, day: int)

  function Key(user: string, prefix: string): string {
    user + [NUL] + Lower(prefix)
  }

  /** Two different pairs with one key: a user ID goes on, past a NUL, with the
      beginning of the other pair's prefix. */
  ghost predicate Collide(u: string, p: string, u': string, p': string) {
    Overlap(u, Lower(p), NUL, u', Lower(p')) || Overlap(u', Lower(p'), NUL, u, Lower(p))
  }

  /** What a key identifies, exactly. */
  lemma KeyIff(u: string, p: string, u': string, p': string)
    ensures Key(u, p) == Key(u', p') <==> (u == u' && Lower(p) == Lower(p')) || Collide(u, p, u', p')
  {
    hide Lower; hide Overlap;
    JoinedIff(u, Lower(p), NUL, u', Lower(p'));
  }

  lemma LowerNul(s: string)
    ensures NUL in Lower(s) <==> NUL in s
  {
    if NUL in Lower(s) {
      var i :| 0 <= i < |s| && Lower(s)[i] == NUL;
      assert s[i] == NUL;
    }
    if NUL in s {
      var i :| 0 <= i < |s| && s[i] == NUL;
      assert Lower(s)[i] == NUL;
    }
  }

  /** A collision takes a NUL in a user ID and one in a limit prefix: keeping either
      free of it is enough. */
  lemma CollisionTakesBoth(u: string, p: string, u': string, p': string)
    requires Collide(u, p, u', p')
    ensures ('\0' in u || '\0' in u') && ('\0' in p || '\0' in p')
  {
    hide Lower;
    LowerNul(p);
    LowerNul(p');
  }

  /** And it happens: the four strings of every collision. */
  lemma NulMixesUsers(u: string, x: string, p: string)
    requires Lower(x) == x
    ensures Key(u, x + [NUL] + p) == Key(u + [NUL] + x, p) && Collide(u, x + [NUL] + p, u + [NUL] + x, p)
  {
    LowerConcat(x + [NUL], p);
    LowerConcat(x, [NUL]);
    assert Lower([NUL]) == [NUL];
    assert Lower(x + [NUL] + p) == x + [NUL] + Lower(p);
    assert Overlap(u, Lower(x + [NUL] + p), NUL, u + [NUL] + x, Lower(p));
    hide Lower; hide Overlap;
    JoinedIff(u, Lower(x + [NUL] + p), NUL, u + [NUL] + x, Lower(p));
  }

  /** What the log records for a key on a day. */
  ghost function DayTotal(log: seq<Spend>, key: string, day: int): real {
    if log == [] then 0.0
    else
      var s := log[|log| - 1];
      DayTotal(log[..|log| - 1], key, day) + if Key(s.user, s.prefix) == key && s.day == day then s.cost else 0.0
  }

  /** What the log records for a user and a prefix on a day. */
  ghost function Spent(log: seq<Spend>, user: string, prefix: string, day: int): real {
    if log == [] then 0.0
    else
      var s := log[|log| - 1];
      Spent(log[..|log| - 1], user, prefix, day)
      + if s.user == user && Lower(s.prefix) == Lower(prefix) && s.day == day then s.cost else 0.0
  }

  /** Somebody else's spend of the day is filed under the pair's key. */
  ghost predicate Mixed(log: seq<Spend>, user: string, prefix: string, day: int) {
    exists i :: 0 <= i < |log| && log[i].day == day && Collide(log[i].user, log[i].prefix, user, prefix)
  }

  ghost predicate PositiveCosts(log: seq<Spend>) {
    forall i :: 0 <= i < |log| ==> log[i].cost > 0.0
  }

  lemma SamePairNoCollision(u: string, p: string, u': string, p': string)
    requires Collide(u, p, u', p')
    ensures u != u'
  {
    hide Lower;
  }

  /** The total under a key is what that user spent on that prefix, exactly when no
      colliding pair spent that day; otherwise it is more. */
  lemma {:induction false} KeyTotalIff(log: seq<Spend>, user: string, prefix: string, day: int)
    requires PositiveCosts(log)
    ensures DayTotal(log, Key(user, prefix), day) >= Spent(log, user, prefix, day)
    ensures DayTotal(log, Key(user, prefix), day) == Spent(log, user, prefix, day) <==> !Mixed(log, user, prefix, day)
  {
    hide Key; hide Collide; hide Lower;
    if log != [] {
      var init, s := log[..|log| - 1], log[|log| - 1];
      KeyTotalIff(init, user, prefix, day);
      KeyIff(s.user, s.prefix, user, prefix);
      if Collide(s.user, s.prefix, user, prefix) { SamePairNoCollision(s.user, s.prefix, user, prefix); }
      assert forall i :: 0 <= i < |init| ==> init[i] == log[i];
      if Mixed(init, user, prefix, day) {
        var i :| 0 <= i < |init| && init[i].day == day && Collide(init[i].user, init[i].prefix, user, prefix);
        assert Collide(log[i].user, log[i].prefix, user, prefix);
      }
    }
  }

  // ----- what is left after eviction ----------------------------------------------------------

  /** What the log records for a key in its last stretch of records of one day, if that
      stretch is of the given day. */
  ghost function Recent(log: seq<Spend>, key: string, day: int): real {
    if log == [] || log[|log| - 1].day != day then 0.0
    else
      var s := log[|log| - 1];
      Recent(log[..|log| - 1], key, day) + if Key(s.user, s.prefix) == key then s.cost else 0.0
  }

  lemma RecentSnoc(log: seq<Spend>, s: Spend, key: string, day: int)
    ensures Recent(log + [s], key, day)
         == if s.day != day then 0.0 else Recent(log, key, day) + if Key(s.user, s.prefix) == key then s.cost else 0.0
  {
    hide Key;
    assert (log + [s])[..|log|] == log;
  }

  /** A spend of the key on the day, recorded before a record of another day. */
  ghost predicate Overtaken(log: seq<Spend>, key: string, day: int) {
    exists i, j :: 0 <= i < j < |log| && log[i].day == day && Key(log[i].user, log[i].prefix) == key && log[j].day != day
  }

  ghost predicate SpentOn(log: seq<Spend>, key: string, day: int) {
    exists i :: 0 <= i < |log| && log[i].day == day && Key(log[i].user, log[i].prefix) == key
  }

  lemma {:induction false} DayTotalPositiveIff(log: seq<Spend>, key: string, day: int)
    requires PositiveCosts(log)
    ensures DayTotal(log, key, day) >= 0.0
    ensures DayTotal(log, key, day) > 0.0 <==> SpentOn(log, key, day)
  {
    hide Key;
    if log != [] {
      var init, s := log[..|log| - 1], log[|log| - 1];
      DayTotalPositiveIff(init, key, day);
      assert forall i :: 0 <= i < |init| ==> init[i] == log[i];
      if SpentOn(init, key, day) {
        var i :| 0 <= i < |init| && init[i].day == day && Key(init[i].user, init[i].prefix) == key;
        assert log[i].day == day && Key(log[i].user, log[i].prefix) == key;
      }
    }
  }

  lemma OvertakenSnoc(log: seq<Spend>, s: Spend, key: string, day: int)
    ensures Overtaken(log + [s], key, day) <==> Overtaken(log, key, day) || (s.day != day && SpentOn(log, key, day))
  {
    hide Key;
    var more := log + [s];
    assert forall i :: 0 <= i < |log| ==> more[i] == log[i];
    if Overtaken(log, key, day) {
      var i, j :| 0 <= i < j < |log| && log[i].day == day && Key(log[i].user, log[i].prefix) == key && log[j].day != day;
      assert more[i].day == day && Key(more[i].user, more[i].prefix) == key && more[j].day != day;
    }
    if s.day != day && SpentOn(log, key, day) {
      var i :| 0 <= i < |log| && log[i].day == day && Key(log[i].user, log[i].prefix) == key;
      assert more[i].day == day && Key(more[i].user, more[i].prefix) == key && more[|log|].day != day;
    }
    if Overtaken(more, key, day) {
      var i, j :| 0 <= i < j < |more| && more[i].day == day && Key(more[i].user, more[i].prefix) == key && more[j].day != day;
      assert log[i].day == day && Key(log[i].user, log[i].prefix) == key;
      assert j < |log| ==> log[j].day != day;
    }
  }

  /** Eviction loses nothing of a day, as far as a key is concerned, exactly when no
      spend of that day is overtaken by a record of another day; otherwise it loses
      something, and it never adds. */
  lemma {:induction false} RecentIff(log: seq<Spend>, key: string, day: int)
    requires PositiveCosts(log)
    ensures Recent(log, key, day) <= DayTotal(log, key, day)
    ensures Recent(log, key, day) == DayTotal(log, key, day) <==> !Overtaken(log, key, day)
  {
    hide Key; hide Overtaken; hide SpentOn; hide Recent; hide DayTotal;
    if log == [] {
      NothingRecorded(key, day);
    } else {
      var init, s := log[..|log| - 1], log[|log| - 1];
      assert log == init + [s];
      RecentIff(init, key, day);
      RecentSnoc(init, s, key, day);
      DayTotalSnoc(init, s);
      OvertakenSnoc(init, s, key, day);
      DayTotalPositiveIff(init, key, day);
      if Overtaken(init, key, day) { SpentWhereOvertaken(init, key, day); }
    }
  }

  lemma NothingRecorded(key: string, day: int)
    ensures Recent([], key, day) == DayTotal([], key, day) == 0.0 && !Overtaken([], key, day)
  {
  }

  lemma SpentWhereOvertaken(log: seq<Spend>, key: string, day: int)
    requires Overtaken(log, key, day)
    ensures SpentOn(log, key, day)
  {
    hide Key;
  }

  lemma DayTotalSnoc(log: seq<Spend>, s: Spend)
    ensures forall key, day :: DayTotal(log + [s], key, day) == DayTotal(log, key, day) + if Key(s.user, s.prefix) == key && s.day == day then s.cost else 0.0
  {
    hide Key;
    assert (log + [s])[..|log|] == log;
  }

  /** Where days never go back, no spend of the latest day is ever overtaken. */
  lemma InOrderNothingOvertaken(log: seq<Spend>, key: string, day: int)
    requires forall i, j :: 0 <= i < j < |log| ==> log[i].day <= log[j].day
    requires log != [] ==> log[|log| - 1].day <= day
    ensures !Overtaken(log, key, day)
  {
    hide Key;
  }

  /** A request that read the clock before midnight and gets the lock after one that
      read it later wipes what the other recorded. */
  lemma LateRecordWipes(log: seq<Spend>, s: Spend, late: Spend)
    requires PositiveCosts(log) && s.cost > 0.0 && late.cost > 0.0 && late.day < s.day
    ensures var key := Key(s.user, s.prefix);
      Recent(log + [s] + [late], key, s.day) == 0.0 < DayTotal(log + [s] + [late], key, s.day)
  {
    hide Key;
    var key := Key(s.user, s.prefix);
    RecentSnoc(log + [s], late, key, s.day);
    DayTotalSnoc(log + [s], late);
    DayTotalSnoc(log, s);
    DayTotalPositiveIff(log, key, s.day);
  }

  /** What a ledger shows for a key on a day. */
  ghost function Shown(entries: map<string, Entry>, key: string, day: int): real {
    if key in entries && entries[key].day == day then entries[key].spent else 0.0
  }

  class SpendTracker {
    var entries: map<string, Entry>
    /** The day of the last sweep; None before the first. */
    var lastEvictDay: Option<int>
    /** Every spend recorded under a limit, in the order of the lock. */
    ghost var log: seq<Spend>

    /** The ledger shows the recent stretch of the log, on every day. */
    ghost predicate Valid()
      reads this
    {
      && lastEvictDay == (if log == [] then None else Some(log[|log| - 1].day))
      && (forall k :: k in entries ==> lastEvictDay == Some(entries[k].day))
      && PositiveCosts(log)
      && (forall k, day :: Shown(entries, k, day) == Recent(log, k, day))
    }

    constructor ()
      ensures Valid() && log == []
    {
      entries, lastEvictDay, log := map[], None, [];
    }

    /** `evictStaleLocked`: dropping other days' entries only, unless the last sweep was
        for the same day. */
    method EvictStale(today: int)
      modifies `entries, `lastEvictDay
      ensures lastEvictDay == Some(today)
      ensures entries == if old(lastEvictDay) == Some(today) then old(entries)
                         else map k | k in old(entries) && old(entries)[k].day == today :: old(entries)[k]
    {
      if lastEvictDay == Some(today) {
        return;
      }
      lastEvictDay := Some(today);
      var keys := entries.Keys;
      while keys != {}
        invariant lastEvictDay == Some(today)
        invariant keys <= entries.Keys <= old(entries).Keys
        invariant forall k :: k in old(entries) && (k in keys || old(entries)[k].day == today) ==> k in entries
        invariant forall k :: k in entries ==> entries[k] == old(entries)[k] && (k in keys || entries[k].day == today)
        decreases |keys|
      {
        var k :| k in keys;
        if entries[k].day != today {
          entries := entries - {k};
        }
        keys := keys - {k};
      }
    }

    /** `Record`: adds a positive cost under the limit that matches, if one does. The day
        was read before the lock was taken, so it may be any day. */
    method Record(userID: string, model: string, costUSD: real, limits: seq<Limit>, today: int)
      requires Valid()
      modifies this
      ensures Valid()
      ensures var b := Best(model, limits);
        if costUSD <= 0.0 || b < 0 then log == old(log) && entries == old(entries)
        else log == old(log) + [Spend(userID, limits[b].model, costUSD, today)]
    {
      hide Key; hide Best; hide Recent;
      if costUSD <= 0.0 || |limits| == 0 {
        return;
      }
      var b := MatchSpendLimit(model, limits);
      if b < 0 {
        return;
      }
      var key := Key(userID, limits[b].model);
      ghost var s := Spend(userID, limits[b].model, costUSD, today);
      EvictStale(today);
      SweptLedger(old(entries), entries, old(lastEvictDay), log, today);
      var spent := costUSD;
      if key in entries && entries[key].day == today {
        spent := entries[key].spent + costUSD;
      }
      AddedLedger(entries, log, s, key, spent);
      entries := entries[key := Entry(spent, today)];
      log := log + [s];
    }

    /** `Check` reports exactly the recent spend of the day; the verdict looks ahead by
        the estimate. */
    method Check(userID: string, model: string, limits: seq<Limit>, estimatedCost: real, today: int)
      returns (allowed: bool, spent: real, limit: real)
      requires Valid()
      ensures var b := Best(model, limits);
        if b < 0 then allowed && spent == 0.0 && limit == 0.0
        else
          && spent == Recent(log, Key(userID, limits[b].model), today)
          && limit == limits[b].maxDailyUSD
          && (allowed <==> spent + estimatedCost <= limit)
    {
      hide Key; hide Best;
      var b := MatchSpendLimit(model, limits);
      if b < 0 {
        return true, 0.0, 0.0;
      }
      var key := Key(userID, limits[b].model);
      var cap := limits[b].maxDailyUSD;
      assert Shown(entries, key, today) == Recent(log, key, today);
      if key !in entries || entries[key].day != today {
        return estimatedCost <= cap, 0.0, cap;
      }
      return entries[key].spent + estimatedCost <= cap, entries[key].spent, cap;
    }
  }

  /** A sweep leaves what is recent of its day, and nothing of other days. */
  lemma SweptLedger(entries: map<string, Entry>, swept: map<string, Entry>, last: Option<int>, log: seq<Spend>, today: int)
    requires last == (if log == [] then None else Some(log[|log| - 1].day))
    requires forall k :: k in entries ==> last == Some(entries[k].day)
    requires forall k, day :: Shown(entries, k, day) == Recent(log, k, day)
    requires swept == if last == Some(today) then entries else map k | k in entries && entries[k].day == today :: entries[k]
    ensures forall k :: k in swept ==> swept[k].day == today
    ensures forall k :: Shown(swept, k, today) == Recent(log, k, today)
  {
    hide Recent;
    forall k ensures Shown(swept, k, today) == Recent(log, k, today) {
      assert Shown(entries, k, today) == Recent(log, k, today);
    }
  }

  /** Adding a spend to the swept ledger. */
  lemma AddedLedger(swept: map<string, Entry>, log: seq<Spend>, s: Spend, key: string, spent: real)
    requires key == Key(s.user, s.prefix)
    requires forall k :: k in swept ==> swept[k].day == s.day
    requires forall k :: Shown(swept, k, s.day) == Recent(log, k, s.day)
    requires spent == s.cost + if key in swept then swept[key].spent else 0.0
    ensures forall k, day :: Shown(swept[key := Entry(spent, s.day)], k, day) == Recent(log + [s], k, day)
  {
    hide Recent; hide Key;
    var ledger := swept[key := Entry(spent, s.day)];
    forall k, day ensures Shown(ledger, k, day) == Recent(log + [s], k, day) {
      RecentSnoc(log, s, k, day);
      assert Shown(swept, k, s.day) == Recent(log, k, s.day);
    }
  }

  /** Put together: what `Check` reports is the user's own spend of the day under the
      prefix. Where nothing was overtaken, that is so exactly when no colliding pair
      spent that day; where none did, exactly when nothing was overtaken. */
  lemma CheckReportsOwnSpendIff(log: seq<Spend>, userID: string, model: string, limits: seq<Limit>, today: int)
    requires PositiveCosts(log) && Best(model, limits) >= 0
    ensures var p := limits[Best(model, limits)].model;
      var right := Recent(log, Key(userID, p), today) == Spent(log, userID, p, today);
      && (!Overtaken(log, Key(userID, p), today) ==> (right <==> !Mixed(log, userID, p, today)))
      && (!Mixed(log, userID, p, today) ==> (right <==> !Overtaken(log, Key(userID, p), today)))
  {
    var p := limits[Best(model, limits)].model;
    hide Key; hide Recent; hide DayTotal; hide Overtaken; hide Mixed;
    RecentIff(log, Key(userID, p), today);
    KeyTotalIff(log, userID, p, today);
  }

  /** No pair collides where user IDs or limit prefixes are free of NUL. */
  lemma NulFreeNeverMixes(log: seq<Spend>, user: string, prefix: string, day: int)
    requires (NUL !in user && forall i :: 0 <= i < |log| ==> NUL !in log[i].user)
          || (NUL !in prefix && forall i :: 0 <= i < |log| ==> NUL !in log[i].prefix)
    ensures !Mixed(log, user, prefix, day)
  {
    hide Collide;
    forall i | 0 <= i < |log| ensures !Collide(log[i].user, log[i].prefix, user, prefix) {
      if Collide(log[i].user, log[i].prefix, user, prefix) { CollisionTakesBoth(log[i].user, log[i].prefix, user, prefix); }
    }
  }

  // ----- the per-user limit cache ------------------------------------------------------------

  datatype Fetched = Ok(limits: seq<Limit>) | StoreError

  datatype CacheEntry = CacheEntry(limits: seq<Limit>, fetchedAt: int)

  datatype Fetch = Fetch(user: string, limits: seq<Limit>, at: int)

  /** The last load for a user, or -1. */
  ghost function LastLoad(loads: seq<Fetch>, user: string): (i: int)
    ensures -1 <= i < |loads|
    ensures i >= 0 ==> loads[i].user == user
    ensures forall k :: i < k < |loads| ==> loads[k].user != user
  {
    if loads == [] then -1
    else if loads[|loads| - 1].user == user then |loads| - 1
    else LastLoad(loads[..|loads| - 1], user)
  }

  lemma LastLoadSnoc(loads: seq<Fetch>, f: Fetch)
    ensures forall u :: LastLoad(loads + [f], u) == if f.user == u then |loads| else LastLoad(loads, u)
  {
    assert (loads + [f])[..|loads|] == loads;
  }

  class ModelLimitCache {
    const ttl: int
    var entries: map<string, CacheEntry>
    /** Every successful load from the store. */
    ghost var loads: seq<Fetch>

    ghost predicate Valid()
      reads this
    {
      forall u :: u in entries ==>
        LastLoad(loads, u) >= 0 && loads[LastLoad(loads, u)] == Fetch(u, entries[u].limits, entries[u].fetchedAt)
    }

    constructor (ttl: int)
      ensures Valid() && this.ttl == ttl && loads == []
    {
      this.ttl := ttl;
      entries, loads := map[], [];
    }

    /** The limits are those of the last load for this very user, less than a TTL before. */
    ghost predicate Current(user: string, limits: seq<Limit>, now: int)
      reads this
    {
      var i := LastLoad(loads, user);
      i >= 0 && loads[i].limits == limits && now - loads[i].at < ttl
    }

    /** The fast path, under the read lock. */
    method Peek(user: string, now: int) returns (hit: bool, limits: seq<Limit>)
      requires Valid()
      ensures hit <==> user in entries && now - entries[user].fetchedAt < ttl
      ensures hit ==> limits == entries[user].limits && Current(user, limits, now)
    {
      if user in entries && now - entries[user].fetchedAt < ttl {
        return true, entries[user].limits;
      }
      return false, [];
    }

    /** The slow path, under the write lock: look again (another request may have
        refreshed in between), else load. A store error yields no limits and is not
        cached, so the YAML limits apply. */
    method Refresh(user: string, now: int, store: Fetched, stored: int) returns (limits: seq<Limit>)
      requires Valid() && now <= stored
      modifies this
      ensures Valid()
      ensures if user in old(entries) && now - old(entries)[user].fetchedAt < ttl
              then limits == old(entries)[user].limits && Current(user, limits, now) && entries == old(entries)
              else if store.StoreError? then limits == [] && entries == old(entries)
              else limits == store.limits && loads == old(loads) + [Fetch(user, limits, stored)]
                   && entries == old(entries)[user := CacheEntry(limits, stored)]
    {
      var hit, cached := Peek(user, now);
      if hit {
        return cached;
      }
      if store.StoreError? {
        return [];
      }
      LastLoadSnoc(loads, Fetch(user, store.limits, stored));
      loads := loads + [Fetch(user, store.limits, stored)];
      entries := entries[user := CacheEntry(store.limits, stored)];
      return store.limits;
    }
  }
}
