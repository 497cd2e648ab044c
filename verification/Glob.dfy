/** Model allow-lists: `matchGlob` and `ModelPolicy` (pkg/proxy/policy.go). */
module Glob {
  import opened Text

  const STAR: char := '*'

  // ----- what a pattern means ---------------------------------------------

  /** How many wildcards a pattern has. */
  function Stars(pattern: string): nat {
    if pattern == [] then 0
    else (if pattern[0] == STAR then 1 else 0) + Stars(pattern[1..])
  }

  /** The pattern with its wildcards replaced, left to right, by `fills`. */
  function Fill(pattern: string, fills: seq<string>): string
    requires |fills| == Stars(pattern)
  {
    if pattern == [] then []
    else if pattern[0] == STAR then fills[0] + Fill(pattern[1..], fills[1..])
    else [pattern[0]] + Fill(pattern[1..], fills)
  }

  /** The declarative meaning: some choice of strings for the wildcards spells `name`. */
  ghost predicate Matches(pattern: string, name: string) {
    exists fills: seq<string> :: |fills| == Stars(pattern) && Fill(pattern, fills) == name
  }

  // ----- the meaning, seen through the literal parts -------------------------

  /** `name` is an arbitrary string, then `parts[0]`, then an arbitrary string,
      ..., and ends in the last part. */
  ghost predicate TailMatch(parts: seq<string>, name: string)
    requires |parts| >= 1
    decreases |parts|
  {
    if |parts| == 1 then HasSuffix(name, parts[0])
    else exists k :: OccursAt(name, parts[0], k) && TailMatch(parts[1..], name[k + |parts[0]|..])
  }

  /** An arbitrary leading string can absorb more of the name. */
  lemma TailMatchExtends(parts: seq<string>, name: string, from: nat)
    requires |parts| >= 1 && from <= |name|
    requires TailMatch(parts, name[from..])
    ensures TailMatch(parts, name)
  {
    var rest := name[from..];
    if |parts| > 1 {
      var k :| OccursAt(rest, parts[0], k) && TailMatch(parts[1..], rest[k + |parts[0]|..]);
      assert OccursAt(name, parts[0], from + k);
      assert name[from + k + |parts[0]|..] == rest[k + |parts[0]|..];
    }
  }

  /** The exchange argument: taking the leftmost occurrence of a middle part
      never loses a match, and no occurrence means no match. */
  lemma LeftmostSuffices(parts: seq<string>, name: string)
    requires |parts| >= 2
    ensures var i := Index(name, parts[0]);
      TailMatch(parts, name) <==> i >= 0 && TailMatch(parts[1..], name[i + |parts[0]|..])
  {
    var i := Index(name, parts[0]);
    if TailMatch(parts, name) {
      var k :| OccursAt(name, parts[0], k) && TailMatch(parts[1..], name[k + |parts[0]|..]);
      assert 0 <= i <= k;
      var after := name[i + |parts[0]|..];
      assert after[k - i..] == name[k + |parts[0]|..];
      TailMatchExtends(parts[1..], after, k - i);
    }
  }

  /** The two readings agree: wildcards in the pattern, or parts between wildcards. */
  ghost predicate PartsMatch(parts: seq<string>, name: string)
    requires |parts| >= 1
  {
    if |parts| == 1 then name == parts[0]
    else parts[0] <= name && TailMatch(parts[1..], name[|parts[0]|..])
  }

  lemma MatchesStar(tail: string, name: string)
    ensures Matches([STAR] + tail, name) <==> exists k :: 0 <= k <= |name| && Matches(tail, name[k..])
  {
    var pattern := [STAR] + tail;
    assert pattern[1..] == tail;
    if Matches(pattern, name) {
      var fills :| |fills| == Stars(pattern) && Fill(pattern, fills) == name;
      assert Fill(tail, fills[1..]) == name[|fills[0]|..];
      assert Matches(tail, name[|fills[0]|..]);
    }
    if k :| 0 <= k <= |name| && Matches(tail, name[k..]) {
      var fills :| |fills| == Stars(tail) && Fill(tail, fills) == name[k..];
      var more := [name[..k]] + fills;
      assert more[1..] == fills;
      assert Fill(pattern, more) == name;
    }
  }

  lemma MatchesLiteral(c: char, tail: string, name: string)
    requires c != STAR
    ensures Matches([c] + tail, name) <==> name != [] && name[0] == c && Matches(tail, name[1..])
  {
    var pattern := [c] + tail;
    assert pattern[1..] == tail;
    if Matches(pattern, name) {
      var fills :| |fills| == Stars(pattern) && Fill(pattern, fills) == name;
      assert Fill(tail, fills) == name[1..];
    }
    if name != [] && name[0] == c && Matches(tail, name[1..]) {
      var fills :| |fills| == Stars(tail) && Fill(tail, fills) == name[1..];
      assert Fill(pattern, fills) == name;
    }
  }

  lemma {:induction false} PartsMeanPattern(pattern: string, name: string)
    ensures PartsMatch(Split(pattern, STAR), name) <==> Matches(pattern, name)
    decreases |pattern|, 0
  {
    if pattern == [] {
      assert Fill(pattern, []) == [];
    } else {
      var parts, tail := Split(pattern, STAR), pattern[1..];
      var rest := Split(tail, STAR);
      assert pattern == [pattern[0]] + tail;
      if pattern[0] == STAR {
        assert parts[1..] == rest && name[|parts[0]|..] == name;
        TailMeansPattern(tail, name);
        MatchesStar(tail, name);
      } else {
        assert parts[0] == [pattern[0]] + rest[0] && parts[1..] == rest[1..];
        MatchesLiteral(pattern[0], tail, name);
        if name != [] && name[0] == pattern[0] {
          PartsMeanPattern(tail, name[1..]);
          LiteralHead(pattern[0], rest, parts, name);
        }
      }
    }
  }

  lemma LiteralHead(c: char, rest: seq<string>, parts: seq<string>, name: string)
    requires |rest| >= 1 && parts == [[c] + rest[0]] + rest[1..]
    requires name != [] && name[0] == c
    ensures PartsMatch(parts, name) <==> PartsMatch(rest, name[1..])
  {
    assert name == [c] + name[1..];
    assert parts[1..] == rest[1..];
    assert parts[0] <= name <==> rest[0] <= name[1..];
    if rest[0] <= name[1..] { assert name[|parts[0]|..] == name[1..][|rest[0]|..]; }
  }

  /** A leading wildcard: the tail matches from some point on. */
  lemma {:induction false} TailMeansPattern(tail: string, name: string)
    ensures TailMatch(Split(tail, STAR), name) <==> exists k :: 0 <= k <= |name| && Matches(tail, name[k..])
    decreases |tail|, 1
  {
    var parts := Split(tail, STAR);
    forall k | 0 <= k <= |name|
      ensures PartsMatch(parts, name[k..]) <==> Matches(tail, name[k..])
    {
      PartsMeanPattern(tail, name[k..]);
    }
    TailMatchIsSomeStart(parts, name);
  }

  lemma TailMatchIsSomeStart(parts: seq<string>, name: string)
    requires |parts| >= 1
    ensures TailMatch(parts, name) <==> exists k :: 0 <= k <= |name| && PartsMatch(parts, name[k..])
  {
    if TailMatch(parts, name) {
      if |parts| == 1 {
        assert PartsMatch(parts, name[|name| - |parts[0]|..]);
      } else {
        var k :| OccursAt(name, parts[0], k) && TailMatch(parts[1..], name[k + |parts[0]|..]);
        assert name[k..][|parts[0]|..] == name[k + |parts[0]|..];
        assert name[k..][..|parts[0]|] == parts[0];
        assert PartsMatch(parts, name[k..]);
      }
    }
    if k :| 0 <= k <= |name| && PartsMatch(parts, name[k..]) {
      if |parts| > 1 {
        assert OccursAt(name, parts[0], k) by { assert name[k..][..|parts[0]|] == name[k..k + |parts[0]|]; }
        assert name[k..][|parts[0]|..] == name[k + |parts[0]|..];
      }
    }
  }

  // ----- the matcher ---------------------------------------------------------

  /** `matchGlob`: greedy and one-pass, yet exactly the declarative meaning. */
  method MatchGlob(pattern: string, name: string) returns (ok: bool)
    ensures ok <==> Matches(pattern, name)
  {
    var parts := Split(pattern, STAR);
    PartsMeanPattern(pattern, name);
    if |parts| == 1 {
      LoneSplit(pattern);
      return pattern == name;
    }
    if !(parts[0] <= name) {
      return false;
    }
    var rest := name[|parts[0]|..];
    var i := 1;
    while i < |parts| - 1
      invariant 1 <= i <= |parts| - 1
      invariant TailMatch(parts[i..], rest) <==> Matches(pattern, name)
    {
      LeftmostSuffices(parts[i..], rest);
      assert parts[i..][1..] == parts[i + 1..];
      var idx := Index(rest, parts[i]);
      if idx < 0 {
        return false;
      }
      rest := rest[idx + |parts[i]|..];
      i := i + 1;
    }
    return HasSuffix(rest, parts[|parts| - 1]);
  }

  lemma {:induction false} LoneSplit(s: string)
    requires |Split(s, STAR)| == 1
    ensures Split(s, STAR) == [s]
  {
    if s != [] { LoneSplit(s[1..]); }
  }

  // ----- the allow-list --------------------------------------------------------

  datatype ProviderModels = ProviderModels(provider: string, models: seq<string>)

  /** `NoPolicy` is Go's nil policy: no restrictions. */
  datatype Policy = NoPolicy | Rules(rules: map<string, seq<string>>)

  datatype PolicyResult = Ok(policy: Policy) | EmptyModels(provider: string)

  /** The entry that governs a provider: the last one naming it, in any case. */
  ghost function Governing(cfg: seq<ProviderModels>, provider: string): (i: int)
    ensures -1 <= i < |cfg|
    ensures i >= 0 ==> Lower(cfg[i].provider) == Lower(provider)
    ensures forall k :: i < k < |cfg| ==> Lower(cfg[k].provider) != Lower(provider)
  {
    if cfg == [] then -1
    else if Lower(cfg[|cfg| - 1].provider) == Lower(provider) then |cfg| - 1
    else Governing(cfg[..|cfg| - 1], provider)
  }

  /** What an allow-list permits, read off the configuration itself. */
  ghost predicate Permits(cfg: seq<ProviderModels>, provider: string, model: string) {
    cfg == [] ||
    var i := Governing(cfg, provider);
    i >= 0 && exists p :: p in cfg[i].models && Matches(Lower(p), Lower(model))
  }

  /** What configurations mean: none restricts nothing, a provider without an entry is
      refused, "*" allows everything, and a pattern without a star just itself, in any
      case. */
  lemma PermitsMeans(cfg: seq<ProviderModels>, provider: string, model: string)
    ensures cfg == [] ==> Permits(cfg, provider, model)
    ensures cfg != [] && (forall i :: 0 <= i < |cfg| ==> Lower(cfg[i].provider) != Lower(provider)) ==> !Permits(cfg, provider, model)
    ensures forall i :: 0 <= i < |cfg| && i == Governing(cfg, provider) ==>
      && ("*" in cfg[i].models ==> Permits(cfg, provider, model))
      && ((forall p :: p in cfg[i].models ==> STAR !in p) ==>
           (Permits(cfg, provider, model) <==> exists p :: p in cfg[i].models && Lower(p) == Lower(model)))
  {
    hide Matches; hide Governing;
    assert Lower("*") == "*";
    StarMatches(Lower(model));
    var i := Governing(cfg, provider);
    if i >= 0 {
      forall p | p in cfg[i].models && STAR !in p ensures Matches(Lower(p), Lower(model)) <==> Lower(p) == Lower(model) {
        NoStarInLower(p);
        LiteralMatches(Lower(p), Lower(model));
      }
    }
  }

  lemma NoStarInLower(p: string)
    requires STAR !in p
    ensures STAR !in Lower(p)
  {
    assert forall i :: 0 <= i < |p| ==> Lower(p)[i] == LowerChar(p[i]);
  }

  lemma StarMatches(name: string)
    ensures Matches("*", name)
  {
    MatchesStar("", name);
    assert [STAR] + "" == "*" && name[|name|..] == "";
    LiteralMatches("", "");
  }

  lemma {:induction false} LiteralMatches(p: string, name: string)
    requires STAR !in p
    ensures Matches(p, name) <==> p == name
  {
    PartsMeanPattern(p, name);
  }

  /** `NewModelPolicy`: fails exactly on the first empty model list. */
  method NewModelPolicy(cfg: seq<ProviderModels>) returns (r: PolicyResult)
    ensures r.EmptyModels? <==> exists i :: 0 <= i < |cfg| && cfg[i].models == []
    ensures r.EmptyModels? ==> exists i :: 0 <= i < |cfg| && cfg[i] == ProviderModels(r.provider, [])
                                           && forall j :: 0 <= j < i ==> cfg[j].models != []
    ensures r.Ok? ==> Represents(r.policy, cfg)
  {
    if |cfg| == 0 {
      return Ok(NoPolicy);
    }
    var rules: map<string, seq<string>> := map[];
    for n := 0 to |cfg|
      invariant forall i :: 0 <= i < n ==> cfg[i].models != []
      invariant RulesOf(rules, cfg[..n])
    {
      if |cfg[n].models| == 0 {
        return EmptyModels(cfg[n].provider);
      }
      assert cfg[..n + 1][..n] == cfg[..n];
      rules := rules[Lower(cfg[n].provider) := cfg[n].models];
    }
    assert cfg[..|cfg|] == cfg;
    return Ok(Rules(rules));
  }

  ghost predicate RulesOf(rules: map<string, seq<string>>, cfg: seq<ProviderModels>) {
    forall p: string {:trigger Governing(cfg, p)} :: var i := Governing(cfg, p);
      (Lower(p) in rules <==> i >= 0) && (i >= 0 ==> rules[Lower(p)] == cfg[i].models)
  }

  ghost predicate Represents(policy: Policy, cfg: seq<ProviderModels>) {
    match policy
    case NoPolicy => cfg == []
    case Rules(rules) => cfg != [] && RulesOf(rules, cfg)
  }

  /** `IsAllowed` answers what the configuration says, for any policy built from it. */
  method IsAllowed(policy: Policy, provider: string, model: string, ghost cfg: seq<ProviderModels>)
    returns (ok: bool)
    requires Represents(policy, cfg)
    ensures ok <==> Permits(cfg, provider, model)
  {
    if policy.NoPolicy? {
      return true;
    }
    if Lower(provider) !in policy.rules {
      return false;
    }
    var patterns := policy.rules[Lower(provider)];
    assert patterns == cfg[Governing(cfg, provider)].models;
    for i := 0 to |patterns|
      invariant forall j :: 0 <= j < i ==> !Matches(Lower(patterns[j]), Lower(model))
    {
      var hit := MatchGlob(Lower(patterns[i]), Lower(model));
      if hit {
        return true;
      }
    }
    return false;
  }
}
