/** Price tables and their resolution (pkg/costcalc/calculator.go). */
module Pricing {
  import opened Text
  import opened Wrappers

  datatype ModelPricing = ModelPricing(
    model: string,
    provider: string,
    input: real,            // USD per million input tokens
    output: real,           // USD per million output tokens
    discount: real,
    inputHigh: real,        // rates above the tier threshold; zero means none
    outputHigh: real,
    tierThreshold: int,
    validUntil: Option<int>,
    fallbackInput: real,
    fallbackOutput: real,
    fallbackInputHigh: real,
    fallbackOutputHigh: real)

  type Table = map<string, ModelPricing>

  function Key(provider: string, model: string): string {
    Lower(provider + "/" + model)
  }

  /** Every entry sits under the key of its own provider and model. */
  ghost predicate WellKeyed(t: Table) {
    forall k :: k in t ==> k == Key(t[k].provider, t[k].model)
  }

  // ----- alphabetical order -----------------------------------------------------------

  /** Go's `<` on strings. */
  predicate Before(a: string, b: string) {
    b != "" && (a == "" || a[0] < b[0] || (a[0] == b[0] && Before(a[1..], b[1..])))
  }

  /** One string comes before another exactly when it is a proper beginning of it, or has
      the smaller character where they first differ. */
  lemma {:induction false} BeforeIff(a: string, b: string)
    ensures Before(a, b) <==> a < b || exists i :: 0 <= i < |a| && i < |b| && a[..i] == b[..i] && a[i] < b[i]
  {
    if a != "" && b != "" {
      BeforeIff(a[1..], b[1..]);
      if a[0] == b[0] {
        if a[1..] < b[1..] { assert a == [a[0]] + a[1..] && b == [b[0]] + b[1..]; }
        if a < b { assert a[1..] == b[1..|a|] == b[1..][..|a| - 1]; }
        if i :| 0 <= i < |a| - 1 && i < |b| - 1 && a[1..][..i] == b[1..][..i] && a[1..][i] < b[1..][i] {
          assert a[..i + 1] == [a[0]] + a[1..][..i] && b[..i + 1] == [b[0]] + b[1..][..i];
          assert a[i + 1] < b[i + 1];
        }
        if i :| 0 <= i < |a| && i < |b| && a[..i] == b[..i] && a[i] < b[i] {
          assert a[1..][..i - 1] == a[..i][1..] && b[1..][..i - 1] == b[..i][1..];
          assert a[1..][i - 1] < b[1..][i - 1];
        }
      } else {
        assert a[..0] == b[..0];
        assert forall i :: 0 < i < |a| && i < |b| && a[..i] == b[..i] ==> a[..i][0] == b[..i][0];
      }
    }
  }

  lemma {:induction false} BeforeTotal(a: string, b: string)
    ensures Before(a, b) || Before(b, a) || a == b
  {
    if a != "" && b != "" && a[0] == b[0] {
      BeforeTotal(a[1..], b[1..]);
      assert a == [a[0]] + a[1..] && b == [b[0]] + b[1..];
    }
  }

  lemma {:induction false} BeforeTransitive(a: string, b: string, c: string)
    requires !Before(b, a) && !Before(c, b)
    ensures !Before(c, a)
  {
    if a != "" && c != "" && b != "" && c[0] == a[0] && c[0] == b[0] {
      BeforeTransitive(a[1..], b[1..], c[1..]);
    }
  }

  // ----- the name-only index -------------------------------------------------------------

  ghost predicate Sells(t: Table, m: string) {
    exists k :: k in t && Lower(t[k].model) == m
  }

  /** `p` is the entry for the model name whose provider comes first alphabetically. */
  ghost predicate FirstSeller(t: Table, m: string, p: ModelPricing) {
    && (exists k :: k in t && t[k] == p && Lower(p.model) == m)
    && forall k :: k in t && Lower(t[k].model) == m ==> !Before(Lower(t[k].provider), Lower(p.provider))
  }

  /** The canonical index: the first seller among the overrides, else among the defaults. */
  ghost predicate Canonical(fallback: Table, overrides: Table, defaults: Table) {
    forall m :: && (m in fallback <==> Sells(overrides, m) || Sells(defaults, m))
                && (m in fallback ==> FirstSeller(if Sells(overrides, m) then overrides else defaults, m, fallback[m]))
  }

  lemma KeySplits(provider: string, model: string)
    ensures Key(provider, model) == Lower(provider) + "/" + Lower(model)
  {
    LowerConcat(provider + "/", model);
    LowerConcat(provider, "/");
  }

  /** Entries of one table with one model name have different providers. */
  lemma SellersDiffer(t: Table, k: string, k': string)
    requires WellKeyed(t) && k in t && k' in t
    requires Lower(t[k].model) == Lower(t[k'].model) && Lower(t[k].provider) == Lower(t[k'].provider)
    ensures k == k'
  {
    hide Lower;
    KeySplits(t[k].provider, t[k].model);
    KeySplits(t[k'].provider, t[k'].model);
  }

  lemma FirstSellerUnique(t: Table, m: string, p: ModelPricing, q: ModelPricing)
    requires WellKeyed(t) && FirstSeller(t, m, p) && FirstSeller(t, m, q)
    ensures p == q
  {
    hide Before; hide Lower; hide Key;
    var k :| k in t && t[k] == p && Lower(p.model) == m;
    var k' :| k' in t && t[k'] == q && Lower(q.model) == m;
    BeforeTotal(Lower(p.provider), Lower(q.provider));
    SellersDiffer(t, k, k');
  }

  /** The index is a function of the two tables: no iteration order can show in it. */
  lemma CanonicalUnique(f: Table, g: Table, overrides: Table, defaults: Table)
    requires WellKeyed(overrides) && WellKeyed(defaults)
    requires Canonical(f, overrides, defaults) && Canonical(g, overrides, defaults)
    ensures f == g
  {
    hide FirstSeller; hide Sells; hide WellKeyed;
    assert forall m :: m in f <==> m in g;
    forall m | m in f ensures f[m] == g[m] {
      FirstSellerUnique(if Sells(overrides, m) then overrides else defaults, m, f[m], g[m]);
    }
  }

  // ----- building the index ----------------------------------------------------------------

  /** Each group is nonempty and holds exactly the entries with that model name. */
  ghost predicate Groups(grouped: map<string, seq<ModelPricing>>, source: Table, left: set<string>) {
    && (forall m :: m in grouped ==> grouped[m] != [])
    && (forall m, p :: m in grouped && p in grouped[m] ==> Lower(p.model) == m && Member(p, source, left))
    && (forall k :: k in source && k !in left ==> Lower(source[k].model) in grouped && source[k] in grouped[Lower(source[k].model)])
  }

  ghost predicate Member(p: ModelPricing, source: Table, left: set<string>) {
    exists k :: k in source && k !in left && source[k] == p
  }

  /** Grouping a table by model name, in whatever order the map yields its entries. */
  method GroupByModel(source: Table) returns (grouped: map<string, seq<ModelPricing>>)
    ensures Groups(grouped, source, {})
  {
    hide Lower;
    grouped := map[];
    var keys := source.Keys;
    while keys != {}
      invariant keys <= source.Keys && Groups(grouped, source, keys)
      decreases |keys|
    {
      var k :| k in keys;
      var p := source[k];
      var m := Lower(p.model);
      grouped := grouped[m := (if m in grouped then grouped[m] else []) + [p]];
      keys := keys - {k};
    }
  }

  lemma GroupFirst(grouped: map<string, seq<ModelPricing>>, source: Table, m: string, best: ModelPricing)
    requires Groups(grouped, source, {}) && m in grouped && best in grouped[m]
    requires forall p :: p in grouped[m] ==> !Before(Lower(p.provider), Lower(best.provider))
    ensures FirstSeller(source, m, best)
  {
    hide Lower; hide Before;
    assert Member(best, source, {});
    forall k | k in source && Lower(source[k].model) == m
      ensures !Before(Lower(source[k].provider), Lower(best.provider))
    {
      assert source[k] in grouped[m];
    }
  }

  lemma GroupNames(grouped: map<string, seq<ModelPricing>>, source: Table)
    requires Groups(grouped, source, {})
    ensures forall m :: m in grouped <==> Sells(source, m)
  {
    hide Lower;
    forall m | m in grouped ensures Sells(source, m) {
      var p := grouped[m][0];
      assert Member(p, source, {});
    }
  }

  /** The first provider of a group, keeping the earlier one on ties. */
  method FirstOf(ps: seq<ModelPricing>) returns (best: ModelPricing)
    requires ps != []
    ensures best in ps
    ensures forall p :: p in ps ==> !Before(Lower(p.provider), Lower(best.provider))
  {
    hide Lower; hide Before;
    best := ps[0];
    BeforeIrreflexive(Lower(best.provider));
    for i := 1 to |ps|
      invariant best in ps
      invariant forall j :: 0 <= j < i ==> !Before(Lower(ps[j].provider), Lower(best.provider))
    {
      BeforeIrreflexive(Lower(ps[i].provider));
      if Before(Lower(ps[i].provider), Lower(best.provider)) {
        BeforeAsymmetric(Lower(ps[i].provider), Lower(best.provider));
        forall j | 0 <= j < i ensures !Before(Lower(ps[j].provider), Lower(ps[i].provider)) {
          BeforeTransitive(Lower(ps[i].provider), Lower(best.provider), Lower(ps[j].provider));
        }
        best := ps[i];
      }
    }
  }

  lemma {:induction false} BeforeIrreflexive(a: string)
    ensures !Before(a, a)
  {
    if a != "" { BeforeIrreflexive(a[1..]); }
  }

  lemma {:induction false} BeforeAsymmetric(a: string, b: string)
    requires Before(a, b)
    ensures !Before(b, a)
  {
    if a != "" && b != "" && a[0] == b[0] { BeforeAsymmetric(a[1..], b[1..]); }
  }

  /** One pass of `rebuildFallback`: fill in what the index does not have yet. */
  method Process(source: Table, fallback: Table) returns (r: Table)
    ensures forall m :: m in r <==> m in fallback || Sells(source, m)
    ensures forall m :: m in r ==> if m in fallback then r[m] == fallback[m] else FirstSeller(source, m, r[m])
  {
    hide Lower; hide Before; hide FirstSeller; hide Sells;
    var grouped := GroupByModel(source);
    GroupNames(grouped, source);
    r := fallback;
    var names := grouped.Keys;
    while names != {}
      invariant names <= grouped.Keys
      invariant forall m :: m in r <==> m in fallback || (m in grouped && m !in names)
      invariant forall m :: m in r ==> if m in fallback then r[m] == fallback[m] else FirstSeller(source, m, r[m])
      decreases |names|
    {
      var m :| m in names;
      var best := FirstOf(grouped[m]);
      if m !in r {
        GroupFirst(grouped, source, m, best);
        r := r[m := best];
      }
      names := names - {m};
    }
  }

  // ----- the calculator's tables --------------------------------------------------------------

  datatype CatalogEntry = CatalogEntry(
    provider: string, modelID: string, enabled: bool, input: real, output: real, discount: real,
    inputHigh: real, outputHigh: real, tierThreshold: int)

  /** `clampDiscount`; a real number is never NaN. */
  function ClampDiscount(d: real): (r: real)
    ensures 0.0 <= r <= 1.0
    ensures r > d ==> r == 0.0
    ensures r < d ==> r == 1.0
  {
    if d < 0.0 then 0.0 else if d > 1.0 then 1.0 else d
  }

  function Clamped(p: ModelPricing): ModelPricing {
    p.(discount := ClampDiscount(p.discount))
  }

  function FromCatalog(e: CatalogEntry): ModelPricing {
    ModelPricing(e.modelID, e.provider, e.input, e.output, ClampDiscount(e.discount), e.inputHigh, e.outputHigh,
                 e.tierThreshold, None, 0.0, 0.0, 0.0, 0.0)
  }

  /** A configuration's rows laid over a table: the last row for a key wins. */
  ghost function Overlay(t: Table, rows: seq<ModelPricing>): (r: Table)
    ensures WellKeyed(t) ==> WellKeyed(r)
    ensures forall k :: k in t ==> k in r
  {
    if rows == [] then t
    else
      var p := rows[|rows| - 1];
      Overlay(t, rows[..|rows| - 1])[Key(p.provider, p.model) := Clamped(p)]
  }

  /** The table a catalog describes: its enabled entries. */
  ghost function CatalogTable(entries: seq<CatalogEntry>): (r: Table)
    ensures WellKeyed(r)
  {
    if entries == [] then map[]
    else
      var e, rest := entries[|entries| - 1], CatalogTable(entries[..|entries| - 1]);
      if e.enabled then rest[Key(e.provider, e.modelID) := FromCatalog(e)] else rest
  }

  lemma OverlaySnoc(t: Table, rows: seq<ModelPricing>, p: ModelPricing)
    ensures Overlay(t, rows + [p]) == Overlay(t, rows)[Key(p.provider, p.model) := Clamped(p)]
  {
    hide Key;
    assert (rows + [p])[..|rows|] == rows;
  }

  ghost predicate LastRow(rows: seq<ModelPricing>, i: nat, key: string)
    requires i < |rows|
  {
    Key(rows[i].provider, rows[i].model) == key && forall j :: i < j < |rows| ==> Key(rows[j].provider, rows[j].model) != key
  }

  /** Loading configuration rows: pairs without a row keep what they had. */
  lemma {:induction false} OverlayKeeps(t: Table, rows: seq<ModelPricing>, key: string)
    requires forall i :: 0 <= i < |rows| ==> Key(rows[i].provider, rows[i].model) != key
    ensures (key in Overlay(t, rows) <==> key in t) && (key in t ==> Overlay(t, rows)[key] == t[key])
  {
    hide Key;
    if rows != [] { OverlayKeeps(t, rows[..|rows| - 1], key); }
  }

  /** The last row for a provider and model is the one that counts, with its discount
      brought into range and all else as written. */
  lemma {:induction false} OverlayLists(t: Table, rows: seq<ModelPricing>, i: nat, key: string)
    requires i < |rows| && LastRow(rows, i, key)
    ensures key in Overlay(t, rows)
    ensures var p := Overlay(t, rows)[key];
      && 0.0 <= p.discount <= 1.0 && (0.0 <= rows[i].discount <= 1.0 ==> p.discount == rows[i].discount)
      && p == rows[i].(discount := p.discount)
  {
    hide Key; hide Overlay;
    var init, last := rows[..|rows| - 1], rows[|rows| - 1];
    assert rows == init + [last];
    OverlaySnoc(t, init, last);
    if i < |init| { OverlayLists(t, init, i, key); }
  }

  /** The price of a catalog row is what the row says. */
  ghost predicate SameRates(p: ModelPricing, e: CatalogEntry) {
    && p.provider == e.provider && p.model == e.modelID && p.input == e.input && p.output == e.output
    && p.inputHigh == e.inputHigh && p.outputHigh == e.outputHigh && p.tierThreshold == e.tierThreshold
    && 0.0 <= p.discount <= 1.0 && (0.0 <= e.discount <= 1.0 ==> p.discount == e.discount) && p.validUntil == None
  }

  ghost predicate LastEnabled(entries: seq<CatalogEntry>, i: nat, key: string)
    requires i < |entries|
  {
    && entries[i].enabled && Key(entries[i].provider, entries[i].modelID) == key
    && forall j :: i < j < |entries| && entries[j].enabled ==> Key(entries[j].provider, entries[j].modelID) != key
  }

  lemma CatalogSnoc(entries: seq<CatalogEntry>, e: CatalogEntry)
    ensures CatalogTable(entries + [e])
         == if e.enabled then CatalogTable(entries)[Key(e.provider, e.modelID) := FromCatalog(e)] else CatalogTable(entries)
  {
    hide Key;
    assert (entries + [e])[..|entries|] == entries;
  }

  /** Loading a catalog: only pairs with an enabled row are listed, */
  lemma {:induction false} CatalogListsOnly(entries: seq<CatalogEntry>, key: string) returns (i: nat)
    requires key in CatalogTable(entries)
    ensures i < |entries| && LastEnabled(entries, i, key)
  {
    hide Key; hide CatalogTable;
    if entries == [] {
      NoCatalog();
    } else {
      var n := |entries| - 1;
      var init, last := entries[..n], entries[n];
      assert entries == init + [last];
      CatalogSnoc(init, last);
      if last.enabled && Key(last.provider, last.modelID) == key {
        i := n;
      } else {
        i := CatalogListsOnly(init, key);
      }
    }
  }

  lemma NoCatalog()
    ensures CatalogTable([]) == map[]
  {
  }

  /** and each as its last such row says, without a promotion. */
  lemma {:induction false} CatalogLists(entries: seq<CatalogEntry>, i: nat, key: string)
    requires i < |entries| && LastEnabled(entries, i, key)
    ensures key in CatalogTable(entries) && SameRates(CatalogTable(entries)[key], entries[i])
  {
    hide Key; hide CatalogTable;
    var init, last := entries[..|entries| - 1], entries[|entries| - 1];
    assert entries == init + [last];
    CatalogSnoc(init, last);
    if i < |init| { CatalogLists(init, i, key); }
  }

  class Calculator {
    var defaults: Table
    var overrides: Table
    var fallback: Table
    var globalDiscount: real

    /** After any sequence of loads the name-only index is the canonical one. */
    ghost predicate Valid()
      reads this
    {
      && WellKeyed(defaults) && WellKeyed(overrides)
      && Canonical(fallback, overrides, defaults)
      && 0.0 <= globalDiscount <= 1.0
    }

    constructor NewEmpty()
      ensures Valid() && defaults == map[] && overrides == map[] && globalDiscount == 0.0
    {
      defaults, overrides, fallback, globalDiscount := map[], map[], map[], 0.0;
    }

    method RebuildFallback()
      modifies `fallback
      ensures Canonical(fallback, overrides, defaults)
    {
      hide FirstSeller; hide Sells;
      var fb := Process(overrides, map[]);
      fallback := Process(defaults, fb);
    }

    method LoadFromConfig(discountPercent: real, models: seq<ModelPricing>)
      requires Valid()
      modifies this
      ensures Valid() && defaults == old(defaults)
      ensures overrides == Overlay(old(overrides), models)
      ensures globalDiscount == ClampDiscount(discountPercent)
    {
      hide Canonical; hide Key;
      globalDiscount := ClampDiscount(discountPercent);
      for i := 0 to |models|
        invariant overrides == Overlay(old(overrides), models[..i])
        invariant defaults == old(defaults) && globalDiscount == ClampDiscount(discountPercent)
      {
        assert models[..i + 1][..i] == models[..i];
        overrides := overrides[Key(models[i].provider, models[i].model) := Clamped(models[i])];
      }
      assert models[..|models|] == models;
      RebuildFallback();
    }

    /** Replaces the defaults; the overrides stay. */
    method LoadFromCatalog(entries: seq<CatalogEntry>)
      requires Valid()
      modifies this
      ensures Valid() && overrides == old(overrides) && globalDiscount == old(globalDiscount)
      ensures defaults == CatalogTable(entries)
    {
      hide Canonical; hide Key; hide FromCatalog;
      defaults := map[];
      for i := 0 to |entries|
        invariant defaults == CatalogTable(entries[..i])
        invariant overrides == old(overrides) && globalDiscount == old(globalDiscount)
      {
        assert entries[..i + 1][..i] == entries[..i];
        if !entries[i].enabled {
          continue;
        }
        defaults := defaults[Key(entries[i].provider, entries[i].modelID) := FromCatalog(entries[i])];
      }
      assert entries[..|entries|] == entries;
      RebuildFallback();
    }

    /** A runtime override; its discount is taken as given. */
    method SetPricing(p: ModelPricing)
      requires Valid()
      modifies this
      ensures Valid() && defaults == old(defaults) && globalDiscount == old(globalDiscount)
      ensures overrides == old(overrides)[Key(p.provider, p.model) := p]
    {
      hide Canonical;
      overrides := overrides[Key(p.provider, p.model) := p];
      RebuildFallback();
    }
  }

  // ----- resolution ---------------------------------------------------------------------------

  datatype Tables = Tables(overrides: Table, defaults: Table, fallback: Table)

  const ALIASES: map<string, string> := map[
    "anthropic-direct" := "anthropic",
    "anthropic-vertex" := "anthropic",
    "anthropic-bedrock" := "anthropic",
    "gemini-oai" := "google",
    "gemini-vertex" := "google"]

  function CanonicalProvider(provider: string): string {
    if Lower(provider) in ALIASES then ALIASES[Lower(provider)] else provider
  }

  /** Routes to one provider share its prices; any other provider stands for itself. */
  lemma AliasesResolve(provider: string)
    ensures Lower(provider) in {"anthropic-direct", "anthropic-vertex", "anthropic-bedrock"} ==> CanonicalProvider(provider) == "anthropic"
    ensures Lower(provider) in {"gemini-oai", "gemini-vertex"} ==> CanonicalProvider(provider) == "google"
    ensures Lower(provider) !in {"anthropic-direct", "anthropic-vertex", "anthropic-bedrock", "gemini-oai", "gemini-vertex"}
      ==> CanonicalProvider(provider) == provider
  {
    hide Lower;
  }

  function LookupCandidate(t: Tables, provider: string, candidate: string): Option<ModelPricing> {
    var key := Key(provider, candidate);
    if key in t.overrides then Some(t.overrides[key])
    else if key in t.defaults then Some(t.defaults[key])
    else if Lower(candidate) in t.fallback then Some(t.fallback[Lower(candidate)])
    else None
  }

  predicate AllDigits(s: string) {
    s != "" && forall i :: 0 <= i < |s| ==> IsDigit(s[i])
  }

  /** "claude-opus-4-7" is the dotted "claude-opus-4.7". */
  function NormalizeModelID(model: string): string {
    var idx := LastIndex(model, '-');
    if 0 < idx == |model| - 2 && IsDigit(model[idx + 1]) && IsDigit(model[idx - 1])
    then model[..idx] + "." + model[idx + 1..]
    else model
  }

  /** Rightmost occurrence of `tag` ending by `end`, or -1. */
  function LastIndexOf(s: string, tag: string, end: nat): (r: int)
    requires end <= |s|
    ensures r == -1 || (OccursAt(s, tag, r) && r + |tag| <= end)
    ensures forall k :: r < k && 0 <= k && k + |tag| <= end ==> !OccursAt(s, tag, k)
  {
    if |tag| > end then -1
    else if OccursAt(s, tag, end - |tag|) then end - |tag|
    else if end == 0 then -1
    else LastIndexOf(s, tag, end - 1)
  }

  /** Where `tag` stands as a suffix or before a further "-" suffix, or -1. */
  function HasSuffixTag(m: string, tag: string, end: nat): (r: int)
    requires end <= |m| && tag != ""
    ensures r == -1 || 0 < r < end
    decreases end
  {
    var idx := LastIndexOf(m, tag, end);
    if idx <= 0 then -1
    else if idx + |tag| == |m| || m[idx + |tag|] == '-' then idx
    else HasSuffixTag(m, tag, idx)
  }

  /** The second colon-separated field, when the name has the fine-tune prefix. */
  function FineTuneBase(m: string): string {
    if !("ft:" <= m) then ""
    else var rest := m[3..];
      var i := Index(rest, ":");
      if i < 0 then rest else rest[..i]
  }

  predicate EndsInDate(m: string) {
    |m| > 9 && m[|m| - 9] == '-' && AllDigits(m[|m| - 8..])
  }

  function Without(s: string, c: char): string {
    if s == "" then "" else if s[0] == c then Without(s[1..], c) else [s[0]] + Without(s[1..], c)
  }

  predicate EndsInIsoDate(m: string) {
    |m| > 11
    && var tail := m[|m| - 11..];
      tail[0] == '-' && tail[5] == '-' && tail[8] == '-' && AllDigits(Without(tail[1..], '-'))
  }

  /** The canonical base name behind publisher prefixes, tags and dates; "" if none applies. */
  function ExtractBaseModel(model: string): string {
    var m := Lower(model);
    var slash := LastIndex(m, '/');
    if slash >= 0 then m[slash + 1..]
    else if HasSuffix(m, "-maas") then m[..|m| - 5]
    else if FineTuneBase(m) != "" then FineTuneBase(m)
    else if HasSuffix(m, "-latest") then m[..|m| - 7]
    else if HasSuffix(m, "-stable") then m[..|m| - 7]
    else if HasSuffixTag(m, "-preview", |m|) > 0 then m[..HasSuffixTag(m, "-preview", |m|)]
    else if HasSuffixTag(m, "-exp", |m|) > 0 then m[..HasSuffixTag(m, "-exp", |m|)]
    else if EndsInDate(m) then m[..|m| - 9]
    else if EndsInIsoDate(m) then m[..|m| - 11]
    else ""
  }

  function ResolveCandidate(t: Tables, provider: string, model: string): Option<ModelPricing> {
    var exact := LookupCandidate(t, provider, model);
    if exact.Some? then exact
    else
      var norm := NormalizeModelID(model);
      var dotted := if norm != model then LookupCandidate(t, provider, norm) else None;
      if dotted.Some? then dotted
      else
        var base := ExtractBaseModel(model);
        if base == "" || base == Lower(model) then None
        else
          var based := LookupCandidate(t, provider, base);
          if based.Some? then based
          else
            var normBase := NormalizeModelID(base);
            if normBase != base then LookupCandidate(t, provider, normBase) else None
  }

  /** A promotion that has run out gives way, rate by rate, to its fallback rates where
      they are set; until then, and in everything else, the price is what was listed. */
  lemma PromotionEnds(p: ModelPricing, now: int)
    ensures p.validUntil.None? || now <= p.validUntil.value ==> EffectiveRates(p, now) == p
    ensures var e := EffectiveRates(p, now);
      && (p.fallbackInput <= 0.0 ==> e.input == p.input) && (p.fallbackOutput <= 0.0 ==> e.output == p.output)
      && (p.fallbackInputHigh <= 0.0 ==> e.inputHigh == p.inputHigh) && (p.fallbackOutputHigh <= 0.0 ==> e.outputHigh == p.outputHigh)
      && e == p.(input := e.input, output := e.output, inputHigh := e.inputHigh, outputHigh := e.outputHigh)
    ensures p.validUntil.Some? && now > p.validUntil.value ==>
      var e := EffectiveRates(p, now);
      && (p.fallbackInput > 0.0 ==> e.input == p.fallbackInput) && (p.fallbackOutput > 0.0 ==> e.output == p.fallbackOutput)
      && (p.fallbackInputHigh > 0.0 ==> e.inputHigh == p.fallbackInputHigh)
      && (p.fallbackOutputHigh > 0.0 ==> e.outputHigh == p.fallbackOutputHigh)
  {
  }

  predicate Expired(p: ModelPricing, now: int) {
    p.validUntil.Some? && now > p.validUntil.value
  }

  /** Promotional rates give way to the fallback rates that are set. */
  function EffectiveRates(p: ModelPricing, now: int): ModelPricing {
    if !Expired(p, now) then p
    else p.(input := if p.fallbackInput > 0.0 then p.fallbackInput else p.input,
            output := if p.fallbackOutput > 0.0 then p.fallbackOutput else p.output,
            inputHigh := if p.fallbackInputHigh > 0.0 then p.fallbackInputHigh else p.inputHigh,
            outputHigh := if p.fallbackOutputHigh > 0.0 then p.fallbackOutputHigh else p.outputHigh)
  }

  function Resolve(t: Tables, provider: string, model: string, now: int): Option<ModelPricing> {
    var p := ResolveCandidate(t, CanonicalProvider(provider), model);
    if p.Some? then Some(EffectiveRates(p.value, now)) else None
  }

  /** Tables as the calculator keeps them: the name-only index is canonical. */
  ghost predicate Kept(t: Tables) {
    WellKeyed(t.overrides) && WellKeyed(t.defaults) && Canonical(t.fallback, t.overrides, t.defaults)
  }

  /** The same overrides over a catalog that prices just one model. */
  ghost function OverCatalog(t: Tables, p: ModelPricing): Tables {
    var m := Lower(p.model);
    Tables(t.overrides, map[Key(p.provider, p.model) := p],
           map n | n in t.fallback.Keys + {m} && (Sells(t.overrides, n) ==> n in t.fallback) && (Sells(t.overrides, n) || n == m)
               :: if Sells(t.overrides, n) then t.fallback[n] else p)
  }

  lemma OverCatalogKept(t: Tables, p: ModelPricing)
    requires Kept(t)
    ensures Kept(OverCatalog(t, p))
  {
    hide Key; hide Lower;
    var o, k, m := OverCatalog(t, p), Key(p.provider, p.model), Lower(p.model);
    assert o.defaults[k] == p;
    forall n ensures n in o.fallback <==> Sells(o.overrides, n) || Sells(o.defaults, n) {
      assert Sells(o.defaults, n) <==> n == m;
      assert Sells(t.overrides, n) ==> n in t.fallback;
    }
    forall n | n in o.fallback && !Sells(o.overrides, n) ensures FirstSeller(o.defaults, n, o.fallback[n]) {
      BeforeIrreflexive(Lower(p.provider));
    }
  }

  /** An exact override decides the price; aliases of the provider share it. */
  lemma OverrideDecides(t: Tables, provider: string, model: string, now: int)
    requires Key(CanonicalProvider(provider), model) in t.overrides
    ensures Resolve(t, provider, model, now) == Some(EffectiveRates(t.overrides[Key(CanonicalProvider(provider), model)], now))
  {
    hide Key; hide CanonicalProvider;
  }

  lemma CatalogDecides(t: Tables, provider: string, model: string, now: int, p: ModelPricing)
    requires p.provider == CanonicalProvider(provider) && p.model == model
    requires Key(CanonicalProvider(provider), model) !in t.overrides
    ensures Resolve(OverCatalog(t, p), provider, model, now) == Some(EffectiveRates(p, now))
  {
    hide Key; hide CanonicalProvider; hide Sells;
    var o := OverCatalog(t, p);
    assert Key(p.provider, p.model) in o.defaults;
  }

  ghost predicate SameUnderEveryCatalog(t: Tables, provider: string, model: string, now: int) {
    forall t' :: Kept(t') && t'.overrides == t.overrides ==> Resolve(t', provider, model, now) == Resolve(t, provider, model, now)
  }

  /** The exact condition: a price survives every reload of the catalog iff the
      canonical provider and model have an exact override. */
  lemma OverrideOutlivesCatalogIff(t: Tables, provider: string, model: string, now: int)
    requires Kept(t)
    ensures SameUnderEveryCatalog(t, provider, model, now) <==> Key(CanonicalProvider(provider), model) in t.overrides
  {
    hide Kept; hide Resolve; hide OverCatalog; hide Key; hide CanonicalProvider; hide EffectiveRates;
    if Key(CanonicalProvider(provider), model) in t.overrides {
      forall t' | Kept(t') && t'.overrides == t.overrides ensures Resolve(t', provider, model, now) == Resolve(t, provider, model, now) {
        OverrideDecides(t, provider, model, now);
        OverrideDecides(t', provider, model, now);
      }
    } else {
      var one := FlatPrice(CanonicalProvider(provider), model, 1.0);
      var two := FlatPrice(CanonicalProvider(provider), model, 2.0);
      CatalogDecides(t, provider, model, now, one);
      CatalogDecides(t, provider, model, now, two);
      OverCatalogKept(t, one);
      OverCatalogKept(t, two);
      assert OverCatalog(t, one).overrides == t.overrides == OverCatalog(t, two).overrides by { OverCatalogOverrides(t, one); OverCatalogOverrides(t, two); }
      FlatPricesDiffer(CanonicalProvider(provider), model, now);
    }
  }

  lemma OverCatalogOverrides(t: Tables, p: ModelPricing)
    ensures OverCatalog(t, p).overrides == t.overrides
  {
  }

  function FlatPrice(provider: string, model: string, rate: real): ModelPricing {
    ModelPricing(model, provider, rate, rate, 0.0, 0.0, 0.0, 0, None, 0.0, 0.0, 0.0, 0.0)
  }

  lemma FlatPricesDiffer(provider: string, model: string, now: int)
    ensures EffectiveRates(FlatPrice(provider, model, 1.0), now) != EffectiveRates(FlatPrice(provider, model, 2.0), now)
  {
  }

  // ----- what a name is priced as ---------------------------------------------------------------

  /** Nobody sells a model of that name. */
  ghost predicate Unsold(t: Tables, name: string) {
    !Sells(t.overrides, Lower(name)) && !Sells(t.defaults, Lower(name))
  }

  /** The name is priced as `p`: by the provider's own override, else by its own default,
      else by the alphabetically first provider that sells a model of that name, the
      overrides before the defaults. */
  ghost predicate PricedAs(t: Tables, provider: string, name: string, p: ModelPricing) {
    var key := Lower(provider) + "/" + Lower(name);
    if key in t.overrides then p == t.overrides[key]
    else if key in t.defaults then p == t.defaults[key]
    else FirstSeller(if Sells(t.overrides, Lower(name)) then t.overrides else t.defaults, Lower(name), p)
  }

  /** A lookup finds exactly that price; it finds none exactly when the pair is not
      listed and nobody sells a model of that name. */
  lemma LookupIff(t: Tables, provider: string, name: string)
    requires Kept(t)
    ensures forall p :: LookupCandidate(t, provider, name) == Some(p) <==> PricedAs(t, provider, name, p)
    ensures LookupCandidate(t, provider, name) == None <==>
      Key(provider, name) !in t.overrides && Key(provider, name) !in t.defaults && Unsold(t, name)
  {
    hide Key; hide Lower; hide Before; hide FirstSeller; hide Sells; hide WellKeyed;
    KeySplits(provider, name);
    var m := Lower(name);
    var table := if Sells(t.overrides, m) then t.overrides else t.defaults;
    assert m in t.fallback <==> Sells(t.overrides, m) || Sells(t.defaults, m);
    assert m in t.fallback ==> FirstSeller(table, m, t.fallback[m]);
    forall p | FirstSeller(table, m, p) ensures m in t.fallback && p == t.fallback[m] {
      FirstSellerSells(table, m, p);
      FirstSellerUnique(table, m, p, t.fallback[m]);
    }
  }

  lemma FirstSellerSells(t: Table, m: string, p: ModelPricing)
    requires FirstSeller(t, m, p)
    ensures Sells(t, m)
  {
    hide Lower; hide Before;
    var k :| k in t && t[k] == p && Lower(p.model) == m;
  }

  ghost predicate Unlisted(t: Tables, provider: string, name: string) {
    var key := Lower(provider) + "/" + Lower(name);
    key !in t.overrides && key !in t.defaults && Unsold(t, name)
  }

  /** The first of the names that is priced at all is priced as `p`. */
  ghost predicate FirstPriced(t: Tables, provider: string, names: seq<string>, p: ModelPricing) {
    exists i :: 0 <= i < |names| && PricedAs(t, provider, names[i], p) && forall j :: 0 <= j < i ==> Unlisted(t, provider, names[j])
  }

  lemma {:induction false} FirstHitIff(t: Tables, provider: string, names: seq<string>)
    requires Kept(t)
    ensures forall p :: FirstHit(t, provider, names) == Some(p) <==> FirstPriced(t, provider, names, p)
    ensures FirstHit(t, provider, names) == None <==> forall i :: 0 <= i < |names| ==> Unlisted(t, provider, names[i])
  {
    hide Kept; hide LookupCandidate; hide PricedAs; hide Unlisted;
    if names != [] {
      var name, rest := names[0], names[1..];
      FirstHitIff(t, provider, rest);
      LookupMeans(t, provider, name);
      forall p ensures FirstHit(t, provider, names) == Some(p) <==> FirstPriced(t, provider, names, p) {
        if FirstPriced(t, provider, rest, p) && Unlisted(t, provider, name) {
          var i :| 0 <= i < |rest| && PricedAs(t, provider, rest[i], p) && forall j :: 0 <= j < i ==> Unlisted(t, provider, rest[j]);
          forall j | 0 <= j < i + 1 ensures Unlisted(t, provider, names[j]) { if j > 0 { assert names[j] == rest[j - 1]; } }
          assert names[i + 1] == rest[i];
        }
        if i :| 0 < i < |names| && PricedAs(t, provider, names[i], p) && forall j :: 0 <= j < i ==> Unlisted(t, provider, names[j]) {
          assert Unlisted(t, provider, names[0]);
          forall j | 0 <= j < i - 1 ensures Unlisted(t, provider, rest[j]) { assert rest[j] == names[j + 1]; }
          assert rest[i - 1] == names[i];
        }
        if PricedAs(t, provider, name, p) { assert names[0] == name; }
      }
      assert forall i :: 0 <= i < |rest| ==> rest[i] == names[i + 1];
      if forall i :: 0 <= i < |names| ==> Unlisted(t, provider, names[i]) {
        forall i | 0 <= i < |rest| ensures Unlisted(t, provider, rest[i]) { assert rest[i] == names[i + 1]; }
        assert Unlisted(t, provider, names[0]);
      }
      if Unlisted(t, provider, name) && forall i :: 0 <= i < |rest| ==> Unlisted(t, provider, rest[i]) {
        forall i | 0 <= i < |names| ensures Unlisted(t, provider, names[i]) { if i > 0 { assert names[i] == rest[i - 1]; } }
      }
    }
  }

  lemma LookupMeans(t: Tables, provider: string, name: string)
    requires Kept(t)
    ensures forall p :: LookupCandidate(t, provider, name) == Some(p) <==> PricedAs(t, provider, name, p)
    ensures LookupCandidate(t, provider, name) == None <==> Unlisted(t, provider, name)
  {
    hide Kept; hide LookupCandidate; hide PricedAs; hide Unsold; hide Lower;
    LookupIff(t, provider, name);
    KeySplits(provider, name);
  }

  /** What resolution gives, exactly: the price in force of the first candidate name
      that is priced for the canonical provider, and none when none is. */
  lemma ResolveIff(t: Tables, provider: string, model: string, now: int)
    requires Kept(t)
    ensures var who := CanonicalProvider(provider);
      && (forall p :: FirstPriced(t, who, Candidates(model), p) ==> Resolve(t, provider, model, now) == Some(EffectiveRates(p, now)))
      && (Resolve(t, provider, model, now) == None <==> forall i :: 0 <= i < |Candidates(model)| ==> Unlisted(t, who, Candidates(model)[i]))
  {
    hide Kept; hide ResolveCandidate; hide Candidates; hide FirstHit; hide Unlisted; hide FirstPriced; hide CanonicalProvider; hide EffectiveRates;
    var who := CanonicalProvider(provider);
    ResolutionIsFirstHit(t, who, model);
    FirstHitIff(t, who, Candidates(model));
  }

  /** A model the provider does not list itself is priced as the first provider that
      sells one of that name prices it. */
  lemma OtherSellerPrices(t: Tables, provider: string, model: string, now: int, p: ModelPricing)
    requires Kept(t)
    requires var key := Key(CanonicalProvider(provider), model); key !in t.overrides && key !in t.defaults
    requires var m := Lower(model); FirstSeller(if Sells(t.overrides, m) then t.overrides else t.defaults, m, p)
    ensures Resolve(t, provider, model, now) == Some(EffectiveRates(p, now))
  {
    hide Kept; hide FirstSeller; hide Sells; hide Lower; hide Key; hide CanonicalProvider; hide Resolve; hide EffectiveRates;
    var who := CanonicalProvider(provider);
    KeySplits(who, model);
    ResolveIff(t, provider, model, now);
    CandidatesStart(model);
    assert PricedAs(t, who, Candidates(model)[0], p);
  }

  lemma CandidatesStart(model: string)
    ensures Candidates(model) != [] && Candidates(model)[0] == model
  {
    hide NormalizeModelID; hide ExtractBaseModel; hide Lower;
  }

  // ----- which names are tried -------------------------------------------------------------------

  /** A name ending in a digit, a hyphen and a digit. */
  ghost predicate Dottable(m: string) {
    |m| >= 3 && IsDigit(m[|m| - 1]) && m[|m| - 2] == '-' && IsDigit(m[|m| - 3])
  }

  /** Exactly such a name is dotted, in that place only. */
  lemma NormalizeIff(m: string)
    ensures NormalizeModelID(m) == if Dottable(m) then m[..|m| - 2] + "." + m[|m| - 1..] else m
  {
    if Dottable(m) { assert LastIndex(m, '-') == |m| - 2; }
  }

  /** Case does not matter to the base name, so the following is about lower-case names. */
  lemma CaseIgnored(model: string)
    ensures ExtractBaseModel(Lower(model)) == ExtractBaseModel(model)
  {
    assert Lower(Lower(model)) == Lower(model) by {
      forall i | 0 <= i < |model| ensures Lower(Lower(model))[i] == Lower(model)[i] {
        LowerMeans(model, i);
        LowerMeans(Lower(model), i);
      }
    }
  }

  /** A publisher in front of a name is dropped. */
  lemma PublisherDropped(publisher: string, x: string)
    requires '/' !in x && Lower(x) == x && Lower(publisher) == publisher
    ensures ExtractBaseModel(publisher + "/" + x) == x
  {
    hide HasSuffixTag;
    var m := publisher + "/" + x;
    assert Lower(m) == m by { LowerConcat(publisher + "/", x); LowerConcat(publisher, "/"); }
    assert LastIndex(m, '/') == |publisher| by { assert m[|publisher|] == '/' && forall k :: |publisher| < k < |m| ==> m[k] == x[k - |publisher| - 1]; }
    assert m[|publisher| + 1..] == x;
  }

  /** So is a managed-service suffix. */
  lemma MaasDropped(x: string)
    requires '/' !in x && Lower(x) == x
    ensures ExtractBaseModel(x + "-maas") == x
  {
    hide HasSuffixTag; hide LastIndex;
    var m := x + "-maas";
    assert Lower(m) == m by { LowerConcat(x, "-maas"); assert Lower("-maas") == "-maas"; }
    assert m[|x|..] == "-maas" && m[..|x|] == x;
    assert '/' !in m by { assert forall k :: 0 <= k < |m| ==> m[k] == if k < |x| then x[k] else "-maas"[k - |x|]; }
  }

  lemma SecondField(base: string, rest: string)
    requires base != "" && ':' !in base
    ensures FineTuneBase("ft:" + (base + ":" + rest)) == base
  {
    hide Index;
    var tail := base + ":" + rest;
    assert ("ft:" + tail)[3..] == tail;
    NoColon(base);
    assert ":"[1..] == "";
    IndexAfter(base, ":", rest);
    assert tail[..|base|] == base;
  }

  /** A fine-tuned model is named by its base. */
  lemma FineTuneNamesBase(base: string, rest: string)
    requires base != "" && ':' !in base
    requires var m := "ft:" + (base + ":" + rest); Lower(m) == m && '/' !in m && !HasSuffix(m, "-maas")
    ensures ExtractBaseModel("ft:" + (base + ":" + rest)) == base
  {
    var m := "ft:" + (base + ":" + rest);
    assert LastIndex(m, '/') < 0;
    SecondField(base, rest);
    hide HasSuffixTag; hide LastIndex; hide Index; hide FineTuneBase; hide HasSuffix; hide Lower;
  }

  lemma NoColon(s: string)
    requires ':' !in s
    ensures Index(s, ":") < 0
  {
    hide IndexFrom;
    forall k | 0 <= k ensures !OccursAt(s, ":", k) {
      if k + 1 <= |s| { assert s[k..k + 1][0] == s[k]; }
    }
  }

  /** A plain lower-case name: no publisher, no managed-service suffix, no fine-tune. */
  ghost predicate PlainName(m: string) {
    Lower(m) == m && '/' !in m && !HasSuffix(m, "-maas") && FineTuneBase(m) == ""
  }

  lemma TaggedWord(m: string)
    requires PlainName(m)
    ensures HasSuffix(m, "-latest") || HasSuffix(m, "-stable") ==> ExtractBaseModel(m) == m[..|m| - 7]
  {
    assert LastIndex(m, '/') < 0;
    hide HasSuffixTag; hide LastIndex; hide FineTuneBase; hide HasSuffix; hide Lower;
    SuffixLength(m, "-latest");
    SuffixLength(m, "-stable");
  }

  lemma SuffixLength(m: string, suffix: string)
    ensures HasSuffix(m, suffix) ==> |suffix| <= |m|
  {
  }

  /** A plain name that ends in a word tag loses it. */
  lemma WordTagDropped(x: string, tag: string)
    requires (tag == "-latest" || tag == "-stable") && PlainName(x + tag)
    ensures ExtractBaseModel(x + tag) == x
  {
    hide PlainName; hide ExtractBaseModel;
    var m := x + tag;
    assert m[|m| - 7..] == tag && m[..|m| - 7] == x;
    TaggedWord(m);
  }

  /** `tag` stands at `k`, inside the name, at its end or before a further hyphen. */
  ghost predicate TagAt(m: string, tag: string, k: int) {
    k > 0 && OccursAt(m, tag, k) && (k + |tag| == |m| || m[k + |tag|] == '-')
  }

  /** The tag found is the rightmost one in such a place. */
  lemma {:induction false} SuffixTagIff(m: string, tag: string, end: nat)
    requires end <= |m| && tag != "" && tag[0] !in tag[1..]
    ensures var r := HasSuffixTag(m, tag, end);
      && (r > 0 ==> TagAt(m, tag, r) && r + |tag| <= end)
      && forall k :: r < k && k + |tag| <= end ==> !TagAt(m, tag, k)
    decreases end
  {
    var idx := LastIndexOf(m, tag, end);
    if idx > 0 && !TagAt(m, tag, idx) {
      SuffixTagIff(m, tag, idx);
      forall k | 0 < k < idx && idx < k + |tag| ensures !OccursAt(m, tag, k) {
        NoSelfOverlap(m, tag, k, idx);
      }
    }
  }

  lemma NoSelfOverlap(m: string, tag: string, k: int, idx: int)
    requires tag != "" && tag[0] !in tag[1..] && OccursAt(m, tag, idx) && 0 <= k < idx < k + |tag|
    ensures !OccursAt(m, tag, k)
  {
    if k + |tag| <= |m| {
      assert m[idx..idx + |tag|][0] == m[idx];
      assert m[k..k + |tag|][idx - k] == m[idx];
      assert tag[1..][idx - k - 1] == tag[idx - k];
    }
  }

  /** A plain name without word tags is cut at its preview tag or, without one, at its
      experiment tag. */
  lemma PreviewDropped(m: string, k: nat)
    requires PlainName(m) && !HasSuffix(m, "-latest") && !HasSuffix(m, "-stable")
    requires TagAt(m, "-preview", k) && forall j :: j > k ==> !TagAt(m, "-preview", j)
    ensures ExtractBaseModel(m) == m[..k]
  {
    assert LastIndex(m, '/') < 0;
    hide HasSuffixTag; hide LastIndex; hide FineTuneBase; hide HasSuffix; hide Lower;
    SuffixTagIff(m, "-preview", |m|);
  }

  lemma ExperimentDropped(m: string, k: nat)
    requires PlainName(m) && !HasSuffix(m, "-latest") && !HasSuffix(m, "-stable") && forall j :: !TagAt(m, "-preview", j)
    requires TagAt(m, "-exp", k) && forall j :: j > k ==> !TagAt(m, "-exp", j)
    ensures ExtractBaseModel(m) == m[..k]
  {
    assert LastIndex(m, '/') < 0;
    hide HasSuffixTag; hide LastIndex; hide FineTuneBase; hide HasSuffix; hide Lower;
    SuffixTagIff(m, "-preview", |m|);
    SuffixTagIff(m, "-exp", |m|);
  }

  lemma {:induction false} DigitsAndHyphens(s: string)
    requires forall i :: 0 <= i < |s| ==> IsDigit(s[i]) || s[i] == '-'
    ensures forall i :: 0 <= i < |Without(s, '-')| ==> IsDigit(Without(s, '-')[i])
    ensures (exists i :: 0 <= i < |s| && IsDigit(s[i])) ==> Without(s, '-') != ""
  {
    if s != "" {
      assert forall i :: 0 <= i < |s[1..]| ==> s[1..][i] == s[i + 1];
      DigitsAndHyphens(s[1..]);
      if s[0] == '-' {
        if i :| 0 <= i < |s| && IsDigit(s[i]) { assert s[1..][i - 1] == s[i]; }
      }
    }
  }

  /** A plain, untagged name that ends in an ISO date loses it. */
  lemma IsoDateDropped(x: string, date: string)
    requires |date| == 10 && date[4] == '-' && date[7] == '-' && forall i :: 0 <= i < 10 && i != 4 && i != 7 ==> IsDigit(date[i])
    requires x != "" && PlainName(x + "-" + date) && forall j :: !TagAt(x + "-" + date, "-preview", j) && !TagAt(x + "-" + date, "-exp", j)
    ensures ExtractBaseModel(x + "-" + date) == x
  {
    var m := x + "-" + date;
    assert m[|m| - 11] == '-' && m[|m| - 10..] == date && m[..|m| - 11] == x;
    assert m[|m| - 1] == date[9] && m[|m| - 9] == date[1];
    NoWordSuffix(m);
    IsoDateEnds(m, date);
    assert LastIndex(m, '/') < 0;
    assert !EndsInDate(m);
    hide HasSuffixTag; hide LastIndex; hide FineTuneBase; hide HasSuffix; hide Lower; hide EndsInIsoDate; hide EndsInDate;
    SuffixTagIff(m, "-preview", |m|);
    SuffixTagIff(m, "-exp", |m|);
  }

  lemma IsoDateEnds(m: string, date: string)
    requires |m| > 11 && |date| == 10 && m[|m| - 11] == '-' && m[|m| - 10..] == date && date[4] == '-' && date[7] == '-'
    requires forall i :: 0 <= i < 10 && i != 4 && i != 7 ==> IsDigit(date[i])
    ensures EndsInIsoDate(m)
  {
    hide Without;
    var tail := m[|m| - 11..];
    assert tail[1..] == date && tail[5] == date[4] && tail[8] == date[7];
    assert IsDigit(date[0]);
    DigitsAndHyphens(date);
  }

  /** The names tried, in order. */
  ghost function Candidates(model: string): seq<string> {
    var norm, base := NormalizeModelID(model), ExtractBaseModel(model);
    [model]
    + (if norm != model then [norm] else [])
    + (if base == "" || base == Lower(model) then []
       else [base] + if NormalizeModelID(base) != base then [NormalizeModelID(base)] else [])
  }

  ghost function FirstHit(t: Tables, provider: string, names: seq<string>): Option<ModelPricing> {
    if names == [] then None
    else
      var p := LookupCandidate(t, provider, names[0]);
      if p.Some? then p else FirstHit(t, provider, names[1..])
  }

  /** Resolution is the first hit among the candidate names. */
  lemma ResolutionIsFirstHit(t: Tables, provider: string, model: string)
    ensures ResolveCandidate(t, provider, model) == FirstHit(t, provider, Candidates(model))
  {
    hide LookupCandidate; hide ExtractBaseModel; hide NormalizeModelID; hide Lower;
    var norm, base := NormalizeModelID(model), ExtractBaseModel(model);
    var normBase := NormalizeModelID(base);
    var last := if normBase != base then [normBase] else [];
    var tail := if base == "" || base == Lower(model) then [] else [base] + last;
    var mid := (if norm != model then [norm] else []) + tail;
    assert Candidates(model) == [model] + mid;
    FirstHitCons(t, provider, model, mid);
    if norm != model { FirstHitCons(t, provider, norm, tail); } else { assert mid == tail; }
    FirstHitCons(t, provider, base, last);
    FirstHitCons(t, provider, normBase, []);
    assert [normBase] + [] == [normBase];
  }

  lemma FirstHitCons(t: Tables, provider: string, name: string, names: seq<string>)
    ensures FirstHit(t, provider, []) == None
    ensures FirstHit(t, provider, [name] + names)
         == if LookupCandidate(t, provider, name).Some? then LookupCandidate(t, provider, name) else FirstHit(t, provider, names)
  {
    hide LookupCandidate;
    assert ([name] + names)[1..] == names;
  }

  /** The name as written and, where that differs, dotted. */
  ghost function Spelled(name: string): seq<string> {
    if NormalizeModelID(name) != name then [name, NormalizeModelID(name)] else [name]
  }

  lemma {:induction false} FirstHitPrefix(t: Tables, provider: string, names: seq<string>, more: seq<string>)
    requires FirstHit(t, provider, names).Some?
    ensures FirstHit(t, provider, names + more) == FirstHit(t, provider, names)
  {
    hide LookupCandidate;
    assert (names + more)[1..] == names[1..] + more;
    if LookupCandidate(t, provider, names[0]).None? { FirstHitPrefix(t, provider, names[1..], more); }
  }

  ghost predicate PlainDated(x: string, date: string) {
    && |date| == 8 && AllDigits(date) && x != "" && Lower(x) == x
    && var m := x + "-" + date;
      && '/' !in m && FineTuneBase(m) == ""
      && HasSuffixTag(m, "-preview", |m|) <= 0 && HasSuffixTag(m, "-exp", |m|) <= 0
  }

  lemma SnapshotBase(x: string, date: string)
    requires PlainDated(x, date)
    ensures var m := x + "-" + date; Lower(m) == m && NormalizeModelID(m) == m && ExtractBaseModel(m) == x
  {
    hide HasSuffixTag; hide NormalizeModelID;
    var m := x + "-" + date;
    assert Lower(m) == m by { LowerConcat(x + "-", date); LowerConcat(x, "-"); DigitsLower(date); }
    assert m[|m| - 9] == '-' && m[|m| - 8..] == date && m[..|m| - 9] == x;
    assert IsDigit(m[|m| - 1]) by { assert m[|m| - 1] == date[7]; }
    DateNotDotted(x, date);
    assert ExtractBaseModel(m) == x by { NoWordSuffix(m); }
  }

  lemma DateNotDotted(x: string, date: string)
    requires |date| == 8 && AllDigits(date)
    ensures NormalizeModelID(x + "-" + date) == x + "-" + date
  {
    var m := x + "-" + date;
    assert LastIndex(m, '-') == |x| by {
      assert m[|x|] == '-' && forall k :: |x| < k < |m| ==> m[k] == date[k - |x| - 1];
    }
  }

  /** The names tried for a dated snapshot: its own, then those of the name it dates. */
  lemma SnapshotCandidates(x: string, date: string)
    requires PlainDated(x, date)
    ensures Candidates(x + "-" + date) == [x + "-" + date] + Spelled(x)
  {
    SnapshotBase(x, date);
    assert x != "";
    hide PlainDated; hide NormalizeModelID; hide ExtractBaseModel; hide Lower;
    assert |x + "-" + date| > |x|;
  }

  lemma SpelledFirst(x: string) returns (more: seq<string>)
    ensures Candidates(x) == Spelled(x) + more
  {
    hide NormalizeModelID; hide ExtractBaseModel; hide Lower;
    more := Candidates(x)[|Spelled(x)|..];
  }

  /** A dated snapshot ("x-20250514") of a plain lower-case name is priced by its own
      entry or else by those of the name, as written or dotted; so, unlisted itself, it
      costs what the name costs wherever one of those is listed. */
  lemma DatedSnapshotPricedAsBase(t: Tables, provider: string, x: string, date: string)
    requires PlainDated(x, date)
    ensures var own := LookupCandidate(t, provider, x + "-" + date);
      var named := FirstHit(t, provider, Spelled(x));
      && ResolveCandidate(t, provider, x + "-" + date) == (if own.Some? then own else named)
      && (own.None? && named.Some? ==> ResolveCandidate(t, provider, x + "-" + date) == ResolveCandidate(t, provider, x))
  {
    hide LookupCandidate; hide ResolveCandidate; hide Candidates; hide Spelled; hide FirstHit; hide PlainDated;
    var m := x + "-" + date;
    ResolutionIsFirstHit(t, provider, m);
    ResolutionIsFirstHit(t, provider, x);
    SnapshotCandidates(x, date);
    FirstHitCons(t, provider, m, Spelled(x));
    var more := SpelledFirst(x);
    if FirstHit(t, provider, Spelled(x)).Some? { FirstHitPrefix(t, provider, Spelled(x), more); }
  }

  lemma DigitsLower(s: string)
    requires forall i :: 0 <= i < |s| ==> IsDigit(s[i])
    ensures Lower(s) == s
  {
  }

  lemma NoWordSuffix(m: string)
    requires m != "" && IsDigit(m[|m| - 1])
    ensures !HasSuffix(m, "-maas") && !HasSuffix(m, "-latest") && !HasSuffix(m, "-stable")
  {
    LastCharDecides(m, "-maas");
    LastCharDecides(m, "-latest");
    LastCharDecides(m, "-stable");
  }

  lemma LastCharDecides(m: string, suffix: string)
    requires m != "" && suffix != ""
    ensures HasSuffix(m, suffix) ==> m[|m| - 1] == suffix[|suffix| - 1]
  {
    if |suffix| <= |m| {
      assert m[|m| - |suffix|..][|suffix| - 1] == m[|m| - 1];
    }
  }
}
