/** The in-memory flow correlator (pkg/hubbleaudit/correlator.go): a ring of the
    most recent flows with two incrementally maintained secondary indexes. */
module Correlator {
  import opened Text

  datatype Endpoint = Endpoint(ns: string, pod: string, labels: seq<string>, ip: string, port: nat, identity: nat)

  datatype Flow = Flow(time: int, source: Endpoint, destination: Endpoint, verdict: string, kind: string,
                       summary: string, isReply: bool, observationPoint: string)

  datatype TimestampedFlow = TimestampedFlow(flow: Flow, ingestedAt: int)

  // ----- keys ------------------------------------------------------------------

  function PodKey(ep: Endpoint): string {
    if ep.ns == "" || ep.pod == "" then "" else ep.ns + "/" + ep.pod
  }

  function Decimal(n: nat): (s: string)
    ensures s != "" && forall c :: c in s ==> '0' <= c <= '9'
  {
    var digit := [('0' as int + n % 10) as char];
    if n < 10 then digit else Decimal(n / 10) + digit
  }

  const ARROW: string := "\U{2192}"

  function HostPort(ep: Endpoint): string {
    ep.ip + ":" + Decimal(ep.port)
  }

  function TupleKey(f: Flow): string {
    if f.source.ip == "" || f.destination.ip == "" then ""
    else HostPort(f.source) + ARROW + HostPort(f.destination)
  }

  lemma {:induction false} DecimalInjective(m: nat, n: nat)
    requires Decimal(m) == Decimal(n)
    ensures m == n
    decreases m
  {
    var s := Decimal(m);
    assert s[|s| - 1] as int - '0' as int == m % 10 == n % 10;
    assert m >= 10 <==> |s| > 1;
    assert n >= 10 <==> |s| > 1;
    if |s| > 1 {
      assert Decimal(m / 10) == s[..|s| - 1] == Decimal(n / 10);
      DecimalInjective(m / 10, n / 10);
    }
  }

  /** What a pod key identifies, exactly: one pod, unless a namespace goes on, past a
      slash, with the beginning of the other pod's name. */
  lemma PodKeyIff(a: Endpoint, b: Endpoint)
    ensures PodKey(a) != "" && PodKey(b) != "" ==>
      (PodKey(a) == PodKey(b) <==>
        (a.ns == b.ns && a.pod == b.pod) || Overlap(a.ns, a.pod, '/', b.ns, b.pod) || Overlap(b.ns, b.pod, '/', a.ns, a.pod))
  {
    hide Overlap;
    assert "/" == ['/'];
    JoinedIff(a.ns, a.pod, '/', b.ns, b.pod);
  }

  /** Such a pair takes a slash in a namespace and one in a pod name; Kubernetes
      allows neither. */
  lemma PodOverlapTakesBoth(a: Endpoint, b: Endpoint)
    requires Overlap(a.ns, a.pod, '/', b.ns, b.pod)
    ensures '/' in b.ns && '/' in a.pod
  {
  }

  ghost predicate SameConnection(f: Flow, g: Flow) {
    && f.source.ip == g.source.ip && f.source.port == g.source.port
    && f.destination.ip == g.destination.ip && f.destination.port == g.destination.port
  }

  ghost predicate ArrowOverlap(f: Flow, g: Flow) {
    Overlap(HostPort(f.source), HostPort(f.destination), ARROW[0], HostPort(g.source), HostPort(g.destination))
  }

  /** What a tuple key identifies, exactly: one connection, unless an address goes on
      past an arrow; colons inside the addresses (IPv6) do no harm. */
  lemma TupleKeyIff(f: Flow, g: Flow)
    ensures TupleKey(f) != "" && TupleKey(g) != "" ==>
      (TupleKey(f) == TupleKey(g) <==> SameConnection(f, g) || ArrowOverlap(f, g) || ArrowOverlap(g, f))
  {
    hide Overlap; hide HostPort;
    assert ARROW == [ARROW[0]];
    JoinedIff(HostPort(f.source), HostPort(f.destination), ARROW[0], HostPort(g.source), HostPort(g.destination));
    HostPortIff(f.source, g.source);
    HostPortIff(f.destination, g.destination);
  }

  /** Such a pair takes an arrow in a source and one in a destination address. */
  lemma ArrowOverlapTakesBoth(f: Flow, g: Flow)
    requires ArrowOverlap(f, g)
    ensures ARROW[0] in g.source.ip && ARROW[0] in f.destination.ip
  {
    hide HostPort;
    if ARROW[0] !in g.source.ip { NoArrow(g.source); }
    if ARROW[0] !in f.destination.ip { NoArrow(f.destination); }
  }

  lemma NoArrow(ep: Endpoint)
    requires ARROW[0] !in ep.ip
    ensures ARROW[0] !in HostPort(ep)
  {
  }

  lemma HostPortIff(a: Endpoint, b: Endpoint)
    ensures HostPort(a) == HostPort(b) <==> a.ip == b.ip && a.port == b.port
  {
    assert ":" == [':'];
    if HostPort(a) == HostPort(b) {
      CutLast(a.ip, Decimal(a.port), ':', b.ip, Decimal(b.port));
      DecimalInjective(a.port, b.port);
    }
  }

  /** The pod keys a flow is filed under. */
  function PodKeys(e: TimestampedFlow): set<string> {
    {PodKey(e.flow.source), PodKey(e.flow.destination)} - {""}
  }

  /** The network-tuple keys a flow is filed under. */
  function TupleKeys(e: TimestampedFlow): set<string> {
    {TupleKey(e.flow)} - {""}
  }

  // ----- the reference: a plain scan of the history -----------------------------------

  /** The two indexes: what a flow is filed under. */
  datatype IndexKind = ByPod | ByTuple

  function KeysOf(kind: IndexKind, e: TimestampedFlow): set<string> {
    match kind
    case ByPod => PodKeys(e)
    case ByTuple => TupleKeys(e)
  }

  /** The ring slot of flow number `k`: slots are handed out round-robin. */
  ghost function Slot(k: nat, n: nat): (s: nat)
    requires n > 0
    ensures s < n
  {
    if k == 0 then 0
    else var s := Slot(k - 1, n); if s + 1 == n then 0 else s + 1
  }

  /** Slots, in ingestion order, of the flows number `lo`..`hi-1` carrying `key`. */
  ghost function Slots(h: seq<TimestampedFlow>, lo: nat, hi: nat, n: nat, kind: IndexKind, key: string): (s: seq<nat>)
    requires lo <= hi <= |h| && n > 0
    ensures forall i :: 0 <= i < |s| ==> s[i] < n
    decreases hi - lo
  {
    if lo == hi then []
    else
      var s := Slots(h, lo, hi - 1, n, kind, key);
      if key in KeysOf(kind, h[hi - 1]) then s + [Slot(hi - 1, n)] else s
  }

  /** The flow, if it was both observed and ingested no earlier than `cutoff`. */
  ghost function Fresh(e: TimestampedFlow, cutoff: int): seq<Flow> {
    if cutoff <= e.ingestedAt && cutoff <= e.flow.time then [e.flow] else []
  }

  /** The flows of `es` carrying `key` that are fresh, oldest first. */
  ghost function Scan(es: seq<TimestampedFlow>, kind: IndexKind, key: string, cutoff: int): seq<Flow> {
    if es == [] then []
    else
      var e := es[|es| - 1];
      var rest := Scan(es[..|es| - 1], kind, key, cutoff);
      if key in KeysOf(kind, e) then rest + Fresh(e, cutoff) else rest
  }

  type FlowIndex = map<string, seq<nat>>

  function Lookup(idx: FlowIndex, key: string): seq<nat> {
    if key in idx then idx[key] else []
  }

  ghost predicate NoEmptyList(idx: FlowIndex) {
    forall key :: key in idx ==> idx[key] != []
  }

  /** Every key finds exactly its slots in the window, and no key is kept for none. */
  ghost predicate Indexes(idx: FlowIndex, h: seq<TimestampedFlow>, lo: nat, n: nat, kind: IndexKind)
    requires lo <= |h| && n > 0
  {
    NoEmptyList(idx) && forall key :: Lookup(idx, key) == Slots(h, lo, |h|, n, kind, key)
  }

  // ----- slots ---------------------------------------------------------------------------

  lemma {:induction false} SlotAfter(k: nat, d: nat, n: nat)
    requires d <= n && n > 0
    ensures Slot(k + d, n) == if Slot(k, n) + d < n then Slot(k, n) + d else Slot(k, n) + d - n
  {
    if d > 0 { SlotAfter(k, d - 1, n); }
  }

  lemma NextHead(k: nat, n: nat)
    requires n > 0
    ensures (Slot(k, n) + 1) % n == Slot(k + 1, n)
  {
  }

  lemma {:induction false} SlotsPrefix(h: seq<TimestampedFlow>, e: TimestampedFlow, lo: nat, hi: nat, n: nat, kind: IndexKind, key: string)
    requires lo <= hi <= |h| && n > 0
    ensures Slots(h + [e], lo, hi, n, kind, key) == Slots(h, lo, hi, n, kind, key)
    decreases hi
  {
    if lo < hi { SlotsPrefix(h, e, lo, hi - 1, n, kind, key); }
  }

  /** The oldest flow of the window holds the front of each of its lists. */
  lemma {:induction false} SlotsFront(h: seq<TimestampedFlow>, lo: nat, hi: nat, n: nat, kind: IndexKind, key: string)
    requires lo < hi <= |h| && n > 0
    ensures Slots(h, lo, hi, n, kind, key)
         == (if key in KeysOf(kind, h[lo]) then [Slot(lo, n)] else []) + Slots(h, lo + 1, hi, n, kind, key)
    decreases hi
  {
    if lo + 1 < hi {
      SlotsFront(h, lo, hi - 1, n, kind, key);
    } else {
      assert Slots(h, lo, lo, n, kind, key) == [];
    }
  }

  ghost predicate FromWindow(slot: nat, h: seq<TimestampedFlow>, lo: nat, hi: nat, n: nat, kind: IndexKind, key: string)
    requires lo <= hi <= |h| && n > 0
  {
    exists k :: lo <= k < hi && slot == Slot(k, n) && key in KeysOf(kind, h[k])
  }

  ghost predicate Distinct(s: seq<nat>) {
    forall i, j :: 0 <= i < j < |s| ==> s[i] != s[j]
  }

  /** No slot appears twice in a list, and each belongs to a flow of the window. */
  lemma {:induction false} SlotsDistinct(h: seq<TimestampedFlow>, lo: nat, hi: nat, n: nat, kind: IndexKind, key: string)
    requires lo <= hi <= |h| && hi <= lo + n && n > 0
    ensures Distinct(Slots(h, lo, hi, n, kind, key))
    ensures forall slot :: slot in Slots(h, lo, hi, n, kind, key) ==> FromWindow(slot, h, lo, hi, n, kind, key)
    decreases hi
  {
    if lo < hi {
      SlotsDistinct(h, lo, hi - 1, n, kind, key);
      forall k | lo <= k < hi - 1 ensures Slot(k, n) != Slot(hi - 1, n) { SlotAfter(k, hi - 1 - k, n); }
      var s := Slots(h, lo, hi - 1, n, kind, key);
      assert Slot(hi - 1, n) !in s;
    }
  }

  /** Some flow of the window is filed under the key. */
  ghost predicate Filed(es: seq<TimestampedFlow>, kind: IndexKind, key: string) {
    exists i :: 0 <= i < |es| && key in KeysOf(kind, es[i])
  }

  lemma {:induction false} SlotsNonempty(h: seq<TimestampedFlow>, lo: nat, hi: nat, n: nat, kind: IndexKind, key: string)
    requires lo <= hi <= |h| && n > 0
    ensures Slots(h, lo, hi, n, kind, key) != [] <==> Filed(h[lo..hi], kind, key)
    decreases hi
  {
    if lo < hi {
      SlotsNonempty(h, lo, hi - 1, n, kind, key);
      var es, es' := h[lo..hi - 1], h[lo..hi];
      assert es' == es + [h[hi - 1]];
      if i :| 0 <= i < |es| && key in KeysOf(kind, es[i]) { assert es'[i] == es[i]; }
      if key in KeysOf(kind, h[hi - 1]) { assert es'[|es|] == h[hi - 1]; }
      if i :| 0 <= i < |es'| && key in KeysOf(kind, es'[i]) && i < |es| { assert es[i] == es'[i]; }
    }
  }

  /** Reading the ring at a slot list, dropping what is older than `cutoff`. */
  ghost function ReadRing(ring: seq<TimestampedFlow>, slots: seq<nat>, cutoff: int): seq<Flow>
    requires forall i :: 0 <= i < |slots| ==> slots[i] < |ring|
  {
    if slots == [] then []
    else ReadRing(ring, slots[..|slots| - 1], cutoff) + Fresh(ring[slots[|slots| - 1]], cutoff)
  }

  ghost predicate Holds(ring: seq<TimestampedFlow>, h: seq<TimestampedFlow>, lo: nat)
    requires lo <= |h| && |ring| > 0
  {
    forall k :: lo <= k < |h| ==> ring[Slot(k, |ring|)] == h[k]
  }

  lemma ReadSnoc(ring: seq<TimestampedFlow>, slots: seq<nat>, x: nat, cutoff: int)
    requires x < |ring| && forall i :: 0 <= i < |slots| ==> slots[i] < |ring|
    ensures ReadRing(ring, slots + [x], cutoff) == ReadRing(ring, slots, cutoff) + Fresh(ring[x], cutoff)
  {
    assert (slots + [x])[..|slots|] == slots;
  }

  lemma ReadNothing(ring: seq<TimestampedFlow>, es: seq<TimestampedFlow>, kind: IndexKind, key: string, cutoff: int)
    requires es == []
    ensures ReadRing(ring, [], cutoff) == Scan(es, kind, key, cutoff) == []
  {
  }

  lemma SlotsUnfold(h: seq<TimestampedFlow>, lo: nat, hi: nat, n: nat, kind: IndexKind, key: string)
    requires lo <= hi <= |h| && n > 0
    ensures lo == hi ==> Slots(h, lo, hi, n, kind, key) == []
    ensures lo < hi && key in KeysOf(kind, h[hi - 1])
      ==> Slots(h, lo, hi, n, kind, key) == Slots(h, lo, hi - 1, n, kind, key) + [Slot(hi - 1, n)]
    ensures lo < hi && key !in KeysOf(kind, h[hi - 1])
      ==> Slots(h, lo, hi, n, kind, key) == Slots(h, lo, hi - 1, n, kind, key)
  {
  }

  lemma HoldsAt(ring: seq<TimestampedFlow>, h: seq<TimestampedFlow>, lo: nat, k: nat)
    requires lo <= k < |h| && |ring| > 0 && Holds(ring, h, lo)
    ensures ring[Slot(k, |ring|)] == h[k]
  {
  }

  lemma ScanSnoc(es: seq<TimestampedFlow>, e: TimestampedFlow, kind: IndexKind, key: string, cutoff: int)
    ensures Scan(es + [e], kind, key, cutoff)
         == if key in KeysOf(kind, e) then Scan(es, kind, key, cutoff) + Fresh(e, cutoff) else Scan(es, kind, key, cutoff)
  {
    assert (es + [e])[..|es|] == es;
  }

  /** Reading the ring through a key's slots is scanning the window for the key. */
  lemma {:induction false} ReadIsScan(ring: seq<TimestampedFlow>, h: seq<TimestampedFlow>, lo: nat, hi: nat, kind: IndexKind, key: string, cutoff: int)
    requires lo <= hi <= |h| && |ring| > 0 && Holds(ring, h, lo)
    ensures ReadRing(ring, Slots(h, lo, hi, |ring|, kind, key), cutoff) == Scan(h[lo..hi], kind, key, cutoff)
    decreases hi
  {
    hide *;
    SlotsUnfold(h, lo, hi, |ring|, kind, key);
    if lo == hi {
      ReadNothing(ring, h[lo..hi], kind, key, cutoff);
    } else {
      var n, e := |ring|, h[hi - 1];
      ReadIsScan(ring, h, lo, hi - 1, kind, key, cutoff);
      HoldsAt(ring, h, lo, hi - 1);
      ScanSnoc(h[lo..hi - 1], e, kind, key, cutoff);
      assert h[lo..hi] == h[lo..hi - 1] + [e];
      if key in KeysOf(kind, e) {
        ReadSnoc(ring, Slots(h, lo, hi - 1, n, kind, key), Slot(hi - 1, n), cutoff);
      }
    }
  }

  /** The ring is full of, and only of, the last flows of the history. */
  ghost predicate RingOk(ring: seq<TimestampedFlow>, head: nat, count: nat, h: seq<TimestampedFlow>) {
    && |ring| > 0
    && count == (if |h| < |ring| then |h| else |ring|)
    && head == Slot(|h|, |ring|)
    && Holds(ring, h, |h| - count)
  }

  /** Overwriting the slot at the head keeps the rest of the window readable. */
  lemma RingStep(ring: seq<TimestampedFlow>, head: nat, count: nat, h: seq<TimestampedFlow>, e: TimestampedFlow)
    requires RingOk(ring, head, count, h)
    ensures RingOk(ring[head := e], (head + 1) % |ring|, if count < |ring| then count + 1 else count, h + [e])
  {
    var n := |ring|;
    NextHead(|h|, n);
    forall k: nat | |h| < k + n && k < |h| ensures Slot(k, n) != head { SlotAfter(k, |h| - k, n); }
  }

  /** What an index finds under a key is what a scan of the window finds. */
  lemma LookupIsScan(ring: seq<TimestampedFlow>, head: nat, count: nat, h: seq<TimestampedFlow>,
                     idx: FlowIndex, kind: IndexKind, key: string, cutoff: int)
    requires RingOk(ring, head, count, h) && count <= |h| && |ring| > 0
    requires Indexes(idx, h, |h| - count, |ring|, kind)
    ensures forall i :: 0 <= i < |Lookup(idx, key)| ==> Lookup(idx, key)[i] < |ring|
    ensures Lookup(idx, key) != [] <==> Filed(h[|h| - count..], kind, key)
    ensures ReadRing(ring, Lookup(idx, key), cutoff) == Scan(h[|h| - count..], kind, key, cutoff)
  {
    hide Slots; hide ReadRing; hide Scan; hide Filed; hide Holds;
    var lo := |h| - count;
    assert h[lo..|h|] == h[lo..];
    assert Lookup(idx, key) == Slots(h, lo, |h|, |ring|, kind, key);
    SlotsNonempty(h, lo, |h|, |ring|, kind, key);
    ReadIsScan(ring, h, lo, |h|, kind, key, cutoff);
  }

  /** The linear-scan answer: flows filed under the key as a pod, or, when there
      is none in the window, as a network tuple. */
  ghost function Answer(recent: seq<TimestampedFlow>, key: string, cutoff: int): seq<Flow> {
    Scan(recent, if Filed(recent, ByPod, key) then ByPod else ByTuple, key, cutoff)
  }

  lemma AnswerFromIndexes(ring: seq<TimestampedFlow>, head: nat, count: nat, h: seq<TimestampedFlow>,
                          pods: FlowIndex, tuples: FlowIndex, key: string, cutoff: int, indices: seq<nat>)
    requires RingOk(ring, head, count, h)
    requires Indexes(pods, h, |h| - count, |ring|, ByPod) && Indexes(tuples, h, |h| - count, |ring|, ByTuple)
    requires indices == if Lookup(pods, key) == [] then Lookup(tuples, key) else Lookup(pods, key)
    ensures forall i :: 0 <= i < |indices| ==> indices[i] < |ring|
    ensures ReadRing(ring, indices, cutoff) == Answer(h[|h| - count..], key, cutoff)
  {
    hide Indexes; hide Holds; hide Filed; hide Scan; hide ReadRing;
    LookupIsScan(ring, head, count, h, pods, ByPod, key, cutoff);
    LookupIsScan(ring, head, count, h, tuples, ByTuple, key, cutoff);
  }

  // ----- index maintenance ----------------------------------------------------------------

  /** `removeIndex`: drop the first occurrence, keep the order. */
  method RemoveIndex(s: seq<nat>, val: nat) returns (r: seq<nat>)
    ensures val !in s ==> r == s
    ensures val in s ==> exists i :: 0 <= i < |s| && s[i] == val && val !in s[..i] && r == s[..i] + s[i + 1..]
  {
    for i := 0 to |s|
      invariant val !in s[..i]
    {
      if s[i] == val {
        return s[..i] + s[i + 1..];
      }
    }
    return s;
  }

  /** Removing an entry from the front of one list; the key goes with its last entry. */
  method Unfile(idx: FlowIndex, key: string, pos: nat) returns (r: FlowIndex)
    requires NoEmptyList(idx) && Lookup(idx, key) != [] && Lookup(idx, key)[0] == pos
    ensures NoEmptyList(r)
    ensures forall k :: Lookup(r, k) == if k == key then Lookup(idx, k)[1..] else Lookup(idx, k)
  {
    var s := RemoveIndex(Lookup(idx, key), pos);
    assert s == Lookup(idx, key)[1..];
    r := idx[key := s];
    if |s| == 0 {
      r := r - {key};
    }
  }

  method File(idx: FlowIndex, key: string, pos: nat) returns (r: FlowIndex)
    requires NoEmptyList(idx)
    ensures NoEmptyList(r)
    ensures forall k :: Lookup(r, k) == if k == key then Lookup(idx, k) + [pos] else Lookup(idx, k)
  {
    r := idx[key := Lookup(idx, key) + [pos]];
  }

  /** The index is right for the window without its oldest flow. */
  lemma ForgetOldest(idx: FlowIndex, idx': FlowIndex, h: seq<TimestampedFlow>, lo: nat, n: nat, kind: IndexKind)
    requires n > 0 && lo < |h| && Indexes(idx, h, lo, n, kind) && NoEmptyList(idx')
    requires forall k :: Lookup(idx', k) == if k in KeysOf(kind, h[lo]) && Lookup(idx, k) != [] then Lookup(idx, k)[1..] else Lookup(idx, k)
    ensures Indexes(idx', h, lo + 1, n, kind)
  {
    forall key ensures Lookup(idx', key) == Slots(h, lo + 1, |h|, n, kind, key) {
      SlotsFront(h, lo, |h|, n, kind, key);
    }
  }

  /** The index is right for the window with one more flow. */
  lemma RememberNewest(idx: FlowIndex, idx': FlowIndex, h: seq<TimestampedFlow>, e: TimestampedFlow, lo: nat, n: nat, kind: IndexKind)
    requires n > 0 && lo <= |h| && Indexes(idx, h, lo, n, kind) && NoEmptyList(idx')
    requires forall k :: Lookup(idx', k) == if k in KeysOf(kind, e) then Lookup(idx, k) + [Slot(|h|, n)] else Lookup(idx, k)
    ensures Indexes(idx', h + [e], lo, n, kind)
  {
    forall key ensures Lookup(idx', key) == Slots(h + [e], lo, |h| + 1, n, kind, key) {
      SlotsPrefix(h, e, lo, |h|, n, kind, key);
    }
  }

  method UnfilePods(idx: FlowIndex, e: TimestampedFlow, pos: nat, ghost h: seq<TimestampedFlow>, ghost lo: nat, ghost n: nat)
    returns (r: FlowIndex)
    requires n > 0 && lo < |h| && e == h[lo] && pos == Slot(lo, n) && Indexes(idx, h, lo, n, ByPod)
    ensures Indexes(r, h, lo + 1, n, ByPod)
  {
    r := idx;
    var srcKey := PodKey(e.flow.source);
    if srcKey != "" {
      SlotsFront(h, lo, |h|, n, ByPod, srcKey);
      r := Unfile(r, srcKey, pos);
    }
    var dstKey := PodKey(e.flow.destination);
    if dstKey != "" && dstKey != srcKey {
      SlotsFront(h, lo, |h|, n, ByPod, dstKey);
      r := Unfile(r, dstKey, pos);
    }
    ForgetOldest(idx, r, h, lo, n, ByPod);
  }

  method UnfileTuple(idx: FlowIndex, e: TimestampedFlow, pos: nat, ghost h: seq<TimestampedFlow>, ghost lo: nat, ghost n: nat)
    returns (r: FlowIndex)
    requires n > 0 && lo < |h| && e == h[lo] && pos == Slot(lo, n) && Indexes(idx, h, lo, n, ByTuple)
    ensures Indexes(r, h, lo + 1, n, ByTuple)
  {
    r := idx;
    var key := TupleKey(e.flow);
    if key != "" {
      SlotsFront(h, lo, |h|, n, ByTuple, key);
      r := Unfile(r, key, pos);
    }
    ForgetOldest(idx, r, h, lo, n, ByTuple);
  }

  method FilePods(idx: FlowIndex, e: TimestampedFlow, pos: nat, ghost h: seq<TimestampedFlow>, ghost lo: nat, ghost n: nat)
    returns (r: FlowIndex)
    requires n > 0 && lo <= |h| && pos == Slot(|h|, n) && Indexes(idx, h, lo, n, ByPod)
    ensures Indexes(r, h + [e], lo, n, ByPod)
  {
    r := idx;
    var srcKey := PodKey(e.flow.source);
    if srcKey != "" {
      r := File(r, srcKey, pos);
    }
    // The destination is skipped when it is the source, to avoid duplicates.
    var dstKey := PodKey(e.flow.destination);
    if dstKey != "" && dstKey != srcKey {
      r := File(r, dstKey, pos);
    }
    RememberNewest(idx, r, h, e, lo, n, ByPod);
  }

  method FileTuple(idx: FlowIndex, e: TimestampedFlow, pos: nat, ghost h: seq<TimestampedFlow>, ghost lo: nat, ghost n: nat)
    returns (r: FlowIndex)
    requires n > 0 && lo <= |h| && pos == Slot(|h|, n) && Indexes(idx, h, lo, n, ByTuple)
    ensures Indexes(r, h + [e], lo, n, ByTuple)
  {
    r := idx;
    var key := TupleKey(e.flow);
    if key != "" {
      r := File(r, key, pos);
    }
    RememberNewest(idx, r, h, e, lo, n, ByTuple);
  }

  method ReadFresh(ring: array<TimestampedFlow>, indices: seq<nat>, cutoff: int) returns (result: seq<Flow>)
    requires forall i :: 0 <= i < |indices| ==> indices[i] < ring.Length
    ensures result == ReadRing(ring[..], indices, cutoff)
  {
    result := [];
    for i := 0 to |indices|
      invariant result == ReadRing(ring[..], indices[..i], cutoff)
    {
      assert indices[..i + 1] == indices[..i] + [indices[i]];
      ReadSnoc(ring[..], indices[..i], indices[i], cutoff);
      var entry := ring[indices[i]];
      if entry.ingestedAt < cutoff {
        continue;   // ingested too long ago
      }
      if entry.flow.time < cutoff {
        continue;   // observed outside the window
      }
      result := result + [entry.flow];
    }
    assert indices[..|indices|] == indices;
  }

  // ----- what an answer is, on endpoints and times --------------------------------------------

  /** The key spells out the endpoint's namespace and pod. */
  ghost predicate NamesPod(key: string, ep: Endpoint) {
    ep.ns != "" && ep.pod != "" && key == ep.ns + "/" + ep.pod
  }

  /** The flow comes from the pod or goes to it. */
  ghost predicate InvolvesPod(key: string, f: Flow) {
    NamesPod(key, f.source) || NamesPod(key, f.destination)
  }

  /** The key spells out both addresses and ports. */
  ghost predicate NamesTuple(key: string, f: Flow) {
    && f.source.ip != "" && f.destination.ip != ""
    && key == f.source.ip + ":" + Decimal(f.source.port) + "\U{2192}" + f.destination.ip + ":" + Decimal(f.destination.port)
  }

  lemma PodKeyMeans(ep: Endpoint)
    ensures PodKey(ep) == "" <==> ep.ns == "" || ep.pod == ""
    ensures forall key :: key != "" ==> (key == PodKey(ep) <==> NamesPod(key, ep))
  {
  }

  lemma TupleKeyMeans(f: Flow)
    ensures TupleKey(f) == "" <==> f.source.ip == "" || f.destination.ip == ""
    ensures forall key :: key != "" ==> (key == TupleKey(f) <==> NamesTuple(key, f))
  {
    hide Decimal;
    var a, b, c, d := f.source.ip, Decimal(f.source.port), f.destination.ip, Decimal(f.destination.port);
    assert (a + ":" + b) + ARROW + (c + ":" + d) == a + ":" + b + ARROW + c + ":" + d;
  }

  /** The decimal digits of a number, read back, are the number. */
  function ReadDecimal(s: string): int {
    if s == "" then 0 else ReadDecimal(s[..|s| - 1]) * 10 + (s[|s| - 1] as int - '0' as int)
  }

  lemma {:induction false} DecimalReads(n: nat)
    ensures ReadDecimal(Decimal(n)) == n && (n > 0 ==> Decimal(n)[0] != '0')
  {
    var digit := ('0' as int + n % 10) as char;
    if n < 10 {
      assert [digit][..0] == "";
      assert ReadDecimal([digit][..0]) == 0;
    } else {
      DecimalReads(n / 10);
      var s := Decimal(n);
      assert s[..|s| - 1] == Decimal(n / 10) && s[|s| - 1] == digit;
    }
  }

  /** Flow number `k` belongs in the answer: it is recent enough, and it involves the
      pod or, where no flow does, has the tuple. */
  ghost predicate Wanted(es: seq<TimestampedFlow>, key: string, cutoff: int, k: nat)
    requires k < |es|
  {
    && es[k].ingestedAt >= cutoff && es[k].flow.time >= cutoff
    && if exists j :: 0 <= j < |es| && InvolvesPod(key, es[j].flow) then InvolvesPod(key, es[k].flow)
       else NamesTuple(key, es[k].flow)
  }

  ghost predicate Increasing(ks: seq<nat>) {
    forall i, j :: 0 <= i < j < |ks| ==> ks[i] < ks[j]
  }

  /** The flows are those of `es` at positions `ks`, in that order. */
  ghost predicate TakenAt(flows: seq<Flow>, es: seq<TimestampedFlow>, ks: seq<nat>) {
    && |ks| == |flows| && Increasing(ks)
    && forall i :: 0 <= i < |ks| ==> ks[i] < |es| && flows[i] == es[ks[i]].flow
  }

  /** The flows are exactly the wanted ones, oldest first. */
  ghost predicate Correlated(flows: seq<Flow>, es: seq<TimestampedFlow>, key: string, cutoff: int) {
    exists ks :: TakenAt(flows, es, ks) && forall k :: 0 <= k < |es| ==> (k in ks <==> Wanted(es, key, cutoff, k))
  }

  ghost predicate Matching(es: seq<TimestampedFlow>, kind: IndexKind, key: string, cutoff: int, k: nat)
    requires k < |es|
  {
    es[k].ingestedAt >= cutoff && es[k].flow.time >= cutoff && key in KeysOf(kind, es[k])
  }

  /** A scan takes the matching flows, in order. */
  lemma {:induction false} ScanTakes(es: seq<TimestampedFlow>, kind: IndexKind, key: string, cutoff: int) returns (ks: seq<nat>)
    ensures TakenAt(Scan(es, kind, key, cutoff), es, ks)
    ensures forall k :: 0 <= k < |es| ==> (k in ks <==> Matching(es, kind, key, cutoff, k))
  {
    hide KeysOf;
    ks := [];
    if es != [] {
      var n := |es| - 1;
      var init, e := es[..n], es[n];
      var before := ScanTakes(init, kind, key, cutoff);
      assert forall k :: 0 <= k < n ==> init[k] == es[k] && (Matching(init, kind, key, cutoff, k) <==> Matching(es, kind, key, cutoff, k));
      assert forall k :: k in before ==> k < n;
      if key in KeysOf(kind, e) && Fresh(e, cutoff) != [] {
        ks := before + [n];
      } else {
        ks := before;
      }
    }
  }

  /** The two kinds of keys, on endpoints. */
  lemma KeysMean(e: TimestampedFlow, key: string)
    requires key != ""
    ensures key in KeysOf(ByPod, e) <==> InvolvesPod(key, e.flow)
    ensures key in KeysOf(ByTuple, e) <==> NamesTuple(key, e.flow)
  {
    hide PodKey; hide TupleKey; hide NamesPod; hide NamesTuple;
    PodKeyMeans(e.flow.source);
    PodKeyMeans(e.flow.destination);
    TupleKeyMeans(e.flow);
  }

  lemma AnswerCorrelates(es: seq<TimestampedFlow>, key: string, cutoff: int)
    requires key != ""
    ensures Correlated(Answer(es, key, cutoff), es, key, cutoff)
  {
    hide KeysOf; hide Scan; hide InvolvesPod; hide NamesTuple; hide TakenAt;
    forall k | 0 <= k < |es|
      ensures (key in KeysOf(ByPod, es[k]) <==> InvolvesPod(key, es[k].flow)) && (key in KeysOf(ByTuple, es[k]) <==> NamesTuple(key, es[k].flow))
    {
      KeysMean(es[k], key);
    }
    var kind := if Filed(es, ByPod, key) then ByPod else ByTuple;
    var ks := ScanTakes(es, kind, key, cutoff);
    forall k | 0 <= k < |es| ensures k in ks <==> Wanted(es, key, cutoff, k) {
      assert k in ks <==> Matching(es, kind, key, cutoff, k);
    }
  }

  // ----- the correlator -----------------------------------------------------------------------

  datatype CorrelateResult = Flows(flows: seq<Flow>) | KeyRequired

  class WindowCorrelator {
    var ring: array<TimestampedFlow>
    var head: nat
    var count: nat
    var podIndex: FlowIndex
    var tupleIndex: FlowIndex

    /** Every flow ever ingested, oldest first. */
    ghost var history: seq<TimestampedFlow>

    ghost predicate Valid()
      reads this, ring
    {
      && RingOk(ring[..], head, count, history)
      && Indexes(podIndex, history, |history| - count, ring.Length, ByPod)
      && Indexes(tupleIndex, history, |history| - count, ring.Length, ByTuple)
    }

    constructor (maxFlows: int, zero: TimestampedFlow)
      ensures Valid() && fresh(ring) && history == []
      ensures ring.Length == if maxFlows <= 0 then 10000 else maxFlows
    {
      var n := if maxFlows <= 0 then 10000 else maxFlows;
      ring := new TimestampedFlow[n](_ => zero);
      head, count, podIndex, tupleIndex, history := 0, 0, map[], map[], [];
    }

    /** `evictAt(head)` on a full ring: both indexes forget exactly the oldest flow. */
    method EvictAt(pos: nat)
      requires Valid() && count == ring.Length && pos == head
      modifies `podIndex, `tupleIndex
      ensures Indexes(podIndex, history, |history| - count + 1, ring.Length, ByPod)
      ensures Indexes(tupleIndex, history, |history| - count + 1, ring.Length, ByTuple)
    {
      ghost var lo, n := |history| - count, ring.Length;
      SlotAfter(lo, n, n);
      var entry := ring[pos];
      assert entry == ring[..][pos] == history[lo];
      podIndex := UnfilePods(podIndex, entry, pos, history, lo, n);
      tupleIndex := UnfileTuple(tupleIndex, entry, pos, history, lo, n);
    }

    /** `Ingest`: the history grows by the new flow, and ring and indexes still
        agree with the last `MaxFlows` flows of it. */
    method Ingest(flow: Flow, now: int)
      requires Valid()
      modifies this, ring
      ensures Valid() && ring == old(ring)
      ensures history == old(history) + [TimestampedFlow(flow, now)]
    {
      hide Indexes; hide Holds;
      ghost var n, h := ring.Length, history;
      ghost var lo := if count == n then |h| - count + 1 else |h| - count;
      if count == ring.Length {
        EvictAt(head);
      }
      var entry := TimestampedFlow(flow, now);
      RingStep(ring[..], head, count, h, entry);
      ghost var ring1 := ring[..][head := entry];
      ring[head] := entry;
      assert ring[..] == ring1;
      podIndex := FilePods(podIndex, entry, head, h, lo, n);
      tupleIndex := FileTuple(tupleIndex, entry, head, h, lo, n);
      if count < ring.Length {
        count := count + 1;
      }
      head := (head + 1) % ring.Length;
      history := history + [entry];
    }

    /** `Correlate` returns what a linear scan of the retained flows would: exactly the
        recent enough flows of the pod or, where there is none at all, of the tuple. */
    method Correlate(key: string, now: int, window: int) returns (r: CorrelateResult)
      requires Valid()
      ensures count == (if |history| < ring.Length then |history| else ring.Length)
      ensures r.KeyRequired? <==> key == ""
      ensures r.Flows? ==> Correlated(r.flows, history[|history| - count..], key, now - window)
      ensures r == if key == "" then KeyRequired else Flows(Answer(history[|history| - count..], key, now - window))
    {
      hide Indexes; hide Holds; hide Answer; hide ReadRing; hide Correlated;
      if key == "" {
        return KeyRequired;
      }
      var cutoff := now - window;
      var indices := Lookup(podIndex, key);
      if |indices| == 0 {
        indices := Lookup(tupleIndex, key);
      }
      AnswerFromIndexes(ring[..], head, count, history, podIndex, tupleIndex, key, cutoff, indices);
      AnswerCorrelates(history[|history| - count..], key, cutoff);
      var result := ReadFresh(ring, indices, cutoff);
      return Flows(result);
    }
  }
}
