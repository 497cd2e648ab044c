# Candela in Dafny

Candela is an LLM proxy and observability server. This project models the parts of it
that hold state machines, indexes, transformations and arithmetic, and proves what they
promise over every input and every run.

| module | source | subject |
|---|---|---|
| `Correlator` | `pkg/hubbleaudit/correlator.go` | ring buffer of network flows with two incremental indexes |
| `Requests`, `Caching` | `pkg/proxy/translate.go` | OpenAI requests to Anthropic requests, prompt-cache breakpoints |
| `Responses`, `Streaming`, `Agreement` | `pkg/proxy/translate.go` | Anthropic responses and event streams to OpenAI, and how the two compare |
| `PendingSpend`, `SpendLimits` | `pkg/proxy/pending_spend.go`, `cost_gate.go`, `model_limit_cache.go` | reservations, daily ledger, limit selection |
| `Pricing`, `Charges` | `pkg/costcalc/calculator.go` | price tables, fallback index, resolution, tiered charges |
| `Breakers`, `Pipeline` | `pkg/processor`, `pkg/proxy/circuit_breaker.go` | circuit breakers, span queue, batching, sinks |
| `IdentityCache` | `pkg/auth/cache.go`, `chain.go` | bounded TTL cache in front of a resolver chain |
| `Sse`, `Capture` | `cmd/candela/lm_handler.go`, `span_capture.go`, `pkg/proxy/rolling_buffer.go` | byte streams that arrive in arbitrary pieces |
| `Glob` | `pkg/proxy/policy.go` | wildcard allow-lists |
| `Text`, `Json`, `EventStream`, `Wrappers` | Go's `strings` and `encoding/json` | what the other modules share |

Objects whose methods update fields are classes. Each carries a ghost history and a
`Valid()` that ties the fields to a specification of that history; the lemmas are about
the specification. Concurrency is modelled as every interleaving of the sections that
the source guards with a lock, with times read outside them arbitrary. Clocks, random IDs, store answers and sink outcomes are
parameters. USD amounts are reals.

## Main results

- Flow correlation: `Correlator.WindowCorrelator.Ingest`, `Correlator.WindowCorrelator.Correlate`,
  `Correlator.AnswerCorrelates`.
- Translation: `Requests.ConversationPreservedIff`, `Requests.ToolRunTogether`, `Caching.CachingInvisible`,
  `Caching.BreakpointBudget`, `Responses.HistoryRoundTrip`, `Streaming.PiecesTranslateAsWhole`,
  `Streaming.CutIff`, `Streaming.SplitLineIff`, `Agreement.AgreementIff`, `Agreement.PlainStreamAgreesIff`,
  `Caching.ToolResultsReadBack`, `Caching.ImagesReadBack`, `Responses.ToolCallsReadBack`.
- Spend control: `PendingSpend.ReservationSafety`, `PendingSpend.FloorSafeRunIff`, `SpendLimits.LimitInForce`,
  `SpendLimits.SpendTracker.Check` with `SpendLimits.RecentIff`.
- Pricing: `Pricing.Calculator.RebuildFallback` with `Pricing.CanonicalUnique`, `Pricing.ResolveIff` with `Pricing.LookupIff`,
  `Pricing.OverrideOutlivesCatalogIff`, `Charges.CalculateMatchesSnapshot`, `Charges.MonotoneInInputIff`,
  `Charges.NormalizationWithinOneToken`.
- Pipeline and breakers: `Pipeline.PipelineConservation`, `Pipeline.SinkConservation`, `Breakers.CounterIsStreak`,
  `Breakers.ClosesAfterProbes`, `Breakers.DecisionsAgreeIff`.
- Identity cache: `IdentityCache.CacheCoherence` with `IdentityCache.VerdictIff`, `IdentityCache.FreshRunIff`, `IdentityCache.YoungRunIff`.
- Streams and policy: `Sse.ChunksDoNotMatter`, `Capture.RollingBuffer.Write`, `Capture.ParseSSEUsage`,
  `Capture.HeadKeepsIff`, `Glob.MatchGlob`.

## What turned out false, and exactly when it holds

- Streaming translation does not commute with every cut of the data: it does if and only
  if nothing but white space follows the last newline of the first piece
  (`Streaming.CutIff`, for every decoder that rejects texts ending in `data: [DONE]`, as a
  JSON decoder does). The proxy passes on 4096-byte reads (`pkg/proxy/proxy.go:2066-2104`),
  which may end anywhere: a data line cut in two, neither half an event of its own, is lost unless
  it writes nothing anyway (`Streaming.SplitLineIff`).
- A client that assembles the streamed chunks gets the unstreamed response if and only if
  the message has at most one tool use and each tool use was streamed some input
  (`Agreement.AgreementIff`): every tool delta carries index 0, and an empty input is
  streamed as "" but sent whole as "{}".
- Request translation keeps the conversation if and only if every message is `Faithful`
  (`Requests.ConversationPreservedIff`): lost are non-string content on tool-calling
  assistant messages, tool-call arguments that are not JSON, non-string tool results, and
  images whose URL is not a base64 data URL.
- A reservation against a stale balance can overspend (`PendingSpend.StaleReadOverspends`).
  Over whole runs the floor is safe, whatever the accepted reservations turn out to cost, if
  and only if at every accepted reservation the spending released since its balance read was
  covered by what deducted requests still held, by credits, or by what the reservation left
  above the floor (`PendingSpend.FloorSafeRunIff`). Releasing nobody who deducted after the
  read is one way to be covered (`PendingSpend.ReservationSafety`).
- An identity invalidated while it was being resolved is stored and served afterwards
  (`IdentityCache.InvalidatedYetServed`). In every run, no such identity is ever cached if and
  only if no call stores an identity after an invalidation of its token that followed the
  identity's production (`IdentityCache.FreshRunIff`); then none is served
  (`IdentityCache.ServedIsUndisturbed`), and otherwise one more call is served it
  (`IdentityCache.DisturbedStoreServed`).
- A served identity may have been produced longer than the TTL ago (`IdentityCache.ServedPastTTL`):
  the TTL runs from the store (`pkg/auth/cache.go:113`), and a call may hold an identity for any
  time before (`pkg/auth/chain.go:36-42`). In every run, every cached identity expires within a TTL
  of its production if and only if no time passes between any call's production and its store
  (`IdentityCache.YoungRunIff`); then none is served that is older (`IdentityCache.ServedIsYoung`),
  and otherwise one more call is served one (`IdentityCache.LateStoreServed`). The age is at most the
  TTL plus that time in any run (`IdentityCache.ServedAge`).
- Eviction of the daily ledger can be observed (`SpendLimits.LateRecordWipes`): the day is read
  before the lock is taken (`pkg/proxy/cost_gate.go:58`), and a late record of the old day wipes
  those of the new one. `Check` reports the recent stretch of the log, which is the whole day if and
  only if no spend of that day under the key is followed by a record of another day
  (`SpendLimits.RecentIff`), as is the case where days never go back
  (`SpendLimits.InOrderNothingOvertaken`).
- The two breakers decide alike throughout a run if and only if no half-open failure arrives
  whose streak of failures is still below the threshold (`Breakers.DecisionsAgreeIff`). Where
  they part, the sink breaker refuses until the reset timeout is over and the provider breaker
  admits (`Breakers.PartingIsVisible`).
- Cost is nondecreasing in input tokens if and only if the high tier does not lower the
  output rate, or a discount of 100 percent makes everything free (`Charges.MonotoneInInputIff`).
- A price survives every reload of the catalog if and only if the canonical provider and model
  have an exact override (`Pricing.OverrideOutlivesCatalogIff`).
- The capped capture keeps the usage of every stream of at most k characters if and only if k
  is within the cap or no line that short reports usage (`Capture.HeadKeepsIff`). Of one stream it
  keeps the usage if and only if the cap comes after the last reporting line or what came before
  reports the same (`Capture.HeadKeepsReportIff`). Assumed is that a reporting line with its end cut
  off reports nothing, as is the case for a JSON object on a data line.
- What `Check` reports is a user's own spend, eviction aside, if and only if no colliding pair of
  user and limit prefix spent that day (`SpendLimits.CheckReportsOwnSpendIff`). A collision takes a NUL character both
  in a user ID and in a limit prefix (`SpendLimits.CollisionTakesBoth`).
- Pod and tuple keys of the correlator identify pods and connections except for names that
  swallow the separator (`Correlator.PodKeyIff`, `Correlator.TupleKeyIff`).

## Behaviour a reader may not expect

The model follows the code, also where a comment says something else.

- `pkg/proxy/translate.go:316` speaks of merging into a user message that already holds
  tool results; the code merges into any user message with array content.
- A later system message replaces an earlier one (`pkg/proxy/translate.go:247-274`).
- `pkg/proxy/translate.go:408` says every chunk shares one ID; chunks that precede the
  message start carry the generated one (`Agreement.ChunksShareID` is about whole messages).
- A user limit overrides a YAML limit of the same prefix even when its own cap is not
  positive, which lifts the limit (`pkg/proxy/model_limit_cache.go:103`).

## Model

| member | source | states |
|---|---|---|
| `Correlator.WindowCorrelator.constructor` | pkg/hubbleaudit/correlator.go:57-65 | An empty history; a nonpositive capacity becomes 10000. |
| `Correlator.WindowCorrelator.Ingest` | pkg/hubbleaudit/correlator.go:69-102 | Every ingest appends one stamped flow to the history and keeps the invariant: the ring holds the last MaxFlows flows, and each index lists, in ingestion order, exactly the slots of the flows carrying a key, with no empty lists. |
| `Correlator.WindowCorrelator.EvictAt` | pkg/hubbleaudit/correlator.go:105-128 | Evicting the slot about to be overwritten leaves both indexes exact for the window without its oldest flow. |
| `Correlator.WindowCorrelator.Correlate` | pkg/hubbleaudit/correlator.go:133-162 | The answer consists of exactly those of the last MaxFlows flows, in order, that are recent by both clocks and whose source or destination is the named namespace and pod, or, where no flow of the window has that pod, whose endpoints make the tuple; it is an error exactly when the key is empty. |
| `Correlator.AnswerCorrelates` | pkg/hubbleaudit/correlator.go:133-162 | The same of any window: which flows answer, on their namespaces, pods, addresses, ports and times, without indexes or keys. |
| `Correlator.KeysMean` | pkg/hubbleaudit/correlator.go:83-96 | A flow is filed under a pod key exactly when one of its endpoints is that pod, and under a tuple key exactly when its endpoints make it. |
| `Correlator.PodKeyMeans` | pkg/hubbleaudit/correlator.go:185-190 | A pod key is namespace, slash and pod; there is none exactly when either is missing. |
| `Correlator.TupleKeyMeans` | pkg/hubbleaudit/correlator.go:194-201 | A tuple key is source address and port, arrow, destination address and port; there is none exactly when an address is missing. |
| `Correlator.DecimalReads` | pkg/hubbleaudit/correlator.go:194-201 | Ports are written in decimal: the digits read back as the number, without leading zeros. |
| `Correlator.RemoveIndex` | pkg/hubbleaudit/correlator.go:206-221 | The first occurrence is removed with the order of the rest kept; an absent value changes nothing. |
| `Correlator.SlotsDistinct` | pkg/hubbleaudit/correlator.go:83-101 | No index list holds a slot twice, and every listed slot belongs to a flow of the window carrying the key. |
| `Correlator.LookupIsScan` | pkg/hubbleaudit/correlator.go:144-159 | A lookup is empty exactly when no flow of the window carries the key, and otherwise reads back as the scan. |
| `Correlator.PodKeyIff` | pkg/hubbleaudit/correlator.go:185-190 | Pod keys are equal exactly for equal namespace and pod, or where a namespace goes on past a slash with the beginning of the other pod name. |
| `Correlator.PodOverlapTakesBoth` | pkg/hubbleaudit/correlator.go:185-190 | The exception takes a slash in a namespace and one in a pod name. |
| `Correlator.TupleKeyIff` | pkg/hubbleaudit/correlator.go:194-201 | Tuple keys are equal exactly for equal addresses and ports on both sides, or where a source goes on past an arrow. |
| `Correlator.ArrowOverlapTakesBoth` | pkg/hubbleaudit/correlator.go:194-201 | The exception takes an arrow in a source and one in a destination address. |
| `Glob.MatchGlob` | pkg/proxy/policy.go:64-85 | True exactly when the name is the pattern with some string in place of each star. |
| `Glob.LeftmostSuffices` | pkg/proxy/policy.go:75-84 | The exchange argument: if any placement of a part works, its leftmost occurrence does. |
| `Glob.PartsMeanPattern` | pkg/proxy/policy.go:64-85 | Matching the split parts in order means matching the pattern, repeated and outer stars included. |
| `Glob.NewModelPolicy` | pkg/proxy/policy.go:28-40 | Fails exactly on an empty model list, naming the first; otherwise the policy represents the configuration. |
| `Glob.IsAllowed` | pkg/proxy/policy.go:45-60 | Allowed exactly when there is no policy or the last entry for the provider, in any case, has a matching pattern. |
| `Glob.PermitsMeans` | pkg/proxy/policy.go:45-60 | Without a policy everything is allowed, without an entry for the provider nothing; a star allows every model, and an entry of plain names exactly those, in any case. |
| `Requests.ConversationPreservedIff` | pkg/proxy/translate.go:245-338 | The flattened sequence of role and block is the same before and after translation if and only if every message is faithful; no item is ever added. |
| `Requests.AddedIff` | pkg/proxy/translate.go:276-337 | One message contributes its meaning, arguments as parsed or else as written and images as their data URL says, exactly when it is faithful, and never more items than that. |
| `Requests.ToolUsesIff` | pkg/proxy/translate.go:287-298 | Tool uses carry the arguments of the calls exactly when all of them parse. |
| `Requests.TranslatePartsIff` | pkg/proxy/translate.go:841-871 | All parts come through in order exactly when the URL of every image part is a base64 data URL. |
| `Requests.ImageConvertedIff` | pkg/proxy/translate.go:885-936 | An image becomes a block with a media type and data exactly when its URL is the data URL of these, with whatever further parameters. |
| `Requests.TranslateContent` | pkg/proxy/translate.go:841-871 | The loop over parts computes the specified content; strings and other values pass through. |
| `Requests.ToolRunTogether` | pkg/proxy/translate.go:308-330 | Every run of consecutive tool results ends up contiguous in one user message of the whole translation. |
| `Caching.ToolResultsReadBack` | pkg/proxy/translate.go:308-330 | Every run of tool messages, anywhere in any request and in any caching mode, reads back field by field from one user message as its tool results: in order, each with its call ID and content. |
| `Caching.ImagesReadBack` | pkg/proxy/translate.go:841-936 | Every image of a convertible user message, in any request and any caching mode, reads back field by field in its place with media type and data of its URL. |
| `Responses.ToolCallsReadBack` | pkg/proxy/translate.go:276-303 | An assistant message with tool calls, in any request and any caching mode, reads back as its text and its calls: ID, name and input, each in order. |
| `Caching.SettingsKept` | pkg/proxy/translate.go:204-229 | Temperature, top-p and streaming are kept; a missing token limit becomes 4096; the version is the one Vertex AI expects. |
| `Caching.ToolsKept` | pkg/proxy/translate.go:231-242 | Exactly the function tools are offered, in order, with name, description and parameters. |
| `Caching.BreakpointReads` | pkg/proxy/translate.go:139-145 | A breakpoint adds its own field, ephemeral with the requested TTL, and touches no other. |
| `Caching.TranslateRequest` | pkg/proxy/translate.go:204-353 | The imperative translation equals its specification for every request, mode and TTL. |
| `Caching.TranslateTools` | pkg/proxy/translate.go:231-242 | Exactly the function tools, in order. |
| `Caching.TranslateSystem` | pkg/proxy/translate.go:247-274 | The system value after one system message, all content shapes included. |
| `Caching.AppendMessage` | pkg/proxy/translate.go:276-337 | One message appended or merged as specified. |
| `Caching.InjectLastMessage` | pkg/proxy/translate.go:1016-1043 | The backward walk changes the last user message and nothing else. |
| `Caching.SystemIsLast` | pkg/proxy/translate.go:247-274 | Without caching the system value is the content of the last message that sets one. |
| `Caching.CachingInvisible` | pkg/proxy/translate.go:204-345 | Erasing cache_control and reading strings as one text block, every mode and TTL gives the request of mode off. |
| `Caching.BreakpointBudget` | pkg/proxy/translate.go:247-345 | The translation adds at most 0, 1 or 2 breakpoints for off, system-only and auto, and removes none. |
| `Caching.BreakpointsPlaced` | pkg/proxy/translate.go:247-345 | Where there is something to cache, the system value and, in auto mode, the last user message do end in a breakpoint with the requested TTL. |
| `Responses.TranslateResponse` | pkg/proxy/translate.go:357-394 | Text, tool calls, finish reason, display name and token sums of a response. |
| `Responses.ExtractText` | pkg/proxy/translate.go:938-946 | Collecting and joining gives the text blocks laid end to end. |
| `Responses.ExtractToolCalls` | pkg/proxy/translate.go:951-971 | The tool uses in order, absent input as "{}". |
| `Responses.MapStopReason` | pkg/proxy/translate.go:973-989 | Which reasons become stop, length and tool_calls; others pass through, and the result is never empty, so a finish chunk always ends the stream. |
| `Responses.HistoryRoundTrip` | pkg/proxy/translate.go:276-306 | A response sent back as an entry of the history, anywhere in any request and in any caching mode, keeps its text and its ordered tool uses, absent input read as the empty object. |
| `Streaming.TranslateStreamChunk` | pkg/proxy/translate.go:398-577 | One call equals running the events of its lines from the threaded stream ID. |
| `Streaming.TranslateLines` | pkg/proxy/translate.go:415-574 | The loop over lines is the fold of the events. |
| `Streaming.TranslateLine` | pkg/proxy/translate.go:415-437 | Blank, event and unparseable lines have no effect; the rest are their event. |
| `Streaming.TranslateEvent` | pkg/proxy/translate.go:439-573 | The chunks and the stream ID each event causes. |
| `Streaming.DecodeReads` | pkg/proxy/translate.go:439-573 | Every payload that says an event, by its fields and whatever else it has, is read as that event; pings, block stops, starts of other blocks and unknown types say nothing. |
| `Streaming.PayloadRoundTrip` | pkg/proxy/translate.go:439-573 | Every event has a payload that says it, and reading the payload gives the event back. |
| `Streaming.LineReads` | pkg/proxy/translate.go:415-437 | A data line is its payload's event or the end marker; blank lines, lines of other fields and unparseable payloads are none. |
| `Streaming.EmitSays` | pkg/proxy/translate.go:439-573 | For each event the one chunk that carries its role, text, tool, arguments or finish reason and nothing else, the end marker, or nothing. |
| `Streaming.UsageReads` | pkg/proxy/translate.go:541-562 | Usage is reported exactly when the event has some: both counts and their sum. |
| `Streaming.TokensMean` | pkg/proxy/proxy.go:2773-2791 | A count is the whole part of a nonnegative number and zero for anything else. |
| `Streaming.CutIff` | pkg/proxy/translate.go:398-577 | For every decoder that rejects texts ending in the end marker: data may be cut after a piece, whatever follows, if and only if nothing but white space follows its last newline. |
| `Streaming.SafeCutIsHomomorphic` | pkg/proxy/translate.go:398-577 | At a safe cut the two calls, ID threaded, write what one call on the whole writes. |
| `Streaming.UnsafeCutLoses` | pkg/proxy/translate.go:398-577 | At every other cut an end marker that follows is lost from the whole and written for the pieces. |
| `Streaming.SplitLineIff` | pkg/proxy/translate.go:398-577 | Where neither half of the cut line has an event of its own, the pieces are translated as the whole if and only if the line writes nothing: a data line cut in two is lost. |
| `Streaming.PiecesTranslateAsWhole` | pkg/proxy/translate.go:398-577 | Any number of safely cut pieces gives the output and ID of the whole. |
| `Agreement.AgreementIff` | pkg/proxy/translate.go:357-577 | For every client policy on reopened indexes, the assembled stream equals text, tool calls and finish reason of the unstreamed response if and only if there is at most one tool use and none lacks input. |
| `Agreement.StreamAgreesIff` | pkg/proxy/translate.go:357-577 | The same for every stream whose lines say a message by their fields, with lines that say nothing anywhere between. |
| `Agreement.PlainStreamAgreesIff` | pkg/proxy/translate.go:357-577 | The same for the stream that writes each event of a message as Anthropic's payload on a data line, for every message. |
| `Agreement.ChunksNameModel` | pkg/proxy/translate.go:39-55 | Every chunk names the model without its trailing date. |
| `Agreement.HeardScript` | pkg/proxy/translate.go:398-577 | Of a whole message the text and finish reason always come through; all tool calls share one slot. |
| `Agreement.ParallelToolsMerge` | pkg/proxy/translate.go:477-539 | Two parallel tool uses reach a streaming client as one call. |
| `Agreement.ChunksShareID` | pkg/proxy/translate.go:408-457 | Every chunk of a message carries one ID: the message's, or the stream's when it has none. |
| `PendingSpend.PendingSpendTracker.Reserve` | pkg/proxy/pending_spend.go:27-35 | Adds a positive amount for a named user; anything else has no effect. |
| `PendingSpend.PendingSpendTracker.Release` | pkg/proxy/pending_spend.go:39-49 | The whole new map: subtracted, and forgotten when nothing is left. |
| `PendingSpend.PendingSpendTracker.ReserveIfUnder` | pkg/proxy/pending_spend.go:61-73 | Decision and new map of the atomic test-and-reserve. |
| `PendingSpend.ReservationSafety` | pkg/proxy/pending_spend.go:37-73 | In every interleaving pending equals the sum of outstanding reservations; in every prudent one no balance drops below the floor. |
| `PendingSpend.ConsistentStep` | pkg/proxy/pending_spend.go:27-73 | Every enabled step keeps the ledger exact. |
| `PendingSpend.SolventStepIff` | pkg/proxy/pending_spend.go:61-73 | A step keeps balances above what is still to be deducted exactly when it is covered. |
| `PendingSpend.ViewGap` | pkg/proxy/pending_spend.go:61-73 | The tracker's view exceeds what is really free by the spending released since the read, less what deducted requests hold and what was credited. |
| `PendingSpend.PrudentIsCovered` | pkg/proxy/pending_spend.go:61-73 | A reservation is covered when nobody who deducted after its read has been released. |
| `PendingSpend.SolventRunIff` | pkg/proxy/pending_spend.go:61-73 | Solvency throughout a run is coverage of every accepted reservation. |
| `PendingSpend.FloorSafeIff` | pkg/proxy/pending_spend.go:61-73 | No way of deducting the accepted reservations takes a balance below the floor exactly when the state is solvent. |
| `PendingSpend.FloorSafeRunIff` | pkg/proxy/pending_spend.go:37-73 | Over every run: the floor is safe at every moment, whatever the accepted reservations cost, if and only if every accepted reservation was covered. |
| `PendingSpend.AcceptsOnlySafeIff` | pkg/proxy/pending_spend.go:61-73 | A request is accepted only for safe amounts if and only if the spending released since its read is at most what deducted requests still hold plus the credits since, or there is no room above the floor. |
| `PendingSpend.StaleReadOverspends` | pkg/proxy/pending_spend.go:61-73 | A legal run from a balance of 10 to -10 with an uncovered reservation. |
| `SpendLimits.MatchSpendLimit` | pkg/proxy/cost_gate.go:126-142 | The scan finds the best limit: valid, matching, longest prefix, earliest of equals. |
| `SpendLimits.Best` | pkg/proxy/cost_gate.go:126-142 | What best means, by its properties. |
| `SpendLimits.AppliesIff` | pkg/proxy/cost_gate.go:126-142 | A limit covers exactly the models whose names continue its own, in any case; none without a name or a positive cap. |
| `SpendLimits.OverriddenIff` | pkg/proxy/model_limit_cache.go:103-116 | A YAML limit is overridden exactly by a user limit of the same name, in any case. |
| `SpendLimits.OrderIrrelevant` | pkg/proxy/cost_gate.go:126-142 | With distinct prefixes the chosen limit does not depend on list order. |
| `SpendLimits.MergedLimits` | pkg/proxy/model_limit_cache.go:94-118 | User limits first, then exactly the YAML limits no user limit overrides. |
| `SpendLimits.LimitInForce` | pkg/proxy/model_limit_cache.go:94-118 | The limit in force is the longest matching one among user limits and YAML limits not overridden, and there is one whenever any applies. |
| `SpendLimits.SpendTracker.Record` | pkg/proxy/cost_gate.go:48-73 | For any order of days, keeps the ledger equal to the recent stretch of the log, on every key and day; records only positive costs under a matching limit. |
| `SpendLimits.SpendTracker.Check` | pkg/proxy/cost_gate.go:80-98 | Reports the sum of the recent stretch of the day under the key and allows exactly within the cap. |
| `SpendLimits.RecentIff` | pkg/proxy/cost_gate.go:48-119 | The recent stretch is the whole day, for a key, exactly when no spend of the day under it is followed by a record of another day; otherwise it is less. |
| `SpendLimits.InOrderNothingOvertaken` | pkg/proxy/cost_gate.go:109-119 | Where days never go back nothing is lost, so eviction cannot be observed. |
| `SpendLimits.LateRecordWipes` | pkg/proxy/cost_gate.go:58-73 | A record of an earlier day wipes what was recorded of a later one. |
| `SpendLimits.SpendTracker.EvictStale` | pkg/proxy/cost_gate.go:109-119 | Everything not of the given day goes and nothing else, unless the last sweep was for that day. |
| `SpendLimits.KeyIff` | pkg/proxy/cost_gate.go:59 | Keys are equal exactly for equal users and equal prefixes up to case, or where a user ID goes on past a NUL with the beginning of the other prefix. |
| `SpendLimits.CollisionTakesBoth` | pkg/proxy/cost_gate.go:59 | A collision takes a NUL in a user ID and one in a limit prefix. |
| `SpendLimits.KeyTotalIff` | pkg/proxy/cost_gate.go:48-98 | The total under a key is what that user spent on that prefix exactly when no colliding pair spent that day, and otherwise more. |
| `SpendLimits.CheckReportsOwnSpendIff` | pkg/proxy/cost_gate.go:80-98 | The reported sum is the user's own: where nothing was overtaken, exactly when no colliding pair spent that day; where none did, exactly when nothing was overtaken. |
| `SpendLimits.NulFreeNeverMixes` | pkg/proxy/cost_gate.go:59 | No pair collides where user IDs or limit prefixes are free of NUL. |
| `SpendLimits.NulMixesUsers` | pkg/proxy/cost_gate.go:59 | The family of colliding pairs. |
| `SpendLimits.ModelLimitCache.Peek` | pkg/proxy/model_limit_cache.go:55-63 | A hit is younger than the TTL and is what the last load for that user returned. |
| `SpendLimits.ModelLimitCache.Refresh` | pkg/proxy/model_limit_cache.go:65-89 | Double-checked refresh: a concurrent load is reused, a store error caches nothing, a load is remembered. |
| `Pricing.Calculator.RebuildFallback` | pkg/costcalc/calculator.go:1051-1082 | The name-only index is canonical: alphabetically first provider among overrides, else among defaults, for any map iteration order. |
| `Pricing.Calculator.NewEmpty` | pkg/costcalc/calculator.go:280-282 | Empty tables and their canonical index. |
| `Pricing.Calculator.LoadFromConfig` | pkg/costcalc/calculator.go:414-436 | Overrides overlaid row by row, discount clamped, index canonical again. |
| `Pricing.Calculator.LoadFromCatalog` | pkg/costcalc/calculator.go:441-464 | Defaults replaced, overrides kept, index canonical again. |
| `Pricing.Calculator.SetPricing` | pkg/costcalc/calculator.go:467-472 | One override set, index canonical again. |
| `Pricing.CanonicalUnique` | pkg/costcalc/calculator.go:1051-1082 | Canonical determines the index: two canonical indexes of the same tables are equal. |
| `Pricing.BeforeIff` | pkg/costcalc/calculator.go:1068 | What alphabetically first means: a proper beginning, or the smaller character where they first differ. |
| `Pricing.OverlayLists` | pkg/costcalc/calculator.go:420-423 | The last configuration row of a provider and model counts, discount in range and all else as written. |
| `Pricing.OverlayKeeps` | pkg/costcalc/calculator.go:420-423 | Pairs without a row keep what they had. |
| `Pricing.CatalogLists` | pkg/costcalc/calculator.go:446-461 | A listed pair has the rates of its last enabled catalog row, and no promotion. |
| `Pricing.CatalogListsOnly` | pkg/costcalc/calculator.go:446-461 | Only pairs with an enabled row are listed. |
| `Pricing.Process` | pkg/costcalc/calculator.go:1056-1077 | Existing entries stay; every other model sold gets its first seller. |
| `Pricing.ClampDiscount` | pkg/costcalc/calculator.go:768-776 | Into the unit interval, raised only to 0 and lowered only to 1. |
| `Pricing.OverrideOutlivesCatalogIff` | pkg/costcalc/calculator.go:837-868 | A resolved price is the same under every catalog if and only if the canonical provider and model have an exact override. |
| `Pricing.ResolutionIsFirstHit` | pkg/costcalc/calculator.go:870-906 | The layered resolution is the first hit along one list of candidate names. |
| `Pricing.LookupIff` | pkg/costcalc/calculator.go:837-849 | A candidate is priced by the exact override, else by the exact default, else as the alphabetically first provider selling a model of that name prices it, overrides before defaults; it has no price exactly when the pair is unlisted and nobody sells one. |
| `Pricing.ResolveIff` | pkg/costcalc/calculator.go:857-906 | Resolution gives the price in force of the first candidate name priced for the canonical provider, and none exactly when no candidate is. |
| `Pricing.OtherSellerPrices` | pkg/costcalc/calculator.go:837-868 | A model the provider does not list is priced as the first provider that sells it prices it. |
| `Pricing.AliasesResolve` | pkg/costcalc/calculator.go:257-266 | Which routes share the prices of anthropic and of google; every other provider stands for itself. |
| `Pricing.PromotionEnds` | pkg/costcalc/calculator.go:53-78 | A promotion that has run out gives way, rate by rate, to its fallback rates where set; before that and otherwise the price is as listed. |
| `Pricing.NormalizeIff` | pkg/costcalc/calculator.go:1032-1045 | Exactly a name ending in digit, hyphen, digit is dotted, in that place only. |
| `Pricing.CaseIgnored` | pkg/costcalc/calculator.go:918-919 | Case does not matter to the base name; the rows below are about lower-case names. |
| `Pricing.PublisherDropped` | pkg/costcalc/calculator.go:918-982 | A publisher in front of a name is dropped. |
| `Pricing.MaasDropped` | pkg/costcalc/calculator.go:918-982 | So is a managed-service suffix. |
| `Pricing.FineTuneNamesBase` | pkg/costcalc/calculator.go:918-982 | A fine-tuned model is named by its base. |
| `Pricing.WordTagDropped` | pkg/costcalc/calculator.go:918-982 | A trailing latest or stable tag is dropped. |
| `Pricing.PreviewDropped` | pkg/costcalc/calculator.go:918-982 | A name is cut at its last preview tag. |
| `Pricing.ExperimentDropped` | pkg/costcalc/calculator.go:918-982 | Without one, at its last experiment tag. |
| `Pricing.SuffixTagIff` | pkg/costcalc/calculator.go:1007-1023 | The tag found is the rightmost that ends the name or a word of it. |
| `Pricing.IsoDateDropped` | pkg/costcalc/calculator.go:918-982 | A trailing ISO date is dropped. |
| `Pricing.DatedSnapshotPricedAsBase` | pkg/costcalc/calculator.go:870-982 | A dated snapshot is priced by its own entry, else by those of its base name as written or dotted; so it costs what the base costs wherever one of those is listed. |
| `Charges.CalculateMatchesSnapshot` | pkg/costcalc/calculator.go:315-387 | The charge equals tokens at the rates of the audit snapshot times both discount factors. |
| `Charges.ChargeMatchesSnapshot` | pkg/costcalc/calculator.go:357-387 | The charge is the list price times both discount factors, zero discounts and clamped tokens included. |
| `Charges.CalculateIs` | pkg/costcalc/calculator.go:315-355 | Local models and models nobody prices are free; every other is charged at its resolved price. |
| `Charges.ChargeIs` | pkg/costcalc/calculator.go:357-387 | A charge is the list price less both discounts; negative counts are no tokens. |
| `Charges.ListPriceIs` | pkg/costcalc/calculator.go:357-387 | The list price is the sum of the input tokens' own rates plus the output tokens at the one rate the prompt size selects, per million. |
| `Charges.TiersAreMarginal` | pkg/costcalc/calculator.go:357-387 | Each input token is charged the rate of its own position, whatever follows it. |
| `Charges.ChargeBetweenZeroAndList` | pkg/costcalc/calculator.go:357-387 | Between zero and list price under clamped discounts. |
| `Charges.ChargeMonotoneInOutput` | pkg/costcalc/calculator.go:357-387 | Nondecreasing in output tokens. |
| `Charges.InputMonotone` | pkg/costcalc/calculator.go:357-387 | Nondecreasing in input tokens across the tier boundary when the output rate does not drop. |
| `Charges.MonotoneInInputIff` | pkg/costcalc/calculator.go:357-387 | Nondecreasing in input tokens if and only if the high tier does not lower the output rate or a discount is full. |
| `Charges.DropBreaksMonotonicity` | pkg/costcalc/calculator.go:357-387 | For every lowering price an output size at which one more input token costs less. |
| `Charges.Round` | pkg/costcalc/calculator.go:562-563 | To the nearest integer, halves away from zero. |
| `Charges.NormalizationWithinOneToken` | pkg/costcalc/calculator.go:527-578 | Cached-input normalisation is within one token of its exact real value. |
| `Charges.InclusiveNeverExceedsRaw` | pkg/costcalc/calculator.go:527-578 | For inclusive providers with multipliers at most 1 the result is between zero and the raw input. |
| `Charges.EveryTokenOnce` | pkg/costcalc/calculator.go:527-578 | At full price cached and fresh tokens add up to all input tokens, whichever way the provider counts; free cached tokens leave the fresh ones. |
| `Charges.UncachedUnchanged` | pkg/costcalc/calculator.go:527-578 | Without cached tokens, or without cache pricing for the provider, nothing changes. |
| `Charges.MultipliersInForce` | pkg/costcalc/calculator.go:547-592 | The configured multipliers, but 2 for Anthropic writes with extended TTL and a quarter for reads of early Gemini models. |
| `Breakers.SinkBreaker.constructor` | pkg/processor/circuit_breaker.go:82-103 | Nonpositive settings take their defaults. |
| `Breakers.SinkBreaker.Allow` | pkg/processor/circuit_breaker.go:107-126 | The decision and the fields are those of the run so far. |
| `Breakers.SinkBreaker.RecordSuccess` | pkg/processor/circuit_breaker.go:129-141 | The fields follow the run. |
| `Breakers.SinkBreaker.RecordFailure` | pkg/processor/circuit_breaker.go:144-163 | The fields follow the run. |
| `Breakers.ProviderBreaker.constructor` | pkg/proxy/circuit_breaker.go:53-70 | Only zero settings take their defaults. |
| `Breakers.ProviderBreaker.AllowRequest` | pkg/proxy/circuit_breaker.go:74-93 | The decision and the fields are those of the run so far. |
| `Breakers.ProviderBreaker.RecordSuccess` | pkg/proxy/circuit_breaker.go:96-108 | The fields follow the run. |
| `Breakers.ProviderBreaker.RecordFailure` | pkg/proxy/circuit_breaker.go:111-124 | The fields follow the run. |
| `Breakers.ProviderBreaker.IsOpen` | pkg/proxy/circuit_breaker.go:137-141 | True exactly when a request now would be refused. |
| `Breakers.CounterIsStreak` | pkg/processor/circuit_breaker.go:107-163 | The failure count is the number of failures since the last success, capped at threshold plus one; closed means below the threshold. |
| `Breakers.RemembersLastFailure` | pkg/processor/circuit_breaker.go:144-163 | The stored time is that of the last failure of the run. |
| `Breakers.OpensAtThreshold` | pkg/processor/circuit_breaker.go:144-163 | From closed it opens exactly on the failure that completes a streak of threshold. |
| `Breakers.LeavesOpenAfterTimeout` | pkg/processor/circuit_breaker.go:107-126 | From open it goes half-open exactly on a request after the timeout, and never straight to closed. |
| `Breakers.RefusesOnlyAfterFailure` | pkg/processor/circuit_breaker.go:107-126 | It refuses exactly when open and within the timeout of the last failure. |
| `Breakers.HalfOpenEpisode` | pkg/processor/circuit_breaker.go:107-163 | Half-open has a beginning: a request that found it open, no failure since, fewer than the needed successes. |
| `Breakers.ClosesAfterProbes` | pkg/processor/circuit_breaker.go:129-163 | It closes exactly on the success that completes halfOpenMax of them since, and reopens exactly on a failure. |
| `Breakers.LockStepIff` | pkg/proxy/circuit_breaker.go:74-124 | The two breakers stay in the same state throughout a run if and only if no event parts them. |
| `Breakers.PartingIsVisible` | pkg/proxy/circuit_breaker.go:111-124 | Where they part, the sink breaker refuses exactly until the reset timeout is over, the provider breaker never. |
| `Breakers.DecisionsAgreeIff` | pkg/proxy/circuit_breaker.go:74-124 | They decide alike at every point of a run and every later time if and only if no event of it parts them. |
| `Breakers.ThresholdOneNeverParts` | pkg/proxy/circuit_breaker.go:74-124 | With threshold one they stay together on all runs. |
| `Breakers.LockStepWithoutHealedFailure` | pkg/proxy/circuit_breaker.go:74-124 | They stay together when no half-open failure follows a success recorded since opening. |
| `Breakers.LockStepFails` | pkg/proxy/circuit_breaker.go:111-124 | A run of five events that parts them. |
| `Pipeline.ResilientWriter.constructor` | pkg/processor/resilient_writer.go:55-76 | A nonpositive bulkhead becomes 4. |
| `Pipeline.ResilientWriter.PassBreaker` | pkg/processor/resilient_writer.go:81-90 | Refused spans are counted as dropped; the decision is the breaker's. |
| `Pipeline.ResilientWriter.PassBulkhead` | pkg/processor/resilient_writer.go:92-105 | A slot is taken if one is free, else the spans are counted as dropped. |
| `Pipeline.ResilientWriter.Finish` | pkg/processor/resilient_writer.go:107-128 | The slot is returned and the outcome recorded in breaker and counters. |
| `Pipeline.SinkConservation` | pkg/processor/resilient_writer.go:80-128 | In every interleaving of writes every offered span is attempted, counted as dropped or waiting, slots stay within the bulkhead and counters agree with the outcomes. |
| `Pipeline.LoneDelivery` | pkg/processor/resilient_writer.go:80-128 | A write that meets no other is attempted whole or dropped whole, as the breaker says. |
| `Pipeline.IngestSpans` | pkg/processor/resilient_writer.go:80-128 | The three sections in sequence are one delivery. |
| `Pipeline.SpanProcessor.constructor` | pkg/processor/processor.go:90-110 | Starts empty; a nonpositive batch size becomes 100. |
| `Pipeline.SpanProcessor.Submit` | pkg/processor/processor.go:113-121 | Panics exactly on a closed channel, and otherwise is one submit of the specification. |
| `Pipeline.SpanProcessor.EnrichBatch` | pkg/processor/processor.go:146-155 | Prices exactly the spans that carry no cost. |
| `Pipeline.EnrichFillsCost` | pkg/processor/processor.go:146-155 | Only a missing cost is filled in, with the charge for the provider, model, input and output tokens of the span; nothing else changes. |
| `Pipeline.SpanProcessor.FanOut` | pkg/processor/processor.go:202-229 | Every sink is delivered the same spans. |
| `Pipeline.SpanProcessor.FlushBatch` | pkg/processor/processor.go:137-234 | One flush of the specification; an empty batch does nothing. |
| `Pipeline.SpanProcessor.Receive` | pkg/processor/processor.go:238-242 | One receive of the specification, flushing at batch size. |
| `Pipeline.SpanProcessor.Tick` | pkg/processor/processor.go:243-244 | One tick of the specification. |
| `Pipeline.SpanProcessor.Shutdown` | pkg/processor/processor.go:245-254 | Stop or cancellation, closing the channel only in the former. |
| `Pipeline.SpanProcessor.Drain` | pkg/processor/processor.go:245-274 | Either drain flushes every accepted span and leaves queue and batch empty. |
| `Pipeline.PipelineConservation` | pkg/processor/processor.go:113-276 | In every run accepted spans are flushed, batch and queue in order, submitted are accepted and dropped, queue and batch stay bounded, and every sink was offered exactly the flushed spans, priced, in order. |
| `Pipeline.MovesWhen` | pkg/processor/processor.go:113-276 | When each step does what: a submit is refused exactly at ten times the batch size, a receive flushes exactly at the batch size, a tick flushes, only a stop closes the channel. |
| `Pipeline.DrainFlushesEverything` | pkg/processor/processor.go:245-274 | At the end of a drain flushed equals accepted. |
| `IdentityCache.Cache.constructor` | pkg/auth/cache.go:32-42 | Empty; a negative size is zero. |
| `IdentityCache.Cache.Read` | pkg/auth/cache.go:46-53 | The first step of a get. |
| `IdentityCache.Cache.Cleanup` | pkg/auth/cache.go:54-62 | The second step removes the entry only if it is expired now, whatever was read before. |
| `IdentityCache.Cache.Put` | pkg/auth/cache.go:71-115 | The new entries are the old ones swept, at most one oldest evicted, plus the new one; size never above the bound. |
| `IdentityCache.Cache.Sweep` | pkg/auth/cache.go:88-96 | Exactly the expired entries go. |
| `IdentityCache.Cache.Oldest` | pkg/auth/cache.go:98-108 | An entry before which none expires. |
| `IdentityCache.Cache.Invalidate` | pkg/auth/cache.go:118-123 | That token's entry goes and no other. |
| `IdentityCache.StoreBounds` | pkg/auth/cache.go:71-115 | A put never exceeds the bound, does store when there is room at all, and alters no other entry. |
| `IdentityCache.EvictionIsFair` | pkg/auth/cache.go:88-109 | An unexpired entry is evicted only when the cache is full of unexpired ones and it expires first. |
| `IdentityCache.RoomGivesUpNothing` | pkg/auth/cache.go:79-114 | Replacing, or adding where there is room, gives up nothing; otherwise what has expired goes. |
| `IdentityCache.EntriesStep` | pkg/auth/cache.go:45-123 | What each step of any run does to the entries: an invalidation removes that token's, a cleanup only an expired one, a store stores with a full TTL, and nothing else touches them. |
| `IdentityCache.Resolve` | pkg/auth/chain.go:28-49 | A live entry answers; otherwise the result is an identity exactly when the first resolver that knows the token gave it, and a refusal exactly when that resolver rejected it or none knows it; only an identity is stored. |
| `IdentityCache.VerdictIff` | pkg/auth/chain.go:28-49 | Both directions, by position: an identity exactly when some resolver gave it and all before it do not know the token, an error exactly when one rejected it likewise or none knows it. |
| `IdentityCache.CacheCoherence` | pkg/auth/cache.go:45-123 | In every run, every entry and every answer is backed by an identity that the first matching resolver produced for that same token, stored at most TTL before it was served with no invalidation between store and read, every refusal is the verdict of the resolvers, and the cache is within bounds. The age since production is the subject of YoungRunIff. |
| `IdentityCache.FreshRunIff` | pkg/auth/chain.go:28-49 | Over every run: at no moment is an identity cached that was invalidated since it was produced, if and only if no call of the schedule stores after an invalidation of its token that followed its production. |
| `IdentityCache.ServedIsUndisturbed` | pkg/auth/chain.go:28-49 | In such runs no identity is served that was invalidated between its production and the read. |
| `IdentityCache.DisturbedStoreServed` | pkg/auth/chain.go:28-49 | In every other run the next call can be served one. |
| `IdentityCache.InvalidatedYetServed` | pkg/auth/chain.go:35-45 | There is such a run: an identity is made, invalidated, stored and then served. |
| `IdentityCache.YoungRunIff` | pkg/auth/cache.go:71-115 | Over every run: at every moment every cached identity expires within a TTL of its production, if and only if no time passes between any call's production and its store, by other steps or the store itself. |
| `IdentityCache.ServedIsYoung` | pkg/auth/chain.go:28-49 | In such runs every identity served was produced at most a TTL before. |
| `IdentityCache.LateStoreServed` | pkg/auth/chain.go:28-49 | After every other store the next call can be served an identity older than the TTL. |
| `IdentityCache.ServedAge` | pkg/auth/cache.go:45-115 | In any run a served identity is at most as old as the TTL plus the time the call that stored it held it. |
| `IdentityCache.HeldFor` | pkg/auth/chain.go:35-45 | What a store stores was produced its hold time before. |
| `IdentityCache.ServedPastTTL` | pkg/auth/chain.go:35-45 | There is a run that serves an identity older than the TTL. |
| `Sse.FramesPartition` | cmd/candela/lm_handler.go:754-765 | Framing loses and reorders nothing; every event ends in its first blank line and the tail has none. |
| `Sse.EventsEndBlank` | cmd/candela/lm_handler.go:754-765 | An event ends at its first two newlines in a row. |
| `Sse.FramesAppend` | cmd/candela/lm_handler.go:746-773 | More input never moves a boundary already found. |
| `Sse.ChunksDoNotMatter` | cmd/candela/lm_handler.go:746-773 | Any sequence of writes sends and holds back what framing the whole stream does. |
| `Sse.SameStreamSameOutput` | cmd/candela/lm_handler.go:746-773 | Two cuttings of one stream give the same bytes sent and held back, and no complete event is ever held back. |
| `Sse.IdentityIsTransparent` | cmd/candela/lm_handler.go:746-773 | With an identity rewrite, sent plus held back is the input. |
| `Sse.CutEvents` | cmd/candela/lm_handler.go:752-765 | The loop cuts exactly the complete events off the front. |
| `Sse.LiteNormalizer.WriteHeader` | cmd/candela/lm_handler.go:737-744 | The first status is the only one. |
| `Sse.LiteNormalizer.Write` | cmd/candela/lm_handler.go:746-773 | Sends the rewritten complete events, or the part of them a failing writer takes, holds back the rest, reports the full length, and fails only with the wrapped writer. |
| `Sse.LiteNormalizer.FlushRemaining` | cmd/candela/lm_handler.go:853-859 | After it everything has been sent: rewritten events, then the unfinished tail, or the part a failing writer takes. |
| `Sse.Normalizer.Write` | cmd/candela/lm_handler.go:888-916 | The same for the full normalizer, whose rewrite may suppress events. |
| `Sse.SuppressingMeans` | cmd/candela/lm_handler.go:888-916 | A suppressed event leaves no bytes, any other those it is rewritten to. |
| `Capture.RollingBuffer.Write` | pkg/proxy/rolling_buffer.go:22-42 | After any writes the buffer holds exactly the last maxSize elements of the stream; reports the full length. |
| `Capture.RollingBuffer.ShiftDown` | pkg/proxy/rolling_buffer.go:33-39 | The overlapping in-place shift moves the tail to the front intact. |
| `Capture.RollingBuffer.Reset` | pkg/proxy/rolling_buffer.go:55-57 | An empty stream again. |
| `Capture.ResponseCapture.Write` | cmd/candela/span_capture.go:237-254 | Everything is forwarded and the reply passed back; exactly the first cap elements are kept; a first write implies status 200. |
| `Capture.ParseSSEUsage` | cmd/candela/span_capture.go:184-219 | The backward scan equals the last qualifying line of a forward split, zeros when there is none. |
| `Capture.LineUsageIff` | cmd/candela/span_capture.go:199-216 | A line reports a usage exactly when it is a data line, not the end marker, whose payload has it with a positive total. |
| `Capture.LastUsageIff` | cmd/candela/span_capture.go:184-219 | The usage of a body is that of its last reporting line. |
| `Capture.HeadKeepsReportIff` | cmd/candela/span_capture.go:184-254 | The capped capture keeps the usage of a stream if and only if the cap comes after the reporting line or what came before reports the same. |
| `Capture.HeadKeepsIff` | cmd/candela/span_capture.go:184-254 | The capped capture keeps the usage of every stream of at most k characters if and only if k is within the cap or no line that short reports. |
| `Capture.RollingBuffer.constructor` | pkg/proxy/rolling_buffer.go:13-18 | An empty stream. |
| `Capture.ResponseCapture.constructor` | cmd/candela/span_capture.go:221-230 | Nothing captured, no status yet. |
| `SpendLimits.SpendTracker.constructor` | pkg/proxy/cost_gate.go:39-43 | An empty ledger for an empty log. |
| `SpendLimits.ModelLimitCache.constructor` | pkg/proxy/model_limit_cache.go:44-50 | No entries. |
| `PendingSpend.PendingSpendTracker.constructor` | pkg/proxy/pending_spend.go:19-23 | Nothing pending. |
| `Sse.LiteNormalizer.constructor` | cmd/candela/lm_handler.go:731-733 | Nothing written or held back. |
| `Sse.Normalizer.constructor` | cmd/candela/lm_handler.go:871-873 | Nothing written or held back. |

## Left out

- HTTP servers, reverse proxies, configuration files, process management, RPC handlers, stores: plumbing around the modelled logic.
- JSON text: `Json.Parser` is any decoding function and encoding is not modelled; nor are timestamps, nor Go marshalling an empty translated array as null.
- The per-event rewrites of the SSE normalizers (`ensureContent`, `normalizeEvent`): any function from events to bytes.
- Token usage in streams: the chunk's usage is modelled, but not compared with the unstreamed usage, since the message start that carries input tokens is not read.
- Path rewriters, caching-mode parsing, error texts: would only add easy members.
- Anomaly detection, watch broadcasts, sink timeouts and health reports: outcomes of a sink write are parameters.
- The budget and grant service behind spend control: only its interface is in the repository.
- `estimateRequestCost`, time-based charges, price listings, expiry alerts, the embedded price file, cache-discount defaults: tables and listings.
- The correlator's TTL setting, which `Correlate` does not use, and its statistics and defensive copies.
- Floating-point rounding and overflow: USD amounts are reals and token counts unbounded integers.
- Slice capacity, buffer compaction and sharing between slices, except in `Capture.RollingBuffer`, which is an array.
- Locks: each guarded section is one step; memory ordering is not modelled.
- Text.Lower: folds ASCII letters only, because Go's Unicode tables are not part of this model.
- Correlator.RemoveIndex: returns a new sequence where the source shifts the slice in place.
- Caching.InjectLastMessage: returns new messages where the source writes into the decoded ones.
- IdentityCache.Cache.Put: needs a nonempty hash, which SHA-256 guarantees.
- IdentityCache.CacheCoherence: assumes an injective hash.
- Pipeline.SpanProcessor.FlushBatch: without anomaly attributes and the watcher broadcast, which do not change which spans reach the sinks.
- Pipeline.SpanProcessor.FanOut: the sinks, independent of each other, are delivered one after another where the source uses a goroutine each; concurrent writes to one sink are in `Pipeline.SinkConservation`.
- Agreement.AgreementIff: for event streams that carry one whole message in order.
- Streaming.CutIff: assumes that the decoder rejects texts ending in `data: [DONE]`, which is so for JSON.
- Capture.HeadKeepsIff: assumes that a reporting line with its end cut off reports nothing, which is so for a JSON object on a data line; so does `Capture.HeadKeepsReportIff`.
- The extractors that read the rolling buffer of a long proxied stream (`pkg/proxy/stream_capture.go`): lookups in untyped JSON; `Capture.RollingBuffer` says what they are given.
