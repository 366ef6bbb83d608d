# Verified model of package `tel`

A Dafny model of three stateful components of `tel`, a Go library for metrics, traces and logs, with
proofs of what they promise when any number of goroutines use them at once.

- **The attribute cache and the record path.** `AttrCache` interns attribute sets in 16 shards with
  double-checked locking; one compare-and-swap counter caps all shards and all three key arities
  together; keys past the cap share one overflow set; a deny-unknown gate sits in front. It stands for
  something simple: build the attribute set on every call, for the first `maxEntries` distinct keys only.
  `AttrCaches` has it as a class over an array of shards, refining the capped map of `CappedMap`.
  `RecordMachine` has the interleavings: each goroutine is a program counter over the atomic actions
  of `AddWith`, `lookup`, `entry`, `reserveSlot` and `Subjects`. The main results are
  `RecordTheorems.Linearizable` (every interleaving is a sequential run of the capped map),
  `RecordCalls.CallOutcome` (what becomes of every call), `RecordCalls.EveryCallIsAccountedFor` with
  `NoneDropped` and `SeriesHoldTheirCalls` (no amount is lost or split), `RegistrySeries.RegistryBound`
  (the number of series) and `RecordProgress.EveryCallReturns` (a bound on the steps of any schedule).
- **The life cycle and the registries.** `Start` builds without the lock, takes the lock again and
  installs or rolls back; `Shutdown` detaches under the lock and releases outside; an epoch
  invalidates the handles of earlier registries. `Telemetries` and `Registries` have the classes,
  `LifecycleMachine` and `RegistryMachine` the interleavings, with every outcome of building a
  provider, binding the monitor and registering an instrument. The main results are
  `LifecycleResources.ReleasedOnceOrOwned`, `LifecycleEpochs.LiveIffCurrent`,
  `LifecycleStarts.StartStarts` and `LifecycleCalls.ShutdownShutsDown` (what every call has done when it
  returns, as the contracts of `Telemetries.Telemetry.Start` and `Shutdown` say it of one caller),
  `LifecycleWaiting.ShutdownGetsThrough`, `RegistryMachine.NeverOrphans` and `RegistryAnswers.AskIsAnswered`.
- **The log rate limiter.** `RateSamplers` has the classes and the exact sequential behaviour,
  `RateMachine` the interleavings of a counter's two atomics, and
  `SamplerMachine` those of `Sample` with its level counter and the global one. The main results are
  `RateSamplers.AnyTickAdmitsBelowTwice` with `TwiceLessOneIsReached` (a tight real-time bound) and
  `RateIntervals.RealTimeRateBound`, its counterpart for any two moments of a run of racing goroutines, which `SamplerMachine.GlobalRate`
  and `LevelRate` carry over to the messages that pass. The lower half, that nothing is refused before a
  limit is reached, is `RateRefusals.RefusedOnlyAfterTheLimit` for one caller, `RateReturns.EveryReturnIsCounted` and
  `RefusedAfterAFullLimit` for racing ones, and `SamplerVerdicts.EveryMessageGetsItsVerdict`. `RateWindow.WindowCapIff` says exactly when the limit holds
  window by window although goroutines race: a late `Store(1)` resets the count of a window already
  spent, so it holds only of one goroutine or a limit of at most one.

A run of a machine is a sequence of states and actions (`IsRun`); a theorem with a run `tr` and an
index `i` speaks of every reachable state. Fields that only record what happened (the order in which
keys won their slots, the lookups in the order they took effect, who owns a resource) are called
history in the comments; no step reads them. `RecordMachine` takes any routing of keys to the 16
shards; `Fnv.ShardOf` is the one the source uses.

A Go string is a sequence of bytes, `uint32` in the hash is `bv32` with its wrap-around, an option made
by `WithAttributeSet` is the set it carries. Clock readings and the outcomes of calls into the
OpenTelemetry SDK are parameters.

Where comments in the source and its code disagree, the model follows the code: `Subjects` is
documented to return one-part keys (metric.go:393) and returns keys of all three arities.

## Model

| member | source | states |
|---|---|---|
| `Fnv.Fnv32aString` | metric.go:146-154 | the hash loop computes 32-bit FNV-1a with wrap-around |
| `Fnv.PublishedValues` | metric.go:146-154 | on the empty string and on "foobar" it has the values FNV-1a is published with |
| `Fnv.FnvIsNibbleAutomaton` | metric.go:146-158 | the hash modulo 16 is the state of a four-bit automaton that starts at 5 and on a byte does `((s xor low4(byte)) * 3) mod 16` |
| `Fnv.ShardIsKeyNibble` | metric.go:156-166 | every key of every arity is routed by the exclusive or of its parts' four-bit states |
| `Fnv.LowHalvesDecideNibble` | metric.go:146-158 | labels whose bytes agree in their low halves share a shard |
| `Fnv.LastByteSpreads` | metric.go:146-158 | labels that differ only in the last byte share a shard exactly when its low halves agree |
| `Fnv.RoutingIgnoresOrder` | metric.go:160-166 | permuted parts share a shard; equal pairs all go to shard 0; a repeated part cancels out |
| `Labels.AttrsTellKeysApart` | metric.go:279-356 | distinct keys have distinct attribute sets; only the one-part key "_overflow" has the overflow set for its own |
| `Labels.AttrsName` | metric.go:285-354 | a key's set has exactly the attributes of its arity, subject then status then consumer, each with the part of its place; the overflow set is subject "_overflow" |
| `Labels.JoinTellsApart` | metric.go:232-260 | the strings noted for rejected keys are equal exactly for equal keys, as long as no label contains a bar |
| `Labels.JoinsCanClash` | metric.go:232-260 | with a bar inside a label two keys can share a string |
| `CappedMap.DistinctIsExact` | metric.go:361-379 | the distinct keys of a sequence of lookups: each once, no others |
| `CappedMap.RunIsFirstDistinct` | metric.go:361-379 | the capped map interns exactly the first `cap` distinct keys |
| `CappedMap.OneAnswerForLife` | metric.go:262-379 | every lookup of a key gets the same answer whenever it happens, own if the key ends up interned and overflow if not |
| `Shards.KeySetIsExact` | metric.go:402-411 | the keys listed from a shard's three maps are exactly those it holds, and as many as the maps have entries |
| `AttrCaches.PutRouted` | metric.go:275-283 | inserting a key into the shard its hash selects keeps every key routed and adds no other |
| `AttrCaches.AttrCache.constructor` | metric.go:50-63 | an empty cache; a cap of 0 or less becomes the default |
| `AttrCaches.AttrCache.Allow` | metric.go:88-111 | the allowed set gains exactly the non-empty labels; no labels change nothing |
| `AttrCaches.AttrCache.IsAllowed` | metric.go:113-131 | true exactly when the gate is off, or something is allowed and every label is empty or allowed |
| `AttrCaches.AttrCache.NoteDenied` | metric.go:133-143 | a label string is noted once; only a new one counts as denied, and no miss counter moves |
| `AttrCaches.ShardIndex` | metric.go:156-158 | the shard of a one-part key |
| `AttrCaches.ShardIndex2` | metric.go:160-162 | the shard of a pair |
| `AttrCaches.ShardIndex3` | metric.go:164-166 | the shard of a triple |
| `AttrCaches.AttrCache.ReserveSlot` | metric.go:361-379 | succeeds exactly below the cap, takes one slot, and reports one miss, overflow or not, to an enabled detector |
| `AttrCaches.AttrCache.OverflowEntry` | metric.go:418-425 | the one overflow entry, made once: subject "_overflow", carried by both option lists |
| `AttrCaches.AttrCache.EntryOne` | metric.go:262-290 | one step of the capped map for a one-part key; the entry has exactly subject = the label if the key was interned or a slot was free, the overflow set otherwise, and both option lists carry it; one miss counted exactly for a key not interned yet, one overflow exactly for an overflow answer |
| `AttrCaches.AttrCache.EntryTwo` | metric.go:292-324 | the same for a pair: exactly subject = first, status = second |
| `AttrCaches.AttrCache.EntryThree` | metric.go:326-359 | the same for a triple: exactly subject = first, status = second, consumer = third |
| `AttrCaches.AttrCache.LookupKey` | metric.go:232-260 | rejected exactly when the gate says so, and then no entry, size or miss count changes and the denied count moves with the set of noted strings; otherwise one step of the capped map, with the key's labels under their names or the overflow set |
| `AttrCaches.AttrCache.Subjects` | metric.go:394-416 | as a multiset, the joined labels of exactly the interned keys, each key once, `size` of them |
| `AttrReplay.ReplayIsSimple` | metric.go:262-379 | the capped map's answers are those of "own set for the first `cap` distinct keys, overflow for the rest", decided with the whole sequence in hand |
| `AttrReplay.Replay` | metric.go:50-379 | any sequence of lookups on a new `AttrCache` returns exactly that |
| `AttrCaches.UtilizationBounds` | cardinality.go:203-207 | the percentage stays in 0..100, never falls as the cache fills, and is 100 exactly when it is full |
| `AttrCaches.UtilizationRoundsDown` | cardinality.go:203-207 | and in between it is the percentage rounded down |
| `AttrCaches.CardinalityDetector.constructor` | cardinality.go:29-66 | non-positive caps and a non-positive diagnostic interval become the defaults, so the interval is positive as a ticker needs; the warning percentage is clamped to 0..100 and kept when in range |
| `AttrCaches.CardinalityDetector.ObserveMiss` | cardinality.go:86-97 | an enabled detector counts the miss, and the overflow if it is one; a disabled one nothing |
| `AttrCaches.CardinalityDetector.ObserveDenied` | cardinality.go:100-107 | an enabled detector counts the denial |
| `AttrCaches.CardinalityDetector.TakeSnapshot` | cardinality.go:189-222 | entries and subjects of the cache, the detector's own cap, counters and gate |
| `Threads.WriterIsAlone` | metric.go:273-274 | mutual exclusion of the write lock, of a lock whose waiting writer holds back new readers |
| `RecordTheorems.Linearizable` | metric.go:262-433 | every interleaving: lookups in the order they took effect got the capped map's answers, each between its call and its return, and the first `max` distinct keys in that order are the ones interned |
| `RecordTheorems.RealTimeOrder` | metric.go:262-379 | a lookup that had returned at one point of a run took effect before any lookup called at that point or later, whose place is the one it is recorded under when it returns |
| `RecordTheorems.RecordedOrder` | metric.go:262-379 | the same for two finished lookups by the counters recorded with them |
| `RecordTheorems.OneAnswer` | metric.go:262-379 | all finished lookups of a key returned the same entry |
| `RecordTheorems.CacheStructure` | metric.go:262-359 | every stored key is in the shard it is routed to, only there, with its own set; size is at most the cap; a key with a slot is stored or about to be |
| `RecordTheorems.MapsAreGuarded` | metric.go:266-283 | while a goroutine may write a shard's map no other reads or writes it |
| `RecordTheorems.SomebodyCanMove` | metric.go:262-416 | no deadlock among lookups and walks, with waiting writers holding back new readers |
| `RecordTheorems.FailedSwapsAreBounded` | metric.go:361-379 | failed swaps of one `reserveSlot` are paid for by growth of size since it began, so at most `max - size` at entry |
| `RecordProgress.EveryCallReturns` | metric.go:262-416 | from any reachable state, while nobody makes a new call, N goroutines take at most 48 steps each and two more for each free slot, under any schedule, and when none can take another step every call and walk has returned |
| `RecordWarm.WarmCallsOnlyRead` | metric.go:262-272 | a recording whose key is cached when it is called is served under the read lock: in no interleaving does it wait for a write lock, take one or ask for a slot |
| `RecordGrowth.FillNeverFalls` | metric.go:361-383 | between any two moments of a run no slot is taken back, size does not fall and neither does the utilisation percentage, which is 100 exactly when size is the cap |
| `RecordAccounts.CountersAgree` | metric.go:361-379 | size = entries of the 48 maps + goroutines between winning and inserting, at most the cap; overflows never exceed misses; with no miss under way misses = size + overflows and overflows = overflow answers |
| `RecordAccounts.DeniedCountsDistinctStrings` | metric.go:133-143 | the denied counter is the number of distinct joined label strings noted, once no goroutine is between noting and counting |
| `RecordCalls.DeniedWereRefused` | metric.go:232-260 | every noted string is that of a call made with a label that, in a state the call met, was neither empty nor registered |
| `RecordGate.DenyConfines` | metric.go:113-131 | with DenyUnknown set, every label of every cached key is empty or allowed, in every reachable state |
| `RecordWalk.SubjectsAreASnapshot` | metric.go:394-416 | a walk during inserts, by its place in the run: no key listed twice, everything cached at the action that called it listed, everything listed cached in the state it returns in, at most `max` keys |
| `RecordWalk.RecordedScans` | metric.go:394-416 | the same for every finished walk by what was recorded with it |
| `RecordCalls.UnwelcomeIsRefused` | metric.go:113-131 | for a key with some label the gate refuses exactly when it is on and some label is neither empty nor registered |
| `RecordCalls.CallOutcome` | instruments.go:227-313 | every AddWith and Add that returns, in every interleaving: exactly its own amount reached the meter under its own labels, or none did and between call and return the epoch was not its registry's, or none did, the gate refused its labels in between, and their string is noted |
| `RecordCalls.EmitsOnlyOnReturn` | instruments.go:241-313 | a recording leaves the meter alone until the step it returns with |
| `RecordCalls.EmissionsNameTheirCalls` | instruments.go:241-313 | every emission carries its handle's options and then, unless all its labels are empty, its own labels under subject, status and consumer if its key has a slot, or the overflow set when the slots are used up |
| `RecordCalls.EveryCallIsAccountedFor` | instruments.go:227-313 | in every reachable state the amounts of all calls made are those in the meter, those of calls under way and those of dropped calls, however the calls are selected |
| `RecordCalls.DroppedForAReason` | instruments.go:227-295 | every dropped call met, between call and return, a stale epoch or a gate that refused its labels |
| `RecordCalls.NoneDropped` | instruments.go:227-295 | with the registry current, and the gate off or every call's labels registered when it is made, no call is dropped |
| `RecordCalls.SeriesHoldTheirCalls` | instruments.go:241-313 | with no call under way each series holds exactly the amounts of the calls made with its labels, from the first call on, less those dropped |
| `RecordSeries.NeverSplit` | instruments.go:241-313 | amounts for one label tuple and one base never go to two series |
| `RecordSeries.SharedSeries` | instruments.go:241-313 | when two label tuples share a series: equal, both all empty, or both in overflow, where "_overflow" itself belongs |
| `RecordSeries.CardinalityBound` | metric.go:361-379 | handles without WithAttrs emit at most `maxEntries + 2` attribute sets per registry |
| `RecordSeries.SeriesBound` | instruments.go:241-313 | at most instruments times `maxEntries + 2` series |
| `RegistrySeries.RegistryBound` | instruments.go:89-124 | together with `getOrCreate`: at most `maxInstruments * (maxEntries + 2)` series over any pair of runs |
| `RecordStale.StaleHandlesFallSilent` | instruments.go:201-215 | after the epoch moved on, a superseded registry's meter gains at most one recording per goroutine, those past their last check |
| `Registries.Handle.WithAttrs` | instruments.go:217-225 | a derived handle shares instrument, cache and epoch with the one it comes from |
| `Registries.Handle.Add` | instruments.go:227-239 | a live handle sends the amount with its own options, a stale one nothing |
| `Registries.Handle.AddWithOpts` | instruments.go:297-313 | its three ways of joining option lists all send base then extra |
| `Registries.Handle.AddWith` | instruments.go:241-295 | stale or denied: meter and cached keys unchanged; all empty: base options; else base options and one set, with the key's labels under their names or the overflow set |
| `Registries.Registry.NamesRegistered` | instruments.go:83-124 | a name is registered with the meter exactly when a table has it |
| `Registries.Registry.PutMatches` | instruments.go:118-123 | storing a new handle keeps tables and registrations equal |
| `Registries.Registry.constructor` | instruments.go:56-77 | empty tables, the normalised instrument limit |
| `Registries.Registry.GetOrCreate` | instruments.go:89-199 | a known name resolves to its handle even at the limit; a new one is registered and stored once; the limit error exactly for a new name at the limit; an error changes nothing |
| `RegistryMachine.NeverOrphans` | instruments.go:89-124 | every interleaving and failure: nothing registered twice, at most `maxInstruments`; registrations equal stored instruments whenever nobody is between registering and storing one, and are at most one ahead otherwise |
| `RegistryMachine.OneHandleForEver` | instruments.go:89-124 | any two answers for a (kind, name) are one handle, different names never share one, and errors go only to names without a handle |
| `RegistryAnswers.AskIsAnswered` | instruments.go:89-124 | every request that returns, in every interleaving: the handle of the one registration of its name, or an error decided while it was under way, for a name without a handle, because the tables were full or else because the SDK said no |
| `RegistryProgress.EveryRequestReturns` | instruments.go:89-124 | from any reachable state, while nobody makes a new request, N goroutines take at most ten steps each under any schedule and any answers of the SDK, and when none can take another every request has returned |
| `RegistryProgress.KnownNamesOnlyRead` | instruments.go:95-100 | a request for an instrument that exists when it is made is answered under the read lock alone |
| `RegistryMachine.SomebodyCanMove` | instruments.go:89-124 | no deadlock among callers of `getOrCreate` |
| `Telemetries.Telemetry.constructor` | tel.go:66-90 | not started, epoch 0, a new blank registry over a new empty cache with the default cap and nothing allowed |
| `Telemetries.Telemetry.InitProviders` | tel.go:261-292 | both providers, or an error after which every resource built, counted for each outcome, has been shut down once |
| `Telemetries.Telemetry.BuildCache` | tel.go:188-205 | the next cache has the configured cap and gate and allows exactly the labels asked for so far; the detector watches it with its cap |
| `Telemetries.Telemetry.StartMonitor` | tel.go:294-315 | a monitor, or an error after shutting the providers down |
| `Telemetries.Telemetry.RollBack` | tel.go:317-330 | each of the three resources is shut down once, and a tracer provider that was installed is taken away |
| `Telemetries.Telemetry.Prepare` | tel.go:180-212 | between its two locked sections Start builds everything, with its cache ready, or has shut everything it built down once; how much it builds follows from the outcomes |
| `Telemetries.Telemetry.Install` | tel.go:214-240 | the epoch grows by one, the Telemetry owns what was built, its registry carries the new epoch |
| `Telemetries.Telemetry.Start` | tel.go:172-251 | a failed Start leaves the Telemetry as it was and every resource it built shut down once; a successful one owns every resource it built, unreleased; how many it builds follows from the outcomes; a second Start changes nothing |
| `Telemetries.Telemetry.Detach` | tel.go:335-366 | the epoch grows by one and nothing is owned |
| `Telemetries.Telemetry.Shutdown` | tel.go:334-392 | everything owned is shut down once more than before, only an own tracer provider is removed, a second Shutdown changes nothing |
| `Telemetries.Telemetry.AllowSubjects` | tel.go:420-436 | labels are remembered for the next Start and added to the current cache's allowed set |
| `Telemetries.Telemetry.CardinalityStats` | tel.go:439-475 | with and without a detector: the current cache's entries against the current cache's cap, 100 percent exactly when full |
| `Telemetries.Restart` | tel.go:332-392 | any number of Start and Shutdown rounds with any outcomes: every resource any of them built has been shut down once, the epoch grew by two for each Start that succeeded, a foreign tracer provider survives when traces are off |
| `LifecycleEpochs.LiveIffCurrent` | instruments.go:201-215 | over every interleaving a live handle belongs to the current registry, and conversely while no writer is past its wait for the mutex |
| `LifecycleEpochs.EpochParity` | tel.go:214-240 | while no writer is past its wait for the mutex, the registry's epoch is the epoch, and the Telemetry is started exactly when it is odd |
| `LifecycleEpochs.RunLater` | tel.go:223-240 | the epoch never goes back; registries and handles are never changed once made |
| `LifecycleEpochs.DeadStaysDead` | instruments.go:201-225 | a superseded handle never comes back to life |
| `LifecycleResources.ReleasedOnceOrOwned` | tel.go:172-251 | every provider and monitor ever built is released at most once and until then held by exactly one call or by the Telemetry |
| `LifecycleResources.NothingLeaks` | tel.go:334-392 | with all calls returned everything is released or held by a started Telemetry; a stopped one holds nothing while no writer is past its wait for the mutex |
| `LifecycleConfigured.StartedAsConfigured` | tel.go:172-251 | in every reachable state a started Telemetry holds exactly the providers, monitor and detector configured, each of its kind, with the configured cap; a stopped one none, on a noop meter and the default cap |
| `LifecycleStarts.StartStarts` | tel.go:172-251 | every Start that returns, in every interleaving: it started the Telemetry with what was configured under a registry that carries the epoch and spawned the detector's loop once; or no step of it touched the Telemetry or the epoch, and a provider or the monitor failed or the Telemetry was found started |
| `LifecycleCalls.ShutdownShutsDown` | tel.go:334-392 | every Shutdown that returns, in every interleaving: it found the Telemetry stopped, under the mutex; or it stopped it and bumped the epoch, and everything the Telemetry held then has been shut down once and its detector's loop stopped once and over |
| `LifecycleCalls.TakingDownKillsHandles` | tel.go:342-343 | from that bump on every handle there was is dead, for good |
| `LifecycleResources.LiveHandleHasItsProvider` | tel.go:335-386 | a handle that passes its check has a provider nobody has shut down |
| `LifecycleDetectors.HandshakeAtMostOnce` | cardinality.go:68-83 | no loop is spawned twice, no stop channel closed twice |
| `LifecycleDetectors.ShutdownIsNeverStuck` | cardinality.go:76-129 | a Shutdown waiting for a detector, even one that slipped in before the loop was spawned, is at most three possible steps of others away from going on |
| `LifecycleWaiting.ShutdownGetsThrough` | cardinality.go:76-129 | while a Shutdown waits, each helping step brings it nearer, no other step changes what it needs, the next one stays possible, and after at most three it can go on: so every fair schedule releases it |
| `LifecycleDetectors.SomethingCanHappen` | tel.go:172-475 | no deadlock among Start, with the read lock under which it copies the allowed labels, Shutdown, and the calls that only visit the mutex (Meter, Registry and CardinalityStats to read, AllowSubjects to write), with waiting writers holding back new readers |
| `LifecycleProgress.EveryCallReturns` | tel.go:172-475 | from any reachable state, while nobody makes a new call, N goroutines and the detectors' loops take at most 17 steps each goroutine and one each detector, under any schedule and any outcomes, and when none can take another every call has returned |
| `LifecycleDetectors.CockpitAgrees` | tel.go:189-207 | whenever some call holds the mutex for reading, or could, the detector's cache is the registry's cache and its cap is that cache's cap |
| `RateSamplers.InsideWindow` | log_sampler.go:87-100 | inside a window the counter counts on and admits up to the limit |
| `RateSamplers.WindowsAdmitExactly` | log_sampler.go:87-100 | each window admits exactly the smaller of the limit and its calls |
| `RateSamplers.WindowsAreApart` | log_sampler.go:93-95 | windows open at least one tick apart |
| `RateSamplers.AnyTickAdmitsBelowTwice` | log_sampler.go:87-100 | under a clock that never goes back any half-open tick admits at most `2 * limit - 1` |
| `RateSamplers.TwiceLessOneIsReached` | log_sampler.go:87-100 | and that bound is reached |
| `RateSamplers.RateCounter.Increment` | log_sampler.go:87-100 | one `inc` alone is one step of the counter function |
| `RateSamplers.RateSampler.constructor` | log_sampler.go:35-49 | limits only for debug to fatal, no global limit when 0 or negative, fresh separate counters |
| `RateSamplers.RateSampler.Sample` | log_sampler.go:60-85 | fatal and unknown levels, and levels without any limit, pass and touch nothing; any other message passes exactly when neither its level's counter nor the global one stands at its limit in an open window; the new state is one step of the sampler function |
| `RateSamplers.LevelsDoNotSpendGlobal` | log_sampler.go:60-85 | what passes is what a lone global counter admits of the messages their levels let through |
| `RateSamplers.GlobalLimitHolds` | log_sampler.go:60-85 | fewer than twice the global limit pass in any second, whatever the levels |
| `RateSamplers.LevelsAreIndependent` | log_sampler.go:72-77 | of one level at most what a lone counter with its limit admits passes, whatever other levels do, and exactly that without a global limit |
| `RateSamplers.LevelLimitHolds` | log_sampler.go:72-77 | fewer than twice a level's limit of its messages pass in any second |
| `RateRefusals.RefusedIffSpent` | log_sampler.go:60-85 | in any sequence of messages one is refused exactly when it is below fatal and its level's counter or the global one stands at its limit in an open window |
| `RateRefusals.RefusedOnlyAfterTheLimit` | log_sampler.go:60-100 | a new sampler under a clock that is never negative refuses a message only if, from some message less than a second before it on, the level's limit of messages of its level came, or the global limit of messages below fatal |
| `RateMachine.AloneIsInc` | log_sampler.go:87-100 | uninterrupted, the atomic steps are the sequential counter |
| `RateMachine.OneWinnerPerWindow` | log_sampler.go:93-100 | each successful swap strictly raises `resetAt`, so none succeeds twice against one value: no ABA |
| `RateMachine.AdmissionsBoundedByStores` | log_sampler.go:72-100 | any clock, any interleaving: admissions at most `limit - 1` per `Store(1)` plus one per window won, hence at most `limit` per store |
| `RateReturns.EveryReturnIsCounted` | log_sampler.go:87-100 | the lower half: in every interleaving a call that returns either moved `resetAt` on and passes if the limit is at least one, or raised the count by one, the losers of a swap too, and passes exactly while the count is within the limit |
| `RateReturns.RefusedAfterAFullLimit` | log_sampler.go:73-100 | a message is refused only when, since some `Store(1)`, which stands for one call, at least `limit - 1` others were counted |
| `RateReturns.FourStepsAtMost` | log_sampler.go:87-100 | wait-freedom: whatever the others do a call returns with its fourth atomic step at the latest |
| `RateMachine.FewStoresBetweenWins` | log_sampler.go:87-100 | N goroutines store fewer than 2N times between consecutive wins |
| `RateBursts.MostStoresAreReached` | log_sampler.go:87-100 | `2N - 1` is exact: no reachable state has more stores since its last win, and some has that many |
| `RateIntervals.ConcurrentRateBound` | log_sampler.go:87-100 | between any two moments, any clock: admissions are at most the rest of the present count, `limit - 1` for each of `2N - 1` stores a window, and one a window; each window won moves `resetAt` on by a tick, and it is never more than a tick ahead of the clock once won |
| `RateIntervals.WindowsSince` | log_sampler.go:87-100 | if no clock reading after a moment is older than b: at most one window won for each tick from b on, one more, and one for each of N calls under way |
| `RateIntervals.WindowsInRealTime` | log_sampler.go:87-100 | under a clock that does not go back, between any two moments at most one window is won for each tick gone by, one more, and one for each of N calls under way at first |
| `RateIntervals.RealTimeRateBound` | log_sampler.go:87-100 | under such a clock, while at most d ticks go by: at most `N + d + 1` windows, and at most `limit - 1` for each of `2N - 1` stores a window plus one a window let through |
| `SamplerMachine.NobodyWaits` | log_sampler.go:60-85 | a goroutine inside Sample can always take its next step |
| `SamplerVerdicts.SampleEnters` | log_sampler.go:60-73 | a message below fatal goes to its level's counter if that has a limit and past it if not; fatal and unknown levels return at once and touch no counter |
| `SamplerVerdicts.EveryMessageGetsItsVerdict` | log_sampler.go:60-85 | N racing goroutines: every message below fatal passes once, at its level, or is dropped with nothing passed, and then its level's counter or the global one has a limit and stood at it |
| `SamplerVerdicts.NineStepsAtMost` | log_sampler.go:60-100 | wait-freedom: whatever the others do Sample returns with the ninth step after its call at the latest |
| `SamplerMachine.PassedIsAdmitted` | log_sampler.go:79-83 | over every interleaving the messages below fatal that passed are exactly the admissions of the global counter |
| `SamplerMachine.GlobalRate` | log_sampler.go:60-85 | N racing goroutines: the messages below fatal that pass in any stretch of d ticks are within the bound of one counter with the global limit |
| `SamplerMachine.LevelRate` | log_sampler.go:72-77 | and those of one level within the bound of a counter with the level's limit, plus at most N that were past their level before |
| `RateWindow.StaleStoreBreaksTheCap` | log_sampler.go:93-96 | two goroutines, a limit of at least two, any clock reading: a run that admits `limit + 1` in one window |
| `RateWindow.WindowCapIff` | log_sampler.go:87-100 | the limit holds window by window in all runs exactly when there is one goroutine or the limit is at most one |

## Left out

- The OpenTelemetry SDK, exporters, TLS, the HTTP monitor, the zerolog adapter, environment loading and generated configuration: a provider or monitor is a resource with a shutdown, a meter is a record of what was sent.
- How the SDK merges several `WithAttributeSet` options: the meter records the option list as sent.
- Histograms and gauges as classes of their own: one `Handle` stands for all three, whose text is the same; a histogram's float64 values are integers here.
- AttrCaches.AttrCache.EntryOne: with one goroutine the second probe, made under the write lock, repeats the first and is omitted in the class, as in `EntryTwo` and `EntryThree`; `RecordMachine` has both.
- AttrCaches.AttrCache.ReserveSlot: with one goroutine the swap never fails, so the class has no retry loop; `RecordMachine` has it.
- RecordTheorems.Linearizable: `Allow` is one atomic step that adds labels, so two `Allow` calls that race and lose labels to each other are not modelled; likewise an `AllowSubjects` that races Start.
- Who comes first when a writer gives its lock back: Go's RWMutex lets in the readers that waited for it before the next writer announces itself; in the machines either may come first.
- The overflow entry is made once by a `sync.Once`; in `RecordMachine` reading it is one step.
- Telemetries.Telemetry.Start: the class is for callers one at a time; who owns the process-wide tracer provider when Start and Shutdown overlap is not modelled, nor is it in `LifecycleMachine`.
- What a failing `startMonitor` clears when it takes the lock: in `Telemetries` it finds nothing to clear, and `LifecycleMachine`, which takes the lock, does not model the tracer provider.
- Telemetries.Telemetry.Shutdown: errors returned by shutting a resource down are collected by the source and change nothing else; they are not modelled.
- LifecycleDetectors.HandshakeAtMostOnce: the ticker and the reports of the loop are left out; the loop waits for its stop channel.
- Wrap-around of the epoch, the counts and the size, and overflow of int64 nanoseconds: unbounded here. Only the hash wraps.
- Nil receivers, the nil-registry branch of `Registry()`, and `Stats()`, whose two loads need not fit together.
- Distinctness of the strings `Subjects` returns: "a|b" can come from two arities (`Labels.JoinsCanClash`); only the keys behind them are distinct.
- Timers, context helpers, spans, propagation, sampler and level-limit parsing: they would only add easy members.
