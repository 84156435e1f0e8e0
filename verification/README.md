# Verified models of phlo-observer and observe-core

phlo-observer promises that state derived from events that arrive late, out of order and in batches
equals a rebuild from scratch in `(observed_at, event_id)` order. observe-core's client transports events
through queues, a disk spool and retries, and promises that nothing critical is lost silently. This
project models the code behind both promises in Dafny and proves what it keeps, for every input and every
run. Every interleaving of threads is covered where threads share state: the worker transport
(`Transport`, `TransportOrder`, `TransportLedger`) and the replay of the spool (`Spool.Replay`). Where a
promise does not hold in general, the exact condition is proved.

`dafny verify dfyconfig.toml` checks everything.

## Reading guide

| part | modules |
|---|---|
| fold-order keys, bounded windows, newest-writer fields | `Keys`, `AsOfWindow`, `LatestWrites` |
| insight episodes: what the rows mean, exact convergence, an independent timeline | `EpisodeSpec`, `EpisodeReplay`, `EpisodeTimeline` |
| insight episodes: the rows repartitioned in place | `InsightChain`, `DedupeChain` |
| run, entity, edge and asset projections and their rows | `RunFold`, `RunTable`, `RunMeaning`, `EntityFold`, `EdgeFold`, `AssetFold` |
| rolling baselines | `Baselines` |
| identity-preserving rebuild | `UniqueMatching`, `LifecycleRebuild`, `LifecycleIncidents` |
| worker transport: eviction and `emit`; the interleaved machine and its flush barrier; delivery order; the ledger of every event | `EvictQueue`, `Transport`, `TransportOrder`, `TransportLedger` |
| disk spool: files and lines, eviction, replay among other threads | `SpoolFiles`, `SpoolEviction`, `SpoolTurns`, `Spool` |
| HTTP drain, tail sampler, event ids | `HttpSplit`, `TailSampler`, `UuidV7` |
| ingest, redaction, OTLP | `Ingest`, `Redaction`, `RedactionPaths`, `OtlpValues`, `OtlpEvents` |

The pattern of the reducers: a closed form over the *set* of events says what a state must hold; each
reducer step takes the closed form of a set to that of the set with one more event; the closed form has
one solution. Order, batching, repetition and storing through a row then cannot show.

Instants are microseconds since `datetime.min`; an event id is its rank in string order, 0 for the empty
id. Objects that the source mutates are classes; tables are maps or lists and a transaction is one step.

## What the code does not promise

- Insight rows depend on arrival order: a bound that moves down past a producer of its row hands that
  producer to the next resolved row (`EpisodeReplay.LateSuccessDiverges`). `FailureKeepsReplay` and
  `SuccessKeepsReplay` say exactly when a step agrees with a replay.
- An event the database refuses shadows a later storable event with its id in the same batch, so the
  resulting table depends on how the list is cut (`Ingest.CutsAgree`).
- Beyond 1000 assets the asset summary of a run depends on arrival order (`RunTable.AssetsDetermined`).
- A matching string that is redacted by itself, outside any container, comes back unchanged
  (`Redaction.NormalizedIsCovered`, `Redaction.RootStringSurvives`).
- Folding a metric sample again that has left the window counts it again (`Baselines.Baseline.Update`).
- A line too large to fit beside the open segments empties the spool of everything else before it is
  refused (`Spool.Append`).
- As-of lookups in bounded histories are exact only under the conditions of `AssetFold.FreshnessAsOf` and
  `Baselines.BeforeIsSuffixOfReplay`.

## Model

| member | source | states |
|---|---|---|
| `EpisodeSpec.Earliest` | services/phlo-observer/src/phlo_observer/insights.py:738-796 | the earliest key at or after an instant, and none exactly when every key is earlier |
| `EpisodeSpec.NormalIsTiled` | services/phlo-observer/src/phlo_observer/insights.py:963-1117 | normalization of any producers, bounds and stored successes gives a chain in which every bound closes a producer and nothing stays open past a stored success; every producer keeps the owner that the bounds and successes give it; normalizing again changes nothing |
| `EpisodeSpec.RetroBoundSameOwners` | services/phlo-observer/src/phlo_observer/insights.py:1101-1117 | the bound found by the retroactive lookup for the open row changes no producer's owner, which is why the recursion ends in the described partition |
| `EpisodeSpec.OnFailureTiled` | services/phlo-observer/src/phlo_observer/insights.py:637-711 | one finding in any position leaves a normalized chain, with that producer added and the stored successes unchanged |
| `EpisodeSpec.OnSuccessTiled` | services/phlo-observer/src/phlo_observer/insights.py:799-898 | one success in any position leaves a normalized chain with the same producers |
| `EpisodeSpec.TiledAndAgreesIsCanonical` | services/phlo-observer/src/phlo_observer/insights.py:963-1117 | a normalized chain whose producers sit where the stored successes put them is the replay chain |
| `EpisodeSpec.CanonicalIsTiled` | services/phlo-observer/src/phlo_observer/insights.py:963-1117 | the replay chain is normalized, and is the only chain of its producers and successes |
| `EpisodeSpec.MovedBound` | services/phlo-observer/src/phlo_observer/insights.py:901-960 | moving a row's bound keeps the replay partition if and only if the row is the newest resolved one or has no producer after its new bound |
| `EpisodeReplay.FailureKeepsReplay` | services/phlo-observer/src/phlo_observer/insights.py:637-711 | a finding, late or on time, keeps the replay partition if and only if it moves no bound or moves one safely |
| `EpisodeReplay.SuccessKeepsReplay` | services/phlo-observer/src/phlo_observer/insights.py:799-898 | the same if-and-only-if for a success |
| `EpisodeReplay.RunIsTiled` | services/phlo-observer/src/phlo_observer/insights.py:194-276 | over every run of events in any order: no producer is lost, none is doubled, every bound closes one, nothing stays open past a stored success |
| `EpisodeReplay.SafeRunConverges` | services/phlo-observer/src/phlo_observer/insights.py:194-276 | any arrival order all of whose steps are safe ends in the chain that a replay of what arrived builds |
| `EpisodeReplay.FoldOrderIsSafe` | services/phlo-observer/src/phlo_observer/insights.py:194-276 | folding in key order is safe at every step, whether successes are stored beforehand (rebuild) or just before their own step (ingest) |
| `EpisodeReplay.IncrementalEqualsRebuild` | services/phlo-observer/src/phlo_observer/projections.py:746-850 | incremental ingest in observed order and a rebuild over all stored successes build the same chain |
| `EpisodeReplay.LateSuccessDiverges` | services/phlo-observer/src/phlo_observer/insights.py:1022-1030 | arrival order does matter in general: failures at 1, 3, 5 and successes at 4, 6, then a late success at 2, end in a chain that no replay builds |
| `EpisodeTimeline.EpisodesAreRows` | services/phlo-observer/src/phlo_observer/insights.py:598-711 | one pass that opens an episode at a failure and closes it at the next success yields exactly the rows of the replay partition, each once |
| `EpisodeTimeline.ReplayEqualsEpisodes` | services/phlo-observer/src/phlo_observer/insights.py:194-276 | replay ends with exactly one row per success-delimited failure episode |
| `InsightChain.PartitionState` | services/phlo-observer/src/phlo_observer/insights.py:963-1117 | the rows of a partition hold exactly the given producers, and their bounds are exactly the live ones |
| `InsightChain.CollectProducers` | services/phlo-observer/src/phlo_observer/insights.py:1012-1018 | all recorded producers of the rows, sorted, none lost |
| `InsightChain.SortResolved` | services/phlo-observer/src/phlo_observer/insights.py:1003-1011 | the resolved rows in resolver order |
| `InsightChain.Assign` | services/phlo-observer/src/phlo_observer/insights.py:1020-1030 | each producer goes to the first bound at or after it, the rest to the open slot |
| `InsightChain.WrittenIsPartition` | services/phlo-observer/src/phlo_observer/insights.py:1032-1082 | what the write-back leaves on the rows is the partition: members, interval starts, one row per bound, no empty row |
| `DedupeChain.Rows.Repartition` | services/phlo-observer/src/phlo_observer/insights.py:985-1082 | `_normalize_chain` up to the retroactive lookup, on row objects in place; the oldest open row stays the open one, a new one is made only when there was none, and a resolved row whose bound has members stays the row of that bound |
| `DedupeChain.Rows.NormalizeChain` | services/phlo-observer/src/phlo_observer/insights.py:963-1117 | afterwards the rows are the partition of the same producers at the given bounds and stored successes; the recursion with `_resolve_row` terminates; the oldest open row is still there afterwards, open or closed at a stored success |
| `DedupeChain.RetroShrinks` | services/phlo-observer/src/phlo_observer/insights.py:1101-1117 | the open slot strictly shrinks at each retroactive resolution |
| `DedupeChain.Rows.ResolveRow` | services/phlo-observer/src/phlo_observer/insights.py:901-960 | acts exactly when the row starts at or before the success and is open or resolved later; then the chain is normalized at the moved bound, otherwise nothing changes; the same rows stay, with the moved bound |
| `DedupeChain.Rows.RowForPosition` | services/phlo-observer/src/phlo_observer/insights.py:598-634 | the row whose interval contains a position, which is the row of the earliest bound at or after it; none exactly when that is the open row and there is none |
| `DedupeChain.Rows.RecordFinding` | services/phlo-observer/src/phlo_observer/insights.py:637-711 | the finding joins the row of its position or opens a row at the latest bound before it; the rows stay a partition, with no bound changed; a joined row is one of those there were, otherwise exactly one row is added |
| `DedupeChain.Rows.EarliestResolver` | services/phlo-observer/src/phlo_observer/insights.py:738-796 | the earliest stored success at or after the row's first producer |
| `DedupeChain.Rows.StepFailure` | services/phlo-observer/src/phlo_observer/insights.py:194-276 | one failing event on the row objects is exactly the step of the value model; no insight row is ever lost or replaced, at most one resolved row moves its bound, and only to an earlier stored success |
| `DedupeChain.Rows.StepSuccess` | services/phlo-observer/src/phlo_observer/insights.py:799-898 | one success on the row objects is exactly the step of the value model; no insight row is ever lost or replaced, at most one resolved row moves its bound, and only to an earlier stored success |
| `DedupeChain.AllPersist` | services/phlo-observer/src/phlo_observer/insights.py:985-1082 | moving one bound down, or closing the open row, leaves every row of the chain with members, and hence in place |
| `DedupeChain.Rows.ValidIntervals` | services/phlo-observer/src/phlo_observer/insights.py:963-1117 | each producer is on exactly one row, the one whose interval holds it; at most one row is open and it has no stored success at or after its first producer |
| `DedupeChain.PartitionDetermined` | services/phlo-observer/src/phlo_observer/insights.py:963-1117 | producers, bounds and stored successes determine every row's content: which row held what before leaves no trace |
| `DedupeChain.TargetsAre` | services/phlo-observer/src/phlo_observer/insights.py:799-898 | at most one resolved row is a target of a success, and only the last target can close |
| `Keys.WindowUnique` | services/phlo-observer/src/phlo_observer/state_engine.py:250-263 | the bounded window of a set of keys is unique, whatever the arrival order |
| `Keys.WindowMeans` | services/phlo-observer/src/phlo_observer/state_engine.py:250-263 | a window keeps everything while there is room and then drops only keys on the far side of all it keeps |
| `Keys.InsertSorted` | services/phlo-observer/src/phlo_observer/state_engine.py:250-263 | inserting into a window of any set gives the window of the set with the key, for either end and any cap |
| `Keys.WindowOfWindow` | services/phlo-observer/src/phlo_observer/projections.py:489-493 | merging what another window kept is as good as merging everything it saw |
| `Keys.InsertAll` | services/phlo-observer/src/phlo_observer/projections.py:489-493 | the provenance merge of a flush: the window of the union |
| `LatestWrites.LatestUnique` | services/phlo-observer/src/phlo_observer/state_engine.py:266-280 | values and write keys are determined by the set of writes |
| `LatestWrites.SetLatest` | services/phlo-observer/src/phlo_observer/state_engine.py:266-280 | a write joins the set of writes, wherever its key falls |
| `LatestWrites.GatedMerge` | services/phlo-observer/src/phlo_observer/state_engine.py:301-324 | per field, the incoming value wins exactly when its key is at or after the stored key or legacy gate |
| `LatestWrites.MergeIsLatest` | services/phlo-observer/src/phlo_observer/state_engine.py:301-324 | merging two registers is the register of the union of their writes: commutative, associative, idempotent |
| `RunFold.RunState.Record` | services/phlo-observer/src/phlo_observer/state_engine.py:137-150 | provenance keeps the earliest 64 sources, skipping events without an id |
| `RunFold.RunState.Close` | services/phlo-observer/src/phlo_observer/state_engine.py:414-427 | a terminal event moves the status to the highest precedence and the end to the latest |
| `RunFold.RunState.Start` | services/phlo-observer/src/phlo_observer/state_engine.py:429-438 | earliest event, its fallback and the smallest start are maintained from any order |
| `RunFold.RunState.Apply` | services/phlo-observer/src/phlo_observer/state_engine.py:375-438 | folding one event, in any position, takes the closed form of a set of events to that of the larger set: counters, capped assets, fields with write keys, status, end, start bookkeeping, provenance window |
| `RunMeaning.StatusMeans` | services/phlo-observer/src/phlo_observer/state_engine.py:43-54 | a run is a failure if and only if some terminal event says so, a success if and only if some says so and none says failure, then cancelled, then partial; otherwise running or queued; for every outcome word |
| `RunMeaning.CanonicalStatus` | services/phlo-observer/src/phlo_observer/state_engine.py:414-427 | the same for the outcomes of canonical events, word by word |
| `RunMeaning.StoredStatus` | services/phlo-observer/src/phlo_observer/projections.py:694-713 | the stored row has that status |
| `RunMeaning.ColumnsMean` | services/phlo-observer/src/phlo_observer/state_engine.py:395-421 | the end is the latest end or observation of a terminal event with a final outcome; events, errors and warnings count each event once |
| `RunMeaning.ValueIsNewest` | services/phlo-observer/src/phlo_observer/state_engine.py:406-423 | branch, job, service and environment come from the newest event that names one, duration and trigger from the newest terminal one |
| `RunTable.RoundTrip` | services/phlo-observer/src/phlo_observer/projections.py:641-713 | loading what the reducer stored gives back the state it was stored from |
| `RunTable.ShellIsNew` | services/phlo-observer/src/phlo_observer/projections.py:641-691 | a pre-created row without history loads as the empty state |
| `RunTable.SummaryUnique` | services/phlo-observer/src/phlo_observer/state_engine.py:375-438 | a set of events determines the state, whatever order and batches; beyond 1000 assets all but which assets were kept |
| `RunTable.AssetsDetermined` | services/phlo-observer/src/phlo_observer/state_engine.py:402-404 | the asset summary is a function of the events if and only if there are at most 1000 assets |
| `RunTable.StartedAtIsReplay` | services/phlo-observer/src/phlo_observer/state_engine.py:429-438 | `started_at` is the least of the earliest event's start, or its observation time when it has none, and every event's start |
| `RunTable.Runs.UpdateRunProjections` | services/phlo-observer/src/phlo_observer/projections.py:608-635 | a batch is folded into each run's row: afterwards every row is the closed form of all its events |
| `RunTable.Runs.Rebuild` | services/phlo-observer/src/phlo_observer/projections.py:746-1000 | a rebuild folds the whole history into rows of the same closed form |
| `RunTable.RowDetermined` | services/phlo-observer/src/phlo_observer/projections.py:694-713 | rows folded from the same events are equal but for `updated_at` |
| `RunTable.TablesConverge` | services/phlo-observer/src/phlo_observer/projections.py:608-635 | two tables that folded the same events agree on every row, however ordered, batched or rebuilt |
| `EntityFold.MergeAttributes` | services/phlo-observer/src/phlo_observer/state_engine.py:283-298 | one event's attribute updates join the writes of the entity |
| `EntityFold.AccumulateOne` | services/phlo-observer/src/phlo_observer/projections.py:380-398 | one touch takes the closed form of an entity to that of the larger set, repeated or not |
| `EntityFold.Accumulate` | services/phlo-observer/src/phlo_observer/projections.py:365-413 | a batch is accumulated into exactly the entities it touches, each with the closed form of its touches |
| `EntityFold.MergeRow` | services/phlo-observer/src/phlo_observer/projections.py:456-502 | merging an accumulator into a row gives the closed form of the union |
| `EntityFold.SameReferences` | services/phlo-observer/src/phlo_observer/projections.py:489-502 | when the id list is unchanged the skipped provenance write would change nothing |
| `EntityFold.FlushOne` | services/phlo-observer/src/phlo_observer/projections.py:416-502 | insert-then-merge is right both for a new and for an existing row |
| `EntityFold.FlushIdempotent` | services/phlo-observer/src/phlo_observer/projections.py:416-502 | flushing an accumulator twice is flushing it once |
| `EntityFold.RowUnique` | services/phlo-observer/src/phlo_observer/projections.py:416-502 | rows that folded the same touches are equal |
| `EntityFold.Registry.ApplyBatch` | services/phlo-observer/src/phlo_observer/projections.py:574-597 | a batch adds exactly its touches to every row's history |
| `EntityFold.RegistriesConverge` | services/phlo-observer/src/phlo_observer/projections.py:574-597 | registries that folded the same touches hold the same rows |
| `EdgeFold.Accumulate` | services/phlo-observer/src/phlo_observer/projections.py:399-413 | an edge keeps the greatest confidence and its earliest 32 sources |
| `EdgeFold.Flush` | services/phlo-observer/src/phlo_observer/projections.py:505-571 | the stored edge is the closed form of the union, new or existing |
| `EdgeFold.RowUnique` | services/phlo-observer/src/phlo_observer/projections.py:505-571 | the stored edge depends only on which events showed it |
| `AssetFold.AssetState.Apply` | services/phlo-observer/src/phlo_observer/state_engine.py:605-624 | folding one event, in any position and repeated or not, takes the closed form of a set of events to that of the larger set |
| `AssetFold.StatusIsLatestOutcome` | services/phlo-observer/src/phlo_observer/state_engine.py:574-590 | status is decided by the newest success and the newest failure of the whole history |
| `AssetFold.StatusMeans` | services/phlo-observer/src/phlo_observer/state_engine.py:574-590 | failing when some failure is not followed by a success, recovering when each is, healthy with successes only, unknown with neither |
| `AssetFold.MaterializedBefore` | services/phlo-observer/src/phlo_observer/state_engine.py:593-602 | the lookup is the last retained success strictly before a position |
| `AssetFold.FreshnessAsOf` | services/phlo-observer/src/phlo_observer/state_engine.py:593-602 | that lookup answers as the whole history would if and only if nothing precedes the position or fewer than 64 successes lie at or after it |
| `AssetFold.RoundTrip` | services/phlo-observer/src/phlo_observer/state_engine.py:627-679 | a stored asset row loads back as the state it was stored from |
| `AssetFold.FoldRow` | services/phlo-observer/src/phlo_observer/projections.py:304-362 | load, fold in any order, store: the row is the closed form of all events |
| `AssetFold.RowUnique` | services/phlo-observer/src/phlo_observer/projections.py:304-362 | the row depends only on the set of events |
| `AsOfWindow.WindowAsOf` | services/phlo-observer/src/phlo_observer/state_engine.py:593-602 | the same if-and-only-if for a window of any cap |
| `Baselines.Baseline.Update` | services/phlo-observer/src/phlo_observer/baselines.py:156-209 | a new position: the stored list is that of the 200 newest samples and the count goes up by one; a position folded before changes no sample, and is counted again exactly when it has left the window |
| `Baselines.WindowIsUnique` | services/phlo-observer/src/phlo_observer/baselines.py:156-209 | arrival order leaves no trace in the stored list |
| `Baselines.WindowBefore` | services/phlo-observer/src/phlo_observer/baselines.py:144-153 | the samples before a position are a prefix of the stored list |
| `Baselines.BeforeIsSuffixOfReplay` | services/phlo-observer/src/phlo_observer/baselines.py:144-153 | they are a suffix of what an observed-order replay holds there, and equal to it if and only if nothing was dropped, nothing follows or nothing precedes |
| `Baselines.StatsIgnoreOrder` | services/phlo-observer/src/phlo_observer/baselines.py:28-47 | the statistics depend only on which values the window holds |
| `Baselines.StatsAreInOrder` | services/phlo-observer/src/phlo_observer/baselines.py:28-47 | the median splits the values in halves, the percentiles bracket it, the mean lies between the extremes, the deviation is not negative |
| `Baselines.StatsAreExact` | services/phlo-observer/src/phlo_observer/baselines.py:28-47 | median and deviation are the middle value, or the mean of the two middle ones, of the values and of their distances from the median; the percentiles are the values nearest to a tenth and nine tenths of the way, ties to even |
| `Baselines.MeanIsExact` | services/phlo-observer/src/phlo_observer/baselines.py:42-43 | the mean is the sum of the values, in any order, by their number |
| `UniqueMatching.UniqueMatches` | services/phlo-observer/src/phlo_observer/projections.py:106-125 | succeeds exactly when no old row has two candidates and no candidate is shared; then it is injective and matches exactly the candidates |
| `UniqueMatching.OnlyMatching` | services/phlo-observer/src/phlo_observer/projections.py:106-125 | the matching is the only one |
| `LifecycleRebuild.SameInsightMeans` | services/phlo-observer/src/phlo_observer/projections.py:152-157 | rows match exactly when rule, version, dedupe key and entity agree and some event produced both |
| `LifecycleRebuild.RestoredMeans` | services/phlo-observer/src/phlo_observer/projections.py:187-199 | id and creation time always come back; an operator's state and time come back in each of the ways a decision is recorded; otherwise the replay decides |
| `LifecycleRebuild.CheckOpen` | services/phlo-observer/src/phlo_observer/projections.py:161-178 | accepts exactly when no two rows that end open share a dedupe key |
| `LifecycleRebuild.Release` | services/phlo-observer/src/phlo_observer/projections.py:180-185 | phase 1 closes exactly the rows an operator had closed |
| `LifecycleRebuild.Restore` | services/phlo-observer/src/phlo_observer/projections.py:187-200 | phase 2 restores ids, creation times and operator decisions, and keeps unmatched old rows |
| `LifecycleRebuild.FlushesAreSafe` | services/phlo-observer/src/phlo_observer/projections.py:180-200 | at both flushes, whichever rows have already been written, no id repeats and no two open insights share a dedupe key |
| `LifecycleRebuild.IdentitiesPreserved` | services/phlo-observer/src/phlo_observer/projections.py:139-200 | every pre-rebuild id exists exactly once afterwards, on its matched row or the retained one; an operator-decided or retained row has its old state, whatever that is |
| `LifecycleRebuild.RestoreLifecycle` | services/phlo-observer/src/phlo_observer/projections.py:139-200 | refuses without changing anything exactly when the matching is ambiguous or two rows would end open on one key; otherwise all of the above; a row that ends with an old id tells of the episode of that old row, and a retained row of one that no replayed row tells of |
| `LifecycleIncidents.Mappings` | services/phlo-observer/src/phlo_observer/projections.py:160-160 | the id mapping takes every replayed insight id to the id it ends with |
| `LifecycleIncidents.RemapKeepsReferences` | services/phlo-observer/src/phlo_observer/projections.py:202-211 | after renaming, every insight an incident or its members refer to exists |
| `LifecycleIncidents.RetainedKeepsReferences` | services/phlo-observer/src/phlo_observer/projections.py:224-229 | so does every insight that a retained old incident refers to |
| `LifecycleIncidents.RestoreIncidents` | services/phlo-observer/src/phlo_observer/projections.py:213-237 | refuses an ambiguous matching without changes, otherwise restores ids and operator decisions and keeps unmatched old incidents; matched incidents share a member event or, without positions, their whole membership, and unmatched ones do not |
| `LifecycleIncidents.RestoredMeans` | services/phlo-observer/src/phlo_observer/projections.py:224-236 | the id always comes back, an operator's decision with its timeline and impact; an undecided open incident is as replayed |
| `LifecycleIncidents.IdentityOnce` | services/phlo-observer/src/phlo_observer/projections.py:223-237 | every old incident id exists exactly once afterwards |
| `LifecycleIncidents.RestoreLifecycle` | services/phlo-observer/src/phlo_observer/projections.py:139-237 | both phases: refuses on the insights without changing anything exactly when they are not restorable; otherwise every incident, matched, new or retained, refers only to existing insights, and every old incident exists exactly once with the operator's state |
| `EvictQueue.FindVictim` | packages/observe-core/src/observe_core/backends.py:405-438 | the oldest non-critical event of the first 256 items, else the oldest critical one; never a control item |
| `EvictQueue.VictimUnique` | packages/observe-core/src/observe_core/backends.py:405-438 | at most one item qualifies |
| `EvictQueue.VictimMeans` | packages/observe-core/src/observe_core/backends.py:417-438 | a non-critical event goes only when all events before it are critical, a critical one only when it is the first event and no event among the first 256 items is anything else |
| `EvictQueue.Backend.EvictOldest` | packages/observe-core/src/observe_core/backends.py:405-438 | exactly the victim leaves; survivors keep their order |
| `EvictQueue.Backend.SpoolEvent` | packages/observe-core/src/observe_core/backends.py:312-316 | a critical event that was evicted or never queued goes to the spool or is counted as a spool error |
| `EvictQueue.Backend.Deliver` | packages/observe-core/src/observe_core/backends.py:213-237 | for each drain: after a failure of a remote drain that wants it, its spool is offered every critical event of the batch, each as often as it occurs, and nothing else; otherwise nothing; the counters move by the accepted and refused offers |
| `EvictQueue.OffersAreRight` | packages/observe-core/src/observe_core/backends.py:232-236 | the loop over a failed batch offers exactly its critical events |
| `EvictQueue.Backend.Drop` | packages/observe-core/src/observe_core/backends.py:388-394 | only non-critical events are counted dropped, each once |
| `EvictQueue.Backend.Emit` | packages/observe-core/src/observe_core/backends.py:318-356 | one pass through `emit`: what happens in each case of capacity, criticality and drop policy, with other producers racing for the freed slot; one place per event, and exact counters |
| `Transport.StepKeeps` | packages/observe-core/src/observe_core/backends.py:318-386 | every atomic step of every thread keeps the invariant that ties queue, hands, batches, evictions, registered and pending sequences together |
| `Transport.RunKeeps` | packages/observe-core/src/observe_core/backends.py:442-482 | so does every interleaving of any number of emitters, workers, evictors and flushers |
| `Transport.HeldIsRegistered` | packages/observe-core/src/observe_core/backends.py:365-374 | a dequeued event always finds its sequence, although it can be dequeued before it is admitted |
| `Transport.PendingIsInFlight` | packages/observe-core/src/observe_core/backends.py:358-386 | a pending sequence is that of an event in the queue, in a worker's hand or batch, or in eviction |
| `Transport.InFlightIsPending` | packages/observe-core/src/observe_core/backends.py:358-386 | and every admitted event located there is pending |
| `Transport.FlushBarrier` | packages/observe-core/src/observe_core/backends.py:492-531 | when a flush sees nothing pending below the target it read, every event admitted before has been handed to the drains under its own sequence or evicted |
| `TransportOrder.DeliveredInAdmissionOrder` | packages/observe-core/src/observe_core/backends.py:442-482 | with one worker, delivery order is a subsequence of admission order in every run |
| `TransportLedger.StepKeeps` | packages/observe-core/src/observe_core/backends.py:318-386 | every step of every emitter, evictor, worker and drain keeps the ledger |
| `TransportLedger.LedgerOfRun` | packages/observe-core/src/observe_core/backends.py:312-482 | over every interleaving, with drains and spools failing at any time: each emitted event is in exactly one place, the one the threads' own data has it in; no critical event is dropped and no other is spooled; each drain is handed each delivered event exactly once and its spool offered exactly the critical events of the batches it failed to take; every counter is exact; what `emit` returned is true |
| `TransportLedger.Conservation` | packages/observe-core/src/observe_core/backends.py:318-356 | when everything has come to rest, delivered, spooled, refused and dropped events add up to the emitted ones |
| `TransportLedger.DropNewestOfRun` | packages/observe-core/src/observe_core/backends.py:330-356 | unless the policy is `drop_oldest`, an enqueued event is never spooled, refused or dropped by an emitter, over every interleaving |
| `TransportLedger.AnswersPlaced` | packages/observe-core/src/observe_core/backends.py:312-316 | the spool's answer decides the place of a critical event and what its emitter is told |
| `Spool.Spool.EvictOldest` | packages/observe-core/src/observe_core/spool.py:166-184 | exactly the head of the eviction order goes; never an open segment |
| `SpoolEviction.OldestIsNext` | packages/observe-core/src/observe_core/spool.py:166-184 | the eviction order is idle segments oldest first, then idle quarantined files, and each eviction takes its head |
| `SpoolEviction.HeadOfOrder` | packages/observe-core/src/observe_core/spool.py:166-184 | next is the oldest closed segment and, only when there is none, the oldest closed quarantined file |
| `SpoolEviction.RoomExactly` | packages/observe-core/src/observe_core/spool.py:95-104 | with `drop_oldest` the loop finds room if and only if the line fits beside the open segments |
| `Spool.Spool.Append` | packages/observe-core/src/observe_core/spool.py:85-113 | the budget holds; files are evicted in eviction order, only as many as needed, none under `drop_newest`; the line is accepted exactly when the write is possible and it then fits, under `drop_oldest` exactly when it fits beside the open segments; it joins the open segment; the loop terminates; the open segment changes exactly when the line would take it beyond the segment size |
| `Spool.Spool.MakeRoom` | packages/observe-core/src/observe_core/spool.py:95-104 | the loop evicts the shortest sufficient prefix of the eviction order, or all of it |
| `Spool.Spool.Write` | packages/observe-core/src/observe_core/spool.py:105-109 | the line joins the open segment, which appears with its first line |
| `Spool.Spool.Accept` | packages/observe-core/src/observe_core/spool.py:239-248 | an accepted segment leaves the disk as drained, or stays evicted if it was evicted in the meantime; the drain's log grows by it |
| `Spool.Spool.Quarantine` | packages/observe-core/src/observe_core/spool.py:255-260 | quarantine renames the file and moves no line |
| `Spool.Spool.Replay` | packages/observe-core/src/observe_core/spool.py:198-253 | whatever other threads do in between: lists every closed segment of the destination, takes them oldest first, skips only what was evicted or opened since, stops at the first transient failure or at the bound; the drain's log grows by exactly the segments it accepted; undisturbed, each segment is treated by the rules and everything else stays |
| `Spool.Spool.ReplayOne` | packages/observe-core/src/observe_core/spool.py:217-248 | one segment, with other threads before the check, before the read and during the offer |
| `Spool.Spool.Settle` | packages/observe-core/src/observe_core/spool.py:228-248 | accepted segments are deleted, rejected and undecodable ones set aside, transient failures left alone |
| `Spool.Spool.Other` | packages/observe-core/src/observe_core/spool.py:85-113 | every critical section of another thread keeps the closed segments of the replayed destination, except for eviction |
| `SpoolTurns.SealedStays` | packages/observe-core/src/observe_core/spool.py:217-227 | what a replay has read from a closed segment stays what the file holds |
| `SpoolTurns.CausesTrans` | packages/observe-core/src/observe_core/spool.py:85-184 | over any steps, a line leaves its place only with a file that was evicted or accepted since |
| `SpoolTurns.ReplayAlone` | packages/observe-core/src/observe_core/spool.py:198-253 | undisturbed, the listed names are exactly the closed segments; accepted ones are gone, rejected ones dead, undecodable ones corrupt, all others in place |
| `SpoolTurns.LinesCounted` | packages/observe-core/src/observe_core/spool.py:245-248 | a replay returns the number of lines of the accepted segments |
| `SpoolFiles.RemoveLedger` | packages/observe-core/src/observe_core/spool.py:166-184 | removing a file moves exactly its lines to one cause |
| `SpoolFiles.WriteLedger` | packages/observe-core/src/observe_core/spool.py:105-109 | writing puts the line in exactly one place |
| `HttpSplit.BudgetSplits` | packages/observe-core/src/observe_core/drains/http.py:102-106 | the halves cost no more than what the attempts on the whole leave of the budget |
| `HttpSplit.Drain.Post` | packages/observe-core/src/observe_core/drains/http.py:96-97 | one request: the record of answers grows by exactly what the server answered |
| `HttpSplit.Drain.Send` | packages/observe-core/src/observe_core/drains/http.py:86-120 | for every sequence of responses: on success the batches that the server acknowledged are exactly the payloads, once and in order; otherwise a prefix; a rejection has a final error as its last answer, giving up has max_attempts passing failures of one batch; at most max_attempts*(2n-1) requests |
| `HttpSplit.ConclusionMeans` | packages/observe-core/src/observe_core/drains/http.py:98-120 | in status codes: a rejection ends on a client error other than 408, 429 and a 413 that can be split; giving up ends on max_attempts network errors, 408, 429 or 5xx for one batch |
| `HttpSplit.AcknowledgedMeans` | packages/observe-core/src/observe_core/drains/http.py:102-119 | a batch is acknowledged by any status below 400 and by nothing else |
| `TailSampler.Sampler.Process` | packages/observe-core/src/observe_core/tail.py:77-124 | bounds, order and accounting hold after every event; which branch forwards, keeps or drops what; after a terminal event that failed or reached the duration threshold every event of its run since the last close has been forwarded, in order and last, even if it passed through, was released at the bound or flushed by age; any other terminal event loses what is buffered of its run |
| `TailSampler.NothingLost` | packages/observe-core/src/observe_core/tail.py:98-116 | whatever has been processed of a run since its last close is forwarded or still buffered, and not dropped |
| `TailSampler.GrowKeeps` | packages/observe-core/src/observe_core/tail.py:77-100 | forwarded or buffered, an event keeps its run's trail in order and complete since the last close |
| `TailSampler.Sampler.Flush` | packages/observe-core/src/observe_core/tail.py:126-152 | flushing forwards exactly the idle runs, or all; nothing is dropped |
| `TailSampler.Sampler.Release` | packages/observe-core/src/observe_core/tail.py:70-75 | releasing a buffer keeps every run's events in processing order |
| `UuidV7.Generator.Next` | packages/observe-core/src/observe_core/ids.py:20-45 | the state step of one call, and the value it returns |
| `UuidV7.Monotonic` | packages/observe-core/src/observe_core/ids.py:20-45 | over every series of calls and every clock, values strictly increase while the claimed millisecond is below 2^48 |
| `UuidV7.StaleCalls` | packages/observe-core/src/observe_core/ids.py:29-37 | k stale calls claim floor((counter + k) / 4096) further milliseconds |
| `UuidV7.FieldsReadBack` | packages/observe-core/src/observe_core/ids.py:38-45 | millisecond, version 7, counter, variant 2 and random bits read back; the value fits in 128 bits (sections 4.1, 4.2 and 5.7 of RFC 9562) |
| `Ingest.Store.PersistEvents` | services/phlo-observer/src/phlo_observer/store.py:269-342 | the table becomes its first-writer-wins extension; accepted counts the new rows, duplicates exactly the events that equal the one staged or stored under their id, rejected the rest |
| `Ingest.Store.InsertRows` | services/phlo-observer/src/phlo_observer/store.py:510-570 | the bulk path and the per-item fallback have one outcome, in the table and in every count |
| `Ingest.Idempotent` | services/phlo-observer/src/phlo_observer/store.py:269-342 | existing rows never change, and ingesting a batch again changes nothing |
| `Ingest.IngestedAt` | services/phlo-observer/src/phlo_observer/store.py:325-342 | an id is stored afterwards if it was before or if its first event is storable, and holds that event |
| `Ingest.RepeatsMeans` | services/phlo-observer/src/phlo_observer/store.py:573-595 | a duplicate is a valid event whose canonical form equals that of the first event of the batch with its id or, being that event, of the stored row |
| `Ingest.AgainOnlyDuplicates` | services/phlo-observer/src/phlo_observer/store.py:269-342 | ingesting valid storable events with new ids a second time counts only duplicates |
| `Ingest.CutsAgree` | services/phlo-observer/src/phlo_observer/store.py:297-341 | cutting a batch in two gives the same table if and only if no refused event hides a storable one with its id behind the cut |
| `Ingest.RefusedEventHidesStorable` | services/phlo-observer/src/phlo_observer/store.py:322-341 | such a batch exists |
| `Ingest.StorableCutsAgree` | services/phlo-observer/src/phlo_observer/store.py:269-342 | with storable events the cut never matters |
| `Redaction.NormalizedFits` | packages/observe-core/src/observe_core/serialization.py:72-119 | a value normalized with bound d nests at most d + 1 containers |
| `RedactionPaths.NormalizeKeeps` | packages/observe-core/src/observe_core/serialization.py:72-119 | a JSON value within the bound is normalized to itself |
| `RedactionPaths.NormalizeCuts` | packages/observe-core/src/observe_core/serialization.py:102-118 | a deeper one is cut at the bound and nowhere else |
| `Redaction.FastKeyCheck` | packages/observe-core/src/observe_core/redaction.py:131-141 | the set-based key check decides exactly whether some pattern occurs as consecutive segments |
| `RedactionPaths.PathHitMeans` | packages/observe-core/src/observe_core/redaction.py:123-129 | a path rule hits an entry whose path and name end with its segments and, for names without dots, no other |
| `RedactionPaths.PathRulesApply` | packages/observe-core/src/observe_core/redaction.py:176-202 | at every depth of the budget, each entry that a path rule reaches holds the marker |
| `RedactionPaths.RedactionHasReasons` | packages/observe-core/src/observe_core/redaction.py:176-205 | with plain names, an entry becomes the marker exactly when its name is secret, a path rule reaches it or its text matches |
| `Redaction.Redactor.CachedKeyHit` | packages/observe-core/src/observe_core/redaction.py:113-129 | the cached verdict is the uncached one, and the cache stays bounded |
| `Redaction.RedactCleans` | packages/observe-core/src/observe_core/redaction.py:176-202 | within the depth budget no matching key, path or string is left at any depth, if and only if the value is not itself a matching string |
| `Redaction.NormalizedIsCovered` | packages/observe-core/src/observe_core/redaction.py:156-174 | redaction covers what normalization with the same bound produces, if and only if that is not a matching string by itself |
| `Redaction.ContainersAreCovered` | packages/observe-core/src/observe_core/redaction.py:143-154 | so mappings and lists, of which events are made, are always covered |
| `Redaction.RootStringSurvives` | packages/observe-core/src/observe_core/redaction.py:186-202 | a matching string by itself comes back unchanged |
| `Redaction.RedactMarksOnlyHits` | packages/observe-core/src/observe_core/redaction.py:176-202 | exactly the hits become the marker; names, shape and all other leaves stay |
| `Redaction.RedactIdempotent` | packages/observe-core/src/observe_core/redaction.py:176-202 | redacting again changes nothing |
| `Redaction.BeyondBudget` | packages/observe-core/src/observe_core/redaction.py:176-186 | one level more and a secret survives: the bound is exact |
| `OtlpValues.RoundTrip` | services/phlo-observer/src/phlo_observer/adapters/otlp.py:75-105 | decoding an encoded value gives its normal form: integers as decimal text, null entries dropped |
| `OtlpValues.NormalIdempotent` | services/phlo-observer/src/phlo_observer/forward.py:64-86 | the normal form is a fixed point |
| `OtlpValues.SeverityRoundTrip` | services/phlo-observer/src/phlo_observer/adapters/otlp.py:116-128 | every severity survives the number scale |
| `OtlpValues.SeverityScale` | services/phlo-observer/src/phlo_observer/adapters/otlp.py:116-128 | the adapter reads the severity numbers in steps of four |
| `OtlpValues.DecimalReadsBack` | services/phlo-observer/src/phlo_observer/forward.py:66-69 | the decimal text of an integer reads back as the integer, without leading zeros |
| `OtlpEvents.EncodeAttributes` | packages/observe-core/src/observe_core/otlp_mapping.py:50-78 | the three loops and the two shortcuts over the event's dictionaries fill in exactly the attributes that the encoding assigns to the event |
| `OtlpEvents.LogRecord` | services/phlo-observer/src/phlo_observer/forward.py:89-109 | a record carries them as AnyValues |
| `OtlpEvents.ExportMeans` | packages/observe-core/src/observe_core/otlp_mapping.py:62-74 | correlation ids are in a record verbatim, trace and span ids also under their shortcuts |
| `OtlpEvents.EventRoundTrip` | services/phlo-observer/src/phlo_observer/adapters/otlp.py:300-436 | a canonical event, with or without a source, comes back with the same flat fields, severity, duration, correlation, extra and sections; only the source adapter, the defaults of an absent source and the added scope attribute differ |

## Left out

- Insight rows: titles, recommendations, evidence lists and other displayed fields; a producer entry stands for its key. Grouping of insights into incidents, rule evaluation and alerts are not part of this model.
- Insight rows written before bookkeeping existed (resolved without a resolver key, producers synthesized from evidence), operator states and the `force` flag of `_normalize_chain`.
- DedupeChain.Rows.EarliestResolver: looks at every stored success, where the source inspects at most 256 candidates of a query.
- DedupeChain.Rows.StepFailure: for at most 64 producers of one dedupe key; beyond that `_apply_producers` drops the newest.
- DedupeChain.Rows.Repartition: for at most 64 producers of one dedupe key, as above.
- DedupeChain.Rows.NormalizeChain: for at most 64 producers of one dedupe key, as above.
- DedupeChain.Rows.ResolveRow: for at most 64 producers of one dedupe key, as above.
- DedupeChain.Rows.RecordFinding: for at most 64 producers of one dedupe key, as above.
- DedupeChain.Rows.StepSuccess: for a success observed after `datetime.min`, the sentinel that the code uses for the beginning of history; one dedupe key at a time, and one event per batch, so that a success is stored right before its own step.
- `EpisodeReplay` orders by instant and id; a failure and a success at one instant count as failure first in the reference timeline, as resolvers cover their own instant.
- RunTable.SummaryUnique: for the outcome words of the canonical enumeration; `degraded` and `partial` share a precedence, so with non-canonical words the status can depend on order.
- RunTable.RowDetermined: for distinct event positions per run and at most 1000 assets.
- Wall-clock columns (`updated_at`, `derived_at`, first and last seen of edges), entity kind and display name, and other keys of a run's summary.
- Which entities, edges and asset verbs an event yields (`event_entities`, `edges_of`, `_branch_attributes`): a touch arrives with its updates, an edge with its confidence.
- EntityFold.MergeRow: for event ids that name one position; malformed stored keys and the float-only or missing fold states of old rows are not modelled, except for the defaults in `RunTable.Load` and `AssetFold.Load`.
- Baselines.StatsAreExact: over exact reals, as below.
- Baselines.StatsAreInOrder: over exact reals, where the source uses floats; `round` of the percentile index is Python's half-to-even on exact tenths.
- Baselines.Baseline.Update: which observations an event contributes is not modelled; an update of the five statistics is `Compute` on the stored values.
- LifecycleRebuild.RestoreLifecycle: fresh ids are distinct from each other and from all old ids; row content other than id, state, times and the manual flag is not modelled. The snapshot of lifecycle records enters as the state of the latest record of each row.
- LifecycleIncidents.RestoreLifecycle: the id mapping is computed from the ids the rows had before the insight phases, after those phases; a refusal of the incident phase aborts the transaction, whose rollback is not modelled.
- LifecycleIncidents.RestoreIncidents: sorted id lists and JSON copies are sets and sequences.
- `Transport` is a state machine over values, since its threads interleave within one method; stopping, the closed-backend shortcut, time-outs and liveness are not modelled, and events in flight are distinct objects. Drain failures count as handed over.
- EvictQueue.Backend.Emit: `telemetry_required` raises are not modelled; the spool's answer is a parameter; only other producers' puts interleave here, everything else does in `TransportLedger`.
- TransportLedger.LedgerOfRun: emitted events are distinct; a drain is handed a batch, and its spool answers, in one step; increments that the spool itself makes to `spool_errors`, and the counters `drain_errors`, `emitted_batches` and `flushes`, are left out.
- Spool.Spool.Replay: file operations other than the append succeed; the listing is one step; other threads append to any destination and replay other destinations, since a destination is replayed by one thread at a time. Decodability and the drain's verdict on a segment are parameters.
- HttpSplit.Drain.Send: compression, headers and delays are left out; responses are any sequence.
- TailSampler.Sampler.Flush: idle runs are flushed in any order, where the source uses insertion order; counters of the statistics object are left out.
- UuidV7.Generator.Next: clock readings and random bits are parameters; concurrency is the lock.
- Ingest.Store.PersistEvents: rows, canonical forms and storability are given; correlation links, projections, notifications and error messages are not part of this model. A value that the database cannot hold is refused before its id is looked up.
- Redaction.RedactCleans: lower-casing, segment splitting and regular expressions are arbitrary functions. Redaction builds a new value instead of overwriting dictionaries in place, so aliasing inside one value is not captured; dictionary entries are a list, so keys that collide after `str` stay apart. URL sanitizing is left out.
- RedactionPaths.NormalizeCuts: the truncation note does not carry the bound in its text, and a tabular summary no row and column counts.
- OtlpEvents.EventRoundTrip: JSON text is any pair of functions of which the second undoes the first on the sections of the event; timestamps travel as their canonical text, and an event name is taken as valid. Records that are not of the `observe.` encoding, and attributes a collector adds, are left out.
- SQL, locks, sessions, migrations, routes, settings, metrics, streaming, retention, SDK integrations and the other adapters.
