# Fleet server: a model and its proofs

A fleet server keeps one record per OpenTelemetry Collector. Agents report over OpAMP connections;
operators push configurations over the same connections; a sweeper marks silent agents; a limiter
throttles bad credentials; a scraper keeps short metric histories; the user interface diffs pushed
configurations, generates new ones and derives problem lists. This project models that behaviour and
proves what it promises.

`dafny verify dfyconfig.toml` checks everything. Times are nanoseconds since the Unix epoch; clocks,
socket and store outcomes, map iteration orders and the configuration hash are parameters.

| file | models |
|---|---|
| `Diff.dfy` | the line diff of the push history: table, walk, optimality, normal form, replay |
| `Limiter.dfy` | the failed-attempt limiter and its runs |
| `Agents.dfy`, `RecordMeaning.dfy`, `Compression.dfy`, `LostWrites.dfy` | agent records, reports, the fold of a history, what a record says, status compression, failed writes |
| `Registry.dfy`, `Store.dfy`, `Handler.dfy` | connection registry, in-memory store, OpAMP callbacks, push, sweeper |
| `Protocol.dfy`, `ProtocolSafety.dfy`, `FleetTheorems.dfy`, `FleetRecords.dfy`, `Sequential.dfy` | the concurrent protocol as a state machine, its invariants, its guarantees, and the callbacks as its steps in a row |
| `Sqlite.dfy`, `SqliteServer.dfy` | the SQLite store and its simulation of the in-memory one; two servers, one over each store |
| `MetricsHistory.dfy`, `MetricsStore.dfy` | metric histories as values; the store with shared slices; the scraper |
| `ConfigBuilder.dfy`, `ConfigReader.dfy`, `ConfigRoundTrip.dfy`, `ConfigDefinitions.dfy` | the configuration generator, a reader of its text, the round trip of ids and service, that of the definitions |
| `FleetViews.dfy`, `ViewMeaning.dfy` | namespace summaries, problem lists and their two views; both in terms of filters over the agents |

In the state machine of `Protocol.dfy` a message takes up to three steps (set the connection, set the
port if there is a description, store), a push four (lookup, record, store, send), a sweep one step for
the listing, one for the clock and one per agent. Steps of different operations interleave freely and any
store write may fail. The store is either the one in memory, which a restart empties, or the SQLite one
(`durable`), which keeps every time as whole seconds, refuses capability masks of 64 bits and outlives a
restart; a restart may come between any two steps. `Trail` holds history variables. The server's clock
starts after the epoch's first second, which the SQLite store cannot tell from no time at all.

## Where the code says less than its comments

- `internal/opampserver/push.go:26-28` says a push is marked succeeded or failed on acknowledgement; nothing
  calls the store operation that would do so. The model has no such step.
- `internal/ratelimit/failurelimiter.go:12-14` speaks of a sliding window; the window is fixed, opened by
  the first failure. The bound proved is the one that follows: `2 * (max + k) - 3`, not `max`.
- `internal/metrics/types.go:38` says the success ratio lies in 0..1; `RatioInUnitIff` gives the exact
  condition and `RatioCanExceedOne` a scrape that leaves the interval.
- `internal/opampserver/sweeper.go:32-58` lists first and writes later. A message stored in between can be
  overruled: `LiveAgentCanLookDisconnected` is a run that does it, `RacingVisitIsWrongIff` says exactly when.
  Such a race can even leave the SQLite server behind the in-memory one (`RaceCanLeaveSqliteBehind`).
- Status compression can lose an error message (`LastErrorCanDiffer`), and when an effective config has
  several files it can change their order (`SectionOrderCanDiffer`), because the server joins them in the
  iteration order of a map. `CompressionIsLosslessIff` says for which histories neither happens; everything
  else always survives.
- `internal/opampserver/handler.go:188-191` says the next message retries a failed store write. It does if it
  carries the same blocks (`ResendingMakesUp`); an agent that compresses leaves them out, and then the record
  never catches up (`CompressionKeepsLoss`). `LostWriteIsMadeUpForIff` is the exact condition.
- `internal/opampserver/registry.go:57-59` expects the connection to be set before the port. The two updates
  take the lock separately, so another connection can come and go in between and leave an entry without a
  connection (`TornMessageStrandsEntry`). `RegistryIsLive` says exactly which entries those are,
  `NothingIsSentUnrecorded` exactly which pushes are sent without a connection, and
  `StrandedPushHasNoConnection` is a run that sends one.

## Model

| member | source | states |
|---|---|---|
| Diff.FillTable | ui/src/diff.ts:13-18 | every table entry is the longest-common-subsequence value of its two suffixes |
| Diff.DiffLines | ui/src/diff.ts:8-44 | the table-driven loops return the walk's script for the two texts' lines, which `DiffCharacterised` pins down |
| Diff.DiffCharacterised | ui/src/diff.ts:8-44 | a script is the diff if and only if it turns old into new lines, none is cheaper, and among the cheapest it comes first in the order same, del, add |
| Diff.DiffIsOptimal | ui/src/diff.ts:13-42 | no script that turns the old lines into the new keeps more lines or has fewer added and deleted ones |
| Diff.LcsBounds | ui/src/diff.ts:13-18 | a table entry bounds the kept lines of every script between its suffixes, so matching equal heads greedily is safe |
| Diff.WalkDeletesFirst | ui/src/diff.ts:22-42 | an added line is never immediately followed by a deleted one |
| Diff.PatchIsTurns | ui/src/diff.ts:19-43 | executing a script on the old lines yields the new ones exactly for the scripts whose two sides read so |
| Diff.ReplaysBothWays | ui/src/diff.ts:8-44 | the diff patches the old lines into the new, and with add and del exchanged the new into the old |
| Diff.HistoryRebuilds | ui/src/components/AgentDetail.tsx:230-237 | folding the displayed diffs from the empty text rebuilds every version of a push history |
| Text.JoinOfSplit | ui/src/diff.ts:9-10 | splitting a text at newlines loses nothing: joining gives it back |
| Limiter.FailureLimiter.Allow | internal/ratelimit/failurelimiter.go:40-54 | an attempt passes when the key has no bucket, an expired one, or one below the threshold |
| Limiter.FailureLimiter.RecordFailure | internal/ratelimit/failurelimiter.go:57-69 | the failure is counted in the live bucket or opens a new window; other keys are untouched |
| Limiter.FailureLimiter.RecordSuccess | internal/ratelimit/failurelimiter.go:74-78 | exactly the key's bucket is gone |
| Limiter.FailureLimiter.EvictStale | internal/ratelimit/failurelimiter.go:99-108 | exactly the buckets idle for more than ten windows are gone, whatever the iteration order |
| Limiter.EvictionInvisible | internal/ratelimit/failurelimiter.go:99-108 | over any run every check answers as if the key had been alone with a limiter that never evicts |
| Limiter.FreeAfterWindow | internal/ratelimit/failurelimiter.go:48-52 | once every failure of a key is more than a window ago, its next attempt passes |
| Limiter.RefusedIff | internal/ratelimit/failurelimiter.go:40-69 | over any run a check is refused if and only if at most a window has passed since the failure that opened the key's latest window and at least max failures were recorded from it on |
| Limiter.CleanupKeepsIff | internal/ratelimit/failurelimiter.go:99-108 | a cleanup keeps a key if and only if its latest failure is at most ten windows ago |
| Limiter.LiveBucketBound | internal/ratelimit/failurelimiter.go:40-69 | a live bucket's count plus the requests in flight stays below max + k |
| Limiter.FailureBound | internal/ratelimit/failurelimiter.go:40-78 | a stretch of one window without a success holds at most 2 (max + k) - 3 failures of a key with at most k requests overlapping |
| Limiter.FailureBoundIsReached | internal/ratelimit/failurelimiter.go:40-78 | for every threshold, overlap and window some run attains that bound |
| Agents.FlattenAttributes | internal/opampserver/attrs.go:55-69 | an identifying attribute wins with its last value, a non-identifying one counts with its first and only otherwise |
| Agents.JoinConfigMap | internal/opampserver/handler.go:286-301 | a single unnamed body passes verbatim; else every section appears, in order, one newline between neighbours |
| RecordMeaning.FlattenedSays | internal/opampserver/attrs.go:55-69 | an attribute has a value if and only if that is its last identifying pair, or its first other pair without an identifying one |
| RecordMeaning.JoinedIsShown | internal/opampserver/handler.go:286-301 | every file's name and body reach the shown text, in order, a single unnamed body as it is |
| RecordMeaning.IdentityIsReported | internal/opampserver/handler.go:210-221 | service name, namespace, version, node and pod are what the latest description naming them gives their own keys; the Kubernetes namespace counts before the generic one |
| RecordMeaning.BlocksAreReported | internal/opampserver/handler.go:204-267 | attributes, health, start time, last error, effective config, capabilities and last contact are what the latest report that carries them says |
| Agents.LatestPushIsRemembered | internal/opampserver/push.go:53-57 | after any history the record's hash, pusher and push time are those of the latest push |
| Agents.SyncIsDetermined | internal/opampserver/handler.go:248-267 | each of the five sync states is characterised by the history; Synced if and only if the latest decision is an APPLIED report with the latest push's digest |
| Compression.CompressionPreservesRecord | internal/opampserver/handler.go:201-239 | leaving out any blocks equal to the last sent (a status only with no push stored since; config files in whatever order) gives the same final record apart from the last error and the order of the config's sections |
| Compression.LastErrorSurvivesIff | internal/opampserver/handler.go:223-267 | the last error survives every compression of a history if and only if, since the last health or failure block that was news, no repeated one carried another error than the record then held |
| Compression.CompressionIsLosslessIff | internal/opampserver/handler.go:201-301 | every compression of a history gives the same record if and only if the history is steady in that sense and repeated configs read as the record did |
| Compression.CompressionPreservesLastError | internal/opampserver/handler.go:201-267 | without failure messages the last error is always preserved, and with single-file configs the whole record |
| Compression.SectionOrderCanDiffer | internal/opampserver/handler.go:293-299 | a repeated two-file config whose omission changes the recorded text |
| Compression.LastErrorCanDiffer | internal/opampserver/handler.go:223-267 | a history and allowed omissions after which the last errors differ |
| LostWrites.LostWriteIsMadeUpForIff | internal/opampserver/handler.go:185-193 | a failed write of a report leaves no trace if and only if every field the report would have changed is overwritten by what is stored later |
| LostWrites.ResendingMakesUp | internal/opampserver/handler.go:188-191 | sending every block of the lost report again, in any later reports, makes up for it |
| LostWrites.CompressionKeepsLoss | internal/opampserver/handler.go:188-191 | an agent that compresses may leave the lost block out for ever, and after any number of further reports the record is still wrong |
| Registry.ConnRegistry.Set | internal/opampserver/registry.go:46-55 | the connection and its peer replace the entry, the learned port survives |
| Registry.ConnRegistry.SetMetricsPort | internal/opampserver/registry.go:60-66 | only the port changes; an absent agent gets an entry without a connection |
| Registry.ConnRegistry.Get | internal/opampserver/registry.go:80-85 | the entry's connection, and whether there is an entry |
| Registry.ConnRegistry.RemoveByConn | internal/opampserver/registry.go:93-102 | one entry that holds the connection is gone, if any, and nothing else changed |
| Registry.ConnRegistry.Snapshot | internal/opampserver/registry.go:107-118 | every entry with a port and an address appears exactly once with its own address and port, and no other |
| Registry.PortReadsBack | internal/opampserver/attrs.go:36-45 | a port in decimal notation is read as itself, one beyond 16 bits as none |
| Registry.CloseIsCompleteIff | internal/opampserver/registry.go:93-102 | after a close no entry holds the connection if and only if it served at most one agent |
| Registry.LateCloseIsHarmless | internal/opampserver/registry.go:87-102 | a close leaves every entry of another connection as it was |
| Registry.TornUpdateStrandsEntry | internal/opampserver/handler.go:178-183 | from any registry: when another connection of the agent registers and closes between a message's two registry updates, an entry without a connection remains |
| Store.MemoryStore.UpsertAgent | internal/store/memory.go:22-31 | read, mutate and write as one step on the stored or a fresh record under this uid |
| Store.MemoryStore.GetAgent | internal/store/memory.go:33-38 | the record, or that there is none |
| Store.MemoryStore.ListAgents | internal/store/memory.go:40-48 | every record exactly once, in an arbitrary order |
| Store.MemoryStore.DeleteAgent | internal/store/memory.go:50-56 | the record and its push history are gone, nothing else |
| Store.MemoryStore.AppendConfigPush | internal/store/memory.go:58-63 | the push is the last of its own agent's history |
| Store.MemoryStore.UpdateConfigPushResult | internal/store/memory.go:65-77 | the first push with this id in this agent's history gets the outcome; an unknown id changes nothing |
| Store.MemoryStore.ListConfigPushes | internal/store/memory.go:79-86 | the agent's pushes, oldest first |
| Handler.Handler.OnConnecting | internal/opampserver/handler.go:103-128 | a throttled peer is refused unseen; any other leaves exactly its outcome in the limiter |
| Handler.Handler.OnMessage | internal/opampserver/handler.go:171-199 | a malformed uid changes nothing; else the registry hears it and, if the store works, the record is the fold of the message |
| Handler.Handler.OnConnectionClose | internal/opampserver/handler.go:150-157 | the connection's entry leaves the registry, the store is untouched |
| Handler.Handler.PushConfig | internal/opampserver/push.go:29-78 | which of history, record and socket a push reaches, for every point of failure, and what the caller is told; a failed send still returns the push |
| Handler.SweepAgent | internal/opampserver/sweeper.go:41-56 | one agent gets the state its age calls for, and no write when it already has it |
| Handler.SweepOnce | internal/opampserver/sweeper.go:32-58 | undisturbed, a sweep classifies every agent whose write works by its age and changes nothing else |
| ProtocolSafety.InvStep | internal/opampserver/push.go:29-78 | every step of every operation, and a restart, over either store, keeps the protocol's invariant |
| FleetTheorems.RecordsAreSerial | internal/store/store.go:86-89 | in every reachable state a record is the one-by-one fold of what was stored for it, as its store keeps times and the connection state aside: no update is lost |
| FleetRecords.RecordShowsReports | internal/opampserver/handler.go:201-267 | in every reachable state each field of a record is what the latest stored report carrying it says, and empty, false or zero without one |
| FleetTheorems.SyncTellsTheTruth | internal/opampserver/handler.go:248-267 | in every reachable state the sync state is the one its stored history determines |
| FleetTheorems.HashIsOfRecordedPush | internal/opampserver/push.go:50-60 | a non-empty hash belongs to a push recorded for that same agent, from which pusher and time come as well |
| FleetTheorems.SyncedMeansHistoryApplied | internal/opampserver/handler.go:243-260 | a synced agent reported the hash of a configuration in its own history and no push was stored between |
| FleetTheorems.NothingIsSentUnrecorded | internal/opampserver/push.go:30-77 | every send carries the configuration that its own lookup's caller gave, on record and stored before; it goes to the connection that lookup found, one of its agent, and there is none if and only if a torn update had stranded the agent's entry at that lookup |
| FleetTheorems.StrandedPushHasNoConnection | internal/opampserver/push.go:30-76 | a run in which a push is recorded, stored and sent without a connection |
| FleetTheorems.SentStaysRecorded | internal/opampserver/push.go:50-77 | what was sent stays in its agent's push history and log |
| FleetTheorems.HistoryOnlyGrows | internal/store/memory.go:58-63 | histories, logs and deliveries of an earlier state are prefixes of those of a later one, unless a restart loses the in-memory store between |
| FleetTheorems.RegistryIsLive | internal/opampserver/registry.go:10-66 | every entry has the port last advertised since it was made; it lacks a connection if and only if a torn update made it and nothing replaced it since, and any other holds an open connection of its own agent and that connection's peer |
| FleetTheorems.ScrapeTargetsAreLive | internal/opampserver/registry.go:104-118 | in every reachable state the scrape targets are exactly the agents whose own open connection has a readable peer and that last advertised a port |
| FleetRecords.PortIsReported | internal/opampserver/handler.go:179-183 | a message advertises the number in its own attribute, and none without one |
| FleetTheorems.TornMessageStrandsEntry | internal/opampserver/handler.go:178-183 | a run in which another connection comes and goes between a message's two registry updates, and an entry without a connection remains |
| FleetTheorems.CloseIsPrecise | internal/opampserver/registry.go:87-102 | a close ends its own entry and no entry a newer connection has taken over |
| FleetTheorems.SweeperOnlyClassifies | internal/opampserver/sweeper.go:32-58 | amid concurrent messages and pushes the sweeper writes nothing but connection states |
| FleetTheorems.SweepClassifies | internal/opampserver/sweeper.go:32-58 | a sweep classifies every agent that it found, that stayed silent and whose write worked, by its age at a time during the sweep; one silent for long enough is disconnected |
| FleetTheorems.SilentAgentsOnlyAge | internal/opampserver/sweeper.go:39-56 | after one such sweep a silent agent only moves from connected to stale to disconnected, whatever else runs |
| FleetTheorems.RacingVisitIsWrongIff | internal/opampserver/sweeper.go:33-54 | when a visit overrules a message stored after the listing: it writes a state the message's age does not call for, or writes none though the message has aged; well within a stale period of the listing, exactly when it writes an aged state |
| FleetTheorems.LiveAgentCanLookDisconnected | internal/opampserver/sweeper.go:33-54 | a run that ends with an agent disconnected in the store at the moment of its message |
| Sequential.MessageInOneGo | internal/opampserver/handler.go:171-199 | the steps of a message, with nothing between them, have the effect that the callback's contract states |
| Sequential.MessageCallback | internal/opampserver/handler.go:171-199 | so the message callback ends where the protocol's steps do |
| Sequential.PushInOneGo | internal/opampserver/push.go:29-78 | the same for the steps of a push, wherever the store fails |
| Sequential.PushCall | internal/opampserver/push.go:29-78 | so a push ends where the protocol's steps do, with the same delivery |
| Sequential.SweepInOneGo | internal/opampserver/sweeper.go:32-58 | the steps of a sweep, with nothing between them, classify every agent whose write works and change nothing else |
| Sequential.SweeperTick | internal/opampserver/sweeper.go:32-58 | so a tick of the sweeper ends where the protocol's steps do |
| Sqlite.FlooredIsStartOfSecond | internal/store/sqlite.go:149-187 | a stored time comes back as the start of its second, and as the zero time exactly for the zero time and the epoch's second |
| Sqlite.ZeroTimeIsYearOne | internal/store/sqlite.go:149-154 | the zero time is the start of year 1 |
| Sqlite.RowRoundTrip | internal/store/sqlite.go:123-180 | encoding and decoding a record only floors its three times |
| Sqlite.PushRoundTrip | internal/store/sqlite.go:239-279 | encoding and decoding a push only floors its time |
| Sqlite.SqliteStore.UpsertAgent | internal/store/sqlite.go:81-109 | on commit the row is the encoded mutation of the decoded row; without a commit, or with a mask too wide for a column, nothing changes |
| Sqlite.SqliteStore.GetAgent | internal/store/sqlite.go:196-206 | the decoded row, or that there is none |
| Sqlite.SqliteStore.DeleteAgent | internal/store/sqlite.go:229-237 | on commit the row and all push rows of the agent are gone, nothing else; without a commit nothing changes |
| Sqlite.SqliteStore.AppendConfigPush | internal/store/sqlite.go:239-248 | the push is inserted unless its id is taken or the write fails, which are errors that change nothing |
| Sqlite.SqliteStore.UpdateConfigPushResult | internal/store/sqlite.go:250-257 | the row with this id and agent gets the outcome; a failed update changes nothing |
| Sqlite.ServerMutatorsAreBlind | internal/store/sqlite.go:81-97 | the message, push and sweep mutators cannot tell a record from its stored form |
| Sqlite.StoresSimulate | internal/store/store.go:76-102 | after any calls with blind mutators, masks that fit a column and fresh push ids both stores hold the same records and pushes, times floored |
| Sqlite.ListingsAgreeIff | internal/store/sqlite.go:259-280 | the time-ordered listing is bound to agree with the memory store's if and only if each push falls into a later second than the one before |
| Sqlite.SweepOverRows | internal/opampserver/sweeper.go:39-48 | over rows an age is never too small, and less than a second too large exactly outside the epoch's second |
| Sqlite.SqliteSweepIsTimely | internal/opampserver/sweeper.go:39-48 | a classification over SQLite never lags behind one over memory and, outside the epoch's second, is less than a second ahead |
| SqliteServer.SqliteServerIsTimely | internal/opampserver/sweeper.go:32-58 | two servers with the same reports, pushes, listings and visits, interleaved in any way, hold the same agents with the same content, times floored; unless an agent's latest report raced with a sweep, its connection states differ only where SQLite is ahead, by less than a second |
| SqliteServer.RaceCanLeaveSqliteBehind | internal/opampserver/sweeper.go:33-54 | a race after which the agent is stale in memory and connected in SQLite |
| SqliteServer.ReportReachesBothIff | internal/store/sqlite.go:149-180 | right after a report both servers hold its content if and only if its capability mask fits a signed column |
| MetricsHistory.CapKeepsLatest | internal/metrics/types.go:41-47 | after any run every series is the last at most 60 points appended since the last prune |
| MetricsHistory.SeriesKeepLatest60 | internal/metrics/types.go:41-47 | the same for the stored series: their length is the smaller of 60 and the number of points appended |
| MetricsHistory.PointsMeanIncreases | internal/metrics/scraper.go:145-190 | what a scrape appends: a rate times the seconds since the scrape before is the counter's increase, nothing after a decrease; the ratio times the points exported is the points sent; the gauge as sampled |
| MetricsHistory.OnlyLaterScrapesRecord | internal/metrics/scraper.go:139-162 | over any run a scrape is compared with the agent's latest one before it, recorded or not, and adds points exactly when it is later |
| MetricsHistory.RatesAddUp | internal/metrics/scraper.go:159-190 | for an agent whose counters never went down, the rates times the seconds between its scrapes add up to the last counter less the first |
| MetricsHistory.HistoriesStayAligned | internal/metrics/scraper.go:145-177 | the rate series share their times, the memory series' times or all but its first; times strictly increase, rates are not negative |
| MetricsHistory.RatioInUnitIff | internal/metrics/scraper.go:165-168 | the ratio lies in [0, 1] exactly when nothing was exported on balance or neither counter went down |
| MetricsHistory.RatioCanExceedOne | internal/metrics/scraper.go:165-168 | a restart can push the ratio above 1 while sent points grow |
| MetricsHistory.RatiosAreRatios | internal/metrics/scraper.go:165-177 | over a run without counter decreases every stored ratio lies in [0, 1] |
| MetricsStore.GrownKeepsHandout | internal/metrics/types.go:41-47 | an append never alters a slice handed out earlier, though it shares the backing array |
| MetricsStore.GrownStaysSound | internal/metrics/types.go:41-47 | appends keep series in arrays of their own and handed-out slices intact |
| MetricsStore.Store.AppendCapped | internal/metrics/types.go:41-47 | readers of the store see one more point in one series and no other change; everything handed out stays as it was |
| MetricsStore.Store.RecordFirst | internal/metrics/scraper.go:150-158 | the first scrape records the memory gauge alone |
| MetricsStore.Store.RecordRates | internal/metrics/scraper.go:170-176 | a later scrape records one point in every series at one time |
| MetricsStore.Store.Get | internal/metrics/store.go:18-23 | the reader shares the stored slices, which are valid and from now on protected |
| MetricsStore.Store.Prune | internal/metrics/store.go:36-44 | exactly the agents that are not live are gone |
| MetricsStore.Scraper.ScrapeOne | internal/metrics/scraper.go:145-178 | a scrape advances counters and histories as the value model does, and a scrape at no later time only the counters |
| MetricsStore.Scraper.ScrapeAll | internal/metrics/scraper.go:101-111 | a round is its successful scrapes in order and then a prune to its targets |
| ConfigBuilder.RenderBlock | ui/src/yamlBuilder.ts:18-33 | the definitions of the ids in order, catalog entries indented without empty lines, unknown ids as empty entries |
| ConfigBuilder.AddAllMeaning | ui/src/yamlBuilder.ts:59-71 | adding ids to a set keeps one of each |
| ConfigBuilder.CollectIds | ui/src/yamlBuilder.ts:59-71 | the union over the enabled signals in the order of first use |
| ConfigBuilder.BuildConfigYaml | ui/src/yamlBuilder.ts:43-102 | the text starts with a comment sign exactly when the selection is rejected, names the first incomplete signal, and is otherwise the document of its blocks |
| ConfigRoundTrip.TopLevelIsHeadings | ui/src/yamlBuilder.ts:73-86 | the lines in column 0 are the headings of the groups in use and the service heading |
| ConfigRoundTrip.BlocksDefineUnion | ui/src/yamlBuilder.ts:59-84 | read from the text, each block defines its group's selected ids once each |
| ConfigRoundTrip.ServiceReadsBack | ui/src/yamlBuilder.ts:86-101 | reading the service section back recovers the extensions and each signal's receivers, processors and exporters followed by connectors |
| ConfigRoundTrip.ConfigIsClosedAndExact | ui/src/yamlBuilder.ts:43-102 | the text defines each id once and exactly the ids its pipelines and extensions list refer to |
| ConfigDefinitions.DefinitionsReadBack | ui/src/yamlBuilder.ts:18-33 | under each selected id the text has the non-empty lines of its catalog entry, in order, indented by two; an unknown id has an empty mapping |
| ConfigDefinitions.SectionsAreAsSelected | ui/src/yamlBuilder.ts:54-84 | every section defines exactly what some enabled signal selects from its own list, with the settings of its own part of the catalog |
| ConfigDefinitions.DefinedInOrder | ui/src/yamlBuilder.ts:59-71 | a section's ids stand in the order of their first use among the enabled signals |
| ConfigDefinitions.SectionsInOrder | ui/src/yamlBuilder.ts:73-86 | the sections stand in their fixed order, optional ones only when something is selected for them |
| ConfigDefinitions.PipelinesAreAsSelected | ui/src/yamlBuilder.ts:90-100 | each enabled signal has one pipeline under its own name with its own lists |
| ConfigDefinitions.RejectedIff | ui/src/yamlBuilder.ts:48-57 | a selection is rejected if and only if no signal is on or one that is on lacks a receiver or an exporter |
| ConfigDefinitions.FirstIsNamed | ui/src/yamlBuilder.ts:52-57 | the complaint names the first such signal: logs before metrics before traces |
| FleetViews.GroupBy | ui/src/problems.ts:80-89 | keys in the order of first appearance, each with its members in order |
| ViewMeaning.NamesInOrder | ui/src/problems.ts:80-89 | groups come in the order in which their first member stands in the list |
| ViewMeaning.MembersAreFilter | ui/src/problems.ts:80-89 | a group's members are the agents shown under its namespace, in the list's order |
| FleetViews.GroupsConserve | ui/src/problems.ts:80-89 | counts over the groups add up to the count over all agents, for every filter |
| FleetViews.SummarizeNamespaces | internal/api/dto.go:101-133 | one row per namespace in the order of first appearance, each the tally of its members |
| FleetViews.SummaryMeaning | internal/api/dto.go:115-126 | each counter of a row is the number of members its filter lets through |
| FleetViews.RowsPartitionFleet | internal/api/dto.go:101-133 | the rows' totals add up to the number of agents, and every other counter to its count over the fleet |
| FleetViews.RowStatesExhaustTotalIff | internal/api/dto.go:116-123 | the three states never exceed the total and exhaust it exactly when every state is known |
| ViewMeaning.RowsAreAsSeen | internal/api/dto.go:101-133 | one row for every namespace an agent is shown under, and every counter is the length of its filter over the agent list |
| FleetViews.DeriveProblems | ui/src/problems.ts:32-78 | the sorted problem list of the agents |
| FleetViews.ProblemsAreExact | ui/src/problems.ts:36-72 | the list is sorted and holds exactly one problem for each namespace and trouble that somebody there has |
| FleetViews.SortIsStable | ui/src/problems.ts:74-77 | sorted by severity and then descending count, ties in their old order, nothing added or lost |
| FleetViews.ProblemIdsAreUnique | ui/src/problems.ts:39-71 | no two problems share an id |
| FleetViews.ProblemsConserveAgents | ui/src/components/overview/KpiStrip.tsx:5-9 | the problem counts of a kind add up to the fleet-wide counter |
| FleetViews.SummaryMatchesProblems | internal/api/dto.go:121-123 | a row's disconnected counter is the count of the namespace's disconnected problem, and zero exactly without one |
| ViewMeaning.ProblemsAreAsSeen | ui/src/problems.ts:36-71 | a namespace's unhealthy, drift or disconnected problem is listed if and only if one of its agents passes that filter, with its severity and the number of those agents |
| ViewMeaning.ListIsInOrder | ui/src/problems.ts:74-77 | nothing else is listed; critical problems come first, larger counts before smaller |
| ViewMeaning.ProblemsMatchKpis | ui/src/components/overview/KpiStrip.tsx:5-9 | the problem counts of each kind add up to the overview's own filter over the whole fleet |
| FleetViews.OverviewShowsTheWorst | ui/src/components/overview/NeedsAttention.tsx:24-27 | the overview lists the beginning of the alerts page's list, and nothing it leaves out is more urgent than what it shows |
| ViewMeaning.OverviewShowsThree | ui/src/components/overview/NeedsAttention.tsx:6-26 | the overview shows the first three of the list, or all of a shorter one |
| FleetViews.AcknowledgingHidesOne | ui/src/components/Alerts.tsx:25-35 | acknowledging a listed problem hides exactly that one and keeps the order of the rest |

## Left out

- HTTP, TLS, routing, JSON and YAML decoding, shutdown and logging: plumbing over libraries that are not part of this model.
- SHA-256, UUIDs, protobuf and the SQL engine: the hash is a parameter, uids are keys, tables are maps; JSON in the attributes column is taken to round-trip.
- Parsing of Prometheus text and floating-point rounding: samples are inputs and values are real numbers.
- Formatting of non-string attribute values (`internal/opampserver/attrs.go:71-95`): attribute values arrive as strings.
- The step `Hear` in `Protocol.dfy` fixes one agent per connection and no message after its close, which is how the connection library calls back; `Registry.CloseIsCompleteIff` says what the first buys. A connection may close while its last message is still being stored, which the library may rule out.
- Sending over the missing connection of a stranded entry, where the program dereferences a nil interface: the step `Send` records a delivery without a connection.
- A capability mask from 2^63 on is refused by the default parameter conversion of `database/sql`, which is not part of this model; `Sqlite.Storable` stands for it.
- SqliteServer.SqliteServerIsTimely: store writes that fail in one of the two servers and not in the other, apart from masks that are too wide.
- DeleteAgent has no caller in the server, so the protocol has no such step; both stores model the operation.
- UpdateConfigPushResult has no caller either; it appears in the store simulation only.
- Diff.DiffLines: text is a sequence of characters, an absent text is the empty one.
- Limiter.FailureLimiter.RecordFailure: a bucket is a value in the map rather than an object behind a pointer; no code shares the pointer.
- MetricsStore.Store.AppendCapped: backing arrays are numbered cells of an explicit memory, so that sharing between snapshots is a property of values; how far Go grows a full array is a parameter.
- Sqlite: listing agents and reading a listing's rows one by one add nothing to `GetAgent`; a listing is specified by what orders SQL may return.
- Titles and details of problems: presentation.
- Durations beyond 292 years, where Go saturates.
