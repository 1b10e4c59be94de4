# Datadog Firehose Nozzle: a verified model

The nozzle reads loggregator envelopes from a Cloud Foundry firehose, turns them into metric packages and log
messages in parallel workers, aggregates them under a lock, and on every tick posts what it holds to one or more
Datadog endpoints. This project models that path and the Cloud Controller data it is enriched with, and proves what
the parts promise each other.

The whole project is checked with `dafny verify dfyconfig.toml`.

## How it is organised

| file | models |
|---|---|
| `Sequences.dfy`, `Text.dfy` | sums, permutations and iteration orders; Go strings, `sort.Strings`, `LastIndex` |
| `Envelopes.dfy`, `Metrics.dfy` | envelopes, metric keys and values, `MetricsMap.Add` |
| `Util.dfy`, `InfraParser.dfy` | canonical tag hashes, envelope classification, infrastructure metrics |
| `AppCache.dfy` | the application cache and application metrics |
| `SplitTree.dfy`, `MetricFormatter.dfy`, `LogFormatter.dfy` | recursive splitting of oversized batches |
| `Client.dfy`, `Accounting.dfy` | what a post reports as unsent; the sent and dropped counters over whole runs |
| `Reports.dfy` | what each client reads of those counters in the batches it is handed |
| `Delivery.dfy` | those counters against what the clients delivered |
| `Nozzle.dfy` | the nozzle's fields and the methods that update them; what a flush overwrites |
| `Worker.dfy` | what a worker makes of an envelope, alone and in every run |
| `Pipeline.dfy`, `PipelineRuns.dfy` | all goroutines as a state machine; what every run keeps |
| `PipelinePaths.dfy`, `PipelineLosses.dfy` | whole flushes and shutdown as paths of that machine; when shutdown loses points |
| `NozzleRefinement.dfy` | the nozzle's methods as steps and paths of that machine |
| `PageFetch.dfy` | the parallel v2 page fetch of the Cloud Controller client |
| `AppJoin.dfy`, `CloudFoundry.dfy` | what the v3 join means; the join itself, with structs that share label maps |
| `NoProxy.dfy` | no-proxy matching |

Code that updates variables step by step is modelled by methods and classes (`Nozzle.Nozzle`, `Metrics.MetricsMap`,
`AppCache.Cache`, `AppCache.App`, `CloudFoundry.LabelMap`, `CloudFoundry.CFApplication`, `AppJoin.CFClient`), each
tied to a function that gives its meaning; the lemmas are about those functions. A lemma whose name ends in `Exactly`
and that is about one of them says what it computes on the fields of its arguments alone. Go's `range` over a map is a
loop that picks any remaining key; where the order can show, the method returns it as a ghost sequence and
`Sequences.Enumerates` says that it visits each key once. A JSON and zlib encoder is any function from a batch to an
error or to bytes.

Concurrency is the transition system of `Pipeline`: `Step` names an atomic step of a worker, a reader, the org
collector or the main goroutine, `Enabled` and `Do` say when it can happen and what it does, and `After` is the state
after any finite run. A worker's dequeue, a send, a dequeue of a reader, a locked fold, a locked snapshot and reset,
the post to one client and the delivery of one stop token are separate steps. The v2 page workers have their own
transition system in `PageFetch`.

## Where the code does less than one would expect

Each of these is proved of the code as it is.

- A metric name that starts with `bosh.healthmonitor` clears the metric prefix for every key visited after it, so the
  payload of a mixed batch depends on Go's map order: `OrderIrrelevantExactly`, `MixedBatchExample`.
- A single item that is too big is dropped by the formatter and still counts as sent: `OversizedLogCountsAsSent`,
  `OversizedMetricCountsAsSent`; when the count is right: `LogCountExactly`, `MetricCountExactly`, and over whole runs
  `LogTotalDelivered`, `MetricTotalDelivered`.
- Encoded lengths are truncated to 32 bits before they are compared: `FitsUnlessTruncated`, `TruncatedLengthPasses`.
- With two or more clients `totalMetricsSent` counts too little: `MetricTotal`, `RepeatedTick`, `TwoClientsUndercount`.
- With application logs enabled and no log intake configured, shutdown plans one stop token too few, and a package may
  be dequeued after the last flush: `CleanShutdownExactly`, `MismatchCanLoseMetrics`, `MismatchLosesKey`.
- What is still queued when the nozzle stops is never sent: `SentDeliveredExactly`, `QueuedStays`.
- A client that fell back to the version 2 endpoints remembers version 3 and does not fall back again:
  `VersionNeverTwo`, `FallbackForgotten`.
- A rejected cache update has already overwritten every field but the tags: `RejectedUpdate`,
  `EntryConsistentExactly`.
- With `NumWorkers` at zero only the first v2 page is fetched: `AllPagesFetchedExactly`, `SameAsSequential`.
- An IPv6 host is not covered by a no-proxy entry that is just its address: `OwnAddressExactly`, `AddressNeedsPort`.
- A firehose metric under the key of one of the nozzle's own metrics is overwritten, exactly when the metric is told in
  that flush to the client or one before it: gauges always, counts once something of their kind was sent
  (`OverwrittenExactly`, `PointLostExactly`). Over runs: `GaugesAlwaysOverwrite`, `OwnKeyLoses`,
  `LossExactly`.

## Model

| member | source | states |
|---|---|---|
| `Metrics.MetricsMap.Add` | internal/metric/metric.go:63-71 | a known key keeps its tags, host and type and gains the new points at the end; an unknown key gets the new value |
| `Metrics.AddedExactly` | internal/metric/metric.go:63-71 | adding touches one key only; a known key keeps tags, host and type and gains the new points at the end, an unknown one gets the value |
| `Metrics.AggregationKeepsPoints` | internal/metric/metric.go:63-71 | after any list of adds the points of each key are those it had, followed by those of its packages in arrival order |
| `Metrics.AggregationKeys` | internal/metric/metric.go:63-71 | a key is in the map exactly when some package has it, with the tags, host and type of the first such package |
| `Metrics.FoldOrderIrrelevant` | internal/nozzle/workers.go:89-95 | folding the same packages in another order gives the same keys and, per key, the same bag of points |
| `Util.HashTags` | internal/util/util.go:15-25 | leaves its argument sorted in place and returns the digests of the sorted tags, concatenated |
| `Util.HashPieces` | internal/util/util.go:15-25 | the i-th 20 bytes of a hash are the digest of the i-th tag in byte order |
| `Util.FixedWidthConcatInjective` | internal/util/util.go:19-23 | the concatenation of fixed-width digests determines the list of digests |
| `Util.HashIsDigestSequence` | internal/util/util.go:15-25 | two tag lists hash alike exactly when the digests of their sorted tags agree one by one |
| `Util.HashTagsCanonical` | internal/util/util.go:15-25 | with a fixed-width digest that does not collide on these tags, two lists hash alike exactly when they are equal as bags |
| `Util.HashIgnoresOrder` | internal/util/util.go:15-25 | for any digest the hash ignores tag order, and hashing an already sorted list changes nothing |
| `Text.SortedUnique` | internal/util/util.go:18 | a bag of strings has only one sorted order |
| `Text.SortCanonical` | internal/util/util.go:18 | two lists sort to the same list exactly when they are permutations of each other; sorting twice is sorting once |
| `Text.LeqExactly` | internal/util/util.go:18 | the order of the sort is byte by byte: at the first difference the smaller byte, or the end, comes first |
| `Text.PrefixExactly` | internal/client/datadog/formatter.go:62 | a text has a prefix exactly when it is the prefix followed by some text |
| `Text.SuffixExactly` | internal/client/datadog/client.go:357-364 | a text has a suffix exactly when it is some text followed by the suffix |
| `Text.ContainsExactly` | internal/util/util.go:32 | a text contains another exactly when it is that one between two texts |
| `Util.FilterHighCardinalityTags` | internal/util/util.go:27-42 | keeps, in order, exactly the tags that contain neither `created_at` nor `user_data` |
| `Util.AllowedExactly` | internal/util/util.go:27-42 | a tag is kept exactly when it is nowhere `created_at` or `user_data` |
| `Util.IsContainerMetric` | internal/util/util.go:56-71 | true exactly for gauges in which all five container values are present and none has neither unit nor value |
| `Util.ContainerExactly` | internal/util/util.go:56-71 | a container metric is a gauge in which cpu, memory, disk, memory_quota and disk_quota are all usable |
| `Util.UsableExactly` | internal/util/util.go:60-68 | a value is usable when it is there and not nil, and has a unit or is not zero |
| `InfraParser.TagsFromMap` | internal/processor/parser/infra.go:149-152 | the non-empty tags of the envelope, each once, in some order of its keys |
| `InfraParser.ParseTags` | internal/processor/parser/infra.go:143-183 | the map's tags followed by the derived ones, which no map order influences; a shortened deployment or job is never repeated |
| `InfraParser.MapTagsExactly` | internal/processor/parser/infra.go:149-152 | a tag comes from the tag map exactly when it is some key and its non-empty value |
| `InfraParser.OwnTagsExactly` | internal/processor/parser/infra.go:153-161 | the name, instance, source, container and environment tags, each exactly when its field is not empty |
| `InfraParser.RenamedTagsExactly` | internal/processor/parser/infra.go:162-180 | the deployment tag with the environment, and the shortened deployment and job tags exactly when they differ from the originals |
| `InfraParser.TagSources` | internal/processor/parser/infra.go:143-183 | these and the custom tags are all the tags there are |
| `InfraParser.GetValues` | internal/processor/parser/infra.go:128-141 | all gauge values by name, or the counter's total under its name; defined when no gauge value is nil |
| `InfraParser.MakePackages` | internal/processor/parser/infra.go:70-91 | one package for each name of a value, in order: its own, the origin-prefixed one, the BOSH alias |
| `InfraParser.ParseMetrics` | internal/processor/parser/infra.go:38-95 | rejects exactly the envelopes that are neither counters nor non-container gauges; otherwise yields the packages of some pair of map orders, with sorted tags |
| `InfraParser.PackagesExactly` | internal/processor/parser/infra.go:60-92 | one value gives, in order, a package under its name, one under the origin, a dot and the name when there is an origin, and one under `bosh.healthmonitor` for the forwarder prefix; each with the single point in whole seconds and the index, else the origin, as host |
| `InfraParser.CounterPublished` | internal/processor/parser/infra.go:38-95 | exactly these packages, with the counter's total as the value, are what ParseMetrics makes of a counter |
| `InfraParser.GaugePublished` | internal/processor/parser/infra.go:38-95 | what ParseMetrics makes of a gauge is exactly these packages for each entry with the entry's own value, entry after entry |
| `InfraParser.SecondsExactly` | internal/processor/parser/infra.go:65 | the time of a point is the envelope's, in whole seconds rounded toward zero |
| `InfraParser.HostExactly` | internal/processor/parser/util.go:14-22 | the host is the index if it is not empty, else the origin |
| `InfraParser.PackAll` | internal/processor/parser/infra.go:60-92 | the packages of all values, value after value in some order of the value map |
| `InfraParser.PackedContents` | internal/processor/parser/infra.go:60-92 | a package is produced exactly when it carries some value of the envelope under one of that value's names |
| `InfraParser.TagBagIgnoresOrder` | internal/processor/parser/infra.go:149-152 | the bag of tags does not depend on the order in which the tag map is visited |
| `InfraParser.ParsedIgnoresOrder` | internal/processor/parser/infra.go:38-95 | for any two pairs of map orders the produced packages are the same bag: same keys, tags and points |
| `InfraParser.WorkersAgree` | internal/processor/parser/infra.go:38-95 | two workers that parse equal envelopes aggregate under the same keys, with the same bag of points per key |
| `SplitTree.EncodingBound` | internal/client/datadog/formatter.go:26-56 | a split of n items encodes at most 2n - 1 batches |
| `SplitTree.DepthBound` | internal/client/datadog/formatter.go:26-56 | any d with n <= 2^d bounds the depth of the split |
| `SplitTree.ItemsConserved` | internal/client/datadog/formatter.go:26-56 | the chunk counts and the missing items add up to the batch size, and each chunk counts at least one |
| `SplitTree.NothingMissing` | internal/client/datadog/formatter.go:26-56 | nothing is missing exactly when no encoding failed and no single item was dropped |
| `MetricFormatter.RemoveNANs` | internal/client/datadog/formatter.go:150-161 | keeps, in order, exactly the points that are not NaN |
| `Sequences.FilterConcat` | internal/client/datadog/formatter.go:150-161 | filtering keeps order: what is kept of two lists in a row is what is kept of each |
| `Sequences.FilterOne` | internal/client/datadog/formatter.go:150-161 | and a single item is kept exactly when it passes the test |
| `MetricFormatter.NotNaNExactly` | internal/client/datadog/formatter.go:153 | a point is kept exactly when its value is not NaN |
| `MetricFormatter.FormatSeries` | internal/client/datadog/formatter.go:58-99 | encodes one series per key in some order of the map; a series has the prefix exactly when no health monitor name came before it or is its own |
| `MetricFormatter.SeriesAt` | internal/client/datadog/formatter.go:60-86 | series i has the name of key i, with the prefix unless a health monitor name is among the first i, and that value's points without NaN, allowed tags, host, and type or else `gauge` |
| `MetricFormatter.HealthMonitorExactly` | internal/client/datadog/formatter.go:62 | which names those are |
| `MetricFormatter.SplitMetrics` | internal/client/datadog/formatter.go:170-182 | two disjoint parts that make up the batch, the first with half of it rounded down |
| `MetricFormatter.HalvesExactly` | internal/client/datadog/formatter.go:170-182 | two maps are what splitMetrics may return exactly when they share no key, make up the batch and the first has half of its keys rounded down |
| `MetricFormatter.FormatMetrics` | internal/client/datadog/formatter.go:26-56 | terminates for every encoder and every map order, and returns the output of a recursion tree that some map orders give |
| `MetricFormatter.SentWhole` | internal/client/datadog/formatter.go:38-55 | a batch that encodes within the limit in every map order is sent as one chunk that counts all its keys |
| `MetricFormatter.SingleExactly` | internal/client/datadog/formatter.go:38-55 | a single key that encodes is sent exactly when its length modulo 2^32 is within the limit; between the limit and 2^32 bytes it is dropped |
| `MetricFormatter.LimitDecides` | internal/client/datadog/formatter.go:38-51 | every batch that a run splits and every key that it drops encoded to more bytes than the limit |
| `MetricFormatter.FormatHalves` | internal/client/datadog/formatter.go:46-51 | such a tree splits its batch in halves and loses no key while splitting |
| `MetricFormatter.ChunksAreParts` | internal/client/datadog/formatter.go:38-55 | each chunk is the encoding of a part of the batch, passed the size test and carries that part's true size |
| `MetricFormatter.ChunksDisjoint` | internal/client/datadog/formatter.go:46-51 | no key is in two chunks |
| `MetricFormatter.LeavesAreLost` | internal/client/datadog/formatter.go:33-44 | what the run leaves without a chunk are parts it failed to encode and single keys it found too big |
| `MetricFormatter.KeysPlaced` | internal/client/datadog/formatter.go:26-56 | every key of the batch is in exactly one place of the run: a chunk, a part whose encoding failed, or a dropped single |
| `MetricFormatter.MetricsPartitioned` | internal/client/datadog/formatter.go:26-56 | for every encoder and every map order the chunks are disjoint parts with true counts, and a key has no chunk exactly when the run failed to encode its part or dropped it as too big alone |
| `MetricFormatter.CompleteExactly` | internal/client/datadog/formatter.go:26-56 | nothing is left out under any map order exactly when halving the batch while it is too big cannot reach a part that fails to encode or a single key that is too big |
| `MetricFormatter.SendableNeverLoses` | internal/client/datadog/formatter.go:26-56 | if no part of the batch fails to encode and no key is too big alone, nothing can be left out |
| `MetricFormatter.FitsUnlessTruncated` | internal/client/datadog/formatter.go:38 | a chunk that passed the size test is within the limit exactly when its length is below 2^32 |
| `MetricFormatter.TruncatedLengthPasses` | internal/client/datadog/formatter.go:38 | under every limit some payload longer than the limit passes the size test |
| `MetricFormatter.MetricsSplitCost` | internal/client/datadog/formatter.go:26-56 | FormatMetrics needs at most 2n - 1 encodings and a split depth of at most ceil(log2 n) |
| `MetricFormatter.KeptSeries` | internal/client/datadog/formatter.go:26-99 | in an unmixed batch, and in every part of it, each kept key yields the same series |
| `MetricFormatter.SplittingPreservesMeaning` | internal/client/datadog/formatter.go:26-99 | for an unmixed batch the series over all chunks are, as a bag, those of the unsplit batch restricted to the kept keys |
| `MetricFormatter.OrderIrrelevantExactly` | internal/client/datadog/formatter.go:60-68 | the bag of series is independent of map order exactly when the prefix is empty or the batch does not mix health monitor names with others |
| `MetricFormatter.MixedBatchExample` | internal/client/datadog/formatter.go:60-68 | with prefix `cf.`, the names `cpu` and `bosh.healthmonitor.cpu` give two different payloads |
| `LogFormatter.SplitLogs` | internal/client/datadog/formatter.go:163-168 | the earlier half followed by the later half is the batch; the later half is as long or one longer and comes first |
| `LogFormatter.FormatEntries` | internal/client/datadog/formatter.go:131-148 | encodes the entries unchanged and in order |
| `LogFormatter.SentWhole` | internal/client/datadog/formatter.go:113-128 | a batch that encodes within the limit is sent as one chunk that counts all its entries |
| `LogFormatter.SingleExactly` | internal/client/datadog/formatter.go:113-128 | a single entry that encodes is sent exactly when its length modulo 2^32 is within the limit; between the limit and 2^32 bytes it is dropped |
| `LogFormatter.LimitDecides` | internal/client/datadog/formatter.go:113-124 | every slice that a run splits and every entry that it drops encoded to more bytes than the limit |
| `LogFormatter.RunFormats` | internal/client/datadog/formatter.go:101-129 | FormatLogs on any slice produces the output of that slice's recursion tree, which halves |
| `LogFormatter.SpansOfRun` | internal/client/datadog/formatter.go:101-129 | the chunks encode contiguous slices, each wholly before the one emitted ahead of it |
| `LogFormatter.LeavesAreLost` | internal/client/datadog/formatter.go:107-117 | what the run leaves without a chunk are slices it failed to encode and single entries it found too big |
| `LogFormatter.EntriesPlaced` | internal/client/datadog/formatter.go:101-129 | every entry is in exactly one place of the run: a chunk, a slice whose encoding failed, or a dropped single |
| `LogFormatter.LogsPartitioned` | internal/client/datadog/formatter.go:101-129 | for every encoder the chunks are disjoint slices, later ones first, with true counts, and an entry has no chunk exactly when the run failed to encode its slice or dropped it as too big alone |
| `LogFormatter.SendableIsComplete` | internal/client/datadog/formatter.go:101-129 | if no slice of the batch fails to encode and no entry is too big alone, nothing is left out |
| `LogFormatter.LogsSplitCost` | internal/client/datadog/formatter.go:101-129 | FormatLogs needs at most 2n - 1 encodings and a split depth of at most ceil(log2 n) |
| `LogFormatter.LogOrderRestored` | internal/client/datadog/formatter.go:113-124 | the chunks concatenated in reverse output order are the original sequence minus exactly the entries in no chunk |
| `Client.PostEach` | internal/client/datadog/client.go:177-183 | reports as unsent the items of exactly the chunks whose post failed |
| `Client.PostSeries` | internal/client/datadog/client.go:238-249 | reports the items of the chunks whose post failed, and one for a chunk without bytes |
| `Client.OutcomesExactly` | internal/client/datadog/client.go:177-249 | the outcome for each chunk is the network's for its position |
| `Client.NothingFailed` | internal/client/datadog/client.go:172-252 | when every request goes through nothing is reported, save chunks without bytes |
| `Client.OneMoreFails` | internal/client/datadog/client.go:172-252 | one more failed request adds exactly the items of its own chunk to both reports |
| `Client.UnsentWithin` | internal/client/datadog/client.go:172-252 | neither report exceeds the sum of the chunk counts |
| `Client.DatadogClient.PostLogs` | internal/client/datadog/client.go:172-186 | reports the items of the failed chunks, never more than the batch size |
| `Client.DatadogClient.PostMetrics` | internal/client/datadog/client.go:235-252 | for some map orders, reports the items of exactly the chunks whose request failed, never more than the batch size |
| `Client.DatadogClient.MakeInternalMetric` | internal/client/datadog/client.go:301-325 | one point under the hash of the client's tags, with those tags sorted |
| `Client.DatadogClient.InternalExactly` | internal/client/datadog/client.go:301-325 | key and value from the deployment, the address, the custom tags and the arguments |
| `Client.DatadogClient.LogCountExactly` | internal/nozzle/nozzle.go:253-257 | whatever the network does, the logs counted as sent are those delivered exactly when splitting this batch fails to encode no slice and drops no entry; so they are when no slice fails and no entry is too big alone |
| `Client.DatadogClient.MetricCountExactly` | internal/nozzle/nozzle.go:307-309 | whatever the network does, the metrics counted as sent are those delivered under every map order exactly when halving the batch cannot lose a key; so they are when no part fails and no key is too big alone |
| `Client.DatadogClient.OversizedLogCountsAsSent` | internal/client/datadog/formatter.go:113-117 | a log that is too big alone yields no chunk, PostLogs reports nothing unsent, and the sent count is wrong |
| `Client.DatadogClient.OversizedMetricCountsAsSent` | internal/client/datadog/formatter.go:38-44 | a metric that is too big alone yields no chunk, and whatever PostMetrics may report is that nothing is unsent |
| `Accounting.Sub64Exactly` | internal/nozzle/nozzle.go:308 | the unsigned subtraction is the difference modulo 2^64 |
| `Accounting.MetricsLoopConserves` | internal/nozzle/nozzle.go:278-310 | over the client loop, reported plus pending equals what was pending plus what was posted |
| `Accounting.LogsLoop` | internal/nozzle/nozzle.go:253-257 | the log loop adds what all clients sent and dropped to what is pending and touches nothing else |
| `Accounting.ReportsConserved` | internal/nozzle/nozzle.go:244-314 | for any number of clients, outcomes and order of flushes, all reported values plus the pending ones equal all that was posted, for sent and dropped metrics and logs |
| `Accounting.TickTotals` | internal/nozzle/nozzle.go:206-213 | what one tick adds to both totals, and that a total of zero still means nothing is pending |
| `Accounting.LogTotalExact` | internal/nozzle/nozzle.go:244-261 | with at least one client totalLogsSent is exactly what all log posts sent, after every run of ticks |
| `Accounting.MetricTotal` | internal/nozzle/nozzle.go:264-314 | totalMetricsSent never exceeds what was sent, and equals it exactly when in each tick after the first successful one only the last client sent anything |
| `Accounting.MetricTotalSingleClient` | internal/nozzle/nozzle.go:264-314 | with one client totalMetricsSent is exact |
| `Accounting.RepeatedTick` | internal/nozzle/nozzle.go:289-312 | repeating a successful tick adds only the last client's share to totalMetricsSent |
| `Accounting.TwoClientsUndercount` | internal/nozzle/nozzle.go:289-312 | two clients, two ticks, eight items each: 32 sent, 24 counted |
| `Accounting.FinalFlushTotals` | internal/nozzle/nozzle.go:166-171 | the same totals after the flush at shutdown, with or without application logs |
| `Delivery.LogTotalDelivered` | internal/nozzle/nozzle.go:244-261 | over any run of ticks and whatever the networks do, totalLogsSent is at least what was delivered, and exactly that if and only if no posted batch had a slice that fails to encode or an entry dropped as too big |
| `Delivery.MetricRunExists` | internal/nozzle/nozzle.go:307-309 | some recursion tree explains what each post of metrics reported |
| `Delivery.MetricTotalDelivered` | internal/nozzle/nozzle.go:264-314 | the same of totalMetricsSent with one client, for any recursion trees that explain what the posts reported |
| `Delivery.MetricTotalSafe` | internal/nozzle/nozzle.go:264-314 | with one client, if halving no posted batch can reach a part that fails to encode or a single key too big, totalMetricsSent is what was delivered, whatever the network and the map orders |
| `Nozzle.Nozzle.constructor` | internal/nozzle/nozzle.go:61-78 | a new nozzle holds an empty map and buffer and zero counters |
| `Nozzle.Nozzle.FoldPackage` | internal/nozzle/workers.go:89-95 | counts one message and adds all metrics of the package in order |
| `Nozzle.Nozzle.FoldLog` | internal/nozzle/workers.go:107-111 | counts one message and appends the log |
| `Nozzle.Nozzle.TakeMetrics` | internal/nozzle/nozzle.go:265-274 | returns the whole map and message count and leaves a new, empty map |
| `Nozzle.Nozzle.AddInternals` | internal/nozzle/nozzle.go:279-305 | writes the gauges and, once a total is positive, the pending amounts into the batch, and clears exactly the amounts it wrote |
| `Nozzle.Nozzle.PostToClient` | internal/nozzle/nozzle.go:278-310 | the batch gains the nozzle's metrics, and the books lose what was reported and gain what this post sent and dropped |
| `Nozzle.Nozzle.PostToClients` | internal/nozzle/nozzle.go:278-310 | every client is handed its predecessors' batch plus its own report and counts what its own requests left unsent; no subtraction underflows |
| `Nozzle.Nozzle.PostMetrics` | internal/nozzle/nozzle.go:264-314 | flushes the whole map to every client, resets it, adds the pending count to the total and clears the alert |
| `Nozzle.Nozzle.PostLogs` | internal/nozzle/nozzle.go:244-261 | flushes the whole buffer to every client and counts what its requests left unsent, resets it, adds the pending count to the total and clears the alert; no subtraction underflows |
| `Nozzle.Nozzle.OnTick` | internal/nozzle/nozzle.go:206-213 | a tick is a metrics flush followed by a log flush, and its effect on the counters is the one whose totals are proved in Accounting |
| `Nozzle.Nozzle.HandleMessage` | internal/nozzle/workers.go:119-132 | raises the alert exactly on a positive `dropped` counter of the upstream's egress, and never lowers it |
| `Nozzle.Nozzle.StopWorkers` | internal/nozzle/workers.go:29-55 | sends tokens until the first one that nobody takes in time, and at most the planned number; it timed out exactly when fewer were taken |
| `Nozzle.Nozzle.FinalFlush` | internal/nozzle/nozzle.go:165-171 | the flush at shutdown: metrics, then logs only when application logs are enabled; the buffer is kept otherwise |
| `Nozzle.ToldExactly` | internal/nozzle/nozzle.go:279-302 | a client is told something under a key exactly when the key is that of a gauge, or of a count whose total is positive |
| `Nozzle.HandedExactly` | internal/nozzle/nozzle.go:267-307 | every key reaches a client as it was aggregated, or as the single value that the client, or the last one before it to be told anything there, was told |
| `Nozzle.OverwrittenExactly` | internal/nozzle/nozzle.go:267-307 | a key is overwritten exactly when this client or one before it has it, tags hash included, as the key of a gauge or of a count whose total is positive before the flush; otherwise it arrives exactly as aggregated |
| `Nozzle.PointLostExactly` | internal/nozzle/nozzle.go:267-307 | a firehose point of another time does not reach the client exactly under that condition |
| `Nozzle.FlushReports` | internal/nozzle/nozzle.go:279-302 | each client finds each reported value as the only point under that metric's key |
| `Reports.GaugesExactly` | internal/nozzle/nozzle.go:279-287 | each client finds `totalMessagesReceived`, `totalMetricsSent`, `totalLogsSent` and `slowConsumerAlert` as gauges with the values at the start of the flush, as the only point, with its own tags |
| `Reports.MetricCountsExactly` | internal/nozzle/nozzle.go:289-296 | once totalMetricsSent is positive, `metrics.sent` and `metrics.dropped` as counts with what is pending when its turn comes |
| `Reports.LogCountsExactly` | internal/nozzle/nozzle.go:298-305 | once totalLogsSent is positive, `logs.sent` and `logs.dropped` likewise |
| `Reports.ReadsConserved` | internal/nozzle/nozzle.go:244-314 | over any flushes, whatever the clients report, the values that the clients read under these four names in the batches they were handed plus what is pending equal what was pending at first plus what was posted: sizes less unsent, and unsent |
| `NozzleRefinement.TurnIsPipelineStep` | internal/nozzle/nozzle.go:278-310 | a client's turn of the loop is the PostMetrics step of the state machine, which hands over the same batch and records what was written over the snapshot |
| `NozzleRefinement.FlushTellable` | internal/nozzle/nozzle.go:279-302 | what the loop tells each client is what the state machine lets it be told: every gauge, and a count only after something of its kind was handed to the client |
| `NozzleRefinement.OverlayExactly` | internal/nozzle/nozzle.go:278-310 | the keys that the machine records as written over the snapshot are exactly those that the flush overwrites |
| `NozzleRefinement.TickIsPipelinePath` | internal/nozzle/nozzle.go:206-213 | a whole tick is a path of the machine from Running to Running that hands each client the batch the loop posted and the whole log buffer |
| `NozzleRefinement.FinalFlushIsPipelinePath` | internal/nozzle/nozzle.go:165-171 | the flush at shutdown is a path from the stopped workers to the end of the machine, with or without logs |
| `NozzleRefinement.NewNozzle` | internal/nozzle/nozzle.go:61-78 | a new nozzle shows the machine's initial state |
| `NozzleRefinement.FoldsPackage` | internal/nozzle/workers.go:89-95 | the reader's locked section takes the object from one state of the machine to the next, by FoldMetrics |
| `NozzleRefinement.FoldsLog` | internal/nozzle/workers.go:107-111 | the same of the log reader, by FoldLog |
| `NozzleRefinement.Ticks` | internal/nozzle/nozzle.go:206-213 | after OnTick the object shows a state that the machine can reach, with the same batches handed over |
| `NozzleRefinement.Finishes` | internal/nozzle/nozzle.go:165-171 | the same of the flush at shutdown, which ends the machine: the same metric batches, and the whole log buffer exactly when application logs are enabled |
| `NozzleRefinement.TickCouples` | internal/nozzle/nozzle.go:206-313 | after a tick too, a positive total means that every client had a flush, or was handed a log |
| `Pipeline.QueuesKept` | internal/nozzle/nozzle.go:67-73 | every step keeps the three channels FIFO and within their capacities |
| `Pipeline.PackagesKept` | internal/nozzle/workers.go:57-101 | every step keeps the bag of packages made equal to those sent, held by a worker or pending from the org collector |
| `Pipeline.LogsKept` | internal/processor/processor.go:113-202 | every step keeps the bag of log messages made equal to those sent or held by a worker |
| `Pipeline.EnvelopesAccounted` | internal/nozzle/workers.go:57-83 | envelopes taken are discarded, held or enqueued, and packages enqueued are queued or dequeued |
| `Worker.Work` | internal/nozzle/workers.go:57-83 | the filter, then the log branch, then infrastructure parsing, then app metrics; what it makes is what the state machine allows |
| `Worker.KeepMessage` | internal/nozzle/nozzle.go:316-319 | keeps everything without a filter, else exactly the envelopes whose deployment tag is the filter |
| `Worker.YieldsProper` | internal/processor/processor.go:87-111 | the state machine allows nothing but: a filtered envelope; a log message or an opt-out for a log when logs are enabled; the metrics of a counter with its total, or of every entry of a gauge with its value; app metrics or nothing for a container metric |
| `Worker.SomethingYields` | internal/nozzle/workers.go:57-83 | it always allows something, unless a gauge has a nil value |
| `Worker.TakenProper` | internal/nozzle/workers.go:57-83 | in every reachable state all this holds of every envelope taken |
| `Worker.NeverDiscarded` | internal/nozzle/workers.go:57-83 | in every run an envelope is filtered exactly by its deployment tag, no other counter or infrastructure gauge is discarded, and a log never becomes metrics while logs are enabled |
| `PipelineRuns.MapKept` | internal/nozzle/workers.go:85-101 | every step keeps the map equal to the fold of the packages since the last snapshot, and each snapshot that of its own period |
| `PipelineRuns.ReadersKept` | internal/nozzle/workers.go:85-117 | what was dequeued is what was folded plus what a reader holds, and totalMessagesReceived counts the folds |
| `PipelineRuns.MetricDeliveryKept` | internal/nozzle/nozzle.go:264-314 | every client has been handed every snapshot once, save the current one while its turn has not come, with an overlay written over it that covers all gauges' keys and only own keys, of it and the clients before it |
| `PipelineRuns.LogDeliveryKept` | internal/nozzle/nozzle.go:244-261 | the same for log batches |
| `PipelineRuns.StopKept` | internal/nozzle/workers.go:29-55 | tokens sent equal goroutines gone, none before shutdown and never more than planned |
| `PipelineRuns.FinalKept` | internal/nozzle/nozzle.go:154-171 | once all goroutines are gone nothing is folded after the final flush emptied the map and the buffer |
| `PipelineRuns.FlushesKeepPoints` | internal/nozzle/nozzle.go:264-274 | per key, the points of all snapshots, then of the map, then of the reader's package are those of all dequeued packages in dequeue order; logs likewise |
| `PipelineRuns.RunInv` | internal/nozzle/workers.go:9-117 | all of these invariants hold after every run, whatever the interleaving |
| `PipelineRuns.NothingLost` | internal/nozzle/workers.go:85-117 | in every reachable state no dequeued point or log is lost, duplicated or reordered |
| `PipelineRuns.CountsAddUp` | internal/nozzle/workers.go:57-117 | in every reachable state envelopes and packages add up, messages received equal messages folded, and no queue is over capacity |
| `PipelineRuns.NoActionAfterToken` | internal/nozzle/workers.go:78-80 | in every run a goroutine that took a stop token takes part in no later step, so it takes only one |
| `PipelineRuns.StopOutcome` | internal/nozzle/workers.go:29-55 | without a timeout nobody is left exactly when the log reader was planned for as it was started; a token planned for a log reader that never started cannot be taken |
| `PipelineRuns.CleanShutdownDeliversAll` | internal/nozzle/nozzle.go:154-171 | with matching log configuration and no timeout, every client has been handed every dequeued log exactly once and in order, and of the dequeued points under a key exactly those of the flushes that did not overwrite it, each other flush giving just what it wrote there |
| `PipelineRuns.OthersUntouched` | internal/nozzle/nozzle.go:264-314 | in every state of every run nothing was ever written over a key that is not an own key of the client or one before it; keys of log counts are own only with logs enabled and a worker |
| `PipelineRuns.GaugesAlwaysOverwrite` | internal/nozzle/nozzle.go:279-286 | in every state of every run a client has been handed, under the key of a gauge of it or a client before it, nothing but the nozzle's own points |
| `PipelineLosses.MismatchCanLoseMetrics` | internal/nozzle/workers.go:23-41 | with logs enabled and no intake, whatever the workers and clients, some run without a timeout dequeues a package after the last flush, and all that any client was handed are the nozzle's gauges |
| `PipelineLosses.CleanShutdownExactly` | internal/nozzle/workers.go:23-41 | with at least one client, every shutdown without a timeout delivers everything, as far as flushes do not overwrite it, exactly when logs are disabled or a log intake is configured |
| `PipelineLosses.OwnKeyLoses` | internal/nozzle/nozzle.go:267-307 | with matching log configuration, whatever the point and whichever own key, gauge or count, of the client or one before it: in some clean shutdown the point is dequeued under the key and never handed to the client |
| `PipelineLosses.MismatchLosesKey` | internal/nozzle/workers.go:23-41 | with logs enabled and no intake the same holds of every key |
| `PipelineLosses.LossExactly` | internal/nozzle/nozzle.go:154-171 | for every configuration, client, key and point: some clean shutdown dequeues the point and never hands it over exactly when the log configuration is a mismatch or, where clean shutdowns exist, the key is a gauge's or count's of the client or one before it |
| `PipelineLosses.KeyDeliveredExactly` | internal/nozzle/nozzle.go:264-314 | under the same condition, and so exactly when no point of the key can be lost, a client is handed on every clean shutdown exactly the points dequeued under the key, in order, with none of the nozzle's own |
| `PipelineLosses.SentDeliveredExactly` | internal/nozzle/nozzle.go:154-171 | after a clean shutdown with matching log configuration, what a client was handed followed by what is queued is what was enqueued: all logs, and all points of keys no flush overwrote, arrived exactly when none is queued |
| `PipelineLosses.QueuedStays` | internal/nozzle/workers.go:29-55 | any package can be enqueued and still be queued at the end of a clean shutdown, with nothing dequeued |
| `PipelinePaths.TickPath` | internal/nozzle/nozzle.go:206-213 | from any running state, whatever the clients are told, the machine can go through a whole tick |
| `PageFetch.CeilingCovers` | internal/client/cloudfoundry/client.go:507-511 | the ranges of all workers together cover all pages after the first |
| `PageFetch.EachPageOnce` | internal/client/cloudfoundry/client.go:507-518 | a page has a worker exactly when there is a worker at all and the page is between 2 and the page count, and then only one |
| `PageFetch.AllPagesFetchedExactly` | internal/client/cloudfoundry/client.go:507-513 | all pages get a worker exactly when at least one worker is configured or there is at most one page |
| `PageFetch.AppendedAll` | internal/client/cloudfoundry/client.go:513-532 | the ranges of finished workers, one after the other, are a walk over the pages in order |
| `PageFetch.RunBalance` | internal/client/cloudfoundry/client.go:523-532 | after every interleaving of locked appends the results are, as a bag, page 1 and what each worker has fetched, and no worker passed its range |
| `PageFetch.SameAsSequential` | internal/client/cloudfoundry/client.go:496-537 | for every interleaving, the finished fetch equals, as a bag, page 1 followed by a sequential walk over the pages that succeeded, or page 1 alone when no worker is configured |
| `PageFetch.FetchedExactly` | internal/client/cloudfoundry/client.go:496-537 | every application is in the finished result as often as on page 1 and on the other pages fetched without an error |
| `AppJoin.GroupPerApp` | internal/client/cloudfoundry/client.go:291-303 | each app GUID gets its processes in order, and only GUIDs with a process are present |
| `AppJoin.BelongsExactly` | internal/client/cloudfoundry/client.go:294-296 | a process belongs to the GUID that its reference is, or that follows its last slash |
| `AppJoin.GroupExactly` | internal/client/cloudfoundry/client.go:291-303 | the group of an app is, in order, the processes whose reference is its GUID or ends in a slash and its GUID |
| `AppJoin.InOneGroup` | internal/client/cloudfoundry/client.go:291-303 | whatever precedes the slash, such a process is in that group and in no other |
| `AppJoin.IndexSpaces` | internal/client/cloudfoundry/client.go:305-309 | a GUID finds its last space |
| `AppJoin.SpaceOfExactly` | internal/client/cloudfoundry/client.go:305-309 | there is a space for a GUID exactly when some space has it, and it is the last such one |
| `AppJoin.IndexOrgs` | internal/client/cloudfoundry/client.go:311-315 | a GUID finds its last organisation |
| `AppJoin.OrgOfExactly` | internal/client/cloudfoundry/client.go:311-315 | the same of organisations |
| `CloudFoundry.LabelMap.AddMissing` | internal/client/cloudfoundry/client.go:738-747 | in any iteration order, writes into this map the inherited entries whose keys it lacks and leaves the inherited map alone |
| `CloudFoundry.CFApplication.SetV3AppData` | internal/client/cloudfoundry/client.go:686-699 | copies the resource and shares its label maps; a nil one is replaced by a new, empty map |
| `CloudFoundry.CFApplication.SetV3ProcessData` | internal/client/cloudfoundry/client.go:701-731 | sets configured and provisioned sums over the processes, and changes nothing when there are none |
| `CloudFoundry.CFApplication.SetV3SpaceData` | internal/client/cloudfoundry/client.go:733-748 | takes the space's name and organisation and its labels and annotations where the app has none, writing only into the app's own two maps |
| `CloudFoundry.CFApplication.SetV3OrgData` | internal/client/cloudfoundry/client.go:750-764 | takes the organisation's name and its labels and annotations where neither app nor space has one, writing only into the app's own two maps |
| `CloudFoundry.GetV3Apps` | internal/client/cloudfoundry/client.go:373-386 | one app per resource, in order, each with maps of its own, its resource's or new; fails exactly when sidecars are wanted and some sidecar request fails |
| `AppJoin.SidecarsExactly` | internal/client/cloudfoundry/client.go:373-386 | sidecars are fetched with advanced tagging only, and none found leaves a nil slice |
| `AppJoin.FillingJoins` | internal/client/cloudfoundry/client.go:319-344 | filling in processes, then space, then organisation gives the join, each missing part leaving its fields unset |
| `CloudFoundry.JoinOne` | internal/client/cloudfoundry/client.go:319-344 | the join of one app with what the three indexes hold for it; the struct copy keeps the app's two maps and no other map is written |
| `CloudFoundry.JoinNext` | internal/client/cloudfoundry/client.go:319-346 | one turn of the loop: earlier results and later apps show what they showed before |
| `CloudFoundry.GetV3Applications` | internal/client/cloudfoundry/client.go:229-348 | succeeds exactly when all four fetches do, else returns one of their errors and writes nothing; otherwise one joined app per fetched app, in order and in that app's own maps, with every space's and organisation's map unchanged |
| `AppJoin.JoinedTotals` | internal/client/cloudfoundry/client.go:319-327 | a joined app's instances, disk and memory are the sums over the processes that refer to it, the provisioned ones of instances times size |
| `Sequences.SumOne` | internal/client/cloudfoundry/client.go:701-731 | the sum over one item is its amount; with `SumConcat`, a sum adds each item once |
| `AppJoin.JoinedFields` | internal/client/cloudfoundry/client.go:319-344 | its other fields are the app's, its space's name and organisation, and that organisation's name |
| `AppJoin.OverridePrecedence` | internal/client/cloudfoundry/client.go:328-342 | label by label and annotation by annotation: the app's value, else its space's, else its organisation's, else none |
| `AppJoin.LabelExactly` | internal/client/cloudfoundry/client.go:733-764 | each label is the app's, else its space's, else its organisation's, and there is no other |
| `AppJoin.AnnotationExactly` | internal/client/cloudfoundry/client.go:733-764 | the same of annotations |
| `AppJoin.SumByAppOrProcess` | internal/client/cloudfoundry/client.go:291-326 | summing over apps or over processes is the same, repeated GUIDs included |
| `AppJoin.OrphansAreTheRest` | internal/client/cloudfoundry/client.go:291-326 | with distinct GUIDs, processes of fetched apps and orphan processes make up all processes |
| `AppJoin.TotalsConserved` | internal/client/cloudfoundry/client.go:291-326 | instances, disk and memory summed over the joined apps are the sums over the processes, each as often as its app was returned |
| `AppJoin.TotalsPlusOrphans` | internal/client/cloudfoundry/client.go:291-326 | with distinct GUIDs, the totals of the apps plus those of orphan processes are the sums over all processes |
| `AppJoin.CFClient.GetApplications` | internal/client/cloudfoundry/client.go:195-217 | which fetch answers and which version is remembered, for every version and outcome |
| `AppJoin.VersionNeverTwo` | internal/client/cloudfoundry/client.go:206-216 | a new client remembers version 3 exactly from its first success on, and never version 2 |
| `AppJoin.FallbackForgotten` | internal/client/cloudfoundry/client.go:206-216 | against a server with only version 2 endpoints a call succeeds exactly when no call has succeeded before |
| `AppCache.IsMetadataKeyAllowed` | internal/processor/parser/util.go:44-64 | allowed exactly when the whitelist is empty or matches and the blacklist does not match |
| `AppCache.AppendMetadataTags` | internal/processor/parser/util.go:31-42 | each entry once, in some order: autodiscovery keys without their prefix, other keys when collection is on and they are allowed |
| `AppCache.MetadataExactly` | internal/processor/parser/util.go:31-42 | the tag of one label or annotation: nothing for an empty value; the rest of an autodiscovery key; any other key with the prefix when collection is on and it is allowed |
| `AppCache.CollectionExactly` | internal/processor/parser/util.go:31-42 | all tags of a collection are those of its keys |
| `AppCache.TagsOfBag` | internal/processor/parser/app.go:406-441 | map order changes the order of an app's tags, never the tags |
| `AppCache.AppKeysIgnoreMapOrder` | internal/processor/parser/app.go:364-372 | the key of an app metric does not depend on the map orders in which its tags were built |
| `AppCache.SixTags` | internal/processor/parser/app.go:406-413 | there are six identity tags exactly when none of the six values is empty |
| `AppCache.IdentityTagsExactly` | internal/processor/parser/app.go:406-412 | the six identity tags and the fields they carry |
| `AppCache.BuildpackTagsExactly` | internal/processor/parser/app.go:419-423 | one tag name for every non-empty buildpack |
| `AppCache.SidecarTagsExactly` | internal/processor/parser/app.go:426-431 | presence and number of the sidecars, when they were fetched and there are any |
| `AppCache.AppTagSources` | internal/processor/parser/app.go:406-441 | these and the annotations and labels, with their prefixes when these are on, are all the tags of an app |
| `AppCache.App.SetAppData` | internal/processor/parser/app.go:393-445 | copies all fields; accepts exactly when no identity value is empty, and only then replaces the tags |
| `AppCache.App.MkMetrics` | internal/processor/parser/app.go:356-391 | one metric per name with a sorted copy of tags, custom tags and source id; nothing is modified, the cached tags included |
| `AppCache.App.AllTagsExactly` | internal/processor/parser/app.go:358-367 | the tags are the cached ones, the given ones and, unless empty, the GUID as source; the host is the app's, else its GUID |
| `AppCache.AppMetricExactly` | internal/processor/parser/app.go:369-388 | one point under the hash of the tags, with the tags sorted and the host |
| `AppCache.Cache.Add` | internal/processor/parser/app.go:43-62 | a known app keeps its object and is updated in place, an unknown one is inserted exactly when accepted, and no other app changes |
| `AppCache.Cache.WarmupCache` | internal/processor/parser/app.go:169-204 | a failed fetch changes nothing; otherwise every app is added, rejected ones do not stop the rest, and the cache is warmed up for good |
| `AppCache.Cache.GetAppData` | internal/processor/parser/app.go:206-237 | a cached app is returned untouched; any other is fetched and added under its own GUID |
| `AppCache.CacheMeaning` | internal/processor/parser/app.go:43-62 | after any updates an app is cached exactly when one of its updates was accepted; its tags are those of the last accepted one, its fields those of the last one |
| `AppCache.CallsConcat` | internal/processor/parser/app.go:43-62 | any calls one after the other, warmups and lookups alike, leave in a new cache what all their updates in a row leave |
| `AppCache.EntryConsistentExactly` | internal/processor/parser/app.go:393-413 | the fields and the tags of a cached app are those of one accepted update exactly when its last update was accepted |
| `AppCache.NeverEvicted` | internal/processor/parser/app.go:43-62 | no later update evicts an app |
| `AppCache.RejectedUpdate` | internal/processor/parser/app.go:393-413 | a rejected update inserts nothing and leaves all tags and other apps alone, but overwrites the fields of the app if it is cached |
| `NoProxy.WithinDomainIsSuffix` | internal/client/datadog/client.go:357-364 | a host's last labels are those of a domain exactly when the host is the domain or ends in a dot and the domain |
| `NoProxy.CoversExactly` | internal/client/datadog/client.go:350-364 | the loop body's comparisons hold exactly when the host is within the entry's domain |
| `NoProxy.Matches` | internal/client/datadog/client.go:344-364 | one turn of the loop decides whether the entry covers the host, with every slice and index in range |
| `NoProxy.PortExactly` | internal/client/datadog/client.go:389-391 | an entry has a port exactly when it is some text, a colon and a text without colon or closing bracket, and then its rest is the first text |
| `NoProxy.CoversText` | internal/client/datadog/client.go:343-365 | with the port and then a leading dot taken off, an entry covers the host that it is and those that end in a dot and it |
| `NoProxy.ProxyFor` | internal/client/datadog/client.go:328-385 | no proxy for other schemes or when some entry covers the host; otherwise the scheme's proxy URL, or an error when it does not parse |
| `NoProxy.NamedHostBypasses` | internal/client/datadog/client.go:343-365 | a named host bypasses the proxy exactly when some entry, without port and leading dot, is a domain it is within |
| `NoProxy.SubdomainsBypass` | internal/client/datadog/client.go:357-364 | a subdomain of a bypassing host bypasses |
| `NoProxy.OwnEntryExactly` | internal/client/datadog/client.go:343-365 | for every host, when an entry that repeats it covers it: its text before a port, if it seems to have one, must be a domain it is in |
| `NoProxy.OwnAddressExactly` | internal/client/datadog/client.go:343-391 | a name or an IPv4 or IPv6 address is covered by itself as an entry exactly when it has no colon |
| `NoProxy.AddressNeedsPort` | internal/client/datadog/client.go:348-391 | an IPv6 host, one with an IPv4 part included, is covered neither by its address nor by its bracketed address, but by its bare address followed by a port |

## Left out

- HTTP, retries, TLS, UAA tokens, loggregator streaming and cluster agent calls: whether a request succeeds, and what a
  fetch returns, is a parameter (`Client.Network`, `PageFetch.Pages`, `AppJoin.SidecarFetch`).
- JSON, zlib, SHA-1 and regular expressions: abstract functions. Only the lemmas that need it assume a 20-byte digest
  without collisions on the tags at hand, and that compressed output is not empty.
- Floating point: a metric value is NaN, infinite or a real; rounding is not modelled, and neither is the rounding of
  the page ceiling, which is exact for realistic page counts.
- 64-bit wrap-around of the additive counters and of Go's `int` sums: these are unbounded here. The unsigned
  subtractions are modelled with their wrap-around and shown never to wrap.
- Time: a tick, a timeout and a timestamp are an enabled step or a parameter.
- The three v3 paging loops that follow `TotalPages`: they stop only when the server lets them.
- `setV2AppData` and the JSON types of the v2 API: field copies.
- Log source detection, log tags, BOSH tags and hostname generation: a log message is arbitrary, and whether an app
  opted out of logs is a choice of the step.
- `AppParser.Parse`, `getMetrics` and `parseContainerMetric`: they fix the names and values given to `mkMetrics`.
- The alert raised between the load and the reset of `slowConsumerAlert`: the methods of `Nozzle.Nozzle` model the reset,
  the state machine does not carry the alert.
- The counters in the state machine: it lets a client be told its counts of metrics in any flush after its first and its
  counts of logs in any flush once it was handed a log. `NozzleRefinement` shows that the code stays within that;
  `Nozzle.ToldExactly` says exactly when a count is told.
- Delivery.LogTotalDelivered: assumes that encoded bytes are never empty, as zlib output is not.
- Delivery.MetricTotalDelivered: the same assumption.
- Liveness: that a queued message or package is ever taken. What is still queued at shutdown is not flushed by the code.
- The unlocked counters and the alert are read and written by the main goroutine in whole flushes; the state machine
  splits a flush into one step per client, and `NozzleRefinement` connects the two.
- Unsynchronised access to `App` fields and slices sharing capacity between workers: cache operations and tag building
  are atomic steps, and slices other than the arrays in `Util.HashTags` and `AppCache.App` are values.
- The constant origin metadata of a series, log output, configuration parsing and version strings.
- CloudFoundry.GetV3Applications: two apps, or an app and a space, that share one label map are excluded; in the source
  each map is decoded for one of them.
- Client.DatadogClient.LogCountExactly: assumes that encoded bytes are never empty, as zlib output is not.
- Client.DatadogClient.MetricCountExactly: the same assumption.
