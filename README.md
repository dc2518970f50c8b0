# rgw-exporter collection core, modelled in Dafny

rgw-exporter is a Prometheus exporter for a Ceph RADOS Gateway (RGW). Each
scrape starts one collection pass. The pass:

1. connects to one of the configured gateway endpoints (rotating start
   offset, failover to the next endpoint);
2. lists the users;
3. announces each user with a presence metric and gives it a zero summary
   entry;
4. starts one worker per user, each with its own connection on a
   round-robin offset, to list that user's buckets;
5. drains the batches the workers return;
6. emits per-bucket size, object-count and shard-count metrics for buckets
   at or above the configured thresholds;
7. emits two summary metrics per entry of the summary map (every
   enumerated user, and every other owner a listing returned): the bucket
   count and the total bytes.

Before any of this, the endpoint list is filtered at startup to URLs whose
scheme is `http` or `https`.

The model has five modules:

- `Wrappers` (`wrappers.dfy`): `Option`.
- `Hosts` (`hosts.dfy`): `ValidateHosts`. It is a loop that keeps the
  candidates whose scheme is accepted, specified by the selection function
  `KeepValid`.
- `Failover` (`failover.dfy`): `getRGWConnection`.
  - `Targets` is the target list exactly as the code builds it.
  - `Connect` is the outcome of trying those targets in order.
  - `GetRGWConnection` is the attempt loop, proved against them.
  - `RotatedTargets` is the corrected rotation (see "## Findings").
- `Aggregation` (`aggregation.dfy`): the summary map, threshold gating of
  one bucket (`EmitBucket`), and the drain of the workers' batches
  (`Aggregate`, a method over the batches, proved against the reference
  fold `DrainAll`). It also emits the summary pairs in Go's random map
  order (`EmitSummaries`).
- `Collector` (`collector.dfy`): the `hostIdx` worker loop
  (`LaunchWorkers`) and a whole pass (`Collect`). Its outcome is one of:
  - completed;
  - fatal first connection;
  - fatal user listing;
  - fatal worker connection;
  - nil-shard-count panic.

External effects are parameters of the model:

- Connecting to endpoint `h` on connection call `c` is the oracle
  `dial(c, h)`. Call 0 is the pass's first connection and call `k + 1` is
  worker `k`'s, so an endpoint may be reachable for one call and not for
  another.
- The user listing is an `Option<seq<string>>`.
- A worker's bucket listing is `fetch(uid)`. `None` stands for a failed
  request, which contributes an empty batch.
- URL parsing is `parse(url)`, giving the scheme or `None`.
- The goroutines and the channel become an input sequence `drained`: the
  batches in the order the channel delivered them. `Collect` requires it to
  be a permutation of the workers' batches.

Two behaviours of the code shape the model.

- The doc comment of `getRGWConnection` (rgw-exporter/collector/collector.go:186-188)
  says that after a failed connection it continues to the next host until
  all hosts are exhausted. For an offset `k > 0` the code builds the target
  list `hosts[k:]` followed by `hosts[0:k-1]` (collector.go:198-199), which
  leaves out `hosts[k-1]`. `Collect` uses the list as the code builds it.
  A rotation that does exhaust all hosts, starting at `k`, is modelled and
  proved beside it (see "## Findings").
- When a bucket's size or object-count metric is sent, the code then
  dereferences the bucket's shard count to send the shard metric
  (collector.go:156-161). A bucket without a shard count makes that a nil
  dereference, which ends the process. The model records it as the outcome
  `NilShardPanic`. That bucket's size and object metrics were already sent,
  and its owner's summary entry is not updated.

## Model

| member | source | states |
|---|---|---|
| Hosts.ValidateHosts | rgw-exporter/utils/hosts.go:15-32 | The returned hosts are exactly the candidates whose URL parses with scheme `http` or `https`, in input order. The error is returned exactly when no host survives, and it is then "no valid endpoints provided". |
| Hosts.KeepValidIsOrderedSelection | rgw-exporter/utils/hosts.go:19-26 | The kept hosts are an order-preserving subsequence of the candidates, at strictly increasing indices. A candidate index is selected iff its URL has an accepted scheme. |
| Hosts.KeepValidMembers | rgw-exporter/utils/hosts.go:19-26 | A host is kept iff it is a candidate with an accepted scheme. A candidate whose parse fails is never kept. The result is no longer than the input. |
| Failover.Targets | rgw-exporter/collector/collector.go:195-200 | Offset 0 tries the hosts as given. Offset k > 0 tries `n - 1` hosts, element i being host `TargetIndex(n, k, i)`. |
| Failover.TargetsSkipPreviousHost | rgw-exporter/collector/collector.go:195-200 | For offset k > 0, no target is host k-1 and every other host is a target. With distinct hosts, `hosts[k-1]` is not in the list. |
| Failover.LeadingFailures | rgw-exporter/collector/collector.go:202-210 | The number of failed attempts before the loop stops is at most the number of targets. Every target before it refused. If it stops early, the target it stops at accepted. |
| Failover.ConnectOutcome | rgw-exporter/collector/collector.go:202-214 | A connection is returned iff some target accepts, and it is to the first accepting target, after that many failures. An error is returned iff the targets are non-empty and all refuse, and it is the last target's error. Failures equal the number of targets tried in vain. |
| Failover.GetRGWConnection | rgw-exporter/collector/collector.go:189-215 | The connection and error are those of trying the targets in order. The hosts attempted are the targets up to and including the first accepting one, or all of them. The "all hosts tried" error is logged iff the failures equal the number of hosts. |
| Failover.BuildTargets | rgw-exporter/collector/collector.go:193-200 | The list built by appending the slices is the target list `Targets(hosts, offset)`. |
| Failover.TryTargets | rgw-exporter/collector/collector.go:202-210 | The attempt loop yields the connection, the error and the failure count of trying the targets in order. The hosts it tries are the targets up to and including the first that accepts, or all of them. |
| Failover.LeadingFailuresAt | rgw-exporter/collector/collector.go:202-210 | When the targets before position i all refuse and target i (if any) accepts, the loop counts exactly i failures. |
| Failover.AllFailedOnlyAtOffsetZero | rgw-exporter/collector/collector.go:211-213 | The "all hosts have been tried" message is logged iff the offset is 0 and every host refuses. At any other offset it is never logged, even when every target fails. |
| Failover.SecondHostScenario | rgw-exporter/collector/collector.go:195-209 | Endpoints [A, B] with A unreachable, offset 0: connected to B after exactly one failed attempt. |
| Failover.RotatedTargets | rgw-exporter/collector/collector.go:186-188 | The corrected rotation lists every host exactly once (same multiset, same length), starting with host `offset mod n`, element i being host `(offset mod n + i) mod n`. |
| Failover.RotatedConnectComplete | rgw-exporter/collector/collector.go:186-188 | Over the corrected rotation of a non-empty host list, the connection returns an error iff every host refuses. |
| Failover.SkippedHostCounterexample | rgw-exporter/collector/collector.go:198-199 | Hosts [a, b, c], offset 1, only `a` reachable: the code's targets are [b, c] and the connection fails, while the corrected rotation connects to `a`. |
| Aggregation.InitSummary | rgw-exporter/collector/collector.go:92-98 | The summary map has exactly the enumerated users as keys, each at (0, 0). One presence metric `ceph_rgw_user` with value 1 is produced per user, in enumeration order. |
| Aggregation.BucketGating | rgw-exporter/collector/collector.go:127-163 | The following hold for one bucket. A size metric is sent iff the size is present and at least the size threshold. An object metric is sent iff the object count is present and at least its threshold. A shard metric is sent iff one of those two was sent; a flagged bucket with no shard count panics instead. Each kind is sent at most once, in the order size, objects, shards, each labelled (owner, bucket) and carrying the reported value. |
| Aggregation.DrainClosedForm | rgw-exporter/collector/collector.go:126-167 | A drain with no panic ends unaborted and sends the per-bucket metrics bucket after bucket. Its map keys are the initial keys plus every owner seen. Every user's entry gains the number of records it owns and the sum of their present sizes, whatever the thresholds. |
| Aggregation.DrainFault | rgw-exporter/collector/collector.go:156-163 | A drain aborts iff some record is flagged without a shard count. It aborts at the first such record, after the metrics of the records before it and that record's size and object metrics. |
| Aggregation.DrainStaysAborted | rgw-exporter/collector/collector.go:156-163 | After the abort, later records change nothing. |
| Aggregation.EmptyBatchIgnored | rgw-exporter/collector/collector.go:122-125 | An empty batch, wherever it sits in the queue, changes neither the records drained nor the drain's result. |
| Aggregation.DrainIgnoresArrivalOrder | rgw-exporter/collector/collector.go:119-169 | When no record panics, two arrival orders of the same batches give the same summary map, and no record panics in the other order either. |
| Aggregation.AggregateBucket | rgw-exporter/collector/collector.go:126-167 | One bucket record: the gated metrics are appended. The owner's entry (zero if absent) gains one bucket and the present size, or the bucket aborts on a nil shard count with the map unchanged. This equals one step of the reference drain. |
| Aggregation.AggregateBatch | rgw-exporter/collector/collector.go:126-167 | The loop over one batch, continuing a drain that has not aborted, leaves the map, the metrics sent and the abort equal to the reference drain extended by that batch. After the first record whose nil shard count aborts, nothing further changes. |
| Aggregation.Aggregate | rgw-exporter/collector/collector.go:119-169 | The drain loop over the queue leaves the map, the metrics sent and the abort equal to the reference drain over the concatenated batches. |
| Aggregation.EmitSummaries | rgw-exporter/collector/collector.go:170-182 | The output is two metrics per map entry. Pair i is the `ceph_rgw_user_total_bucket_count` and then the `ceph_rgw_user_total_usage_bytes` metric of one entry, with that entry's count and bytes. Every entry is reported in exactly one pair. The visiting order is some order that lists each key once. |
| Aggregation.SummaryMetricsAt | rgw-exporter/collector/collector.go:170-182 | The summary output has two metrics per visited key. Position 2i is `ceph_rgw_user_total_bucket_count` with that key's count, and 2i+1 is `ceph_rgw_user_total_usage_bytes` with its bytes. |
| Aggregation.SumCountsIsRecordCount | rgw-exporter/collector/collector.go:165-166 | Summed over the map's keys, the bucket counts grow by exactly the number of records drained. |
| Aggregation.SmallBucketScenario | rgw-exporter/collector/collector.go:132-144 | A 500-byte bucket under a 1000-byte threshold sends no size metric, yet its owner's total is 500 bytes in one bucket. |
| Aggregation.TwoUsersScenario | rgw-exporter/collector/collector.go:92-95 | user1 owning buckets of 10, 20 and 30 bytes and user2 owning none end at (3, 60) and (0, 0). |
| Collector.CollectBucketStats | rgw-exporter/collector/collector.go:228-237 | A worker's batch is its uid's bucket listing when the request succeeds, and empty when it fails. |
| Collector.LaunchWorkers | rgw-exporter/collector/collector.go:100-112 | Worker k connects at offset k mod n, which is below n. Every launched worker obtained a connection, and the batches are the listings of the first users in order. The loop stops at the first worker that cannot connect, and only there. |
| Collector.Collect | rgw-exporter/collector/collector.go:80-184 | A failed first connection or user listing ends the pass with nothing sent. A worker that cannot connect ends it after the presence metrics. A nil shard count ends it after the presence and bucket metrics. Otherwise it sends presence, bucket metrics and summaries of the reference drain over the batches in arrival order. |
| Collector.CompletedPassReport | rgw-exporter/collector/collector.go:92-182 | In a completed pass the presence metrics come first, one per user in order, and every enumerated user gets a summary pair. The pair carries the number and total size of the records the workers returned for that uid, whatever their arrival order. The counts add up to the number of records. |

## Left out

- Networking: `rgw.New`, `GetUsers` and `ListUsersBucketsWithStat` are oracles (`dial`, the user listing, `fetch`). The access and secret keys they take are not modelled.
- The oracles are fixed per call; a gateway whose answer changes during one listing is not modelled.
- Concurrency: the goroutines, the WaitGroup and the buffered channel are replaced by the input `drained`, any permutation of the workers' batches. Interleavings of the drain with the workers are not modelled, since the drain starts only after `wg.Wait()`.
- `log.Fatal` calls become `Outcome` values; logging itself, and the timing of the worker phase, are left out.
- The Prometheus descriptors, `Describe`, `NewRGWCollector` and the metric channel are left out. The channel is a sequence of `Metric` values in send order.
- Metric values become `nat`: `float64` conversion, and `uint64` widths and wrap-around in sizes and counts, are not modelled.
- Hosts.ValidScheme: `url.Parse` is an oracle giving the scheme; Go's scheme lowercasing and its parse rules are not modelled.
- `main`, the configuration loading and its defaults, and the `TextToBytes` threshold parsing (utils/convert.go) are not part of this model. `main` exits when `ValidateHosts` fails, so `Collect` requires a non-empty endpoint list.
- Failover.GetRGWConnection: an offset larger than the host list panics in Go's slicing. The model requires `offset <= |hosts|`, which the worker loop always meets (offsets below n).
- The returned connection is the endpoint it was opened to; the client object's other state is not modelled.

## Findings

| source | as written | input that shows it | evidently intended | confidence | as-written member | corrected member |
|---|---|---|---|---|---|---|
| rgw-exporter/collector/collector.go:198-199 | For offset k > 0 the targets are `hosts[k:]` followed by `hosts[0:k-1]`, so `hosts[k-1]` is never tried | hosts [a, b, c], offset 1, only a reachable: targets [b, c] both refuse and the connection fails, though a is up | `hosts[k:]` followed by `hosts[0:k]`: every endpoint tried once, starting at `k mod n` | not executed | Failover.SkippedHostCounterexample | Failover.RotatedConnectComplete |
