/**
 * One collection pass (Collect): connect, enumerate users, zero the summary
 * map and announce each user, start one worker per user on a round-robin
 * endpoint offset, drain the workers' batches, emit the summaries.
 *
 * Goroutines, the wait group and the channel are replaced by a sequence:
 * `drained` is the order in which the channel delivered the workers'
 * batches, which is any order of the batches the workers produced.
 */
module Collector {
  import opened Wrappers
  import opened Failover
  import opened Aggregation

  /** The fields of the configuration the collector reads. */
  datatype Config = Config(endpoints: seq<string>, thresholdSize: nat, thresholdObjects: nat)

  /** How a pass ends: normally, or in one of the ways that end the process. */
  datatype Outcome =
    | Completed
    | ConnectFatal
    | UserListFatal
    | WorkerConnectFatal(worker: nat)
    | NilShardPanic(bucket: Bucket)

  function ThresholdsOf(config: Config): Thresholds
  {
    Thresholds(config.thresholdSize, config.thresholdObjects)
  }

  /**
   * The connect oracle as seen by one call of getRGWConnection: call 0 is the
   * pass's first connection, call k + 1 the connection of worker k, so that
   * an endpoint's reachability may change from one call to the next.
   */
  function CallDial(dial: (nat, string) -> DialResult, call: nat): string -> DialResult
  {
    h => dial(call, h)
  }

  /** The pass's first connection (offset 0) succeeds. */
  predicate FirstConnects(config: Config, dial: (nat, string) -> DialResult)
  {
    Connect(Targets(config.endpoints, 0), CallDial(dial, 0)).err.None?
  }

  /** Worker k, starting at offset k mod |endpoints|, obtains a connection. */
  predicate WorkerConnects(endpoints: seq<string>, dial: (nat, string) -> DialResult, k: nat)
    requires |endpoints| > 0
  {
    Connect(Targets(endpoints, k % |endpoints|), CallDial(dial, k + 1)).err.None?
  }

  /**
   * collectBucketStats: the worker's one listing request, through the oracle
   * `fetch`; a failed request is logged and contributes an empty batch.
   */
  function CollectBucketStats(fetch: string -> Option<seq<Bucket>>, uid: string): (r: seq<Bucket>)
    ensures fetch(uid).Some? ==> r == fetch(uid).value
    ensures fetch(uid).None? ==> r == []
  {
    match fetch(uid)
    case None => []
    case Some(buckets) => buckets
  }

  /** The batches produced by the workers of `users`, in launch order. */
  function Launched(users: seq<string>, fetch: string -> Option<seq<Bucket>>): seq<seq<Bucket>>
  {
    seq(|users|, k requires 0 <= k < |users| => CollectBucketStats(fetch, users[k]))
  }

  lemma {:induction false} MulAtLeast(d: nat, n: nat)
    requires d >= 1
    ensures d * n >= n
  {
    if d > 1 {
      MulAtLeast(d - 1, n);
      assert d * n == (d - 1) * n + n;
    }
  }

  /** The remainder of a == q * n + r with 0 <= r < n is r. */
  lemma ModUnique(a: int, n: int, q: int, r: int)
    requires n > 0 && 0 <= r < n && a == q * n + r
    ensures a % n == r
  {
    var q', r' := a / n, a % n;
    assert a == q' * n + r';
    var d := q - q';
    assert d * n == q * n - q' * n;
    assert d * n == r' - r;
    if d > 0 {
      MulAtLeast(d, n);
    } else if d < 0 {
      MulAtLeast(-d, n);
    }
  }

  lemma LaunchedSnoc(users: seq<string>, k: nat, fetch: string -> Option<seq<Bucket>>)
    requires k < |users|
    ensures Launched(users[..k + 1], fetch) == Launched(users[..k], fetch) + [CollectBucketStats(fetch, users[k])]
  {
    assert users[..k + 1][..k] == users[..k];
  }

  /** hostIdx after one step: incremented, and back to 0 once it passes the last endpoint. */
  lemma {:induction false} NextHostIdx(k: nat, n: nat)
    requires n > 0
    ensures (if k % n + 1 > n - 1 then 0 else k % n + 1) == (k + 1) % n
  {
    var q := k / n;
    assert k == q * n + k % n;
    if k % n + 1 == n {
      assert k + 1 == (q + 1) * n + 0;
      ModUnique(k + 1, n, q + 1, 0);
    } else {
      ModUnique(k + 1, n, q, k % n + 1);
    }
  }

  /**
   * The worker loop of Collect: worker k connects with offset hostIdx, which
   * starts at 0 and wraps at |endpoints|, so it is k mod |endpoints|; a
   * worker that cannot connect ends the pass before later workers start.
   * `offsets` lists the offset each worker was given.
   */
  method LaunchWorkers(endpoints: seq<string>, users: seq<string>,
                       dial: (nat, string) -> DialResult, fetch: string -> Option<seq<Bucket>>)
    returns (offsets: seq<nat>, queue: seq<seq<Bucket>>, failed: Option<nat>)
    requires |endpoints| > 0
    ensures |queue| <= |users|
    ensures |offsets| == if failed.Some? then |queue| + 1 else |queue|
    ensures forall k :: 0 <= k < |offsets| ==> offsets[k] == k % |endpoints| < |endpoints|
    ensures forall k :: 0 <= k < |queue| ==> WorkerConnects(endpoints, dial, k)
    ensures queue == Launched(users[..|queue|], fetch)
    ensures failed.None? <==> |queue| == |users|
    ensures failed.Some? ==> failed.value == |queue| && !WorkerConnects(endpoints, dial, failed.value)
  {
    offsets, queue, failed := [], [], None;
    var hostIdx := 0;
    var k := 0;
    while k < |users|
      invariant 0 <= k <= |users|
      invariant hostIdx == k % |endpoints|
      invariant |queue| == |offsets| == k
      invariant forall i :: 0 <= i < k ==> offsets[i] == i % |endpoints| < |endpoints|
      invariant forall i :: 0 <= i < k ==> WorkerConnects(endpoints, dial, i)
      invariant queue == Launched(users[..k], fetch)
    {
      var uid := users[k];
      OffsetsStep(offsets, k, |endpoints|);
      offsets := offsets + [hostIdx];
      var conn, err, attempted, logged := GetRGWConnection(endpoints, hostIdx, CallDial(dial, k + 1));
      if err.Some? {
        failed := Some(k);
        return;
      }
      QueueStep(endpoints, users, dial, fetch, queue, k);
      queue := queue + [CollectBucketStats(fetch, uid)];
      NextHostIdx(k, |endpoints|);
      hostIdx := hostIdx + 1;
      if hostIdx > |endpoints| - 1 {
        hostIdx := 0;
      }
      k := k + 1;
    }
    assert users[..k] == users;
  }

  /** One more offset, k mod n, for worker k. */
  lemma OffsetsStep(offsets: seq<nat>, k: nat, n: nat)
    requires n > 0 && |offsets| == k
    requires forall i :: 0 <= i < k ==> offsets[i] == i % n < n
    ensures forall i :: 0 <= i < k + 1 ==> (offsets + [k % n])[i] == i % n < n
  {
  }

  /** Worker k connected: its batch extends the queue, and workers 0..k all connected. */
  lemma QueueStep(endpoints: seq<string>, users: seq<string>, dial: (nat, string) -> DialResult,
                  fetch: string -> Option<seq<Bucket>>, queue: seq<seq<Bucket>>, k: nat)
    requires |endpoints| > 0 && k < |users|
    requires forall i :: 0 <= i < k ==> WorkerConnects(endpoints, dial, i)
    requires Connect(Targets(endpoints, k % |endpoints|), CallDial(dial, k + 1)).err.None?
    requires queue == Launched(users[..k], fetch)
    ensures forall i :: 0 <= i < k + 1 ==> WorkerConnects(endpoints, dial, i)
    ensures queue + [CollectBucketStats(fetch, users[k])] == Launched(users[..k + 1], fetch)
  {
    LaunchedSnoc(users, k, fetch);
  }

  /**
   * What a pass that got past the first connection and the user listing
   * leaves behind, given the users it enumerated.
   */
  ghost predicate PassResult(config: Config, dial: (nat, string) -> DialResult, users: seq<string>,
                             drained: seq<seq<Bucket>>, out: seq<Metric>, outcome: Outcome, order: seq<string>)
    requires |config.endpoints| > 0
  {
    var d := DrainAll(ThresholdsOf(config), ZeroSummary(users), Flatten(drained));
    if !(forall k :: 0 <= k < |users| ==> WorkerConnects(config.endpoints, dial, k)) then
      && outcome.WorkerConnectFatal?
      && outcome.worker < |users|
      && !WorkerConnects(config.endpoints, dial, outcome.worker)
      && (forall k :: 0 <= k < outcome.worker ==> WorkerConnects(config.endpoints, dial, k))
      && out == Presence(users)
    else if d.fault.Some? then
      && outcome == NilShardPanic(d.fault.value)
      && out == Presence(users) + d.metrics
    else
      && outcome == Completed
      && Distinct(order) && (forall u :: u in order <==> u in d.summary)
      && out == Presence(users) + d.metrics + SummaryMetrics(d.summary, order)
  }

  /**
   * Collect. `users` is the result of the user listing (None when it fails);
   * `drained` is the workers' batches in the order the channel delivered them.
   * `order` is the (random) order in which the summary map is visited.
   */
  method Collect(config: Config, dial: (nat, string) -> DialResult, users: Option<seq<string>>,
                 fetch: string -> Option<seq<Bucket>>, drained: seq<seq<Bucket>>)
    returns (out: seq<Metric>, outcome: Outcome, ghost order: seq<string>)
    requires |config.endpoints| > 0
    requires users.Some? ==> multiset(drained) == multiset(Launched(users.value, fetch))
    ensures !FirstConnects(config, dial) ==> outcome == ConnectFatal && out == []
    ensures FirstConnects(config, dial) && users.None? ==> outcome == UserListFatal && out == []
    ensures FirstConnects(config, dial) && users.Some? ==>
      PassResult(config, dial, users.value, drained, out, outcome, order)
  {
    out, order := [], [];
    var connection, err, attempted, logged := GetRGWConnection(config.endpoints, 0, CallDial(dial, 0));
    if err.Some? {
      outcome := ConnectFatal;
      return;
    }
    if users.None? {
      outcome := UserListFatal;
      return;
    }
    var uids := users.value;
    var userSummary, presence := InitSummary(uids);
    out := presence;
    var offsets, queue, failed := LaunchWorkers(config.endpoints, uids, dial, fetch);
    if failed.Some? {
      outcome := WorkerConnectFatal(failed.value);
      return;
    }
    // Every worker has reported: `drained` holds the batches of `queue`, in arrival order.
    var th := ThresholdsOf(config);
    var finalSummary, bucketMetrics, fault := Aggregate(th, userSummary, drained);
    out := out + bucketMetrics;
    if fault.Some? {
      outcome := NilShardPanic(fault.value);
      return;
    }
    var summaries;
    summaries, order := EmitSummaries(finalSummary);
    out := out + summaries;
    outcome := Completed;
  }

  /** The summary part of a drain from the zero map over records with the multiset of `records`. */
  lemma SummaryReport(th: Thresholds, users: seq<string>, bs: seq<Bucket>, records: seq<Bucket>, order: seq<string>)
    requires multiset(bs) == multiset(records) && NoPanic(th, bs) && Distinct(order)
    requires forall u :: u in order <==> u in DrainAll(th, ZeroSummary(users), bs).summary
    ensures var s := DrainAll(th, ZeroSummary(users), bs).summary;
      && |SummaryMetrics(s, order)| == 2 * |order|
      && (forall u :: u in users ==> u in order)
      && (forall i :: 0 <= i < |order| ==>
            && SummaryMetrics(s, order)[2 * i] == Metric(UserBucketsMetric, [order[i]], CountOwned(records, order[i]))
            && SummaryMetrics(s, order)[2 * i + 1] == Metric(UserUsageMetric, [order[i]], BytesOwned(records, order[i])))
      && SumBucketCounts(s, order) == |records|
  {
    var s0 := ZeroSummary(users);
    var d := DrainAll(th, s0, bs);
    SummaryEntries(th, users, bs, records, order);
    SummaryMetricsAt(d.summary, order);
    SummaryCoverage(th, users, bs, order);
    assert |bs| == |records| by {
      assert |multiset(bs)| == |multiset(records)|;
    }
    SumCountsIsRecordCount(th, s0, bs, order);
    ZeroSum(s0, order);
  }

  /** Each visited entry of a drain from the zero map holds the count and bytes of its records. */
  lemma SummaryEntries(th: Thresholds, users: seq<string>, bs: seq<Bucket>, records: seq<Bucket>, order: seq<string>)
    requires multiset(bs) == multiset(records) && NoPanic(th, bs)
    requires forall u :: u in order ==> u in DrainAll(th, ZeroSummary(users), bs).summary
    ensures var s := DrainAll(th, ZeroSummary(users), bs).summary;
      forall i :: 0 <= i < |order| ==>
        s[order[i]] == UserStats(CountOwned(records, order[i]), BytesOwned(records, order[i]))
  {
    var s0 := ZeroSummary(users);
    var s := DrainAll(th, s0, bs).summary;
    forall i | 0 <= i < |order|
      ensures s[order[i]] == UserStats(CountOwned(records, order[i]), BytesOwned(records, order[i]))
    {
      var u := order[i];
      DrainTotals(th, s0, bs, u);
      CountsIgnoreOrder(bs, records, u);
      assert Entry(s0, u) == UserStats(0, 0);
      assert s[u] == Entry(s, u);
    }
  }

  /** A visiting order of the drained map covers every enumerated user and every owner. */
  lemma SummaryCoverage(th: Thresholds, users: seq<string>, bs: seq<Bucket>, order: seq<string>)
    requires NoPanic(th, bs)
    requires forall u :: u in order <==> u in DrainAll(th, ZeroSummary(users), bs).summary
    ensures forall u :: u in users ==> u in order
    ensures forall i :: 0 <= i < |bs| ==> bs[i].owner in order
  {
    var s0 := ZeroSummary(users);
    DrainMetrics(th, s0, bs);
    forall u | u in users ensures u in order {
      assert u in s0;
    }
    forall i | 0 <= i < |bs| ensures bs[i].owner in order {
      assert bs[i].owner in Owners(bs);
    }
  }

  /**
   * The layout of a completed pass's output: the presence metric of each
   * enumerated user, in order, at the front; `p` metrics in, one summary pair
   * per uid of `order`, carrying the number and the total size of the
   * records of `records` owned by that uid.
   */
  predicate PassLayout(out: seq<Metric>, users: seq<string>, p: nat, order: seq<string>, records: seq<Bucket>)
  {
    && |users| <= p && |out| == p + 2 * |order|
    && (forall i :: 0 <= i < |users| ==> out[i] == Metric(UserMetric, [users[i]], 1))
    && (forall i :: 0 <= i < |order| ==>
          && out[p + 2 * i] == Metric(UserBucketsMetric, [order[i]], CountOwned(records, order[i]))
          && out[p + 2 * i + 1] == Metric(UserUsageMetric, [order[i]], BytesOwned(records, order[i])))
  }

  /** Where the presence, bucket and summary metrics sit in a completed pass's output. */
  lemma OutputLayout(out: seq<Metric>, users: seq<string>, bucketMetrics: seq<Metric>, summaries: seq<Metric>,
                     order: seq<string>, records: seq<Bucket>)
    requires out == Presence(users) + bucketMetrics + summaries
    requires |summaries| == 2 * |order|
    requires forall i :: 0 <= i < |order| ==>
      && summaries[2 * i] == Metric(UserBucketsMetric, [order[i]], CountOwned(records, order[i]))
      && summaries[2 * i + 1] == Metric(UserUsageMetric, [order[i]], BytesOwned(records, order[i]))
    ensures PassLayout(out, users, |users| + |bucketMetrics|, order, records)
  {
    var p := |users| + |bucketMetrics|;
    forall i | 0 <= i < |order|
      ensures out[p + 2 * i] == summaries[2 * i] && out[p + 2 * i + 1] == summaries[2 * i + 1]
    {
    }
  }

  /**
   * A completed pass reports: one presence metric with value 1 per enumerated
   * user, in enumeration order (first); then the per-bucket metrics; then a
   * pair of summary metrics for every entry of the map, which includes every
   * enumerated user. Each pair carries the number and the total size of the
   * records the workers returned for that uid, whatever order they arrived
   * in, and the bucket counts add up to the number of records drained.
   */
  lemma CompletedPassReport(config: Config, dial: (nat, string) -> DialResult, users: seq<string>,
                            fetch: string -> Option<seq<Bucket>>, drained: seq<seq<Bucket>>,
                            out: seq<Metric>, order: seq<string>)
    requires |config.endpoints| > 0
    requires multiset(drained) == multiset(Launched(users, fetch))
    requires PassResult(config, dial, users, drained, out, Completed, order)
    ensures var th, records := ThresholdsOf(config), Flatten(Launched(users, fetch));
      && PassLayout(out, users, |users| + |BucketMetrics(th, Flatten(drained))|, order, records)
      && (forall u :: u in users ==> u in order)
      && SumBucketCounts(DrainAll(th, ZeroSummary(users), Flatten(drained)).summary, order) == |records|
  {
    CompletedPass(config, dial, users, drained, out, order);
    CompletedReport(ThresholdsOf(config), users, fetch, drained, out, order);
  }

  /** The report of a completed pass, from the facts PassResult gives about it. */
  lemma CompletedReport(th: Thresholds, users: seq<string>, fetch: string -> Option<seq<Bucket>>,
                        drained: seq<seq<Bucket>>, out: seq<Metric>, order: seq<string>)
    requires multiset(drained) == multiset(Launched(users, fetch))
    requires var d := DrainAll(th, ZeroSummary(users), Flatten(drained));
      && NoPanic(th, Flatten(drained))
      && Distinct(order) && (forall u :: u in order <==> u in d.summary)
      && out == Presence(users) + BucketMetrics(th, Flatten(drained)) + SummaryMetrics(d.summary, order)
    ensures var records := Flatten(Launched(users, fetch));
      && PassLayout(out, users, |users| + |BucketMetrics(th, Flatten(drained))|, order, records)
      && (forall u :: u in users ==> u in order)
      && SumBucketCounts(DrainAll(th, ZeroSummary(users), Flatten(drained)).summary, order) == |records|
  {
    var bs := Flatten(drained);
    var s := DrainAll(th, ZeroSummary(users), bs).summary;
    var records := Flatten(Launched(users, fetch));
    FlattenIgnoresOrder(drained, Launched(users, fetch));
    SummaryReport(th, users, bs, records, order);
    OutputLayout(out, users, BucketMetrics(th, bs), SummaryMetrics(s, order), order, records);
  }

  /** What PassResult says about a pass that completed. */
  lemma CompletedPass(config: Config, dial: (nat, string) -> DialResult, users: seq<string>,
                      drained: seq<seq<Bucket>>, out: seq<Metric>, order: seq<string>)
    requires |config.endpoints| > 0
    requires PassResult(config, dial, users, drained, out, Completed, order)
    ensures var d := DrainAll(ThresholdsOf(config), ZeroSummary(users), Flatten(drained));
      && NoPanic(ThresholdsOf(config), Flatten(drained))
      && Distinct(order) && (forall u :: u in order <==> u in d.summary)
      && out == Presence(users) + BucketMetrics(ThresholdsOf(config), Flatten(drained)) + SummaryMetrics(d.summary, order)
  {
    var th, s0, bs := ThresholdsOf(config), ZeroSummary(users), Flatten(drained);
    DrainFault(th, s0, bs);
    DrainMetrics(th, s0, bs);
  }

  /** An all-zero summary adds up to zero bucket counts. */
  lemma {:induction false} ZeroSum(s: Summary, order: seq<string>)
    requires forall u :: u in s ==> s[u] == UserStats(0, 0)
    ensures SumBucketCounts(s, order) == 0
  {
    if order != [] {
      ZeroSum(s, order[1..]);
    }
  }
}
