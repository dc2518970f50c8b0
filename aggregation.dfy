/**
 * The aggregation and emission part of the collector's Collect: the per-user
 * summary map, the threshold-gated per-bucket metrics, the accumulation of
 * bucket counts and bytes, and the two summary metrics per map entry.
 * The metric sink is the sequence of (name, labels, value) records produced.
 */
module Aggregation {
  import opened Wrappers

  const UserMetric := "ceph_rgw_user"
  const BucketSizeMetric := "ceph_rgw_bucket_usage_bytes"
  const BucketObjectsMetric := "ceph_rgw_bucket_object_count"
  const BucketShardsMetric := "ceph_rgw_bucket_shard_count"
  const UserBucketsMetric := "ceph_rgw_user_total_bucket_count"
  const UserUsageMetric := "ceph_rgw_user_total_usage_bytes"

  /** One observation handed to the metric sink: name, label values, value. */
  datatype Metric = Metric(name: string, labels: seq<string>, value: nat)

  /** A bucket record with usage stats; the gateway may leave any count out. */
  datatype Bucket = Bucket(owner: string, name: string,
                           size: Option<nat>, numObjects: Option<nat>, numShards: Option<nat>)

  /** Per-user accumulator of bucket count and total bytes. */
  datatype UserStats = UserStats(bucketCount: nat, totalBytes: nat)

  /** The configured minimum size and object count for per-bucket metrics. */
  datatype Thresholds = Thresholds(size: nat, objects: nat)

  type Summary = map<string, UserStats>

  // ---------------------------------------------------------------------
  // Initialisation: one zero entry and one presence metric per user
  // ---------------------------------------------------------------------

  /** The summary map right after initialisation. */
  function ZeroSummary(users: seq<string>): Summary
  {
    map u | u in users :: UserStats(0, 0)
  }

  /** The presence metrics, one per enumerated user, in enumeration order. */
  function Presence(users: seq<string>): seq<Metric>
  {
    seq(|users|, i requires 0 <= i < |users| => Metric(UserMetric, [users[i]], 1))
  }

  /**
   * The first loop of Collect: every enumerated uid gets a (0, 0) entry and
   * one ceph_rgw_user metric with value 1, in enumeration order.
   */
  method InitSummary(users: seq<string>) returns (userSummary: Summary, out: seq<Metric>)
    ensures userSummary.Keys == set u | u in users
    ensures forall u :: u in userSummary ==> userSummary[u] == UserStats(0, 0)
    ensures |out| == |users|
    ensures forall i :: 0 <= i < |users| ==> out[i] == Metric(UserMetric, [users[i]], 1)
    ensures userSummary == ZeroSummary(users) && out == Presence(users)
  {
    userSummary, out := map[], [];
    var i := 0;
    while i < |users|
      invariant 0 <= i <= |users|
      invariant userSummary.Keys == set u | u in users[..i]
      invariant forall u :: u in userSummary ==> userSummary[u] == UserStats(0, 0)
      invariant |out| == i
      invariant forall j :: 0 <= j < i ==> out[j] == Metric(UserMetric, [users[j]], 1)
    {
      var uid := users[i];
      assert users[..i + 1] == users[..i] + [uid];
      userSummary := userSummary[uid := UserStats(0, 0)];
      out := out + [Metric(UserMetric, [uid], 1)];
      i := i + 1;
    }
    assert users[..i] == users;
  }

  // ---------------------------------------------------------------------
  // One bucket: threshold gating
  // ---------------------------------------------------------------------

  predicate SizeFlag(th: Thresholds, b: Bucket)
  {
    b.size.Some? && b.size.value >= th.size
  }

  predicate ObjectFlag(th: Thresholds, b: Bucket)
  {
    b.numObjects.Some? && b.numObjects.value >= th.objects
  }

  /** Some metric of this name is among `ms`. */
  predicate Emits(ms: seq<Metric>, name: string)
  {
    exists m :: m in ms && m.name == name
  }

  /**
   * What one bucket sends to the sink and whether it then dereferences a nil
   * shard count (a flagged bucket without one), which aborts the process.
   */
  datatype Emission = Emission(metrics: seq<Metric>, panicked: bool)

  /** The per-bucket metrics and whether the bucket dereferences a nil shard count. */
  function EmitBucket(th: Thresholds, b: Bucket): Emission
  {
    var labels := [b.owner, b.name];
    var sizeMetrics := if SizeFlag(th, b) then [Metric(BucketSizeMetric, labels, b.size.value)] else [];
    var objectMetrics := if ObjectFlag(th, b) then [Metric(BucketObjectsMetric, labels, b.numObjects.value)] else [];
    if !(SizeFlag(th, b) || ObjectFlag(th, b)) then Emission(sizeMetrics + objectMetrics, false)
    else if b.numShards.None? then Emission(sizeMetrics + objectMetrics, true)
    else Emission(sizeMetrics + objectMetrics + [Metric(BucketShardsMetric, labels, b.numShards.value)], false)
  }

  /** Position of a per-bucket metric kind in the send order: size, objects, shards. */
  function SendRank(name: string): nat
  {
    if name == BucketSizeMetric then 0 else if name == BucketObjectsMetric then 1 else 2
  }

  /**
   * Threshold gating of one bucket: a size metric iff the size is present and
   * reaches the threshold; an object-count metric iff the count is present and
   * reaches its threshold; a shard metric iff either of the two was emitted
   * (and the process aborts instead when that bucket has no shard count).
   * Each kind is sent at most once, in the order size, objects, shards.
   * Every metric carries the owner and bucket labels and the reported value.
   */
  lemma BucketGating(th: Thresholds, b: Bucket)
    ensures var e := EmitBucket(th, b);
      && (Emits(e.metrics, BucketSizeMetric) <==> SizeFlag(th, b))
      && (Emits(e.metrics, BucketObjectsMetric) <==> ObjectFlag(th, b))
      && (e.panicked <==> (SizeFlag(th, b) || ObjectFlag(th, b)) && b.numShards.None?)
      && (!e.panicked ==>
            (Emits(e.metrics, BucketShardsMetric) <==>
               Emits(e.metrics, BucketSizeMetric) || Emits(e.metrics, BucketObjectsMetric)))
      && |e.metrics| <= 3
      && (forall i, j :: 0 <= i < j < |e.metrics| ==> SendRank(e.metrics[i].name) < SendRank(e.metrics[j].name))
      && forall m :: m in e.metrics ==>
           && m.labels == [b.owner, b.name]
           && (m.name == BucketSizeMetric || m.name == BucketObjectsMetric || m.name == BucketShardsMetric)
           && (m.name == BucketSizeMetric ==> b.size.Some? && m.value == b.size.value)
           && (m.name == BucketObjectsMetric ==> b.numObjects.Some? && m.value == b.numObjects.value)
           && (m.name == BucketShardsMetric ==> b.numShards.Some? && m.value == b.numShards.value)
  {
    var e := EmitBucket(th, b);
    var labels := [b.owner, b.name];
    if SizeFlag(th, b) {
      assert Metric(BucketSizeMetric, labels, b.size.value) in e.metrics;
    }
    if ObjectFlag(th, b) {
      assert Metric(BucketObjectsMetric, labels, b.numObjects.value) in e.metrics;
    }
    if !e.panicked && (SizeFlag(th, b) || ObjectFlag(th, b)) {
      assert Metric(BucketShardsMetric, labels, b.numShards.value) in e.metrics;
    }
  }

  // ---------------------------------------------------------------------
  // Accumulation
  // ---------------------------------------------------------------------

  /** A missing key reads as the zero entry, as a Go map lookup does. */
  function Entry(s: Summary, uid: string): UserStats
  {
    if uid in s then s[uid] else UserStats(0, 0)
  }

  function SizeOrZero(b: Bucket): nat
  {
    if b.size.Some? then b.size.value else 0
  }

  /** The owner's entry after one bucket: one more bucket, its size added if present. */
  function Tally(s: Summary, b: Bucket): Summary
  {
    var entry := Entry(s, b.owner);
    s[b.owner := UserStats(entry.bucketCount + 1, entry.totalBytes + SizeOrZero(b))]
  }

  /** The state of the drain: the summary map, the metrics sent, the bucket that aborted it. */
  datatype Drain = Drain(summary: Summary, metrics: seq<Metric>, fault: Option<Bucket>)

  function Step(th: Thresholds, d: Drain, b: Bucket): Drain
  {
    if d.fault.Some? then d
    else
      var e := EmitBucket(th, b);
      if e.panicked then Drain(d.summary, d.metrics + e.metrics, Some(b))
      else Drain(Tally(d.summary, b), d.metrics + e.metrics, None)
  }

  /** Reference definition of the drain over a flat sequence of bucket records. */
  function DrainAll(th: Thresholds, s0: Summary, bs: seq<Bucket>): Drain
  {
    if bs == [] then Drain(s0, [], None)
    else Step(th, DrainAll(th, s0, bs[..|bs| - 1]), bs[|bs| - 1])
  }

  /** The batches, one after another. */
  function Flatten(batches: seq<seq<Bucket>>): seq<Bucket>
  {
    if batches == [] then []
    else Flatten(batches[..|batches| - 1]) + batches[|batches| - 1]
  }

  /** The records of `bs` owned by `uid`. */
  function CountOwned(bs: seq<Bucket>, uid: string): nat
  {
    if bs == [] then 0
    else CountOwned(bs[..|bs| - 1], uid) + (if bs[|bs| - 1].owner == uid then 1 else 0)
  }

  /** The reported sizes of the records of `bs` owned by `uid`, whatever the threshold. */
  function BytesOwned(bs: seq<Bucket>, uid: string): nat
  {
    if bs == [] then 0
    else BytesOwned(bs[..|bs| - 1], uid) + (if bs[|bs| - 1].owner == uid then SizeOrZero(bs[|bs| - 1]) else 0)
  }

  /** The per-bucket metrics of `bs`, bucket after bucket. */
  function BucketMetrics(th: Thresholds, bs: seq<Bucket>): seq<Metric>
  {
    if bs == [] then []
    else BucketMetrics(th, bs[..|bs| - 1]) + EmitBucket(th, bs[|bs| - 1]).metrics
  }

  /** The owners of the records of `bs`. */
  function Owners(bs: seq<Bucket>): set<string>
  {
    set b | b in bs :: b.owner
  }

  predicate NoPanic(th: Thresholds, bs: seq<Bucket>)
  {
    forall i :: 0 <= i < |bs| ==> !EmitBucket(th, bs[i]).panicked
  }

  lemma TallyEntry(s: Summary, b: Bucket, u: string)
    ensures Entry(Tally(s, b), u) ==
      if u == b.owner then UserStats(Entry(s, u).bucketCount + 1, Entry(s, u).totalBytes + SizeOrZero(b))
      else Entry(s, u)
  {
  }

  /** A sequence with one more record panics nowhere iff its prefix and that record do not. */
  lemma NoPanicSnoc(th: Thresholds, bs: seq<Bucket>)
    requires bs != []
    ensures NoPanic(th, bs) <==> NoPanic(th, bs[..|bs| - 1]) && !EmitBucket(th, bs[|bs| - 1]).panicked
  {
    var init := bs[..|bs| - 1];
    if NoPanic(th, init) && !EmitBucket(th, bs[|bs| - 1]).panicked {
      forall i | 0 <= i < |bs| ensures !EmitBucket(th, bs[i]).panicked {
        if i < |init| { assert bs[i] == init[i]; }
      }
    }
    if NoPanic(th, bs) {
      forall i | 0 <= i < |init| ensures !EmitBucket(th, init[i]).panicked {
        assert init[i] == bs[i];
      }
    }
  }

  /** A drain without a nil shard count sends exactly the per-bucket metrics of every record. */
  lemma {:induction false} DrainMetrics(th: Thresholds, s0: Summary, bs: seq<Bucket>)
    requires NoPanic(th, bs)
    ensures DrainAll(th, s0, bs).fault == None
    ensures DrainAll(th, s0, bs).metrics == BucketMetrics(th, bs)
    ensures DrainAll(th, s0, bs).summary.Keys == s0.Keys + Owners(bs)
  {
    if bs != [] {
      var init, last := bs[..|bs| - 1], bs[|bs| - 1];
      NoPanicSnoc(th, bs);
      DrainMetrics(th, s0, init);
      assert bs == init + [last];
      assert Owners(bs) == Owners(init) + {last.owner};
    }
  }

  /**
   * In a drain without a nil shard count each uid's entry grows by the number
   * of its records and by their reported sizes, whatever the thresholds.
   */
  lemma {:induction false} DrainTotals(th: Thresholds, s0: Summary, bs: seq<Bucket>, u: string)
    requires NoPanic(th, bs)
    ensures Entry(DrainAll(th, s0, bs).summary, u) ==
      UserStats(Entry(s0, u).bucketCount + CountOwned(bs, u), Entry(s0, u).totalBytes + BytesOwned(bs, u))
  {
    if bs != [] {
      var init, last := bs[..|bs| - 1], bs[|bs| - 1];
      NoPanicSnoc(th, bs);
      DrainTotals(th, s0, init, u);
      DrainMetrics(th, s0, init);
      TallyEntry(DrainAll(th, s0, init).summary, last, u);
    }
  }

  /** The drain as a whole: no abort, every record's metrics, and the closed form of every entry. */
  lemma DrainClosedForm(th: Thresholds, s0: Summary, bs: seq<Bucket>)
    requires NoPanic(th, bs)
    ensures var d := DrainAll(th, s0, bs);
      && d.fault == None
      && d.metrics == BucketMetrics(th, bs)
      && d.summary.Keys == s0.Keys + Owners(bs)
      && forall u :: Entry(d.summary, u) ==
           UserStats(Entry(s0, u).bucketCount + CountOwned(bs, u), Entry(s0, u).totalBytes + BytesOwned(bs, u))
  {
    DrainMetrics(th, s0, bs);
    forall u
      ensures Entry(DrainAll(th, s0, bs).summary, u) ==
        UserStats(Entry(s0, u).bucketCount + CountOwned(bs, u), Entry(s0, u).totalBytes + BytesOwned(bs, u))
    {
      DrainTotals(th, s0, bs, u);
    }
  }

  /**
   * A drain aborts exactly when some record is flagged without a shard
   * count; it aborts at the first such record p, after the metrics of the
   * records before it and the size and object metrics of that record.
   */
  lemma {:induction false} DrainFault(th: Thresholds, s0: Summary, bs: seq<Bucket>)
    ensures var d := DrainAll(th, s0, bs);
      && (d.fault.None? <==> NoPanic(th, bs))
      && (d.fault.Some? ==> exists p ::
            && 0 <= p < |bs| && d.fault.value == bs[p]
            && EmitBucket(th, bs[p]).panicked && NoPanic(th, bs[..p])
            && d.metrics == BucketMetrics(th, bs[..p]) + EmitBucket(th, bs[p]).metrics)
  {
    if bs != [] {
      var init, last := bs[..|bs| - 1], bs[|bs| - 1];
      DrainFault(th, s0, init);
      NoPanicSnoc(th, bs);
      var d0 := DrainAll(th, s0, init);
      if d0.fault.Some? {
        var p :| 0 <= p < |init| && d0.fault.value == init[p] && EmitBucket(th, init[p]).panicked
                 && NoPanic(th, init[..p]) && d0.metrics == BucketMetrics(th, init[..p]) + EmitBucket(th, init[p]).metrics;
        assert init[..p] == bs[..p] && init[p] == bs[p];
      } else if EmitBucket(th, last).panicked {
        DrainMetrics(th, s0, init);
        assert bs[..|bs| - 1] == init;
      }
    }
  }

  /** Once a drain has aborted, further records change nothing. */
  lemma {:induction false} DrainStaysAborted(th: Thresholds, s0: Summary, xs: seq<Bucket>, ys: seq<Bucket>)
    requires DrainAll(th, s0, xs).fault.Some?
    ensures DrainAll(th, s0, xs + ys) == DrainAll(th, s0, xs)
  {
    if ys == [] {
      assert xs + ys == xs;
    } else {
      var init := ys[..|ys| - 1];
      assert (xs + ys)[..|xs + ys| - 1] == xs + init;
      DrainStaysAborted(th, s0, xs, init);
    }
  }

  lemma DrainAllSnoc(th: Thresholds, s0: Summary, xs: seq<Bucket>, b: Bucket)
    ensures DrainAll(th, s0, xs + [b]) == Step(th, DrainAll(th, s0, xs), b)
  {
    assert (xs + [b])[..|xs|] == xs;
  }

  lemma FlattenSnoc(xs: seq<seq<Bucket>>, x: seq<Bucket>)
    ensures Flatten(xs + [x]) == Flatten(xs) + x
  {
    assert (xs + [x])[..|xs|] == xs;
  }

  lemma {:induction false} FlattenConcat(xs: seq<seq<Bucket>>, ys: seq<seq<Bucket>>)
    ensures Flatten(xs + ys) == Flatten(xs) + Flatten(ys)
  {
    if ys == [] {
      assert xs + ys == xs;
    } else {
      var init := ys[..|ys| - 1];
      assert (xs + ys)[..|xs + ys| - 1] == xs + init;
      FlattenConcat(xs, init);
    }
  }

  /** An empty batch, wherever it arrives in the queue, contributes nothing. */
  lemma EmptyBatchIgnored(th: Thresholds, s0: Summary, xs: seq<seq<Bucket>>, ys: seq<seq<Bucket>>)
    ensures Flatten(xs + [[]] + ys) == Flatten(xs + ys)
    ensures DrainAll(th, s0, Flatten(xs + [[]] + ys)) == DrainAll(th, s0, Flatten(xs + ys))
  {
    FlattenConcat(xs + [[]], ys);
    FlattenConcat(xs, [[]]);
    FlattenConcat(xs, ys);
    var empty: seq<seq<Bucket>> := [[]];
    assert Flatten(empty) == [] by { assert empty[..0] == []; }
  }

  // ---------------------------------------------------------------------
  // Arrival order of the batches
  // ---------------------------------------------------------------------

  lemma {:induction false} CountsConcat(xs: seq<Bucket>, ys: seq<Bucket>, u: string)
    ensures CountOwned(xs + ys, u) == CountOwned(xs, u) + CountOwned(ys, u)
    ensures BytesOwned(xs + ys, u) == BytesOwned(xs, u) + BytesOwned(ys, u)
  {
    if ys == [] {
      assert xs + ys == xs;
    } else {
      var init := ys[..|ys| - 1];
      assert (xs + ys)[..|xs + ys| - 1] == xs + init;
      CountsConcat(xs, init, u);
    }
  }

  /** Two sequences with the same elements: the last element of one sits at some j in the other. */
  lemma RemoveLast<T>(xs: seq<T>, ys: seq<T>) returns (j: nat)
    requires xs != [] && multiset(xs) == multiset(ys)
    ensures j < |ys| && ys[j] == xs[|xs| - 1]
    ensures multiset(xs[..|xs| - 1]) == multiset(ys[..j] + ys[j + 1..])
  {
    var x := xs[|xs| - 1];
    assert x in multiset(ys);
    j :| 0 <= j < |ys| && ys[j] == x;
    SplitAt(xs, |xs| - 1);
    SplitAt(ys, j);
    assert xs[..|xs| - 1] + xs[|xs| - 1 + 1..] == xs[..|xs| - 1];
    Cancel(multiset(xs[..|xs| - 1]), multiset(ys[..j] + ys[j + 1..]), x);
  }

  /** Taking out position j leaves the other elements. */
  lemma SplitAt<T>(ys: seq<T>, j: nat)
    requires j < |ys|
    ensures multiset(ys) == multiset(ys[..j] + ys[j + 1..]) + multiset{ys[j]}
  {
    assert ys == ys[..j] + [ys[j]] + ys[j + 1..];
  }

  /** Adding the same element to two multisets keeps them apart. */
  lemma Cancel<T>(a: multiset<T>, b: multiset<T>, x: T)
    requires a + multiset{x} == b + multiset{x}
    ensures a == b
  {
    forall e ensures a[e] == b[e] {
      assert (a + multiset{x})[e] == (b + multiset{x})[e];
    }
  }

  /** Counts and bytes per uid depend only on which records were drained, not their order. */
  lemma {:induction false} CountsIgnoreOrder(xs: seq<Bucket>, ys: seq<Bucket>, u: string)
    requires multiset(xs) == multiset(ys)
    ensures CountOwned(xs, u) == CountOwned(ys, u) && BytesOwned(xs, u) == BytesOwned(ys, u)
    decreases |xs|
  {
    if xs == [] {
      assert |multiset(ys)| == 0;
    } else {
      var j := RemoveLast(xs, ys);
      var init, x := xs[..|xs| - 1], xs[|xs| - 1];
      var left, right := ys[..j], ys[j + 1..];
      assert ys == (left + [x]) + right;
      CountsIgnoreOrder(init, left + right, u);
      CountsConcat(left, right, u);
      CountsConcat(left + [x], right, u);
      assert (left + [x])[..|left|] == left;
    }
  }

  /** The records drained are the same whatever the order in which the batches arrive. */
  lemma {:induction false} FlattenIgnoresOrder(xs: seq<seq<Bucket>>, ys: seq<seq<Bucket>>)
    requires multiset(xs) == multiset(ys)
    ensures multiset(Flatten(xs)) == multiset(Flatten(ys))
    decreases |xs|
  {
    if xs == [] {
      assert |multiset(ys)| == 0;
    } else {
      var j := RemoveLast(xs, ys);
      var init, x := xs[..|xs| - 1], xs[|xs| - 1];
      var left, right := ys[..j], ys[j + 1..];
      assert ys == (left + [x]) + right;
      FlattenIgnoresOrder(init, left + right);
      FlattenConcat(left, right);
      FlattenConcat(left + [x], right);
      FlattenSnoc(left, x);
    }
  }

  /** Records with the same multiset have the same owners and the same aborting records. */
  lemma SameRecords(th: Thresholds, xs: seq<Bucket>, ys: seq<Bucket>)
    requires multiset(xs) == multiset(ys)
    ensures Owners(xs) == Owners(ys)
    ensures NoPanic(th, xs) ==> NoPanic(th, ys)
  {
    forall o | o in Owners(xs) ensures o in Owners(ys) {
      var b :| b in xs && b.owner == o;
      assert b in multiset(ys);
    }
    forall o | o in Owners(ys) ensures o in Owners(xs) {
      var b :| b in ys && b.owner == o;
      assert b in multiset(xs);
    }
    if NoPanic(th, xs) {
      forall i | 0 <= i < |ys| ensures !EmitBucket(th, ys[i]).panicked {
        assert ys[i] in multiset(xs);
        var j :| 0 <= j < |xs| && xs[j] == ys[i];
      }
    }
  }

  lemma SummariesAgree(mx: Summary, my: Summary)
    requires mx.Keys == my.Keys
    requires forall u :: Entry(mx, u) == Entry(my, u)
    ensures mx == my
  {
    forall u | u in mx ensures mx[u] == my[u] {
      assert Entry(mx, u) == Entry(my, u);
    }
  }

  /** The closed form of two drains over the same records agrees on every uid. */
  lemma SameRecordsSameTotals(th: Thresholds, s0: Summary, fx: seq<Bucket>, fy: seq<Bucket>)
    requires multiset(fx) == multiset(fy) && NoPanic(th, fx) && NoPanic(th, fy)
    ensures DrainAll(th, s0, fx).summary == DrainAll(th, s0, fy).summary
  {
    SameRecords(th, fx, fy);
    DrainMetrics(th, s0, fx);
    DrainMetrics(th, s0, fy);
    var mx, my := DrainAll(th, s0, fx).summary, DrainAll(th, s0, fy).summary;
    forall u ensures Entry(mx, u) == Entry(my, u) {
      CountsIgnoreOrder(fx, fy, u);
      DrainTotals(th, s0, fx, u);
      DrainTotals(th, s0, fy, u);
    }
    SummariesAgree(mx, my);
  }

  /**
   * A drain without an abort yields the same summary map whatever the order
   * in which the batches arrive (and arrival order cannot cause an abort).
   */
  lemma DrainIgnoresArrivalOrder(th: Thresholds, s0: Summary, xs: seq<seq<Bucket>>, ys: seq<seq<Bucket>>)
    requires multiset(xs) == multiset(ys)
    requires NoPanic(th, Flatten(xs))
    ensures NoPanic(th, Flatten(ys))
    ensures DrainAll(th, s0, Flatten(xs)).summary == DrainAll(th, s0, Flatten(ys)).summary
  {
    FlattenIgnoresOrder(xs, ys);
    SameRecords(th, Flatten(xs), Flatten(ys));
    SameRecordsSameTotals(th, s0, Flatten(xs), Flatten(ys));
  }

  // ---------------------------------------------------------------------
  // The drain loop
  // ---------------------------------------------------------------------

  /**
   * The body of the inner drain loop for one bucket record: the size and
   * object flags, the gated metrics, the shard metric of a flagged bucket
   * (a nil shard count aborts), and the update of the owner's entry.
   */
  method AggregateBucket(th: Thresholds, userSummary: Summary, out: seq<Metric>, bucketInfo: Bucket)
    returns (userSummary': Summary, out': seq<Metric>, fault: Option<Bucket>)
    ensures Drain(userSummary', out', fault) == Step(th, Drain(userSummary, out, None), bucketInfo)
  {
    out' := out;
    fault := None;
    ghost var e := EmitBucket(th, bucketInfo);
    var sizeFlag, objectFlag := false, false;
    var entry := Entry(userSummary, bucketInfo.owner);
    var labels := [bucketInfo.owner, bucketInfo.name];
    if bucketInfo.size.Some? {
      if bucketInfo.size.value >= th.size {
        out' := out' + [Metric(BucketSizeMetric, labels, bucketInfo.size.value)];
        sizeFlag := true;
      }
      entry := entry.(totalBytes := entry.totalBytes + bucketInfo.size.value);
    }
    if bucketInfo.numObjects.Some? {
      if bucketInfo.numObjects.value >= th.objects {
        out' := out' + [Metric(BucketObjectsMetric, labels, bucketInfo.numObjects.value)];
        objectFlag := true;
      }
    }
    if sizeFlag || objectFlag {
      if bucketInfo.numShards.None? {
        userSummary', fault := userSummary, Some(bucketInfo);
        return;
      }
      out' := out' + [Metric(BucketShardsMetric, labels, bucketInfo.numShards.value)];
    }
    entry := entry.(bucketCount := entry.bucketCount + 1);
    userSummary' := userSummary[bucketInfo.owner := entry];
  }

  /**
   * The inner drain loop over one batch, continuing a drain that has covered
   * the records `done` without an abort.
   */
  method AggregateBatch(th: Thresholds, ghost summary0: Summary, ghost done: seq<Bucket>,
                        userSummary: Summary, out: seq<Metric>, bucketData: seq<Bucket>)
    returns (userSummary': Summary, out': seq<Metric>, fault: Option<Bucket>)
    requires Drain(userSummary, out, None) == DrainAll(th, summary0, done)
    ensures Drain(userSummary', out', fault) == DrainAll(th, summary0, done + bucketData)
  {
    userSummary', out', fault := userSummary, out, None;
    var j := 0;
    assert done + bucketData[..j] == done;
    while j < |bucketData|
      invariant 0 <= j <= |bucketData| && fault == None
      invariant Drain(userSummary', out', None) == DrainAll(th, summary0, done + bucketData[..j])
    {
      BatchStep(th, summary0, done, bucketData, j);
      userSummary', out', fault := AggregateBucket(th, userSummary', out', bucketData[j]);
      if fault.Some? {
        BatchAborted(th, summary0, done, bucketData, j);
        return;
      }
      j := j + 1;
    }
    assert bucketData[..j] == bucketData;
  }

  /** One more record of the batch is one more step of the reference drain. */
  lemma BatchStep(th: Thresholds, s0: Summary, done: seq<Bucket>, bs: seq<Bucket>, j: nat)
    requires j < |bs|
    ensures DrainAll(th, s0, done + bs[..j + 1]) == Step(th, DrainAll(th, s0, done + bs[..j]), bs[j])
  {
    assert done + bs[..j + 1] == (done + bs[..j]) + [bs[j]];
    DrainAllSnoc(th, s0, done + bs[..j], bs[j]);
  }

  /** A batch that aborts at record j leaves the drain as it was after record j. */
  lemma BatchAborted(th: Thresholds, s0: Summary, done: seq<Bucket>, bs: seq<Bucket>, j: nat)
    requires j < |bs| && DrainAll(th, s0, done + bs[..j + 1]).fault.Some?
    ensures DrainAll(th, s0, done + bs) == DrainAll(th, s0, done + bs[..j + 1])
  {
    assert bs == bs[..j + 1] + bs[j + 1..];
    assert done + bs == (done + bs[..j + 1]) + bs[j + 1..];
    DrainStaysAborted(th, s0, done + bs[..j + 1], bs[j + 1..]);
  }

  /**
   * The loop over the drained queue: skip empty batches and drain each of
   * the others with AggregateBatch; stop at the first abort.
   */
  method Aggregate(th: Thresholds, summary0: Summary, queue: seq<seq<Bucket>>)
    returns (userSummary: Summary, out: seq<Metric>, fault: Option<Bucket>)
    ensures Drain(userSummary, out, fault) == DrainAll(th, summary0, Flatten(queue))
  {
    userSummary, out, fault := summary0, [], None;
    var q := 0;
    while q < |queue|
      invariant 0 <= q <= |queue| && fault == None
      invariant Drain(userSummary, out, None) == DrainAll(th, summary0, Flatten(queue[..q]))
    {
      var bucketData := queue[q];
      assert queue[..q + 1] == queue[..q] + [bucketData];
      FlattenSnoc(queue[..q], bucketData);
      if |bucketData| == 0 {
        assert Flatten(queue[..q]) + bucketData == Flatten(queue[..q]);
        q := q + 1;
        continue;
      }
      userSummary, out, fault := AggregateBatch(th, summary0, Flatten(queue[..q]), userSummary, out, bucketData);
      if fault.Some? {
        FlattenConcat(queue[..q + 1], queue[q + 1..]);
        assert queue[..q + 1] + queue[q + 1..] == queue;
        DrainStaysAborted(th, summary0, Flatten(queue[..q + 1]), Flatten(queue[q + 1..]));
        return;
      }
      q := q + 1;
    }
    assert queue[..q] == queue;
  }

  // ---------------------------------------------------------------------
  // Summary emission
  // ---------------------------------------------------------------------

  /** The two summary metrics of each uid of `order`, in that order. */
  function SummaryMetrics(s: Summary, order: seq<string>): seq<Metric>
    requires forall u :: u in order ==> u in s
  {
    if order == [] then []
    else
      var uid := order[|order| - 1];
      SummaryMetrics(s, order[..|order| - 1])
        + [Metric(UserBucketsMetric, [uid], s[uid].bucketCount), Metric(UserUsageMetric, [uid], s[uid].totalBytes)]
  }

  /** Position 2i holds the bucket count of the i-th uid, 2i+1 its total bytes. */
  lemma {:induction false} SummaryMetricsAt(s: Summary, order: seq<string>)
    requires forall u :: u in order ==> u in s
    ensures |SummaryMetrics(s, order)| == 2 * |order|
    ensures forall i :: 0 <= i < |order| ==>
      && SummaryMetrics(s, order)[2 * i] == Metric(UserBucketsMetric, [order[i]], s[order[i]].bucketCount)
      && SummaryMetrics(s, order)[2 * i + 1] == Metric(UserUsageMetric, [order[i]], s[order[i]].totalBytes)
  {
    if order != [] {
      var init := order[..|order| - 1];
      SummaryMetricsAt(s, init);
      forall i | 0 <= i < |order|
        ensures SummaryMetrics(s, order)[2 * i] == Metric(UserBucketsMetric, [order[i]], s[order[i]].bucketCount)
        ensures SummaryMetrics(s, order)[2 * i + 1] == Metric(UserUsageMetric, [order[i]], s[order[i]].totalBytes)
      {
        if i < |init| { assert order[i] == init[i]; }
      }
    }
  }

  predicate Distinct(order: seq<string>)
  {
    forall i, j :: 0 <= i < j < |order| ==> order[i] != order[j]
  }

  /** The i-th pair of `out` reports the bucket count and the total bytes of entry `uid` of `s`. */
  predicate ReportsEntry(s: Summary, out: seq<Metric>, i: int, uid: string)
  {
    && 0 <= i && 2 * i + 1 < |out| && uid in s
    && out[2 * i] == Metric(UserBucketsMetric, [uid], s[uid].bucketCount)
    && out[2 * i + 1] == Metric(UserUsageMetric, [uid], s[uid].totalBytes)
  }

  /** The uid label of the i-th pair of `out` ("" where there is none). */
  function PairUid(out: seq<Metric>, i: int): string
  {
    if 0 <= i && 2 * i < |out| && |out[2 * i].labels| > 0 then out[2 * i].labels[0] else ""
  }

  /**
   * The last loop of Collect: visit the map's entries in an unspecified order
   * (Go randomises map iteration) and send each entry's bucket count and
   * total bytes. `order` is the visiting order: each key exactly once. So
   * the output is one pair per entry, each entry reported in exactly one pair.
   */
  method EmitSummaries(userSummary: Summary) returns (out: seq<Metric>, ghost order: seq<string>)
    ensures |out| == 2 * |userSummary|
    ensures forall i :: 0 <= i < |userSummary| ==> ReportsEntry(userSummary, out, i, PairUid(out, i))
    ensures forall u :: u in userSummary ==> exists i :: ReportsEntry(userSummary, out, i, u)
    ensures forall i, j, u :: ReportsEntry(userSummary, out, i, u) && ReportsEntry(userSummary, out, j, u) ==> i == j
    ensures Distinct(order) && forall u :: u in order <==> u in userSummary
    ensures out == SummaryMetrics(userSummary, order)
  {
    out, order := [], [];
    var remaining := userSummary.Keys;
    while remaining != {}
      invariant remaining <= userSummary.Keys
      invariant Distinct(order)
      invariant forall u :: u in order <==> u in userSummary && u !in remaining
      invariant out == SummaryMetrics(userSummary, order)
      invariant |order| + |remaining| == |userSummary|
      decreases remaining
    {
      var uid :| uid in remaining;
      var summaryStats := userSummary[uid];
      out := out + [Metric(UserBucketsMetric, [uid], summaryStats.bucketCount)];
      out := out + [Metric(UserUsageMetric, [uid], summaryStats.totalBytes)];
      ghost var before := order;
      assert uid !in before;
      order := order + [uid];
      assert order[..|order| - 1] == before;
      assert Distinct(order) by {
        forall i, j | 0 <= i < j < |order| ensures order[i] != order[j] {
          if j < |before| { assert order[i] == before[i] && order[j] == before[j]; }
        }
      }
      assert out == SummaryMetrics(userSummary, order);
      remaining := remaining - {uid};
    }
    SummaryPairs(userSummary, order);
  }

  /** Summary metrics over a visiting order that lists each key once: one pair per entry. */
  lemma SummaryPairs(s: Summary, order: seq<string>)
    requires Distinct(order) && |order| == |s| && forall u :: u in order <==> u in s
    ensures var out := SummaryMetrics(s, order);
      && |out| == 2 * |s|
      && (forall i :: 0 <= i < |s| ==> ReportsEntry(s, out, i, PairUid(out, i)))
      && (forall u :: u in s ==> exists i :: ReportsEntry(s, out, i, u))
      && (forall i, j, u :: ReportsEntry(s, out, i, u) && ReportsEntry(s, out, j, u) ==> i == j)
  {
    var out := SummaryMetrics(s, order);
    SummaryMetricsAt(s, order);
    forall i | 0 <= i < |order| ensures ReportsEntry(s, out, i, order[i]) && PairUid(out, i) == order[i] {
    }
    forall u | u in s ensures exists i :: ReportsEntry(s, out, i, u) {
      var i :| 0 <= i < |order| && order[i] == u;
      assert ReportsEntry(s, out, i, u);
    }
    forall i, j, u | ReportsEntry(s, out, i, u) && ReportsEntry(s, out, j, u) ensures i == j {
      assert out[2 * i].labels == [order[i]] && out[2 * j].labels == [order[j]];
    }
  }

  // ---------------------------------------------------------------------
  // Totals
  // ---------------------------------------------------------------------

  /** The bucket counts of the uids of `order`, added up. */
  function SumBucketCounts(s: Summary, order: seq<string>): nat
  {
    if order == [] then 0 else Entry(s, order[0]).bucketCount + SumBucketCounts(s, order[1..])
  }

  lemma {:induction false} SumUntouched(s: Summary, b: Bucket, order: seq<string>)
    requires b.owner !in order
    ensures SumBucketCounts(Tally(s, b), order) == SumBucketCounts(s, order)
  {
    if order != [] {
      SumUntouched(s, b, order[1..]);
    }
  }

  lemma {:induction false} SumAfterTally(s: Summary, b: Bucket, order: seq<string>)
    requires Distinct(order) && b.owner in order
    ensures SumBucketCounts(Tally(s, b), order) == SumBucketCounts(s, order) + 1
  {
    if order[0] == b.owner {
      assert b.owner !in order[1..] by {
        forall k | 0 <= k < |order[1..]| ensures order[1..][k] != b.owner {
          assert order[1..][k] == order[k + 1];
        }
      }
      SumUntouched(s, b, order[1..]);
    } else {
      assert b.owner in order[1..];
      assert Distinct(order[1..]) by {
        forall i, j | 0 <= i < j < |order[1..]| ensures order[1..][i] != order[1..][j] {
          assert order[1..][i] == order[i + 1] && order[1..][j] == order[j + 1];
        }
      }
      SumAfterTally(s, b, order[1..]);
    }
  }

  /**
   * Over an enumeration of the owners' uids, the bucket counts of a drain
   * without an abort grow by exactly the number of records drained.
   */
  lemma {:induction false} SumCountsIsRecordCount(th: Thresholds, s0: Summary, bs: seq<Bucket>, order: seq<string>)
    requires NoPanic(th, bs) && Distinct(order)
    requires forall i :: 0 <= i < |bs| ==> bs[i].owner in order
    ensures SumBucketCounts(DrainAll(th, s0, bs).summary, order) == SumBucketCounts(s0, order) + |bs|
  {
    if bs != [] {
      var init, last := bs[..|bs| - 1], bs[|bs| - 1];
      assert NoPanic(th, init) by {
        forall i | 0 <= i < |init| ensures !EmitBucket(th, init[i]).panicked {
          assert init[i] == bs[i];
        }
      }
      SumCountsIsRecordCount(th, s0, init, order);
      DrainFault(th, s0, init);
      assert !EmitBucket(th, last).panicked;
      SumAfterTally(DrainAll(th, s0, init).summary, last, order);
    }
  }

  // ---------------------------------------------------------------------
  // Scenarios
  // ---------------------------------------------------------------------

  /** A 500-byte bucket under a 1000-byte threshold: no size metric, yet its bytes are counted. */
  lemma SmallBucketScenario()
    ensures var th, b := Thresholds(1000, 1), Bucket("user1", "small", Some(500), Some(0), None);
      && !Emits(EmitBucket(th, b).metrics, BucketSizeMetric)
      && Entry(DrainAll(th, ZeroSummary(["user1"]), [b]).summary, "user1") == UserStats(1, 500)
  {
    var th, b := Thresholds(1000, 1), Bucket("user1", "small", Some(500), Some(0), None);
    BucketGating(th, b);
    assert [b][..0] == [];
  }

  /** user1 owns buckets of 10, 20 and 30 bytes; user2 owns none. */
  const ScenarioBuckets: seq<Bucket> :=
    [Bucket("user1", "a", Some(10), None, None), Bucket("user1", "b", Some(20), None, None),
     Bucket("user1", "c", Some(30), None, None)]

  lemma ScenarioTotals()
    ensures CountOwned(ScenarioBuckets, "user1") == 3 && BytesOwned(ScenarioBuckets, "user1") == 60
    ensures CountOwned(ScenarioBuckets, "user2") == 0 && BytesOwned(ScenarioBuckets, "user2") == 0
    ensures Owners(ScenarioBuckets) == {"user1"}
  {
    var bs := ScenarioBuckets;
    assert "user1" != "user2" by { assert "user1"[4] != "user2"[4]; }
    var p1, p2 := bs[..1], bs[..2];
    assert p1[..0] == [] && p2[..1] == p1 && bs[..2] == p2;
    assert CountOwned(p1, "user2") == 0 && BytesOwned(p1, "user2") == 0;
    assert CountOwned(p2, "user2") == 0 && BytesOwned(p2, "user2") == 0;
    assert CountOwned(p1, "user1") == 1 && BytesOwned(p1, "user1") == 10;
    assert CountOwned(p2, "user1") == 2 && BytesOwned(p2, "user1") == 30;
    assert forall j :: 0 <= j < |bs| ==> bs[j].owner == "user1";
  }

  /** Below both thresholds, user1 ends at (3, 60) and user2 at (0, 0). */
  lemma TwoUsersScenario()
    ensures DrainAll(Thresholds(1000, 1000), ZeroSummary(["user1", "user2"]), ScenarioBuckets).summary
      == map["user1" := UserStats(3, 60), "user2" := UserStats(0, 0)]
  {
    ScenarioEntries();
    ScenarioKeys();
    TwoEntries(DrainAll(Thresholds(1000, 1000), ZeroSummary(["user1", "user2"]), ScenarioBuckets).summary);
  }

  /** The scenario's map has the two users as keys. */
  lemma ScenarioKeys()
    ensures DrainAll(Thresholds(1000, 1000), ZeroSummary(["user1", "user2"]), ScenarioBuckets).summary.Keys
      == {"user1", "user2"}
  {
    ScenarioNoPanic();
    ScenarioTotals();
    var s0 := ZeroSummary(["user1", "user2"]);
    assert s0.Keys == {"user1", "user2"};
    KeysKept(Thresholds(1000, 1000), s0, ScenarioBuckets);
  }

  /** A drain without a panic over records whose owners already have entries adds no key. */
  lemma KeysKept(th: Thresholds, s0: Summary, bs: seq<Bucket>)
    requires NoPanic(th, bs) && Owners(bs) <= s0.Keys
    ensures DrainAll(th, s0, bs).summary.Keys == s0.Keys
  {
    DrainMetrics(th, s0, bs);
  }

  /** A map over the two users is determined by their entries. */
  lemma TwoEntries(d: Summary)
    requires d.Keys == {"user1", "user2"}
    requires Entry(d, "user1") == UserStats(3, 60) && Entry(d, "user2") == UserStats(0, 0)
    ensures d == map["user1" := UserStats(3, 60), "user2" := UserStats(0, 0)]
  {
  }

  /** The scenario's entries, from the closed form of the drain. */
  lemma ScenarioEntries()
    ensures var d := DrainAll(Thresholds(1000, 1000), ZeroSummary(["user1", "user2"]), ScenarioBuckets).summary;
      Entry(d, "user1") == UserStats(3, 60) && Entry(d, "user2") == UserStats(0, 0)
  {
    var th, bs := Thresholds(1000, 1000), ScenarioBuckets;
    var s0 := ZeroSummary(["user1", "user2"]);
    ScenarioNoPanic();
    ScenarioTotals();
    DrainTotals(th, s0, bs, "user1");
    DrainTotals(th, s0, bs, "user2");
  }

  /** No scenario bucket reaches a threshold, so none panics. */
  lemma ScenarioNoPanic()
    ensures NoPanic(Thresholds(1000, 1000), ScenarioBuckets)
  {
    forall i | 0 <= i < |ScenarioBuckets| ensures !EmitBucket(Thresholds(1000, 1000), ScenarioBuckets[i]).panicked {
      BucketGating(Thresholds(1000, 1000), ScenarioBuckets[i]);
    }
  }
}
